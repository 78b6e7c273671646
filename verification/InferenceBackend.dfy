/** The program: a backend object that counts, charges and descends the ladder step by step. */
module InferenceBackend {
  import opened Wrappers
  import opened Cost
  import opened Inference

  /** The request body's output limit, set first and lowered to what the window leaves. */
  method PreparePayload(c: Config, mode: Mode, repair: bool) returns (payload: Payload)
    ensures payload == BuildPayload(c, mode, repair)
  {
    var maxTokens: Option<int> := None;
    if c.maxOutput.Some? {
      maxTokens := Some(c.maxOutput.value);
    }
    if c.reservedField {
      return ReservedField;
    }
    if c.window.Some? {
      var available := c.window.value - c.estimate(mode, repair) - c.margin;
      if available < MIN_STRUCTURED_OUTPUT_TOKENS {
        return OverWindow;
      }
      if c.maxOutput.None? || c.maxOutput.value > available {
        maxTokens := Some(available);
      }
    }
    return Payload(maxTokens);
  }

  method CountInto(t: Tally<nat>, v: Option<nat>) returns (r: Tally<nat>)
    ensures r == CountTokens(t, v)
  {
    r := t;
    if v.None? {
      r := r.(complete := false);
    } else {
      r := r.(sum := r.sum + v.value);
    }
  }

  method AddInto(t: Tally<real>, v: Option<real>) returns (r: Tally<real>)
    ensures r == AddAmount(t, v)
  {
    r := t;
    if v.None? {
      r := r.(complete := false);
    } else {
      r := r.(sum := r.sum + v.value);
    }
  }

  /** The running sums after one more response, figure by figure. */
  method TakeIn(account: Account, body: Body, charge: Charge) returns (r: Account)
    requires charge == ChargeOf(body)
    ensures r == account.Add(body)
  {
    hide ChargeOf, CountTokens, AddAmount;
    r := account.(responses := account.responses + 1);
    var prompt := CountInto(r.prompt, body.prompt);
    var completion := CountInto(r.completion, body.completion);
    var total := CountInto(r.total, body.total);
    var input := AddInto(r.input, charge.input);
    var output := AddInto(r.output, charge.output);
    var cost := AddInto(r.cost, charge.total);
    r := Account(r.responses, prompt, completion, total, input, output, cost, r.bases + [charge.basis]);
  }

  /** What becomes of a failure that may be tried again. */
  function Turn(provider: nat -> Reply, n: nat, attempt: nat, limit: nat, category: Category, waits: bool): Posted
    requires 1 <= attempt <= limit
  {
    if attempt >= limit then Failed(category, attempt)
    else if waits then Transport(provider, n + 1, attempt + 1, limit)
    else Escaped(attempt)
  }

  /** One turn of the specified loop, for the replies that may be tried again. */
  lemma TransportTurn(provider: nat -> Reply, n: nat, attempt: nat, limit: nat)
    requires 1 <= attempt <= limit
    ensures var r, reply := Transport(provider, n, attempt, limit), provider(n);
      && (reply.Answer? ==> r == Answered(reply.body, attempt))
      && (reply.NotJson? || reply.NotObject? ==> r == Failed(UnknownFailure, attempt))
      && (reply.Raised? ==> r == Escaped(attempt))
      && (reply.TimedOut? ==> r == Turn(provider, n, attempt, limit, Timeout, reply.waits))
      && (reply.TransportFailed? ==> r == Turn(provider, n, attempt, limit, ProviderUnavailable, reply.waits))
      && (reply.HttpError? ==>
            var category := Classify(reply.status, reply.text);
            r == if Retryable(category) then Turn(provider, n, attempt, limit, category, reply.waits)
                 else Failed(category, attempt))
  {
    hide Classify;
  }

  class Backend {
    /** The reply to the n-th request this backend sends. */
    const provider: nat -> Reply
    const tracker: BudgetTracker?
    var sent: nat

    constructor (provider: nat -> Reply, tracker: BudgetTracker?)
      ensures this.provider == provider && this.tracker == tracker && sent == 0
    {
      this.provider, this.tracker, sent := provider, tracker, 0;
    }

    function Books(): Option<Ledger>
      reads this, if tracker == null then {} else {tracker}
    {
      if tracker == null then None else Some(tracker.State())
    }

    /** One request with its retries: the gate, the count and the send, up to the allowed attempts. */
    method PostOnce(payload: Payload, c: Config, projected: Option<real>) returns (r: Posted)
      modifies this`sent, if tracker == null then {} else {tracker}
      ensures r == Post(c, provider, old(sent), old(Books()), projected)
      ensures sent == old(sent) + r.attempts && Books() == Sent(old(Books()), r.attempts)
    {
      hide CalculateCost, Classify, Ledger.Refuses, Transport;
      var maxAttempts := c.MaxAttempts();
      var attempt := 1;
      ghost var refused := old(Books()).Some? && old(Books()).value.Refuses(projected);
      while attempt <= maxAttempts
        invariant 1 <= attempt <= maxAttempts
        invariant sent == old(sent) + attempt - 1 && Books() == Sent(old(Books()), attempt - 1)
        invariant attempt > 1 ==> !refused
        invariant Transport(provider, old(sent), 1, maxAttempts) == Transport(provider, sent, attempt, maxAttempts)
        decreases maxAttempts - attempt
      {
        if tracker != null {
          VerdictStable(old(tracker.State()), attempt - 1, projected);
          var passed := tracker.BeforeAttempt(projected);
          if !passed {
            return Failed(BudgetExhausted, 0);
          }
          tracker.RecordAttempt();
        }
        TransportTurn(provider, sent, attempt, maxAttempts);
        var reply := provider(sent);
        sent := sent + 1;
        var waits: bool;
        match reply {
          case Raised =>
            return Escaped(attempt);
          case TimedOut(wait) =>
            if attempt >= maxAttempts {
              return Failed(Timeout, attempt);
            }
            waits := wait;
          case TransportFailed(wait) =>
            if attempt >= maxAttempts {
              return Failed(ProviderUnavailable, attempt);
            }
            waits := wait;
          case NotJson =>
            return Failed(UnknownFailure, attempt);
          case NotObject =>
            return Failed(UnknownFailure, attempt);
          case Answer(body) =>
            return Answered(body, attempt);
          case HttpError(status, text, wait) =>
            var error := Classify(status, text);
            if !Retryable(error) || attempt >= maxAttempts {
              return Failed(error, attempt);
            }
            waits := wait;
        }
        if !waits {
          return Escaped(attempt);
        }
        attempt := attempt + 1;
      }
    }

    /** A decoded response is charged to the tracker and added to the running sums. */
    method AccountFor(body: Body, account: Account) returns (r: Account)
      modifies if tracker == null then {} else {tracker}
      ensures r == account.Add(body) && Books() == Charged(old(Books()), body)
    {
      hide ChargeOf, Account.Add;
      var charge := ChargeOf(body);
      if tracker != null {
        tracker.Record(charge.total, body.prompt, body.completion);
      }
      r := TakeIn(account, body, charge);
    }

    /** A decoded response, from its figures to its message: the end of the call, or the next rung. */
    method TakeAnswer(c: Config, p: Progress, body: Body) returns (kind: Option<Kind>, q: Progress)
      modifies if tracker == null then {} else {tracker}
      ensures Stepped(q, sent, Books(), kind) == Digest(c, p, sent, old(Books()), body)
    {
      hide Charged, Account.Add;
      var account := AccountFor(body, p.account);
      q := p.(account := account);
      if body.message.NoMessage? {
        return Some(Reporting(Audited(MalformedOutput), q)), q;
      }
      if body.message.Unhandled? {
        return Some(Uncaught), q;
      }
      q := q.(metrics := body.message.metrics);
      q := q.(parses := q.parses + 1);
      if body.message.parses {
        return Some(Reporting(Succeeded, q)), q;
      }
      q := q.(errors := q.errors + [q.parses]);
      if q.mode == JsonSchema && c.allowObject {
        return None, q.(mode := JsonObject);
      }
      if q.mode == JsonObject && c.allowPrompt {
        return None, q.(mode := PromptJson);
      }
      if q.mode == PromptJson && !q.repair {
        return None, q.(repair := true);
      }
      return Some(Reporting(Audited(MalformedOutput), q)), q;
    }

    /** One turn of the loop: payload, request, and what becomes of its answer or failure. */
    method OneRound(c: Config, p: Progress) returns (kind: Option<Kind>, q: Progress)
      modifies this`sent, if tracker == null then {} else {tracker}
      ensures Stepped(q, sent, Books(), kind) == Rung(c, provider, p, old(sent), old(Books()))
    {
      hide Post, BuildPayload, Digest, Config.Projection, Sent;
      var payload := PreparePayload(c, p.mode, p.repair);
      if !payload.Payload? {
        return Some(Unaudited(payload)), p;
      }
      var posted := PostOnce(payload, c, c.Projection(p.mode, p.repair));
      q := p.(attempts := p.attempts + posted.attempts);
      if posted.Escaped? {
        return Some(Uncaught), q;
      }
      if posted.Failed? {
        if posted.category == StructuredOutputUnsupported {
          if q.mode == JsonSchema && c.allowObject {
            return None, q.(mode := JsonObject);
          }
          if q.mode == JsonObject && c.allowPrompt {
            return None, q.(mode := PromptJson);
          }
        }
        return Some(Reporting(Audited(posted.category), q)), q;
      }
      kind, q := TakeAnswer(c, q, posted.body);
    }

    method GenerateStructured(c: Config) returns (kind: Kind, progress: Progress)
      modifies this`sent, if tracker == null then {} else {tracker}
      ensures End(kind, progress, sent, Books()) == Generate(c, provider, old(sent), old(Books()))
    {
      hide Rung;
      progress := Progress(if c.useSchema then JsonSchema else JsonObject, false, 0, 0, [], NO_ACCOUNT, true);
      while true
        invariant Climb(c, provider, progress, sent, Books()) == Generate(c, provider, old(sent), old(Books()))
        decreases Rank(progress.mode, progress.repair)
      {
        var ended, next := OneRound(c, progress);
        progress := next;
        if ended.Some? {
          return ended.value, progress;
        }
      }
    }
  }
}
