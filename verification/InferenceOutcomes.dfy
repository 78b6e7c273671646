/** Which replies are tried again, and what the last reply of a request makes of it and of its call. */
module InferenceOutcomes {
  import opened Wrappers
  import opened Cost
  import opened Inference
  import opened InferencePromises

  // ---------------------------------------------------------------------------
  // Retries
  // ---------------------------------------------------------------------------

  /** Time-outs, transport failures and five statuses are tried again, once the wait before it has returned. */
  predicate TriedAgain(r: Reply) {
    match r
    case TimedOut(waits) => waits
    case TransportFailed(waits) => waits
    case HttpError(status, _, waits) => status in {408, 429, 502, 503, 504} && waits
    case _ => false
  }

  /** Below the limit, a request is sent again exactly after these replies. */
  lemma RetriedExactly(provider: nat -> Reply, n: nat, attempt: nat, limit: nat)
    requires 1 <= attempt <= limit
    ensures var r := Transport(provider, n, attempt, limit);
      && (r.attempts > attempt <==> attempt < limit && TriedAgain(provider(n)))
      && (attempt < limit && TriedAgain(provider(n)) ==> r == Transport(provider, n + 1, attempt + 1, limit))
  {
    if attempt < limit {
      AttemptsGrow(provider, n + 1, attempt + 1, limit);
    }
  }

  lemma AttemptsGrow(provider: nat -> Reply, n: nat, attempt: nat, limit: nat)
    requires 1 <= attempt <= limit
    ensures attempt <= Transport(provider, n, attempt, limit).attempts <= limit
  {
    TransportCounts(provider, n, attempt, limit);
  }

  /** The loop goes through all replies that are tried again, and ends at the first other one or at its limit. */
  lemma {:induction false} LoopEndsAt(provider: nat -> Reply, n: nat, attempt: nat, limit: nat)
    requires 1 <= attempt <= limit
    ensures var r := Transport(provider, n, attempt, limit);
      && attempt <= r.attempts <= limit
      && (forall j :: n <= j < n + r.attempts - attempt ==> TriedAgain(provider(j)))
      && (r.attempts < limit ==> !TriedAgain(provider(n + r.attempts - attempt)))
    decreases limit - attempt
  {
    hide Transport, TriedAgain;
    AttemptsGrow(provider, n, attempt, limit);
    RetriedExactly(provider, n, attempt, limit);
    if attempt < limit && TriedAgain(provider(n)) {
      LoopEndsAt(provider, n + 1, attempt + 1, limit);
    }
  }

  // ---------------------------------------------------------------------------
  // Categories
  // ---------------------------------------------------------------------------

  /** The replies that a failed request is put into a category for, category by category. */
  predicate Means(r: Reply, category: Category) {
    match category
    case Authentication => r.HttpError? && r.status == 401
    case Permission => r.HttpError? && r.status == 403
    case Timeout => r.TimedOut? || (r.HttpError? && r.status == 408)
    case RateLimit => r.HttpError? && r.status == 429
    case ProviderUnavailable => r.TransportFailed? || (r.HttpError? && r.status in {502, 503, 504})
    case ModelUnavailable =>
      r.HttpError? && !OwnStatus(r.status) && (r.status == 404 || r.text.modelMissing)
    case StructuredOutputUnsupported =>
      r.HttpError? && r.status in {400, 406, 415, 422} && NamesFormat(r.text) && !r.text.modelMissing
    case InvalidRequest =>
      r.HttpError? && r.status in {400, 405, 409, 415, 422} && !r.text.modelMissing &&
      !(r.status in {400, 415, 422} && NamesFormat(r.text))
    case UnknownFailure =>
      || r.NotJson? || r.NotObject?
      || (r.HttpError? && !OwnStatus(r.status) && !r.text.modelMissing &&
          r.status !in {400, 404, 405, 409, 415, 422} && !(r.status == 406 && NamesFormat(r.text)))
    case MalformedOutput => false
    case BudgetExhausted => false
  }

  /** The statuses whose category does not depend on the text. */
  predicate OwnStatus(status: nat) {
    status in {401, 403, 408, 429, 502, 503, 504}
  }

  predicate NamesFormat(text: ErrorText) {
    text.responseFormat && text.unsupported
  }

  /** No reply is in two categories. */
  lemma OneMeaning(r: Reply, a: Category, b: Category)
    requires Means(r, a) && Means(r, b)
    ensures a == b
  {
  }

  /** What one reply makes of a request that ends with it. */
  predicate Ends(r: Reply, p: Posted) {
    match p
    case Answered(body, _) => r == Answer(body)
    case Escaped(_) => r.Raised? || r == TimedOut(false) || r == TransportFailed(false) ||
                       (r.HttpError? && !r.waits && r.status in {408, 429, 502, 503, 504})
    case Failed(category, _) => Means(r, category)
  }

  lemma EndsHere(provider: nat -> Reply, n: nat, attempt: nat, limit: nat)
    requires 1 <= attempt <= limit && Transport(provider, n, attempt, limit).attempts == attempt
    ensures Ends(provider(n), Transport(provider, n, attempt, limit))
    ensures Transport(provider, n, attempt, limit).Escaped? ==> attempt < limit || provider(n).Raised?
  {
    if attempt < limit {
      AttemptsGrow(provider, n + 1, attempt + 1, limit);
    }
  }

  /** A request ends as its last reply says: answered, put into the category of that reply, or by an exception. */
  lemma {:induction false} EndsAsLastReply(provider: nat -> Reply, n: nat, attempt: nat, limit: nat)
    requires 1 <= attempt <= limit
    ensures var r := Transport(provider, n, attempt, limit);
      && attempt <= r.attempts && Ends(provider(n + r.attempts - attempt), r)
      && (r.Escaped? ==> r.attempts < limit || provider(n + r.attempts - attempt).Raised?)
    decreases limit - attempt
  {
    hide Transport, Ends, TriedAgain;
    AttemptsGrow(provider, n, attempt, limit);
    RetriedExactly(provider, n, attempt, limit);
    if Transport(provider, n, attempt, limit).attempts == attempt {
      EndsHere(provider, n, attempt, limit);
    } else {
      EndsAsLastReply(provider, n + 1, attempt + 1, limit);
    }
  }

  // ---------------------------------------------------------------------------
  // The ladder and the call
  // ---------------------------------------------------------------------------

  lemma PostEnds(c: Config, provider: nat -> Reply, n: nat, ledger: Option<Ledger>, projected: Option<real>)
    ensures var r := Post(c, provider, n, ledger, projected);
      if r.attempts == 0 then r == Failed(BudgetExhausted, 0) && ledger.Some? && ledger.value.Refuses(projected)
      else
        var last := provider(n + r.attempts - 1);
        && (r.Answered? <==> last.Answer?) && (r.Answered? ==> last.body == r.body)
        && (r.Failed? ==> Means(last, r.category) && r.category != BudgetExhausted)
        && (Means(last, StructuredOutputUnsupported) ==> r.Failed? && r.category == StructuredOutputUnsupported)
  {
    hide Transport, Ledger.Refuses;
    var r := Post(c, provider, n, ledger, projected);
    if r.attempts > 0 {
      EndsAsLastReply(provider, n, 1, c.MaxAttempts());
    }
    TransportCounts(provider, n, 1, c.MaxAttempts());
  }

  /** An answer whose message does not parse. */
  predicate Unparsed(r: Reply) {
    r.Answer? && r.body.message.Message? && !r.body.message.parses
  }

  lemma NoAnswer(r: Reply)
    ensures !r.Answer? ==> !Unparsed(r)
  {
  }

  lemma NotRejected(body: Body)
    ensures !Means(Answer(body), StructuredOutputUnsupported)
  {
  }

  /** How a call may end on a reply: with a result, or in a category. */
  predicate EndsCall(r: Reply, kind: Kind) {
    match kind
    case Succeeded => r.Answer? && r.body.message == Message(true, true)
    case Audited(category) =>
      Means(r, category) ||
      (category == MalformedOutput && (Unparsed(r) || (r.Answer? && r.body.message.NoMessage?)))
    case _ => true
  }

  lemma DigestEnds(c: Config, p: Progress, n: nat, ledger: Option<Ledger>, body: Body)
    ensures var s := Digest(c, p, n, ledger, body);
      && s.sent == n
      && (s.kind.None? <==>
            && Unparsed(Answer(body))
            && ((p.mode == JsonSchema && c.allowObject) || (p.mode == JsonObject && c.allowPrompt) ||
                (p.mode == PromptJson && !p.repair)))
      && (s.kind.None? ==>
            && s.progress.mode == (if p.mode == JsonSchema then JsonObject else PromptJson)
            && s.progress.repair == (p.repair || p.mode == PromptJson))
      && (s.kind.Some? ==> EndsCall(Answer(body), s.kind.value) && s.kind.value != Audited(BudgetExhausted))
  {
    hide Charged, Account.Add;
  }

  /**
   * A rung hands on to the next one exactly if its last reply is an answer that does not parse or a
   * rejection of the output mode, and the configuration has a rung left for it: JSON objects after the
   * schema, prompts after JSON objects, and after an unparsed answer to a prompt one repair.
   */
  lemma HandsOn(c: Config, provider: nat -> Reply, p: Progress, n: nat, ledger: Option<Ledger>)
    requires ParsesRecorded(p, None)
    ensures var s := Rung(c, provider, p, n, ledger);
      var rejected := s.sent > n && Means(provider(s.sent - 1), StructuredOutputUnsupported);
      var unparsed := s.sent > n && Unparsed(provider(s.sent - 1));
      && (s.kind.None? <==>
            || ((rejected || unparsed) && p.mode == JsonSchema && c.allowObject)
            || ((rejected || unparsed) && p.mode == JsonObject && c.allowPrompt)
            || (unparsed && p.mode == PromptJson && !p.repair))
      && (s.kind.None? ==>
            && s.progress.mode == (if p.mode == JsonSchema then JsonObject else PromptJson)
            && s.progress.repair == (p.repair || p.mode == PromptJson))
  {
    hide Post, Digest, BuildPayload, Ledger.Refuses, Config.Projection, Means, Unparsed, Answers, ParsesRecorded;
    RungSound(c, provider, p, n, ledger);
    PostEnds(c, provider, n, ledger, c.Projection(p.mode, p.repair));
    var posted := Post(c, provider, n, ledger, c.Projection(p.mode, p.repair));
    if posted.Answered? {
      NotRejected(posted.body);
      DigestEnds(c, p.(attempts := p.attempts + posted.attempts), n + posted.attempts,
                 Sent(ledger, posted.attempts), posted.body);
    } else if posted.attempts > 0 {
      NoAnswer(provider(n + posted.attempts - 1));
    }
  }

  lemma RungEnds(c: Config, provider: nat -> Reply, p: Progress, n: nat, ledger: Option<Ledger>)
    requires ParsesRecorded(p, None)
    ensures var s := Rung(c, provider, p, n, ledger);
      s.kind.Some? && (s.kind.value.Succeeded? || s.kind.value.Audited?) ==>
        if s.kind.value == Audited(BudgetExhausted) then
          s.sent == n && s.ledger.Some? && s.ledger.value.Refuses(c.Projection(s.progress.mode, s.progress.repair))
        else s.sent > n && EndsCall(provider(s.sent - 1), s.kind.value)
  {
    hide Post, Digest, BuildPayload, Ledger.Refuses, Config.Projection, Means, Unparsed, Answers, ParsesRecorded;
    RungSound(c, provider, p, n, ledger);
    PostEnds(c, provider, n, ledger, c.Projection(p.mode, p.repair));
    var posted := Post(c, provider, n, ledger, c.Projection(p.mode, p.repair));
    if posted.Answered? {
      NotRejected(posted.body);
      DigestEnds(c, p.(attempts := p.attempts + posted.attempts), n + posted.attempts,
                 Sent(ledger, posted.attempts), posted.body);
    } else if posted.attempts > 0 {
      NoAnswer(provider(n + posted.attempts - 1));
    }
  }

  /**
   * A call succeeds only on a last reply that parses; its audited error has the category of its last
   * reply, or says that the budget refuses the request that would have come next.
   */
  lemma {:induction false} CallEnds(c: Config, provider: nat -> Reply, p: Progress, n: nat, ledger: Option<Ledger>)
    requires ParsesRecorded(p, None)
    ensures var e := Climb(c, provider, p, n, ledger);
      && e.sent >= n
      && (e.kind.Succeeded? || e.kind.Audited? ==>
        if e.kind == Audited(BudgetExhausted) then
          e.ledger.Some? && e.ledger.value.Refuses(c.Projection(e.progress.mode, e.progress.repair))
        else e.sent > n && EndsCall(provider(e.sent - 1), e.kind))
    decreases Rank(p.mode, p.repair)
  {
    hide Rung, EndsCall, Ledger.Refuses, CalculateCost;
    var s := Rung(c, provider, p, n, ledger);
    RungSound(c, provider, p, n, ledger);
    RungEnds(c, provider, p, n, ledger);
    if s.kind.None? {
      CallEnds(c, provider, s.progress, s.sent, s.ledger);
    }
  }

  /** As long as every reply is tried again, a request is sent once more than there are retries. */
  lemma AttemptsAllowed(c: Config, provider: nat -> Reply, n: nat)
    requires forall j :: n <= j ==> TriedAgain(provider(j))
    ensures Post(c, provider, n, None, None).attempts == if c.maxRetries >= 0 then c.maxRetries + 1 else 1
  {
    hide Transport, TriedAgain;
    LoopEndsAt(provider, n, 1, c.MaxAttempts());
  }

  /** The output mode is one that the configuration asks for or allows, and a repair is one of a prompt. */
  predicate ModeAllowed(c: Config, mode: Mode, repair: bool) {
    && (mode == JsonSchema ==> c.useSchema)
    && (mode == JsonObject ==> !c.useSchema || c.allowObject)
    && (mode == PromptJson ==> c.allowPrompt && (!c.useSchema || c.allowObject))
    && (repair ==> mode == PromptJson)
  }

  lemma {:induction false} ModesAllowed(c: Config, provider: nat -> Reply, p: Progress, n: nat, ledger: Option<Ledger>)
    requires ParsesRecorded(p, None) && ModeAllowed(c, p.mode, p.repair)
    ensures var e := Climb(c, provider, p, n, ledger);
      ModeAllowed(c, e.progress.mode, e.progress.repair)
    decreases Rank(p.mode, p.repair)
  {
    hide Rung, Means, Unparsed;
    var s := Rung(c, provider, p, n, ledger);
    RungSound(c, provider, p, n, ledger);
    HandsOn(c, provider, p, n, ledger);
    if s.kind.None? {
      ModesAllowed(c, provider, s.progress, s.sent, s.ledger);
    } else {
      ModeStays(c, provider, p, n, ledger);
    }
  }

  lemma ModeStays(c: Config, provider: nat -> Reply, p: Progress, n: nat, ledger: Option<Ledger>)
    ensures var s := Rung(c, provider, p, n, ledger);
      s.kind.Some? ==> s.progress.mode == p.mode && s.progress.repair == p.repair
  {
    hide Post, Charged, Account.Add, BuildPayload, Config.Projection;
  }

  /** A call starts with the schema if the configuration says so, and ends in a mode that it allows. */
  lemma CallModes(c: Config, provider: nat -> Reply, n: nat, ledger: Option<Ledger>)
    ensures var e := Generate(c, provider, n, ledger);
      && ModeAllowed(c, e.progress.mode, e.progress.repair)
      && (c.useSchema && !c.allowObject ==> e.progress.mode == JsonSchema)
  {
    hide Climb;
    ModesAllowed(c, provider, Start(c), n, ledger);
  }
}
