/** The structured-generation machine: a retry loop inside a ladder of output modes. */
module Inference {
  import opened Wrappers
  import opened Cost

  datatype Category =
    | Authentication | Permission | RateLimit | Timeout | ProviderUnavailable | ModelUnavailable
    | InvalidRequest | StructuredOutputUnsupported | MalformedOutput | BudgetExhausted | UnknownFailure

  predicate Retryable(c: Category) {
    c == RateLimit || c == Timeout || c == ProviderUnavailable
  }

  /** What the text of an error response mentions. */
  datatype ErrorText = ErrorText(modelMissing: bool, responseFormat: bool, unsupported: bool)

  function Classify(status: nat, text: ErrorText): Category {
    if status == 401 then Authentication
    else if status == 403 then Permission
    else if status == 408 then Timeout
    else if status == 429 then RateLimit
    else if status in {502, 503, 504} then ProviderUnavailable
    else if status == 404 || text.modelMissing then ModelUnavailable
    else if status in {400, 406, 415, 422} && text.responseFormat && text.unsupported then StructuredOutputUnsupported
    else if status in {400, 405, 409, 415, 422} then InvalidRequest
    else UnknownFailure
  }

  /**
   * The assistant message of a response, if there is exactly the expected one: whether it parses, and
   * whether the metrics of its log probabilities can be computed. Reading or parsing it may also raise
   * an exception that the call does not expect.
   */
  datatype Message = NoMessage | Unhandled | Message(parses: bool, metrics: bool)

  /** A decoded response: its token counts, its reported costs, the prices that apply to its provider. */
  datatype Body = Body(prompt: Option<nat>, completion: Option<nat>, total: Option<nat>,
                       cost: Reported, inputCost: Reported, outputCost: Reported,
                       pricing: Pricing, message: Message)

  /**
   * What becomes of a request. Where it may be retried, `waits` says that the wait before the retry
   * returns. `Raised` is any other exception, while the request is sent or while its status, its
   * text or its figures are read.
   */
  datatype Reply =
    | TimedOut(waits: bool)
    | TransportFailed(waits: bool)
    | HttpError(status: nat, text: ErrorText, waits: bool)
    | NotJson
    | NotObject
    | Raised
    | Answer(body: Body)

  datatype Mode = JsonSchema | JsonObject | PromptJson

  /**
   * The configuration of one call, with what depends on the prompt: its estimated token count and
   * its length in bytes in every mode, with or without the repair instruction.
   */
  datatype Config = Config(maxRetries: int, maxOutput: Option<nat>, window: Option<int>, margin: int,
                           useSchema: bool, allowObject: bool, allowPrompt: bool, reservedField: bool,
                           projectedPricing: Option<Pricing>,
                           estimate: (Mode, bool) -> nat, bytes: (Mode, bool) -> nat)
  {
    function MaxAttempts(): nat {
      if maxRetries + 1 > 1 then maxRetries + 1 else 1
    }

    /** The cost projected for one request; none without a price resolver or an output limit. */
    function Projection(mode: Mode, repair: bool): Option<real> {
      if projectedPricing.None? || maxOutput.None? then None
      else CalculateCost(Some(bytes(mode, repair)), maxOutput, projectedPricing.value, Missing, Missing, Missing).total
    }
  }

  // ---------------------------------------------------------------------------
  // Payload
  // ---------------------------------------------------------------------------

  const MIN_STRUCTURED_OUTPUT_TOKENS := 64

  datatype Payload = ReservedField | OverWindow | Payload(maxTokens: Option<int>)

  function BuildPayload(c: Config, mode: Mode, repair: bool): Payload {
    if c.reservedField then ReservedField
    else if c.window.None? then Payload(if c.maxOutput.Some? then Some(c.maxOutput.value) else None)
    else
      var available := c.window.value - c.estimate(mode, repair) - c.margin;
      if available < MIN_STRUCTURED_OUTPUT_TOKENS then OverWindow
      else if c.maxOutput.None? || c.maxOutput.value > available then Payload(Some(available))
      else Payload(Some(c.maxOutput.value))
  }

  /** With a configured window, every payload asks for an output that fits in what the prompt and
      the margin leave, and for at least the structured minimum unless less was configured: for all that
      was configured or all that is left, whichever is less. */
  lemma PayloadFitsWindow(c: Config, mode: Mode, repair: bool)
    requires c.window.Some? && BuildPayload(c, mode, repair).Payload?
    ensures var m := BuildPayload(c, mode, repair).maxTokens;
      && m.Some? && c.estimate(mode, repair) + m.value + c.margin <= c.window.value
      && (m.value >= MIN_STRUCTURED_OUTPUT_TOKENS || (c.maxOutput.Some? && m.value == c.maxOutput.value))
      && (c.maxOutput.Some? ==> m.value <= c.maxOutput.value)
      && ((c.maxOutput.Some? && m.value == c.maxOutput.value) ||
          c.estimate(mode, repair) + m.value + c.margin == c.window.value)
  {
  }

  /** A payload is refused for its length only if not even 64 tokens of output are left for it. */
  lemma PayloadRefused(c: Config, mode: Mode, repair: bool)
    ensures BuildPayload(c, mode, repair) == OverWindow <==>
      !c.reservedField && c.window.Some? && c.estimate(mode, repair) + 64 + c.margin > c.window.value
  {
  }

  // ---------------------------------------------------------------------------
  // One request with its retries
  // ---------------------------------------------------------------------------

  /** How a request with its retries ends; `Escaped` is an exception that the call does not catch. */
  datatype Posted =
    | Answered(body: Body, attempts: nat)
    | Failed(category: Category, attempts: nat)
    | Escaped(attempts: nat)

  /** After a retryable failure: the last attempt fails, the others wait for the next one. */
  predicate GoesOn(attempt: nat, limit: nat, waits: bool) {
    attempt < limit && waits
  }

  function Stopped(category: Category, attempt: nat, limit: nat): Posted {
    if attempt >= limit then Failed(category, attempt) else Escaped(attempt)
  }

  /** The retry loop from attempt number `attempt` on, when `n` requests have been sent in all. */
  function Transport(provider: nat -> Reply, n: nat, attempt: nat, limit: nat): Posted
    requires 1 <= attempt <= limit
    decreases limit - attempt
  {
    match provider(n)
    case Answer(body) => Answered(body, attempt)
    case NotJson => Failed(UnknownFailure, attempt)
    case NotObject => Failed(UnknownFailure, attempt)
    case Raised => Escaped(attempt)
    case TimedOut(waits) =>
      if GoesOn(attempt, limit, waits) then Transport(provider, n + 1, attempt + 1, limit)
      else Stopped(Timeout, attempt, limit)
    case TransportFailed(waits) =>
      if GoesOn(attempt, limit, waits) then Transport(provider, n + 1, attempt + 1, limit)
      else Stopped(ProviderUnavailable, attempt, limit)
    case HttpError(status, text, waits) =>
      if !Retryable(Classify(status, text)) then Failed(Classify(status, text), attempt)
      else if GoesOn(attempt, limit, waits) then Transport(provider, n + 1, attempt + 1, limit)
      else Stopped(Classify(status, text), attempt, limit)
  }

  function Post(c: Config, provider: nat -> Reply, n: nat, ledger: Option<Ledger>, projected: Option<real>): Posted {
    if ledger.Some? && ledger.value.Refuses(projected) then Failed(BudgetExhausted, 0)
    else Transport(provider, n, 1, c.MaxAttempts())
  }

  // ---------------------------------------------------------------------------
  // Accounting
  // ---------------------------------------------------------------------------

  function ChargeOf(b: Body): Charge {
    CalculateCost(b.prompt, b.completion, b.pricing, b.cost, b.inputCost, b.outputCost)
  }

  /** A running sum together with whether every response has contributed to it. */
  datatype Tally<A> = Tally(sum: A, complete: bool)

  function CountTokens(t: Tally<nat>, v: Option<nat>): Tally<nat> {
    if v.None? then t.(complete := false) else t.(sum := t.sum + v.value)
  }

  function AddAmount(t: Tally<real>, v: Option<real>): Tally<real> {
    if v.None? then t.(complete := false) else t.(sum := t.sum + v.value)
  }

  datatype Account = Account(responses: nat, prompt: Tally<nat>, completion: Tally<nat>, total: Tally<nat>,
                             input: Tally<real>, output: Tally<real>, cost: Tally<real>, bases: seq<Basis>)
  {
    function Add(b: Body): Account {
      var charge := ChargeOf(b);
      Account(responses + 1, CountTokens(prompt, b.prompt), CountTokens(completion, b.completion),
              CountTokens(total, b.total), AddAmount(input, charge.input), AddAmount(output, charge.output),
              AddAmount(cost, charge.total), bases + [charge.basis])
    }

    function Reported<A>(t: Tally<A>): Option<A> {
      if responses > 0 && t.complete then Some(t.sum) else None
    }

    function TotalTokens(): Option<nat> {
      if responses > 0 && total.complete then Some(total.sum)
      else if Reported(prompt).Some? && Reported(completion).Some? then Some(prompt.sum + completion.sum)
      else None
    }

    function AggregateBasis(): Basis {
      if responses == 0 || !cost.complete then Unknown
      else
        var seen := set b | b in bases;
        if seen == {Exact} then Exact
        else if seen <= {Exact, ProviderReported} then ProviderReported
        else Estimated
    }
  }

  const NO_ACCOUNT := Account(0, Tally(0, true), Tally(0, true), Tally(0, true),
                              Tally(0.0, true), Tally(0.0, true), Tally(0.0, true), [])

  // ---------------------------------------------------------------------------
  // The ladder
  // ---------------------------------------------------------------------------

  /** What one call has gathered so far. `errors` holds the parse attempts that failed; `metrics` says
      whether the metrics of the last log probabilities can be computed, as every report needs them. */
  datatype Progress = Progress(mode: Mode, repair: bool, attempts: nat, parses: nat, errors: seq<nat>,
                               account: Account, metrics: bool)

  datatype Report = Report(attempts: nat, parses: nat, errors: seq<nat>, mode: Mode,
                           promptTokens: Option<nat>, completionTokens: Option<nat>, totalTokens: Option<nat>,
                           input: Option<real>, output: Option<real>, cost: Option<real>, basis: Basis)

  function ReportOf(p: Progress): Report {
    Report(p.attempts, p.parses, p.errors, p.mode,
           p.account.Reported(p.account.prompt), p.account.Reported(p.account.completion), p.account.TotalTokens(),
           p.account.Reported(p.account.input), p.account.Reported(p.account.output),
           p.account.Reported(p.account.cost),
           p.account.AggregateBasis())
  }

  /** How a call ends: with a result, with an audited error, with a payload error that nothing audits, or
      with another exception that leaves no report either. */
  datatype Kind = Succeeded | Audited(category: Category) | Unaudited(reason: Payload) | Uncaught

  /** A result or an audited error, unless its report cannot be made. */
  function Reporting(kind: Kind, p: Progress): Kind {
    if p.metrics then kind else Uncaught
  }

  /** The end of a call: what was gathered, the number of requests sent in all, the state of the budget. */
  datatype End = End(kind: Kind, progress: Progress, sent: nat, ledger: Option<Ledger>)
  {
    /** The HTTP attempts that the result or the error reports. */
    function ReportedAttempts(): nat {
      if kind.Unaudited? || kind.Uncaught? then 0 else ReportOf(progress).attempts
    }
  }

  function Rank(mode: Mode, repair: bool): nat {
    match mode
    case JsonSchema => 3
    case JsonObject => 2
    case PromptJson => if repair then 0 else 1
  }

  /** The next rung, if the configuration allows one. A rejection by the provider never leads to a repair. */
  function NextRung(c: Config, mode: Mode, repair: bool, rejected: bool): (r: Option<(Mode, bool)>)
    ensures r.Some? ==> Rank(r.value.0, r.value.1) < Rank(mode, repair)
  {
    if mode == JsonSchema && c.allowObject then Some((JsonObject, repair))
    else if mode == JsonObject && c.allowPrompt then Some((PromptJson, repair))
    else if mode == PromptJson && !repair && !rejected then Some((PromptJson, true))
    else None
  }

  function Sent(ledger: Option<Ledger>, n: nat): Option<Ledger> {
    if ledger.None? then None else Some(ledger.value.Attempted(n))
  }

  function Charged(ledger: Option<Ledger>, b: Body): Option<Ledger> {
    if ledger.None? then None else Some(ledger.value.Recorded(ChargeOf(b).total, b.prompt, b.completion))
  }

  /** One rung: where the machine stands after it, and how the call ends if it ends here. */
  datatype Stepped = Stepped(progress: Progress, sent: nat, ledger: Option<Ledger>, kind: Option<Kind>)

  /** After an unusable answer: down to the next rung, or the given end. */
  function Descend(c: Config, p: Progress, n: nat, ledger: Option<Ledger>, rejected: bool, end: Category): Stepped {
    var next := NextRung(c, p.mode, p.repair, rejected);
    if next.None? then Stepped(p, n, ledger, Some(Reporting(Audited(end), p)))
    else Stepped(p.(mode := next.value.0, repair := next.value.1), n, ledger, None)
  }

  /** Taking a decoded response in: accounting first, then its message. */
  function Digest(c: Config, p: Progress, n: nat, ledger: Option<Ledger>, body: Body): Stepped {
    var r := p.(account := p.account.Add(body));
    var l := Charged(ledger, body);
    match body.message
    case NoMessage => Stepped(r, n, l, Some(Reporting(Audited(MalformedOutput), r)))
    case Unhandled => Stepped(r, n, l, Some(Uncaught))
    case Message(parses, metrics) =>
      var s := r.(parses := r.parses + 1, metrics := metrics);
      if parses then Stepped(s, n, l, Some(Reporting(Succeeded, s)))
      else Descend(c, s.(errors := s.errors + [s.parses]), n, l, false, MalformedOutput)
  }

  function Rung(c: Config, provider: nat -> Reply, p: Progress, n: nat, ledger: Option<Ledger>): (r: Stepped)
    ensures r.kind.None? ==> Rank(r.progress.mode, r.progress.repair) < Rank(p.mode, p.repair)
  {
    var payload := BuildPayload(c, p.mode, p.repair);
    if !payload.Payload? then Stepped(p, n, ledger, Some(Unaudited(payload)))
    else
      var posted := Post(c, provider, n, ledger, c.Projection(p.mode, p.repair));
      var q := p.(attempts := p.attempts + posted.attempts);
      var m, l := n + posted.attempts, Sent(ledger, posted.attempts);
      if posted.Answered? then Digest(c, q, m, l, posted.body)
      else if posted.Escaped? then Stepped(q, m, l, Some(Uncaught))
      else if posted.category == StructuredOutputUnsupported then Descend(c, q, m, l, true, posted.category)
      else Stepped(q, m, l, Some(Reporting(Audited(posted.category), q)))
  }

  function Climb(c: Config, provider: nat -> Reply, p: Progress, n: nat, ledger: Option<Ledger>): End
    decreases Rank(p.mode, p.repair)
  {
    var s := Rung(c, provider, p, n, ledger);
    if s.kind.Some? then End(s.kind.value, s.progress, s.sent, s.ledger)
    else Climb(c, provider, s.progress, s.sent, s.ledger)
  }

  function Start(c: Config): Progress {
    Progress(if c.useSchema then JsonSchema else JsonObject, false, 0, 0, [], NO_ACCOUNT, true)
  }

  function Generate(c: Config, provider: nat -> Reply, n: nat, ledger: Option<Ledger>): End {
    Climb(c, provider, Start(c), n, ledger)
  }
}
