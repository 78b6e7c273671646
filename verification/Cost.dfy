/** Inference pricing and the per-run budget. */
module Cost {
  import opened Wrappers

  /** A value found where an amount is expected. */
  datatype Reported = Missing | Boolean | Unparsable | NonFinite | Amount(r: real)

  function DecimalOrNone(v: Reported): Option<real> {
    match v
    case Amount(r) => if r >= 0.0 then Some(r) else None
    case _ => None
  }

  datatype Basis = Exact | ProviderReported | Estimated | Unknown

  datatype Charge = Charge(input: Option<real>, output: Option<real>, total: Option<real>, basis: Basis)

  /** The values under the accepted names of each price, in the order they are looked up. */
  datatype Pricing = Pricing(inputs: seq<Reported>, outputs: seq<Reported>)

  function FirstPresent(values: seq<Reported>): Reported {
    if values == [] then Missing
    else if values[0] != Missing then values[0]
    else FirstPresent(values[1..])
  }

  const MILLION := 1000000.0

  /** What tokens cost at a rate per million. */
  function TokenCost(tokens: nat, rate: real): real {
    tokens as real * rate / MILLION
  }

  function CalculateCost(prompt: Option<nat>, completion: Option<nat>, pricing: Pricing,
                         total: Reported, input: Reported, output: Reported): Charge
  {
    var reportedInput, reportedOutput := DecimalOrNone(input), DecimalOrNone(output);
    if reportedInput.Some? && reportedOutput.Some? then
      Charge(reportedInput, reportedOutput, Some(reportedInput.value + reportedOutput.value), Exact)
    else if DecimalOrNone(total).Some? then
      Charge(None, None, DecimalOrNone(total), ProviderReported)
    else
      var inputRate := DecimalOrNone(FirstPresent(pricing.inputs));
      var outputRate := DecimalOrNone(FirstPresent(pricing.outputs));
      if prompt.None? || completion.None? || inputRate.None? || outputRate.None? then
        Charge(None, None, None, Unknown)
      else
        var inputCost := TokenCost(prompt.value, inputRate.value);
        var outputCost := TokenCost(completion.value, outputRate.value);
        Charge(Some(inputCost), Some(outputCost), Some(inputCost + outputCost), Estimated)
  }

  lemma TokenCostNonNegative(tokens: nat, rate: real)
    requires rate >= 0.0
    ensures TokenCost(tokens, rate) >= 0.0
  {
    assert tokens as real * rate >= 0.0;
  }

  /** A charge splits into input and output or not at all, and is missing exactly on unknown basis. */
  lemma ChargeShape(prompt: Option<nat>, completion: Option<nat>, pricing: Pricing,
                    total: Reported, input: Reported, output: Reported)
    ensures var c := CalculateCost(prompt, completion, pricing, total, input, output);
      && (c.input.Some? <==> c.output.Some?)
      && (c.input.Some? ==>
            c.total == Some(c.input.value + c.output.value) && c.input.value >= 0.0 && c.output.value >= 0.0)
      && (c.total.None? <==> c.basis == Unknown)
      && (c.total.Some? ==> c.total.value >= 0.0)
      && (c.input.None? && c.total.Some? <==> c.basis == ProviderReported)
  {
    hide TokenCost, FirstPresent;
    var inputRate := DecimalOrNone(FirstPresent(pricing.inputs));
    var outputRate := DecimalOrNone(FirstPresent(pricing.outputs));
    if prompt.Some? && inputRate.Some? {
      TokenCostNonNegative(prompt.value, inputRate.value);
    }
    if completion.Some? && outputRate.Some? {
      TokenCostNonNegative(completion.value, outputRate.value);
    }
  }

  /** An amount that is taken for a cost or a rate: finite and not negative. */
  predicate Valid(v: Reported) {
    v.Amount? && v.r >= 0.0
  }

  /** Entry `k` is the first one that is there. */
  ghost predicate FirstAt(values: seq<Reported>, k: int) {
    0 <= k < |values| && values[k] != Missing && forall i :: 0 <= i < k ==> values[i] == Missing
  }

  /** The first entry that is there is the one that counts, even if it is no valid rate and a later one is. */
  lemma {:induction false} FirstPresentAt(values: seq<Reported>)
    ensures forall k :: FirstAt(values, k) ==> FirstPresent(values) == values[k]
    ensures FirstPresent(values) == Missing <==> forall k :: 0 <= k < |values| ==> values[k] == Missing
  {
    if values != [] {
      FirstPresentAt(values[1..]);
      assert forall k :: 0 < k < |values| ==> values[k] == values[1..][k - 1];
      forall k | FirstAt(values, k) ensures FirstPresent(values) == values[k] {
        if k > 0 {
          assert values[0] == Missing && FirstAt(values[1..], k - 1);
        }
      }
    }
  }

  ghost predicate Priced(values: seq<Reported>) {
    exists k :: FirstAt(values, k) && Valid(values[k])
  }

  lemma {:induction false} PricedWhen(values: seq<Reported>)
    ensures Priced(values) <==> DecimalOrNone(FirstPresent(values)).Some?
  {
    FirstPresentAt(values);
    if FirstPresent(values) != Missing {
      var k := FirstPosition(values);
      assert FirstAt(values, k);
    }
  }

  lemma {:induction false} FirstPosition(values: seq<Reported>) returns (k: int)
    requires FirstPresent(values) != Missing
    ensures FirstAt(values, k)
  {
    k := 0;
    if values[0] == Missing {
      k := FirstPosition(values[1..]);
      assert forall i :: 0 < i < |values| ==> values[i] == values[1..][i - 1];
      k := k + 1;
    }
  }

  /**
   * Both reported parts come before a reported total, and that before an estimate, each with its own
   * figures; an estimate needs both token counts and both rates, and depends on nothing that was reported.
   */
  lemma ChargePrecedence(prompt: Option<nat>, completion: Option<nat>, pricing: Pricing,
                         total: Reported, input: Reported, output: Reported)
    ensures var c := CalculateCost(prompt, completion, pricing, total, input, output);
      if Valid(input) && Valid(output) then
        c == Charge(Some(input.r), Some(output.r), Some(input.r + output.r), Exact)
      else if Valid(total) then
        c == Charge(None, None, Some(total.r), ProviderReported)
      else
        && c == CalculateCost(prompt, completion, pricing, Missing, Missing, Missing)
        && c.basis == (if prompt.Some? && completion.Some? && Priced(pricing.inputs) && Priced(pricing.outputs)
                       then Estimated else Unknown)
  {
    hide TokenCost, FirstPresent, Priced;
    PricedWhen(pricing.inputs);
    PricedWhen(pricing.outputs);
  }

  /** An estimate from token counts and prices alone. */
  function Estimate(prompt: nat, completion: nat, pricing: Pricing): Charge {
    CalculateCost(Some(prompt), Some(completion), pricing, Missing, Missing, Missing)
  }

  lemma OneMoreToken(tokens: nat, rate: real)
    ensures TokenCost(0, rate) == 0.0 && TokenCost(tokens + 1, rate) == TokenCost(tokens, rate) + rate / 1000000.0
  {
    assert (tokens + 1) as real * rate == tokens as real * rate + rate;
  }

  /**
   * The rates are prices of a million tokens: no tokens cost nothing, one more prompt token raises the
   * input part by a millionth of the input rate and one more completion token the output part by a
   * millionth of the output rate, each leaving the other part alone.
   */
  lemma EstimateByToken(p: nat, q: nat, pricing: Pricing, i: int, j: int)
    requires FirstAt(pricing.inputs, i) && Valid(pricing.inputs[i])
    requires FirstAt(pricing.outputs, j) && Valid(pricing.outputs[j])
    ensures var c := Estimate(p, q, pricing);
      var prompted, completed := Estimate(p + 1, q, pricing), Estimate(p, q + 1, pricing);
      && Estimate(0, 0, pricing) == Charge(Some(0.0), Some(0.0), Some(0.0), Estimated)
      && c.basis == prompted.basis == completed.basis == Estimated
      && c.input.Some? && c.output.Some?
      && prompted.input == Some(c.input.value + pricing.inputs[i].r / 1000000.0) && prompted.output == c.output
      && completed.output == Some(c.output.value + pricing.outputs[j].r / 1000000.0) && completed.input == c.input
  {
    hide TokenCost, FirstPresent;
    FirstPresentAt(pricing.inputs);
    FirstPresentAt(pricing.outputs);
    OneMoreToken(p, pricing.inputs[i].r);
    OneMoreToken(q, pricing.outputs[j].r);
  }

  lemma CostGrows(a: nat, b: nat, rate: real)
    requires a <= b && rate >= 0.0
    ensures TokenCost(a, rate) <= TokenCost(b, rate)
  {
    assert (b - a) as real * rate >= 0.0;
    assert b as real * rate == a as real * rate + (b - a) as real * rate;
  }

  /**
   * The projection made before a request is an upper bound for the charge of its response, when
   * the token bounds hold, the prices are the same and the provider reports no cost of its own.
   */
  lemma ProjectionSound(promptBound: nat, maxOutput: nat, prompt: Option<nat>, completion: Option<nat>,
                        pricing: Pricing, total: Reported, input: Reported, output: Reported)
    requires prompt.Some? ==> prompt.value <= promptBound
    requires completion.Some? ==> completion.value <= maxOutput
    requires DecimalOrNone(total).None? && (DecimalOrNone(input).None? || DecimalOrNone(output).None?)
    ensures
      var projected := CalculateCost(Some(promptBound), Some(maxOutput), pricing, Missing, Missing, Missing).total;
      var actual := CalculateCost(prompt, completion, pricing, total, input, output).total;
      actual.Some? ==> projected.Some? && actual.value <= projected.value
  {
    hide TokenCost, FirstPresent;
    var inputRate := DecimalOrNone(FirstPresent(pricing.inputs));
    var outputRate := DecimalOrNone(FirstPresent(pricing.outputs));
    if prompt.Some? && completion.Some? && inputRate.Some? && outputRate.Some? {
      CostGrows(prompt.value, promptBound, inputRate.value);
      CostGrows(completion.value, maxOutput, outputRate.value);
    }
  }

  // ---------------------------------------------------------------------------
  // The budget
  // ---------------------------------------------------------------------------

  /** The state of a budget tracker. */
  datatype Ledger = Ledger(budget: real, stop: real, allowUnknown: bool, cost: real, requests: nat,
                           unknown: nat, promptTokens: nat, completionTokens: nat)
  {
    /** Whether `before_attempt` raises. */
    predicate Refuses(projected: Option<real>) {
      (!allowUnknown && unknown > 0) || cost + Projected(projected) >= stop
    }

    function Attempted(n: nat): Ledger {
      this.(requests := requests + n)
    }

    function Recorded(total: Option<real>, prompt: Option<nat>, completion: Option<nat>): Ledger {
      var l := this.(promptTokens := promptTokens + OrZero(prompt),
                     completionTokens := completionTokens + OrZero(completion));
      if total.None? then l.(unknown := unknown + 1) else l.(cost := cost + total.value)
    }

    function Status(): string {
      if unknown > 0 && !allowUnknown then "stopped_unknown_cost"
      else if cost >= stop then "stopped"
      else if unknown > 0 then "unknown_cost_allowed"
      else "within_budget"
    }
  }

  function OrZero(n: Option<nat>): nat {
    if n.Some? then n.value else 0
  }

  function Projected(p: Option<real>): real {
    if p.Some? then p.value else 0.0
  }

  class BudgetTracker {
    const budget: real
    const stop: real
    const allowUnknown: bool
    var cost: real
    var requests: nat
    var unknown: nat
    var promptTokens: nat
    var completionTokens: nat

    constructor (budget: real, stop: real, allowUnknown: bool)
      ensures State() == Ledger(budget, stop, allowUnknown, 0.0, 0, 0, 0, 0)
    {
      this.budget, this.stop, this.allowUnknown := budget, stop, allowUnknown;
      cost, requests, unknown, promptTokens, completionTokens := 0.0, 0, 0, 0, 0;
    }

    function State(): Ledger
      reads this
    {
      Ledger(budget, stop, allowUnknown, cost, requests, unknown, promptTokens, completionTokens)
    }

    /** The two checks, in the order the source makes them; false stands for the exception. */
    method BeforeAttempt(projected: Option<real>) returns (passed: bool)
      ensures passed == !State().Refuses(projected)
      ensures passed <==>
        (allowUnknown || unknown == 0) && cost + (if projected.Some? then projected.value else 0.0) < stop
    {
      if !allowUnknown && unknown > 0 {
        return false;
      }
      if cost + Projected(projected) >= stop {
        return false;
      }
      return true;
    }

    method RecordAttempt()
      modifies this
      ensures State() == old(State()).Attempted(1)
    {
      requests := requests + 1;
    }

    method Record(total: Option<real>, prompt: Option<nat>, completion: Option<nat>)
      modifies this
      ensures State() == old(State()).Recorded(total, prompt, completion)
    {
      promptTokens := promptTokens + OrZero(prompt);
      completionTokens := completionTokens + OrZero(completion);
      if total.None? {
        unknown := unknown + 1;
        return;
      }
      cost := cost + total.value;
    }
  }

  /** Counting attempts never changes the verdict, so it is the same all through one retry loop. */
  lemma VerdictStable(l: Ledger, n: nat, projected: Option<real>)
    ensures l.Attempted(n).Refuses(projected) == l.Refuses(projected)
  {
  }

  /** The reported status says "stopped" exactly when an attempt without projection is refused. */
  lemma StatusIsVerdict(l: Ledger)
    ensures l.Refuses(None) <==> l.Status() in {"stopped_unknown_cost", "stopped"}
    ensures l.Status() == "stopped_unknown_cost" <==> l.unknown > 0 && !l.allowUnknown
    ensures l.Status() == "within_budget" <==> !l.Refuses(None) && l.unknown == 0
    ensures l.Status() == "unknown_cost_allowed" <==> !l.Refuses(None) && l.unknown > 0
  {
    assert |"within_budget"| == 13 && |"unknown_cost_allowed"| == 20;
    assert |"stopped_unknown_cost"| == 20 && |"stopped"| == 7;
    assert "unknown_cost_allowed"[0] == 'u' && "stopped_unknown_cost"[0] == 's';
  }

  // ---------------------------------------------------------------------------
  // Sequential runs
  // ---------------------------------------------------------------------------

  /** One request with its retries: a gate before each of the tries, and at most one response. */
  datatype Round = Round(projected: Option<real>, tries: nat, response: Option<Usage>)

  datatype Usage = Usage(total: Option<real>, prompt: Option<nat>, completion: Option<nat>)

  function After(l: Ledger, r: Round): Ledger {
    var m := l.Attempted(r.tries);
    if r.response.None? then m
    else m.Recorded(r.response.value.total, r.response.value.prompt, r.response.value.completion)
  }

  function AfterAll(l: Ledger, rounds: seq<Round>): Ledger {
    if rounds == [] then l else After(AfterAll(l, rounds[..|rounds| - 1]), rounds[|rounds| - 1])
  }

  /** A round has passed the gate in the state that the rounds before it left. */
  ghost predicate Passes(l: Ledger, rounds: seq<Round>, i: nat)
    requires i < |rounds|
  {
    !AfterAll(l, rounds[..i]).Refuses(rounds[i].projected)
  }

  ghost predicate Legal(l: Ledger, rounds: seq<Round>) {
    forall i :: 0 <= i < |rounds| ==> Passes(l, rounds, i)
  }

  function Spent(r: Round): real {
    if r.response.Some? && r.response.value.total.Some? then r.response.value.total.value else 0.0
  }

  lemma {:induction false} StopConstant(l: Ledger, rounds: seq<Round>)
    ensures AfterAll(l, rounds).stop == l.stop && AfterAll(l, rounds).allowUnknown == l.allowUnknown
    ensures AfterAll(l, rounds).unknown >= l.unknown
  {
    if rounds != [] {
      StopConstant(l, rounds[..|rounds| - 1]);
    }
  }

  /** Whatever the responses cost, a run overshoots by less than what its last response cost
      beyond its projection. */
  lemma {:induction false} Overshoot(l: Ledger, rounds: seq<Round>)
    requires Legal(l, rounds) && rounds != []
    ensures AfterAll(l, rounds).cost <
      l.stop + Spent(rounds[|rounds| - 1]) - Projected(rounds[|rounds| - 1].projected)
  {
    var n := |rounds| - 1;
    StopConstant(l, rounds[..n]);
    assert Passes(l, rounds, n);
  }

  /** Once an attempt has crossed, spending stays strictly below the threshold, in every state of
      the run, if no response costs more than was projected for it. */
  lemma {:induction false} SpendBelowStop(l: Ledger, rounds: seq<Round>, k: nat)
    requires Legal(l, rounds) && 0 < k <= |rounds|
    requires forall i :: 0 <= i < |rounds| ==> Spent(rounds[i]) <= Projected(rounds[i].projected)
    ensures AfterAll(l, rounds[..k]).cost < l.stop
  {
    var prefix := rounds[..k];
    forall i | 0 <= i < k ensures Passes(l, prefix, i) {
      assert Passes(l, rounds, i) && prefix[..i] == rounds[..i];
    }
    Overshoot(l, prefix);
  }

  lemma {:induction false} UnknownGrows(l: Ledger, rounds: seq<Round>, i: nat)
    requires i < |rounds| && rounds[i].response.Some? && rounds[i].response.value.total.None?
    ensures AfterAll(l, rounds).unknown > l.unknown
  {
    var n := |rounds| - 1;
    StopConstant(l, rounds[..n]);
    if i < n {
      UnknownGrows(l, rounds[..n], i);
    }
  }

  lemma {:induction false} KnownBeforeLast(l: Ledger, rounds: seq<Round>)
    requires Legal(l, rounds) && !l.allowUnknown && rounds != []
    ensures AfterAll(l, rounds[..|rounds| - 1]).unknown == 0
  {
    var n := |rounds| - 1;
    StopConstant(l, rounds[..n]);
    assert Passes(l, rounds, n);
  }

  /** Where unknown cost is not allowed, a response of unknown cost ends the run: there is at most
      one, and no attempt follows it. */
  lemma {:induction false} UnknownCostIsLast(l: Ledger, rounds: seq<Round>, i: nat)
    requires Legal(l, rounds) && !l.allowUnknown
    requires i < |rounds| && rounds[i].response.Some? && rounds[i].response.value.total.None?
    ensures i == |rounds| - 1
  {
    KnownBeforeLast(l, rounds);
    if i < |rounds| - 1 {
      UnknownGrows(l, rounds[..|rounds| - 1], i);
    }
  }

  // ---------------------------------------------------------------------------
  // The threshold that the command line sets
  // ---------------------------------------------------------------------------

  datatype ControlError = BadLimit | BadCheckpoint | ManyCacheModes | BadBudget | BadStop | StopAboveBudget

  datatype Controls = Rejected(error: ControlError) | Accepted(budget: real, stop: real, checkpointEvery: int)

  function RealMin(a: real, b: real): real {
    if b < a then b else a
  }

  /** The budget arguments are parsed decimals, which need not be finite. */
  function ValidatedControls(defaultBudget: Reported, defaultStop: real, defaultCheckpoint: int,
                             budget: Option<Reported>, stop: Option<Reported>,
                             checkpoint: Option<int>, limit: Option<int>, cacheModes: nat): Controls
  {
    if limit.Some? && limit.value < 1 then Rejected(BadLimit)
    else if checkpoint.Some? && checkpoint.value < 1 then Rejected(BadCheckpoint)
    else if cacheModes > 1 then Rejected(ManyCacheModes)
    else
      var effective := DecimalOrNone(if budget.Some? then budget.value else defaultBudget);
      if effective.None? then Rejected(BadBudget)
      else if stop.Some? && DecimalOrNone(stop.value).None? then Rejected(BadStop)
      else if stop.Some? && DecimalOrNone(stop.value).value > effective.value then Rejected(StopAboveBudget)
      else
        var configured := if stop.Some? then DecimalOrNone(stop.value).value else defaultStop;
        Accepted(effective.value, RealMin(configured, effective.value * 0.95),
                 if checkpoint.Some? then checkpoint.value else defaultCheckpoint)
  }

  /**
   * The arguments are accepted exactly if every given one is in range and the stop threshold is within the
   * budget; the threshold is then the configured one or 95% of the budget, whichever is less.
   */
  lemma ControlsAccepted(defaultBudget: Reported, defaultStop: real, defaultCheckpoint: int,
                         budget: Option<Reported>, stop: Option<Reported>,
                         checkpoint: Option<int>, limit: Option<int>, cacheModes: nat)
    ensures var c :=
        ValidatedControls(defaultBudget, defaultStop, defaultCheckpoint, budget, stop, checkpoint, limit, cacheModes);
      var chosen := if budget.Some? then budget.value else defaultBudget;
      && (c.Accepted? <==>
            && (limit.Some? ==> limit.value >= 1) && (checkpoint.Some? ==> checkpoint.value >= 1) && cacheModes <= 1
            && Valid(chosen) && (stop.Some? ==> Valid(stop.value) && stop.value.r <= chosen.r))
      && (c.Accepted? ==>
            var configured := if stop.Some? then stop.value.r else defaultStop;
            && c.budget == chosen.r && c.stop <= configured && c.stop <= 0.95 * c.budget
            && (c.stop == configured || c.stop == 0.95 * c.budget)
            && c.checkpointEvery == (if checkpoint.Some? then checkpoint.value else defaultCheckpoint))
  {
  }

  /** Under accepted controls, a run whose projections hold spends less than 95% of its budget. */
  lemma {:induction false} BudgetKept(c: Controls, defaultBudget: Reported, defaultStop: real, defaultCheckpoint: int,
                   budget: Option<Reported>, stop: Option<Reported>,
                   checkpoint: Option<int>, limit: Option<int>, cacheModes: nat,
                   l: Ledger, rounds: seq<Round>, k: nat)
    requires c ==
      ValidatedControls(defaultBudget, defaultStop, defaultCheckpoint, budget, stop, checkpoint, limit, cacheModes)
    requires c.Accepted? && l.stop == c.stop
    requires Legal(l, rounds) && 0 < k <= |rounds|
    requires forall i :: 0 <= i < |rounds| ==> Spent(rounds[i]) <= Projected(rounds[i].projected)
    ensures c.budget >= 0.0 && AfterAll(l, rounds[..k]).cost < 0.95 * c.budget
    ensures c.stop <= 0.95 * c.budget && (stop.Some? ==> c.stop <= DecimalOrNone(stop.value).value)
  {
    SpendBelowStop(l, rounds, k);
  }
}
