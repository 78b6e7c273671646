/** What the figures of a report mean, and how calls spend the budget. */
module InferenceFigures {
  import opened Wrappers
  import opened Cost
  import opened Inference
  import opened InferencePromises

  // ---------------------------------------------------------------------------
  // Exact sums, never partial ones
  // ---------------------------------------------------------------------------

  ghost predicate AllTell<A>(bodies: seq<Body>, f: Body -> Option<A>) {
    forall i :: 0 <= i < |bodies| ==> f(bodies[i]).Some?
  }

  function TokenSum(bodies: seq<Body>, f: Body -> Option<nat>): nat {
    if bodies == [] then 0 else OrZero(f(bodies[0])) + TokenSum(bodies[1..], f)
  }

  function AmountSum(bodies: seq<Body>, f: Body -> Option<real>): real {
    if bodies == [] then 0.0 else Projected(f(bodies[0])) + AmountSum(bodies[1..], f)
  }

  /** The sum over all responses when there are some and each tells its share; nothing otherwise. */
  ghost function ExactTokens(bodies: seq<Body>, f: Body -> Option<nat>): Option<nat> {
    if bodies != [] && AllTell(bodies, f) then Some(TokenSum(bodies, f)) else None
  }

  ghost function ExactAmount(bodies: seq<Body>, f: Body -> Option<real>): Option<real> {
    if bodies != [] && AllTell(bodies, f) then Some(AmountSum(bodies, f)) else None
  }

  lemma TellParts<A>(bodies: seq<Body>, f: Body -> Option<A>)
    requires bodies != []
    ensures AllTell(bodies, f) <==> f(bodies[0]).Some? && AllTell(bodies[1..], f)
  {
    if f(bodies[0]).Some? && AllTell(bodies[1..], f) {
      forall i | 0 <= i < |bodies| ensures f(bodies[i]).Some? {
        assert i > 0 ==> bodies[i] == bodies[1..][i - 1];
      }
    }
  }

  lemma {:induction false} TokensTallied(a: Account, bodies: seq<Body>)
    ensures var r := AddAll(a, bodies);
      && r.responses == a.responses + |bodies|
      && r.prompt.sum == a.prompt.sum + TokenSum(bodies, (b: Body) => b.prompt)
      && (r.prompt.complete <==> a.prompt.complete && AllTell(bodies, (b: Body) => b.prompt))
      && r.completion.sum == a.completion.sum + TokenSum(bodies, (b: Body) => b.completion)
      && (r.completion.complete <==> a.completion.complete && AllTell(bodies, (b: Body) => b.completion))
      && r.total.sum == a.total.sum + TokenSum(bodies, (b: Body) => b.total)
      && (r.total.complete <==> a.total.complete && AllTell(bodies, (b: Body) => b.total))
    decreases |bodies|
  {
    hide CalculateCost, AllTell;
    if bodies != [] {
      TokensTallied(a.Add(bodies[0]), bodies[1..]);
      TellParts(bodies, (b: Body) => b.prompt);
      TellParts(bodies, (b: Body) => b.completion);
      TellParts(bodies, (b: Body) => b.total);
    } else {
      NoneTell((b: Body) => b.prompt);
      NoneTell((b: Body) => b.completion);
      NoneTell((b: Body) => b.total);
    }
  }

  lemma NoneTell<A>(f: Body -> Option<A>)
    ensures AllTell([], f)
  {
  }

  lemma {:induction false} AmountsTallied(a: Account, bodies: seq<Body>)
    ensures var r := AddAll(a, bodies);
      && r.input.sum == a.input.sum + AmountSum(bodies, (b: Body) => ChargeOf(b).input)
      && (r.input.complete <==> a.input.complete && AllTell(bodies, (b: Body) => ChargeOf(b).input))
      && r.output.sum == a.output.sum + AmountSum(bodies, (b: Body) => ChargeOf(b).output)
      && (r.output.complete <==> a.output.complete && AllTell(bodies, (b: Body) => ChargeOf(b).output))
      && r.cost.sum == a.cost.sum + AmountSum(bodies, (b: Body) => ChargeOf(b).total)
      && (r.cost.complete <==> a.cost.complete && AllTell(bodies, (b: Body) => ChargeOf(b).total))
    decreases |bodies|
  {
    hide ChargeOf, AllTell;
    if bodies != [] {
      AmountsTallied(a.Add(bodies[0]), bodies[1..]);
      TellParts(bodies, (b: Body) => ChargeOf(b).input);
      TellParts(bodies, (b: Body) => ChargeOf(b).output);
      TellParts(bodies, (b: Body) => ChargeOf(b).total);
    } else {
      NoneTell((b: Body) => ChargeOf(b).input);
      NoneTell((b: Body) => ChargeOf(b).output);
      NoneTell((b: Body) => ChargeOf(b).total);
    }
  }

  // The basis

  function Trust(b: Basis): nat {
    match b
    case Exact => 0
    case ProviderReported => 1
    case Estimated => 2
    case Unknown => 3
  }

  /** The least trustworthy basis among the responses; unknown when there are none. */
  ghost predicate IsWorst(bodies: seq<Body>, basis: Basis) {
    if bodies == [] then basis == Unknown
    else
      && (forall i :: 0 <= i < |bodies| ==> Trust(ChargeOf(bodies[i]).basis) <= Trust(basis))
      && exists i :: 0 <= i < |bodies| && ChargeOf(bodies[i]).basis == basis
  }

  lemma {:induction false} BasesListed(a: Account, bodies: seq<Body>)
    ensures AddAll(a, bodies).bases ==
      a.bases + seq(|bodies|, i requires 0 <= i < |bodies| => ChargeOf(bodies[i]).basis)
    decreases |bodies|
  {
    hide ChargeOf;
    if bodies != [] {
      BasesListed(a.Add(bodies[0]), bodies[1..]);
      assert bodies == [bodies[0]] + bodies[1..];
    }
  }

  lemma AggregateIsWorst(bodies: seq<Body>)
    ensures IsWorst(bodies, AddAll(NO_ACCOUNT, bodies).AggregateBasis())
  {
    hide CalculateCost, AddAll, TokenSum, AmountSum;
    var a := AddAll(NO_ACCOUNT, bodies);
    TokensTallied(NO_ACCOUNT, bodies);
    AmountsTallied(NO_ACCOUNT, bodies);
    BasesListed(NO_ACCOUNT, bodies);
    forall i | 0 <= i < |bodies|
      ensures ChargeOf(bodies[i]).total.None? <==> ChargeOf(bodies[i]).basis == Unknown
      ensures a.bases[i] == ChargeOf(bodies[i]).basis
    {
      var b := bodies[i];
      ChargeShape(b.prompt, b.completion, b.pricing, b.cost, b.inputCost, b.outputCost);
    }
    WorstOf(a.bases, a.AggregateBasis(), a);
    if bodies != [] {
      var i :| 0 <= i < |a.bases| && a.bases[i] == a.AggregateBasis();
      assert ChargeOf(bodies[i]).basis == a.AggregateBasis();
    }
  }

  lemma WorstOf(bases: seq<Basis>, basis: Basis, a: Account)
    requires a.bases == bases && a.responses == |bases| && basis == a.AggregateBasis()
    requires a.cost.complete <==> Unknown !in bases
    ensures bases != [] ==> (forall i :: 0 <= i < |bases| ==> Trust(bases[i]) <= Trust(basis)) && basis in bases
    ensures bases == [] ==> basis == Unknown
  {
    if bases != [] && a.cost.complete {
      var seen := set b | b in bases;
      assert forall i :: 0 <= i < |bases| ==> bases[i] in seen;
      assert bases[0] in seen;
      if seen != {Exact} {
        if seen <= {Exact, ProviderReported} {
          assert ProviderReported in seen || seen <= {Exact};
          assert seen <= {Exact} <==> seen == {Exact};
        } else {
          var b :| b in seen && b !in {Exact, ProviderReported};
          assert b in bases;
          assert b == Estimated;
        }
      }
    }
  }

  /** When both parts are present the total is present too, and is their sum. */
  lemma {:induction false} PartsMakeTotal(a: Account, bodies: seq<Body>)
    requires a.input.complete && a.output.complete ==> a.cost.complete && a.cost.sum == a.input.sum + a.output.sum
    ensures var r := AddAll(a, bodies);
      r.input.complete && r.output.complete ==> r.cost.complete && r.cost.sum == r.input.sum + r.output.sum
    decreases |bodies|
  {
    hide CalculateCost;
    if bodies != [] {
      var b := bodies[0];
      ChargeShape(b.prompt, b.completion, b.pricing, b.cost, b.inputCost, b.outputCost);
      PartsMakeTotal(a.Add(b), bodies[1..]);
    }
  }

  /**
   * Every figure of a report is the exact sum over all decoded responses of the call, or absent;
   * the total token count may fall back to the sum of its parts; the cost basis is the least
   * trustworthy one among the responses.
   */
  lemma FiguresExact(c: Config, provider: nat -> Reply, n: nat, ledger: Option<Ledger>)
    ensures var e := Generate(c, provider, n, ledger);
      var r := ReportOf(e.progress);
      var bodies := Answers(provider, n, e.sent);
      && r.promptTokens == ExactTokens(bodies, (b: Body) => b.prompt)
      && r.completionTokens == ExactTokens(bodies, (b: Body) => b.completion)
      && r.totalTokens == (if ExactTokens(bodies, (b: Body) => b.total).Some?
                           then ExactTokens(bodies, (b: Body) => b.total)
                           else if r.promptTokens.Some? && r.completionTokens.Some?
                           then Some(r.promptTokens.value + r.completionTokens.value) else None)
      && r.input == ExactAmount(bodies, (b: Body) => ChargeOf(b).input)
      && r.output == ExactAmount(bodies, (b: Body) => ChargeOf(b).output)
      && r.cost == ExactAmount(bodies, (b: Body) => ChargeOf(b).total)
      && (r.input.Some? && r.output.Some? ==> r.cost == Some(r.input.value + r.output.value))
      && IsWorst(bodies, r.basis)
      && (r.attempts, r.parses, r.errors, r.mode) ==
         (e.progress.attempts, e.progress.parses, e.progress.errors, e.progress.mode)
  {
    hide Generate, AddAll, Answers, AllTell, TokenSum, AmountSum, ChargeOf, IsWorst;
    GenerateSound(c, provider, n, ledger);
    var bodies := Answers(provider, n, Generate(c, provider, n, ledger).sent);
    TokensTallied(NO_ACCOUNT, bodies);
    AmountsTallied(NO_ACCOUNT, bodies);
    PartsMakeTotal(NO_ACCOUNT, bodies);
    AggregateIsWorst(bodies);
  }

  /** A response is charged by what it reports itself, or by its own token counts at its own prices. */
  lemma BodyCharged(b: Body)
    ensures ChargeOf(b) ==
      if Valid(b.inputCost) && Valid(b.outputCost) then
        Charge(Some(b.inputCost.r), Some(b.outputCost.r), Some(b.inputCost.r + b.outputCost.r), Exact)
      else if Valid(b.cost) then Charge(None, None, Some(b.cost.r), ProviderReported)
      else if b.prompt.Some? && b.completion.Some? && Priced(b.pricing.inputs) && Priced(b.pricing.outputs) then
        Estimate(b.prompt.value, b.completion.value, b.pricing)
      else Charge(None, None, None, Unknown)
  {
    hide CalculateCost, Priced;
    ChargePrecedence(b.prompt, b.completion, b.pricing, b.cost, b.inputCost, b.outputCost);
    ChargeShape(b.prompt, b.completion, b.pricing, b.cost, b.inputCost, b.outputCost);
  }

  // ---------------------------------------------------------------------------
  // The tracker
  // ---------------------------------------------------------------------------

  function UnknownCosts(bodies: seq<Body>): nat {
    if bodies == [] then 0 else (if ChargeOf(bodies[0]).total.None? then 1 else 0) + UnknownCosts(bodies[1..])
  }

  lemma {:induction false} TrackerTallied(l: Ledger, bodies: seq<Body>)
    ensures var m := ChargeAll(Some(l), bodies);
      m == Some(Ledger(l.budget, l.stop, l.allowUnknown,
                       l.cost + AmountSum(bodies, (b: Body) => ChargeOf(b).total), l.requests,
                       l.unknown + UnknownCosts(bodies),
                       l.promptTokens + TokenSum(bodies, (b: Body) => b.prompt),
                       l.completionTokens + TokenSum(bodies, (b: Body) => b.completion)))
    decreases |bodies|
  {
    hide ChargeOf;
    if bodies != [] {
      TrackerTallied(Charged(Some(l), bodies[0]).value, bodies[1..]);
    }
  }

  /** After a call the tracker has counted every request it sent and added up exactly its decoded responses. */
  lemma TrackerExact(c: Config, provider: nat -> Reply, n: nat, l: Ledger)
    ensures var e := Generate(c, provider, n, Some(l));
      var bodies := Answers(provider, n, e.sent);
      && e.sent >= n
      && e.ledger == Some(Ledger(l.budget, l.stop, l.allowUnknown,
                                 l.cost + AmountSum(bodies, (b: Body) => ChargeOf(b).total),
                                 l.requests + (e.sent - n),
                                 l.unknown + UnknownCosts(bodies),
                                 l.promptTokens + TokenSum(bodies, (b: Body) => b.prompt),
                                 l.completionTokens + TokenSum(bodies, (b: Body) => b.completion)))
  {
    hide Generate, Answers, ChargeAll, AddAll, AmountSum, TokenSum, UnknownCosts, ChargeOf;
    GenerateSound(c, provider, n, Some(l));
    var e := Generate(c, provider, n, Some(l));
    TrackerTallied(l.Attempted(e.sent - n), Answers(provider, n, e.sent));
  }

  // ---------------------------------------------------------------------------
  // Calls as sequential runs of the budget
  // ---------------------------------------------------------------------------

  function UsageOf(b: Body): Usage {
    Usage(ChargeOf(b).total, b.prompt, b.completion)
  }

  /** The budget's view of one rung. */
  function RoundOf(c: Config, provider: nat -> Reply, p: Progress, n: nat, s: Stepped): Round {
    var bodies := Answers(provider, n, s.sent);
    Round(c.Projection(p.mode, p.repair), if s.sent > n then s.sent - n else 0,
          if bodies == [] then None else Some(UsageOf(bodies[0])))
  }

  lemma RungIsRound(c: Config, provider: nat -> Reply, p: Progress, n: nat, l: Ledger)
    requires ParsesRecorded(p, None)
    ensures var s := Rung(c, provider, p, n, Some(l));
      && s.ledger == Some(After(l, RoundOf(c, provider, p, n, s)))
      && (s.sent == n ==> s.ledger == Some(l))
      && (s.sent > n ==> !l.Refuses(c.Projection(p.mode, p.repair)))
  {
    hide Rung, Answers, CalculateCost;
    RungSound(c, provider, p, n, Some(l));
    var s := Rung(c, provider, p, n, Some(l));
    if s.sent == n {
      assert Answers(provider, n, n) == [] by { NoAnswers(provider, n); }
    } else {
      var bodies := Answers(provider, n, s.sent);
      if bodies != [] {
        assert bodies[1..] == [];
      }
    }
  }

  lemma NoAnswers(provider: nat -> Reply, n: nat)
    ensures Answers(provider, n, n) == []
  {
  }

  lemma {:induction false} AfterAllPrepend(l: Ledger, r: Round, rounds: seq<Round>)
    ensures AfterAll(l, [r] + rounds) == AfterAll(After(l, r), rounds)
    decreases |rounds|
  {
    hide After;
    var all := [r] + rounds;
    if rounds == [] {
      assert all[..0] == [];
    } else {
      assert all[..|all| - 1] == [r] + rounds[..|rounds| - 1];
      AfterAllPrepend(l, r, rounds[..|rounds| - 1]);
    }
  }

  lemma LegalPrepend(l: Ledger, r: Round, rounds: seq<Round>)
    requires !l.Refuses(r.projected) && Legal(After(l, r), rounds)
    ensures Legal(l, [r] + rounds)
  {
    var all := [r] + rounds;
    forall i | 0 <= i < |all| ensures Passes(l, all, i) {
      if i > 0 {
        assert Passes(After(l, r), rounds, i - 1) && all[..i] == [r] + rounds[..i - 1];
        AfterAllPrepend(l, r, rounds[..i - 1]);
      }
    }
  }

  /** Every response taken in from a point of the climb on is right for the mode and the repair flag
      of the request it answers. */
  ghost predicate EachAnswer(c: Config, provider: nat -> Reply, p: Progress, n: nat, ledger: Option<Ledger>,
                             right: (Body, Mode, bool) -> bool)
    decreases Rank(p.mode, p.repair)
  {
    var s := Rung(c, provider, p, n, ledger);
    && (forall b :: b in Answers(provider, n, s.sent) ==> right(b, p.mode, p.repair))
    && (s.kind.None? ==> EachAnswer(c, provider, s.progress, s.sent, s.ledger, right))
  }

  /** A response costs no more than was projected for its own request. */
  function AsProjected(c: Config): (Body, Mode, bool) -> bool {
    (b: Body, mode: Mode, repair: bool) => Projected(ChargeOf(b).total) <= Projected(c.Projection(mode, repair))
  }

  /** In a whole call no response costs more than was projected for its own request. */
  ghost predicate ChargesProjected(c: Config, provider: nat -> Reply, n: nat, ledger: Option<Ledger>) {
    EachAnswer(c, provider, Start(c), n, ledger, AsProjected(c))
  }

  ghost predicate WithinProjection(rounds: seq<Round>) {
    forall i :: 0 <= i < |rounds| ==> Spent(rounds[i]) <= Projected(rounds[i].projected)
  }

  lemma RoundWithin(c: Config, provider: nat -> Reply, p: Progress, n: nat, s: Stepped)
    requires forall b :: b in Answers(provider, n, s.sent) ==> AsProjected(c)(b, p.mode, p.repair)
    ensures Spent(RoundOf(c, provider, p, n, s)) <= Projected(c.Projection(p.mode, p.repair))
  {
    hide ChargeOf, CalculateCost;
    ProjectionNonNegative(c, p.mode, p.repair);
    var bodies := Answers(provider, n, s.sent);
    if bodies != [] {
      assert bodies[0] in bodies;
    }
  }

  lemma ProjectionNonNegative(c: Config, mode: Mode, repair: bool)
    ensures Projected(c.Projection(mode, repair)) >= 0.0
  {
    hide CalculateCost;
    if c.projectedPricing.Some? {
      ChargeShape(Some(c.bytes(mode, repair)), c.maxOutput, c.projectedPricing.value, Missing, Missing, Missing);
    }
  }

  /** A call is a legal sequential run: it spends the budget in gated rounds and in no other way. */
  lemma {:induction false} ClimbIsRun(c: Config, provider: nat -> Reply, p: Progress, n: nat, l: Ledger)
      returns (rounds: seq<Round>)
    requires ParsesRecorded(p, None)
    ensures var e := Climb(c, provider, p, n, Some(l));
      e.ledger == Some(AfterAll(l, rounds)) && Legal(l, rounds) && (rounds == [] <==> e.sent == n)
    ensures EachAnswer(c, provider, p, n, Some(l), AsProjected(c)) ==> WithinProjection(rounds)
    decreases Rank(p.mode, p.repair)
  {
    hide Rung, Answers, CalculateCost, After, AsProjected, Spent, Projected, Legal;
    var s := Rung(c, provider, p, n, Some(l));
    RungSound(c, provider, p, n, Some(l));
    RungIsRound(c, provider, p, n, l);
    rounds := [];
    var m := s.ledger.value;
    if s.kind.None? {
      rounds := ClimbIsRun(c, provider, s.progress, s.sent, m);
      ClimbSound(c, provider, s.progress, s.sent, s.ledger);
    } else {
      EmptyRun(m);
    }
    if s.sent > n {
      var r := RoundOf(c, provider, p, n, s);
      AfterAllPrepend(l, r, rounds);
      LegalPrepend(l, r, rounds);
      if EachAnswer(c, provider, p, n, Some(l), AsProjected(c)) {
        RoundWithin(c, provider, p, n, s);
      }
      rounds := [r] + rounds;
    }
  }

  lemma EmptyRun(l: Ledger)
    ensures Legal(l, [])
  {
  }

  /**
   * One call of a tracked backend: if no response costs more than was projected for its request,
   * spending is below the stop threshold as soon as any request has been sent.
   */
  lemma GenerateWithinBudget(c: Config, provider: nat -> Reply, n: nat, l: Ledger)
    requires ChargesProjected(c, provider, n, Some(l))
    ensures var e := Generate(c, provider, n, Some(l));
      e.ledger.Some? && (if e.sent == n then e.ledger.value == l else e.ledger.value.cost < l.stop)
  {
    hide Climb, EachAnswer, Legal;
    var rounds := ClimbIsRun(c, provider, Start(c), n, l);
    if rounds != [] {
      assert rounds[..|rounds|] == rounds;
      SpendBelowStop(l, rounds, |rounds|);
    }
  }

  /** Token counts within the bytes of the answered prompt and the output limit, at the projected
      prices, and no cost reported by the provider. */
  function TokensBounded(c: Config): (Body, Mode, bool) -> bool {
    (b: Body, mode: Mode, repair: bool) =>
      && c.maxOutput.Some? && c.projectedPricing.Some?
      && (b.completion.Some? ==> b.completion.value <= c.maxOutput.value)
      && (b.prompt.Some? ==> b.prompt.value <= c.bytes(mode, repair))
      && b.pricing == c.projectedPricing.value
      && DecimalOrNone(b.cost).None? && (DecimalOrNone(b.inputCost).None? || DecimalOrNone(b.outputCost).None?)
  }

  lemma BoundedAsProjected(c: Config, b: Body, mode: Mode, repair: bool)
    requires TokensBounded(c)(b, mode, repair)
    ensures AsProjected(c)(b, mode, repair)
  {
    hide CalculateCost;
    ProjectionNonNegative(c, mode, repair);
    ProjectionSound(c.bytes(mode, repair), c.maxOutput.value, b.prompt, b.completion, b.pricing, b.cost, b.inputCost,
      b.outputCost);
  }

  lemma {:induction false} BoundsProjectFrom(c: Config, provider: nat -> Reply, p: Progress, n: nat,
      ledger: Option<Ledger>)
    requires EachAnswer(c, provider, p, n, ledger, TokensBounded(c))
    ensures EachAnswer(c, provider, p, n, ledger, AsProjected(c))
    decreases Rank(p.mode, p.repair)
  {
    hide Rung, Answers, TokensBounded, AsProjected;
    var s := Rung(c, provider, p, n, ledger);
    forall b | b in Answers(provider, n, s.sent) ensures AsProjected(c)(b, p.mode, p.repair) {
      BoundedAsProjected(c, b, p.mode, p.repair);
    }
    if s.kind.None? {
      BoundsProjectFrom(c, provider, s.progress, s.sent, s.ledger);
    }
  }

  /** The projection is sound along a call: when every response stays within the token bounds of the
      request it answers, none costs more than was projected for it. */
  lemma BoundsProject(c: Config, provider: nat -> Reply, n: nat, ledger: Option<Ledger>)
    requires EachAnswer(c, provider, Start(c), n, ledger, TokensBounded(c))
    ensures ChargesProjected(c, provider, n, ledger)
  {
    hide EachAnswer, TokensBounded, AsProjected;
    BoundsProjectFrom(c, provider, Start(c), n, ledger);
  }

  // ---------------------------------------------------------------------------
  // Many calls on one tracker
  // ---------------------------------------------------------------------------

  lemma {:induction false} AfterAllConcat(l: Ledger, a: seq<Round>, b: seq<Round>)
    ensures AfterAll(l, a + b) == AfterAll(AfterAll(l, a), b)
    decreases |b|
  {
    hide After;
    if b == [] {
      assert a + b == a;
    } else {
      assert (a + b)[..|a + b| - 1] == a + b[..|b| - 1];
      AfterAllConcat(l, a, b[..|b| - 1]);
    }
  }

  lemma PassesAlike(l: Ledger, a: seq<Round>, b: seq<Round>, i: nat)
    requires i < |a + b|
    ensures i < |a| ==> Passes(l, a + b, i) == Passes(l, a, i)
    ensures i >= |a| ==> Passes(l, a + b, i) == Passes(AfterAll(l, a), b, i - |a|)
  {
    hide AfterAll, Ledger.Refuses;
    if i < |a| {
      assert (a + b)[..i] == a[..i];
    } else {
      assert (a + b)[..i] == a + b[..i - |a|];
      AfterAllConcat(l, a, b[..i - |a|]);
    }
  }

  lemma LegalConcat(l: Ledger, a: seq<Round>, b: seq<Round>)
    requires Legal(l, a) && Legal(AfterAll(l, a), b)
    ensures Legal(l, a + b)
  {
    hide AfterAll, Passes;
    forall i | 0 <= i < |a + b| ensures Passes(l, a + b, i) {
      PassesAlike(l, a, b, i);
    }
  }

  /** One call after the other on the same backend: the requests sent in all, and the tracker. */
  function Calls(provider: nat -> Reply, calls: seq<Config>, n: nat, l: Ledger): (nat, Ledger) {
    if calls == [] then (n, l)
    else
      var e := Generate(calls[0], provider, n, Some(l));
      Calls(provider, calls[1..], e.sent, if e.ledger.Some? then e.ledger.value else l)
  }

  ghost predicate CallsProjected(provider: nat -> Reply, calls: seq<Config>, n: nat, l: Ledger) {
    calls == [] ||
    (var e := Generate(calls[0], provider, n, Some(l));
     && ChargesProjected(calls[0], provider, n, Some(l))
     && CallsProjected(provider, calls[1..], e.sent, if e.ledger.Some? then e.ledger.value else l))
  }

  /** Any number of calls on one tracker make one legal run. */
  lemma {:induction false} CallsAreRun(provider: nat -> Reply, calls: seq<Config>, n: nat, l: Ledger)
    returns (rounds: seq<Round>)
    ensures var (sent, m) := Calls(provider, calls, n, l);
      m == AfterAll(l, rounds) && Legal(l, rounds) && sent >= n && (rounds == [] <==> sent == n)
    ensures CallsProjected(provider, calls, n, l) ==> WithinProjection(rounds)
    decreases |calls|
  {
    hide Climb, Legal, EachAnswer, After;
    rounds := [];
    if calls == [] {
      EmptyRun(l);
    } else {
      var c := calls[0];
      var first := ClimbIsRun(c, provider, Start(c), n, l);
      ClimbSound(c, provider, Start(c), n, Some(l));
      var e := Generate(c, provider, n, Some(l));
      var rest := CallsAreRun(provider, calls[1..], e.sent, e.ledger.value);
      AfterAllConcat(l, first, rest);
      LegalConcat(l, first, rest);
      rounds := first + rest;
    }
  }

  /**
   * A whole evaluation, call after call: spending stays below the stop threshold once any request
   * has been sent, if no response costs more than was projected for its request.
   */
  lemma CallsWithinBudget(provider: nat -> Reply, calls: seq<Config>, n: nat, l: Ledger)
    requires CallsProjected(provider, calls, n, l)
    ensures var (sent, m) := Calls(provider, calls, n, l);
      if sent == n then m == l else m.cost < l.stop
  {
    hide Calls, CallsProjected, Legal;
    var rounds := CallsAreRun(provider, calls, n, l);
    if rounds != [] {
      assert rounds[..|rounds|] == rounds;
      SpendBelowStop(l, rounds, |rounds|);
    }
  }

  /** Where unknown cost is not allowed, an evaluation records at most one response of unknown cost. */
  lemma CallsKnowCosts(provider: nat -> Reply, calls: seq<Config>, n: nat, l: Ledger)
    requires !l.allowUnknown && l.unknown == 0
    ensures Calls(provider, calls, n, l).1.unknown <= 1
  {
    hide Calls, CallsProjected, Legal;
    var rounds := CallsAreRun(provider, calls, n, l);
    if rounds != [] {
      KnownBeforeLast(l, rounds);
    }
  }
}
