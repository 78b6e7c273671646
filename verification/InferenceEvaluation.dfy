/** A whole evaluation: calls one after the other on one backend, under the controls of the command line. */
module InferenceEvaluation {
  import opened Wrappers
  import opened Cost
  import opened Inference
  import opened InferencePromises
  import opened InferenceFigures

  // ---------------------------------------------------------------------------
  // Spending
  // ---------------------------------------------------------------------------

  /** In every call every response stays within the token bounds of the request it answers. */
  ghost predicate CallsBounded(provider: nat -> Reply, calls: seq<Config>, n: nat, l: Ledger) {
    calls == [] ||
    (var e := Generate(calls[0], provider, n, Some(l));
     && EachAnswer(calls[0], provider, Start(calls[0]), n, Some(l), TokensBounded(calls[0]))
     && CallsBounded(provider, calls[1..], e.sent, if e.ledger.Some? then e.ledger.value else l))
  }

  lemma {:induction false} BoundedCallsProjected(provider: nat -> Reply, calls: seq<Config>, n: nat, l: Ledger)
    requires CallsBounded(provider, calls, n, l)
    ensures CallsProjected(provider, calls, n, l)
    decreases |calls|
  {
    hide EachAnswer, TokensBounded, Climb, ChargesProjected;
    if calls != [] {
      var e := Generate(calls[0], provider, n, Some(l));
      BoundsProject(calls[0], provider, n, Some(l));
      BoundedCallsProjected(provider, calls[1..], e.sent, if e.ledger.Some? then e.ledger.value else l);
    }
  }

  /**
   * Under accepted controls an evaluation whose responses stay within the token bounds, at the
   * projected prices, spends less than 95% of its budget once it has sent anything.
   */
  lemma EvaluationWithinBudget(c: Controls, defaultBudget: Reported, defaultStop: real, defaultCheckpoint: int,
                               budget: Option<Reported>, stop: Option<Reported>, checkpoint: Option<int>,
                               limit: Option<int>, cacheModes: nat,
                               provider: nat -> Reply, calls: seq<Config>, n: nat, allowUnknown: bool)
    requires c ==
      ValidatedControls(defaultBudget, defaultStop, defaultCheckpoint, budget, stop, checkpoint, limit, cacheModes)
    requires c.Accepted? && CallsBounded(provider, calls, n, Ledger(c.budget, c.stop, allowUnknown, 0.0, 0, 0, 0, 0))
    ensures var (sent, m) := Calls(provider, calls, n, Ledger(c.budget, c.stop, allowUnknown, 0.0, 0, 0, 0, 0));
      sent > n ==> m.cost < 0.95 * c.budget
  {
    hide Calls, CallsBounded, CallsProjected;
    var l := Ledger(c.budget, c.stop, allowUnknown, 0.0, 0, 0, 0, 0);
    BoundedCallsProjected(provider, calls, n, l);
    CallsWithinBudget(provider, calls, n, l);
  }

  // ---------------------------------------------------------------------------
  // Unknown costs
  // ---------------------------------------------------------------------------

  /** Request `j` was answered by a response whose cost is unknown. */
  predicate UnknownAt(provider: nat -> Reply, j: nat) {
    provider(j).Answer? && ChargeOf(provider(j).body).total.None?
  }

  /**
   * Between requests `lo` and `hi`, with the tracker at `l` before and at `m` after them: an unknown
   * cost is the last thing that happens, and where one was on record nothing is sent any more.
   */
  ghost predicate StopsAtUnknown(provider: nat -> Reply, lo: nat, hi: nat, l: Ledger, m: Ledger) {
    && lo <= hi && m.allowUnknown == l.allowUnknown
    && (l.unknown > 0 ==> hi == lo && m.unknown > 0)
    && (forall j :: lo <= j < hi && UnknownAt(provider, j) ==> j == hi - 1 && m.unknown > 0)
  }

  lemma StopsThenStops(provider: nat -> Reply, a: nat, b: nat, c: nat, k: Ledger, l: Ledger, m: Ledger)
    requires StopsAtUnknown(provider, a, b, k, l) && StopsAtUnknown(provider, b, c, l, m)
    ensures StopsAtUnknown(provider, a, c, k, m)
  {
    hide UnknownAt;
  }

  lemma {:induction false} OnlyLastAnswers(provider: nat -> Reply, n: nat, attempt: nat, limit: nat)
    requires 1 <= attempt <= limit
    ensures var r := Transport(provider, n, attempt, limit);
      && r.attempts >= attempt
      && forall j :: n <= j < n + (r.attempts - attempt) ==> !provider(j).Answer?
    decreases limit - attempt
  {
    hide Classify;
    if attempt < limit {
      OnlyLastAnswers(provider, n + 1, attempt + 1, limit);
    }
  }

  lemma PostStops(c: Config, provider: nat -> Reply, n: nat, l: Ledger, projected: Option<real>)
    ensures var r := Post(c, provider, n, Some(l), projected);
      forall j :: n <= j < n + r.attempts && provider(j).Answer? ==>
        j == n + r.attempts - 1 && r == Answered(provider(j).body, r.attempts)
  {
    hide Classify, Ledger.Refuses, Transport;
    var r := Post(c, provider, n, Some(l), projected);
    if r.attempts > 0 {
      OnlyLastAnswers(provider, n, 1, c.MaxAttempts());
      LastAnswer(provider, n, 1, c.MaxAttempts());
    }
  }

  lemma {:induction false} LastAnswer(provider: nat -> Reply, n: nat, attempt: nat, limit: nat)
    requires 1 <= attempt <= limit
    ensures var r := Transport(provider, n, attempt, limit);
      r.attempts >= attempt &&
      var last := provider(n + (r.attempts - attempt));
      last.Answer? ==> r == Answered(last.body, r.attempts)
    decreases limit - attempt
  {
    hide Classify;
    if attempt < limit {
      LastAnswer(provider, n + 1, attempt + 1, limit);
    }
  }

  lemma RungStops(c: Config, provider: nat -> Reply, p: Progress, n: nat, l: Ledger)
    requires ParsesRecorded(p, None) && !l.allowUnknown
    ensures var s := Rung(c, provider, p, n, Some(l));
      s.ledger.Some? && StopsAtUnknown(provider, n, s.sent, l, s.ledger.value)
  {
    hide Post, CalculateCost, BuildPayload, Digest, Answers;
    var s := Rung(c, provider, p, n, Some(l));
    var projected := c.Projection(p.mode, p.repair);
    var posted := Post(c, provider, n, Some(l), projected);
    RungSound(c, provider, p, n, Some(l));
    RungIsRound(c, provider, p, n, l);
    PostStops(c, provider, n, l, projected);
    if posted.Answered? {
      DigestSound(c, p.(attempts := p.attempts + posted.attempts), n + posted.attempts,
                  Sent(Some(l), posted.attempts), posted.body);
    }
  }

  lemma {:induction false} ClimbStops(c: Config, provider: nat -> Reply, p: Progress, n: nat, l: Ledger)
    requires ParsesRecorded(p, None) && !l.allowUnknown
    ensures var e := Climb(c, provider, p, n, Some(l));
      e.ledger.Some? && StopsAtUnknown(provider, n, e.sent, l, e.ledger.value)
    decreases Rank(p.mode, p.repair)
  {
    hide Rung, StopsAtUnknown;
    var s := Rung(c, provider, p, n, Some(l));
    RungSound(c, provider, p, n, Some(l));
    RungStops(c, provider, p, n, l);
    if s.kind.None? {
      var m := s.ledger.value;
      SameAllowance(provider, n, s.sent, l, m);
      ClimbStops(c, provider, s.progress, s.sent, m);
      var e := Climb(c, provider, s.progress, s.sent, s.ledger);
      StopsThenStops(provider, n, s.sent, e.sent, l, m, e.ledger.value);
    }
  }

  lemma SameAllowance(provider: nat -> Reply, lo: nat, hi: nat, l: Ledger, m: Ledger)
    requires StopsAtUnknown(provider, lo, hi, l, m)
    ensures m.allowUnknown == l.allowUnknown
  {
  }

  lemma NothingStops(provider: nat -> Reply, n: nat, l: Ledger)
    ensures StopsAtUnknown(provider, n, n, l, l)
  {
  }

  lemma {:induction false} CallsStop(provider: nat -> Reply, calls: seq<Config>, n: nat, l: Ledger)
    requires !l.allowUnknown
    ensures StopsAtUnknown(provider, n, Calls(provider, calls, n, l).0, l, Calls(provider, calls, n, l).1)
    decreases |calls|
  {
    hide Climb, StopsAtUnknown;
    if calls == [] {
      NothingStops(provider, n, l);
    } else {
      var e := Generate(calls[0], provider, n, Some(l));
      ClimbStops(calls[0], provider, Start(calls[0]), n, l);
      SameAllowance(provider, n, e.sent, l, e.ledger.value);
      CallsStop(provider, calls[1..], e.sent, e.ledger.value);
      var (sent, m) := Calls(provider, calls[1..], e.sent, e.ledger.value);
      StopsThenStops(provider, n, e.sent, sent, l, e.ledger.value, m);
    }
  }

  /**
   * Where unknown cost is not allowed, an evaluation records at most one response of unknown cost, and
   * the request which that response answers is the last one it sends.
   */
  lemma NoRequestAfterUnknown(provider: nat -> Reply, calls: seq<Config>, n: nat, l: Ledger, j: nat)
    requires !l.allowUnknown && l.unknown == 0
    requires n <= j < Calls(provider, calls, n, l).0 && UnknownAt(provider, j)
    ensures j == Calls(provider, calls, n, l).0 - 1 && Calls(provider, calls, n, l).1.unknown == 1
  {
    hide Calls, UnknownAt;
    CallsStop(provider, calls, n, l);
    CallsKnowCosts(provider, calls, n, l);
  }
}
