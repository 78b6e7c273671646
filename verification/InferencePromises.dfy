/** What every run of the structured-generation machine keeps, whatever the provider answers. */
module InferencePromises {
  import opened Wrappers
  import opened Cost
  import opened Inference

  // ---------------------------------------------------------------------------
  // One request
  // ---------------------------------------------------------------------------

  /** The decoded responses among the replies to requests `lo` up to `hi`. */
  function Answers(provider: nat -> Reply, lo: nat, hi: nat): seq<Body>
    decreases hi - lo
  {
    if lo >= hi then []
    else (if provider(lo).Answer? then [provider(lo).body] else []) + Answers(provider, lo + 1, hi)
  }

  lemma {:induction false} AnswersConcat(provider: nat -> Reply, lo: nat, mid: nat, hi: nat)
    requires lo <= mid <= hi
    ensures Answers(provider, lo, hi) == Answers(provider, lo, mid) + Answers(provider, mid, hi)
    decreases mid - lo
  {
    if lo < mid {
      AnswersConcat(provider, lo + 1, mid, hi);
    }
  }

  /** The retry loop sends as many requests as it reports, and stops at the first decoded response. */
  lemma {:induction false} TransportCounts(provider: nat -> Reply, n: nat, attempt: nat, limit: nat)
    requires 1 <= attempt <= limit
    ensures var r := Transport(provider, n, attempt, limit);
      && attempt <= r.attempts <= limit
      && Answers(provider, n, n + (r.attempts - attempt + 1)) == (if r.Answered? then [r.body] else [])
    decreases limit - attempt
  {
    hide Classify;
    assert Answers(provider, n + 1, n + 1) == [];
    if attempt < limit {
      TransportCounts(provider, n + 1, attempt + 1, limit);
    }
  }

  lemma PostCounts(c: Config, provider: nat -> Reply, n: nat, ledger: Option<Ledger>, projected: Option<real>)
    ensures var r := Post(c, provider, n, ledger, projected);
      && r.attempts <= c.MaxAttempts()
      && (r.attempts >= 1 || r == Failed(BudgetExhausted, 0))
      && (r.attempts >= 1 && ledger.Some? ==> !ledger.value.Refuses(projected))
      && Answers(provider, n, n + r.attempts) == (if r.Answered? then [r.body] else [])
  {
    TransportCounts(provider, n, 1, c.MaxAttempts());
  }

  // ---------------------------------------------------------------------------
  // One rung
  // ---------------------------------------------------------------------------

  function AddAll(a: Account, bodies: seq<Body>): Account
    decreases |bodies|
  {
    if bodies == [] then a else AddAll(a.Add(bodies[0]), bodies[1..])
  }

  function ChargeAll(l: Option<Ledger>, bodies: seq<Body>): Option<Ledger>
    decreases |bodies|
  {
    if bodies == [] then l else ChargeAll(Charged(l, bodies[0]), bodies[1..])
  }

  ghost predicate Numbered(errors: seq<nat>) {
    forall i :: 0 <= i < |errors| ==> errors[i] == i + 1
  }

  /** Each failed parse is on record, under its number; at most a last, successful one is not. */
  ghost predicate ParsesRecorded(p: Progress, kind: Option<Kind>) {
    && Numbered(p.errors)
    && (if kind == Some(Uncaught) then |p.errors| <= p.parses <= |p.errors| + 1
        else p.parses == |p.errors| + (if kind == Some(Succeeded) then 1 else 0))
  }

  lemma DigestSound(c: Config, p: Progress, n: nat, ledger: Option<Ledger>, b: Body)
    requires ParsesRecorded(p, None)
    ensures var s := Digest(c, p, n, ledger, b);
      && s.sent == n && s.progress.attempts == p.attempts
      && s.progress.account == p.account.Add(b) && s.ledger == Charged(ledger, b)
      && ParsesRecorded(s.progress, s.kind)
      && (s.kind.Some? ==> !s.kind.value.Unaudited?)
  {
    hide CalculateCost, Account.Add, Charged;
  }

  /**
   * One rung counts its requests in the progress as in the budget, accounts for exactly the
   * decoded responses among their replies, and is gated by the budget it found.
   */
  lemma RungSound(c: Config, provider: nat -> Reply, p: Progress, n: nat, ledger: Option<Ledger>)
    requires ParsesRecorded(p, None)
    ensures var s := Rung(c, provider, p, n, ledger);
      && n <= s.sent <= n + c.MaxAttempts()
      && s.progress.attempts == p.attempts + (s.sent - n)
      && |Answers(provider, n, s.sent)| <= 1
      && s.progress.account == AddAll(p.account, Answers(provider, n, s.sent))
      && s.ledger == ChargeAll(Sent(ledger, s.sent - n), Answers(provider, n, s.sent))
      && ParsesRecorded(s.progress, s.kind)
      && (s.sent > n && ledger.Some? ==> !ledger.value.Refuses(c.Projection(p.mode, p.repair)))
      && (s.kind.Some? && s.kind.value.Unaudited? ==> s.sent == n && !BuildPayload(c, p.mode, p.repair).Payload?)
      && (s.kind.None? || (s.kind == Some(Uncaught) && p.metrics) ==> s.sent > n)
  {
    hide Post, CalculateCost, Digest, BuildPayload;
    var posted := Post(c, provider, n, ledger, c.Projection(p.mode, p.repair));
    PostCounts(c, provider, n, ledger, c.Projection(p.mode, p.repair));
    if posted.Answered? {
      assert [posted.body][1..] == [];
      DigestSound(c, p.(attempts := p.attempts + posted.attempts), n + posted.attempts,
                  Sent(ledger, posted.attempts), posted.body);
    }
  }

  // ---------------------------------------------------------------------------
  // Whole calls
  // ---------------------------------------------------------------------------

  lemma {:induction false} AddAllConcat(a: Account, v: seq<Body>, w: seq<Body>)
    ensures AddAll(a, v + w) == AddAll(AddAll(a, v), w)
    decreases |v|
  {
    if v == [] {
      assert v + w == w;
    } else {
      assert (v + w)[1..] == v[1..] + w;
      AddAllConcat(a.Add(v[0]), v[1..], w);
    }
  }

  lemma {:induction false} ChargeAllConcat(l: Option<Ledger>, v: seq<Body>, w: seq<Body>)
    ensures ChargeAll(l, v + w) == ChargeAll(ChargeAll(l, v), w)
    decreases |v|
  {
    if v == [] {
      assert v + w == w;
    } else {
      assert (v + w)[1..] == v[1..] + w;
      ChargeAllConcat(Charged(l, v[0]), v[1..], w);
    }
  }

  lemma {:induction false} ChargeAllSent(l: Option<Ledger>, v: seq<Body>, k: nat)
    ensures Sent(ChargeAll(l, v), k) == ChargeAll(Sent(l, k), v)
    decreases |v|
  {
    hide CalculateCost;
    if v != [] {
      ChargeAllSent(Charged(l, v[0]), v[1..], k);
    }
  }

  /** Two stretches of a call, one after the other, account and charge like one. */
  lemma Stretches(l: Option<Ledger>, a: nat, v: seq<Body>, b: nat, w: seq<Body>)
    ensures ChargeAll(Sent(ChargeAll(Sent(l, a), v), b), w) == ChargeAll(Sent(l, a + b), v + w)
  {
    ChargeAllSent(Sent(l, a), v, b);
    ChargeAllConcat(Sent(l, a + b), v, w);
    assert Sent(Sent(l, a), b) == Sent(l, a + b);
  }

  /**
   * For every provider, prompt and budget: a call from any rung sends at most a full retry loop for
   * each rung that is left, reports every request it sent, accounts for exactly the decoded
   * responses it received, and leaves the budget charged with just these.
   */
  lemma {:induction false} ClimbSound(c: Config, provider: nat -> Reply, p: Progress, n: nat, ledger: Option<Ledger>)
    requires ParsesRecorded(p, None)
    ensures var e := Climb(c, provider, p, n, ledger);
      && n <= e.sent <= n + (Rank(p.mode, p.repair) + 1) * c.MaxAttempts()
      && e.progress.attempts == p.attempts + (e.sent - n)
      && e.progress.account == AddAll(p.account, Answers(provider, n, e.sent))
      && e.ledger == ChargeAll(Sent(ledger, e.sent - n), Answers(provider, n, e.sent))
      && |Answers(provider, n, e.sent)| <= Rank(p.mode, p.repair) + 1
      && ParsesRecorded(e.progress, Some(e.kind))
      && (e.kind.Uncaught? && p.metrics ==> e.sent > n)
    decreases Rank(p.mode, p.repair)
  {
    hide Rung, AddAll, ChargeAll, Answers;
    var s := Rung(c, provider, p, n, ledger);
    RungSound(c, provider, p, n, ledger);
    if s.kind.None? {
      ClimbSound(c, provider, s.progress, s.sent, s.ledger);
      var e := Climb(c, provider, p, n, ledger);
      var v, w := Answers(provider, n, s.sent), Answers(provider, s.sent, e.sent);
      AnswersConcat(provider, n, s.sent, e.sent);
      AddAllConcat(p.account, v, w);
      Stretches(ledger, s.sent - n, v, e.sent - s.sent, w);
      RungBound(Rank(s.progress.mode, s.progress.repair), Rank(p.mode, p.repair), c.MaxAttempts());
    } else {
      RungBound(0, Rank(p.mode, p.repair) + 1, c.MaxAttempts());
    }
  }

  lemma RungBound(lower: nat, upper: nat, k: nat)
    requires lower < upper
    ensures k + (lower + 1) * k <= (upper + 1) * k && (lower + 1) * k <= upper * k
  {
  }

  /**
   * For every provider and budget, a call sends at most four retry loops; the errors it records
   * are the numbers of its failed parses, one fewer than its parses on success and as many on an
   * audited failure; and the budget is charged with its requests and its decoded responses.
   */
  lemma GenerateSound(c: Config, provider: nat -> Reply, n: nat, ledger: Option<Ledger>)
    ensures var e := Generate(c, provider, n, ledger);
      && n <= e.sent <= n + 4 * c.MaxAttempts() && (e.kind.Uncaught? ==> e.sent > n)
      && (e.kind.Succeeded? ==> e.progress.parses == |e.progress.errors| + 1)
      && (e.kind.Audited? ==> e.progress.parses == |e.progress.errors|)
      && Numbered(e.progress.errors)
      && e.progress.account == AddAll(NO_ACCOUNT, Answers(provider, n, e.sent))
      && e.ledger == ChargeAll(Sent(ledger, e.sent - n), Answers(provider, n, e.sent))
  {
    hide Climb, Answers, ChargeAll, AddAll;
    ClimbSound(c, provider, Start(c), n, ledger);
    var e := Generate(c, provider, n, ledger);
    var r := Rank(Start(c).mode, Start(c).repair);
    assert (r + 1) * c.MaxAttempts() <= 4 * c.MaxAttempts() by { FourRungs(r, c.MaxAttempts()); }
  }

  lemma FourRungs(r: nat, k: nat)
    requires r <= 3
    ensures (r + 1) * k <= 4 * k
  {
  }

  lemma {:induction false} ChargedRequests(l: Option<Ledger>, v: seq<Body>)
    ensures l.Some? ==> ChargeAll(l, v).Some? && ChargeAll(l, v).value.requests == l.value.requests
    decreases |v|
  {
    hide CalculateCost;
    if v != [] {
      ChargedRequests(Charged(l, v[0]), v[1..]);
    }
  }

  /**
   * The attempts a call reports are the requests it sent exactly unless it has sent some and then a
   * payload error or another uncaught exception took its report. Its budget tracker counts them always.
   */
  lemma AttemptsReported(c: Config, provider: nat -> Reply, n: nat, ledger: Option<Ledger>)
    ensures var e := Generate(c, provider, n, ledger);
      && (e.ReportedAttempts() == e.sent - n <==> (!e.kind.Unaudited? && !e.kind.Uncaught?) || e.sent == n)
      && (e.kind.Uncaught? ==> e.ReportedAttempts() != e.sent - n)
      && (ledger.Some? ==> e.ledger.Some? && e.ledger.value.requests == ledger.value.requests + (e.sent - n))
  {
    hide Climb, Answers, ChargeAll, AddAll;
    ClimbSound(c, provider, Start(c), n, ledger);
    var e := Generate(c, provider, n, ledger);
    ChargedRequests(Sent(ledger, e.sent - n), Answers(provider, n, e.sent));
  }

  // When the count can go wrong

  /** The rungs a call may come by, from a given one on. */
  function Rungs(c: Config, mode: Mode, repair: bool): seq<(Mode, bool)>
    decreases Rank(mode, repair)
  {
    var next := NextRung(c, mode, repair, false);
    [(mode, repair)] + if next.None? then [] else Rungs(c, next.value.0, next.value.1)
  }

  ghost predicate AllBuild(c: Config, rungs: seq<(Mode, bool)>) {
    forall i :: 0 <= i < |rungs| ==> BuildPayload(c, rungs[i].0, rungs[i].1).Payload?
  }

  lemma {:induction false} NeverUnaudited(c: Config, provider: nat -> Reply, p: Progress, n: nat,
      ledger: Option<Ledger>)
    requires ParsesRecorded(p, None) && AllBuild(c, Rungs(c, p.mode, p.repair))
    ensures !Climb(c, provider, p, n, ledger).kind.Unaudited?
    decreases Rank(p.mode, p.repair)
  {
    hide Post, CalculateCost, BuildPayload;
    var rungs := Rungs(c, p.mode, p.repair);
    assert rungs[0] == (p.mode, p.repair);
    RungSound(c, provider, p, n, ledger);
    var s := Rung(c, provider, p, n, ledger);
    if s.kind.None? {
      DescendsByNextRung(c, provider, p, n, ledger);
      assert rungs[1..] == Rungs(c, s.progress.mode, s.progress.repair);
      forall i | 0 <= i < |rungs[1..]| ensures BuildPayload(c, rungs[1..][i].0, rungs[1..][i].1).Payload? {
        assert rungs[1..][i] == rungs[i + 1];
      }
      NeverUnaudited(c, provider, s.progress, s.sent, s.ledger);
    }
  }

  lemma DescendsByNextRung(c: Config, provider: nat -> Reply, p: Progress, n: nat, ledger: Option<Ledger>)
    requires Rung(c, provider, p, n, ledger).kind.None?
    ensures NextRung(c, p.mode, p.repair, false) ==
      Some((Rung(c, provider, p, n, ledger).progress.mode, Rung(c, provider, p, n, ledger).progress.repair))
  {
    hide Transport, Post, CalculateCost, BuildPayload;
  }

  /** A provider whose every answer fails to parse. */
  const UNPARSABLE := Body(None, None, None, Missing, Missing, Missing, Pricing([], []), Message(false, true))

  function Garbage(): nat -> Reply {
    (i: nat) => Answer(UNPARSABLE)
  }

  lemma {:induction false} GarbageDescends(c: Config, p: Progress, n: nat, i: nat)
    requires ParsesRecorded(p, None)
    requires i < |Rungs(c, p.mode, p.repair)|
    requires !BuildPayload(c, Rungs(c, p.mode, p.repair)[i].0, Rungs(c, p.mode, p.repair)[i].1).Payload?
    ensures var e := Climb(c, Garbage(), p, n, None);
      e.kind.Unaudited? && (BuildPayload(c, p.mode, p.repair).Payload? ==> e.sent > n)
    decreases Rank(p.mode, p.repair)
  {
    hide CalculateCost, BuildPayload;
    var s := Rung(c, Garbage(), p, n, None);
    if BuildPayload(c, p.mode, p.repair).Payload? {
      assert Transport(Garbage(), n, 1, c.MaxAttempts()) == Answered(UNPARSABLE, 1);
      RungSound(c, Garbage(), p, n, None);
      assert i > 0;
      assert Rungs(c, p.mode, p.repair)[1..] == Rungs(c, s.progress.mode, s.progress.repair);
      GarbageDescends(c, s.progress, s.sent, i - 1);
      ClimbSound(c, Garbage(), s.progress, s.sent, s.ledger);
    }
  }

  // When an exception can escape

  /** A provider whose replies raise nothing that the call does not expect. */
  ghost predicate Tame(provider: nat -> Reply) {
    forall i: nat :: Harmless(provider(i))
  }

  predicate Harmless(r: Reply) {
    match r
    case TimedOut(waits) => waits
    case TransportFailed(waits) => waits
    case HttpError(_, _, waits) => waits
    case Raised => false
    case Answer(body) => !body.message.Unhandled? && (body.message.Message? ==> body.message.metrics)
    case _ => true
  }

  lemma {:induction false} TameTransport(provider: nat -> Reply, n: nat, attempt: nat, limit: nat)
    requires 1 <= attempt <= limit && Tame(provider)
    ensures var r := Transport(provider, n, attempt, limit);
      !r.Escaped? && (r.Answered? ==> Harmless(Answer(r.body)))
    decreases limit - attempt
  {
    hide Classify;
    assert Harmless(provider(n));
    if attempt < limit {
      TameTransport(provider, n + 1, attempt + 1, limit);
    }
  }

  lemma TameDigest(c: Config, p: Progress, n: nat, ledger: Option<Ledger>, b: Body)
    requires p.metrics && Harmless(Answer(b))
    ensures var s := Digest(c, p, n, ledger, b);
      s.progress.metrics && s.kind != Some(Uncaught)
  {
    hide CalculateCost;
  }

  lemma TameRung(c: Config, provider: nat -> Reply, p: Progress, n: nat, ledger: Option<Ledger>)
    requires Tame(provider) && p.metrics
    ensures var s := Rung(c, provider, p, n, ledger);
      s.progress.metrics && s.kind != Some(Uncaught)
  {
    hide Transport, CalculateCost, BuildPayload, Digest, Ledger.Refuses, Tame;
    TameTransport(provider, n, 1, c.MaxAttempts());
    var posted := Post(c, provider, n, ledger, c.Projection(p.mode, p.repair));
    if posted.Answered? {
      TameDigest(c, p.(attempts := p.attempts + posted.attempts), n + posted.attempts,
                 Sent(ledger, posted.attempts), posted.body);
    }
  }

  lemma {:induction false} NeverUncaught(c: Config, provider: nat -> Reply, p: Progress, n: nat, ledger: Option<Ledger>)
    requires Tame(provider) && p.metrics
    ensures !Climb(c, provider, p, n, ledger).kind.Uncaught?
    decreases Rank(p.mode, p.repair)
  {
    hide Rung, Tame;
    var s := Rung(c, provider, p, n, ledger);
    TameRung(c, provider, p, n, ledger);
    if s.kind.None? {
      NeverUncaught(c, provider, s.progress, s.sent, s.ledger);
    }
  }

  lemma GarbageTame()
    ensures Tame(Garbage())
  {
  }

  /** A provider every request to which raises. */
  function Broken(): nat -> Reply {
    (i: nat) => Raised
  }

  lemma BrokenEscapes(c: Config)
    requires BuildPayload(c, Start(c).mode, false).Payload?
    ensures var e := Generate(c, Broken(), 0, None);
      e.kind.Uncaught? && e.sent == 1
  {
    hide BuildPayload, CalculateCost;
    assert Transport(Broken(), 0, 1, c.MaxAttempts()) == Escaped(1);
    assert Rung(c, Broken(), Start(c), 0, None).kind == Some(Uncaught);
  }

  /** The report of one call gives the requests it sent. */
  ghost predicate ReportsRight(c: Config, provider: nat -> Reply, n: nat, ledger: Option<Ledger>) {
    Generate(c, provider, n, ledger).ReportedAttempts() == Generate(c, provider, n, ledger).sent - n
  }

  lemma RightWhenBuilt(c: Config, provider: nat -> Reply, n: nat, ledger: Option<Ledger>)
    requires var first := Start(c).mode;
      || (Tame(provider) && AllBuild(c, Rungs(c, first, false)))
      || !BuildPayload(c, first, false).Payload?
    ensures ReportsRight(c, provider, n, ledger)
  {
    hide Climb, Rung, BuildPayload, Rungs, AllBuild, Tame;
    AttemptsReported(c, provider, n, ledger);
    if !BuildPayload(c, Start(c).mode, false).Payload? {
      FirstRefused(c, provider, n, ledger);
    } else {
      NeverUnaudited(c, provider, Start(c), n, ledger);
      NeverUncaught(c, provider, Start(c), n, ledger);
    }
  }

  /**
   * The reported attempts are right for every budget and every provider that raises nothing unexpected
   * if and only if the configuration lets every rung of its ladder build its payload, or not even the
   * first one. They are right for every provider only in the second case, when nothing is ever sent.
   */
  lemma AttemptsAlwaysReported(c: Config)
    ensures var first := Start(c).mode;
      (forall provider: nat -> Reply, n: nat, ledger: Option<Ledger> ::
         Tame(provider) ==> ReportsRight(c, provider, n, ledger))
      <==> (AllBuild(c, Rungs(c, first, false)) || !BuildPayload(c, first, false).Payload?)
    ensures (forall provider: nat -> Reply, n: nat, ledger: Option<Ledger> :: ReportsRight(c, provider, n, ledger))
      <==> !BuildPayload(c, Start(c).mode, false).Payload?
  {
    hide Climb, Rung, BuildPayload, Rungs, ReportsRight, Tame;
    var first := Start(c).mode;
    forall provider: nat -> Reply, n: nat, ledger: Option<Ledger> |
      (Tame(provider) && AllBuild(c, Rungs(c, first, false))) || !BuildPayload(c, first, false).Payload?
      ensures ReportsRight(c, provider, n, ledger)
    {
      RightWhenBuilt(c, provider, n, ledger);
    }
    if BuildPayload(c, first, false).Payload? {
      WrongWhenBroken(c);
      if !AllBuild(c, Rungs(c, first, false)) {
        WrongWhenUnbuilt(c);
        GarbageTame();
      }
    }
  }

  lemma WrongWhenBroken(c: Config)
    requires BuildPayload(c, Start(c).mode, false).Payload?
    ensures !ReportsRight(c, Broken(), 0, None)
  {
    hide Climb, BuildPayload;
    BrokenEscapes(c);
  }

  lemma WrongWhenUnbuilt(c: Config)
    requires BuildPayload(c, Start(c).mode, false).Payload? && !AllBuild(c, Rungs(c, Start(c).mode, false))
    ensures !ReportsRight(c, Garbage(), 0, None)
  {
    hide Climb, Rung, BuildPayload, Rungs;
    var rungs := Rungs(c, Start(c).mode, false);
    var i :| 0 <= i < |rungs| && !BuildPayload(c, rungs[i].0, rungs[i].1).Payload?;
    GarbageDescends(c, Start(c), 0, i);
  }

  lemma FirstRefused(c: Config, provider: nat -> Reply, n: nat, ledger: Option<Ledger>)
    requires !BuildPayload(c, Start(c).mode, false).Payload?
    ensures Generate(c, provider, n, ledger).sent == n
  {
    hide BuildPayload, Transport;
  }
}
