/** Unbounded runs of the operation state machine, and the request status derived from them. */
module OperationLifecycle {

  datatype Status = New | NeedsInformation | ReadyForValidation | Escalated | Executing | Completed | Failed | Cancelled

  function Transitions(s: Status): set<Status> {
    match s
    case New => {NeedsInformation, ReadyForValidation, Escalated, Cancelled}
    case NeedsInformation => {ReadyForValidation, Escalated, Cancelled}
    case ReadyForValidation => {Executing, NeedsInformation, Escalated, Cancelled}
    case Executing => {Completed, Failed, Escalated}
    case Escalated => {Cancelled}
    case Completed => {}
    case Failed => {}
    case Cancelled => {}
  }

  /** Whether `assert_operation_transition` lets the step pass. */
  predicate Allowed(current: Status, target: Status) {
    target == current || target in Transitions(current)
  }

  datatype RequestStatus =
    | RequestNew | Analyzing | Active | PartiallyCompleted | RequestNeedsInformation | RequestReady
    | RequestEscalated | RequestCompleted | RequestFailed | RequestCancelled | Expired

  function RequestTransitions(s: RequestStatus): set<RequestStatus> {
    match s
    case RequestNew => {Analyzing, RequestCancelled}
    case Analyzing => {Active, RequestReady, RequestNeedsInformation, PartiallyCompleted, RequestEscalated,
                       RequestCompleted, RequestFailed}
    case Active => {RequestReady, RequestNeedsInformation, PartiallyCompleted, RequestEscalated, RequestCompleted,
                    RequestFailed, RequestCancelled, Expired}
    case RequestReady => {Active, RequestNeedsInformation, PartiallyCompleted, RequestEscalated, RequestCompleted,
      RequestFailed}
    case RequestNeedsInformation => {RequestReady, PartiallyCompleted, RequestEscalated, RequestCompleted,
                                     RequestCancelled, Expired}
    case PartiallyCompleted => {RequestReady, RequestNeedsInformation, RequestEscalated, RequestCompleted,
      RequestFailed}
    case RequestEscalated => {RequestCancelled, RequestCompleted}
    case RequestCompleted => {}
    case RequestFailed => {}
    case RequestCancelled => {}
    case Expired => {}
  }

  function Derive(statuses: seq<Status>): RequestStatus {
    if statuses == [] then Active
    else if forall s :: s in statuses ==> s == Completed then RequestCompleted
    else if NeedsInformation in statuses then
      if Completed in statuses then PartiallyCompleted else RequestNeedsInformation
    else if Executing in statuses then Active
    else if ReadyForValidation in statuses then RequestReady
    else if Escalated in statuses then
      if Completed in statuses then PartiallyCompleted else RequestEscalated
    else if Failed in statuses then RequestFailed
    else Active
  }

  // ---------------------------------------------------------------------------
  // One operation
  // ---------------------------------------------------------------------------

  /** The statuses of one operation over a run: it starts new and changes by allowed steps only. */
  ghost predicate Path(track: seq<Status>) {
    && track != [] && track[0] == New
    && forall k :: 0 < k < |track| ==> Allowed(track[k - 1], track[k])
  }

  predicate Enters(track: seq<Status>, k: nat) {
    0 < k < |track| && track[k] == Executing && track[k - 1] != Executing
  }

  /** How often the operation has entered execution. */
  function Executions(track: seq<Status>): nat {
    if |track| <= 1 then 0
    else Executions(track[..|track| - 1]) + (if Enters(track, |track| - 1) then 1 else 0)
  }

  predicate BeforeExecution(s: Status) {
    s == New || s == NeedsInformation || s == ReadyForValidation
  }

  /**
   * The operation table as rules, and nothing is allowed beyond them: before execution an operation may be
   * asked about, validated, escalated or cancelled; only a validated one is executed; execution completes,
   * fails or is escalated; what is escalated may be cancelled.
   */
  lemma OperationRules(x: Status, y: Status)
    ensures Allowed(x, y) <==>
      || x == y
      || (BeforeExecution(x) && y in {NeedsInformation, ReadyForValidation, Escalated, Cancelled})
      || (x == ReadyForValidation && y == Executing)
      || (x == Executing && y in {Completed, Failed, Escalated})
      || (x == Escalated && y == Cancelled)
  {
  }

  lemma {:induction false} ExecutionsByPhase(track: seq<Status>)
    requires Path(track)
    ensures Executions(track) <= 1
    ensures BeforeExecution(track[|track| - 1]) ==> Executions(track) == 0
    ensures track[|track| - 1] in {Executing, Completed, Failed} ==> Executions(track) == 1
  {
    if |track| > 1 {
      ExecutionsByPhase(track[..|track| - 1]);
      assert Allowed(track[|track| - 2], track[|track| - 1]);
    }
  }

  /** An operation executes at most once, and only out of validation; a completed or failed one has
      done so exactly once. */
  lemma ExecutesOnce(track: seq<Status>)
    requires Path(track)
    ensures Executions(track) <= 1
    ensures forall k: nat :: Enters(track, k) ==> track[k - 1] == ReadyForValidation
    ensures forall j: nat, k: nat :: Enters(track, j) && Enters(track, k) ==> j == k
    ensures track[|track| - 1] in {Completed, Failed} ==> exists k: nat :: Enters(track, k)
  {
    ExecutionsByPhase(track);
    forall k: nat | Enters(track, k) ensures track[k - 1] == ReadyForValidation {
      assert Allowed(track[k - 1], track[k]);
    }
    forall j: nat, k: nat | Enters(track, j) && Enters(track, k) ensures j == k {
      if j < k {
        EntryCounted(track, j, k);
      } else if k < j {
        EntryCounted(track, k, j);
      }
    }
    if Executions(track) > 0 {
      EntryExists(track);
    }
  }

  lemma {:induction false} EntryCounted(track: seq<Status>, j: nat, k: nat)
    requires Enters(track, j) && Enters(track, k) && j < k
    ensures Executions(track) >= 2
  {
    var n := |track| - 1;
    if k < n {
      EntryCounted(track[..n], j, k);
    } else {
      EntryOnce(track[..n], j);
    }
  }

  lemma {:induction false} EntryOnce(track: seq<Status>, j: nat)
    requires Enters(track, j)
    ensures Executions(track) >= 1
  {
    if j < |track| - 1 {
      EntryOnce(track[..|track| - 1], j);
    }
  }

  lemma {:induction false} EntryExists(track: seq<Status>)
    requires Executions(track) > 0
    ensures exists k: nat :: Enters(track, k)
  {
    var n := |track| - 1;
    if !Enters(track, n) {
      EntryExists(track[..n]);
      var k: nat :| Enters(track[..n], k);
      assert Enters(track, k);
    }
  }

  /** What is final stays; what is escalated can only be cancelled. */
  lemma {:induction false} FinalStays(track: seq<Status>, j: nat, k: nat)
    requires Path(track) && j <= k < |track|
    ensures track[j] in {Completed, Failed, Cancelled} ==> track[k] == track[j]
    ensures track[j] == Escalated ==> track[k] in {Escalated, Cancelled}
    decreases k
  {
    if j < k {
      FinalStays(track, j, k - 1);
      assert Allowed(track[k - 1], track[k]);
    }
  }

  /** Once escalated, an operation never executes again. */
  lemma EscalatedNeverExecutes(track: seq<Status>, j: nat, k: nat)
    requires Path(track) && j <= k < |track| && track[j] == Escalated
    ensures !Enters(track, k) && track[k] != Executing
  {
    FinalStays(track, j, k);
  }

  // ---------------------------------------------------------------------------
  // A request with its operations
  // ---------------------------------------------------------------------------

  /** One operation takes one allowed step; the others keep their status. */
  ghost predicate Step(a: seq<Status>, b: seq<Status>) {
    |a| == |b| && exists i :: 0 <= i < |a| && Allowed(a[i], b[i]) && b == a[i := b[i]]
  }

  ghost predicate History(h: seq<seq<Status>>) {
    && h != [] && (forall i :: 0 <= i < |h[0]| ==> h[0][i] == New)
    && forall k :: 0 < k < |h| ==> Step(h[k - 1], h[k])
  }

  lemma {:induction false} SameCount(h: seq<seq<Status>>, k: nat)
    requires History(h) && k < |h|
    ensures |h[k]| == |h[0]|
  {
    if k > 0 {
      SameCount(h, k - 1);
      assert Step(h[k - 1], h[k]);
    }
  }

  function Track(h: seq<seq<Status>>, i: nat): (r: seq<Status>)
    requires forall k :: 0 <= k < |h| ==> i < |h[k]|
    ensures |r| == |h| && forall k :: 0 <= k < |h| ==> r[k] == h[k][i]
  {
    seq(|h|, k requires 0 <= k < |h| => h[k][i])
  }

  /** Under any interleaving every operation goes its own legal way, so all of the above holds of it. */
  lemma TracksArePaths(h: seq<seq<Status>>, i: nat)
    requires History(h) && i < |h[0]|
    ensures (forall k :: 0 <= k < |h| ==> i < |h[k]|) && Path(Track(h, i))
    ensures Executions(Track(h, i)) <= 1
  {
    forall k | 0 <= k < |h| ensures i < |h[k]| {
      SameCount(h, k);
    }
    var t := Track(h, i);
    forall k | 0 < k < |t| ensures Allowed(t[k - 1], t[k]) {
      assert Step(h[k - 1], h[k]);
      var j :| 0 <= j < |h[k - 1]| && Allowed(h[k - 1][j], h[k][j]) && h[k] == h[k - 1][j := h[k][j]];
      if j != i {
        assert h[k][i] == h[k - 1][i];
      }
    }
    ExecutionsByPhase(t);
  }

  /** The derived status depends only on which statuses occur. */
  lemma DeriveBySet(a: seq<Status>, b: seq<Status>)
    requires forall s: Status :: s in a <==> s in b
    ensures Derive(a) == Derive(b)
  {
    if a != [] {
      assert a[0] in b;
    }
    if b != [] {
      assert b[0] in a;
    }
  }

  /** What each derived status says about the operations of a request. */
  lemma DeriveMeans(a: seq<Status>)
    ensures var waiting, executing, ready, escalated, completed, failed :=
        NeedsInformation in a, Executing in a, ReadyForValidation in a, Escalated in a, Completed in a, Failed in a;
      match Derive(a)
      case RequestNeedsInformation => waiting && !completed
      case PartiallyCompleted => completed && (waiting || (escalated && !executing && !ready))
      case RequestReady => ready && !waiting && !executing
      case RequestEscalated => escalated && !waiting && !executing && !ready && !completed
      case RequestFailed => failed && !waiting && !executing && !ready && !escalated
      case RequestCompleted => AllCompleted(a)
      case Active => !waiting && (executing || (!ready && !escalated && !failed)) && !AllCompleted(a)
      case _ => false
  {
    DeriveCompleted(a);
  }

  predicate AllCompleted(a: seq<Status>) {
    a != [] && forall i :: 0 <= i < |a| ==> a[i] == Completed
  }

  lemma DeriveCompleted(a: seq<Status>)
    ensures Derive(a) == RequestCompleted <==> a != [] && forall i :: 0 <= i < |a| ==> a[i] == Completed
  {
    assert forall i :: 0 <= i < |a| ==> a[i] in a;
    assert (forall s :: s in a ==> s == Completed) <==> forall i :: 0 <= i < |a| ==> a[i] == Completed;
  }

  /** A request derived as completed has all its operations completed, and stays so for ever. */
  lemma CompletedForever(h: seq<seq<Status>>, j: nat, k: nat)
    requires History(h) && j <= k < |h| && Derive(h[j]) == RequestCompleted
    ensures Derive(h[k]) == RequestCompleted
  {
    SameCount(h, j);
    SameCount(h, k);
    DeriveCompleted(h[j]);
    forall i | 0 <= i < |h[k]| ensures h[k][i] == Completed {
      TracksArePaths(h, i);
      FinalStays(Track(h, i), j, k);
    }
    DeriveCompleted(h[k]);
  }

  // ---------------------------------------------------------------------------
  // The request transition table
  // ---------------------------------------------------------------------------

  /** The derived status stays, or changes as the table of request statuses allows. */
  predicate Follows(before: seq<Status>, after: seq<Status>) {
    Derive(after) == Derive(before) || Derive(after) in RequestTransitions(Derive(before))
  }

  /** A request that is being worked on. */
  predicate Working(s: RequestStatus) {
    s in {Analyzing, Active, RequestReady, RequestNeedsInformation, PartiallyCompleted}
  }

  /** The request table by where its steps lead. */
  lemma RequestRules(x: RequestStatus, y: RequestStatus)
    ensures y in RequestTransitions(x) <==>
      match y
      case RequestNew => false
      case Analyzing => x == RequestNew
      case Active => x in {Analyzing, RequestReady}
      case RequestReady => Working(x) && x != RequestReady
      case RequestNeedsInformation => Working(x) && x != RequestNeedsInformation
      case PartiallyCompleted => Working(x) && x != PartiallyCompleted
      case RequestEscalated => Working(x)
      case RequestCompleted => Working(x) || x == RequestEscalated
      case RequestFailed => Working(x) && x != RequestNeedsInformation
      case RequestCancelled => x in {RequestNew, Active, RequestNeedsInformation, RequestEscalated}
      case Expired => x in {Active, RequestNeedsInformation}
  {
  }

  /** No operation of `o` is waiting, executing or ready. */
  predicate Quiet(o: seq<Status>) {
    NeedsInformation !in o && Executing !in o && ReadyForValidation !in o
  }

  /** The steps from `x` to `y`, beside the operations `o`, that take the derived status off the table. */
  predicate Breaks(o: seq<Status>, x: Status, y: Status) {
    match x
    case Escalated =>
      y == Cancelled && Quiet(o) && Escalated !in o && !(Completed in o && Failed in o)
    case New =>
      y != New && y != Cancelled && Quiet(o) &&
      (if Escalated in o then Completed !in o && y != Escalated else Failed in o)
    case NeedsInformation =>
      NeedsInformation !in o && y != NeedsInformation &&
      (Executing in o ||
       (y == Cancelled && ReadyForValidation !in o && Escalated !in o && !(Failed in o && Completed in o)))
    case _ => false
  }

  predicate Occurs(x: Status, o: seq<Status>, s: Status) {
    s == x || s in o
  }

  /** The derived status of an operation at `x` beside the operations `o`. */
  function DeriveBeside(x: Status, o: seq<Status>): RequestStatus {
    if x == Completed && New !in o && Quiet(o) && Escalated !in o && Failed !in o && Cancelled !in o then
      RequestCompleted
    else if Occurs(x, o, NeedsInformation) then
      if Occurs(x, o, Completed) then PartiallyCompleted else RequestNeedsInformation
    else if Occurs(x, o, Executing) then Active
    else if Occurs(x, o, ReadyForValidation) then RequestReady
    else if Occurs(x, o, Escalated) then
      if Occurs(x, o, Completed) then PartiallyCompleted else RequestEscalated
    else if Occurs(x, o, Failed) then RequestFailed
    else Active
  }

  lemma OnlyCompleted(a: seq<Status>)
    ensures (forall s :: s in a ==> s == Completed) <==>
      New !in a && Quiet(a) && Escalated !in a && Failed !in a && Cancelled !in a
  {
  }

  lemma DerivedBeside(a: seq<Status>, i: nat)
    requires i < |a|
    ensures Derive(a) == DeriveBeside(a[i], a[..i] + a[i + 1..])
  {
    var o := a[..i] + a[i + 1..];
    assert a == a[..i] + [a[i]] + a[i + 1..];
    forall s: Status ensures s in a <==> Occurs(a[i], o, s) {
    }
    OnlyCompleted(a);
  }

  /** Exactly which legal steps keep to the request transition table. */
  lemma FollowsUnlessBreaks(a: seq<Status>, i: nat, y: Status)
    requires i < |a| && Allowed(a[i], y)
    ensures Follows(a, a[i := y]) <==> !Breaks(a[..i] + a[i + 1..], a[i], y)
  {
    hide Derive;
    var b := a[i := y];
    assert b[..i] + b[i + 1..] == a[..i] + a[i + 1..];
    DerivedBeside(a, i);
    DerivedBeside(b, i);
  }

  // Every list of statuses, and so every breaking step, comes up in some history

  /** The way of an operation from new to a status. */
  function Route(s: Status): seq<Status> {
    match s
    case New => []
    case NeedsInformation => [NeedsInformation]
    case ReadyForValidation => [ReadyForValidation]
    case Escalated => [Escalated]
    case Executing => [ReadyForValidation, Executing]
    case Completed => [ReadyForValidation, Executing, Completed]
    case Failed => [ReadyForValidation, Executing, Failed]
    case Cancelled => [Cancelled]
  }

  /** Allowed steps lead from `x` by way of `way` to `y`. */
  predicate Leads(x: Status, way: seq<Status>, y: Status)
    decreases |way|
  {
    if way == [] then x == y else Allowed(x, way[0]) && Leads(way[0], way[1..], y)
  }

  lemma LeadsOn(x: Status, next: Status, way: seq<Status>, y: Status)
    requires Allowed(x, next) && Leads(next, way, y)
    ensures Leads(x, [next] + way, y)
  {
    assert ([next] + way)[1..] == way;
  }

  lemma RouteLeads(s: Status)
    ensures Leads(New, Route(s), s)
  {
    if s in {Executing, Completed, Failed} {
      var last := if s == Executing then [] else [s];
      if s != Executing {
        LeadsOn(Executing, s, [], s);
      }
      LeadsOn(ReadyForValidation, Executing, last, s);
      LeadsOn(New, ReadyForValidation, [Executing] + last, s);
      assert Route(s) == [ReadyForValidation] + ([Executing] + last);
    } else if s != New {
      LeadsOn(New, s, [], s);
    }
  }

  lemma Extended(h: seq<seq<Status>>, i: nat, y: Status)
    requires History(h) && i < |h[|h| - 1]| && Allowed(h[|h| - 1][i], y)
    ensures History(h + [h[|h| - 1][i := y]])
  {
    var last, g := h[|h| - 1], h + [h[|h| - 1][i := y]];
    assert Step(last, last[i := y]);
    forall k | 0 < k < |g| ensures Step(g[k - 1], g[k]) {
      if k < |h| {
        assert Step(h[k - 1], h[k]);
      }
    }
  }

  /** Takes operation `i` along a way, the others staying where they are. */
  lemma {:induction false} Routed(h: seq<seq<Status>>, i: nat, way: seq<Status>, y: Status)
    returns (g: seq<seq<Status>>)
    requires History(h) && i < |h[|h| - 1]| && Leads(h[|h| - 1][i], way, y)
    ensures History(g) && g[|g| - 1] == h[|h| - 1][i := y]
    decreases |way|
  {
    g := h;
    if way != [] {
      Extended(h, i, way[0]);
      g := Routed(h + [h[|h| - 1][i := way[0]]], i, way[1..], y);
    }
  }

  /** Some run leads from new operations alone to the first `n` statuses of a list. */
  lemma {:induction false} Reached(a: seq<Status>, n: nat) returns (h: seq<seq<Status>>)
    requires n <= |a|
    ensures History(h) && h[|h| - 1] == a[..n] + seq(|a| - n, _ => New)
    decreases n
  {
    if n == 0 {
      h := [seq(|a|, _ => New)];
    } else {
      var g := Reached(a, n - 1);
      var last := g[|g| - 1];
      RouteLeads(a[n - 1]);
      h := Routed(g, n - 1, Route(a[n - 1]), a[n - 1]);
      assert last[n - 1 := a[n - 1]] == a[..n] + seq(|a| - n, _ => New);
    }
  }

  /** Some operation takes a breaking step from `a` to `b`. */
  ghost predicate BreakingStep(a: seq<Status>, b: seq<Status>) {
    |a| == |b| && exists i ::
      0 <= i < |a| && Allowed(a[i], b[i]) && b == a[i := b[i]] && Breaks(a[..i] + a[i + 1..], a[i], b[i])
  }

  lemma StepFollows(a: seq<Status>, b: seq<Status>)
    requires Step(a, b)
    ensures Follows(a, b) <==> !BreakingStep(a, b)
  {
    hide Follows, Breaks, Allowed;
    var i :| 0 <= i < |a| && Allowed(a[i], b[i]) && b == a[i := b[i]];
    FollowsUnlessBreaks(a, i, b[i]);
    forall j | 0 <= j < |a| && Allowed(a[j], b[j]) && b == a[j := b[j]]
      ensures Breaks(a[..j] + a[j + 1..], a[j], b[j]) <==> !Follows(a, b)
    {
      FollowsUnlessBreaks(a, j, b[j]);
    }
  }

  /** The derived status follows the table all through a history if and only if no step of it breaks. */
  lemma HistoriesFollow(h: seq<seq<Status>>)
    requires History(h)
    ensures (forall k :: 0 < k < |h| ==> Follows(h[k - 1], h[k])) <==>
      (forall k :: 0 < k < |h| ==> !BreakingStep(h[k - 1], h[k]))
  {
    hide Follows, BreakingStep, Step;
    forall k | 0 < k < |h| ensures Follows(h[k - 1], h[k]) <==> !BreakingStep(h[k - 1], h[k]) {
      StepFollows(h[k - 1], h[k]);
    }
  }

  /** Every breaking step is taken in some history. */
  lemma BreakTaken(a: seq<Status>, i: nat, y: Status) returns (h: seq<seq<Status>>)
    requires i < |a| && Allowed(a[i], y) && Breaks(a[..i] + a[i + 1..], a[i], y)
    ensures History(h) && |h| >= 2 && h[|h| - 2] == a && h[|h| - 1] == a[i := y] && !Follows(h[|h| - 2], h[|h| - 1])
  {
    var g := Reached(a, |a|);
    assert g[|g| - 1] == a;
    Extended(g, i, y);
    h := g + [a[i := y]];
    FollowsUnlessBreaks(a, i, y);
  }

  /** Derived statuses do leave the request transition table: cancelling the only, escalated
      operation takes its request from escalated to active. */
  lemma DerivedLeavesTable()
    ensures var h := [[New], [Escalated], [Cancelled]];
      History(h) && Derive(h[1]) == RequestEscalated && Derive(h[2]) == Active && !Follows(h[1], h[2])
  {
    var h := [[New], [Escalated], [Cancelled]];
    assert Step(h[0], h[1]) by { assert h[1] == h[0][0 := h[1][0]]; }
    assert Step(h[1], h[2]) by { assert h[2] == h[1][0 := h[2][0]]; }
    OnlyCompleted([Escalated]);
    OnlyCompleted([Cancelled]);
  }
}
