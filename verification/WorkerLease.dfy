/**
 * The advisory-lock lease around the polling workers: any number of workers, each on a database
 * session of its own, and a database that may drop sessions at any time.
 */
module WorkerLease {

  /** Where a worker stands. `Polling(n)` is inside an iteration, after `n` of its stages. */
  datatype Place =
    | Connected           // the lock has not been tried yet
    | Refused             // the lock was held elsewhere; the exception is on its way
    | AtKeepalive         // inside the lease, about to start an iteration
    | Polling(stage: nat) // inside the lease, inside an iteration
    | Leaving             // the lease body is over or has raised; the final unlock is next
    | Closed

  /** The two loops: one only polls, the other polls, dispatches and sends. */
  datatype Program = MailPoll | WorkerRun

  function Stages(p: Program): nat {
    if p.MailPoll? then 1 else 3
  }

  /** What a worker runs, where it stands, and whether its database session is alive. */
  datatype Worker = Worker(program: Program, place: Place, session: bool)

  /** The lock belongs to the session of a worker, or to nobody. */
  datatype Owner = Free | HeldBy(worker: nat)

  datatype World = World(owner: Owner, workers: map<nat, Worker>)

  predicate InBody(w: Worker) {
    w.place.AtKeepalive? || w.place.Polling?
  }

  datatype Event =
    | Connect(id: nat, program: Program)
    | TryLock(id: nat)
    | Raise(id: nat)
    | Keepalive(id: nat)
    | Work(id: nat)
    | Leave(id: nat)      // the loop returns, or a stage raises
    | Unlock(id: nat)
    | LoseSession(id: nat)

  function Put(s: World, id: nat, w: Worker): World {
    s.(workers := s.workers[id := w])
  }

  /** A session that ends gives the lock back; unlocking without owning it does nothing. */
  function Released(owner: Owner, id: nat): Owner {
    if owner == HeldBy(id) then Free else owner
  }

  predicate Enabled(s: World, e: Event) {
    match e
    case Connect(id, _) => id !in s.workers
    case TryLock(id) => id in s.workers && s.workers[id].place.Connected?
    case Raise(id) => id in s.workers && s.workers[id].place.Refused?
    case Keepalive(id) => id in s.workers && s.workers[id].place.AtKeepalive?
    case Work(id) => id in s.workers && s.workers[id].place.Polling?
    case Leave(id) => id in s.workers && InBody(s.workers[id])
    case Unlock(id) => id in s.workers && s.workers[id].place.Leaving?
    case LoseSession(id) => id in s.workers && s.workers[id].session
  }

  function Next(s: World, e: Event): World
    requires Enabled(s, e)
  {
    match e
    case Connect(id, program) => Put(s, id, Worker(program, Connected, true))
    case TryLock(id) =>
      var w := s.workers[id];
      if !w.session then Put(s, id, w.(place := Leaving))
      else if s.owner == Free then Put(s.(owner := HeldBy(id)), id, w.(place := AtKeepalive))
      else Put(s, id, w.(place := Refused))
    case Raise(id) => Put(s, id, s.workers[id].(place := Leaving))
    case Keepalive(id) =>
      var w := s.workers[id];
      if w.session then Put(s, id, w.(place := Polling(0))) else Put(s, id, w.(place := Leaving))
    case Work(id) =>
      var w := s.workers[id];
      if w.place.stage + 1 < Stages(w.program) then Put(s, id, w.(place := Polling(w.place.stage + 1)))
      else Put(s, id, w.(place := AtKeepalive))
    case Leave(id) => Put(s, id, s.workers[id].(place := Leaving))
    case Unlock(id) =>
      Put(s.(owner := Released(s.owner, id)), id, s.workers[id].(place := Closed, session := false))
    case LoseSession(id) =>
      Put(s.(owner := Released(s.owner, id)), id, s.workers[id].(session := false))
  }

  // ---------------------------------------------------------------------------
  // Runs
  // ---------------------------------------------------------------------------

  const START := World(Free, map[])

  predicate Possible(events: seq<Event>)
    decreases |events|, 0
  {
    events == [] ||
    (Possible(events[..|events| - 1]) && Enabled(After(events[..|events| - 1]), events[|events| - 1]))
  }

  function After(events: seq<Event>): World
    requires Possible(events)
    decreases |events|, 1
  {
    if events == [] then START else Next(After(events[..|events| - 1]), events[|events| - 1])
  }

  /** A worker with a live session is in the lease body only while its session holds the lock, and
      the lock is held only by such a session or by one about to give it back. */
  ghost predicate LockProtects(s: World) {
    && (forall id :: id in s.workers && s.workers[id].session && InBody(s.workers[id]) ==> s.owner == HeldBy(id))
    && (s.owner.HeldBy? ==>
          s.owner.worker in s.workers && s.workers[s.owner.worker].session &&
          (InBody(s.workers[s.owner.worker]) || s.workers[s.owner.worker].place.Leaving?))
  }

  lemma NextProtects(s: World, e: Event)
    requires LockProtects(s) && Enabled(s, e)
    ensures LockProtects(Next(s, e))
  {
  }

  lemma {:induction false} AlwaysProtects(events: seq<Event>)
    requires Possible(events)
    ensures LockProtects(After(events))
    decreases |events|
  {
    hide LockProtects;
    if events == [] {
      StartProtects();
    } else {
      AlwaysProtects(events[..|events| - 1]);
      NextProtects(After(events[..|events| - 1]), events[|events| - 1]);
    }
  }

  lemma StartProtects()
    ensures LockProtects(START)
  {
  }

  /** However many workers come and go, at most one with a live session is inside the lease body. */
  lemma MutualExclusion(events: seq<Event>, i: nat, j: nat)
    requires Possible(events)
    requires i in After(events).workers && j in After(events).workers
    requires After(events).workers[i].session && InBody(After(events).workers[i])
    requires After(events).workers[j].session && InBody(After(events).workers[j])
    ensures i == j
  {
    AlwaysProtects(events);
  }

  /** A worker that tries the lock gets into the lease body exactly if its session is alive and the lock is
      free; it then holds the lock. */
  lemma FreeLockIsTaken(events: seq<Event>, id: nat)
    requires Possible(events) && events != [] && events[|events| - 1] == TryLock(id)
    ensures var before, after := After(events[..|events| - 1]), After(events);
      && id in before.workers && id in after.workers
      && (InBody(after.workers[id]) <==> before.workers[id].session && before.owner == Free)
      && after.owner == (if InBody(after.workers[id]) then HeldBy(id) else before.owner)
  {
  }

  /** The lock is free again as soon as no live session is in the lease body or on its way out of it. */
  lemma LockComesFree(events: seq<Event>)
    requires Possible(events)
    requires forall id :: id in After(events).workers && After(events).workers[id].session ==>
      !InBody(After(events).workers[id]) && !After(events).workers[id].place.Leaving?
    ensures After(events).owner == Free
  {
    AlwaysProtects(events);
  }

  /** Left alone, a live worker goes through a whole iteration, of one stage or of three, and is ready for the
      next one, still holding the lock. */
  lemma IterationRuns(s: World, id: nat)
    requires id in s.workers && s.workers[id].session && s.workers[id].place.AtKeepalive?
    ensures Enabled(s, Keepalive(id))
    ensures var t := Next(s, Keepalive(id));
      && t.owner == s.owner && id in t.workers && Enabled(t, Work(id))
      && var u := Next(t, Work(id));
         if s.workers[id].program.MailPoll? then u == s
         else
           && Enabled(u, Work(id)) && Enabled(Next(u, Work(id)), Work(id))
           && Next(Next(u, Work(id)), Work(id)) == s
  {
    var w := s.workers[id];
    var t := Next(s, Keepalive(id));
    assert t.workers[id] == w.(place := Polling(0));
    var u := Next(t, Work(id));
    assert s.workers == s.workers[id := w];
    if w.program.WorkerRun? {
      assert u.workers[id] == w.(place := Polling(1));
      var v := Next(u, Work(id));
      assert v.workers[id] == w.(place := Polling(2));
      assert Next(v, Work(id)).workers == s.workers;
    } else {
      assert u.workers == s.workers;
    }
  }

  /** A refused worker is on its way out and does not own the lock. */
  ghost predicate Outside(s: World, id: nat) {
    id in s.workers && s.workers[id].place in {Refused, Leaving, Closed} && s.owner != HeldBy(id)
  }

  lemma {:induction false} RefusedStaysOutside(events: seq<Event>, t: nat, id: nat)
    requires Possible(events) && t < |events| && events[t] == TryLock(id)
    requires Possible(events[..t]) && After(events[..t]).owner != Free
    ensures Outside(After(events), id)
    decreases |events|
  {
    var n := |events| - 1;
    if t < n {
      assert events[..n][..t] == events[..t];
      RefusedStaysOutside(events[..n], t, id);
    } else {
      AlwaysProtects(events[..n]);
    }
  }

  /** The unlock that follows a failed acquisition too leaves the lock with whoever holds it. */
  lemma RefusedUnlockHarmless(events: seq<Event>, t: nat, id: nat)
    requires Possible(events) && t < |events| - 1 && events[t] == TryLock(id)
    requires Possible(events[..t]) && After(events[..t]).owner != Free
    requires events[|events| - 1] == Unlock(id)
    ensures After(events).owner == After(events[..|events| - 1]).owner
  {
    var before := events[..|events| - 1];
    assert before[..t] == events[..t];
    RefusedStaysOutside(before, t, id);
  }

  // ---------------------------------------------------------------------------
  // After a session loss
  // ---------------------------------------------------------------------------

  function WorkDone(events: seq<Event>, id: nat): nat {
    if events == [] then 0
    else WorkDone(events[..|events| - 1], id) + (if events[|events| - 1] == Work(id) then 1 else 0)
  }

  function Remaining(w: Worker): int {
    if w.place.Polling? then Stages(w.program) - w.place.stage else 0
  }

  ghost predicate StagesBounded(s: World) {
    forall id :: id in s.workers && s.workers[id].place.Polling? ==>
      s.workers[id].place.stage < Stages(s.workers[id].program)
  }

  lemma {:induction false} AlwaysBounded(events: seq<Event>)
    requires Possible(events)
    ensures StagesBounded(After(events))
    decreases |events|
  {
    if events != [] {
      AlwaysBounded(events[..|events| - 1]);
    }
  }

  lemma StaleStep(s: World, e: Event, id: nat)
    requires Enabled(s, e) && StagesBounded(s) && id in s.workers && !s.workers[id].session
    ensures var t := Next(s, e);
      && id in t.workers && !t.workers[id].session
      && (if e == Work(id) then 1 else 0) + Remaining(t.workers[id]) <= Remaining(s.workers[id])
      && (e == Keepalive(id) ==> t.workers[id].place.Leaving?)
  {
  }

  /**
   * Once its session is lost, a worker does at most the rest of its current iteration: the stages
   * it had left, and none if it was not inside one.
   */
  lemma {:induction false} StaleWorkerStops(events: seq<Event>, t: nat, id: nat)
    requires Possible(events) && t < |events| && events[t] == LoseSession(id)
    requires Possible(events[..t + 1])
    ensures id in After(events[..t + 1]).workers && id in After(events).workers && !After(events).workers[id].session
    ensures WorkDone(events[t + 1..], id) + Remaining(After(events).workers[id]) <=
      Remaining(After(events[..t + 1]).workers[id])
    ensures Remaining(After(events).workers[id]) >= 0
    ensures Remaining(After(events[..t + 1]).workers[id]) <= Stages(After(events[..t + 1]).workers[id].program)
    decreases |events|
  {
    var n := |events| - 1;
    AlwaysBounded(events);
    AlwaysBounded(events[..t + 1]);
    if t == n {
      assert events[..t + 1] == events;
      assert events[t + 1..] == [];
    } else {
      assert events[..n][..t + 1] == events[..t + 1];
      StaleWorkerStops(events[..n], t, id);
      AlwaysBounded(events[..n]);
      StaleStep(After(events[..n]), events[n], id);
      assert events[t + 1..][..n - t - 1] == events[..n][t + 1..];
    }
  }
}
