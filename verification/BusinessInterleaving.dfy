/**
 * Any number of posts under way at once, over a network that holds requests back: a request may arrive
 * at any time after it was sent, before or after the client has given up on it, once, many times or never.
 */
module BusinessInterleaving {
  import opened Wrappers
  import opened BusinessServer
  import opened BusinessClient

  /** A post under way: the number of its attempt, whether its request is out, or how it ended. */
  datatype Running = Running(config: ClientConfig, call: Call, attempt: nat, waiting: bool, result: Option<PostResult>)

  /** `accepted` holds the posts and attempts whose request the server has answered with success. */
  datatype World = World(store: Store, posts: seq<Running>, accepted: set<(nat, nat)>)

  datatype Event =
    | Send(post: nat)                // the client sends the request of its attempt
    | Arrive(post: nat, attempt: nat) // a copy of that request reaches the server
    | See(post: nat, view: View)     // the client learns what became of its request

  /** A post to be made. */
  datatype Task = Task(config: ClientConfig, call: Call)

  function Begun(t: Task): Running {
    Running(t.config, t.call, 1, false, None)
  }

  function Begin(posts: seq<Task>): World {
    World(EMPTY, seq(|posts|, i requires 0 <= i < |posts| => Begun(posts[i])), {})
  }

  /** The request of this attempt has been sent. */
  predicate WasSent(p: Running, attempt: nat) {
    1 <= attempt && (attempt < p.attempt || (attempt == p.attempt && (p.waiting || p.result.Some?)))
  }

  predicate Enabled(w: World, e: Event) {
    e.post < |w.posts| &&
    var p := w.posts[e.post];
    match e
    case Send(_) => !p.waiting && p.result.None?
    case Arrive(_, attempt) => WasSent(p, attempt)
    case See(_, _) => p.waiting
  }

  /** Nobody but the server reports success: a success that is seen answers a request it has accepted. */
  predicate Vouched(w: World, e: Event)
    requires Enabled(w, e)
  {
    e.See? && Authoritative(e.view) ==> (e.post, w.posts[e.post].attempt) in w.accepted
  }

  function Next(w: World, e: Event): World
    requires Enabled(w, e)
  {
    var i, p := e.post, w.posts[e.post];
    match e
    case Send(_) => w.(posts := w.posts[i := p.(waiting := true)])
    case Arrive(_, attempt) =>
      var (s, answer) := Record(w.store, p.call);
      World(s, w.posts, if answer.Accepted? then w.accepted + {(i, attempt)} else w.accepted)
    case See(_, view) =>
      var q := p.(waiting := false);
      match Judge(view, p.attempt, p.config.AllowedAttempts())
      case Again => w.(posts := w.posts[i := q.(attempt := p.attempt + 1)])
      case Final(r) => w.(posts := w.posts[i := q.(result := Some(r))])
  }

  predicate Possible(w: World, events: seq<Event>)
    decreases |events|
  {
    events == [] || (Enabled(w, events[0]) && Possible(Next(w, events[0]), events[1..]))
  }

  function After(w: World, events: seq<Event>): World
    requires Possible(w, events)
    decreases |events|
  {
    if events == [] then w else After(Next(w, events[0]), events[1..])
  }

  /** Every success that the given post sees is the server's. */
  ghost predicate Honestly(w: World, events: seq<Event>, post: nat)
    requires Possible(w, events)
    decreases |events|
  {
    events == [] ||
    ((events[0].post == post ==> Vouched(w, events[0])) && Honestly(Next(w, events[0]), events[1..], post))
  }

  // ---------------------------------------------------------------------------
  // At most one effect in every run
  // ---------------------------------------------------------------------------

  /** The server has recorded the key of the post with the command of the post. */
  predicate Settled(w: World, post: nat)
    requires post < |w.posts|
  {
    var c := w.posts[post].call;
    c.key in w.store.results && w.store.results[c.key].0 == c.command
  }

  /** Log and cache agree, attempts stay in bounds, and what the server has accepted it has recorded. */
  ghost predicate Sound(w: World) {
    && Consistent(w.store)
    && (forall i :: 0 <= i < |w.posts| ==> 1 <= w.posts[i].attempt <= w.posts[i].config.AllowedAttempts())
    && (forall a :: a in w.accepted ==> a.0 < |w.posts| && Settled(w, a.0))
  }

  /** The post has not returned a result, unless its command is recorded. */
  predicate ReturnedSettled(w: World, post: nat)
    requires post < |w.posts|
  {
    w.posts[post].result.Some? && w.posts[post].result.value.Returned? ==> Settled(w, post)
  }

  lemma RecordSettles(s: Store, c: Call)
    ensures var (t, answer) := Record(s, c);
      && (forall k :: k in s.results ==> k in t.results && t.results[k] == s.results[k])
      && (answer.Accepted? ==> c.key in t.results && t.results[c.key].0 == c.command)
  {
  }

  lemma SamePosts(w: World, e: Event)
    requires Enabled(w, e)
    ensures |Next(w, e).posts| == |w.posts|
    ensures forall i :: 0 <= i < |w.posts| ==> Next(w, e).posts[i].call == w.posts[i].call
  {
    hide Record, Authoritative;
  }

  lemma NextKeepsSettled(w: World, e: Event, post: nat)
    requires Enabled(w, e) && post < |w.posts| && Settled(w, post)
    ensures post < |Next(w, e).posts| && Settled(Next(w, e), post)
  {
    hide Authoritative;
    SamePosts(w, e);
    RecordSettles(w.store, w.posts[e.post].call);
  }

  lemma AttemptsBounded(w: World, e: Event)
    requires Sound(w) && Enabled(w, e)
    ensures forall i :: 0 <= i < |Next(w, e).posts| ==>
      1 <= Next(w, e).posts[i].attempt <= Next(w, e).posts[i].config.AllowedAttempts()
  {
    hide Record, Consistent, Settled;
  }

  lemma NextSound(w: World, e: Event)
    requires Sound(w) && Enabled(w, e)
    ensures Sound(Next(w, e))
  {
    hide Consistent, Authoritative, Settled, Judge;
    var v := Next(w, e);
    SamePosts(w, e);
    RecordConsistent(w.store, w.posts[e.post].call);
    AttemptsBounded(w, e);
    forall a | a in v.accepted ensures a.0 < |v.posts| && Settled(v, a.0) {
      if a in w.accepted {
        NextKeepsSettled(w, e, a.0);
      } else {
        ArrivalSettles(w, e);
      }
    }
  }

  lemma ArrivalSettles(w: World, e: Event)
    requires Enabled(w, e) && Next(w, e).accepted != w.accepted
    ensures Next(w, e).accepted == w.accepted + {(e.post, e.attempt)} && e.post < |Next(w, e).posts|
    ensures Settled(Next(w, e), e.post)
  {
    RecordSettles(w.store, w.posts[e.post].call);
  }

  lemma NextReturnedSettled(w: World, e: Event, post: nat)
    requires Sound(w) && Enabled(w, e) && post < |w.posts| && ReturnedSettled(w, post)
    requires e.post == post ==> Vouched(w, e)
    ensures post < |Next(w, e).posts| && ReturnedSettled(Next(w, e), post)
  {
    hide Consistent;
    SamePosts(w, e);
    if Settled(w, post) {
      NextKeepsSettled(w, e, post);
    }
  }

  lemma {:induction false} RunSound(w: World, events: seq<Event>, post: nat)
    requires Sound(w) && Possible(w, events) && post < |w.posts| && ReturnedSettled(w, post)
    ensures Sound(After(w, events)) && |After(w, events).posts| == |w.posts|
    ensures After(w, events).posts[post].call == w.posts[post].call
    ensures Honestly(w, events, post) ==> ReturnedSettled(After(w, events), post)
    decreases |events|
  {
    hide Sound, Enabled, Next, Settled, ReturnedSettled, Vouched;
    if events != [] {
      var v := Next(w, events[0]);
      NextSound(w, events[0]);
      SamePosts(w, events[0]);
      if events[0].post == post ==> Vouched(w, events[0]) {
        NextReturnedSettled(w, events[0], post);
        RunSound(v, events[1..], post);
      } else {
        RunKeeps(v, events[1..], post);
      }
    }
  }

  lemma {:induction false} RunKeeps(w: World, events: seq<Event>, post: nat)
    requires Sound(w) && Possible(w, events) && post < |w.posts|
    ensures Sound(After(w, events)) && |After(w, events).posts| == |w.posts|
    ensures After(w, events).posts[post].call == w.posts[post].call
    decreases |events|
  {
    hide Sound, Enabled, Next;
    if events != [] {
      NextSound(w, events[0]);
      SamePosts(w, events[0]);
      RunKeeps(Next(w, events[0]), events[1..], post);
    }
  }

  lemma BeginSound(posts: seq<Task>)
    ensures Sound(Begin(posts)) && |Begin(posts).posts| == |posts|
    ensures forall i :: 0 <= i < |posts| ==>
      ReturnedSettled(Begin(posts), i) && Begin(posts).posts[i].call == posts[i].call
  {
  }

  /**
   * However the attempts of any number of clients interleave, and however late or often their requests
   * arrive, no key ever has more than one effect; and if only the server reports success to a post, then
   * the key of that post has exactly one once it has returned a result, recorded for its own command.
   */
  lemma InterleavedPostsOneEffect(posts: seq<Task>, events: seq<Event>, i: nat)
    requires i < |posts| && Possible(Begin(posts), events)
    ensures var w := After(Begin(posts), events);
      && |w.posts| == |posts| && Consistent(w.store) && (forall k :: Effects(w.store, k) <= 1)
      && (Honestly(Begin(posts), events, i) && w.posts[i].result.Some? && w.posts[i].result.value.Returned? ==>
            Effects(w.store, posts[i].call.key) == 1 && posts[i].call in w.store.calls)
  {
    hide After, Possible, Honestly, EffectsIn, Begin;
    BeginSound(posts);
    RunSound(Begin(posts), events, i);
    var w := After(Begin(posts), events);
    var s, c := w.store, posts[i].call;
    forall k ensures Effects(s, k) <= 1 {
      EffectsOfConsistent(s.calls, k);
    }
    if Settled(w, i) {
      var j :| 0 <= j < |s.calls| && s.calls[j].key == c.key;
      EffectsOfConsistent(s.calls, c.key);
      assert s.results[s.calls[j].key] == (s.calls[j].command, AnswerTo(s.calls[j]));
      assert s.calls[j] == c;
    }
  }

  // ---------------------------------------------------------------------------
  // One post alone
  // ---------------------------------------------------------------------------

  /** Send, arrival if the request gets through, and what the client sees of it. */
  function Attempted(d: Delivery, s: Store, c: Call, i: nat, attempt: nat): seq<Event> {
    [Send(i)] + (if d.reached then [Arrive(i, attempt)] else []) + [See(i, Exchange(d, s, c).1)]
  }

  /** The world after one such attempt. */
  function Concluded(w: World, i: nat, d: Delivery): (World, Verdict)
    requires i < |w.posts|
  {
    var p := w.posts[i];
    var (s, view) := Exchange(d, w.store, p.call);
    var arrived := d.reached && Record(w.store, p.call).1.Accepted?;
    var accepted := if arrived then w.accepted + {(i, p.attempt)} else w.accepted;
    var verdict := Judge(view, p.attempt, p.config.AllowedAttempts());
    var q := if verdict.Again? then p.(attempt := p.attempt + 1) else p.(result := Some(verdict.result));
    (World(s, w.posts[i := q], accepted), verdict)
  }

  lemma AttemptedIs(w: World, i: nat, d: Delivery, rest: seq<Event>)
    requires i < |w.posts| && !w.posts[i].waiting && w.posts[i].result.None? && w.posts[i].attempt >= 1
    requires Possible(Concluded(w, i, d).0, rest)
    ensures var events := Attempted(d, w.store, w.posts[i].call, i, w.posts[i].attempt) + rest;
      Possible(w, events) && After(w, events) == After(Concluded(w, i, d).0, rest)
  {
    hide Judge, Record;
    var p := w.posts[i];
    var view := Exchange(d, w.store, p.call).1;
    var sent := Next(w, Send(i));
    var arrived := if d.reached then Next(sent, Arrive(i, p.attempt)) else sent;
    assert Next(arrived, See(i, view)) == Concluded(w, i, d).0;
    Prepended(arrived, See(i, view), rest);
    if d.reached {
      Prepended(sent, Arrive(i, p.attempt), [See(i, view)] + rest);
      Prepended(w, Send(i), [Arrive(i, p.attempt)] + ([See(i, view)] + rest));
      assert [Send(i)] + [Arrive(i, p.attempt)] + [See(i, view)] + rest ==
        [Send(i)] + ([Arrive(i, p.attempt)] + ([See(i, view)] + rest));
    } else {
      Prepended(w, Send(i), [See(i, view)] + rest);
      assert [Send(i)] + [] + [See(i, view)] + rest == [Send(i)] + ([See(i, view)] + rest);
    }
  }

  lemma Prepended(w: World, e: Event, rest: seq<Event>)
    requires Enabled(w, e) && Possible(Next(w, e), rest)
    ensures Possible(w, [e] + rest) && After(w, [e] + rest) == After(Next(w, e), rest)
  {
    hide Enabled, Next;
    assert ([e] + rest)[1..] == rest;
  }

  /** A post whose attempts are sent, delivered and answered one after the other ends as the retry loop does. */
  lemma {:induction false} AloneIsAttempt(w: World, i: nat, net: Network) returns (events: seq<Event>)
    requires i < |w.posts| && !w.posts[i].waiting && w.posts[i].result.None?
    requires 1 <= w.posts[i].attempt <= w.posts[i].config.AllowedAttempts()
    ensures Possible(w, events) && forall k :: 0 <= k < |events| ==> events[k].post == i
    ensures var p := w.posts[i];
      var (r, t, slept) := Attempt(p.config, net, w.store, p.call, p.attempt);
      var u := After(w, events);
      u.store == t && |u.posts| == |w.posts| && u.posts[i].result == Some(r)
    decreases w.posts[i].config.AllowedAttempts() - w.posts[i].attempt
  {
    hide Exchange, Record, Next, Enabled, Possible, After;
    var p := w.posts[i];
    var (v, verdict) := Concluded(w, i, net(p.attempt));
    var rest: seq<Event> := [];
    if verdict.Again? {
      rest := AloneIsAttempt(v, i, net);
    } else {
      NothingMore(v);
    }
    AttemptedIs(w, i, net(p.attempt), rest);
    events := Attempted(net(p.attempt), w.store, p.call, i, p.attempt) + rest;
  }

  lemma NothingMore(w: World)
    ensures Possible(w, []) && After(w, []) == w
  {
  }
}
