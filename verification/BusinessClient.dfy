/** The client side: a bounded retry loop over a network that may lose requests and replies. */
module BusinessClient {
  import opened BusinessServer

  const RETRYABLE_STATUS := {408, 429, 502, 503, 504}
  const MAX_CONFIGURED_RETRIES := 5

  datatype Body = Invalid | Parsed(success: bool)

  /** What the client sees of one request. */
  datatype View = TransportError | Response(status: int, tooLarge: bool, body: Body)

  /** What the network makes of one request: whether it reaches the server, and what comes back. */
  datatype Delivery = Delivery(reached: bool, view: View)

  type Network = nat -> Delivery

  predicate Authoritative(v: View) {
    v.Response? && 200 <= v.status < 300 && !v.tooLarge && v.body == Parsed(true)
  }

  /** Nobody but the server reports success. */
  ghost predicate Honest(net: Network) {
    forall i :: Authoritative(net(i).view) ==> net(i).reached
  }

  datatype ClientConfig = ClientConfig(maxRetries: nat, idempotencyGuaranteed: bool, backoff: real)
  {
    predicate Valid() {
      maxRetries <= MAX_CONFIGURED_RETRIES && backoff >= 0.0
    }

    function AllowedAttempts(): nat {
      if idempotencyGuaranteed then maxRetries + 1 else 1
    }
  }

  datatype ConfigResult = BadConfig | Configured(config: ClientConfig)

  /** The constructor's checks on the settings the retry loop depends on. */
  function Configure(maxRetries: int, idempotencyGuaranteed: bool, backoff: real): (r: ConfigResult)
    ensures r.Configured? <==> 0 <= maxRetries <= MAX_CONFIGURED_RETRIES && backoff >= 0.0
    ensures r.Configured? ==> r.config.Valid()
  {
    if !(0 <= maxRetries <= MAX_CONFIGURED_RETRIES) || backoff < 0.0 then BadConfig
    else Configured(ClientConfig(maxRetries, idempotencyGuaranteed, backoff))
  }

  datatype PostResult =
    | Returned(attempts: nat, status: int)
    | TransportFailure(attempts: nat)
    | ResponseFailure(attempts: nat, status: int)

  /** How one attempt ends the call, if it does; none for a retry. */
  datatype Verdict = Again | Final(result: PostResult)

  function Judge(v: View, attempt: nat, allowed: nat): Verdict {
    match v
    case TransportError => if attempt < allowed then Again else Final(TransportFailure(attempt))
    case Response(status, tooLarge, body) =>
      if status in RETRYABLE_STATUS && attempt < allowed then Again
      else if Authoritative(v) then Final(Returned(attempt, status))
      else Final(ResponseFailure(attempt, status))
  }

  /** A server that refuses the call does not report success. */
  function Seen(view: View, answered: Recorded): View {
    if answered.Conflict? && Authoritative(view) then Response(409, false, Invalid) else view
  }

  /** One request on its way: the server's new state and what the client sees. */
  function Exchange(d: Delivery, s: Store, c: Call): (Store, View) {
    if d.reached then (Record(s, c).0, Seen(d.view, Record(s, c).1)) else (s, d.view)
  }

  function Pow2(n: nat): nat {
    if n == 0 then 1 else 2 * Pow2(n - 1)
  }

  function Delay(backoff: real, completed: nat): real
    requires completed >= 1
  {
    backoff * Pow2(completed - 1) as real
  }

  /** The retry loop from a given attempt on: its result, the server afterwards, the time slept. */
  function Attempt(cfg: ClientConfig, net: Network, s: Store, c: Call, attempt: nat): (PostResult, Store, real)
    requires 1 <= attempt <= cfg.AllowedAttempts()
    decreases cfg.AllowedAttempts() - attempt
  {
    var (t, view) := Exchange(net(attempt), s, c);
    match Judge(view, attempt, cfg.AllowedAttempts())
    case Final(r) => (r, t, 0.0)
    case Again =>
      var (r, u, slept) := Attempt(cfg, net, t, c, attempt + 1);
      (r, u, Delay(cfg.backoff, attempt) + slept)
  }

  /** A client object; `slept` is the time its sleep function has been asked for. */
  class HttpClient {
    const config: ClientConfig
    var slept: real

    constructor (config: ClientConfig)
      ensures this.config == config && slept == 0.0
    {
      this.config := config;
      slept := 0.0;
    }

    method Backoff(completed: nat)
      requires completed >= 1
      modifies this
      ensures slept == old(slept) + Delay(config.backoff, completed)
    {
      var delay := config.backoff * Pow2(completed - 1) as real;
      if delay != 0.0 {
        slept := slept + delay;
      }
    }

    method Post(net: Network, server: MockBusinessApi, call: Call) returns (r: PostResult)
      modifies this, server
      ensures (r, server.State(), slept - old(slept)) == Attempt(config, net, old(server.State()), call, 1)
    {
      var allowed := if config.idempotencyGuaranteed then config.maxRetries + 1 else 1;
      var attempt := 1;
      while attempt <= allowed
        invariant 1 <= attempt <= allowed
        invariant
          var whole := Attempt(config, net, old(server.State()), call, 1);
          var rest := Attempt(config, net, server.State(), call, attempt);
          whole == (rest.0, rest.1, slept - old(slept) + rest.2)
        decreases allowed - attempt
      {
        var delivery := net(attempt);
        var view := delivery.view;
        if delivery.reached {
          var answered := server.RecordCall(call);
          view := Seen(delivery.view, answered);
        }
        if view.TransportError? {
          if attempt < allowed {
            Backoff(attempt);
            attempt := attempt + 1;
            continue;
          }
          return TransportFailure(attempt);
        }
        if view.status in RETRYABLE_STATUS && attempt < allowed {
          Backoff(attempt);
          attempt := attempt + 1;
          continue;
        }
        if !(200 <= view.status < 300) {
          return ResponseFailure(attempt, view.status);
        }
        if view.tooLarge {
          return ResponseFailure(attempt, view.status);
        }
        if view.body.Invalid? {
          return ResponseFailure(attempt, view.status);
        }
        if !view.body.success {
          return ResponseFailure(attempt, view.status);
        }
        return Returned(attempt, view.status);
      }
    }
  }

  // ---------------------------------------------------------------------------
  // Which answers are tried again, and what the last one means
  // ---------------------------------------------------------------------------

  /** A transport failure, or one of five statuses. */
  predicate TriedAgain(v: View) {
    v.TransportError? || v.status in {408, 429, 502, 503, 504}
  }

  /** What the client makes of the last thing it sees. */
  predicate Ends(v: View, r: PostResult) {
    match r
    case TransportFailure(_) => v.TransportError?
    case Returned(_, status) =>
      v.Response? && v.status == status && 200 <= status < 300 && !v.tooLarge && v.body == Parsed(true)
    case ResponseFailure(_, status) =>
      v.Response? && v.status == status && (!(200 <= status < 300) || v.tooLarge || v.body != Parsed(true))
  }

  /** Below its limit, a post is tried again exactly after a transport failure or one of the five statuses; it
      ends as the last answer says, whatever the server and the network are like. */
  lemma RetriedExactly(cfg: ClientConfig, net: Network, s: Store, c: Call, attempt: nat)
    requires 1 <= attempt <= cfg.AllowedAttempts()
    ensures var r := Attempt(cfg, net, s, c, attempt).0;
      var (t, view) := Exchange(net(attempt), s, c);
      if attempt < cfg.AllowedAttempts() && TriedAgain(view) then
        r == Attempt(cfg, net, t, c, attempt + 1).0
      else r.attempts == attempt && Ends(view, r)
  {
    hide Exchange, Delay, Judge, TriedAgain, Ends;
    JudgedBy(Exchange(net(attempt), s, c).1, attempt, cfg.AllowedAttempts());
  }

  lemma JudgedBy(v: View, attempt: nat, allowed: nat)
    requires attempt <= allowed
    ensures Judge(v, attempt, allowed).Again? <==> attempt < allowed && TriedAgain(v)
    ensures Judge(v, attempt, allowed).Final? ==>
      Judge(v, attempt, allowed).result.attempts == attempt && Ends(v, Judge(v, attempt, allowed).result)
  {
  }

  // ---------------------------------------------------------------------------
  // Promises
  // ---------------------------------------------------------------------------

  /** The requests of attempts `lo` up to `hi` that reach the server. */
  function Arrivals(net: Network, c: Call, lo: nat, hi: nat): seq<Call>
    decreases hi - lo
  {
    if lo >= hi then [] else (if net(lo).reached then [c] else []) + Arrivals(net, c, lo + 1, hi)
  }

  lemma {:induction false} ArrivalsSame(net: Network, c: Call, lo: nat, hi: nat)
    ensures |Arrivals(net, c, lo, hi)| <= if lo <= hi then hi - lo else 0
    ensures forall i :: 0 <= i < |Arrivals(net, c, lo, hi)| ==> Arrivals(net, c, lo, hi)[i] == c
    decreases hi - lo
  {
    if lo < hi {
      ArrivalsSame(net, c, lo + 1, hi);
    }
  }

  lemma RunFirst(d: Delivery, s: Store, c: Call, rest: seq<Call>)
    ensures Run(s, (if d.reached then [c] else []) + rest) == Run(Exchange(d, s, c).0, rest)
  {
    hide Run, Record;
    if d.reached {
      RunPrepend(s, c, rest);
    } else {
      assert [] + rest == rest;
    }
  }

  lemma RunNone(s: Store)
    ensures Run(s, []) == s
  {
  }

  lemma ArrivalsFirst(net: Network, c: Call, lo: nat, hi: nat)
    requires lo < hi
    ensures Arrivals(net, c, lo, hi) == (if net(lo).reached then [c] else []) + Arrivals(net, c, lo + 1, hi)
    ensures Arrivals(net, c, hi, hi) == []
  {
  }

  /** The loop runs the server on exactly the requests that arrive, and never exceeds its attempts. */
  lemma {:induction false} AttemptRuns(cfg: ClientConfig, net: Network, s: Store, c: Call, attempt: nat)
    requires 1 <= attempt <= cfg.AllowedAttempts()
    ensures var (r, t, slept) := Attempt(cfg, net, s, c, attempt);
      attempt <= r.attempts <= cfg.AllowedAttempts() && t == Run(s, Arrivals(net, c, attempt, r.attempts + 1))
    decreases cfg.AllowedAttempts() - attempt
  {
    hide Exchange, Arrivals, Run, Delay;
    var (t, view) := Exchange(net(attempt), s, c);
    if Judge(view, attempt, cfg.AllowedAttempts()).Again? {
      AttemptRuns(cfg, net, t, c, attempt + 1);
    }
    var n := Attempt(cfg, net, s, c, attempt).0.attempts;
    ArrivalsFirst(net, c, attempt, n + 1);
    RunFirst(net(attempt), s, c, Arrivals(net, c, attempt + 1, n + 1));
    RunNone(t);
  }

  lemma {:induction false} RunOfOne(s: Store, c: Call, trace: seq<Call>)
    requires forall i :: 0 <= i < |trace| ==> trace[i] == c
    ensures Run(s, trace) == if trace == [] then s else Record(s, c).0
  {
    if trace != [] {
      RunOfOne(s, c, trace[..|trace| - 1]);
    }
  }

  /** How many recorded effects a key has. */
  function Effects(s: Store, key: string): nat {
    EffectsIn(s.calls, key)
  }

  function EffectsIn(calls: seq<Call>, key: string): nat {
    if calls == [] then 0
    else EffectsIn(calls[..|calls| - 1], key) + (if calls[|calls| - 1].key == key then 1 else 0)
  }

  lemma {:induction false} EffectsOfConsistent(calls: seq<Call>, key: string)
    requires forall i, j :: 0 <= i < j < |calls| ==> calls[i].key != calls[j].key
    ensures EffectsIn(calls, key) == if exists i :: 0 <= i < |calls| && calls[i].key == key then 1 else 0
  {
    if calls != [] {
      var n := |calls| - 1;
      EffectsOfConsistent(calls[..n], key);
      if exists i :: 0 <= i < n && calls[..n][i].key == key {
        var i :| 0 <= i < n && calls[..n][i].key == key;
        assert calls[i].key == key;
      }
      if calls[n].key != key && exists i :: 0 <= i < |calls| && calls[i].key == key {
        var i :| 0 <= i < |calls| && calls[i].key == key;
        assert calls[..n][i].key == key;
      }
    }
  }

  lemma {:induction false} ReturnedMeansAccepted(cfg: ClientConfig, net: Network, s: Store, c: Call, attempt: nat)
    requires 1 <= attempt <= cfg.AllowedAttempts() && Honest(net)
    requires Attempt(cfg, net, s, c, attempt).0.Returned?
    ensures var t := Attempt(cfg, net, s, c, attempt).1;
      c.key in t.results && t.results[c.key].0 == c.command
    decreases cfg.AllowedAttempts() - attempt
  {
    var (t, view) := Exchange(net(attempt), s, c);
    if Judge(view, attempt, cfg.AllowedAttempts()).Again? {
      ReturnedMeansAccepted(cfg, net, t, c, attempt + 1);
    } else {
      assert Authoritative(view);
    }
  }

  /**
   * At most once: over any network, one post adds at most one recorded effect, and only for its
   * own key when that key is new; every key has at most one effect afterwards, and the key of a
   * call that returned a result has exactly one, recorded for this very command.
   */
  lemma PostAtMostOnce(cfg: ClientConfig, net: Network, s: Store, c: Call)
    requires Consistent(s)
    ensures var (r, t, slept) := Attempt(cfg, net, s, c, 1);
      && Consistent(t)
      && (t == s || (c.key !in s.results && t.calls == s.calls + [c]))
      && (forall k :: Effects(t, k) <= 1)
      && (Honest(net) && r.Returned? ==> Effects(t, c.key) == 1 && c in t.calls)
  {
    hide Attempt, Arrivals, Honest, Run, EffectsIn;
    var (r, t, slept) := Attempt(cfg, net, s, c, 1);
    AttemptRuns(cfg, net, s, c, 1);
    var arrivals := Arrivals(net, c, 1, r.attempts + 1);
    ArrivalsSame(net, c, 1, r.attempts + 1);
    RunOfOne(s, c, arrivals);
    RunConsistent(s, arrivals);
    forall k ensures Effects(t, k) <= 1 {
      EffectsOfConsistent(t.calls, k);
    }
    if Honest(net) && r.Returned? {
      ReturnedMeansAccepted(cfg, net, s, c, 1);
      var i :| 0 <= i < |t.calls| && t.calls[i].key == c.key;
      EffectsOfConsistent(t.calls, c.key);
      assert t.results[t.calls[i].key] == (t.calls[i].command, AnswerTo(t.calls[i]));
      assert t.calls[i] == c;
    }
  }

  /** Without the guarantee exactly one request is sent, whatever the server is like: at most one
      arrives. */
  lemma SingleRequest(cfg: ClientConfig, net: Network, s: Store, c: Call)
    requires !cfg.idempotencyGuaranteed
    ensures var r := Attempt(cfg, net, s, c, 1).0;
      r.attempts == 1 && |Arrivals(net, c, 1, r.attempts + 1)| <= 1
  {
    AttemptRuns(cfg, net, s, c, 1);
    ArrivalsSame(net, c, 1, 2);
  }

  /** With the guarantee a server that does not deduplicate may be hit once per attempt. */
  lemma RetriesReachServer(cfg: ClientConfig, s: Store, c: Call)
    requires cfg.idempotencyGuaranteed
    ensures var net := (i: nat) => Delivery(true, TransportError);
      var r := Attempt(cfg, net, s, c, 1).0;
      r.attempts == cfg.maxRetries + 1 && |Arrivals(net, c, 1, r.attempts + 1)| == cfg.maxRetries + 1
  {
    var net := (i: nat) => Delivery(true, TransportError);
    AllAttempts(cfg, net, s, c, 1);
    AllArrive(net, c, 1, cfg.maxRetries + 2);
  }

  lemma {:induction false} AllAttempts(cfg: ClientConfig, net: Network, s: Store, c: Call, attempt: nat)
    requires 1 <= attempt <= cfg.AllowedAttempts() && forall i :: net(i) == Delivery(true, TransportError)
    ensures Attempt(cfg, net, s, c, attempt).0.attempts == cfg.AllowedAttempts()
    decreases cfg.AllowedAttempts() - attempt
  {
    if attempt < cfg.AllowedAttempts() {
      AllAttempts(cfg, net, Exchange(net(attempt), s, c).0, c, attempt + 1);
    }
  }

  lemma {:induction false} AllArrive(net: Network, c: Call, lo: nat, hi: nat)
    requires lo <= hi && forall i :: net(i).reached
    ensures |Arrivals(net, c, lo, hi)| == hi - lo
    decreases hi - lo
  {
    if lo < hi {
      AllArrive(net, c, lo + 1, hi);
    }
  }

  ghost predicate IsMultiple(slept: real, backoff: real, k: int) {
    slept == backoff * k as real
  }

  lemma DelaySum(backoff: real, completed: nat, slept: real, k: int)
    requires completed >= 1 && IsMultiple(slept, backoff, k)
    ensures IsMultiple(Delay(backoff, completed) + slept, backoff, Pow2(completed - 1) + k)
  {
    var a, b := Pow2(completed - 1) as real, k as real;
    assert backoff * (a + b) == backoff * a + backoff * b;
  }

  lemma NoSleep(backoff: real)
    ensures IsMultiple(0.0, backoff, 0)
  {
  }

  lemma {:induction false} SleptFrom(cfg: ClientConfig, net: Network, s: Store, c: Call, attempt: nat)
    requires 1 <= attempt <= cfg.AllowedAttempts()
    ensures var (r, t, slept) := Attempt(cfg, net, s, c, attempt);
      attempt <= r.attempts && IsMultiple(slept, cfg.backoff, Pow2(r.attempts - 1) - Pow2(attempt - 1))
    decreases cfg.AllowedAttempts() - attempt
  {
    hide Exchange, Delay, IsMultiple;
    var (t, view) := Exchange(net(attempt), s, c);
    NoSleep(cfg.backoff);
    if Judge(view, attempt, cfg.AllowedAttempts()).Again? {
      SleptFrom(cfg, net, t, c, attempt + 1);
      var (r, u, slept) := Attempt(cfg, net, t, c, attempt + 1);
      DelaySum(cfg.backoff, attempt, slept, Pow2(r.attempts - 1) - Pow2(attempt));
    }
  }

  /** The time slept over a call is the base delay times 2^(attempts - 1) - 1. */
  lemma TotalBackoff(cfg: ClientConfig, net: Network, s: Store, c: Call)
    ensures var (r, t, slept) := Attempt(cfg, net, s, c, 1);
      r.attempts >= 1 && slept == cfg.backoff * (Pow2(r.attempts - 1) - 1) as real
  {
    SleptFrom(cfg, net, s, c, 1);
  }

  // Many posts

  /** A post as a client makes it: its configuration, its network, its call. */
  datatype Posting = Posting(config: ClientConfig, net: Network, call: Call)

  function PostAll(s: Store, posts: seq<Posting>): Store {
    if posts == [] then s
    else
      var p := posts[|posts| - 1];
      Attempt(p.config, p.net, PostAll(s, posts[..|posts| - 1]), p.call, 1).1
  }

  /** However often, by however many clients and over whatever networks a key is posted, it has at
      most one effect; it has one if any of its posts returned a result. */
  lemma {:induction false} ManyPostsOneEffect(posts: seq<Posting>, i: nat)
    requires i < |posts| && Honest(posts[i].net)
    requires Attempt(posts[i].config, posts[i].net, PostAll(EMPTY, posts[..i]), posts[i].call, 1).0.Returned?
    ensures Consistent(PostAll(EMPTY, posts))
    ensures Effects(PostAll(EMPTY, posts), posts[i].call.key) == 1
  {
    hide Attempt, Consistent, Effects;
    PostsConsistent(posts);
    PostsConsistent(posts[..i]);
    var p := posts[i];
    PostAtMostOnce(p.config, p.net, PostAll(EMPTY, posts[..i]), p.call);
    assert posts[..i + 1][..i] == posts[..i];
    PostsKeepEffects(posts, i + 1, p.call.key);
  }

  /** Posting never takes an effect back. */
  lemma {:induction false} PostsKeepEffects(posts: seq<Posting>, k: nat, key: string)
    requires k <= |posts|
    ensures Effects(PostAll(EMPTY, posts), key) >= Effects(PostAll(EMPTY, posts[..k]), key)
    decreases |posts|
  {
    hide Attempt, Consistent, EffectsIn;
    var n := |posts| - 1;
    if k < |posts| {
      assert posts[..n][..k] == posts[..k];
      PostsKeepEffects(posts[..n], k, key);
      PostsConsistent(posts[..n]);
      PostAtMostOnce(posts[n].config, posts[n].net, PostAll(EMPTY, posts[..n]), posts[n].call);
      EffectsKept(PostAll(EMPTY, posts[..n]).calls, posts[n].call, key);
    } else {
      assert posts[..k] == posts;
    }
  }

  lemma {:induction false} PostsConsistent(posts: seq<Posting>)
    ensures Consistent(PostAll(EMPTY, posts)) && forall k :: Effects(PostAll(EMPTY, posts), k) <= 1
  {
    if posts != [] {
      var p := posts[|posts| - 1];
      PostsConsistent(posts[..|posts| - 1]);
      PostAtMostOnce(p.config, p.net, PostAll(EMPTY, posts[..|posts| - 1]), p.call);
    }
  }

  lemma EffectsKept(calls: seq<Call>, c: Call, key: string)
    ensures EffectsIn(calls + [c], key) >= EffectsIn(calls, key)
  {
    assert (calls + [c])[..|calls|] == calls;
  }
}
