/** The server side of the business operations: a log of effects behind a cache keyed by idempotency key. */
module BusinessServer {

  datatype Action = VpnAccess | OtpNumberChange | AccountUnblock | PasswordReset

  /** What the fingerprint of a call covers; the payload maps names to JSON texts. */
  datatype Command = Command(action: Action, endpoint: string, payload: map<string, string>)

  datatype Call = Call(key: string, command: Command)

  datatype Answer = Answer(key: string, action: Action, endpoint: string)

  datatype Recorded = Accepted(answer: Answer) | Conflict

  /** The state of a server: the effects it has recorded and, per key, what was asked and answered. */
  datatype Store = Store(calls: seq<Call>, results: map<string, (Command, Answer)>)

  const EMPTY := Store([], map[])

  function AnswerTo(c: Call): Answer {
    Answer(c.key, c.command.action, c.command.endpoint)
  }

  function Record(s: Store, c: Call): (Store, Recorded) {
    if c.key in s.results then
      (s, if s.results[c.key].0 != c.command then Conflict else Accepted(s.results[c.key].1))
    else
      (Store(s.calls + [c], s.results[c.key := (c.command, AnswerTo(c))]), Accepted(AnswerTo(c)))
  }

  function Run(s: Store, trace: seq<Call>): Store {
    if trace == [] then s else Record(Run(s, trace[..|trace| - 1]), trace[|trace| - 1]).0
  }

  class MockBusinessApi {
    var calls: seq<Call>
    var results: map<string, (Command, Answer)>

    constructor ()
      ensures State() == EMPTY
    {
      calls, results := [], map[];
    }

    function State(): Store
      reads this
    {
      Store(calls, results)
    }

    method RecordCall(call: Call) returns (r: Recorded)
      modifies this
      ensures (State(), r) == Record(old(State()), call)
    {
      if call.key in results {
        var (priorCommand, priorAnswer) := results[call.key];
        if priorCommand != call.command {
          return Conflict;
        }
        return Accepted(priorAnswer);
      }
      var answer := AnswerTo(call);
      calls := calls + [call];
      results := results[call.key := (call.command, answer)];
      return Accepted(answer);
    }
  }

  // ---------------------------------------------------------------------------
  // Whole traces
  // ---------------------------------------------------------------------------

  /** The first call of every key, in order of arrival. */
  function Firsts(trace: seq<Call>): seq<Call>
    decreases |trace|
  {
    if trace == [] then [] else [trace[0]] + Firsts(WithoutKeys(trace[1..], {trace[0].key}))
  }

  function WithoutKeys(trace: seq<Call>, keys: set<string>): (r: seq<Call>)
    ensures |r| <= |trace|
  {
    if trace == [] then []
    else (if trace[0].key in keys then [] else [trace[0]]) + WithoutKeys(trace[1..], keys)
  }

  lemma {:induction false} WithoutKeysTwice(trace: seq<Call>, a: set<string>, b: set<string>)
    ensures WithoutKeys(WithoutKeys(trace, a), b) == WithoutKeys(trace, a + b)
  {
    if trace != [] {
      var rest := WithoutKeys(trace[1..], a);
      WithoutKeysTwice(trace[1..], a, b);
      assert ([trace[0]] + rest)[1..] == rest;
      assert [] + rest == rest;
    }
  }

  lemma {:induction false} RunPrepend(s: Store, c: Call, rest: seq<Call>)
    ensures Run(s, [c] + rest) == Run(Record(s, c).0, rest)
  {
    var all := [c] + rest;
    if rest == [] {
      assert all[..0] == [];
    } else {
      assert all[..|all| - 1] == [c] + rest[..|rest| - 1];
      RunPrepend(s, c, rest[..|rest| - 1]);
    }
  }

  lemma FirstsNew(c: Call, rest: seq<Call>, keys: set<string>)
    requires c.key !in keys
    ensures Firsts(WithoutKeys([c] + rest, keys)) == [c] + Firsts(WithoutKeys(rest, keys + {c.key}))
  {
    var later := WithoutKeys(rest, keys);
    WithoutKeysTwice(rest, keys, {c.key});
    assert ([c] + rest)[1..] == rest;
    assert WithoutKeys([c] + rest, keys) == [c] + later;
    assert ([c] + later)[1..] == later;
  }

  lemma FirstsSeen(c: Call, rest: seq<Call>, keys: set<string>)
    requires c.key in keys
    ensures WithoutKeys([c] + rest, keys) == WithoutKeys(rest, keys)
  {
    assert ([c] + rest)[1..] == rest;
  }

  lemma RecordEffect(s: Store, c: Call)
    ensures var t := Record(s, c).0;
      if c.key in s.results then t == s
      else t.calls == s.calls + [c] && t.results.Keys == s.results.Keys + {c.key}
  {
  }

  lemma RunNothing(s: Store)
    ensures Run(s, []) == s && Firsts(WithoutKeys([], s.results.Keys)) == []
  {
  }

  lemma {:induction false} RunLogs(s: Store, trace: seq<Call>)
    ensures Run(s, trace).calls == s.calls + Firsts(WithoutKeys(trace, s.results.Keys))
    decreases |trace|
  {
    hide Firsts, WithoutKeys, Run, Record;
    if trace == [] {
      RunNothing(s);
    } else {
      var c, rest := trace[0], trace[1..];
      assert trace == [c] + rest;
      RunPrepend(s, c, rest);
      RunLogs(Record(s, c).0, rest);
      RecordEffect(s, c);
      if c.key in s.results {
        FirstsSeen(c, rest, s.results.Keys);
      } else {
        FirstsNew(c, rest, s.results.Keys);
      }
    }
  }

  lemma {:induction false} WithoutNone(trace: seq<Call>)
    ensures WithoutKeys(trace, {}) == trace
  {
    if trace != [] {
      WithoutNone(trace[1..]);
    }
  }

  /** For every trace of calls, the log holds exactly the first call of every key. */
  lemma LogIsFirsts(trace: seq<Call>)
    ensures Run(EMPTY, trace).calls == Firsts(trace)
  {
    RunLogs(EMPTY, trace);
    assert EMPTY.results.Keys == {};
    WithoutNone(trace);
  }

  /** Log and cache agree: the logged calls have distinct keys, and the cache answers just these. */
  ghost predicate Consistent(s: Store) {
    && (forall i, j :: 0 <= i < j < |s.calls| ==> s.calls[i].key != s.calls[j].key)
    && (forall k :: k in s.results <==> exists i :: 0 <= i < |s.calls| && s.calls[i].key == k)
    && (forall i :: 0 <= i < |s.calls| && s.calls[i].key in s.results ==>
          s.results[s.calls[i].key] == (s.calls[i].command, AnswerTo(s.calls[i])))
  }

  lemma RecordConsistent(s: Store, c: Call)
    requires Consistent(s)
    ensures Consistent(Record(s, c).0)
  {
    var r := Record(s, c).0;
    if c.key !in s.results {
      forall k ensures k in r.results <==> exists i :: 0 <= i < |r.calls| && r.calls[i].key == k {
        if k == c.key {
          assert r.calls[|s.calls|].key == k;
        } else if k in s.results {
          var i :| 0 <= i < |s.calls| && s.calls[i].key == k;
          assert r.calls[i].key == k;
        }
      }
    }
  }

  lemma {:induction false} RunConsistent(s: Store, trace: seq<Call>)
    requires Consistent(s)
    ensures Consistent(Run(s, trace))
  {
    if trace != [] {
      RunConsistent(s, trace[..|trace| - 1]);
      RecordConsistent(Run(s, trace[..|trace| - 1]), trace[|trace| - 1]);
    }
  }

  lemma {:induction false} FirstWins(trace: seq<Call>, j: nat)
    requires j < |trace| && forall i :: 0 <= i < j ==> trace[i].key != trace[j].key
    ensures var s := Run(EMPTY, trace);
      trace[j].key in s.results && s.results[trace[j].key] == (trace[j].command, AnswerTo(trace[j]))
    decreases |trace|
  {
    var n := |trace| - 1;
    if j < n {
      FirstWins(trace[..n], j);
    } else {
      NotSeen(trace[..n], trace[j].key);
    }
  }

  lemma {:induction false} NotSeen(trace: seq<Call>, key: string)
    requires forall i :: 0 <= i < |trace| ==> trace[i].key != key
    ensures key !in Run(EMPTY, trace).results
  {
    if trace != [] {
      NotSeen(trace[..|trace| - 1], key);
    }
  }

  /**
   * In every trace, a call is answered as the first call of its key was if it asks for the same,
   * and conflicts otherwise; either way a repeated key leaves the server as it was.
   */
  lemma ReplayAnswered(trace: seq<Call>, j: nat, i: nat)
    requires j < i < |trace| && trace[i].key == trace[j].key
    requires forall k :: 0 <= k < j ==> trace[k].key != trace[j].key
    ensures var s := Run(EMPTY, trace[..i]);
      && Record(s, trace[i]).0 == s
      && Record(s, trace[i]).1 ==
         (if trace[i].command == trace[j].command then Accepted(AnswerTo(trace[j])) else Conflict)
  {
    FirstWins(trace[..i], j);
  }

  // ---------------------------------------------------------------------------
  // The four operations
  // ---------------------------------------------------------------------------

  datatype Operation =
    | CreateVpnAccess(pdvCode: string, phone: string, additional: map<string, string>)
    | UpdateOtp(pdvCode: string, newPhone: string)
    | UnlockAccount(pdvCode: string)
    | ResetPassword(pdvCode: string)

  /** The configured paths, already formatted. */
  datatype Endpoints = Endpoints(vpn: string, otp: (string, string) -> string,
                                 unblock: string -> string, reset: string -> string)

  const RESERVED := {"pdv_code", "phone", "idempotency_key"}

  /** Additional values cannot take the place of the core fields. */
  predicate ValidOperation(op: Operation) {
    op.CreateVpnAccess? ==> op.additional.Keys !! RESERVED
  }

  function Lower(e: Endpoints, op: Operation): Command {
    match op
    case CreateVpnAccess(pdv, phone, additional) =>
      Command(VpnAccess, e.vpn, additional + map["pdv_code" := pdv, "phone" := phone])
    case UpdateOtp(pdv, newPhone) =>
      Command(OtpNumberChange, e.otp(pdv, newPhone), map["pdv_code" := pdv, "new_phone" := newPhone])
    case UnlockAccount(pdv) => Command(AccountUnblock, e.unblock(pdv), map["pdv_code" := pdv])
    case ResetPassword(pdv) => Command(PasswordReset, e.reset(pdv), map["pdv_code" := pdv])
  }

  lemma AdditionalRecovered(additional: map<string, string>, pdv: string, phone: string)
    requires additional.Keys !! RESERVED
    ensures (additional + map["pdv_code" := pdv, "phone" := phone]) - RESERVED == additional
  {
    assert "pdv_code" in RESERVED && "phone" in RESERVED;
  }

  lemma CoreRecovered(additional: map<string, string>, pdv: string, phone: string)
    ensures var m := additional + map["pdv_code" := pdv, "phone" := phone];
      m["pdv_code"] == pdv && m["phone"] == phone
  {
    assert |"pdv_code"| == 8 && |"phone"| == 5;
  }

  /** Under one key and one configuration, two calls have the same fingerprint exactly when they
      are the same operation with the same data. */
  lemma FingerprintsTellOperations(e: Endpoints, a: Operation, b: Operation)
    requires ValidOperation(a) && ValidOperation(b)
    ensures Lower(e, a) == Lower(e, b) <==> a == b
  {
    assert |"pdv_code"| == 8 && |"new_phone"| == 9;
    if Lower(e, a) == Lower(e, b) {
      var p, q := Lower(e, a).payload, Lower(e, b).payload;
      assert p["pdv_code"] == q["pdv_code"];
      if a.CreateVpnAccess? {
        AdditionalRecovered(a.additional, a.pdvCode, a.phone);
        AdditionalRecovered(b.additional, b.pdvCode, b.phone);
        CoreRecovered(a.additional, a.pdvCode, a.phone);
        CoreRecovered(b.additional, b.pdvCode, b.phone);
      } else if a.UpdateOtp? {
        assert p["new_phone"] == q["new_phone"];
      }
    }
  }
}
