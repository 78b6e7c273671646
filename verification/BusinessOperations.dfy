/** The four operations as they arrive: what a recorded call says about the operation that was posted. */
module BusinessOperations {
  import opened Wrappers
  import opened BusinessServer
  import opened BusinessClient
  import opened BusinessInterleaving

  /** The entry has this value. */
  predicate Says(payload: map<string, string>, name: string, value: string) {
    name in payload && payload[name] == value
  }

  /**
   * What a command says, field by field, if it asks for the operation: the action and path of its kind,
   * its PDV code and phone number under their names, and nothing else but its additional data.
   */
  predicate AsksFor(e: Endpoints, c: Command, op: Operation) {
    match op
    case CreateVpnAccess(pdvCode, phone, additional) =>
      && c.action == VpnAccess && c.endpoint == e.vpn
      && Says(c.payload, "pdv_code", pdvCode) && Says(c.payload, "phone", phone)
      && c.payload - {"pdv_code", "phone"} == additional
    case UpdateOtp(pdvCode, newPhone) =>
      && c.action == OtpNumberChange && c.endpoint == e.otp(pdvCode, newPhone)
      && Says(c.payload, "pdv_code", pdvCode) && Says(c.payload, "new_phone", newPhone)
      && c.payload.Keys == {"pdv_code", "new_phone"}
    case UnlockAccount(pdvCode) =>
      && c.action == AccountUnblock && c.endpoint == e.unblock(pdvCode)
      && Says(c.payload, "pdv_code", pdvCode) && c.payload.Keys == {"pdv_code"}
    case ResetPassword(pdvCode) =>
      && c.action == PasswordReset && c.endpoint == e.reset(pdvCode)
      && Says(c.payload, "pdv_code", pdvCode) && c.payload.Keys == {"pdv_code"}
  }

  lemma NamesDiffer()
    ensures "pdv_code" != "phone" && "pdv_code" != "new_phone"
  {
    assert |"pdv_code"| == 8 && |"phone"| == 5 && |"new_phone"| == 9;
  }

  /** A command asks for an operation exactly if it is that operation's command. */
  lemma LoweredAsks(e: Endpoints, c: Command, op: Operation)
    requires ValidOperation(op)
    ensures AsksFor(e, c, op) <==> c == Lower(e, op)
  {
    NamesDiffer();
    if op.CreateVpnAccess? {
      assert "pdv_code" !in op.additional && "phone" !in op.additional by {
        assert "pdv_code" in RESERVED && "phone" in RESERVED;
      }
      var d := Lower(e, op);
      assert d.payload - {"pdv_code", "phone"} == op.additional;
      if AsksFor(e, c, op) {
        forall name | name in c.payload ensures Says(d.payload, name, c.payload[name]) {
          assert name in {"pdv_code", "phone"} || name in c.payload - {"pdv_code", "phone"};
        }
        assert forall name | name in d.payload :: name in {"pdv_code", "phone"} || name in op.additional;
        assert c.payload == d.payload;
      }
    } else if AsksFor(e, c, op) {
      assert c.payload == Lower(e, op).payload;
    }
  }

  // ---------------------------------------------------------------------------
  // Posting an operation
  // ---------------------------------------------------------------------------

  /** The server has recorded, under this key, a call that asks for the operation. */
  ghost predicate Performed(s: Store, key: string, e: Endpoints, op: Operation) {
    exists i :: 0 <= i < |s.calls| && s.calls[i].key == key && AsksFor(e, s.calls[i].command, op)
  }

  lemma RecordedPerforms(s: Store, key: string, e: Endpoints, op: Operation)
    requires ValidOperation(op) && Call(key, Lower(e, op)) in s.calls
    ensures Performed(s, key, e, op)
  {
    LoweredAsks(e, Lower(e, op), op);
    var i :| 0 <= i < |s.calls| && s.calls[i] == Call(key, Lower(e, op));
  }

  /** One of the four calls of the client: the payload is put together entry by entry and posted. */
  method Perform(client: HttpClient, e: Endpoints, net: Network, server: MockBusinessApi, key: string, op: Operation)
    returns (r: Option<PostResult>)
    modifies client, server
    ensures r.Some? <==> ValidOperation(op)
    ensures r.None? ==> server.State() == old(server.State()) && client.slept == old(client.slept)
    ensures r.Some? ==>
      (r.value, server.State(), client.slept - old(client.slept)) ==
      Attempt(client.config, net, old(server.State()), Call(key, Lower(e, op)), 1)
    ensures Consistent(old(server.State())) && Honest(net) && r.Some? && r.value.Returned? ==>
      Performed(server.State(), key, e, op) && Effects(server.State(), key) == 1
  {
    hide Attempt, Consistent, Honest, Effects, AsksFor;
    if op.CreateVpnAccess? && !(op.additional.Keys !! RESERVED) {
      return None;
    }
    var payload: map<string, string> := if op.CreateVpnAccess? then op.additional else map[];
    payload := payload["pdv_code" := op.pdvCode];
    var command;
    match op {
      case CreateVpnAccess(_, phone, _) =>
        payload := payload["phone" := phone];
        command := Command(VpnAccess, e.vpn, payload);
      case UpdateOtp(pdvCode, newPhone) =>
        payload := payload["new_phone" := newPhone];
        command := Command(OtpNumberChange, e.otp(pdvCode, newPhone), payload);
      case UnlockAccount(pdvCode) =>
        command := Command(AccountUnblock, e.unblock(pdvCode), payload);
      case ResetPassword(pdvCode) =>
        command := Command(PasswordReset, e.reset(pdvCode), payload);
    }
    SameCommand(e, op, payload);
    var result := client.Post(net, server, Call(key, command));
    if Consistent(old(server.State())) {
      PostPerforms(client.config, net, old(server.State()), key, e, op);
    }
    return Some(result);
  }

  lemma SameCommand(e: Endpoints, op: Operation, payload: map<string, string>)
    requires payload ==
      match op
      case CreateVpnAccess(pdvCode, phone, additional) => additional["pdv_code" := pdvCode]["phone" := phone]
      case UpdateOtp(pdvCode, newPhone) => map["pdv_code" := pdvCode]["new_phone" := newPhone]
      case _ => map["pdv_code" := op.pdvCode]
    ensures payload == Lower(e, op).payload
  {
    NamesDiffer();
  }

  /** Over a network where only the server reports success, an operation that was posted and returned a
      result has been performed, exactly once under its key. */
  lemma PostPerforms(cfg: ClientConfig, net: Network, s: Store, key: string, e: Endpoints, op: Operation)
    requires Consistent(s) && ValidOperation(op)
    ensures var (r, t, slept) := Attempt(cfg, net, s, Call(key, Lower(e, op)), 1);
      Honest(net) && r.Returned? ==> Performed(t, key, e, op) && Effects(t, key) == 1
  {
    hide Attempt, Consistent, Honest, Effects, Performed, Lower;
    var c := Call(key, Lower(e, op));
    PostAtMostOnce(cfg, net, s, c);
    var (r, t, slept) := Attempt(cfg, net, s, c, 1);
    if Honest(net) && r.Returned? {
      RecordedPerforms(t, key, e, op);
    }
  }

  /** The same among any number of interleaved posts, with requests that arrive late or more than once. */
  lemma InterleavedPerforms(posts: seq<Task>, events: seq<Event>, i: nat, key: string, e: Endpoints, op: Operation)
    requires i < |posts| && Possible(Begin(posts), events)
    requires ValidOperation(op) && posts[i].call == Call(key, Lower(e, op))
    ensures var w := After(Begin(posts), events);
      |w.posts| == |posts| &&
      (Honestly(Begin(posts), events, i) && w.posts[i].result.Some? && w.posts[i].result.value.Returned? ==>
         Performed(w.store, key, e, op) && Effects(w.store, key) == 1)
  {
    hide After, Possible, Honestly, Effects, Performed, Lower, Begin, Consistent;
    InterleavedPostsOneEffect(posts, events, i);
    var w := After(Begin(posts), events);
    if posts[i].call in w.store.calls {
      RecordedPerforms(w.store, key, e, op);
    }
  }

  /** An accepted operation is answered under its own key, with the action and the path it asked for. */
  lemma AnswerNames(s: Store, key: string, e: Endpoints, op: Operation)
    requires Consistent(s) && ValidOperation(op)
    ensures var answer := Record(s, Call(key, Lower(e, op))).1;
      answer.Accepted? ==> AsksFor(e, Command(answer.answer.action, answer.answer.endpoint, Lower(e, op).payload), op)
                           && answer.answer.key == key
  {
    hide Lower, AsksFor;
    var c := Call(key, Lower(e, op));
    LoweredAsks(e, Lower(e, op), op);
    if key in s.results {
      var i :| 0 <= i < |s.calls| && s.calls[i].key == key;
      assert s.results[s.calls[i].key] == (s.calls[i].command, AnswerTo(s.calls[i]));
    }
  }
}
