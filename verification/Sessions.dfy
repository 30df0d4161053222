// The two session objects: a server session that serves one connection until it
// ends, and a client session that logs in.

module Sessions {
  import opened Protocol
  import opened Messages
  import opened F = Fields
  import opened Identity
  import R = Registry
  import S = IdentitySystem

  // Serving a whole stream of packets: one step for each until the session closes
  // or the stream ends. The end of the stream inside a transfer raises.
  ghost function ServeAll(r: R.Fields, s: Server, ps: seq<Packet>, lucks: seq<Luck>): Handled
    requires |lucks| == |ps|
    decreases |ps|
  {
    if !S.Receiving(s) then Handled(r, s, [])
    else if ps == [] then Handled(r, if Transferring(s) then Close(s) else s.(state := CLOSING), [])
    else
      var h := Handle(r, s, ps[0], lucks[0]);
      After(h.sent, ServeAll(h.registry, h.server, ps[1..], lucks[1..]))
  }

  function After(sent: seq<Packet>, h: Handled): Handled { h.(sent := sent + h.sent) }

  // The USER_ID of the frames sent changes at most once, from zero to the one
  // granted by LOGIN.
  predicate Stamped(ps: seq<Packet>, current: nat)
    decreases |ps|
  {
    ps == [] || (ps[0].Packet? && (ps[0].userId == current || current == NO_USER_ID) && Stamped(ps[1..], ps[0].userId))
  }

  lemma {:induction false} StampedAfter(sent: seq<Packet>, rest: seq<Packet>, before: nat, between: nat)
    requires S.AllCarry(sent, between) && Stamped(rest, between)
    requires between == before || before == NO_USER_ID
    ensures Stamped(sent + rest, before)
    decreases |sent|
  {
    if sent == [] {
      assert sent + rest == rest;
    } else {
      assert (sent + rest)[1..] == sent[1..] + rest;
      StampedAfter(sent[1..], rest, between, between);
    }
  }

  lemma HandleIds(r: R.Fields, s: Server, p: Packet, luck: Luck)
    requires Agrees(r.sessions, s) && S.Receiving(s)
    ensures Handle(r, s, p, luck).server.userId == s.userId || s.userId == NO_USER_ID
  {
  }

  lemma {:induction false} ServeAllStamped(r: R.Fields, s: Server, ps: seq<Packet>, lucks: seq<Luck>)
    requires |lucks| == |ps| && R.Inv(r) && Agrees(r.sessions, s) && S.AllAccepted(ps)
    ensures Stamped(ServeAll(r, s, ps, lucks).sent, s.userId)
    decreases |ps|
  {
    if S.Receiving(s) && ps != [] {
      assert Accepted(ps[0]);
      HandleSound(r, s, ps[0], lucks[0]);
      var h := Handle(r, s, ps[0], lucks[0]);
      HandleIds(r, s, ps[0], lucks[0]);
      ServeAllStamped(h.registry, h.server, ps[1..], lucks[1..]);
      StampedAfter(h.sent, ServeAll(h.registry, h.server, ps[1..], lucks[1..]).sent, s.userId, h.server.userId);
    }
  }

  ghost predicate Ready(r: R.Fields, s: Server, ps: seq<Packet>) {
    R.Inv(r) && Agrees(r.sessions, s) && S.AllAccepted(ps)
  }

  // One packet on.
  ghost predicate ServesTo(r: R.Fields, s: Server, ps: seq<Packet>, luck: Luck, h: Handled) {
    ps != [] && h == Handle(r, s, ps[0], luck) && Ready(h.registry, h.server, ps[1..])
  }

  lemma OneServed(r: R.Fields, s: Server, p: Packet, rest: seq<Packet>, luck: Luck) returns (h: Handled)
    requires Ready(r, s, [p] + rest) && S.Receiving(s)
    ensures ServesTo(r, s, [p] + rest, luck, h)
  {
    assert Accepted(([p] + rest)[0]);
    assert ([p] + rest)[1..] == rest;
    HandleSound(r, s, p, luck);
    h := Handle(r, s, p, luck);
  }

  lemma ServeStep(r: R.Fields, s: Server, ps: seq<Packet>, lucks: seq<Luck>, sent: seq<Packet>, h: Handled)
    requires |lucks| == |ps| && ps != [] && S.Receiving(s) && ServesTo(r, s, ps, lucks[0], h)
    ensures After(sent, ServeAll(r, s, ps, lucks)) ==
      After(sent + h.sent, ServeAll(h.registry, h.server, ps[1..], lucks[1..]))
  {
    AfterAfter(sent, h.sent, ServeAll(h.registry, h.server, ps[1..], lucks[1..]));
  }

  lemma AfterAfter(x: seq<Packet>, y: seq<Packet>, h: Handled)
    ensures After(x, After(y, h)) == After(x + y, h)
  {
    assert x + (y + h.sent) == x + y + h.sent;
  }

  lemma NothingAfter(r: R.Fields, s: Server, sent: seq<Packet>)
    ensures After(sent, Handled(r, s, [])) == Handled(r, s, sent)
  {
  }

  // The requests _handlers knows, and LOGIN, which its own parser rejects here.
  predicate IsRequest(m: Message) { m.Upload? || m.Download? || m.ListFiles? || m.Disconnect? || m.Login? }

  // ----- the server's object -----

  class ServerSession {
    const id: nat
    const registry: R.ActiveSessionRegistry
    var state: SessionState
    var username: Option<Bytes>
    var userId: nat
    var authenticated: bool
    var incoming: seq<Packet>
    var outgoing: seq<Packet>

    function State(): Server
      reads this
    {
      Server(id, state, username, userId, authenticated)
    }

    ghost predicate Valid()
      reads this, registry
    {
      registry.Valid() && Agrees(registry.sessions, State())
    }

    constructor (registry: R.ActiveSessionRegistry, id: nat, incoming: seq<Packet>)
      requires registry.Valid() && id in registry.sessions && registry.sessions[id] == R.Record(None, None)
      ensures Valid() && this.registry == registry && State() == Fresh(id)
      ensures this.incoming == incoming && outgoing == []
    {
      this.registry, this.id, this.incoming, outgoing := registry, id, incoming, [];
      state, username, userId, authenticated := CONNECTED, None, NO_USER_ID, false;
    }

    method Send(p: Packet) returns (ok: bool)
      modifies `outgoing
      ensures ok <==> p.Packet? && p.userId == userId
      ensures outgoing == old(outgoing) + if ok then [p] else []
    {
      if !p.Packet? || p.userId != userId { return false; }
      outgoing := outgoing + [p];
      ok := true;
    }

    method SendError(failed: nat, code: ErrorCode)
      modifies `outgoing
      ensures outgoing == old(outgoing) + Identity.Send(State(), Report(failed, code))
    {
      var ok := Send(Packet(userId, Report(failed, code)));
    }

    method Close()
      modifies `state, `username, `userId, `authenticated
      ensures State() == if old(state) == CLOSED then old(State()) else Identity.Close(old(State()))
    {
      if state == CLOSED { return; }
      state, username, userId, authenticated := CLOSED, None, NO_USER_ID, false;
    }

    // The end of _authenticate.
    method Adopt(record: R.Record, lost: bool)
      requires record.userId.Some? && state != CLOSED
      modifies `state, `username, `userId, `authenticated, `outgoing
      ensures
        var named := Server(id, IDLE, record.username, record.userId.value, true);
        if lost then State() == Identity.Close(named) && outgoing == old(outgoing)
        else State() == named && outgoing == old(outgoing) + Identity.Send(named, Ack(LOGIN, 0))
    {
      username, userId := record.username, record.userId.value;
      if lost {
        Close();
        return;
      }
      var ok := Send(Packet(userId, Ack(LOGIN, 0)));
      authenticated, state := true, IDLE;
    }

    // _authenticate; a code is the ProtocolError it raises.
    method Authenticate(name: Bytes, luck: Luck) returns (refused: Option<ErrorCode>)
      requires Valid() && state == AUTHENTICATING && ValidUsername(name)
      modifies registry, `state, `username, `userId, `authenticated, `outgoing
      ensures
        var h := Identity.Authenticate(old(registry.State()), old(State()), name, luck);
        && registry.State() == h.registry
        && State() == h.server
        && (refused.None? ==> outgoing == old(outgoing) + h.sent)
        && (refused.Some? ==> State() == old(State()) && outgoing == old(outgoing))
        && (refused.Some? ==> h.sent == Identity.Send(State(), Report(OpcodeValue(LOGIN), refused.value)))
    {
      ghost var r, s := registry.State(), State();
      OnlyAnswerableRefusals(r, s, name);
      ClaimEffect(r, id, name);
      if luck.mkdir.Some? { return Some(OsErrorCode(luck.mkdir.value)); }
      var reply := registry.ClaimUsername(id, name);
      if reply.Refused? {
        return Some(if reply.why == R.UsernameInUse then USERNAME_IN_USE else SERVER_BUSY);
      }
      Adopt(reply.record, luck.lost);
      refused := None;
    }

    method DispatchAuthentication(p: Packet, luck: Luck)
      requires Valid() && state == AUTHENTICATING && Accepted(p)
      modifies registry, `state, `username, `userId, `authenticated, `outgoing
      ensures
        var h := Identity.DispatchAuthentication(old(registry.State()), old(State()), p, luck);
        registry.State() == h.registry && State() == h.server && outgoing == old(outgoing) + h.sent
    {
      var op := OpOf(p);
      if op != OpcodeValue(LOGIN) {
        SendError(op, AUTHENTICATION_REQUIRED);
      } else if p.Garbled? {
        SendError(op, p.why);
      } else if !p.Packet? || !p.body.Login? {
        SendError(op, INVALID_PAYLOAD);
      } else if |p.body.username| > luck.maxName {
        SendError(op, INVALID_USERNAME);
      } else {
        var refused := Authenticate(p.body.username, luck);
        if refused.Some? { SendError(op, refused.value); }
      }
    }

    method BeginRequest(op: Opcode)
      requires state == IDLE
      modifies `state
      ensures state ==
        match op
        case FILE_UPLOAD => RECEIVING_UPLOAD
        case FILE_DOWNLOAD => SENDING_DOWNLOAD
        case _ => IDLE
    {
      if op == FILE_UPLOAD { state := RECEIVING_UPLOAD; }
      else if op == FILE_DOWNLOAD { state := SENDING_DOWNLOAD; }
    }

    method FinishRequest()
      requires Serving(State())
      modifies `state
      ensures state == IDLE
    {
      state := IDLE;
    }

    // What a transfer handler sends next.
    method Work(luck: Luck)
      requires Transferring(State())
      modifies `state, `outgoing
      ensures
        var h := Identity.Transfer(registry.State(), old(State()), luck);
        State() == h.server && outgoing == old(outgoing) + h.sent
    {
      ghost var s := State();
      var i := 0;
      while i < |luck.sends|
        invariant 0 <= i <= |luck.sends| && State() == s
        invariant outgoing + SendEach(s, luck.sends[i..]) == old(outgoing) + SendEach(s, luck.sends)
      {
        ghost var rest := luck.sends[i..];
        assert rest[0] == luck.sends[i] && rest[1..] == luck.sends[i + 1..];
        var ok := Send(Packet(userId, luck.sends[i]));
        i := i + 1;
      }
      if luck.done { FinishRequest(); }
    }

    method Dispatch(p: Packet, luck: Luck)
      requires state == IDLE
      modifies `state, `outgoing
      ensures
        var h := Identity.Dispatch(registry.State(), old(State()), p, luck);
        State() == h.server && outgoing == old(outgoing) + h.sent
    {
      var op := OpOf(p);
      if p.Garbled? {
        SendError(op, p.why);
      } else if p.Unknown? || !IsRequest(p.body) {
        SendError(op, UNSUPPORTED_OPCODE);
      } else if p.body.Login? {
        SendError(op, INVALID_USER_ID);
      } else if p.body.ListFiles? {
        var ok := Send(Packet(userId, luck.listing));
      } else if p.body.Disconnect? {
        var ok := Send(Packet(userId, Ack(DISCONNECT, 0)));
        state := CLOSING;
      } else {
        BeginRequest(Kind(p.body));
        Work(luck);
      }
    }

    // A packet receive rejects.
    method Reject(p: Packet)
      requires S.Receiving(State()) && (p.Unknown? || p.userId != Expected(State()))
      modifies `state, `outgoing
      ensures forall luck ::
        var h := Handle(registry.State(), old(State()), p, luck);
        registry.State() == h.registry && State() == h.server && outgoing == old(outgoing) + h.sent
    {
      var code := if p.Unknown? then UNSUPPORTED_OPCODE else INVALID_USER_ID;
      if Transferring(State()) {
        var request := if state == RECEIVING_UPLOAD then FILE_UPLOAD else FILE_DOWNLOAD;
        state := IDLE;
        SendError(OpcodeValue(request), code);
      } else {
        SendError(OpOf(p), code);
        if !p.Unknown? { state := CLOSING; }
      }
    }

    // receive, and what the state makes of the packet.
    method HandlePacket(p: Packet, luck: Luck)
      requires Valid() && S.Receiving(State()) && Accepted(p)
      modifies registry, `state, `username, `userId, `authenticated, `outgoing
      ensures
        var h := Handle(old(registry.State()), old(State()), p, luck);
        registry.State() == h.registry && State() == h.server && outgoing == old(outgoing) + h.sent
      ensures old(state) == IDLE && p == Packet(old(userId), Disconnect) ==>
        && State() == old(State()).(state := CLOSING) && registry.State() == old(registry.State())
        && outgoing == old(outgoing) + [Packet(old(userId), Ack(DISCONNECT, 0))]
      ensures old(state) == IDLE && !p.Unknown? && p.userId == old(userId) && p != Packet(old(userId), Disconnect) ==>
        Serving(State())
    {
      if p.Unknown? || p.userId != Expected(State()) {
        Reject(p);
        return;
      }
      if state == AUTHENTICATING {
        DispatchAuthentication(p, luck);
      } else if state == IDLE {
        Dispatch(p, luck);
      } else {
        Work(luck);
      }
    }

    // The body of serve's loop.
    method ServeOne(luck: Luck, ghost r: R.Fields, ghost s: Server) returns (ghost h: Handled)
      requires registry.State() == r && State() == s && incoming != [] && Ready(r, s, incoming) && S.Receiving(s)
      modifies registry, this
      ensures registry.State() == h.registry && State() == h.server
      ensures incoming == old(incoming)[1..] && outgoing == old(outgoing) + h.sent
      ensures ServesTo(r, s, old(incoming), luck, h)
    {
      var p := incoming[0];
      assert incoming == [p] + incoming[1..];
      incoming := incoming[1..];
      h := OneServed(r, s, p, incoming, luck);
      HandlePacket(p, luck);
    }

    // How the loop ends: the session has closed, or the peer has.
    method EndServe(ghost left: seq<Luck>, ghost goal: Handled)
      requires |left| == |incoming| && (S.Receiving(State()) ==> incoming == [])
      requires goal == After(outgoing, ServeAll(registry.State(), State(), incoming, left))
      modifies `state, `username, `userId, `authenticated
      ensures goal == Handled(registry.State(), State(), outgoing)
    {
      if Transferring(State()) { Close(); } else if S.Receiving(State()) { state := CLOSING; }
      NothingAfter(registry.State(), State(), outgoing);
    }

    // serve, with one outcome of the environment for each packet that arrives.
    method Serve(lucks: seq<Luck>)
      requires Valid() && S.Receiving(State()) && |lucks| == |incoming| && S.AllAccepted(incoming)
      modifies registry, this
      ensures Handled(registry.State(), State(), outgoing) ==
        After(old(outgoing), ServeAll(old(registry.State()), old(State()), old(incoming), lucks))
    {
      ghost var r, s, left := registry.State(), State(), lucks;
      ghost var goal := After(outgoing, ServeAll(r, s, incoming, lucks));
      var k := 0;
      while S.Receiving(State()) && incoming != []
        invariant registry.State() == r && State() == s && Ready(r, s, incoming)
        invariant k + |incoming| == |lucks| && left == lucks[k..]
        invariant goal == After(outgoing, ServeAll(r, s, incoming, left))
        decreases |incoming|
      {
        ghost var ps, sent := incoming, outgoing;
        ghost var h := ServeOne(lucks[k], r, s);
        ServeStep(r, s, ps, left, sent, h);
        r, s, left := h.registry, h.server, left[1..];
        k := k + 1;
      }
      EndServe(left, goal);
    }
  }

  // ----- the client's object -----

  // A LOGIN that succeeds is answered with ACK(LOGIN, 0) under the new USER_ID.
  predicate GrantsLogin(p: Packet) {
    p.Packet? && MIN_USER_ID <= p.userId <= MAX_USER_ID && p.body == Ack(LOGIN, 0)
  }

  lemma OnlyGrantsLogIn(c: S.Client, p: Packet)
    requires c.mode == S.LoggingIn && c.userId == NO_USER_ID && !c.authenticated
    ensures S.Incoming(c, p).mode == S.Ready <==> GrantsLogin(p)
    ensures GrantsLogin(p) ==> S.Incoming(c, p).userId == p.userId && S.Incoming(c, p).authenticated
    ensures !GrantsLogin(p) ==> S.Incoming(c, p) == S.Closed(c)
  {
  }

  class ClientSession {
    var mode: S.Mode
    var username: Bytes
    var userId: nat
    var authenticated: bool
    var incoming: seq<Packet>
    var outgoing: seq<Packet>

    function State(): S.Client
      reads this
    {
      S.Client(mode, username, userId, authenticated)
    }

    // What the server will have sent once it is connected to.
    constructor (incoming: seq<Packet>)
      ensures State() == S.Client(S.Off, [], NO_USER_ID, false) && this.incoming == incoming && outgoing == []
    {
      mode, username, userId, authenticated := S.Off, [], NO_USER_ID, false;
      this.incoming, outgoing := incoming, [];
    }

    method Close()
      modifies `mode, `userId, `authenticated
      ensures State() == S.Closed(old(State()))
    {
      mode, userId, authenticated := S.Off, NO_USER_ID, false;
    }

    // send; false when _validate_outgoing_user_id raises.
    method Send(p: Packet) returns (ok: bool)
      modifies `outgoing
      ensures ok <==>
        && p.Packet? && (p.body.Login? || authenticated)
        && p.userId == (if p.body.Login? then NO_USER_ID else userId)
      ensures outgoing == old(outgoing) + if ok then [p] else []
    {
      if !p.Packet? || (!authenticated && !p.body.Login?) { return false; }
      if p.userId != (if p.body.Login? then NO_USER_ID else userId) { return false; }
      outgoing := outgoing + [p];
      ok := true;
    }

    // _validate_incoming_user_id
    method ValidateIncoming(p: Packet) returns (ok: bool)
      modifies `userId
      ensures ok <==> S.Validate(old(State()), p).Some?
      ensures State() == if ok then S.Validate(old(State()), p).value else old(State())
    {
      if !authenticated && p.Packet? && p.body.Ack? && p.body.acknowledged == LOGIN {
        if !(MIN_USER_ID <= p.userId <= MAX_USER_ID) { return false; }
        userId := p.userId;
        return true;
      }
      if !authenticated && p.Packet? && p.body.Error? { return p.userId == NO_USER_ID; }
      ok := p.Packet? && p.userId == userId;
    }

    // receive; None closes the session and raises.
    method Receive() returns (p: Option<Packet>)
      modifies `incoming, `mode, `userId, `authenticated
      ensures
        var v := if old(incoming) == [] then None else S.Validate(old(State()), old(incoming)[0]);
        if v.Some? then p == Some(old(incoming)[0]) && State() == v.value && incoming == old(incoming)[1..]
        else p == None && State() == S.Closed(old(State()))
      ensures p.Some? ==> S.Genuine(old(State()), p.value)
      ensures old(incoming) != [] && S.Genuine(old(State()), old(incoming)[0]) ==> p.Some?
    {
      if incoming == [] {
        Close();
        return None;
      }
      var first := incoming[0];
      incoming := incoming[1..];
      var ok := ValidateIncoming(first);
      if !ok {
        Close();
        return None;
      }
      p := Some(first);
    }

    // connect, once the prefaces are exchanged. It succeeds exactly when the name
    // is valid and the server's first frame grants the login, and leaves the
    // session closed otherwise.
    method Connect(name: Bytes, maxName: nat) returns (ok: bool)
      requires mode == S.Off && userId == NO_USER_ID && !authenticated
      modifies this
      ensures ok <==> ValidUsername(name) && |name| <= maxName && old(incoming) != [] && GrantsLogin(old(incoming)[0])
      ensures ok ==> State() == S.Client(S.Ready, name, old(incoming)[0].userId, true)
      ensures !ok ==> mode == S.Off && userId == NO_USER_ID && !authenticated
      ensures outgoing == old(outgoing) +
        if ValidUsername(name) && |name| <= maxName then [Packet(NO_USER_ID, Login(name))] else []
    {
      if !ValidUsername(name) || |name| > maxName { return false; }
      username, mode := name, S.LoggingIn;
      ghost var c := State();
      if incoming != [] { OnlyGrantsLogIn(c, incoming[0]); }
      var sent := Send(Packet(NO_USER_ID, Login(name)));
      var answer := Receive();
      if answer.None? { return false; }
      // _complete_login
      if !answer.value.Packet? || answer.value.body != Ack(LOGIN, 0) || !(MIN_USER_ID <= userId <= MAX_USER_ID) {
        Close();
        return false;
      }
      authenticated, mode := true, S.Ready;
      ok := true;
    }
  }
}
