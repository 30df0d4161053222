// Any number of connections between server sessions and clients, over one
// registry.

module IdentitySystem {
  import opened Protocol
  import opened Messages
  import opened F = Fields
  import opened Identity
  import R = Registry

  // A ClientSession of this repository, in the order connect goes through, or
  // some other program.
  datatype Mode = Stranger | Greeting | LoggingIn | Ready | Off

  datatype Client = Client(mode: Mode, username: Bytes, userId: nat, authenticated: bool)

  // `up` and `down` are the frames under way to the server and to the client.
  datatype Conn = Conn(server: Server, client: Client, up: seq<Packet>, down: seq<Packet>)

  datatype System = System(registry: R.Fields, conns: seq<Conn>)

  datatype Label =
    | Accept(stranger: bool)
    | Handshake(i: nat)
    | SendLogin(i: nat, username: Bytes)
    | ClientSend(i: nat, body: Message)
    | StrangerSend(i: nat, packet: Packet)
    | ClientReceive(i: nat)
    | ClientClose(i: nat)
    | ServerReceive(i: nat, luck: Luck)
    | ServerSend(i: nat, body: Message)
    | ServerClose(i: nat)
    | ServerRelease(i: nat)

  // ----- the client -----

  function Closed(c: Client): Client { Client(Off, c.username, NO_USER_ID, false) }

  // _validate_incoming_user_id; None closes the session.
  function Validate(c: Client, p: Packet): Option<Client> {
    if !c.authenticated && p.Packet? && p.body.Ack? && p.body.acknowledged == LOGIN then
      if MIN_USER_ID <= p.userId <= MAX_USER_ID then Some(c.(userId := p.userId)) else None
    else if !c.authenticated && p.Packet? && p.body.Error? then
      if p.userId != NO_USER_ID then None else Some(c)
    else if !p.Packet? || p.userId != c.userId then None
    else Some(c)
  }

  // A frame the client may take to be its server's: after the login one that carries
  // its USER_ID; before, the ACK of a LOGIN under any USER_ID in range, or under 0.
  predicate Genuine(c: Client, p: Packet) {
    && p.Packet?
    && (c.authenticated ==> p.userId == c.userId)
    && (!c.authenticated && p.body.Ack? && p.body.acknowledged == LOGIN ==> 1 <= p.userId <= 65535)
    && (!c.authenticated && p.body.Error? ==> p.userId == 0)
    && (!c.authenticated && !p.body.Error? && !(p.body.Ack? && p.body.acknowledged == LOGIN) ==> p.userId == c.userId)
  }

  // _complete_login; None raises, and connect closes the session.
  function CompleteLogin(c: Client, p: Packet): Option<Client> {
    if p.Packet? && p.body == Ack(LOGIN, 0) && MIN_USER_ID <= c.userId <= MAX_USER_ID then
      Some(c.(authenticated := true, mode := Ready))
    else None
  }

  function Incoming(c: Client, p: Packet): Client {
    var v := Validate(c, p);
    if v.None? then Closed(c)
    else if c.mode != LoggingIn then v.value
    else
      var done := CompleteLogin(v.value, p);
      if done.None? then Closed(c) else done.value
  }

  // _validate_outgoing_user_id lets a file command out once authenticated.
  predicate MaySend(c: Client, body: Message) { c.mode == Ready && !body.Login? }

  // ----- steps -----

  predicate Receiving(s: Server) { s.state == AUTHENTICATING || Serving(s) }

  // A step of connection i other than ServerReceive.
  function Local(c: Conn, l: Label): Conn {
    match l
    case Handshake(_) =>
      if c.server.state == CONNECTED then c.(server := c.server.(state := AUTHENTICATING)) else c
    case SendLogin(_, name) =>
      if c.client.mode == Greeting && c.server.state != CONNECTED && ValidUsername(name) then
        c.(client := c.client.(mode := LoggingIn, username := name), up := c.up + [Packet(NO_USER_ID, Login(name))])
      else c
    case ClientSend(_, body) =>
      if MaySend(c.client, body) then c.(up := c.up + [Packet(c.client.userId, body)]) else c
    case StrangerSend(_, packet) =>
      if c.client.mode == Stranger && Accepted(packet) then c.(up := c.up + [packet]) else c
    case ClientReceive(_) =>
      if c.down != [] && (c.client.mode == LoggingIn || c.client.mode == Ready) then
        c.(client := Incoming(c.client, c.down[0]), down := c.down[1..])
      else c
    case ClientClose(_) => if c.client.mode != Stranger then c.(client := Closed(c.client)) else c
    case ServerSend(_, body) =>
      if Transferring(c.server) then c.(down := c.down + Send(c.server, body)) else c
    case ServerClose(_) => c.(server := Close(c.server))
    case _ => c
  }

  ghost function Step(s: System, l: Label): System {
    if l.Accept? then
      var client := Client(if l.stranger then Stranger else Greeting, [], NO_USER_ID, false);
      System(R.Register(s.registry), s.conns + [Conn(Fresh(s.registry.nextSession), client, [], [])])
    else if l.i >= |s.conns| then s
    else
      var c := s.conns[l.i];
      if l.ServerReceive? then
        if c.up == [] || !Receiving(c.server) then s
        else
          var h := Handle(s.registry, c.server, c.up[0], l.luck);
          System(h.registry, s.conns[l.i := c.(server := h.server, up := c.up[1..], down := c.down + h.sent)])
      else if l.ServerRelease? then
        if c.server.state == CLOSED then s.(registry := R.Release(s.registry, c.server.id)) else s
      else s.(conns := s.conns[l.i := Local(c, l)])
  }

  ghost function Run(s: System, ls: seq<Label>): System
    decreases |ls|
  {
    if ls == [] then s else Run(Step(s, ls[0]), ls[1..])
  }

  predicate Start(s: System) { R.Start(s.registry) && s.conns == [] }

  // ----- invariant -----

  predicate AllAccepted(ps: seq<Packet>) { forall p :: p in ps ==> Accepted(p) }

  predicate AllCarry(ps: seq<Packet>, userId: nat) { forall p :: p in ps ==> p.Packet? && p.userId == userId }

  predicate NoLogin(ps: seq<Packet>) { forall p :: p in ps ==> p.Packet? && !p.body.Login? }

  // The server's answer to LOGIN is on its way, or will never come.
  predicate Answered(c: Conn) {
    || (c.down == [] && c.server.state == CLOSED)
    || (|c.down| == 1 && c.down[0].Packet? && c.down[0].userId == NO_USER_ID && c.down[0].body.Error?
        && (c.server.state == AUTHENTICATING || c.server.state == CLOSED))
    || (|c.down| == 1 && c.down[0].Packet? && MIN_USER_ID <= c.down[0].userId <= MAX_USER_ID
        && c.down[0].body == Ack(LOGIN, 0)
        && (c.server.state == CLOSED
            || (Same(c.server, c.client.username, c.down[0].userId) && c.server.state == IDLE)))
  }

  predicate Same(s: Server, username: Bytes, userId: nat) {
    s.username == Some(username) && s.userId == userId
  }

  // What holds between a client of this repository and its server session.
  predicate Link(c: Conn) {
    match c.client.mode
    case Stranger => true
    case Off => true
    case Greeting =>
      && c.up == [] && c.down == [] && c.client.userId == NO_USER_ID && !c.client.authenticated
      && (c.server.state == CONNECTED || c.server.state == AUTHENTICATING || c.server.state == CLOSED)
    case LoggingIn =>
      && c.client.userId == NO_USER_ID && !c.client.authenticated
      && if c.up != [] then
           c.up == [Packet(NO_USER_ID, Login(c.client.username))] && c.down == []
           && (c.server.state == AUTHENTICATING || c.server.state == CLOSED)
         else Answered(c)
    case Ready =>
      && c.client.userId != NO_USER_ID && c.client.authenticated
      && AllCarry(c.up, c.client.userId) && NoLogin(c.up) && AllCarry(c.down, c.client.userId)
      && (c.server.state == CLOSED ||
          (Same(c.server, c.client.username, c.client.userId) && (Serving(c.server) || c.server.state == CLOSING)))
  }

  predicate ConnOk(sessions: map<nat, R.Record>, next: nat, c: Conn) {
    c.server.id < next && Agrees(sessions, c.server) && AllAccepted(c.up) && Link(c)
  }

  ghost predicate Inv(s: System) {
    && R.Inv(s.registry)
    && (forall i :: 0 <= i < |s.conns| ==> ConnOk(s.registry.sessions, s.registry.nextSession, s.conns[i]))
    && (forall i, j :: 0 <= i < j < |s.conns| ==> s.conns[i].server.id != s.conns[j].server.id)
  }

  // ----- steps that leave the registry alone -----

  lemma LocalAgrees(sessions: map<nat, R.Record>, next: nat, c: Conn, l: Label)
    requires ConnOk(sessions, next, c)
    ensures
      var n := Local(c, l);
      Agrees(sessions, n.server) && AllAccepted(n.up) && n.server.id == c.server.id
  {
  }

  lemma LocalServerLink(c: Conn, l: Label)
    requires Link(c) && (l.Handshake? || l.ServerSend? || l.ServerClose?)
    ensures Link(Local(c, l))
  {
  }

  lemma LocalClientLink(c: Conn, l: Label)
    requires Link(c) && (l.SendLogin? || l.ClientSend? || l.StrangerSend? || l.ClientClose?)
    ensures Link(Local(c, l))
  {
  }

  lemma LocalReceiveLink(c: Conn, l: Label)
    requires Link(c) && l.ClientReceive?
    ensures Link(Local(c, l))
  {
  }

  lemma LocalKeeps(sessions: map<nat, R.Record>, next: nat, c: Conn, l: Label)
    requires ConnOk(sessions, next, c)
    ensures ConnOk(sessions, next, Local(c, l)) && Local(c, l).server.id == c.server.id
  {
    LocalAgrees(sessions, next, c, l);
    if l.Handshake? || l.ServerSend? || l.ServerClose? { LocalServerLink(c, l); }
    else if l.ClientReceive? { LocalReceiveLink(c, l); }
    else if l.SendLogin? || l.ClientSend? || l.StrangerSend? || l.ClientClose? { LocalClientLink(c, l); }
  }

  // ----- the server receives -----

  lemma HandleLogin(r: R.Fields, s: Server, name: Bytes, luck: Luck)
    requires R.Inv(r) && Agrees(r.sessions, s) && s.state == AUTHENTICATING && ValidUsername(name)
    ensures
      var h := Handle(r, s, Packet(NO_USER_ID, Login(name)), luck);
      || (h.server.state == CLOSED && h.sent == [])
      || (h.server.state == AUTHENTICATING && |h.sent| == 1 && h.sent[0].Packet?
          && h.sent[0].userId == NO_USER_ID && h.sent[0].body.Error?)
      || (h.server.state == IDLE && MIN_USER_ID <= h.server.userId <= MAX_USER_ID && h.server.username == Some(name)
          && h.sent == [Packet(h.server.userId, Ack(LOGIN, 0))])
  {
    ClaimEffect(r, s.id, name);
    ClaimName(r, s.id, name);
  }

  lemma ClaimName(r: R.Fields, s: nat, name: Bytes)
    ensures var reply := R.Claim(r, s, name).1; reply.Granted? ==> reply.record.username == Some(name)
  {
  }

  lemma HandleServing(r: R.Fields, s: Server, p: Packet, luck: Luck)
    requires Serving(s) && p.Packet? && p.userId == s.userId
    ensures
      var h := Handle(r, s, p, luck);
      && h.server.userId == s.userId && h.server.username == s.username
      && (Serving(h.server) || h.server.state == CLOSING) && AllCarry(h.sent, s.userId)
  {
  }

  ghost function Received(r: R.Fields, c: Conn, luck: Luck): Conn
    requires c.up != []
  {
    var h := Handle(r, c.server, c.up[0], luck);
    c.(server := h.server, up := c.up[1..], down := c.down + h.sent)
  }

  lemma ReceiveLink(r: R.Fields, c: Conn, luck: Luck)
    requires R.Inv(r) && Agrees(r.sessions, c.server) && AllAccepted(c.up) && Link(c)
    requires c.up != [] && Receiving(c.server)
    ensures Link(Received(r, c, luck))
  {
    assert Accepted(c.up[0]);
    if c.client.mode == LoggingIn {
      HandleLogin(r, c.server, c.client.username, luck);
    } else if c.client.mode == Ready {
      HandleServing(r, c.server, c.up[0], luck);
    }
  }

  // ----- other connections -----

  lemma OtherAgrees(before: map<nat, R.Record>, after: map<nat, R.Record>, id: nat, s: Server)
    requires Agrees(before, s) && s.id != id && OthersKept(before, after, id)
    ensures Agrees(after, s)
  {
    assert s.id in before ==> s.id in before - {id};
    assert s.id in after - {id} <==> s.id in before - {id};
    assert s.id in before ==> (after - {id})[s.id] == (before - {id})[s.id];
  }

  // A step at connection i that keeps its own part and its id keeps the rest.
  lemma OthersOk(s: System, i: nat, after: R.Fields, c: Conn)
    requires Inv(s) && i < |s.conns| && R.Inv(after) && after.nextSession >= s.registry.nextSession
    requires OthersKept(s.registry.sessions, after.sessions, s.conns[i].server.id)
    requires c.server.id == s.conns[i].server.id && ConnOk(after.sessions, after.nextSession, c)
    ensures Inv(System(after, s.conns[i := c]))
  {
    forall j | 0 <= j < |s.conns| && j != i ensures ConnOk(after.sessions, after.nextSession, s.conns[j]) {
      assert ConnOk(s.registry.sessions, s.registry.nextSession, s.conns[j]);
      OtherAgrees(s.registry.sessions, after.sessions, s.conns[i].server.id, s.conns[j].server);
    }
  }

  lemma AcceptKeeps(s: System, stranger: bool)
    requires Inv(s)
    ensures Inv(Step(s, Accept(stranger)))
  {
    var n := Step(s, Accept(stranger));
    var k := |s.conns|;
    R.RegisterKeeps(s.registry);
    forall i | 0 <= i < k
      ensures ConnOk(n.registry.sessions, n.registry.nextSession, n.conns[i])
      ensures n.conns[i].server.id != n.conns[k].server.id
    {
      assert ConnOk(s.registry.sessions, s.registry.nextSession, s.conns[i]);
    }
  }

  lemma ReceiveKeeps(s: System, i: nat, luck: Luck)
    requires Inv(s) && i < |s.conns| && s.conns[i].up != [] && Receiving(s.conns[i].server)
    ensures Inv(Step(s, ServerReceive(i, luck)))
  {
    var c := s.conns[i];
    assert ConnOk(s.registry.sessions, s.registry.nextSession, c);
    assert Accepted(c.up[0]);
    HandleSound(s.registry, c.server, c.up[0], luck);
    HandleSessions(s.registry, c.server, c.up[0], luck);
    ReceiveLink(s.registry, c, luck);
    OthersOk(s, i, Handle(s.registry, c.server, c.up[0], luck).registry, Received(s.registry, c, luck));
  }

  lemma HandleSessions(r: R.Fields, s: Server, p: Packet, luck: Luck)
    ensures Handle(r, s, p, luck).registry.nextSession == r.nextSession
  {
  }

  lemma ReleaseKeeps(s: System, i: nat)
    requires Inv(s) && i < |s.conns| && s.conns[i].server.state == CLOSED
    ensures Inv(Step(s, ServerRelease(i)))
  {
    var c := s.conns[i];
    assert ConnOk(s.registry.sessions, s.registry.nextSession, c);
    var after := R.Release(s.registry, c.server.id);
    R.ReleaseKeeps(s.registry, c.server.id);
    assert s.registry.sessions - {c.server.id} == after.sessions - {c.server.id};
    OthersOk(s, i, after, c);
    assert s.conns[i := c] == s.conns;
  }

  lemma StepKeeps(s: System, l: Label)
    requires Inv(s)
    ensures Inv(Step(s, l))
  {
    if l.Accept? {
      AcceptKeeps(s, l.stranger);
    } else if l.i < |s.conns| {
      var c := s.conns[l.i];
      if l.ServerReceive? {
        if c.up != [] && Receiving(c.server) { ReceiveKeeps(s, l.i, l.luck); }
      } else if l.ServerRelease? {
        if c.server.state == CLOSED { ReleaseKeeps(s, l.i); }
      } else {
        LocalKeeps(s.registry.sessions, s.registry.nextSession, c, l);
        OthersOk(s, l.i, s.registry, Local(c, l));
      }
    }
  }

  lemma {:induction false} RunKeeps(s: System, ls: seq<Label>)
    requires Inv(s)
    ensures Inv(Run(s, ls))
    decreases |ls|
  {
    if ls != [] {
      StepKeeps(s, ls[0]);
      RunKeeps(Step(s, ls[0]), ls[1..]);
    }
  }

  lemma ReachableInv(s: System, ls: seq<Label>)
    requires Start(s)
    ensures Inv(Run(s, ls))
  {
    R.StartInv(s.registry);
    RunKeeps(s, ls);
  }

  // ----- who is who, in every run -----

  // A session at work is in the registry under its own name and nonzero USER_ID;
  // the name is the namespace of its file locks and its storage directory.
  lemma IdentityHeld(s: System, ls: seq<Label>, i: nat)
    requires Start(s)
    ensures
      var n := Run(s, ls);
      i < |n.conns| && Serving(n.conns[i].server) ==>
        && n.conns[i].server.id in n.registry.sessions
        && n.conns[i].server.username.Some?
        && MIN_USER_ID <= n.conns[i].server.userId <= MAX_USER_ID
        && n.registry.sessions[n.conns[i].server.id]
            == R.Record(n.conns[i].server.username, Some(n.conns[i].server.userId))
  {
    ReachableInv(s, ls);
    var n := Run(s, ls);
    if i < |n.conns| { assert ConnOk(n.registry.sessions, n.registry.nextSession, n.conns[i]); }
  }

  // Sessions at work at the same time have different USER_IDs and namespaces,
  // whoever the peers are.
  lemma DistinctIdentities(s: System, ls: seq<Label>, i: nat, j: nat)
    requires Start(s)
    ensures
      var n := Run(s, ls);
      i < j < |n.conns| && Serving(n.conns[i].server) && Serving(n.conns[j].server) ==>
        && n.conns[i].server.userId != n.conns[j].server.userId
        && n.conns[i].server.username != n.conns[j].server.username
  {
    ReachableInv(s, ls);
    var n := Run(s, ls);
    if i < j < |n.conns| && Serving(n.conns[i].server) && Serving(n.conns[j].server) {
      IdentityHeld(s, ls, i);
      IdentityHeld(s, ls, j);
    }
  }

  // A client that has logged in and its server session, as long as that is not
  // closed, hold the same name and the same USER_ID.
  lemma BothEndsAgree(s: System, ls: seq<Label>, i: nat)
    requires Start(s)
    ensures
      var n := Run(s, ls);
      i < |n.conns| && n.conns[i].client.mode == Ready && n.conns[i].server.state != CLOSED ==>
        && n.conns[i].client.authenticated && n.conns[i].client.userId != NO_USER_ID
        && Same(n.conns[i].server, n.conns[i].client.username, n.conns[i].client.userId)
  {
    ReachableInv(s, ls);
    var n := Run(s, ls);
    if i < |n.conns| { assert ConnOk(n.registry.sessions, n.registry.nextSession, n.conns[i]); }
  }

  // Between this client and this server neither end ever rejects a frame for its
  // USER_ID, and a login that the server has granted succeeds at the client.
  lemma NoIdentityErrors(s: System, ls: seq<Label>, i: nat)
    requires Start(s)
    ensures
      var n := Run(s, ls);
      i < |n.conns| && n.conns[i].client.mode != Stranger ==>
        var c := n.conns[i];
        && (c.client.mode != Off && c.down != [] ==> Validate(c.client, c.down[0]).Some?)
        && (c.client.mode != Off && c.up != [] && Receiving(c.server) ==>
              c.up[0].Packet? && c.up[0].userId == Expected(c.server))
        && (c.client.mode == LoggingIn && c.down != [] && c.down[0].Packet? && c.down[0].body.Ack? ==>
              Incoming(c.client, c.down[0]).authenticated && Incoming(c.client, c.down[0]).userId == c.down[0].userId)
  {
    ReachableInv(s, ls);
    var n := Run(s, ls);
    if i < |n.conns| { assert ConnOk(n.registry.sessions, n.registry.nextSession, n.conns[i]); }
  }

  // Every frame a server session sends carries the USER_ID it has then.
  lemma FramesCarryId(s: System, ls: seq<Label>, i: nat, luck: Luck)
    requires Start(s)
    ensures
      var n := Run(s, ls);
      i < |n.conns| && n.conns[i].up != [] && Receiving(n.conns[i].server) ==>
        var after := Step(n, ServerReceive(i, luck)).conns[i];
        && |n.conns[i].down| <= |after.down|
        && AllCarry(after.down[|n.conns[i].down|..], after.server.userId)
  {
    ReachableInv(s, ls);
    var n := Run(s, ls);
    if i < |n.conns| && n.conns[i].up != [] && Receiving(n.conns[i].server) {
      var c := n.conns[i];
      assert ConnOk(n.registry.sessions, n.registry.nextSession, c);
      assert Accepted(c.up[0]);
      HandleSound(n.registry, c.server, c.up[0], luck);
      var h := Handle(n.registry, c.server, c.up[0], luck);
      assert (c.down + h.sent)[|c.down|..] == h.sent;
    }
  }
}
