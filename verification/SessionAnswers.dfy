// What a server session answers to each packet, and how it ends.

module SessionAnswers {
  import opened Protocol
  import opened Messages
  import opened F = Fields
  import opened Identity
  import opened Sessions
  import R = Registry
  import S = IdentitySystem

  // The one frame a session sends, under its USER_ID, to say `m`; nothing else changes.
  ghost predicate Replies(h: Handled, r: R.Fields, s: Server, m: Message) {
    h == Handled(r, s, [Packet(s.userId, m)])
  }

  ghost predicate Complains(h: Handled, r: R.Fields, s: Server, op: nat, code: ErrorCode) {
    Replies(h, r, s, Error(op, code, []))
  }

  predicate Addressed(s: Server, p: Packet) { p.Unknown? || p.userId == Expected(s) }

  // ----- between requests -----

  // What an idle session makes of a packet that is meant for it.
  lemma IdleAnswers(r: R.Fields, s: Server, p: Packet, luck: Luck)
    requires s.state == IDLE && Addressed(s, p)
    ensures
      var h := Handle(r, s, p, luck);
      match p
      case Unknown(raw) => Complains(h, r, s, raw, UNSUPPORTED_OPCODE)
      case Garbled(_, op, why) => Complains(h, r, s, OpcodeValue(op), why)
      case Packet(_, body) =>
        match body
        case ListFiles => Replies(h, r, s, luck.listing)
        case Disconnect => Replies(h, r, s.(state := CLOSING), Ack(DISCONNECT, 0))
        case Login(_) => Complains(h, r, s, 0x0001, INVALID_USER_ID)
        case Upload(_, _, _) => Begins(h, r, s, RECEIVING_UPLOAD, luck)
        case Download(_, _) => Begins(h, r, s, SENDING_DOWNLOAD, luck)
        case _ => Complains(h, r, s, OpcodeValue(Kind(body)), UNSUPPORTED_OPCODE)
  {
    SentInOrder(s.(state := RECEIVING_UPLOAD), luck.sends);
    SentInOrder(s.(state := SENDING_DOWNLOAD), luck.sends);
  }

  // A transfer has begun, and is over already if its handler is done.
  ghost predicate Begins(h: Handled, r: R.Fields, s: Server, state: SessionState, luck: Luck) {
    && h.registry == r && h.server == s.(state := if luck.done then IDLE else state)
    && |h.sent| == |luck.sends| && forall i :: 0 <= i < |h.sent| ==> h.sent[i] == Packet(s.userId, luck.sends[i])
  }

  lemma {:induction false} SentInOrder(s: Server, ms: seq<Message>)
    ensures
      var ps := SendEach(s, ms);
      |ps| == |ms| && forall i :: 0 <= i < |ps| ==> ps[i] == Packet(s.userId, ms[i])
  {
    if ms != [] { SentInOrder(s, ms[1..]); }
  }

  // A packet under another USER_ID, or before LOGIN under any, is answered once. It
  // ends a session between requests and a transfer, but not the session, inside one.
  lemma WrongIdAnswers(r: R.Fields, s: Server, p: Packet, luck: Luck)
    requires S.Receiving(s) && !Addressed(s, p)
    ensures
      var h := Handle(r, s, p, luck);
      match s.state
      case RECEIVING_UPLOAD => Complains(h, r, s.(state := IDLE), 0x0012, INVALID_USER_ID)
      case SENDING_DOWNLOAD => Complains(h, r, s.(state := IDLE), 0x0013, INVALID_USER_ID)
      case _ => Complains(h, r, s.(state := CLOSING), OpOf(p), INVALID_USER_ID)
  {
  }

  // An idle session closes on DISCONNECT and on a wrong USER_ID, and on nothing else.
  lemma OnlyDisconnectCloses(r: R.Fields, s: Server, p: Packet, luck: Luck)
    requires s.state == IDLE
    ensures
      var h := Handle(r, s, p, luck);
      !S.Receiving(h.server) <==> !Addressed(s, p) || (p.Packet? && p.body == Disconnect)
  {
  }

  // ----- DISCONNECT -----

  lemma ServeNext(r: R.Fields, s: Server, p: Packet, ps: seq<Packet>, luck: Luck, lucks: seq<Luck>)
    requires S.Receiving(s) && |lucks| == |ps|
    ensures
      var h := Handle(r, s, p, luck);
      ServeAll(r, s, [p] + ps, [luck] + lucks) == After(h.sent, ServeAll(h.registry, h.server, ps, lucks))
  {
    assert ([p] + ps)[1..] == ps && ([luck] + lucks)[1..] == lucks;
  }

  // Whatever else the peer has sent behind it, DISCONNECT is answered with one
  // acknowledgement and ends the loop.
  lemma DisconnectEnds(r: R.Fields, s: Server, luck: Luck, rest: seq<Packet>, lucks: seq<Luck>)
    requires s.state == IDLE && |lucks| == |rest|
    ensures
      ServeAll(r, s, [Packet(s.userId, Disconnect)] + rest, [luck] + lucks) ==
        Handled(r, s.(state := CLOSING), [Packet(s.userId, Ack(DISCONNECT, 0))])
  {
    var h := Handle(r, s, Packet(s.userId, Disconnect), luck);
    ServeNext(r, s, Packet(s.userId, Disconnect), rest, luck, lucks);
    assert h.sent + [] == h.sent;
  }

  // A packet an idle session answers without a transfer and without ending.
  predicate Plain(s: Server, p: Packet) {
    Addressed(s, p) && (p.Packet? ==> !p.body.Upload? && !p.body.Download? && !p.body.Disconnect?)
  }

  // The answer to such a packet: the listing, or an ERROR about its opcode.
  predicate Answers(s: Server, p: Packet, luck: Luck, a: Packet) {
    && a.Packet? && a.userId == s.userId
    && if p.Packet? && p.body.ListFiles? then a.body == luck.listing else a.body.Error? && a.body.failed == OpOf(p)
  }

  lemma PlainAnswered(r: R.Fields, s: Server, p: Packet, luck: Luck)
    requires s.state == IDLE && Plain(s, p)
    ensures
      var h := Handle(r, s, p, luck);
      h == Handled(r, s, h.sent) && |h.sent| == 1 && Answers(s, p, luck, h.sent[0])
  {
    IdleAnswers(r, s, p, luck);
  }

  // Requests that need no transfer are answered one by one in their order, and behind
  // a DISCONNECT nothing is answered any more.
  lemma {:induction false} Transcript(
      r: R.Fields, s: Server, ps: seq<Packet>, lucks: seq<Luck>, luck: Luck, rest: seq<Packet>, more: seq<Luck>)
    requires s.state == IDLE && |lucks| == |ps| && |more| == |rest|
    requires forall i :: 0 <= i < |ps| ==> Plain(s, ps[i])
    ensures
      var h := ServeAll(r, s, ps + ([Packet(s.userId, Disconnect)] + rest), lucks + ([luck] + more));
      && h.registry == r && h.server == s.(state := CLOSING) && |h.sent| == |ps| + 1
      && h.sent[|ps|] == Packet(s.userId, Ack(DISCONNECT, 0))
      && forall i :: 0 <= i < |ps| ==> Answers(s, ps[i], lucks[i], h.sent[i])
    decreases |ps|
  {
    var tail, others := [Packet(s.userId, Disconnect)] + rest, [luck] + more;
    if ps == [] {
      assert ps + tail == tail && lucks + others == others;
      DisconnectEnds(r, s, luck, rest, more);
    } else {
      PlainAnswered(r, s, ps[0], lucks[0]);
      ServeNext(r, s, ps[0], ps[1..] + tail, lucks[0], lucks[1..] + others);
      assert ps + tail == [ps[0]] + (ps[1..] + tail) && lucks + others == [lucks[0]] + (lucks[1..] + others);
      Transcript(r, s, ps[1..], lucks[1..], luck, rest, more);
    }
  }

  // The peer may leave between requests; inside a transfer that is a failure, and the
  // session is closed without another frame.
  lemma PeerGone(r: R.Fields, s: Server)
    requires S.Receiving(s)
    ensures ServeAll(r, s, [], []) == Handled(r, if Transferring(s) then Close(s) else s.(state := CLOSING), [])
  {
  }

  // ----- LOGIN -----

  // Some session holds the name.
  ghost predicate Taken(sessions: map<nat, R.Record>, name: Bytes) {
    exists t :: t in sessions && sessions[t].username == Some(name)
  }

  ghost predicate NoIdLeft(r: R.Fields) { forall i :: 1 <= i <= r.maximum ==> R.Held(r.sessions, i) }

  // The session is known by its name and the least id that is free, and says so under
  // it; a connection lost at that moment closes it.
  ghost predicate Admits(h: Handled, r: R.Fields, s: Server, name: Bytes, lost: bool) {
    exists id: nat ::
      && R.LeastUnused(r.sessions, id) && id <= r.maximum
      && h.registry.sessions == r.sessions[s.id := R.Record(Some(name), Some(id))]
      && (if lost then h.server == Fresh(s.id).(state := CLOSED) && h.sent == []
          else h.server == Server(s.id, IDLE, Some(name), id, true) && h.sent == [Packet(id, Ack(LOGIN, 0))])
  }

  lemma ClaimAnswers(r: R.Fields, id: nat, name: Bytes)
    requires R.Inv(r) && id in r.sessions && r.sessions[id].username.None? && ValidUsername(name)
    ensures
      var (after, reply) := R.Claim(r, id, name);
      if Taken(r.sessions, name) then after == r && reply == R.Refused(R.UsernameInUse)
      else if NoIdLeft(r) then after == r && reply == R.Refused(R.NoUserIdLeft)
      else
        && reply.Granted? && reply.record.userId.Some? && reply.record == R.Record(Some(name), reply.record.userId)
        && R.LeastUnused(r.sessions, reply.record.userId.value) && reply.record.userId.value <= r.maximum
        && after.sessions == r.sessions[id := reply.record]
  {
    R.ClaimRefines(r, id, name);
  }

  lemma NameAnswers(r: R.Fields, s: Server, name: Bytes, luck: Luck)
    requires R.Inv(r) && Agrees(r.sessions, s) && s.state == AUTHENTICATING && ValidUsername(name)
    ensures
      var h := Authenticate(r, s, name, luck);
      if luck.mkdir == Some(PermissionError) then Complains(h, r, s, 0x0001, ACCESS_DENIED)
      else if luck.mkdir == Some(OtherOsError) then Complains(h, r, s, 0x0001, FILE_IO_ERROR)
      else if Taken(r.sessions, name) then Complains(h, r, s, 0x0001, USERNAME_IN_USE)
      else if NoIdLeft(r) then Complains(h, r, s, 0x0001, SERVER_BUSY)
      else Admits(h, r, s, name, luck.lost)
  {
    ClaimAnswers(r, s.id, name);
  }

  // What a session that waits for LOGIN makes of a packet that is meant for it, first
  // objection first.
  lemma LoginAnswers(r: R.Fields, s: Server, p: Packet, luck: Luck)
    requires R.Inv(r) && Agrees(r.sessions, s) && s.state == AUTHENTICATING && Addressed(s, p) && Accepted(p)
    ensures
      var h := Handle(r, s, p, luck);
      match p
      case Unknown(raw) => Complains(h, r, s, raw, UNSUPPORTED_OPCODE)
      case Garbled(_, op, why) =>
        Complains(h, r, s, OpcodeValue(op), if op == LOGIN then why else AUTHENTICATION_REQUIRED)
      case Packet(_, body) =>
        if !body.Login? then Complains(h, r, s, OpcodeValue(Kind(body)), AUTHENTICATION_REQUIRED)
        else if |body.username| > luck.maxName then Complains(h, r, s, 0x0001, INVALID_USERNAME)
        else if luck.mkdir == Some(PermissionError) then Complains(h, r, s, 0x0001, ACCESS_DENIED)
        else if luck.mkdir == Some(OtherOsError) then Complains(h, r, s, 0x0001, FILE_IO_ERROR)
        else if Taken(r.sessions, body.username) then Complains(h, r, s, 0x0001, USERNAME_IN_USE)
        else if NoIdLeft(r) then Complains(h, r, s, 0x0001, SERVER_BUSY)
        else Admits(h, r, s, body.username, luck.lost)
  {
    if p.Packet? && p.body.Login? { NameAnswers(r, s, p.body.username, luck); }
  }

  predicate NoLogin(ps: seq<Packet>) { forall p :: p in ps ==> !(p.Packet? && p.body.Login?) }

  // Without a LOGIN a session gets nowhere: whatever it receives, it sends ERROR
  // frames under USER_ID 0 only, holds no name, and leaves the registry alone.
  lemma {:induction false} NothingBeforeLogin(r: R.Fields, s: Server, ps: seq<Packet>, lucks: seq<Luck>)
    requires |lucks| == |ps| && R.Inv(r) && Agrees(r.sessions, s) && s.state == AUTHENTICATING && NoLogin(ps)
    ensures
      var h := ServeAll(r, s, ps, lucks);
      && h.registry == r && h.server == s.(state := CLOSING) && h.server.username.None?
      && forall p :: p in h.sent ==> p.Packet? && p.userId == 0 && p.body.Error?
    decreases |ps|
  {
    if ps != [] {
      if Addressed(s, ps[0]) {
        LoginAnswers(r, s, ps[0], lucks[0]);
        NothingBeforeLogin(r, s, ps[1..], lucks[1..]);
      } else {
        WrongIdAnswers(r, s, ps[0], lucks[0]);
      }
    }
  }
}
