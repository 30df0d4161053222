// Server sessions, the registry they share, and the clients they talk to: who
// is who on every connection.

module Identity {
  import opened Protocol
  import opened Messages
  import opened F = Fields
  import R = Registry

  datatype SessionState = CONNECTED | AUTHENTICATING | IDLE | RECEIVING_UPLOAD | SENDING_DOWNLOAD | CLOSING | CLOSED

  // The fields of a ServerSession; `id` is its key in the registry.
  datatype Server = Server(id: nat, state: SessionState, username: Option<Bytes>, userId: nat, authenticated: bool)

  // A frame with a payload the codecs accept, one with a payload they reject, and
  // one whose opcode is not defined.
  datatype Packet =
    | Packet(userId: nat, body: Message)
    | Garbled(userId: nat, op: Opcode, why: ErrorCode)
    | Unknown(raw: nat)

  // What the environment decides while a packet is handled: the configured limit
  // on names, a failing mkdir, a connection lost while answering, the listing,
  // what a transfer handler sends next and whether it is done.
  datatype Luck = Luck(
    maxName: nat, mkdir: Option<OsError>, lost: bool, listing: Message, sends: seq<Message>, done: bool)

  // What handling a packet leads to.
  datatype Handled = Handled(registry: R.Fields, server: Server, sent: seq<Packet>)

  function Fresh(id: nat): Server { Server(id, CONNECTED, None, NO_USER_ID, false) }

  predicate Serving(s: Server) { s.state == IDLE || Transferring(s) }

  predicate Transferring(s: Server) { s.state == RECEIVING_UPLOAD || s.state == SENDING_DOWNLOAD }

  // close, which run always reaches.
  function Close(s: Server): Server { Server(s.id, CLOSED, None, NO_USER_ID, false) }

  function Report(failed: nat, code: ErrorCode): Message { Error(failed, code, []) }

  // send: every frame is built with, and checked against, the session's USER_ID.
  function Send(s: Server, m: Message): seq<Packet> { [Packet(s.userId, m)] }

  function SendEach(s: Server, ms: seq<Message>): (ps: seq<Packet>)
    ensures forall p :: p in ps ==> p.Packet? && p.userId == s.userId
  {
    if ms == [] then [] else Send(s, ms[0]) + SendEach(s, ms[1..])
  }

  function Answer(r: R.Fields, s: Server, m: Message): Handled { Handled(r, s, Send(s, m)) }

  function OpOf(p: Packet): nat {
    match p
    case Packet(_, body) => OpcodeValue(Kind(body))
    case Garbled(_, op, _) => OpcodeValue(op)
    case Unknown(raw) => raw
  }

  // _authenticate. A refusal the source does not catch ends the session.
  ghost function Authenticate(r: R.Fields, s: Server, name: Bytes, luck: Luck): Handled {
    if luck.mkdir.Some? then Answer(r, s, Report(OpcodeValue(LOGIN), OsErrorCode(luck.mkdir.value)))
    else
      var (after, reply) := R.Claim(r, s.id, name);
      match reply
      case Refused(why) =>
        if why == R.UsernameInUse then Answer(after, s, Report(OpcodeValue(LOGIN), USERNAME_IN_USE))
        else if why == R.NoUserIdLeft then Answer(after, s, Report(OpcodeValue(LOGIN), SERVER_BUSY))
        else Handled(after, Close(s), [])
      case Granted(record) =>
        var id := if record.userId.Some? then record.userId.value else NO_USER_ID;
        var named := s.(username := record.username, userId := id);
        if luck.lost then Handled(after, Close(s), [])
        else Handled(after, named.(authenticated := true, state := IDLE), Send(named, Ack(LOGIN, 0)))
  }

  // _dispatch_authentication
  ghost function DispatchAuthentication(r: R.Fields, s: Server, p: Packet, luck: Luck): Handled {
    if OpOf(p) != OpcodeValue(LOGIN) then Answer(r, s, Report(OpOf(p), AUTHENTICATION_REQUIRED))
    else if p.Garbled? then Answer(r, s, Report(OpOf(p), p.why))
    else if !p.Packet? || !p.body.Login? then Answer(r, s, Report(OpOf(p), INVALID_PAYLOAD))
    else if |p.body.username| > luck.maxName then Answer(r, s, Report(OpOf(p), INVALID_USERNAME))
    else Authenticate(r, s, p.body.username, luck)
  }

  // A handler at work; finish_request once it is done.
  function Transfer(r: R.Fields, s: Server, luck: Luck): Handled {
    Handled(r, if luck.done then s.(state := IDLE) else s, SendEach(s, luck.sends))
  }

  // _dispatch
  function Dispatch(r: R.Fields, s: Server, p: Packet, luck: Luck): Handled {
    match p
    case Garbled(_, _, why) => Answer(r, s, Report(OpOf(p), why))
    case Unknown(raw) => Answer(r, s, Report(raw, UNSUPPORTED_OPCODE))
    case Packet(_, body) =>
      match body
      case Upload(_, _, _) => Transfer(r, s.(state := RECEIVING_UPLOAD), luck)
      case Download(_, _) => Transfer(r, s.(state := SENDING_DOWNLOAD), luck)
      case ListFiles => Answer(r, s, luck.listing)
      case Disconnect => Handled(r, s.(state := CLOSING), Send(s, Ack(DISCONNECT, 0)))
      case Login(_) => Answer(r, s, Report(OpOf(p), INVALID_USER_ID))
      case _ => Answer(r, s, Report(OpOf(p), UNSUPPORTED_OPCODE))
  }

  function Expected(s: Server): nat { if s.state == AUTHENTICATING then NO_USER_ID else s.userId }

  // A ProtocolError inside a handler is answered in the name of the request, and
  // the session is IDLE again.
  function Abandon(r: R.Fields, s: Server, code: ErrorCode): Handled {
    var request := if s.state == RECEIVING_UPLOAD then FILE_UPLOAD else FILE_DOWNLOAD;
    Answer(r, s.(state := IDLE), Report(OpcodeValue(request), code))
  }

  // receive, and what the state makes of the packet. A wrong USER_ID closes the
  // session between requests.
  ghost function Handle(r: R.Fields, s: Server, p: Packet, luck: Luck): Handled {
    if p.Unknown? then
      if Transferring(s) then Abandon(r, s, UNSUPPORTED_OPCODE) else Answer(r, s, Report(p.raw, UNSUPPORTED_OPCODE))
    else if p.userId != Expected(s) then
      if Transferring(s) then Abandon(r, s, INVALID_USER_ID)
      else Answer(r, s.(state := CLOSING), Report(OpOf(p), INVALID_USER_ID))
    else if s.state == AUTHENTICATING then DispatchAuthentication(r, s, p, luck)
    else if s.state == IDLE then Dispatch(r, s, p, luck)
    else Transfer(r, s, luck)
  }

  // ----- what a session has in common with its record -----

  function IdOf(userId: nat): Option<nat> { if userId == NO_USER_ID then None else Some(userId) }

  // A session that is not closed is in the registry under the identity it holds
  // itself, and holds one exactly when it is past LOGIN.
  predicate Agrees(sessions: map<nat, R.Record>, s: Server) {
    if s.state == CLOSED then s == Close(s)
    else
      && s.id in sessions && sessions[s.id] == R.Record(s.username, IdOf(s.userId))
      && (s.username.Some? <==> s.userId != NO_USER_ID) && s.userId <= MAX_USER_ID
      && (s.username.Some? <==> s.authenticated)
      && (s.state == CONNECTED || s.state == AUTHENTICATING ==> s.username.None?)
      && (Serving(s) ==> s.username.Some?)
  }

  // The records of other sessions are not touched.
  predicate OthersKept(before: map<nat, R.Record>, after: map<nat, R.Record>, id: nat) {
    before - {id} == after - {id}
  }

  // What a granted claim leaves in the registry.
  predicate Claimed(before: map<nat, R.Record>, after: map<nat, R.Record>, s: nat, record: R.Record) {
    && OthersKept(before, after, s) && s in after && after[s] == record
    && record.username.Some? && record.userId.Some? && NO_USER_ID < record.userId.value <= MAX_USER_ID
  }

  lemma GrantedAgain(r: R.Fields, s: nat)
    requires R.Inv(r) && s in r.sessions && r.sessions[s].username.Some?
    ensures Claimed(r.sessions, r.sessions, s, r.sessions[s])
  {
    assert R.Held(r.sessions, r.sessions[s].userId.value);
  }

  lemma ClaimEffect(r: R.Fields, s: nat, username: Bytes)
    requires R.Inv(r)
    ensures
      var (after, reply) := R.Claim(r, s, username);
      match reply
      case Granted(record) => Claimed(r.sessions, after.sessions, s, record)
      case Refused(_) => after == r
  {
    if R.Early(r, s, username).None? {
      if R.NewId(r).Some? {
        R.NewIdIsUnused(r);
        var record := R.Record(Some(username), R.NewId(r));
        assert r.sessions[s := record] - {s} == r.sessions - {s};
      }
    } else if R.Early(r, s, username).value.Granted? {
      GrantedAgain(r, s);
    }
  }

  // What handling a packet keeps: the registry's own invariant, the session's
  // agreement with its record, the records of the other sessions; and that every
  // frame sent carries the session's USER_ID. Only a lost connection closes it.
  ghost predicate Sound(r: R.Fields, s: Server, h: Handled, lost: bool) {
    && R.Inv(h.registry)
    && Agrees(h.registry.sessions, h.server) && OthersKept(r.sessions, h.registry.sessions, s.id)
    && h.server.id == s.id
    && (h.server.state == CLOSED ==> lost)
    && forall p :: p in h.sent ==> p.Packet? && p.userId == h.server.userId
  }

  // The refusals that would end the session without an answer never occur: a
  // session that logs in is registered and has no name yet.
  lemma OnlyAnswerableRefusals(r: R.Fields, s: Server, name: Bytes)
    requires Agrees(r.sessions, s) && s.state == AUTHENTICATING && ValidUsername(name)
    ensures
      var reply := R.Claim(r, s.id, name).1;
      reply.Refused? ==> reply.why == R.UsernameInUse || reply.why == R.NoUserIdLeft
  {
  }

  lemma GrantedSound(r: R.Fields, s: Server, after: R.Fields, record: R.Record, named: Server, sent: seq<Packet>)
    requires R.Inv(after) && Claimed(r.sessions, after.sessions, s.id, record)
    requires named == Server(s.id, IDLE, record.username, record.userId.value, true)
    requires sent == Send(named, Ack(LOGIN, 0))
    ensures Sound(r, s, Handled(after, named, sent), false)
    ensures Sound(r, s, Handled(after, Close(s), []), true)
  {
  }

  lemma AuthenticateSound(r: R.Fields, s: Server, name: Bytes, luck: Luck)
    requires R.Inv(r) && Agrees(r.sessions, s) && s.state == AUTHENTICATING && ValidUsername(name)
    ensures Sound(r, s, Authenticate(r, s, name, luck), luck.lost)
  {
    R.ApplyKeeps(r, R.Claiming(s.id, name));
    ClaimEffect(r, s.id, name);
    OnlyAnswerableRefusals(r, s, name);
    var (after, reply) := R.Claim(r, s.id, name);
    var h := Authenticate(r, s, name, luck);
    if luck.mkdir.Some? || reply.Refused? {
      AnswerSound(r, s, s, h.sent[0].body, luck.lost);
    } else {
      var named := Server(s.id, IDLE, reply.record.username, reply.record.userId.value, true);
      GrantedSound(r, s, after, reply.record, named, Send(named, Ack(LOGIN, 0)));
    }
  }

  // The codecs accept valid usernames only.
  predicate Accepted(p: Packet) {
    p.Packet? && p.body.Login? ==> ValidUsername(p.body.username)
  }

  lemma TransferSound(r: R.Fields, s: Server, luck: Luck)
    requires R.Inv(r) && Agrees(r.sessions, s) && Transferring(s)
    ensures Sound(r, s, Transfer(r, s, luck), luck.lost)
  {
  }

  lemma AnswerSound(r: R.Fields, s: Server, after: Server, m: Message, lost: bool)
    requires R.Inv(r) && Agrees(r.sessions, after) && after.id == s.id && after.state != CLOSED
    ensures Sound(r, s, Answer(r, after, m), lost)
  {
  }

  lemma BeginSound(r: R.Fields, s: Server, to: SessionState, luck: Luck)
    requires R.Inv(r) && Agrees(r.sessions, s) && s.state == IDLE && (to == RECEIVING_UPLOAD || to == SENDING_DOWNLOAD)
    ensures Sound(r, s, Transfer(r, s.(state := to), luck), luck.lost)
  {
    TransferSound(r, s.(state := to), luck);
  }

  // What begins no transfer is answered with one frame, and ends the session only
  // on DISCONNECT.
  lemma DispatchAnswers(r: R.Fields, s: Server, p: Packet, luck: Luck)
    requires p.Packet? ==> !p.body.Upload? && !p.body.Download?
    ensures
      var h := Dispatch(r, s, p, luck);
      && |h.sent| == 1 && h.sent[0].Packet? && h.sent[0].userId == s.userId
      && h == Handled(r, h.server, Send(s, h.sent[0].body))
      && (h.server == s || h.server == s.(state := CLOSING))
  {
  }

  lemma DispatchSound(r: R.Fields, s: Server, p: Packet, luck: Luck)
    requires R.Inv(r) && Agrees(r.sessions, s) && s.state == IDLE
    ensures Sound(r, s, Dispatch(r, s, p, luck), luck.lost)
  {
    if p.Packet? && (p.body.Upload? || p.body.Download?) {
      BeginSound(r, s, if p.body.Upload? then RECEIVING_UPLOAD else SENDING_DOWNLOAD, luck);
    } else {
      var h := Dispatch(r, s, p, luck);
      DispatchAnswers(r, s, p, luck);
      AnswerSound(r, s, h.server, h.sent[0].body, luck.lost);
    }
  }

  lemma DispatchAuthenticationSound(r: R.Fields, s: Server, p: Packet, luck: Luck)
    requires R.Inv(r) && Agrees(r.sessions, s) && s.state == AUTHENTICATING && Accepted(p)
    ensures Sound(r, s, DispatchAuthentication(r, s, p, luck), luck.lost)
  {
    if p.Packet? && p.body.Login? && |p.body.username| <= luck.maxName {
      AuthenticateSound(r, s, p.body.username, luck);
    } else {
      var h := DispatchAuthentication(r, s, p, luck);
      AnswerSound(r, s, s, h.sent[0].body, luck.lost);
    }
  }

  lemma HandleSound(r: R.Fields, s: Server, p: Packet, luck: Luck)
    requires R.Inv(r) && Agrees(r.sessions, s) && (s.state == AUTHENTICATING || Serving(s)) && Accepted(p)
    ensures Sound(r, s, Handle(r, s, p, luck), luck.lost)
  {
    var h := Handle(r, s, p, luck);
    if p.Unknown? || p.userId != Expected(s) {
      AnswerSound(r, s, h.server, h.sent[0].body, luck.lost);
    } else if s.state == AUTHENTICATING {
      DispatchAuthenticationSound(r, s, p, luck);
    } else if s.state == IDLE {
      DispatchSound(r, s, p, luck);
    } else {
      TransferSound(r, s, luck);
    }
  }
}
