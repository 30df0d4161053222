// What a download is answered, and that the answer reaches the caller: how a
// request that cannot be served ends, and why a call raises.

module DownloadAnswers {
  import opened Protocol
  import opened Transfer
  import opened Tiling
  import opened DownloadSystem
  import opened DownloadProof
  import opened DownloadTheorems

  // ----- a request that cannot be served -----

  // The reason there is not to serve a request, the first of them if there are more.
  predicate Unservable(file: Option<Bytes>, offset: nat, o: Outcome, code: ErrorCode) {
    if file.None? then code == FILE_NOT_FOUND
    else if o == Fault(PermissionError) then code == ACCESS_DENIED
    else if o == Fault(OtherOsError) then code == FILE_IO_ERROR
    else offset > |file.value| && code == INVALID_PAYLOAD
  }

  lemma Declined(env: Env, s: System, o: Outcome, code: ErrorCode)
    requires s.server.Locating? && Unservable(s.file, s.server.offset, o, code)
    ensures Step(env, s, ServerIo(o)) == s.(server := Replying(Error(FILE_DOWNLOAD, code)))
  {
  }

  lemma Told(env: Env, s: System, m: Msg)
    requires s.server == Replying(m) && s.connected && s.down == []
    ensures Step(env, s, ServerSend(true)) == s.(server := Idle, down := [m])
  {
    assert [] + [m] == [m];
  }

  lemma CalledOff(env: Env, s: System, op: Opcode, code: ErrorCode)
    requires s.client.Asking? && s.down == [Error(op, code)]
    ensures
      Step(env, Step(env, s, ClientReceive(Done)), ClientOp(Done)) ==
        s.(client := Ready(Raised(code)), down := [], disk := s.disk.(part := None, shared := false))
  {
    assert Step(env, s, ClientReceive(Done)) == s.(client := Cleaning(code), down := []);
  }

  // A request for a missing file raises FILE_NOT_FOUND, one for a file the server
  // cannot open raises the code of that error, and one from beyond the end
  // INVALID_PAYLOAD; the stale .part is gone then, and the session is free.
  lemma UnservableIsRefused(env: Env, s: System, history: seq<Label>, o: Outcome, code: ErrorCode)
    requires Init(s) && env.chunk > 0
    requires
      var t := Run(env, s, history);
      && t.connected && t.client.Asking? && t.server.Locating?
      && Unservable(t.file, t.client.resume, o, code)
    ensures
      var t := Step(env, Step(env, Run(env, s, history), ServerIo(o)), ServerSend(true));
      var u := Step(env, Step(env, t, ClientReceive(Done)), ClientOp(Done));
      && u.client == Ready(Raised(code)) && u.disk.part.None? && u.disk.final.None?
      && u.connected && u.server.Idle? && u.up == [] && u.down == []
  {
    ReachableInv(env, s, history);
    var t := Run(env, s, history);
    Declined(env, t, o, code);
    Told(env, Step(env, t, ServerIo(o)), Error(FILE_DOWNLOAD, code));
    CalledOff(env, Step(env, Step(env, t, ServerIo(o)), ServerSend(true)), FILE_DOWNLOAD, code);
  }

  // ----- an answer the server did not ask for -----

  // What is wrong with frame `m` in place of ACK(op, next), other than that it is an
  // ERROR, which is not answered.
  predicate WrongAck(m: Msg, op: Opcode, next: nat, code: ErrorCode) {
    if m.Ack? && m.op == op then m.next != next && code == OFFSET_MISMATCH
    else !m.Error? && code == INVALID_STATE
  }

  // The acknowledgement the server waits for.
  predicate Awaits(s: System, op: Opcode, next: nat) {
    || (s.server == AwaitInfo(next) && op == FILE_INFO)
    || (s.server.AwaitFinal? && op == FILE_CHECKSUM && s.file.Some? && next == |s.file.value|)
  }

  // It goes on with that acknowledgement and nothing else: an ERROR ends the request
  // as it is, any other frame is answered once.
  lemma AcknowledgementIsJudged(env: Env, s: System, m: Msg, op: Opcode, next: nat, code: ErrorCode)
    requires Awaits(s, op, next) && s.up != [] && s.up[0] == m && s.connected && s.down == []
    ensures
      var t := Step(env, s, ServerReceive);
      && (m == Ack(op, next) ==>
            t == s.(server := if op == FILE_INFO then Sending(next, next) else Idle, up := s.up[1..]))
      && (m.Error? ==> t == s.(server := Idle, up := s.up[1..]))
      && (WrongAck(m, op, next, code) ==>
            Step(env, t, ServerSend(true)) == s.(server := Idle, up := s.up[1..], down := [Error(op, code)]))
  {
    if WrongAck(m, op, next, code) {
      assert Step(env, s, ServerReceive) == s.(server := Replying(Error(op, code)), up := s.up[1..]);
      Told(env, Step(env, s, ServerReceive), Error(op, code));
    }
  }

  // ----- a frame the client did not ask for -----

  // The first thing wrong with frame `m` of the receive loop, and what the server is
  // told about it.
  predicate Wrong(env: Env, n: Count, m: Msg, code: ErrorCode, told: seq<Msg>) {
    match m
    case Error(_, c) => code == c && told == []
    case Chunk(offset, data) =>
      if data == [] || |data| > env.chunk then code == INVALID_PAYLOAD && told == []
      else if offset != n.received then code == OFFSET_MISMATCH && told == [Error(FILE_CHUNK, OFFSET_MISMATCH)]
      else n.received + |data| > n.total && code == SIZE_MISMATCH && told == [Error(FILE_CHUNK, SIZE_MISMATCH)]
    case Checksum(size, digest) =>
      if size != n.total || n.received != n.total then
        code == SIZE_MISMATCH && told == [Error(FILE_CHECKSUM, SIZE_MISMATCH)]
      else
        digest != env.hash(n.hashed) && code == CHECKSUM_MISMATCH && told == [Error(FILE_CHECKSUM, CHECKSUM_MISMATCH)]
    case _ => code == INVALID_STATE && told == [Error(Transfer.Kind(m), INVALID_STATE)]
  }

  lemma WrongTaken(env: Env, s: System, m: Msg, code: ErrorCode, told: seq<Msg>)
    requires s.client.Receiving? && s.down != [] && s.down[0] == m && Wrong(env, s.client.c, m, code, told)
    ensures
      Step(env, s, ClientReceive(Done)) ==
        s.(client := if told == [] then Cleaning(code) else Reporting(told[0], false),
           down := s.down[1..], disk := Close(s.disk))
  {
  }

  lemma ReportSaid(env: Env, s: System, op: Opcode, code: ErrorCode)
    requires s.client == Reporting(Error(op, code), false) && s.connected
    ensures Step(env, s, ClientSend) == s.(client := Cleaning(code), up := s.up + [Error(op, code)])
  {
  }

  lemma Cleaned(env: Env, s: System, code: ErrorCode)
    requires s.client == Cleaning(code)
    ensures
      Step(env, s, ClientOp(Done)) == s.(client := Ready(Raised(code)), disk := s.disk.(part := None, shared := false))
    ensures Step(env, s, ClientOp(Fault(OtherOsError))) == s.(client := Ready(Raised(FILE_IO_ERROR)))
  {
  }

  // Whatever a server sends in place of the next chunk or the checksum raises the code
  // due to it, on a session that stays open, after the one report due to it; nothing of
  // the partial file is kept.
  lemma WrongFrameRaises(env: Env, s: System, m: Msg, code: ErrorCode, told: seq<Msg>)
    requires s.client.Receiving? && s.down != [] && s.down[0] == m && Wrong(env, s.client.c, m, code, told)
    requires s.connected
    ensures
      var t := Step(env, s, ClientReceive(Done));
      var u := Step(env, if told == [] then t else Step(env, t, ClientSend), ClientOp(Done));
      && u.client == Ready(Raised(code)) && u.up == s.up + told && u.down == s.down[1..] && u.connected
      && u.disk.part.None? && u.disk.buffer == []
  {
    WrongTaken(env, s, m, code, told);
    var t := Step(env, s, ClientReceive(Done));
    if told != [] { ReportSaid(env, t, told[0].op, code); }
    Cleaned(env, if told == [] then t else Step(env, t, ClientSend), code);
  }

  // The steps at which an OSError of the client is reported and raised.
  function LocalStep(c: Client): Option<Opcode> {
    if c.Preparing? || c.Opening? then Some(FILE_INFO)
    else if c.Syncing? || c.Linking? || c.Unlinking? then Some(FILE_CHECKSUM)
    else None
  }

  lemma LocalFault(env: Env, s: System, e: OsError)
    requires LocalStep(s.client).Some? && s.connected
    ensures
      var code := if e == PermissionError then ACCESS_DENIED else FILE_IO_ERROR;
      var t := Step(env, s, ClientOp(Fault(e)));
      t == s.(client := Reporting(Error(LocalStep(s.client).value, code), false), disk := t.disk)
  {
  }

  // An error of the client's own file system is told to the server and raised.
  lemma LocalErrorRaises(env: Env, s: System, e: OsError)
    requires LocalStep(s.client).Some? && s.connected
    ensures
      var op, code := LocalStep(s.client).value, if e == PermissionError then ACCESS_DENIED else FILE_IO_ERROR;
      var t := Step(env, Step(env, Step(env, s, ClientOp(Fault(e))), ClientSend), ClientOp(Done));
      t.client == Ready(Raised(code)) && t.up == s.up + [Error(op, code)] && t.disk.part.None? && t.connected
  {
    var op, code := LocalStep(s.client).value, if e == PermissionError then ACCESS_DENIED else FILE_IO_ERROR;
    LocalFault(env, s, e);
    var t := Step(env, s, ClientOp(Fault(e)));
    ReportSaid(env, t, op, code);
    Cleaned(env, Step(env, t, ClientSend), code);
  }

  // But one in the middle of a chunk ends the session once it has been told, and what
  // was received is kept for the next call.
  lemma FailedWriteKeepsPart(env: Env, s: System, e: OsError)
    requires s.client.Receiving? && s.down != [] && s.down[0].Chunk? && ChunkOk(env, s.down[0].data) && s.connected
    requires s.down[0].offset == s.client.c.received && s.client.c.received + |s.down[0].data| <= s.client.c.total
    requires s.disk.part.Some?
    ensures
      var code := if e == PermissionError then ACCESS_DENIED else FILE_IO_ERROR;
      var t := Step(env, Step(env, s, ClientReceive(Fault(e))), ClientSend);
      && t.client.Severed? && !t.connected && t.up == s.up + [Error(FILE_CHUNK, code)]
      && t.disk.part == Some(s.disk.part.value + s.disk.buffer)
  {
    assert s.disk.part.value + [] == s.disk.part.value;
  }

  // ----- a publication, operation by operation -----

  // The checksum fits what was received; what is buffered is written out and synced
  // before the destination is linked, and the acknowledgement is sent last.
  lemma PublishedInOrder(env: Env, s: System)
    requires s.client.Receiving? && s.connected && s.disk.part.Some? && s.disk.final.None? && !s.disk.shared
    requires s.client.c.received == s.client.c.total
    requires s.down == [Checksum(s.client.c.total, env.hash(s.client.c.hashed))]
    ensures
      var n, whole := s.client.c, s.disk.part.value + s.disk.buffer;
      var synced := Step(env, Step(env, s, ClientReceive(Done)), ClientOp(Done));
      var linked := Step(env, synced, ClientOp(Done));
      var alone := Step(env, linked, ClientOp(Done));
      && synced == s.(client := Linking(n), down := [], disk := Local(None, Some(whole), [], false))
      && linked == synced.(client := Unlinking(n), disk := Local(Some(whole), Some(whole), [], true))
      && alone == linked.(client := Confirming(n), disk := Local(Some(whole), None, [], false))
      && Step(env, alone, ClientSend) ==
           alone.(client := Ready(Returned(n.received, env.hash(n.hashed))),
                  up := s.up + [Ack(FILE_CHECKSUM, n.received)])
  {
    assert s.disk.part.value + [] == s.disk.part.value;
    assert Step(env, s, ClientReceive(Done)) == s.(client := Syncing(s.client.c), down := []);
  }

  // ----- why a call raises -----

  // The codes a download of this client ends with, and what they say. A client whose
  // .part is a prefix of the file does not see the last two.
  predicate Because(file: Option<Bytes>, d: Local, code: ErrorCode, honest: bool) {
    match code
    case FILE_EXISTS => d.final.Some?
    case FILE_NOT_FOUND => file.None?
    case ACCESS_DENIED => file.Some?
    case FILE_IO_ERROR => true
    case INVALID_PAYLOAD => file.Some? && !honest
    case CHECKSUM_MISMATCH => file.Some? && !honest
    case _ => false
  }

  function Carried(c: Client): Option<ErrorCode> {
    match c
    case Cleaning(code) => Some(code)
    case Reporting(m, _) => if m.Error? then Some(m.code) else None
    case Ready(last) => if last.Raised? then Some(last.code) else None
    case _ => None
  }

  ghost predicate Caused(s: System, honest: bool) {
    && (Carried(s.client).Some? ==> Because(s.file, s.disk, Carried(s.client).value, honest))
    && (forall m :: m in s.down && m.Error? ==> Because(s.file, s.disk, m.code, honest))
    && (s.connected && s.server.Replying? && s.server.m.Error? ==> Because(s.file, s.disk, s.server.m.code, honest))
  }

  // What the file says of a run whose .part is always a prefix of it.
  ghost predicate Fair(s: System, honest: bool) {
    honest ==> s.file.None? || Honest(s, s.file.value)
  }

  ghost predicate Stands(env: Env, s: System, known: bool, honest: bool) {
    Inv(env, s, known) && Caused(s, honest) && Fair(s, honest) && (honest ==> known)
  }

  lemma ChunkFits(env: Env, s: System, known: bool)
    requires Inv(env, s, known) && s.client.Receiving? && s.down != [] && s.down[0].Chunk?
    ensures
      var m := s.down[0];
      0 < |m.data| <= env.chunk && m.offset == s.client.c.received && s.client.c.received + |m.data| <= s.client.c.total
  {
  }

  lemma ChecksumFits(env: Env, s: System, known: bool)
    requires Inv(env, s, known) && s.client.Receiving? && s.down != [] && !s.down[0].Chunk?
    ensures s.file.Some? && s.down[0] == Checksum(s.client.c.total, env.hash(s.file.value))
    ensures s.client.c.received == s.client.c.total
  {
    EndBound(env, s.down, s.client.c.received, s.file.value);
  }

  lemma ReceivingCaused(env: Env, s: System, writes: Outcome, known: bool, honest: bool)
    requires Stands(env, s, known, honest) && s.client.Receiving? && s.down != []
    ensures
      var e := TakeFrame(env, s.disk, s.client.c, s.down[0], writes);
      && (Carried(e.next).Some? ==> Because(s.file, e.disk, Carried(e.next).value, honest))
      && e.disk.final.Some? == s.disk.final.Some?
  {
    if s.down[0].Chunk? {
      ChunkFits(env, s, known);
    } else {
      ChecksumFits(env, s, known);
      if honest { assert s.client.c.hashed == s.file.value; }
    }
  }

  lemma AskingCaused(env: Env, s: System, writes: Outcome, known: bool, honest: bool)
    requires Stands(env, s, known, honest) && s.client.Asking? && s.down != []
    ensures
      var e := ClientTakes(env, s.disk, s.client, s.down[0], writes);
      && (Carried(e.next).Some? ==> Because(s.file, e.disk, Carried(e.next).value, honest))
      && e.disk == s.disk && !e.next.Severed?
  {
    assert s.down[0] in s.down;
  }

  lemma ReceiveCaused(env: Env, s: System, writes: Outcome, known: bool, honest: bool)
    requires Stands(env, s, known, honest)
    ensures Caused(Step(env, s, ClientReceive(writes)), honest)
  {
    if s.down != [] {
      assert forall m :: m in s.down[1..] ==> m in s.down;
      if s.client.Asking? { AskingCaused(env, s, writes, known, honest); }
      if s.client.Receiving? { ReceivingCaused(env, s, writes, known, honest); }
    }
  }

  lemma ServerCaused(env: Env, s: System, l: Label, known: bool, honest: bool)
    requires Stands(env, s, known, honest) && env.chunk > 0
    requires l.ServerIo? || l.ServerReceive? || l.ServerKill?
    ensures Caused(Step(env, s, l), honest)
  {
  }

  lemma SendCaused(env: Env, s: System, ok: bool, known: bool, honest: bool)
    requires Stands(env, s, known, honest) && env.chunk > 0
    ensures Caused(Step(env, s, ServerSend(ok)), honest)
  {
  }

  lemma ClientCaused(env: Env, s: System, l: Label, known: bool, honest: bool)
    requires Stands(env, s, known, honest) && env.chunk > 0
    requires l.Begin? || l.Reconnect? || l.ClientSend? || l.ClientAbort? || l.ClientKill?
    ensures Caused(Step(env, s, l), honest)
  {
  }

  lemma OpEffect(d: Local, c: Client, o: Outcome, file: Option<Bytes>, honest: bool)
    requires Carried(c).Some? ==> Because(file, d, Carried(c).value, honest)
    requires c.Preparing? || c.Opening? || c.Syncing? || c.Linking? || c.Unlinking? ==> file.Some?
    ensures
      var e := ClientIo(d, c, o);
      && (Carried(e.next).Some? ==> Because(file, e.disk, Carried(e.next).value, honest))
      && (d.final.Some? ==> e.disk.final.Some?)
  {
  }

  // A destination that is there stays there.
  lemma StillBecause(file: Option<Bytes>, d: Local, e: Local, code: ErrorCode, honest: bool)
    requires Because(file, d, code, honest) && (d.final.Some? ==> e.final.Some?)
    ensures Because(file, e, code, honest)
  {
  }

  lemma OpCaused(env: Env, s: System, o: Outcome, known: bool, honest: bool)
    requires Stands(env, s, known, honest)
    ensures Caused(Step(env, s, ClientOp(o)), honest)
  {
    OpEffect(s.disk, s.client, o, s.file, honest);
    var t := Step(env, s, ClientOp(o));
    forall m | m in t.down && m.Error? ensures Because(t.file, t.disk, m.code, honest) {
      StillBecause(s.file, s.disk, t.disk, m.code, honest);
    }
    if t.connected && t.server.Replying? && t.server.m.Error? {
      StillBecause(s.file, s.disk, t.disk, t.server.m.code, honest);
    }
  }

  lemma OtherCaused(env: Env, s: System, l: Label, known: bool, honest: bool)
    requires Stands(env, s, known, honest) && env.chunk > 0 && (l.Flush? || l.Loss?)
    ensures Caused(Step(env, s, l), honest)
  {
  }

  lemma StepCaused(env: Env, s: System, l: Label, known: bool, honest: bool)
    requires Stands(env, s, known, honest) && env.chunk > 0
    ensures Caused(Step(env, s, l), honest)
  {
    match l
    case ClientReceive(writes) => ReceiveCaused(env, s, writes, known, honest);
    case ClientOp(o) => OpCaused(env, s, o, known, honest);
    case ServerSend(ok) => SendCaused(env, s, ok, known, honest);
    case ServerIo(_) => ServerCaused(env, s, l, known, honest);
    case ServerReceive => ServerCaused(env, s, l, known, honest);
    case ServerKill => ServerCaused(env, s, l, known, honest);
    case Flush(_) => OtherCaused(env, s, l, known, honest);
    case Loss(_, _) => OtherCaused(env, s, l, known, honest);
    case _ => ClientCaused(env, s, l, known, honest);
  }

  lemma {:induction false} RunCaused(env: Env, s: System, schedule: seq<Label>)
    requires Init(s) && env.chunk > 0
    ensures Caused(Run(env, s, schedule), false)
  {
    if schedule != [] {
      var front, last := schedule[..|schedule| - 1], schedule[|schedule| - 1];
      RunCaused(env, s, front);
      ReachableInv(env, s, front);
      StepCaused(env, Run(env, s, front), last, LastSizeKnown(env, s, front), false);
    }
  }

  // A call that raised did so for one of these reasons: the destination was there
  // already, the server has no such file, an error of a file system, or a .part that
  // is not the beginning of the server's file.
  lemma RaisedForACause(env: Env, s: System, schedule: seq<Label>)
    requires Init(s) && env.chunk > 0
    ensures
      var t := Run(env, s, schedule);
      t.client.Ready? && t.client.last.Raised? ==>
        var code := t.client.last.code;
        && code in {FILE_EXISTS, FILE_NOT_FOUND, ACCESS_DENIED, FILE_IO_ERROR, INVALID_PAYLOAD, CHECKSUM_MISMATCH}
        && (code == FILE_EXISTS ==> t.disk.final.Some?)
        && (code == FILE_NOT_FOUND ==> t.file.None?)
        && (code in {INVALID_PAYLOAD, CHECKSUM_MISMATCH, ACCESS_DENIED} ==> t.file.Some?)
  {
    RunCaused(env, s, schedule);
  }

  lemma StepFile(env: Env, s: System, l: Label)
    ensures Step(env, s, l).file == s.file
  {
  }

  lemma {:induction false} SameFile(env: Env, s: System, schedule: seq<Label>)
    ensures Run(env, s, schedule).file == s.file
  {
    if schedule != [] {
      var front := schedule[..|schedule| - 1];
      SameFile(env, s, front);
      StepFile(env, Run(env, s, front), schedule[|schedule| - 1]);
    }
  }

  // Of an absent file no call returns, and one that raised was told so, unless its
  // own stale .part could not be removed.
  lemma AbsentFile(env: Env, s: System, schedule: seq<Label>)
    requires Init(s) && env.chunk > 0 && s.file.None?
    ensures
      var t := Run(env, s, schedule);
      && t.disk.final.None?
      && (t.client.Ready? ==> t.client.last in {Fresh, Raised(FILE_NOT_FOUND), Raised(FILE_IO_ERROR)})
  {
    RunCaused(env, s, schedule);
    ReachableInv(env, s, schedule);
    SameFile(env, s, schedule);
  }

  lemma {:induction false} HonestCaused(env: Env, s: System, schedule: seq<Label>, f: Bytes)
    requires Init(s) && env.chunk > 0 && SizesKnown(env, s, schedule) && Honest(s, f)
    ensures Caused(Run(env, s, schedule), true)
  {
    if schedule != [] {
      var front, last := schedule[..|schedule| - 1], schedule[|schedule| - 1];
      HonestCaused(env, s, front, f);
      HonestRun(env, s, front, f);
      StepCaused(env, Run(env, s, front), last, true, true);
    }
  }

  // A client that only ever resumed downloads of this file, and knew the size of its
  // .part each time, is never told that what it has does not fit.
  lemma OwnPartsFit(env: Env, s: System, schedule: seq<Label>, f: Bytes)
    requires Init(s) && env.chunk > 0 && SizesKnown(env, s, schedule)
    requires s.file == Some(f) && (s.disk.part.Some? ==> s.disk.part.value <= f)
    ensures
      var t := Run(env, s, schedule);
      t.client.Ready? && t.client.last.Raised? ==>
        var code := t.client.last.code;
        code in {FILE_EXISTS, ACCESS_DENIED, FILE_IO_ERROR} && (code == FILE_EXISTS ==> t.disk.final == Some(f))
  {
    if s.disk.part.Some? { assert s.disk.part.value + [] == s.disk.part.value; }
    HonestCaused(env, s, schedule, f);
    HonestRun(env, s, schedule, f);
    SameFile(env, s, schedule);
  }
}
