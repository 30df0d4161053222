// What an upload is answered, and that the answer reaches the caller: what
// becomes of an expired pair and of an existing target, and why a call raises.

module UploadAnswers {
  import opened Protocol
  import opened Files
  import opened Transfer
  import opened Tiling
  import opened UploadSteps
  import opened UploadSystem
  import opened UploadInvariant
  import opened UploadProof
  import opened UploadTheorems

  // ----- an expired pair -----

  // The server is on its way to acknowledge offset 0, or has failed.
  predicate FromZero(d: Disk, p: Phase) {
    match p
    case Purging(metaOnly, then_) => then_.ToDecide? && then_.j.received == 0 && (metaOnly ==> d.part.None?)
    case Deciding(j) => j.received == 0 && d.part.None? && d.meta.None?
    case Opening(j) => j.received == 0
    case Truncating(j) => j.received == 0
    case Saving(j, data, save) => j.received == 0 && data == []
    case Acking(j) => j.received == 0
    case Replying(m, _) => m.Error? && m.op == FILE_UPLOAD
    case _ => p.Idle? || p.Closed?
  }

  function Io(outcomes: seq<Outcome>): (labels: seq<Label>)
    ensures |labels| == |outcomes|
  {
    seq(|outcomes|, i requires 0 <= i < |outcomes| => ServerIo(outcomes[i]))
  }

  lemma StepFromZero(env: Env, s: System, o: Outcome)
    requires !env.quietFails && FromZero(s.disk, s.server)
    ensures var t := Step(env, s, ServerIo(o)); FromZero(t.disk, t.server)
  {
  }

  lemma {:induction false} RunFromZero(env: Env, s: System, outcomes: seq<Outcome>)
    requires !env.quietFails && FromZero(s.disk, s.server)
    ensures var t := Run(env, s, Io(outcomes)); FromZero(t.disk, t.server)
  {
    if outcomes != [] {
      var front := outcomes[..|outcomes| - 1];
      RunFromZero(env, s, front);
      assert Io(outcomes)[..|outcomes| - 1] == Io(front);
      StepFromZero(env, Run(env, s, Io(front)), outcomes[|outcomes| - 1]);
    }
  }

  lemma ExpiredStep(env: Env, s: System)
    requires s.server.Starting? && s.disk.target.None?
    ensures Step(env, s, ServerIo(Expired)) == s.(server := Purging(false, ToDecide(s.server.j)))
  {
  }

  lemma PairRemoved(env: Env, s: System, j: Job, o1: Outcome, o2: Outcome)
    requires !env.quietFails && s.server == Purging(false, ToDecide(j))
    ensures
      Step(env, Step(env, s, ServerIo(o1)), ServerIo(o2)) ==
        s.(server := Deciding(j), disk := s.disk.(part := None, meta := None, shared := false))
  {
    assert Step(env, s, ServerIo(o1)) ==
      s.(server := Purging(true, ToDecide(j)), disk := s.disk.(part := None, shared := false));
  }

  // A pair older than its time to live is removed before the server decides where
  // to resume, so the decision is to begin a new pair.
  lemma ExpiredPairIsRemoved(env: Env, s: System, o1: Outcome, o2: Outcome, o3: Outcome)
    requires !env.quietFails && s.server.Starting? && s.disk.target.None?
    ensures
      var u := Step(env, Step(env, Step(env, s, ServerIo(Expired)), ServerIo(o1)), ServerIo(o2));
      && u.server == Deciding(s.server.j) && u.disk.part.None? && u.disk.meta.None? && u.disk.target.None?
      && Step(env, u, ServerIo(o3)).server == Opening(s.server.j)
  {
    ExpiredStep(env, s);
    PairRemoved(env, Step(env, s, ServerIo(Expired)), s.server.j, o1, o2);
  }

  // Whatever happens on the disk until then, the offset acknowledged after the
  // removal of an expired pair is 0.
  lemma ExpiredPairStartsOver(env: Env, s: System, history: seq<Label>, outcomes: seq<Outcome>)
    requires Init(s) && env.chunk > 0 && !env.quietFails
    requires var t := Run(env, s, history); t.server.Starting? && t.disk.target.None?
    ensures
      var u := Run(env, Step(env, Run(env, s, history), ServerIo(Expired)), Io(outcomes));
      u.server.Acking? ==> Outgoing(u.server) == Some(Ack(FILE_UPLOAD, 0))
  {
    ReachableInv(env, s, history);
    var t := Run(env, s, history);
    ExpiredStep(env, t);
    RunFromZero(env, Step(env, t, ServerIo(Expired)), outcomes);
  }

  // ----- metadata that cannot be replaced at once -----

  function Faults(errors: seq<OsError>): (outcomes: seq<Outcome>)
    ensures |outcomes| == |errors| && forall i :: 0 <= i < |errors| ==> outcomes[i] == Fault(errors[i])
  {
    seq(|errors|, i requires 0 <= i < |errors| => Fault(errors[i]))
  }

  lemma ReplaceFails(env: Env, s: System, j: Job, data: Bytes, attempt: nat, e: OsError)
    requires s.server == Saving(j, data, Swap(attempt)) && attempt < 6
    ensures
      Step(env, s, ServerIo(Fault(e))) ==
        if attempt < 5 then s.(server := Saving(j, data, Swap(attempt + 1)))
        else s.(server := Closed, connected := false, disk := s.disk.(temp := None))
  {
  }

  // Five failing replaces are made up for; the sixth ends the session, and either way
  // the metadata in place is the old one.
  lemma {:induction false} ReplaceIsRetried(env: Env, s: System, j: Job, data: Bytes, errors: seq<OsError>)
    requires s.server == Saving(j, data, Swap(0)) && |errors| <= 6
    ensures
      Run(env, s, Io(Faults(errors))) ==
        if |errors| < 6 then s.(server := Saving(j, data, Swap(|errors|)))
        else s.(server := Closed, connected := false, disk := s.disk.(temp := None))
  {
    if errors != [] {
      var front := errors[..|errors| - 1];
      ReplaceIsRetried(env, s, j, data, front);
      var labels := Io(Faults(errors));
      assert labels[..|errors| - 1] == Io(Faults(front)) && labels[|front|] == ServerIo(Fault(errors[|front|]));
      ReplaceFails(env, Run(env, s, Io(Faults(front))), j, data, |front|, errors[|front|]);
    }
  }

  // ----- an answer reaches the caller -----

  // What the client waits for.
  function Awaited(c: Client): Option<Opcode> {
    if c.AwaitOffset? then Some(FILE_UPLOAD) else if c.AwaitFinal? then Some(FILE_CHECKSUM) else None
  }

  // The server has an ERROR about what the client of a live connection waits for.
  predicate Reports(s: System, op: Opcode, code: ErrorCode) {
    && s.connected && Awaited(s.client) == Some(op)
    && s.server.Replying? && s.server.m == Error(op, code)
  }

  // A call whose request or checksum is refused raises with the code the server
  // gave, on a session that stays open.
  lemma ReportReachesCaller(env: Env, s: System, history: seq<Label>, code: ErrorCode, op: Opcode)
    requires Init(s) && env.chunk > 0
    requires Reports(Run(env, s, history), op, code) && (op == FILE_CHECKSUM ==> Run(env, s, history).down == [])
    ensures
      var t := Step(env, Step(env, Run(env, s, history), ServerSend(true)), ClientReceive);
      t.client == Ready(Raised(code)) && t.connected && t.up == [] && t.down == []
  {
    ReachableInv(env, s, history);
    var t := Run(env, s, history);
    var u := Step(env, t, ServerSend(true));
    assert u.down == [t.server.m];
    assert Step(env, u, ClientReceive).down == u.down[1..];
  }

  lemma Told(env: Env, s: System, m: Msg)
    requires s.server == Replying(m, false) && s.connected && s.down == []
    ensures Step(env, s, ServerSend(true)) == s.(server := Idle, down := [m])
  {
    assert [] + [m] == [m];
  }

  // The steps in which an OSError of the server is reported and nothing else happens.
  predicate Guarded(p: Phase) {
    p.Starting? || p.Opening? || p.Syncing? || p.Linking?
  }

  lemma FaultStep(env: Env, s: System, e: OsError)
    requires Guarded(s.server)
    ensures
      var op := if s.server.Starting? || s.server.Opening? then FILE_UPLOAD else FILE_CHECKSUM;
      var code := if e == PermissionError then ACCESS_DENIED else FILE_IO_ERROR;
      Step(env, s, ServerIo(Fault(e))) == s.(server := Replying(Error(op, code), false))
  {
  }

  // A file that the server may not touch, and one that fails otherwise, are told
  // apart, and what the disk held is kept for the next attempt.
  lemma FileErrorReachesCaller(env: Env, s: System, history: seq<Label>, e: OsError)
    requires Init(s) && env.chunk > 0
    requires var t := Run(env, s, history); t.connected && Awaited(t.client).Some? && Guarded(t.server)
    ensures
      var t := Run(env, s, history);
      var u := Step(env, Step(env, Step(env, t, ServerIo(Fault(e))), ServerSend(true)), ClientReceive);
      && u.client == Ready(Raised(if e == PermissionError then ACCESS_DENIED else FILE_IO_ERROR))
      && u.disk == t.disk && u.connected && u.server.Idle?
  {
    ReachableInv(env, s, history);
    var t := Run(env, s, history);
    FaultStep(env, t, e);
    var u := Step(env, t, ServerIo(Fault(e)));
    Told(env, u, u.server.m);
  }

  lemma MismatchStep(env: Env, s: System)
    requires s.server.Receiving? && s.up != [] && s.up[0].Checksum?
    requires s.server.j.received == s.server.j.total == s.up[0].size && s.up[0].digest != env.hash(s.server.j.fed)
    ensures
      Step(env, s, ServerReceive) ==
        s.(server := Replying(Error(FILE_CHECKSUM, CHECKSUM_MISMATCH), true), up := s.up[1..])
  {
  }

  lemma ToldAndPurged(env: Env, s: System, m: Msg, o1: Outcome, o2: Outcome)
    requires s.server == Replying(m, true) && s.connected && s.down == [] && !env.quietFails
    ensures
      Step(env, Step(env, Step(env, s, ServerSend(true)), ServerIo(o1)), ServerIo(o2)) ==
        s.(server := Idle, down := [m], disk := s.disk.(part := None, meta := None, shared := false))
  {
    assert [] + [m] == [m];
    var t := s.(server := Purging(false, ToRest(false)), down := [m]);
    assert Step(env, s, ServerSend(true)) == t;
    assert Step(env, t, ServerIo(o1)) ==
      t.(server := Purging(true, ToRest(false)), disk := t.disk.(part := None, shared := false));
  }

  // A checksum that does not fit what the server has received: the caller learns it,
  // and no pair is left to resume from.
  lemma MismatchReachesCaller(env: Env, s: System, history: seq<Label>, o1: Outcome, o2: Outcome)
    requires Init(s) && env.chunk > 0 && !env.quietFails
    requires
      var t := Run(env, s, history);
      && t.connected && t.client.AwaitFinal? && t.server.Receiving? && t.up != [] && t.up[0].Checksum?
      && t.up[0].digest != env.hash(t.server.j.fed)
    ensures
      var t := Step(env, Step(env, Run(env, s, history), ServerReceive), ServerSend(true));
      var u := Step(env, Step(env, Step(env, t, ServerIo(o1)), ServerIo(o2)), ClientReceive);
      && u.client == Ready(Raised(CHECKSUM_MISMATCH)) && u.server.Idle? && u.connected
      && u.disk.part.None? && u.disk.meta.None? && u.disk.target.None?
  {
    ReachableInv(env, s, history);
    var t := Run(env, s, history);
    assert t.up == [Checksum(t.server.j.received, env.hash(t.source))];
    EndBound(env, t.up, t.server.j.received, t.source);
    MismatchStep(env, t);
    var u := Step(env, t, ServerReceive);
    ToldAndPurged(env, u, u.server.m, o1, o2);
  }

  // What the client waits for completes its wait, an ERROR about it raises on an open
  // session, and any other frame closes the session.
  lemma AnswerIsJudged(env: Env, s: System, m: Msg, op: Opcode)
    requires Awaited(s.client) == Some(op) && s.down != [] && s.down[0] == m
    ensures
      var t := Step(env, s, ClientReceive);
      if m.Error? && m.op == op then t == s.(client := Ready(Raised(m.code)), down := s.down[1..])
      else if s.client.AwaitOffset? && m.Ack? && m.op == op && m.next <= |s.source| then
        t == s.(client := Streaming(m.next, s.source[..m.next]), down := s.down[1..])
      else if s.client.AwaitFinal? && m == Ack(op, s.client.sent) then
        t == s.(client := Ready(Returned(s.client.sent, s.client.digest)), down := s.down[1..])
      else t == s.(client := Severed, down := s.down[1..], connected := false)
  {
  }

  // ----- frames without a request -----

  // What is left of an attempt that has failed reaches the dispatcher: each chunk and
  // checksum is answered once, and none of them touches the disk.
  lemma StrayFrameIsRefused(env: Env, s: System, m: Msg)
    requires s.server.Idle? && s.up != [] && s.up[0] == m && (m.Chunk? || m.Checksum?)
    ensures
      var op := if m.Chunk? then FILE_CHUNK else FILE_CHECKSUM;
      var code := if m.Chunk? && (m.data == [] || |m.data| > env.chunk) then INVALID_PAYLOAD else UNSUPPORTED_OPCODE;
      Step(env, s, ServerReceive) == s.(server := Replying(Error(op, code), false), up := s.up[1..])
  {
  }

  // ----- an existing target -----

  lemma Request(env: Env, s: System, file: Bytes)
    requires s.server.Closed? && (s.client.Severed? || s.client.Ready?)
    ensures
      Step(env, Step(env, s, Reconnect(file)), ServerReceive) ==
        s.(server := Starting(Job(|file|, 0, 0, [])), client := AwaitOffset, source := file,
           up := [], down := [], connected := true)
  {
    assert [Upload(|file|, 0)][1..] == [];
  }

  lemma Refusal(env: Env, s: System)
    requires s.server.Starting? && s.disk.target.Some?
    ensures Step(env, s, ServerIo(Done)) == s.(server := Replying(Error(FILE_UPLOAD, FILE_EXISTS), false))
  {
  }

  // A request for a name that is taken ends after the four steps it takes to say so,
  // with FILE_EXISTS, and leaves the disk alone.
  lemma TakenNameIsRefused(env: Env, s: System, file: Bytes)
    requires s.disk.target.Some? && s.server.Closed? && (s.client.Severed? || s.client.Ready?)
    ensures
      var t := Step(env, Step(env, Step(env, s, Reconnect(file)), ServerReceive), ServerIo(Done));
      var u := Step(env, Step(env, t, ServerSend(true)), ClientReceive);
      u.client == Ready(Raised(FILE_EXISTS)) && u.disk == s.disk && u.connected && u.server.Idle?
  {
    Request(env, s, file);
    var a := Step(env, Step(env, s, Reconnect(file)), ServerReceive);
    Refusal(env, a);
    Told(env, Step(env, a, ServerIo(Done)), Error(FILE_UPLOAD, FILE_EXISTS));
  }

  // ----- what a resume is decided by -----

  // An earlier attempt of this user at this file and size left the pair.
  predicate Known(env: Env, d: Disk, j: Job) {
    && d.part.Some? && d.meta.Some? && d.meta.value.Saved?
    && var m := d.meta.value.meta;
    m.user == env.user && m.name == env.name && m.total == j.total && m.uploaded <= j.total
  }

  // It can be resumed from: as much is there as was recorded, and no more than declared.
  predicate Resumable(env: Env, d: Disk, j: Job) {
    Known(env, d, j) && d.meta.value.meta.uploaded <= |d.part.value| <= j.total
  }

  lemma PairDropped(env: Env, s: System, then_: Then, o1: Outcome, o2: Outcome)
    requires !env.quietFails && s.server == Purging(false, then_) && !then_.ToRest?
    ensures
      Step(env, Step(env, s, ServerIo(o1)), ServerIo(o2)) ==
        s.(server := if then_.ToDecide? then Deciding(then_.j) else if then_.ToOpen? then Opening(then_.j)
                     else Replying(then_.m, false),
           disk := s.disk.(part := None, meta := None, shared := false))
  {
    assert Step(env, s, ServerIo(o1)) ==
      s.(server := Purging(true, then_), disk := s.disk.(part := None, shared := false));
  }

  lemma UnknownPair(env: Env, s: System, j: Job, o: Outcome)
    requires s.server == Deciding(j) && !Known(env, s.disk, j) && (s.disk.part.Some? || s.disk.meta.Some?)
    requires j.hint == 0 || s.disk.part.None? || s.disk.meta.None? || s.disk.meta.value.Torn?
    ensures Step(env, s, ServerIo(o)) == s.(server := Purging(false, ToOpen(j)))
  {
  }

  // A pair that is not known is never resumed: it is removed, and the upload begins
  // with none. Only a client that asked to resume is told instead that the pair is not
  // its own.
  lemma UnknownPairStartsOver(env: Env, s: System, j: Job, o: Outcome, o1: Outcome, o2: Outcome)
    requires s.server == Deciding(j) && !Known(env, s.disk, j) && !env.quietFails && !s.disk.shared
    requires j.hint == 0 || s.disk.part.None? || s.disk.meta.None? || s.disk.meta.value.Torn?
    ensures
      var t := Step(env, s, ServerIo(o));
      var empty := s.disk.part.None? && s.disk.meta.None?;
      var u := if empty then t else Step(env, Step(env, t, ServerIo(o1)), ServerIo(o2));
      u == s.(server := Opening(j), disk := s.disk.(part := None, meta := None))
  {
    if s.disk.part.Some? || s.disk.meta.Some? {
      UnknownPair(env, s, j, o);
      PairDropped(env, Step(env, s, ServerIo(o)), ToOpen(j), o1, o2);
    }
  }

  lemma ForeignPairIsRefused(env: Env, s: System, j: Job)
    requires s.server == Deciding(j) && !Known(env, s.disk, j) && j.hint != 0
    requires s.disk.part.Some? && s.disk.meta.Some? && s.disk.meta.value.Saved?
    ensures Step(env, s, ServerIo(Done)) == s.(server := Replying(Error(FILE_UPLOAD, RESUME_METADATA_MISMATCH), false))
  {
  }

  // A known pair is resumed from the offset it records if it can be, and removed and
  // reported if it cannot; an error looking at it is reported and keeps it.
  lemma KnownPair(env: Env, s: System, j: Job, o1: Outcome, o2: Outcome, e: OsError)
    requires s.server == Deciding(j) && Known(env, s.disk, j) && !env.quietFails && !s.disk.shared
    ensures
      var n := s.disk.meta.value.meta.uploaded;
      var t := Step(env, s, ServerIo(Done));
      if Resumable(env, s.disk, j) then t == s.(server := Opening(Job(j.total, j.hint, n, s.disk.part.value[..n])))
      else
        Step(env, Step(env, t, ServerIo(o1)), ServerIo(o2)) ==
          s.(server := Replying(Error(FILE_UPLOAD, RESUME_METADATA_MISMATCH), false),
             disk := s.disk.(part := None, meta := None))
    ensures
      var code := if e == PermissionError then ACCESS_DENIED else FILE_IO_ERROR;
      Step(env, s, ServerIo(Fault(e))) == s.(server := Replying(Error(FILE_UPLOAD, code), false))
  {
    if !Resumable(env, s.disk, j) {
      var then_ := ToReply(Error(FILE_UPLOAD, RESUME_METADATA_MISMATCH));
      assert Step(env, s, ServerIo(Done)) == s.(server := Purging(false, then_));
      PairDropped(env, Step(env, s, ServerIo(Done)), then_, o1, o2);
    }
  }

  // ----- what a frame of the receive loop is answered -----

  // The first thing that is wrong with frame `m`, and whether the pair goes with it.
  predicate Wrong(env: Env, j: Job, m: Msg, code: ErrorCode, purge: bool) {
    match m
    case Chunk(offset, data) =>
      if data == [] || |data| > env.chunk then code == INVALID_PAYLOAD && purge
      else if offset != j.received then code == OFFSET_MISMATCH && !purge
      else j.received + |data| > j.total && code == SIZE_MISMATCH && purge
    case Checksum(size, digest) =>
      if j.received != j.total || size != j.total then code == SIZE_MISMATCH && purge
      else digest != env.hash(j.fed) && code == CHECKSUM_MISMATCH && purge
    case _ => code == INVALID_STATE && purge
  }

  lemma WrongStep(env: Env, s: System, m: Msg, code: ErrorCode, purge: bool)
    requires s.server.Receiving? && s.up != [] && s.up[0] == m && Wrong(env, s.server.j, m, code, purge)
    ensures Step(env, s, ServerReceive) == s.(server := Replying(Error(Transfer.Kind(m), code), purge), up := s.up[1..])
  {
  }

  // Whatever a peer sends in place of the next chunk or the checksum is answered with
  // one ERROR about it, and the server is back in its dispatcher; the pair is kept
  // after a misplaced chunk, and is gone otherwise.
  lemma WrongFrameIsAnswered(env: Env, s: System, m: Msg, code: ErrorCode, purge: bool, o1: Outcome, o2: Outcome)
    requires s.server.Receiving? && s.up != [] && s.up[0] == m && Wrong(env, s.server.j, m, code, purge)
    requires s.connected && s.down == [] && !env.quietFails && !s.disk.shared
    ensures
      var t := Step(env, Step(env, s, ServerReceive), ServerSend(true));
      var u := if purge then Step(env, Step(env, t, ServerIo(o1)), ServerIo(o2)) else t;
      u == s.(server := Idle, up := s.up[1..], down := [Error(Transfer.Kind(m), code)],
              disk := if purge then s.disk.(part := None, meta := None) else s.disk)
  {
    WrongStep(env, s, m, code, purge);
    var t := Step(env, s, ServerReceive);
    if purge { ToldAndPurged(env, t, t.server.m, o1, o2); } else { Told(env, t, t.server.m); }
  }

  // A chunk that cannot be written is reported and what was recorded stays.
  lemma FailedWriteIsReported(env: Env, s: System, e: OsError)
    requires s.server.Writing?
    ensures
      var code := if e == PermissionError then ACCESS_DENIED else FILE_IO_ERROR;
      Step(env, s, ServerIo(Fault(e))) == s.(server := Replying(Error(FILE_CHUNK, code), false))
  {
  }

  // ----- a publication, operation by operation -----

  // A checksum that fits what was received.
  predicate FittingChecksum(env: Env, s: System) {
    && s.server.Receiving? && s.server.j.received == s.server.j.total
    && s.up == [Checksum(s.server.j.total, env.hash(s.server.j.fed))]
    && s.disk.part == Some(s.server.j.fed) && s.disk.target.None? && !s.disk.shared
  }

  // The bytes are synced before they are linked: one operation after the checksum was
  // taken there is no target yet, two after it there is, an alias of `.part`.
  lemma SyncedThenLinked(env: Env, s: System)
    requires FittingChecksum(env, s)
    ensures
      var j := s.server.j;
      var t := Step(env, s, ServerReceive);
      var u := Step(env, t, ServerIo(Done));
      && t == s.(server := Syncing(j), up := []) && u == s.(server := Linking(j), up := [])
      && Step(env, u, ServerIo(Done)) ==
           u.(server := Unlinking(j), disk := s.disk.(target := Some(j.fed), shared := true))
  {
  }

  // Then `.part` and its metadata go, and the size is acknowledged last.
  lemma UnlinkedThenConfirmed(env: Env, s: System, j: Job)
    requires s.server == Unlinking(j) && s.disk.shared && s.connected && s.down == [] && !env.quietFails
    ensures
      var t := Step(env, s, ServerIo(Done));
      var u := Step(env, t, ServerIo(Done));
      && t == s.(server := Dropping(j), disk := s.disk.(part := None, shared := false))
      && u == t.(server := Confirming(j), disk := t.disk.(meta := None))
      && Step(env, u, ServerSend(true)) ==
           u.(server := Purging(false, ToRest(false)), down := [Ack(FILE_CHECKSUM, j.received)])
  {
    assert [] + [Ack(FILE_CHECKSUM, j.received)] == [Ack(FILE_CHECKSUM, j.received)];
  }

  // An unlink that fails takes the target back, keeps the pair, and is reported.
  lemma FailedUnlinkIsUndone(env: Env, s: System, j: Job, e: OsError, o: Outcome)
    requires s.server == Unlinking(j) && !env.quietFails
    ensures
      var code := if e == PermissionError then ACCESS_DENIED else FILE_IO_ERROR;
      Step(env, Step(env, s, ServerIo(Fault(e))), ServerIo(o)) ==
        s.(server := Replying(Error(FILE_CHECKSUM, code), false), disk := s.disk.(target := None, shared := false))
  {
    assert Step(env, s, ServerIo(Fault(e))) == s.(server := RollingBack(j, e));
  }

  // ----- why a call raises -----

  // The codes an upload of this client is refused with.
  ghost predicate Cause(env: Env, d: Disk, p: Phase, op: Opcode, code: ErrorCode) {
    || code == ACCESS_DENIED || code == FILE_IO_ERROR
    || (op == FILE_UPLOAD && code == FILE_EXISTS && d.target.Some? && !Tentative(p))
    || (op == FILE_UPLOAD && code == RESUME_METADATA_MISMATCH && env.quietFails)
    || (op == FILE_CHECKSUM && code == CHECKSUM_MISMATCH)
  }

  // The ERROR the client is going to take next has a cause, and so has the one the
  // server is going to send it.
  ghost predicate NextCaused(env: Env, s: System, op: Opcode) {
    s.down != [] && s.down[0].Error? && s.down[0].op == op ==> Cause(env, s.disk, s.server, op, s.down[0].code)
  }

  ghost predicate ReplyCaused(env: Env, s: System, op: Opcode) {
    s.connected && !Doomed(s) && s.server.Replying? && s.server.m.Error? && s.server.m.op == op ==>
      Cause(env, s.disk, s.server, op, s.server.m.code)
  }

  ghost predicate Caused(env: Env, s: System) {
    && (Awaited(s.client).Some? ==>
          var op := Awaited(s.client).value;
          NextCaused(env, s, op) && ReplyCaused(env, s, op))
    && (s.client.Ready? && s.client.last.Raised? ==>
          || Cause(env, s.disk, s.server, FILE_UPLOAD, s.client.last.code)
          || Cause(env, s.disk, s.server, FILE_CHECKSUM, s.client.last.code))
  }

  lemma LocalCaused(env: Env, d: Disk, p: Phase, o: Outcome, source: Bytes, accepted: Bytes)
    requires DiskOk(env, d, p, source, accepted) && Working(p)
    ensures
      var e := Local(env, d, p, o);
      e.next.Replying? && e.next.m.Error? && e.next.m.op != FILE_CHUNK ==>
        Cause(env, d, e.next, e.next.m.op, e.next.m.code)
  {
  }

  // The operation itself takes away no reason given before.
  lemma EffectCaused(env: Env, s: System, e: Effect)
    requires Together(env, s) && Caused(env, s) && Fits(s.disk, s.server, e)
    requires e.next.Replying? && e.next.m.Error? && e.next.m.op != FILE_CHUNK ==>
      Cause(env, s.disk, e.next, e.next.m.op, e.next.m.code)
    requires e.next.Replying? && s.disk.target.Some? ==> Apply(s.disk, e.op).target.Some? || s.server.RollingBack?
    requires s.server.RollingBack? && e.next.Replying? ==> e.next.m.Error? && e.next.m.code != FILE_EXISTS
    ensures Caused(env, Perform(s, e))
  {
  }

  lemma LocalEffect(env: Env, d: Disk, p: Phase, o: Outcome, source: Bytes, accepted: Bytes)
    requires DiskOk(env, d, p, source, accepted) && Working(p) && Allowed(d, Local(env, d, p, o).op)
    ensures
      var e := Local(env, d, p, o);
      && (e.next.Replying? && d.target.Some? ==> Apply(d, e.op).target.Some? || p.RollingBack?)
      && (p.RollingBack? && e.next.Replying? ==> e.next.m.Error? && e.next.m.code != FILE_EXISTS)
  {
    if d.target.Some? { LocalTarget(env, d, p, o, source, accepted); }
  }

  lemma IoCaused(env: Env, s: System, o: Outcome)
    requires Inv(env, s) && env.chunk > 0 && Caused(env, s)
    ensures Caused(env, Step(env, s, ServerIo(o)))
  {
    if Working(s.server) {
      LocalFits(env, s, o);
      LocalCaused(env, s.disk, s.server, o, s.source, s.accepted);
      LocalEffect(env, s.disk, s.server, o, s.source, s.accepted);
      EffectCaused(env, s, Local(env, s.disk, s.server, o));
    }
  }

  lemma ReceiveCaused(env: Env, s: System)
    requires Inv(env, s) && env.chunk > 0 && Caused(env, s)
    ensures Caused(env, Step(env, s, ServerReceive))
  {
    if Listening(s.server) && s.up != [] && Awaited(s.client).Some? && s.connected && s.server.Receiving? {
      if s.up[0].Checksum? {
        assert s.up == [Checksum(s.server.j.received, env.hash(s.source))];
        EndBound(env, s.up, s.server.j.received, s.source);
      }
    }
  }

  lemma SendCaused(env: Env, s: System, ok: bool)
    requires Inv(env, s) && env.chunk > 0 && Caused(env, s)
    ensures Caused(env, Step(env, s, ServerSend(ok)))
  {
    if Outgoing(s.server).Some? && s.connected && ok && s.down == [] {
      assert (s.down + [Outgoing(s.server).value])[0] == Outgoing(s.server).value;
    }
  }

  lemma ClientCaused(env: Env, s: System, l: Label)
    requires Inv(env, s) && env.chunk > 0 && Caused(env, s)
    requires l.Begin? || l.Reconnect? || l.ClientSend? || l.ClientReceive? || l.ClientAbort?
    ensures Caused(env, Step(env, s, l))
  {
    StepKeeps(env, s, l);
  }

  lemma EnvironmentCaused(env: Env, s: System, l: Label)
    requires Inv(env, s) && env.chunk > 0 && Caused(env, s)
    requires l.Loss? || l.Kill? || l.Sweep?
    ensures Caused(env, Step(env, s, l))
  {
  }

  lemma {:induction false} RunCaused(env: Env, s: System, schedule: seq<Label>)
    requires Init(s) && env.chunk > 0
    ensures Inv(env, Run(env, s, schedule)) && Caused(env, Run(env, s, schedule))
  {
    ReachableInv(env, s, schedule);
    if schedule != [] {
      var front, last := schedule[..|schedule| - 1], schedule[|schedule| - 1];
      RunCaused(env, s, front);
      var t := Run(env, s, front);
      match last {
        case ServerIo(o) => IoCaused(env, t, o);
        case ServerReceive => ReceiveCaused(env, t);
        case ServerSend(ok) => SendCaused(env, t, ok);
        case Loss(_, _) => EnvironmentCaused(env, t, last);
        case Kill => EnvironmentCaused(env, t, last);
        case Sweep(_) => EnvironmentCaused(env, t, last);
        case _ => ClientCaused(env, t, last);
      }
    }
  }

  // A call that raised did so for one of these reasons: an error of the server's file
  // system, a digest that does not fit, a name that is taken, and then it is, or a pair
  // that an unlink failed to remove.
  lemma RaisedForACause(env: Env, s: System, schedule: seq<Label>)
    requires Init(s) && env.chunk > 0
    ensures
      var t := Run(env, s, schedule);
      t.client.Ready? && t.client.last.Raised? ==>
        var code := t.client.last.code;
        && code in {ACCESS_DENIED, FILE_IO_ERROR, CHECKSUM_MISMATCH, FILE_EXISTS, RESUME_METADATA_MISMATCH}
        && (code == FILE_EXISTS ==> t.disk.target.Some?)
        && (code == RESUME_METADATA_MISMATCH ==> env.quietFails)
  {
    RunCaused(env, s, schedule);
  }
}
