// Retrying an upload of one unchanged source file: the published file is the
// source itself, whatever SHA-256 does.

module UploadRetries {
  import opened Protocol
  import opened Files
  import opened Transfer
  import opened Tiling
  import opened UploadSteps
  import opened UploadSystem
  import opened UploadInvariant
  import opened UploadProof
  import opened UploadTheorems

  // Every upload_file call of the schedule reads the same file.
  predicate AllFrom(schedule: seq<Label>, file: Bytes) {
    forall l :: l in schedule ==>
      (l.Begin? ==> l.source == file) && (l.Reconnect? ==> l.source == file)
  }

  // The bytes the server has taken in, digest and write in progress included.
  ghost function Taken(p: Phase): Bytes {
    match p
    case Writing(j, data, done) => j.fed + data
    case Opening(j) => j.fed
    case Truncating(j) => j.fed
    case Saving(j, _, _) => j.fed
    case Acking(j) => j.fed
    case Receiving(j) => j.fed
    case Syncing(j) => j.fed
    case Linking(j) => j.fed
    case Unlinking(j) => j.fed
    case RollingBack(j, _) => j.fed
    case Dropping(j) => j.fed
    case Confirming(j) => j.fed
    case _ => []
  }

  ghost predicate FinalAck(q: seq<Msg>) {
    q != [] && q[0].Ack? && q[0].op == FILE_CHECKSUM
  }

  // Nothing of the pair is discarded except what a restart cannot use.
  ghost predicate Gentle(d: Disk, p: Phase) {
    match p
    case Replying(m, purge) => !purge
    case Purging(metaOnly, then_) => then_.ToRest? ==> d.target.Some?
    case _ => true
  }

  // What `file` adds to the invariant.
  ghost predicate Faithful(s: System, file: Bytes) {
    && s.source == file
    && s.accepted <= file
    && Taken(s.server) <= file
    && Gentle(s.disk, s.server)
    && ((s.client.Ready? && s.client.last.Returned?) || (s.client.AwaitFinal? && FinalAck(s.down)) ==>
          s.disk.target == Some(file))
  }

  ghost predicate Same(env: Env, s: System, file: Bytes) {
    Inv(env, s) && Faithful(s, file)
  }

  lemma PrefixOfFile(a: Bytes, data: Bytes, file: Bytes)
    requires a <= file && |a| + |data| <= |file| && data == file[|a|..|a| + |data|]
    ensures a + data <= file
  {
  }

  lemma SameChunk(env: Env, s: System, file: Bytes)
    requires Same(env, s, file) && s.server.Receiving? && s.up != [] && s.up[0].Chunk?
    ensures Faithful(Step(env, s, ServerReceive), file)
  {
    PrefixOfFile(s.server.j.fed, s.up[0].data, file);
  }

  lemma SameChecksum(env: Env, s: System, file: Bytes)
    requires Same(env, s, file) && s.server.Receiving? && s.up != [] && !s.up[0].Chunk?
    ensures Faithful(Step(env, s, ServerReceive), file)
  {
    assert s.server.j.fed == file;
  }

  lemma SameReceive(env: Env, s: System, file: Bytes)
    requires Same(env, s, file)
    ensures Faithful(Step(env, s, ServerReceive), file)
  {
    if s.server.Receiving? && s.up != [] {
      if s.up[0].Chunk? { SameChunk(env, s, file); } else { SameChecksum(env, s, file); }
    }
  }

  ghost predicate LocalSame(env: Env, d: Disk, p: Phase, o: Outcome, file: Bytes) {
    var e := Local(env, d, p, o);
    && Taken(e.next) <= file
    && (Allowed(d, e.op) ==> Gentle(Apply(d, e.op), e.next))
  }

  lemma SameDecide(env: Env, d: Disk, p: Phase, o: Outcome, file: Bytes, accepted: Bytes)
    requires DiskOk(env, d, p, file, accepted) && p.Deciding? && accepted <= file
    ensures LocalSame(env, d, p, o, file)
  {
  }

  lemma SameWrite(env: Env, d: Disk, p: Phase, o: Outcome, file: Bytes, accepted: Bytes)
    requires DiskOk(env, d, p, file, accepted) && p.Writing? && Taken(p) <= file
    ensures LocalSame(env, d, p, o, file)
  {
    assert Taken(Local(env, d, p, o).next) in {[], Taken(p)};
  }

  lemma SameLocal(env: Env, d: Disk, p: Phase, o: Outcome, file: Bytes, accepted: Bytes)
    requires DiskOk(env, d, p, file, accepted) && Working(p) && accepted <= file && Taken(p) <= file && Gentle(d, p)
    ensures LocalSame(env, d, p, o, file)
  {
    if p.Deciding? {
      SameDecide(env, d, p, o, file, accepted);
    } else if p.Writing? {
      SameWrite(env, d, p, o, file, accepted);
    } else {
      assert Taken(Local(env, d, p, o).next) in {[], Taken(p)};
    }
  }

  lemma SameIo(env: Env, s: System, o: Outcome, file: Bytes)
    requires Same(env, s, file)
    ensures Faithful(Step(env, s, ServerIo(o)), file)
  {
    if Working(s.server) {
      SameLocal(env, s.disk, s.server, o, file, s.accepted);
      if s.disk.target.Some? {
        LocalTarget(env, s.disk, s.server, o, s.source, s.accepted);
      }
      var t := Step(env, s, ServerIo(o));
      assert t.accepted == s.accepted || t.accepted == [] || t.accepted == s.server.j.fed;
    }
  }

  lemma SameSend(env: Env, s: System, ok: bool, file: Bytes)
    requires Same(env, s, file)
    ensures Faithful(Step(env, s, ServerSend(ok)), file)
  {
    assert s.server.Confirming? ==> s.server.j.fed == file;
  }

  lemma SameOther(env: Env, s: System, l: Label, file: Bytes)
    requires Same(env, s, file) && AllFrom([l], file)
    requires !l.ServerIo? && !l.ServerReceive? && !l.ServerSend?
    ensures Faithful(Step(env, s, l), file)
  {
    assert l in [l];
  }

  lemma SameStep(env: Env, s: System, l: Label, file: Bytes)
    requires Same(env, s, file) && env.chunk > 0 && AllFrom([l], file)
    ensures Same(env, Step(env, s, l), file)
  {
    StepKeeps(env, s, l);
    match l {
      case ServerIo(o) => SameIo(env, s, o, file);
      case ServerReceive => SameReceive(env, s, file);
      case ServerSend(ok) => SameSend(env, s, ok, file);
      case _ => SameOther(env, s, l, file);
    }
  }

  lemma {:induction false} SameRun(env: Env, s: System, schedule: seq<Label>, file: Bytes)
    requires Init(s) && s.source == file && env.chunk > 0 && AllFrom(schedule, file)
    ensures Same(env, Run(env, s, schedule), file)
  {
    if schedule != [] {
      var front, last := schedule[..|schedule| - 1], schedule[|schedule| - 1];
      SameRun(env, s, front, file);
      SameStep(env, Run(env, s, front), last, file);
    }
  }

  // Upload end to end: whenever upload_file returns, after any number of
  // interrupted attempts over an unchanged source, the published file is the
  // source byte for byte. Nothing is assumed of the digest.
  lemma RetriedUploadEndToEnd(env: Env, s: System, schedule: seq<Label>, file: Bytes)
    requires Init(s) && s.source == file && env.chunk > 0 && AllFrom(schedule, file)
    ensures
      var t := Run(env, s, schedule);
      t.client.Ready? && t.client.last.Returned? ==> t.disk.target == Some(file)
  {
    SameRun(env, s, schedule, file);
  }
}
