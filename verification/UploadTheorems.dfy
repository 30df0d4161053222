// The main results about resumable upload, for every schedule of attempts,
// connection losses, server kills and cleanups.

module UploadTheorems {
  import opened Protocol
  import opened Files
  import opened Transfer
  import opened Tiling
  import opened UploadSteps
  import opened UploadSystem
  import opened UploadInvariant
  import opened UploadProof

  lemma ReachableInv(env: Env, s: System, schedule: seq<Label>)
    requires Init(s) && env.chunk > 0
    ensures Inv(env, Run(env, s, schedule))
  {
    RunKeeps(env, s, schedule);
  }

  // ----- crash invariant -----

  lemma CrashInvariant(env: Env, s: System, schedule: seq<Label>)
    requires Init(s) && env.chunk > 0 && !env.quietFails
    ensures
      var t := Run(env, s, schedule);
      var d := t.disk;
      && (d.meta.Some? ==> d.meta.value.Saved?)
      && (d.part.Some? && d.meta.Some? ==>
            var m := d.meta.value.meta;
            && m.user == env.user && m.name == env.name
            && m.uploaded <= |d.part.value| <= m.total
            && d.part.value[..m.uploaded] == t.accepted)
  {
    ReachableInv(env, s, schedule);
  }

  // ----- end to end -----

  lemma UploadEndToEnd(env: Env, s: System, schedule: seq<Label>)
    requires Init(s) && env.chunk > 0
    ensures
      var t := Run(env, s, schedule);
      t.client.Ready? && t.client.last.Returned? ==>
        && t.client.last.size == |t.source| && t.client.last.digest == env.hash(t.source)
        && t.disk.target.Some?
        && |t.disk.target.value| == |t.source|
        && env.hash(t.disk.target.value) == env.hash(t.source)
  {
    ReachableInv(env, s, schedule);
  }

  // ----- quiescence -----

  // When upload_file has returned or raised with its session open, nothing is
  // in flight and the server, after the two unlink calls of its finally block, is back in
  // its dispatcher (or its session has ended) without sending anything more.
  lemma Quiescence(env: Env, s: System, schedule: seq<Label>, o1: Outcome, o2: Outcome)
    requires Init(s) && env.chunk > 0
    ensures
      var t := Run(env, s, schedule);
      t.client.Ready? ==>
        && t.up == [] && t.down == []
        && var r := Step(env, Step(env, t, ServerIo(o1)), ServerIo(o2));
        && (r.server.Idle? || r.server.Closed?)
        && r.up == [] && r.down == [] && r.client == t.client
  {
    ReachableInv(env, s, schedule);
  }

  // So whatever the client asks next, of this or another kind, the server takes it
  // up in its dispatcher with nothing else in front of it, unless its session ends.
  lemma NextRequest(env: Env, s: System, schedule: seq<Label>, m: Msg, o1: Outcome, o2: Outcome)
    requires Init(s) && env.chunk > 0
    ensures
      var t := Run(env, s, schedule);
      t.client.Ready? ==>
        var r := Step(env, Step(env, t.(up := t.up + [m]), ServerIo(o1)), ServerIo(o2));
        (r.server.Idle? || r.server.Closed?) && r.up == [m] && r.down == []
  {
    ReachableInv(env, s, schedule);
  }

  // ----- positions -----

  ghost predicate Disagreement(p: Phase) {
    p.Replying? && p.m.Error? &&
    (p.m.code == OFFSET_MISMATCH || p.m.code == SIZE_MISMATCH || p.m.code == INVALID_STATE)
  }

  // While both ends are streaming, the frames in flight tile exactly the bytes
  // from the server's position to the client's.
  lemma PositionsAgree(env: Env, s: System, schedule: seq<Label>)
    requires Init(s) && env.chunk > 0
    ensures
      var t := Run(env, s, schedule);
      && !Disagreement(t.server)
      && (t.connected && t.client.Streaming? && Flowing(t.server) ==>
            && Tiles(env, t.up, Position(t.server), t.source)
            && EndOf(t.up, Position(t.server)) == t.client.sent)
  {
    ReachableInv(env, s, schedule);
  }

  lemma NeverResumeMismatch(env: Env, s: System, schedule: seq<Label>)
    requires Init(s) && env.chunk > 0 && !env.quietFails
    ensures
      var p := Run(env, s, schedule).server;
      !(p.Replying? && p.m.Error? && p.m.code == RESUME_METADATA_MISMATCH)
  {
    ReachableInv(env, s, schedule);
  }

  // ----- published files -----

  // The call that linked the target has not finished with it.
  predicate Tentative(p: Phase) {
    p.Unlinking? || p.RollingBack?
  }

  lemma LocalTarget(env: Env, d: Disk, p: Phase, o: Outcome, source: Bytes, accepted: Bytes)
    requires DiskOk(env, d, p, source, accepted) && d.target.Some? && Working(p)
    ensures
      var e := Local(env, d, p, o);
      && (Allowed(d, e.op) ==>
            || Apply(d, e.op).target == d.target
            || (Apply(d, e.op).target.None? && p.RollingBack?))
      && (Tentative(e.next) ==> p.Unlinking?)
  {
  }

  // A step keeps a published file, or removes it in the rollback of the call
  // that has just linked it. It never changes its bytes.
  lemma TargetStep(env: Env, s: System, l: Label)
    requires Inv(env, s) && s.disk.target.Some?
    ensures
      var t := Step(env, s, l);
      && (t.disk.target == s.disk.target || (t.disk.target.None? && s.server.RollingBack?))
      && (Tentative(t.server) ==> Tentative(s.server))
  {
    if l.ServerIo? && Working(s.server) {
      LocalTarget(env, s.disk, s.server, l.o, s.source, s.accepted);
    }
  }

  lemma {:induction false} TargetStays(env: Env, s: System, schedule: seq<Label>)
    requires Inv(env, s) && env.chunk > 0
    requires s.disk.target.Some? && !Tentative(s.server)
    ensures
      var t := Run(env, s, schedule);
      Inv(env, t) && t.disk.target == s.disk.target && !Tentative(t.server)
  {
    if schedule != [] {
      var front, last := schedule[..|schedule| - 1], schedule[|schedule| - 1];
      TargetStays(env, s, front);
      TargetStep(env, Run(env, s, front), last);
      StepKeeps(env, Run(env, s, front), last);
    }
  }

  lemma {:induction false} RunAppend(env: Env, s: System, before: seq<Label>, after: seq<Label>)
    ensures Run(env, s, before + after) == Run(env, Run(env, s, before), after)
    decreases |after|
  {
    if after == [] {
      assert before + after == before;
    } else {
      var front, last := after[..|after| - 1], after[|after| - 1];
      RunAppend(env, s, before, front);
      assert (before + after)[..|before + after| - 1] == before + front;
    }
  }

  // Once the call that published a file is past its rollback, no later step of
  // any run changes or removes the file.
  lemma PublishedIsImmutable(env: Env, s: System, before: seq<Label>, after: seq<Label>)
    requires Init(s) && env.chunk > 0
    requires Run(env, s, before).disk.target.Some? && !Tentative(Run(env, s, before).server)
    ensures Run(env, s, before + after).disk.target == Run(env, s, before).disk.target
  {
    ReachableInv(env, s, before);
    TargetStays(env, Run(env, s, before), after);
    RunAppend(env, s, before, after);
  }
}
