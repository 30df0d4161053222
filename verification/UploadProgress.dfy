// What attempts of one declared size add up to: the offset an attempt resumes
// from is what the attempts before it persisted, and it falls back only where
// the server discards a partial upload that failed its checksum.

module UploadProgress {
  import opened Protocol
  import opened Files
  import opened Transfer
  import opened Tiling
  import opened UploadSteps
  import opened UploadSystem
  import opened UploadInvariant
  import opened UploadProof
  import opened UploadTheorems
  import opened UploadRetries

  // The offset the next attempt resumes from.
  function Persisted(d: Disk): nat {
    if d.part.Some? && d.meta.Some? && d.meta.value.Saved? then d.meta.value.meta.uploaded else 0
  }

  // Every upload_file call of the schedule declares the size n; nothing expires,
  // and metadata that exists can be read.
  predicate Calm(l: Label, n: nat) {
    && !l.Sweep?
    && (l.ServerIo? ==> !l.o.Expired? && !l.o.Unreadable?)
    && (l.Begin? ==> |l.source| == n) && (l.Reconnect? ==> |l.source| == n)
  }

  predicate CalmRetries(env: Env, s: System, schedule: seq<Label>, n: nat) {
    && Init(s) && |s.source| == n && env.chunk > 0 && !env.quietFails
    && forall l :: l in schedule ==> Calm(l, n)
  }

  // ----- discarding -----

  // The server is about to report CHECKSUM_MISMATCH, or is removing the pair of
  // an upload it has not published.
  predicate Mismatched(p: Phase) { p == Discard(FILE_CHECKSUM, CHECKSUM_MISMATCH) }

  predicate Discarding(d: Disk, p: Phase) { p.Purging? && p.then_.ToRest? && d.target.None? }

  // The step that removes the data file then.
  predicate Discards(s: System, l: Label) {
    l.ServerIo? && Discarding(s.disk, s.server) && !s.server.metaOnly
  }

  // The server means to remove the pair after its reply only when the digest is
  // wrong.
  predicate PurgesOnMismatch(p: Phase) { p.Replying? && p.purge ==> Mismatched(p) }

  lemma LocalPurges(env: Env, d: Disk, p: Phase, o: Outcome, source: Bytes, accepted: Bytes)
    requires DiskOk(env, d, p, source, accepted) && Working(p)
    ensures PurgesOnMismatch(Local(env, d, p, o).next)
    ensures
      var e := Local(env, d, p, o);
      Allowed(d, e.op) && Discarding(Apply(d, e.op), e.next) ==> Discarding(d, p)
  {
  }

  lemma ReceivePurges(env: Env, s: System)
    requires Inv(env, s)
    ensures PurgesOnMismatch(s.server) ==> PurgesOnMismatch(Step(env, s, ServerReceive).server)
  {
    ServerReceiveKeeps(env, s);
  }

  ghost predicate Enters(s: System, t: System) {
    && PurgesOnMismatch(t.server)
    && (Discarding(t.disk, t.server) ==> Discarding(s.disk, s.server) || Mismatched(s.server))
  }

  lemma OtherPurges(env: Env, s: System, l: Label)
    requires Inv(env, s) && PurgesOnMismatch(s.server) && !l.ServerIo? && !l.ServerReceive?
    ensures Enters(s, Step(env, s, l))
  {
  }

  lemma StepPurges(env: Env, s: System, l: Label)
    requires Inv(env, s) && PurgesOnMismatch(s.server)
    ensures Enters(s, Step(env, s, l))
  {
    if l.ServerReceive? {
      ReceivePurges(env, s);
    } else if !l.ServerIo? {
      OtherPurges(env, s, l);
    } else if Working(s.server) {
      LocalPurges(env, s.disk, s.server, l.o, s.source, s.accepted);
    } else {
      assert Step(env, s, l) == s;
    }
  }

  // ----- what is persisted -----

  // The chunk bytes whose metadata this step saves.
  ghost function SavedNow(s: System, l: Label): nat {
    if l.ServerIo? && s.server.Saving? && s.server.save.Swap? && !l.o.Fault? then |s.server.data| else 0
  }

  // The chunk bytes persisted over all attempts since the last discard.
  ghost function SavedBytes(env: Env, s: System, schedule: seq<Label>): nat {
    if schedule == [] then 0
    else
      var front, last := schedule[..|schedule| - 1], schedule[|schedule| - 1];
      if Discards(Run(env, s, front), last) then 0
      else SavedBytes(env, s, front) + SavedNow(Run(env, s, front), last)
  }

  // No other removal of a pair that could be resumed is under way.
  ghost predicate Steady(d: Disk, p: Phase, n: nat) {
    && (p.Purging? && !p.metaOnly && !p.then_.ToRest? ==> Persisted(d) == 0)
    && (d.meta.Some? && d.meta.value.Saved? ==> d.meta.value.meta.total == n)
  }

  // Bytes saved so far against metadata on disk.
  ghost predicate Balanced(d: Disk, p: Phase, saved: nat, n: nat) {
    && saved <= n
    && (d.target.None? || Tentative(p) ==> saved == Persisted(d))
  }

  lemma ProgressLocal(env: Env, d: Disk, p: Phase, o: Outcome, source: Bytes, accepted: Bytes, saved: nat)
    requires DiskOk(env, d, p, source, accepted) && Working(p) && !env.quietFails
    requires Steady(d, p, |source|) && Balanced(d, p, saved, |source|)
    requires !o.Expired? && !o.Unreadable?
    requires !(p.Saving? && p.save.Swap? && !o.Fault?)
    ensures
      var e := Local(env, d, p, o);
      var now := if Discarding(d, p) && !p.metaOnly then 0 else saved;
      Allowed(d, e.op) ==>
        Steady(Apply(d, e.op), e.next, |source|) && Balanced(Apply(d, e.op), e.next, now, |source|)
  {
  }

  lemma ProgressSwap(env: Env, d: Disk, p: Phase, o: Outcome, source: Bytes, accepted: Bytes, saved: nat)
    requires DiskOk(env, d, p, source, accepted) && !env.quietFails
    requires Steady(d, p, |source|) && Balanced(d, p, saved, |source|)
    requires p.Saving? && p.save.Swap? && !o.Fault?
    ensures
      var e := Local(env, d, p, o);
      && Steady(Apply(d, e.op), e.next, |source|)
      && Balanced(Apply(d, e.op), e.next, saved + |p.data|, |source|)
  {
  }

  ghost function SavedAfter(s: System, l: Label, saved: nat): nat {
    if Discards(s, l) then 0 else saved + SavedNow(s, l)
  }

  lemma ProgressOther(env: Env, s: System, l: Label, saved: nat)
    requires Inv(env, s) && Calm(l, |s.source|) && !l.ServerIo?
    requires Steady(s.disk, s.server, |s.source|) && Balanced(s.disk, s.server, saved, |s.source|)
    ensures
      var t := Step(env, s, l);
      && |t.source| == |s.source|
      && Steady(t.disk, t.server, |s.source|) && Balanced(t.disk, t.server, saved, |s.source|)
  {
    assert Step(env, s, l).disk == s.disk;
  }

  lemma ProgressIo(env: Env, s: System, o: Outcome, saved: nat)
    requires Inv(env, s) && Calm(ServerIo(o), |s.source|) && !env.quietFails && Working(s.server)
    requires Steady(s.disk, s.server, |s.source|) && Balanced(s.disk, s.server, saved, |s.source|)
    ensures
      var t := Step(env, s, ServerIo(o));
      && t.source == s.source
      && Steady(t.disk, t.server, |s.source|)
      && Balanced(t.disk, t.server, SavedAfter(s, ServerIo(o), saved), |s.source|)
  {
    if s.server.Saving? && s.server.save.Swap? && !o.Fault? {
      ProgressSwap(env, s.disk, s.server, o, s.source, s.accepted, saved);
    } else {
      ProgressLocal(env, s.disk, s.server, o, s.source, s.accepted, saved);
    }
  }

  lemma ProgressStep(env: Env, s: System, l: Label, saved: nat)
    requires Inv(env, s) && Calm(l, |s.source|) && !env.quietFails
    requires Steady(s.disk, s.server, |s.source|) && Balanced(s.disk, s.server, saved, |s.source|)
    ensures
      var t := Step(env, s, l);
      && |t.source| == |s.source|
      && Steady(t.disk, t.server, |s.source|)
      && Balanced(t.disk, t.server, SavedAfter(s, l, saved), |s.source|)
  {
    if !l.ServerIo? {
      ProgressOther(env, s, l, saved);
    } else if Working(s.server) {
      ProgressIo(env, s, l.o, saved);
    } else {
      assert Step(env, s, l) == s;
    }
  }

  ghost predicate OnTrack(env: Env, s: System, saved: nat, n: nat) {
    && Inv(env, s) && PurgesOnMismatch(s.server) && |s.source| == n
    && Steady(s.disk, s.server, n) && Balanced(s.disk, s.server, saved, n)
  }

  lemma {:induction false} ProgressRun(env: Env, s: System, schedule: seq<Label>, n: nat)
    requires CalmRetries(env, s, schedule, n)
    ensures OnTrack(env, Run(env, s, schedule), SavedBytes(env, s, schedule), n)
  {
    if schedule != [] {
      var front, last := schedule[..|schedule| - 1], schedule[|schedule| - 1];
      var t := Run(env, s, front);
      ProgressRun(env, s, front, n);
      StepKeeps(env, t, last);
      StepPurges(env, t, last);
      ProgressStep(env, t, last, SavedBytes(env, s, front));
    }
  }

  // ----- every schedule of attempts of one size -----

  // Over any number of attempts, killed or cut anywhere and whatever their
  // sources hold, the bytes persisted since the last discard fit the size, and
  // until the file is published the offset the server acknowledges is their sum.
  lemma NothingPersistedTwice(env: Env, s: System, schedule: seq<Label>, n: nat)
    requires CalmRetries(env, s, schedule, n)
    ensures
      var t := Run(env, s, schedule);
      && SavedBytes(env, s, schedule) <= n
      && (t.disk.target.None? ==> Persisted(t.disk) == SavedBytes(env, s, schedule))
      && (t.server.Acking? ==> t.server.j.received == SavedBytes(env, s, schedule))
  {
    ProgressRun(env, s, schedule, n);
  }

  // One step lowers the offset of an unpublished upload if and only if it removes
  // the data file in a discard.
  lemma DropsOnlyByDiscard(env: Env, s: System, schedule: seq<Label>, n: nat, l: Label)
    requires CalmRetries(env, s, schedule, n) && Calm(l, n)
    ensures
      var t := Run(env, s, schedule);
      t.disk.target.None? && Step(env, t, l).disk.target.None? ==>
        (Persisted(Step(env, t, l).disk) < Persisted(t.disk) <==> Discards(t, l) && Persisted(t.disk) > 0)
  {
    var t := Run(env, s, schedule);
    ProgressRun(env, s, schedule, n);
    ProgressStep(env, t, l, SavedBytes(env, s, schedule));
  }

  // A discard begins with a report of CHECKSUM_MISMATCH and in no other way.
  lemma DiscardFollowsMismatch(env: Env, s: System, schedule: seq<Label>, n: nat, l: Label)
    requires CalmRetries(env, s, schedule, n)
    ensures
      var t := Run(env, s, schedule);
      var u := Step(env, t, l);
      Discarding(u.disk, u.server) ==> Discarding(t.disk, t.server) || Mismatched(t.server)
  {
    ProgressRun(env, s, schedule, n);
    StepPurges(env, Run(env, s, schedule), l);
  }

  // No state from one point of a run to another reports a wrong digest or
  // removes an unpublished upload.
  ghost predicate NoDiscard(env: Env, s: System, before: seq<Label>, after: seq<Label>) {
    forall k :: 0 <= k <= |after| ==>
      var t := Run(env, s, before + after[..k]);
      !Mismatched(t.server) && !Discarding(t.disk, t.server)
  }

  lemma {:induction false} SavedGrows(env: Env, s: System, before: seq<Label>, after: seq<Label>)
    requires NoDiscard(env, s, before, after)
    ensures SavedBytes(env, s, before) <= SavedBytes(env, s, before + after)
    decreases |after|
  {
    if after == [] {
      assert before + after == before;
    } else {
      var front := after[..|after| - 1];
      forall k | 0 <= k <= |front| ensures front[..k] == after[..k] {}
      SavedGrows(env, s, before, front);
      assert after[..|front|] == front;
      assert (before + after)[..|before + after| - 1] == before + front;
    }
  }

  // Without a wrong digest between two points of a run the resume offset of an
  // unpublished upload has not gone back.
  lemma OffsetNeverDecreases(env: Env, s: System, before: seq<Label>, after: seq<Label>, n: nat)
    requires CalmRetries(env, s, before + after, n) && NoDiscard(env, s, before, after)
    requires Run(env, s, before).disk.target.None? && Run(env, s, before + after).disk.target.None?
    ensures Persisted(Run(env, s, before).disk) <= Persisted(Run(env, s, before + after).disk) <= n
  {
    assert forall l :: l in before ==> l in before + after;
    NothingPersistedTwice(env, s, before, n);
    NothingPersistedTwice(env, s, before + after, n);
    SavedGrows(env, s, before, after);
  }

  // ----- one source file -----

  // If all attempts read one file, no digest is ever wrong and nothing is
  // discarded.
  lemma OneFileIsKept(env: Env, s: System, before: seq<Label>, after: seq<Label>, file: Bytes)
    requires Init(s) && s.source == file && env.chunk > 0 && AllFrom(before + after, file)
    ensures NoDiscard(env, s, before, after)
  {
    forall k | 0 <= k <= |after|
      ensures !Mismatched(Run(env, s, before + after[..k]).server)
      ensures
        var t := Run(env, s, before + after[..k]);
        !Discarding(t.disk, t.server)
    {
      assert forall l :: l in before + after[..k] ==> l in before + after;
      SameRun(env, s, before + after[..k], file);
    }
  }

  // So the offset never goes back at all.
  lemma OneFileNeverDecreases(env: Env, s: System, before: seq<Label>, after: seq<Label>, file: Bytes)
    requires CalmRetries(env, s, before + after, |file|) && s.source == file && AllFrom(before + after, file)
    requires Run(env, s, before).disk.target.None? && Run(env, s, before + after).disk.target.None?
    ensures Persisted(Run(env, s, before).disk) <= Persisted(Run(env, s, before + after).disk) <= |file|
  {
    OneFileIsKept(env, s, before, after, file);
    OffsetNeverDecreases(env, s, before, after, |file|);
  }

  // ----- a source that changes between attempts -----

  ghost predicate Reaches(env: Env, s: System, schedule: seq<Label>, n: nat, t: System) {
    Run(env, s, schedule) == t && forall l :: l in schedule ==> Calm(l, n)
  }

  lemma Go(env: Env, s: System, schedule: seq<Label>, n: nat, t: System, l: Label, u: System) returns (more: seq<Label>)
    requires Reaches(env, s, schedule, n, t) && Calm(l, n) && Step(env, t, l) == u
    ensures more == schedule + [l] && Reaches(env, s, more, n, u)
  {
    more := schedule + [l];
    assert more[..|schedule|] == schedule;
  }

  // What the disk, the server, the client and the queues of these runs look like
  // with a one-byte file.
  function At(disk: Disk, server: Phase, client: Client, source: Bytes, up: seq<Msg>, down: seq<Msg>,
      accepted: Bytes): System
  {
    System(disk, server, client, source, up, down, true, accepted)
  }

  function Pair(env: Env, part: Option<Bytes>, uploaded: nat): Disk {
    Disk(None, part, Some(Saved(Meta(env.user, env.name, 1, uploaded))), None, false)
  }

  // The metadata that saving `j` writes, and the system once it is in place.
  function Record(env: Env, j: Job): MetaFile { Saved(Meta(env.user, env.name, j.total, j.received)) }

  function SavedState(env: Env, t: System): System
    requires t.server.Saving?
  {
    var j, data := t.server.j, t.server.data;
    t.(disk := t.disk.(meta := Some(Record(env, j)), temp := None),
       server := if data == [] then Acking(j) else Receiving(j),
       accepted := if j.received == 0 then [] else t.accepted + data)
  }

  lemma MakeEffect(env: Env, t: System)
    requires t.server.Saving? && t.server.save.Make? && t.connected
    ensures Step(env, t, ServerIo(Done)) ==
      t.(disk := t.disk.(temp := Some(Torn)), server := Saving(t.server.j, t.server.data, Dump))
  {
  }

  lemma DumpEffect(env: Env, t: System)
    requires t.server.Saving? && t.server.save.Dump? && t.connected && t.disk.temp.Some?
    ensures Step(env, t, ServerIo(Done)) ==
      t.(disk := t.disk.(temp := Some(Record(env, t.server.j))), server := Saving(t.server.j, t.server.data, Swap(0)))
  {
  }

  lemma SwapEffect(env: Env, t: System)
    requires t.server.Saving? && t.server.save.Swap? && t.connected && t.disk.temp == Some(Record(env, t.server.j))
    ensures Step(env, t, ServerIo(Done)) == SavedState(env, t)
  {
  }

  // Saving the metadata of j, from mkstemp to os.replace.
  lemma SaveOne(env: Env, s: System, schedule: seq<Label>, t: System) returns (more: seq<Label>, u: System)
    requires Reaches(env, s, schedule, 1, t)
    requires t.server.Saving? && t.server.save.Make? && t.connected
    ensures u == SavedState(env, t) && Reaches(env, s, more, 1, u)
  {
    MakeEffect(env, t);
    var made := Step(env, t, ServerIo(Done));
    more := Go(env, s, schedule, 1, t, ServerIo(Done), made);
    DumpEffect(env, made);
    var dumped := Step(env, made, ServerIo(Done));
    more := Go(env, s, more, 1, made, ServerIo(Done), dumped);
    SwapEffect(env, dumped);
    u := SavedState(env, t);
    more := Go(env, s, more, 1, dumped, ServerIo(Done), u);
  }

  // The first attempt persists the one byte it has, and is cut.
  lemma FirstAttempt(env: Env, s: System) returns (schedule: seq<Label>)
    requires env.chunk > 0 && Init(s) && s.source == [1] && s.disk == Disk(None, None, None, None, false)
    ensures Reaches(env, s, schedule, 1, System(Pair(env, Some([1]), 1), Closed, Severed, [1], [], [], false, [1]))
  {
    var a: Bytes, io := [1], ServerIo(Done);
    var j, none := Job(1, 0, 0, []), Disk(None, None, None, None, false);
    var t := At(none, Idle, AwaitOffset, a, [Upload(1, 0)], [], []);
    schedule := Go(env, s, [], 1, s, Reconnect(a), t);
    var u := At(none, Starting(j), AwaitOffset, a, [], [], []);
    schedule := Go(env, s, schedule, 1, t, ServerReceive, u);
    schedule := Go(env, s, schedule, 1, u, io, u.(server := Deciding(j)));
    schedule := Go(env, s, schedule, 1, u.(server := Deciding(j)), io, u.(server := Opening(j)));
    t := u.(disk := none.(part := Some([])), server := Truncating(j));
    schedule := Go(env, s, schedule, 1, u.(server := Opening(j)), io, t);
    schedule := Go(env, s, schedule, 1, t, io, t.(server := Saving(j, [], Make)));
    schedule, u := SaveOne(env, s, schedule, t.(server := Saving(j, [], Make)));
    t := At(Pair(env, Some([]), 0), Receiving(j), AwaitOffset, a, [], [Ack(FILE_UPLOAD, 0)], []);
    schedule := Go(env, s, schedule, 1, u, ServerSend(true), t);
    schedule := FirstChunk(env, s, schedule, t);
  }

  lemma FirstChunk(env: Env, s: System, before: seq<Label>, t: System) returns (schedule: seq<Label>)
    requires env.chunk > 0 && Reaches(env, s, before, 1, t)
    requires t == At(Pair(env, Some([]), 0), Receiving(Job(1, 0, 0, [])), AwaitOffset, [1],
                     [], [Ack(FILE_UPLOAD, 0)], [])
    ensures Reaches(env, s, schedule, 1, System(Pair(env, Some([1]), 1), Closed, Severed, [1], [], [], false, [1]))
  {
    var a: Bytes, io := [1], ServerIo(Done);
    var j, k := Job(1, 0, 0, []), Job(1, 0, 1, [1]);
    var u := At(Pair(env, Some([]), 0), Receiving(j), Streaming(0, []), a, [], [], []);
    schedule := Go(env, s, before, 1, t, ClientReceive, u);
    var v := u.(client := Streaming(1, a), up := [Chunk(0, a)]);
    assert NextFrame(env, a, 0, []) == Chunk(0, a) by { assert a[0..1] == a; }
    assert [] + a == a;
    schedule := Go(env, s, schedule, 1, u, ClientSend, v);
    var w := v.(server := Writing(j, a, 0), up := []);
    schedule := Go(env, s, schedule, 1, v, ServerReceive, w);
    var x := w.(disk := Pair(env, Some(a), 0), server := Saving(k, a, Make));
    schedule := Go(env, s, schedule, 1, w, io, x);
    schedule, u := SaveOne(env, s, schedule, x);
    schedule := Go(env, s, schedule, 1, u, Loss(0, 0), u.(connected := false));
    v := u.(connected := false, client := Severed);
    schedule := Go(env, s, schedule, 1, u.(connected := false), ClientAbort, v);
    schedule := Go(env, s, schedule, 1, v, ServerReceive, v.(server := Closed));
  }

  // The second one reads another byte. Its digest is found wrong, and the step
  // that removes the pair lowers the offset from 1 to 0.
  lemma SecondAttempt(env: Env, s: System, before: seq<Label>) returns (schedule: seq<Label>)
    requires env.chunk > 0 && env.hash([1]) != env.hash([2])
    requires Reaches(env, s, before, 1, System(Pair(env, Some([1]), 1), Closed, Severed, [1], [], [], false, [1]))
    ensures
      var t := Run(env, s, schedule);
      && (forall l :: l in schedule ==> Calm(l, 1))
      && Persisted(t.disk) == 1 && t.server == Purging(false, ToRest(false)) && t.disk.target.None?
  {
    var b: Bytes, io := [2], ServerIo(Done);
    var j, kept := Job(1, 0, 0, []), Pair(env, Some([1]), 1);
    var t := At(kept, Idle, AwaitOffset, b, [Upload(1, 0)], [], [1]);
    schedule := Go(env, s, before, 1, System(kept, Closed, Severed, [1], [], [], false, [1]), Reconnect(b), t);
    var u := At(kept, Starting(j), AwaitOffset, b, [], [], [1]);
    schedule := Go(env, s, schedule, 1, t, ServerReceive, u);
    var v := u.(server := Deciding(j));
    schedule := Go(env, s, schedule, 1, u, io, v);
    schedule := Resumption(env, s, schedule, v);
  }

  lemma Resumption(env: Env, s: System, before: seq<Label>, t: System) returns (schedule: seq<Label>)
    requires env.chunk > 0 && env.hash([1]) != env.hash([2]) && Reaches(env, s, before, 1, t)
    requires t == At(Pair(env, Some([1]), 1), Deciding(Job(1, 0, 0, [])), AwaitOffset, [2], [], [], [1])
    ensures
      var u := Run(env, s, schedule);
      && (forall l :: l in schedule ==> Calm(l, 1))
      && Persisted(u.disk) == 1 && u.server == Purging(false, ToRest(false)) && u.disk.target.None?
  {
    var io, k, one: Bytes := ServerIo(Done), Job(1, 0, 1, [1]), [1];
    assert one[..1] == one && one + [] == one;
    var u := t.(server := Opening(k));
    schedule := Go(env, s, before, 1, t, io, u);
    schedule := Go(env, s, schedule, 1, u, io, u.(server := Truncating(k)));
    u := u.(server := Saving(k, [], Make));
    schedule := Go(env, s, schedule, 1, u.(server := Truncating(k)), io, u);
    var v;
    schedule, v := SaveOne(env, s, schedule, u);
    u := u.(server := Receiving(k), down := [Ack(FILE_UPLOAD, 1)]);
    schedule := Go(env, s, schedule, 1, v, ServerSend(true), u);
    schedule := WrongDigest(env, s, schedule, u);
  }

  lemma WrongDigest(env: Env, s: System, before: seq<Label>, t: System) returns (schedule: seq<Label>)
    requires env.chunk > 0 && env.hash([1]) != env.hash([2]) && Reaches(env, s, before, 1, t)
    requires t == At(Pair(env, Some([1]), 1), Receiving(Job(1, 0, 1, [1])), AwaitOffset, [2],
                     [], [Ack(FILE_UPLOAD, 1)], [1])
    ensures
      var u := Run(env, s, schedule);
      && (forall l :: l in schedule ==> Calm(l, 1))
      && Persisted(u.disk) == 1 && u.server == Purging(false, ToRest(false)) && u.disk.target.None?
  {
    var b: Bytes := [2];
    assert b[..1] == b;
    var u := t.(client := Streaming(1, b), down := []);
    schedule := Go(env, s, before, 1, t, ClientReceive, u);
    var v := u.(client := AwaitFinal(1, env.hash(b)), up := [Checksum(1, env.hash(b))]);
    schedule := Go(env, s, schedule, 1, u, ClientSend, v);
    var w := v.(server := Discard(FILE_CHECKSUM, CHECKSUM_MISMATCH), up := []);
    schedule := Go(env, s, schedule, 1, v, ServerReceive, w);
    var x := w.(server := Purging(false, ToRest(false)), down := [Error(FILE_CHECKSUM, CHECKSUM_MISMATCH)]);
    schedule := Go(env, s, schedule, 1, w, ServerSend(true), x);
  }

  // Two sources of one size with different digests: the offset does fall back.
  lemma ChangedSourceDrops(env: Env, s: System) returns (schedule: seq<Label>)
    requires env.chunk > 0 && !env.quietFails && env.hash([1]) != env.hash([2])
    requires Init(s) && s.source == [1] && s.disk == Disk(None, None, None, None, false)
    ensures CalmRetries(env, s, schedule + [ServerIo(Done)], 1)
    ensures Persisted(Run(env, s, schedule).disk) == 1
    ensures Persisted(Run(env, s, schedule + [ServerIo(Done)]).disk) == 0
    ensures Run(env, s, schedule + [ServerIo(Done)]).disk.target.None?
  {
    schedule := FirstAttempt(env, s);
    schedule := SecondAttempt(env, s, schedule);
    var t := Run(env, s, schedule);
    var more := Go(env, s, schedule, 1, t, ServerIo(Done), Step(env, t, ServerIo(Done)));
  }
}
