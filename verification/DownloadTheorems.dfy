// The main results about resumable download, for every schedule of attempts,
// connection losses, and client and server kills.

module DownloadTheorems {
  import opened Protocol
  import opened Transfer
  import opened Tiling
  import opened DownloadSystem
  import opened DownloadProof

  lemma ReachableInv(env: Env, s: System, schedule: seq<Label>)
    requires Init(s) && env.chunk > 0
    ensures Inv(env, Run(env, s, schedule), LastSizeKnown(env, s, schedule))
  {
    RunKeeps(env, s, schedule);
  }

  // ----- what is published -----

  // Whatever stale .part file the run starts from, and wherever calls are cut: a
  // destination that exists has the size of the server's file if and only if the
  // call that linked it, the last one that asked for the file, knew the size of
  // its .part; and then it has the digest of the server's file.
  lemma PublishedFile(env: Env, s: System, schedule: seq<Label>)
    requires Init(s) && env.chunk > 0
    ensures
      var t := Run(env, s, schedule);
      t.disk.final.Some? ==>
        && t.file.Some?
        && (|t.disk.final.value| == |t.file.value| <==> LastSizeKnown(env, s, schedule))
        && (LastSizeKnown(env, s, schedule) ==> env.hash(t.disk.final.value) == env.hash(t.file.value))
  {
    ReachableInv(env, s, schedule);
  }

  // A download that returns has announced the size and digest of the server's
  // file, and what it has put under the destination name is described above.
  lemma DownloadEndToEnd(env: Env, s: System, schedule: seq<Label>)
    requires Init(s) && env.chunk > 0
    ensures
      var t := Run(env, s, schedule);
      t.client.Ready? && t.client.last.Returned? ==>
        && t.file.Some? && t.disk.final.Some?
        && t.client.last == Returned(|t.file.value|, env.hash(t.file.value))
        && (|t.disk.final.value| == |t.file.value| <==> LastSizeKnown(env, s, schedule))
        && (LastSizeKnown(env, s, schedule) ==> env.hash(t.disk.final.value) == t.client.last.digest)
  {
    ReachableInv(env, s, schedule);
  }

  // ----- a download that goes wrong -----

  lemma Go(env: Env, s: System, schedule: seq<Label>, t: System, l: Label, u: System) returns (more: seq<Label>)
    requires Run(env, s, schedule) == t && Step(env, t, l) == u
    ensures more == schedule + [l] && Run(env, s, more) == u
  {
    more := schedule + [l];
    assert more[..|schedule|] == schedule;
  }

  // The size of a one-byte .part cannot be read: the client asks for offset 0,
  // appends the whole file and returns with the wrong destination.
  lemma UnreadSizeBreaksDownload(env: Env, s: System) returns (schedule: seq<Label>)
    requires env.chunk >= 2 && Init(s) && s.file == Some([7, 8]) && s.disk == Local(None, Some([7]), [], false)
    ensures
      var t := Run(env, s, schedule);
      && t.client == Ready(Returned(2, env.hash([7, 8])))
      && t.disk.final == Some([7, 7, 8])
  {
    var f: Bytes := [7, 8];
    var t := System(s.file, Idle, Asking(0), s.disk, [Download(0)], [], true);
    schedule := Go(env, s, [], s, Reconnect(false), t);
    schedule := Go(env, s, schedule, t, ServerReceive, t.(server := Locating(0), up := []));
    schedule := Go(env, s, schedule, t.(server := Locating(0), up := []), ServerIo(Done),
      t.(server := Offering(0), up := []));
    var u := t.(server := AwaitInfo(0), up := [], down := [Info(2, 0)]);
    schedule := Go(env, s, schedule, t.(server := Offering(0), up := []), ServerSend(true), u);
    var v := u.(client := Preparing(0, 2, 0), down := []);
    schedule := Go(env, s, schedule, u, ClientReceive(Done), v);
    schedule := Go(env, s, schedule, v, ClientOp(Done), v.(client := Opening(Count(2, 0, []), 0)));
    var w := v.(client := Accepting(Count(2, 0, []), 0));
    schedule := Go(env, s, schedule, v.(client := Opening(Count(2, 0, []), 0)), ClientOp(Done), w);
    var x := w.(client := Receiving(Count(2, 0, [])), up := [Ack(FILE_INFO, 0)]);
    schedule := Go(env, s, schedule, w, ClientSend, x);
    schedule := Go(env, s, schedule, x, ServerReceive, x.(server := Sending(0, 0), up := []));
    schedule := UnreadSizeStream(env, s, schedule, x.(server := Sending(0, 0), up := []));
  }

  lemma UnreadSizeStream(env: Env, s: System, before: seq<Label>, t: System) returns (schedule: seq<Label>)
    requires env.chunk >= 2 && Run(env, s, before) == t
    requires t == System(Some([7, 8]), Sending(0, 0), Receiving(Count(2, 0, [])),
                         Local(None, Some([7]), [], false), [], [], true)
    ensures
      var u := Run(env, s, schedule);
      u.client == Ready(Returned(2, env.hash([7, 8]))) && u.disk.final == Some([7, 7, 8])
  {
    var f: Bytes := [7, 8];
    assert f[0..2] == f;
    var u := t.(server := Sending(0, 2), down := [Chunk(0, f)]);
    schedule := Go(env, s, before, t, ServerSend(true), u);
    var v := u.(server := AwaitFinal, down := [Chunk(0, f), Checksum(2, env.hash(f))]);
    schedule := Go(env, s, schedule, u, ServerSend(true), v);
    schedule := UnreadSizeTake(env, s, schedule, v);
  }

  lemma UnreadSizeTake(env: Env, s: System, before: seq<Label>, t: System) returns (schedule: seq<Label>)
    requires env.chunk >= 2 && Run(env, s, before) == t
    requires t == System(Some([7, 8]), AwaitFinal, Receiving(Count(2, 0, [])), Local(None, Some([7]), [], false),
                         [], [Chunk(0, [7, 8]), Checksum(2, env.hash([7, 8]))], true)
    ensures
      var u := Run(env, s, schedule);
      u.client == Ready(Returned(2, env.hash([7, 8]))) && u.disk.final == Some([7, 7, 8])
  {
    var f: Bytes := [7, 8];
    assert [] + f == f;
    var u := t.(client := Receiving(Count(2, 2, f)), disk := Local(None, Some([7]), f, false),
                down := [Checksum(2, env.hash(f))]);
    schedule := Go(env, s, before, t, ClientReceive(Done), u);
    var v := u.(client := Syncing(Count(2, 2, f)), down := []);
    schedule := Go(env, s, schedule, u, ClientReceive(Done), v);
    schedule := UnreadSizePublish(env, s, schedule, v);
  }

  lemma UnreadSizePublish(env: Env, s: System, before: seq<Label>, t: System) returns (schedule: seq<Label>)
    requires Run(env, s, before) == t
    requires t == System(Some([7, 8]), AwaitFinal, Syncing(Count(2, 2, [7, 8])),
                         Local(None, Some([7]), [7, 8], false), [], [], true)
    ensures
      var u := Run(env, s, schedule);
      u.client == Ready(Returned(2, env.hash([7, 8]))) && u.disk.final == Some([7, 7, 8])
  {
    var wrong: Bytes, n := [7, 7, 8], Count(2, 2, [7, 8]);
    assert [7] + [7, 8] == wrong;
    var u := t.(client := Linking(n), disk := Local(None, Some(wrong), [], false));
    schedule := Go(env, s, before, t, ClientOp(Done), u);
    var v := u.(client := Unlinking(n), disk := Local(Some(wrong), Some(wrong), [], true));
    schedule := Go(env, s, schedule, u, ClientOp(Done), v);
    var w := v.(client := Confirming(n), disk := Local(Some(wrong), None, [], false));
    schedule := Go(env, s, schedule, v, ClientOp(Done), w);
    var end := w.(client := Ready(Returned(2, env.hash([7, 8]))), up := [Ack(FILE_CHECKSUM, 2)]);
    schedule := Go(env, s, schedule, w, ClientSend, end);
  }

  // ----- quiescence and positions -----

  // When download_file has returned or raised on an open connection, nothing
  // is on its way to the client, and the server, having taken the at most one
  // frame left for it, is in its dispatcher and has nothing to say.
  lemma Quiescence(env: Env, s: System, schedule: seq<Label>)
    requires Init(s) && env.chunk > 0
    ensures
      var t := Run(env, s, schedule);
      t.client.Ready? && t.connected ==>
        && t.down == [] && |t.up| <= 1
        && var r := if t.up == [] then t else Step(env, t, ServerReceive);
        && r.server.Idle? && r.up == [] && r.down == [] && r.client == t.client
  {
    ReachableInv(env, s, schedule);
  }

  // So whatever the client asks next, of this or another kind, finds the server in
  // its dispatcher with that request alone in front of it.
  lemma NextRequest(env: Env, s: System, schedule: seq<Label>, m: Msg)
    requires Init(s) && env.chunk > 0
    ensures
      var t := Run(env, s, schedule);
      t.client.Ready? && t.connected ==>
        var u := t.(up := t.up + [m]);
        var r := if t.up == [] then u else Step(env, u, ServerReceive);
        r.server.Idle? && r.up == [m] && r.down == []
  {
    ReachableInv(env, s, schedule);
  }

  // The chunks in flight tile the file from the client's position to the
  // server's, and neither end ever reports a position, size or order error.
  lemma PositionsAgree(env: Env, s: System, schedule: seq<Label>)
    requires Init(s) && env.chunk > 0
    ensures
      var t := Run(env, s, schedule);
      && (t.connected && t.client.Receiving? && t.server.Sending? ==>
            && t.file.Some? && Tiles(env, t.down, t.client.c.received, t.file.value)
            && EndOf(t.down, t.client.c.received) == t.server.sent)
      && (t.client.Reporting? && t.client.m.Error? ==> !Mismatch(t.client.m.code))
      && (t.server.Replying? && t.server.m.Error? ==> !Mismatch(t.server.m.code))
  {
    ReachableInv(env, s, schedule);
  }

  // ----- a file that does not change, and its own partial downloads -----

  // What .part holds or will hold when its buffer is written.
  ghost function Content(d: Local): Bytes {
    if d.part.Some? then d.part.value + d.buffer else []
  }

  ghost predicate Honest(s: System, f: Bytes) {
    && s.file == Some(f)
    && Content(s.disk) <= f
    && (s.disk.part.Some? ==> s.disk.part.value <= f)
    && (s.disk.final.Some? ==> s.disk.final == Some(f))
  }

  lemma HonestChunk(env: Env, s: System, writes: Outcome, f: Bytes)
    requires Inv(env, s, true) && Honest(s, f) && s.client.Receiving? && s.down != [] && s.down[0].Chunk?
    ensures Honest(Step(env, s, ClientReceive(writes)), f)
  {
    var d, n, data := s.disk, s.client.c, s.down[0].data;
    assert d.part.value + (d.buffer + data) == n.hashed + data;
    assert n.hashed + data == f[..n.received + |data|];
    assert (d.part.value + d.buffer) + [] == d.part.value + d.buffer;
  }

  lemma HonestReceive(env: Env, s: System, writes: Outcome, f: Bytes)
    requires Inv(env, s, true) && Honest(s, f)
    ensures Honest(Step(env, s, ClientReceive(writes)), f)
  {
    if s.client.Receiving? && s.down != [] && s.down[0].Chunk? {
      HonestChunk(env, s, writes, f);
    } else {
      var d := s.disk;
      if d.part.Some? { assert (d.part.value + d.buffer) + [] == d.part.value + d.buffer; }
    }
  }

  lemma HonestIo(env: Env, s: System, o: Outcome, f: Bytes)
    requires Inv(env, s, true) && Honest(s, f)
    ensures Honest(Step(env, s, ClientOp(o)), f)
  {
    var d := s.disk;
    if s.client.Linking? { assert d.part.value + [] == f; }
    if d.part.Some? { assert d.part.value + [] == d.part.value; }
  }

  lemma HonestOther(env: Env, s: System, l: Label, f: Bytes)
    requires Inv(env, s, true) && Honest(s, f) && !l.ClientOp? && !l.ClientReceive?
    ensures Honest(Step(env, s, l), f)
  {
    var d := s.disk;
    if d.part.Some? {
      assert d.part.value + [] == d.part.value;
      assert (d.part.value + d.buffer) + [] == d.part.value + d.buffer;
      if l.Flush? && l.n <= |d.buffer| {
        assert d.buffer[..l.n] + d.buffer[l.n..] == d.buffer;
        assert (d.part.value + d.buffer[..l.n]) + d.buffer[l.n..] == d.part.value + d.buffer;
      }
    }
  }

  // Every call of the schedule that asked for the file knew the size of its .part.
  ghost predicate SizesKnown(env: Env, s: System, schedule: seq<Label>) {
    schedule == [] ||
    var front, last := schedule[..|schedule| - 1], schedule[|schedule| - 1];
    SizesKnown(env, s, front) && KnownAfter(Run(env, s, front), last, true)
  }

  lemma {:induction false} AllKnown(env: Env, s: System, schedule: seq<Label>)
    requires SizesKnown(env, s, schedule)
    ensures LastSizeKnown(env, s, schedule)
  {
    if schedule != [] { AllKnown(env, s, schedule[..|schedule| - 1]); }
  }

  lemma {:induction false} HonestRun(env: Env, s: System, schedule: seq<Label>, f: Bytes)
    requires Init(s) && env.chunk > 0 && SizesKnown(env, s, schedule) && Honest(s, f)
    ensures Inv(env, Run(env, s, schedule), true) && Honest(Run(env, s, schedule), f)
  {
    ReachableInv(env, s, schedule);
    AllKnown(env, s, schedule);
    if schedule != [] {
      var front, last := schedule[..|schedule| - 1], schedule[|schedule| - 1];
      HonestRun(env, s, front, f);
      match last {
        case ClientOp(o) => HonestIo(env, Run(env, s, front), o, f);
        case ClientReceive(writes) => HonestReceive(env, Run(env, s, front), writes, f);
        case _ => HonestOther(env, Run(env, s, front), last, f);
      }
    }
  }

  // From no partial file, or one that is a prefix of the server's file, every
  // .part ever on disk is a prefix of the file, and a download that returns
  // has produced the file itself. Nothing is assumed of the digest.
  lemma RetriedDownloadEndToEnd(env: Env, s: System, schedule: seq<Label>, f: Bytes)
    requires Init(s) && env.chunk > 0 && SizesKnown(env, s, schedule)
    requires s.file == Some(f) && (s.disk.part.Some? ==> s.disk.part.value <= f)
    ensures
      var t := Run(env, s, schedule);
      && (t.disk.part.Some? ==> t.disk.part.value <= f)
      && (t.disk.final.Some? ==> t.disk.final.value == f)
      && (t.client.Ready? && t.client.last.Returned? ==> t.disk.final == Some(f))
  {
    if s.disk.part.Some? { assert s.disk.part.value + [] == s.disk.part.value; }
    HonestRun(env, s, schedule, f);
  }
}
