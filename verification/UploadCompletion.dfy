// An upload that is left in peace completes: after any history of interrupted
// attempts over one file, an attempt in which nothing fails ends, whatever the
// interleaving, with the file published.

module UploadCompletion {
  import opened Protocol
  import opened Files
  import opened Transfer
  import opened Tiling
  import opened UploadSteps
  import opened UploadSystem
  import opened UploadInvariant
  import opened UploadProof
  import opened UploadTheorems
  import opened UploadRetries

  // Steps of the two programs in which nothing fails.
  predicate Undisturbed(l: Label) {
    l.ClientSend? || l.ClientReceive? || l.ServerReceive? || l == ServerIo(Done) || l == ServerSend(true)
  }

  predicate AllUndisturbed(schedule: seq<Label>) { forall l :: l in schedule ==> Undisturbed(l) }

  // ----- an attempt on its way -----

  predicate Smooth(p: Phase) {
    && !p.Replying? && !p.RollingBack? && !p.Closed?
    && (p.Purging? ==> !p.then_.ToReply? && p.then_ != ToRest(true))
  }

  // The target appears at the link step and not before.
  predicate Unpublished(c: Client, p: Phase, d: Disk) {
    d.target.None? || p.Unlinking? || p.Dropping? || p.Confirming? || (c.AwaitFinal? && Resting(p))
  }

  predicate NoError(q: seq<Msg>) { forall i :: 0 <= i < |q| ==> q[i].Ack? }

  predicate Active(c: Client) { c.AwaitOffset? || c.Streaming? || c.AwaitFinal? }

  predicate Healthy(s: System) {
    && s.connected && Active(s.client) && Smooth(s.server) && NoError(s.down)
    && Unpublished(s.client, s.server, s.disk)
  }

  ghost predicate Going(env: Env, s: System, file: Bytes) {
    Same(env, s, file) && !env.quietFails && env.chunk > 0 && Healthy(s)
  }

  ghost predicate Complete(env: Env, s: System, file: Bytes) {
    s.client == Ready(Returned(|file|, env.hash(file))) && s.disk.target == Some(file)
  }

  // ----- how much is left to do -----

  function Rank(p: Phase): nat {
    match p
    case Starting(_) => 22
    case Purging(metaOnly, then_) =>
      var rest := match then_ case ToDecide(_) => 20 case ToOpen(_) => 17 case ToReply(_) => 4 case ToRest(_) => 3;
      rest + if metaOnly then 0 else 1
    case Deciding(_) => 19
    case Opening(_) => 16
    case Truncating(_) => 15
    case Writing(_, _, _) => 15
    case Saving(_, _, save) => (match save case Make => 14 case Dump => 13 case Swap(_) => 12)
    case Acking(_) => 11
    case Syncing(_) => 14
    case Linking(_) => 13
    case Unlinking(_) => 12
    case Dropping(_) => 11
    case Confirming(_) => 10
    case _ => 0
  }

  function ClientRank(c: Client, size: nat): nat {
    match c
    case AwaitOffset => 30 * size + 100
    case Streaming(sent, _) => (if sent <= size then 30 * (size - sent) else 0) + 60
    case AwaitFinal(_, _) => 10
    case _ => 0
  }

  function Left(s: System): nat {
    Rank(s.server) + 25 * |s.up| + 5 * |s.down| + ClientRank(s.client, |s.source|)
  }

  // A step either does nothing, or completes the attempt, or brings it closer.
  ghost predicate Closer(env: Env, s: System, t: System, file: Bytes) {
    t == s || Complete(env, t, file) || (Going(env, t, file) && Left(t) < Left(s))
  }

  // ----- the server's file operations -----

  lemma DoneLocal(env: Env, d: Disk, p: Phase, source: Bytes, accepted: Bytes)
    requires DiskOk(env, d, p, source, accepted) && Working(p) && Smooth(p) && !env.quietFails
    requires d.target.None? || p.Unlinking? || p.Dropping? || Resting(p)
    ensures
      var e := Local(env, d, p, Done);
      && Smooth(e.next) && Rank(e.next) < Rank(p)
      && Allowed(d, e.op)
      && (|| Apply(d, e.op).target.None? || e.next.Unlinking? || e.next.Dropping? || e.next.Confirming?
          || (Resting(e.next) && Resting(p)))
  {
  }

  lemma IoHealthy(env: Env, s: System)
    requires Healthy(s) && Working(s.server) && !env.quietFails
    requires DiskOk(env, s.disk, s.server, s.source, s.accepted)
    ensures var t := Step(env, s, ServerIo(Done)); Healthy(t) && Left(t) < Left(s)
  {
    DoneLocal(env, s.disk, s.server, s.source, s.accepted);
  }

  lemma IoCloser(env: Env, s: System, file: Bytes)
    requires Going(env, s, file)
    ensures Closer(env, s, Step(env, s, ServerIo(Done)), file)
  {
    if Working(s.server) {
      SameStep(env, s, ServerIo(Done), file);
      IoHealthy(env, s);
    } else {
      assert Step(env, s, ServerIo(Done)) == s;
    }
  }

  lemma SendEffect(env: Env, s: System)
    requires s.connected && (s.server.Acking? || s.server.Confirming?)
    ensures
      var j := s.server.j;
      Step(env, s, ServerSend(true)) ==
        if s.server.Acking? then s.(server := Receiving(j), down := s.down + [Ack(FILE_UPLOAD, j.received)])
        else s.(server := Purging(false, ToRest(false)), down := s.down + [Ack(FILE_CHECKSUM, j.received)])
  {
  }

  // The client is waiting for what the server confirms.
  lemma AwaitsFinal(env: Env, s: System)
    requires Inv(env, s) && Healthy(s) && s.server.Confirming?
    ensures s.client.AwaitFinal?
  {
  }

  lemma SendHealthy(env: Env, s: System)
    requires Healthy(s) && (s.server.Acking? || (s.server.Confirming? && s.client.AwaitFinal?))
    ensures var t := Step(env, s, ServerSend(true)); Healthy(t) && Left(t) < Left(s)
  {
    SendEffect(env, s);
  }

  lemma SendCloser(env: Env, s: System, file: Bytes)
    requires Going(env, s, file)
    ensures Closer(env, s, Step(env, s, ServerSend(true)), file)
  {
    if Outgoing(s.server).Some? {
      SameStep(env, s, ServerSend(true), file);
      if s.server.Confirming? { AwaitsFinal(env, s); }
      SendHealthy(env, s);
    } else {
      assert Step(env, s, ServerSend(true)) == s;
    }
  }

  // What the server makes of the next frame of an attempt on its way.
  lemma ReceivedPhase(env: Env, s: System, file: Bytes)
    requires Going(env, s, file) && Listening(s.server) && s.up != []
    ensures
      var p := Next(env, s.disk, s.server, Got(s.up[0])).next;
      p.Starting? || p.Writing? || p.Syncing?
  {
    if s.server.Receiving? && s.up[0].Checksum? { assert s.server.j.fed == file; }
  }

  lemma ReceiveCloser(env: Env, s: System, file: Bytes)
    requires Going(env, s, file)
    ensures Closer(env, s, Step(env, s, ServerReceive), file)
  {
    if Listening(s.server) && s.up != [] {
      SameStep(env, s, ServerReceive, file);
      ReceivedPhase(env, s, file);
      ReceiveEffect(env, s);
    }
  }

  lemma ReceiveEffect(env: Env, s: System)
    requires Listening(s.server) && s.up != []
    ensures
      var p := Next(env, s.disk, s.server, Got(s.up[0])).next;
      !p.Closed? ==> Step(env, s, ServerReceive) == s.(up := s.up[1..], server := p)
  {
  }

  lemma ClientReceiveCloser(env: Env, s: System, file: Bytes)
    requires Going(env, s, file)
    ensures Closer(env, s, Step(env, s, ClientReceive), file)
  {
    if s.down != [] && !s.client.Streaming? {
      SameStep(env, s, ClientReceive, file);
    }
  }

  lemma ClientSendCloser(env: Env, s: System, file: Bytes)
    requires Going(env, s, file)
    ensures Closer(env, s, Step(env, s, ClientSend), file)
  {
    if s.client.Streaming? { SameStep(env, s, ClientSend, file); }
  }

  // ----- every interleaving -----

  lemma StepCloser(env: Env, s: System, l: Label, file: Bytes)
    requires Going(env, s, file) && Undisturbed(l)
    ensures Closer(env, s, Step(env, s, l), file)
  {
    match l
    case ServerIo(_) => IoCloser(env, s, file);
    case ServerSend(_) => SendCloser(env, s, file);
    case ServerReceive => ReceiveCloser(env, s, file);
    case ClientReceive => ClientReceiveCloser(env, s, file);
    case ClientSend => ClientSendCloser(env, s, file);
  }

  // Until it is complete some step brings an attempt closer: it never gets stuck.
  lemma SomeStep(env: Env, s: System, file: Bytes) returns (l: Label)
    requires Going(env, s, file)
    ensures Undisturbed(l) && Step(env, s, l) != s
  {
    l := if Working(s.server) then ServerIo(Done)
         else if Outgoing(s.server).Some? then ServerSend(true)
         else if s.up != [] then ServerReceive
         else if s.client.Streaming? then ClientSend
         else ClientReceive;
    StepCloser(env, s, l, file);
  }

  // From an attempt on its way, undisturbed steps lead to its completion, and
  // no more of them than Left says.
  lemma {:induction false} Completes(env: Env, s: System, file: Bytes) returns (schedule: seq<Label>)
    requires Going(env, s, file)
    ensures AllUndisturbed(schedule) && |schedule| <= Left(s)
    ensures Complete(env, Run(env, s, schedule), file)
    decreases Left(s)
  {
    var l := SomeStep(env, s, file);
    StepCloser(env, s, l, file);
    var t := Step(env, s, l);
    assert Run(env, s, [l]) == t by { assert [l][..0] == []; }
    schedule := [l];
    if !Complete(env, t, file) {
      var rest := Completes(env, t, file);
      RunAppend(env, s, [l], rest);
      schedule := [l] + rest;
    }
  }

  // The steps of a schedule that change something.
  ghost function Moves(env: Env, s: System, schedule: seq<Label>): nat {
    if schedule == [] then 0
    else
      var front, last := schedule[..|schedule| - 1], schedule[|schedule| - 1];
      var t := Run(env, s, front);
      Moves(env, s, front) + if Step(env, t, last) == t then 0 else 1
  }

  // Whatever the interleaving: along any undisturbed schedule the attempt
  // completes, or is on its way with as much less to do as steps were taken.
  lemma {:induction false} AnyInterleaving(env: Env, s: System, schedule: seq<Label>, file: Bytes)
    requires Going(env, s, file) && AllUndisturbed(schedule)
    ensures
      || (exists n :: 0 <= n <= |schedule| && Complete(env, Run(env, s, schedule[..n]), file))
      || (Going(env, Run(env, s, schedule), file)
          && Left(Run(env, s, schedule)) + Moves(env, s, schedule) <= Left(s))
  {
    if schedule != [] {
      var front, last := schedule[..|schedule| - 1], schedule[|schedule| - 1];
      AnyInterleaving(env, s, front, file);
      if n :| 0 <= n <= |front| && Complete(env, Run(env, s, front[..n]), file) {
        assert schedule[..n] == front[..n];
      } else {
        StepCloser(env, Run(env, s, front), last, file);
        if Complete(env, Run(env, s, schedule), file) { assert schedule[..|schedule|] == schedule; }
      }
    }
  }

  // ----- a retry -----

  // A session that is being closed is not connected any more.
  predicate Staying(s: System) { s.connected && s.server.Purging? ==> s.server.then_ != ToRest(true) }

  lemma StepStays(env: Env, s: System, l: Label)
    requires Staying(s)
    ensures Staying(Step(env, s, l))
  {
  }

  lemma {:induction false} RunStays(env: Env, s: System, history: seq<Label>)
    requires Init(s)
    ensures Staying(Run(env, s, history))
  {
    if history != [] {
      var front := history[..|history| - 1];
      RunStays(env, s, front);
      StepStays(env, Run(env, s, front), history[|history| - 1]);
    }
  }

  // The next call: on a new session once the old one is released, or on the
  // session that stayed open after an error.
  predicate MayRetry(t: System, l: Label, file: Bytes) {
    && t.disk.target.None?
    && ((l == Reconnect(file) && t.server.Closed? && (t.client.Severed? || t.client.Ready?))
        || (l == Begin(file) && t.client.Ready? && t.connected))
  }

  ghost predicate Retries(env: Env, s: System, history: seq<Label>, l: Label, file: Bytes) {
    && Init(s) && s.source == file && env.chunk > 0 && !env.quietFails && AllFrom(history, file)
    && MayRetry(Run(env, s, history), l, file)
  }

  lemma RetryIsGoing(env: Env, s: System, history: seq<Label>, l: Label, file: Bytes)
    requires Retries(env, s, history, l, file)
    ensures
      var t := Step(env, Run(env, s, history), l);
      Going(env, t, file) && Left(t) <= 30 * |file| + 129
  {
    SameRun(env, s, history, file);
    RunStays(env, s, history);
    SameStep(env, Run(env, s, history), l, file);
  }

  // After any history of attempts over one file that left it unpublished, a new
  // attempt completes if it is left in peace.
  lemma RetryCompletes(env: Env, s: System, history: seq<Label>, l: Label, file: Bytes) returns (schedule: seq<Label>)
    requires Retries(env, s, history, l, file)
    ensures AllUndisturbed(schedule) && |schedule| <= 30 * |file| + 129
    ensures Complete(env, Run(env, s, history + [l] + schedule), file)
  {
    RetryIsGoing(env, s, history, l, file);
    var t := Step(env, Run(env, s, history), l);
    schedule := Completes(env, t, file);
    assert (history + [l])[..|history|] == history;
    assert Run(env, s, history + [l]) == t;
    RunAppend(env, s, history + [l], schedule);
  }
}
