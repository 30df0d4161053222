// A download that is left in peace completes: after any history of interrupted
// downloads of one file, a new call in which nothing fails ends, whatever the
// interleaving, with the file itself at the destination.

module DownloadCompletion {
  import opened Protocol
  import opened Transfer
  import opened Tiling
  import opened DownloadSystem
  import opened DownloadProof
  import opened DownloadTheorems

  // Steps of the two programs in which nothing fails.
  predicate Undisturbed(l: Label) {
    || l == ClientOp(Done) || l == ClientReceive(Done) || l.ClientSend?
    || l == ServerIo(Done) || l.ServerReceive? || l == ServerSend(true)
  }

  predicate AllUndisturbed(schedule: seq<Label>) { forall l :: l in schedule ==> Undisturbed(l) }

  // ----- a call on its way -----

  predicate Active(c: Client) {
    !c.Ready? && !c.Severed? && !c.Reporting? && !c.Cleaning?
  }

  // The server is serving this call and has nothing to complain about, or has yet
  // to take the frame that ended the call before it.
  predicate Serving(p: Server, up: seq<Msg>) {
    && !p.Closed? && !p.Replying?
    && (p.Idle? ==> |up| == 1 && up[0].Download?)
    && (p.AwaitFinal? ==> up == [] || Trailing(up))
    && (Trailing(up) || forall i :: 0 <= i < |up| ==> !up[i].Error?)
  }

  predicate Trailing(up: seq<Msg>) { |up| == 2 && up[1].Download? }

  predicate NoError(q: seq<Msg>) { forall i :: 0 <= i < |q| ==> !q[i].Error? }

  ghost predicate Going(env: Env, s: System, f: Bytes) {
    && Inv(env, s, true) && Honest(s, f) && env.chunk > 0
    && s.connected && Active(s.client) && Serving(s.server, s.up) && NoError(s.down)
    && (s.client.Preparing? || s.client.Opening? ==> s.disk.buffer == [])
  }

  ghost predicate Complete(env: Env, s: System, f: Bytes) {
    s.client == Ready(Returned(|f|, env.hash(f))) && s.disk.final == Some(f)
  }

  // ----- how much is left to do -----

  function ClientRank(c: Client): nat {
    match c
    case Asking(_) => 60
    case Preparing(_, _, _) => 50
    case Opening(_, _) => 40
    case Accepting(_, _) => 30
    case Receiving(_) => 20
    case Syncing(_) => 15
    case Linking(_) => 14
    case Unlinking(_) => 13
    case Confirming(_) => 12
    case _ => 0
  }

  function ServerRank(p: Server, size: nat): nat {
    match p
    case Idle => 10 * size + 100
    case Locating(_) => 10 * size + 90
    case Offering(_) => 10 * size + 80
    case AwaitInfo(_) => 10 * size + 70
    case Sending(_, sent) => (if sent <= size then 10 * (size - sent) else 0) + 60
    case AwaitFinal => 10
    case _ => 0
  }

  function Left(s: System, f: Bytes): nat {
    var server := if Trailing(s.up) then 10 * |f| + 101 else ServerRank(s.server, |f|);
    ClientRank(s.client) + server + 5 * |s.up| + 5 * |s.down|
  }

  // A step either does nothing, or completes the call, or brings it closer.
  ghost predicate Closer(env: Env, s: System, t: System, f: Bytes) {
    t == s || Complete(env, t, f) || (Going(env, t, f) && Left(t, f) < Left(s, f))
  }

  // ----- each undisturbed step -----

  lemma Kept(env: Env, s: System, l: Label, f: Bytes)
    requires Going(env, s, f) && Undisturbed(l)
    ensures Inv(env, Step(env, s, l), true) && Honest(Step(env, s, l), f)
  {
    StepKeeps(env, s, l, true);
    match l
    case ClientOp(o) => HonestIo(env, s, o, f);
    case ClientReceive(writes) => HonestReceive(env, s, writes, f);
    case _ => HonestOther(env, s, l, f);
  }

  lemma ClientOpCloser(env: Env, s: System, f: Bytes)
    requires Going(env, s, f)
    ensures Closer(env, s, Step(env, s, ClientOp(Done)), f)
  {
    Kept(env, s, ClientOp(Done), f);
  }

  // What the client makes of the next frame of a call on its way.
  lemma Taken(env: Env, s: System, f: Bytes)
    requires Going(env, s, f) && (s.client.Asking? || s.client.Receiving?) && s.down != []
    ensures
      var c := ClientTakes(env, s.disk, s.client, s.down[0], Done).next;
      if s.client.Asking? then c.Preparing? && s.disk.buffer == [] else c.Receiving? || c.Syncing?
  {
    if s.client.Receiving? && s.down[0].Checksum? { assert s.client.c.hashed == f; }
  }

  lemma TakenEffect(env: Env, s: System)
    requires (s.client.Asking? || s.client.Receiving?) && s.down != []
    ensures
      var e := ClientTakes(env, s.disk, s.client, s.down[0], Done);
      && Step(env, s, ClientReceive(Done)) == Become(s.(down := s.down[1..]), e)
      && (e.next.Preparing? ==> e.disk == s.disk)
  {
  }

  lemma ClientReceiveCloser(env: Env, s: System, f: Bytes)
    requires Going(env, s, f)
    ensures Closer(env, s, Step(env, s, ClientReceive(Done)), f)
  {
    if (s.client.Asking? || s.client.Receiving?) && s.down != [] {
      Kept(env, s, ClientReceive(Done), f);
      Taken(env, s, f);
      TakenEffect(env, s);
    }
  }

  lemma ClientSendCloser(env: Env, s: System, f: Bytes)
    requires Going(env, s, f)
    ensures Closer(env, s, Step(env, s, ClientSend), f)
  {
    Kept(env, s, ClientSend, f);
  }

  lemma ServerIoCloser(env: Env, s: System, f: Bytes)
    requires Going(env, s, f)
    ensures Closer(env, s, Step(env, s, ServerIo(Done)), f)
  {
    Kept(env, s, ServerIo(Done), f);
  }

  lemma ServerReceiveCloser(env: Env, s: System, f: Bytes)
    requires Going(env, s, f)
    ensures Closer(env, s, Step(env, s, ServerReceive), f)
  {
    Kept(env, s, ServerReceive, f);
  }

  lemma ServerSendCloser(env: Env, s: System, f: Bytes)
    requires Going(env, s, f)
    ensures Closer(env, s, Step(env, s, ServerSend(true)), f)
  {
    Kept(env, s, ServerSend(true), f);
  }

  // ----- every interleaving -----

  lemma StepCloser(env: Env, s: System, l: Label, f: Bytes)
    requires Going(env, s, f) && Undisturbed(l)
    ensures Closer(env, s, Step(env, s, l), f)
  {
    match l
    case ClientOp(_) => ClientOpCloser(env, s, f);
    case ClientReceive(_) => ClientReceiveCloser(env, s, f);
    case ClientSend => ClientSendCloser(env, s, f);
    case ServerIo(_) => ServerIoCloser(env, s, f);
    case ServerReceive => ServerReceiveCloser(env, s, f);
    case ServerSend(_) => ServerSendCloser(env, s, f);
  }

  // Until it is complete some step brings a call closer: it never gets stuck.
  lemma SomeStep(env: Env, s: System, f: Bytes) returns (l: Label)
    requires Going(env, s, f)
    ensures Undisturbed(l) && Step(env, s, l) != s
  {
    l := if ClientSays(s.client).Some? then ClientSend
         else if !s.client.Asking? && !s.client.Receiving? then ClientOp(Done)
         else if s.down != [] then ClientReceive(Done)
         else if s.server.Locating? then ServerIo(Done)
         else if Listening(s.server) then ServerReceive
         else ServerSend(true);
  }

  lemma RunAppend(env: Env, s: System, before: seq<Label>, after: seq<Label>)
    ensures Run(env, s, before + after) == Run(env, Run(env, s, before), after)
    decreases |after|
  {
    if after == [] {
      assert before + after == before;
    } else {
      var front, last := after[..|after| - 1], after[|after| - 1];
      RunAppend(env, s, before, front);
      assert (before + after)[..|before + after| - 1] == before + front;
    }
  }

  // From a call on its way, undisturbed steps lead to its completion, and no more
  // of them than Left says.
  lemma {:induction false} Completes(env: Env, s: System, f: Bytes) returns (schedule: seq<Label>)
    requires Going(env, s, f)
    ensures AllUndisturbed(schedule) && |schedule| <= Left(s, f)
    ensures Complete(env, Run(env, s, schedule), f)
    decreases Left(s, f)
  {
    var l := SomeStep(env, s, f);
    StepCloser(env, s, l, f);
    var t := Step(env, s, l);
    assert Run(env, s, [l]) == t by { assert [l][..0] == []; }
    schedule := [l];
    if !Complete(env, t, f) {
      var rest := Completes(env, t, f);
      RunAppend(env, s, [l], rest);
      schedule := [l] + rest;
    }
  }

  // The steps of a schedule that change something.
  ghost function Moves(env: Env, s: System, schedule: seq<Label>): nat {
    if schedule == [] then 0
    else
      var front, last := schedule[..|schedule| - 1], schedule[|schedule| - 1];
      var t := Run(env, s, front);
      Moves(env, s, front) + if Step(env, t, last) == t then 0 else 1
  }

  // Whatever the interleaving: along any undisturbed schedule the call completes,
  // or is on its way with as much less to do as steps were taken.
  lemma {:induction false} AnyInterleaving(env: Env, s: System, schedule: seq<Label>, f: Bytes)
    requires Going(env, s, f) && AllUndisturbed(schedule)
    ensures
      || (exists n :: 0 <= n <= |schedule| && Complete(env, Run(env, s, schedule[..n]), f))
      || (Going(env, Run(env, s, schedule), f)
          && Left(Run(env, s, schedule), f) + Moves(env, s, schedule) <= Left(s, f))
  {
    if schedule != [] {
      var front, last := schedule[..|schedule| - 1], schedule[|schedule| - 1];
      AnyInterleaving(env, s, front, f);
      if n :| 0 <= n <= |front| && Complete(env, Run(env, s, front[..n]), f) {
        assert schedule[..n] == front[..n];
      } else {
        StepCloser(env, Run(env, s, front), last, f);
        if Complete(env, Run(env, s, schedule), f) { assert schedule[..|schedule|] == schedule; }
      }
    }
  }

  // ----- a retry -----

  // The next call: on a new session once the old one is released, or on the
  // session that stayed open after an error.
  predicate MayRetry(t: System, l: Label) {
    && t.disk.final.None?
    && ((l == Reconnect(true) && t.server.Closed? && (t.client.Severed? || t.client.Ready?))
        || (l == Begin(true) && t.client.Ready? && t.connected))
  }

  // The server has the file, the destination is free, and `.part` is absent or a
  // prefix of the file to begin with.
  ghost predicate Retries(env: Env, s: System, history: seq<Label>, l: Label, f: Bytes) {
    && Init(s) && env.chunk > 0 && SizesKnown(env, s, history) && Honest(s, f)
    && MayRetry(Run(env, s, history), l)
  }

  lemma RetryIsGoing(env: Env, s: System, history: seq<Label>, l: Label, f: Bytes)
    requires Retries(env, s, history, l, f)
    ensures
      var t := Step(env, Run(env, s, history), l);
      Going(env, t, f) && Left(t, f) <= 10 * |f| + 171
  {
    HonestRun(env, s, history, f);
    StepKeeps(env, Run(env, s, history), l, true);
    HonestOther(env, Run(env, s, history), l, f);
  }

  lemma RetryCompletes(env: Env, s: System, history: seq<Label>, l: Label, f: Bytes) returns (schedule: seq<Label>)
    requires Retries(env, s, history, l, f)
    ensures AllUndisturbed(schedule) && |schedule| <= 10 * |f| + 171
    ensures Complete(env, Run(env, s, history + [l] + schedule), f)
  {
    RetryIsGoing(env, s, history, l, f);
    var t := Step(env, Run(env, s, history), l);
    schedule := Completes(env, t, f);
    assert (history + [l])[..|history|] == history;
    assert Run(env, s, history + [l]) == t;
    RunAppend(env, s, history + [l], schedule);
  }
}
