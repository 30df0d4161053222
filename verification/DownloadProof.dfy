// What holds in every state that any schedule of downloads can reach.

module DownloadProof {
  import opened Protocol
  import opened Transfer
  import opened Tiling
  import opened DownloadSystem

  // ----- the client's data -----

  ghost function PartSize(d: Local): nat {
    if d.part.Some? then |d.part.value| else 0
  }

  ghost predicate LocalOk(d: Local, c: Client) {
    && (d.shared ==> d.part.Some? && d.final == d.part)
    && (!Holding(c) ==> d.buffer == [])
  }

  // The size of .part could be read when the call began, or there was none to read.
  predicate SizeKnown(d: Local, stat: bool) { stat || d.part.None? || d.part.value == [] }

  // What is behind the `hashed` bytes of this call: nothing if the call knew the
  // size of .part, and some stale bytes before them if it did not.
  ghost predicate Behind(d: Local, hashed: Bytes, known: bool) {
    d.part.Some? &&
    if known then d.part.value + d.buffer == hashed
    else |d.part.value| + |d.buffer| > |hashed|
  }

  // A destination has the size and digest of the file if the call that linked it
  // knew the size of .part, and is too long otherwise.
  ghost predicate Published(env: Env, file: Option<Bytes>, final: Bytes, known: bool) {
    file.Some? && if known then Matches(env, final, file.value) else |final| > |file.value|
  }

  ghost predicate InStep(d: Local, n: Count, f: Bytes, known: bool) {
    && d.final.None? && Behind(d, n.hashed, known)
    && n.received == |n.hashed| <= n.total == |f|
  }

  ghost predicate Asked(d: Local, resume: nat, known: bool) {
    d.final.None? && if known then resume == PartSize(d) else resume == 0 < PartSize(d)
  }

  ghost predicate DataOk(env: Env, file: Option<Bytes>, d: Local, c: Client, known: bool) {
    match c
    case Ready(last) =>
      last.Returned? ==>
        && file.Some? && d.final.Some?
        && last.size == |file.value| && last.digest == env.hash(file.value)
    case Severed => true
    case Asking(resume) => Asked(d, resume, known)
    case Preparing(resume, total, start) =>
      file.Some? && total == |file.value| && start == resume <= total && Asked(d, resume, known)
    case Opening(n, start) =>
      && file.Some? && n.total == |file.value| && start == n.received == |n.hashed| <= n.total
      && Asked(d, start, known)
      && (known && d.part.Some? ==> d.part.value == n.hashed)
    case Accepting(n, start) => file.Some? && InStep(d, n, file.value, known) && start == n.received
    case Receiving(n) => file.Some? && InStep(d, n, file.value, known)
    case Syncing(n) => file.Some? && InStep(d, n, file.value, known) && Matches(env, n.hashed, file.value)
    case Linking(n) => file.Some? && InStep(d, n, file.value, known) && Matches(env, n.hashed, file.value)
    case Unlinking(n) => file.Some? && d.final.Some? && Matches(env, n.hashed, file.value) && n.received == |n.hashed|
    case Confirming(n) => file.Some? && d.final.Some? && Matches(env, n.hashed, file.value) && n.received == |n.hashed|
    case Reporting(m, fatal) => m.Error? && !Mismatch(m.code) && (m.op == FILE_CHUNK ==> fatal)
    case Cleaning(code) => !Mismatch(code)
  }

  // Codes neither end ever reports about the other.
  ghost predicate Mismatch(code: ErrorCode) {
    code == OFFSET_MISMATCH || code == SIZE_MISMATCH || code == INVALID_STATE
  }

  // ----- the server and what is on its way to it -----

  ghost predicate ServerOk(file: Option<Bytes>, p: Server) {
    match p
    case Offering(offset) => file.Some? && offset <= |file.value|
    case AwaitInfo(offset) => file.Some? && offset <= |file.value|
    case Sending(offset, sent) => file.Some? && sent <= |file.value|
    case AwaitFinal => file.Some?
    case Replying(m) => m.Error? && m.op == FILE_DOWNLOAD && !Mismatch(m.code)
    case _ => true
  }

  // A frame that ends the request the server is waiting on, without a reply.
  ghost predicate Closing(file: Option<Bytes>, p: Server, m: Msg) {
    || ((p.AwaitInfo? || p.AwaitFinal?) && m.Error?)
    || (p.AwaitFinal? && file.Some? && m == Ack(FILE_CHECKSUM, |file.value|))
  }

  // Nothing is left to say about the last request: the server is in its
  // dispatcher, or the one frame that takes it there is in the queue.
  ghost predicate Settled(file: Option<Bytes>, p: Server, up: seq<Msg>) {
    || (up == [] && p.Idle?)
    || (|up| == 1 && Closing(file, p, up[0]))
  }

  ghost predicate UpOk(file: Option<Bytes>, p: Server, up: seq<Msg>) {
    match p
    case Idle => up == [] || (|up| == 1 && up[0].Download?)
    case Closed => true
    case AwaitInfo(offset) =>
      up == [] || up == [Ack(FILE_INFO, offset)] || (up[0].Error? && (|up| == 1 || (|up| == 2 && up[1].Download?)))
    case AwaitFinal =>
      up == [] || (Closing(file, p, up[0]) && (|up| == 1 || (|up| == 2 && up[1].Download?)))
    case Sending(_, _) => up == [] || (|up| == 1 && up[0].Error?)
    case _ => up == []
  }

  // ----- both ends -----

  ghost predicate Agreed(env: Env, s: System) {
    match s.client
    case Ready(_) => s.down == [] && (s.connected ==> Settled(s.file, s.server, s.up))
    case Severed => !s.connected
    case Asking(resume) =>
      || (&& s.down == []
          && (s.connected ==>
                || (&& s.up != [] && s.up[|s.up| - 1] == Download(resume)
                    && Settled(s.file, s.server, s.up[..|s.up| - 1]))
                || (&& s.up == []
                    && (s.server == Locating(resume) || s.server == Offering(resume) || s.server.Replying?))))
      || (&& s.file.Some? && s.down == [Info(|s.file.value|, resume)] && resume <= |s.file.value|
          && (s.connected ==> s.up == [] && s.server == AwaitInfo(resume)))
      || (&& |s.down| == 1 && s.down[0].Error? && !Mismatch(s.down[0].code)
          && (s.connected ==> s.up == [] && s.server.Idle?))
    case Preparing(_, _, start) => s.down == [] && (s.connected ==> s.up == [] && s.server == AwaitInfo(start))
    case Opening(_, start) => s.down == [] && (s.connected ==> s.up == [] && s.server == AwaitInfo(start))
    case Accepting(_, start) => s.down == [] && (s.connected ==> s.up == [] && s.server == AwaitInfo(start))
    case Receiving(n) =>
      && s.file.Some? && Tiles(env, s.down, n.received, s.file.value)
      && (s.connected ==>
            || (s.down == [] && s.up == [Ack(FILE_INFO, n.received)] && s.server == AwaitInfo(n.received))
            || (s.up == [] && s.server.Sending? && s.server.sent == EndOf(s.down, n.received)
                && (forall m :: m in s.down ==> m.Chunk?))
            || (s.up == [] && s.server.AwaitFinal? && s.down != [] && s.down[|s.down| - 1].Checksum?))
    case Reporting(m, fatal) =>
      && (s.connected ==> s.up == [])
      && (if m.Error? && m.op == FILE_CHUNK then s.connected ==> s.server.Sending? || s.server.AwaitFinal?
          else s.down == [] && (s.connected ==> s.server.AwaitInfo? || s.server.AwaitFinal?))
    case Cleaning(_) => s.down == [] && (s.connected ==> Settled(s.file, s.server, s.up))
    case _ => s.down == [] && (s.connected ==> s.up == [] && s.server.AwaitFinal?)
  }

  // `known` says whether the last call that asked for the file knew the size of
  // its .part file.
  ghost predicate Inv(env: Env, s: System, known: bool) {
    && LocalOk(s.disk, s.client) && DataOk(env, s.file, s.disk, s.client, known)
    && (s.disk.final.Some? ==> Published(env, s.file, s.disk.final.value, known))
    && ServerOk(s.file, s.server) && UpOk(s.file, s.server, s.up)
    && Agreed(env, s)
    && (s.server.Closed? ==> !s.connected)
  }

  // The step is a call that asks the server for the file.
  predicate Asks(s: System, l: Label) {
    match l
    case Begin(stat) => s.client.Ready? && s.disk.final.None?
    case Reconnect(stat) => s.server.Closed? && (s.client.Severed? || s.client.Ready?) && s.disk.final.None?
    case _ => false
  }

  ghost predicate KnownAfter(s: System, l: Label, known: bool) {
    if Asks(s, l) then SizeKnown(s.disk, l.stat) else known
  }

  // ----- steps -----

  lemma BeginKeeps(env: Env, s: System, stat: bool, known: bool)
    requires Inv(env, s, known)
    ensures Inv(env, Step(env, s, Begin(stat)), KnownAfter(s, Begin(stat), known))
  {
    if s.client.Ready? && s.connected {
      var c := Start(s.disk, stat);
      if c.Asking? { assert (s.up + [Download(c.resume)])[..|s.up|] == s.up; }
    }
  }

  lemma ReconnectKeeps(env: Env, s: System, stat: bool, known: bool)
    requires Inv(env, s, known)
    ensures Inv(env, Step(env, s, Reconnect(stat)), KnownAfter(s, Reconnect(stat), known))
  {
  }

  // Client phases that keep the server waiting for the answer to FILE_INFO,
  // and those that keep it waiting for the answer to FILE_CHECKSUM.
  ghost predicate AtInfo(c: Client) {
    c.Preparing? || c.Opening? || c.Accepting? || (c.Reporting? && c.m.Error? && c.m.op == FILE_INFO)
  }

  ghost predicate AtFinal(c: Client) {
    c.Syncing? || c.Linking? || c.Unlinking? || c.Confirming? || (c.Reporting? && c.m.Error? && c.m.op == FILE_CHECKSUM)
  }

  ghost function StartOf(c: Client): nat
    requires AtInfo(c) && !c.Reporting?
  {
    c.start
  }

  ghost predicate LocalStep(env: Env, file: Option<Bytes>, d: Local, c: Client, o: Outcome, known: bool) {
    var e := ClientIo(d, c, o);
    && LocalOk(e.disk, e.next) && DataOk(env, file, e.disk, e.next, known)
    && (e.disk.final.Some? ==> Published(env, file, e.disk.final.value, known))
    && ((AtInfo(c) && AtInfo(e.next) && (!e.next.Reporting? ==> StartOf(e.next) == StartOf(c)))
        || (AtFinal(c) && AtFinal(e.next))
        || (c.Cleaning? && e.next.Ready? && e.next.last.Raised?)
        || e.next == c)
  }

  lemma PreparingData(env: Env, file: Option<Bytes>, d: Local, c: Client, o: Outcome, known: bool)
    requires LocalOk(d, c) && DataOk(env, file, d, c, known) && c.Preparing?
    ensures LocalStep(env, file, d, c, o, known)
  {
    if d.part.Some? { assert d.part.value[..|d.part.value|] == d.part.value; }
  }

  lemma OpeningData(env: Env, file: Option<Bytes>, d: Local, c: Client, o: Outcome, known: bool)
    requires LocalOk(d, c) && DataOk(env, file, d, c, known) && c.Opening?
    ensures LocalStep(env, file, d, c, o, known)
  {
    if d.part.Some? { assert d.part.value + [] == d.part.value; }
    if d.part.None? { assert c.c.hashed == []; }
  }

  lemma PublishingData(env: Env, file: Option<Bytes>, d: Local, c: Client, o: Outcome, known: bool)
    requires LocalOk(d, c) && DataOk(env, file, d, c, known)
    requires d.final.Some? ==> Published(env, file, d.final.value, known)
    requires c.Syncing? || c.Linking? || c.Unlinking?
    ensures LocalStep(env, file, d, c, o, known)
  {
    if d.part.Some? { assert d.part.value + [] == d.part.value; }
  }

  lemma OtherData(env: Env, file: Option<Bytes>, d: Local, c: Client, o: Outcome, known: bool)
    requires LocalOk(d, c) && DataOk(env, file, d, c, known)
    requires d.final.Some? ==> Published(env, file, d.final.value, known)
    requires !c.Preparing? && !c.Opening? && !c.Syncing? && !c.Linking? && !c.Unlinking?
    requires c.Reporting? ==> AtInfo(c) || AtFinal(c)
    ensures LocalStep(env, file, d, c, o, known)
  {
  }

  lemma ClientData(env: Env, file: Option<Bytes>, d: Local, c: Client, o: Outcome, known: bool)
    requires LocalOk(d, c) && DataOk(env, file, d, c, known)
    requires d.final.Some? ==> Published(env, file, d.final.value, known)
    requires c.Reporting? ==> AtInfo(c) || AtFinal(c)
    ensures LocalStep(env, file, d, c, o, known)
  {
    if c.Preparing? { PreparingData(env, file, d, c, o, known); }
    else if c.Opening? { OpeningData(env, file, d, c, o, known); }
    else if c.Syncing? || c.Linking? || c.Unlinking? { PublishingData(env, file, d, c, o, known); }
    else { OtherData(env, file, d, c, o, known); }
  }

  // The server and the queues do not notice a file operation of the client.
  lemma ClientIoAgreed(env: Env, s: System, o: Outcome, known: bool)
    requires Agreed(env, s) && DataOk(env, s.file, s.disk, s.client, known) && !s.client.Reporting?
    requires LocalStep(env, s.file, s.disk, s.client, o, known)
    ensures Agreed(env, Step(env, s, ClientOp(o)))
  {
  }

  lemma ClientIoKeeps(env: Env, s: System, o: Outcome, known: bool)
    requires Inv(env, s, known)
    ensures Inv(env, Step(env, s, ClientOp(o)), known)
  {
    if s.client.Reporting? {
      assert Step(env, s, ClientOp(o)) == s;
    } else {
      ClientData(env, s.file, s.disk, s.client, o, known);
      ClientIoAgreed(env, s, o, known);
    }
  }

  lemma ClientSendKeeps(env: Env, s: System, known: bool)
    requires Inv(env, s, known)
    ensures Inv(env, Step(env, s, ClientSend), known)
  {
  }

  lemma AskingReceives(env: Env, s: System, writes: Outcome, known: bool)
    requires Inv(env, s, known) && s.client.Asking?
    ensures Inv(env, Step(env, s, ClientReceive(writes)), known)
  {
  }

  lemma ChunkReceived(env: Env, s: System, writes: Outcome, known: bool)
    requires Inv(env, s, known) && s.client.Receiving? && s.down != [] && s.down[0].Chunk?
    ensures Inv(env, Step(env, s, ClientReceive(writes)), known)
  {
    var d, n, data := s.disk, s.client.c, s.down[0].data;
    assert d.part.value + (d.buffer + data) == (d.part.value + d.buffer) + data;
    assert forall m :: m in s.down[1..] ==> m in s.down;
  }

  lemma ChecksumReceived(env: Env, s: System, writes: Outcome, known: bool)
    requires Inv(env, s, known) && s.client.Receiving? && s.down != [] && !s.down[0].Chunk?
    ensures Inv(env, Step(env, s, ClientReceive(writes)), known)
  {
    var n := s.client.c;
    assert s.down == [Checksum(n.received, env.hash(s.file.value))];
    assert s.down[0] in s.down;
  }

  lemma ClientReceiveKeeps(env: Env, s: System, writes: Outcome, known: bool)
    requires Inv(env, s, known)
    ensures Inv(env, Step(env, s, ClientReceive(writes)), known)
  {
    if s.client.Asking? {
      AskingReceives(env, s, writes, known);
    } else if s.client.Receiving? && s.down != [] {
      if s.down[0].Chunk? { ChunkReceived(env, s, writes, known); } else { ChecksumReceived(env, s, writes, known); }
    }
  }

  lemma AbortKeeps(env: Env, s: System, known: bool)
    requires Inv(env, s, known)
    ensures Inv(env, Step(env, s, ClientAbort), known) && Inv(env, Step(env, s, ClientKill), known)
  {
  }

  lemma FlushKeeps(env: Env, s: System, n: nat, known: bool)
    requires Inv(env, s, known)
    ensures Inv(env, Step(env, s, Flush(n)), known)
  {
    if n <= |s.disk.buffer| && s.disk.part.Some? {
      assert s.disk.buffer[..n] + s.disk.buffer[n..] == s.disk.buffer;
      assert (s.disk.part.value + s.disk.buffer[..n]) + s.disk.buffer[n..] == s.disk.part.value + s.disk.buffer;
    }
  }

  lemma DispatcherReceives(env: Env, s: System, known: bool)
    requires Inv(env, s, known) && s.server.Idle?
    ensures Inv(env, Step(env, s, ServerReceive), known)
  {
  }

  lemma HandlerReceives(env: Env, s: System, known: bool)
    requires Inv(env, s, known) && (s.server.AwaitInfo? || s.server.AwaitFinal?)
    ensures Inv(env, Step(env, s, ServerReceive), known)
  {
  }

  lemma ServerReceiveKeeps(env: Env, s: System, known: bool)
    requires Inv(env, s, known)
    ensures Inv(env, Step(env, s, ServerReceive), known)
  {
    if s.server.Idle? { DispatcherReceives(env, s, known); }
    else if Listening(s.server) { HandlerReceives(env, s, known); }
  }

  lemma ServerIoKeeps(env: Env, s: System, o: Outcome, known: bool)
    requires Inv(env, s, known)
    ensures Inv(env, Step(env, s, ServerIo(o)), known)
  {
  }

  lemma DataSent(env: Env, s: System, ok: bool, known: bool)
    requires Inv(env, s, known) && env.chunk > 0 && s.server.Sending?
    ensures Inv(env, Step(env, s, ServerSend(ok)), known)
  {
    if s.client.Receiving? && s.connected {
      var f, sent := s.file.value, s.server.sent;
      TilesExtend(env, s.down, s.client.c.received, f, sent);
      assert f[..|f|] == f;
      assert Outgoing(env, f, s.server) == Some(NextFrame(env, f, sent, f[..sent]));
    }
  }

  lemma ServerSendKeeps(env: Env, s: System, ok: bool, known: bool)
    requires Inv(env, s, known) && env.chunk > 0
    ensures Inv(env, Step(env, s, ServerSend(ok)), known)
  {
    if s.server.Sending? { DataSent(env, s, ok, known); }
  }

  lemma LossKeeps(env: Env, s: System, keepUp: nat, keepDown: nat, known: bool)
    requires Inv(env, s, known)
    ensures Inv(env, Step(env, s, Loss(keepUp, keepDown)), known)
  {
    if s.client.Receiving? && keepDown <= |s.down| {
      TilesPrefix(env, s.down, s.client.c.received, s.file.value, keepDown);
    }
  }

  lemma ServerKillKeeps(env: Env, s: System, known: bool)
    requires Inv(env, s, known)
    ensures Inv(env, Step(env, s, ServerKill), known)
  {
  }

  lemma StepKeeps(env: Env, s: System, l: Label, known: bool)
    requires Inv(env, s, known) && env.chunk > 0
    ensures Inv(env, Step(env, s, l), KnownAfter(s, l, known))
  {
    match l {
      case Begin(stat) => BeginKeeps(env, s, stat, known);
      case Reconnect(stat) => ReconnectKeeps(env, s, stat, known);
      case ClientOp(o) => ClientIoKeeps(env, s, o, known);
      case ClientReceive(writes) => ClientReceiveKeeps(env, s, writes, known);
      case ClientSend => ClientSendKeeps(env, s, known);
      case ClientAbort => AbortKeeps(env, s, known);
      case ClientKill => AbortKeeps(env, s, known);
      case Flush(n) => FlushKeeps(env, s, n, known);
      case ServerIo(o) => ServerIoKeeps(env, s, o, known);
      case ServerReceive => ServerReceiveKeeps(env, s, known);
      case ServerSend(ok) => ServerSendKeeps(env, s, ok, known);
      case Loss(keepUp, keepDown) => LossKeeps(env, s, keepUp, keepDown, known);
      case ServerKill => ServerKillKeeps(env, s, known);
    }
  }

  // Whether the last call of the schedule that asked for the file knew the size
  // of its .part file.
  ghost predicate LastSizeKnown(env: Env, s: System, schedule: seq<Label>) {
    if schedule == [] then true
    else
      var front, last := schedule[..|schedule| - 1], schedule[|schedule| - 1];
      KnownAfter(Run(env, s, front), last, LastSizeKnown(env, s, front))
  }

  lemma {:induction false} RunKeeps(env: Env, s: System, schedule: seq<Label>)
    requires Inv(env, s, true) && env.chunk > 0
    ensures Inv(env, Run(env, s, schedule), LastSizeKnown(env, s, schedule))
  {
    if schedule != [] {
      var front, last := schedule[..|schedule| - 1], schedule[|schedule| - 1];
      RunKeeps(env, s, front);
      StepKeeps(env, Run(env, s, front), last, LastSizeKnown(env, s, front));
    }
  }
}
