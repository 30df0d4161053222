// Every step keeps the invariant.

module UploadProof {
  import opened Protocol
  import opened Files
  import opened Transfer
  import opened Tiling
  import opened UploadSteps
  import opened UploadSystem
  import opened UploadInvariant

  // ----- client steps -----

  lemma BeginKeeps(env: Env, s: System, source: Bytes)
    requires Inv(env, s)
    ensures Inv(env, Step(env, s, Begin(source)))
  {
    if s.client.Ready? {
      assert [] + [Upload(|source|, 0)] == [Upload(|source|, 0)];
    }
  }

  lemma ReconnectKeeps(env: Env, s: System, source: Bytes)
    requires Inv(env, s)
    ensures Inv(env, Step(env, s, Reconnect(source)))
  {
  }

  lemma ClientSendKeeps(env: Env, s: System)
    requires Inv(env, s) && env.chunk > 0
    ensures Inv(env, Step(env, s, ClientSend))
  {
    if s.client.Streaming? {
      var sent, fed := s.client.sent, s.client.fed;
      var m := NextFrame(env, s.source, sent, fed);
      assert m.Chunk? ==> fed + m.data == s.source[..sent + |m.data|];
      assert sent == |s.source| ==> fed == s.source;
      if s.connected {
        if Doomed(s) {
        } else {
          TilesExtend(env, s.up, Position(s.server), s.source, sent);
        }
      }
    }
  }

  lemma ClientReceiveKeeps(env: Env, s: System)
    requires Inv(env, s)
    ensures Inv(env, Step(env, s, ClientReceive))
  {
    if (s.client.AwaitOffset? || s.client.AwaitFinal?) && s.down != [] {
      var t := Step(env, s, ClientReceive);
      if s.client.AwaitOffset? {
        assert |s.down| == 1;
        assert t.down == [];
      }
    }
  }

  lemma ClientAbortKeeps(env: Env, s: System)
    requires Inv(env, s)
    ensures Inv(env, Step(env, s, ClientAbort))
  {
  }

  // ----- environment steps -----

  lemma LossKeeps(env: Env, s: System, keepUp: nat, keepDown: nat)
    requires Inv(env, s)
    ensures Inv(env, Step(env, s, Loss(keepUp, keepDown)))
  {
    if Flowing(s.server) && keepUp <= |s.up| {
      TilesPrefix(env, s.up, Position(s.server), s.source, keepUp);
    }
  }

  lemma KillKeeps(env: Env, s: System)
    requires Inv(env, s)
    ensures Inv(env, Step(env, s, Kill))
  {
  }

  lemma SweepKeeps(env: Env, s: System, op: DiskOp)
    requires Inv(env, s)
    ensures Inv(env, Step(env, s, Sweep(op)))
  {
  }

  // ----- server steps -----

  lemma SendOffset(env: Env, s: System, ok: bool)
    requires Inv(env, s) && s.server.Acking? && (s.connected ==> ok)
    ensures Inv(env, Step(env, s, ServerSend(ok)))
  {
    var t := Step(env, s, ServerSend(ok));
    assert t.server == if ok then Receiving(s.server.j) else Closed;
    if s.connected && s.client.AwaitOffset? {
      assert t.down == [Ack(FILE_UPLOAD, s.server.j.received)];
    }
  }

  lemma SendFinal(env: Env, s: System, ok: bool)
    requires Inv(env, s) && s.server.Confirming? && (s.connected ==> ok)
    ensures Inv(env, Step(env, s, ServerSend(ok)))
  {
    var t := Step(env, s, ServerSend(ok));
    if s.connected && s.client.AwaitFinal? {
      assert t.down == [Ack(FILE_CHECKSUM, |s.source|)];
    }
  }

  lemma SendError(env: Env, s: System, ok: bool)
    requires Inv(env, s) && s.server.Replying? && (s.connected ==> ok)
    ensures Inv(env, Step(env, s, ServerSend(ok)))
  {
    var t := Step(env, s, ServerSend(ok));
    if s.connected && s.down == [] {
      assert t.down == [s.server.m];
    }
  }

  lemma ServerSendKeeps(env: Env, s: System, ok: bool)
    requires Inv(env, s)
    ensures Inv(env, Step(env, s, ServerSend(ok)))
  {
    if Outgoing(s.server).Some? && (s.connected ==> ok) {
      match s.server {
        case Acking(_) => SendOffset(env, s, ok);
        case Confirming(_) => SendFinal(env, s, ok);
        case Replying(_, _) => SendError(env, s, ok);
      }
    }
  }

  lemma ReceiveChunk(env: Env, s: System)
    requires Inv(env, s) && s.server.Receiving? && s.up != [] && s.up[0].Chunk?
    ensures Inv(env, Step(env, s, ServerReceive))
  {
    var j := s.server.j;
    var t := Step(env, s, ServerReceive);
    assert t.server == Writing(j, s.up[0].data, 0);
    assert j.fed + s.up[0].data[..0] == j.fed;
    assert forall m :: m in t.up ==> m in s.up;
  }

  lemma ReceiveChecksum(env: Env, s: System)
    requires Inv(env, s) && s.server.Receiving? && s.up != [] && s.up[0].Checksum?
    ensures Inv(env, Step(env, s, ServerReceive))
  {
    var j := s.server.j;
    assert s.up == [Checksum(j.received, env.hash(s.source))];
    EndBound(env, s.up, j.received, s.source);
  }

  lemma ServerReceiveKeeps(env: Env, s: System)
    requires Inv(env, s)
    ensures Inv(env, Step(env, s, ServerReceive))
  {
    if Listening(s.server) && s.up != [] {
      if s.server.Receiving? {
        if s.up[0].Chunk? { ReceiveChunk(env, s); } else { ReceiveChecksum(env, s); }
      } else {
        assert s.up[0] in s.up && forall m :: m in s.up[1..] ==> m in s.up;
      }
    }
  }

  // ----- server file operations: the queues -----

  ghost predicate SameRole(p: Phase, q: Phase) {
    && (Resting(p) <==> Resting(q)) && (Negotiating(p) <==> Negotiating(q)) && (Finishing(p) <==> Finishing(q))
    && (Flowing(p) <==> Flowing(q)) && (Flowing(p) ==> Position(p) == Position(q))
    && (q.Replying? ==> !q.m.Error? || q.m.op != FILE_CHUNK)
  }

  // Client and queues do not notice a file operation that keeps the server's role.
  lemma RoleKeeps(env: Env, s: System, e: Effect)
    requires Inv(env, s) && Allowed(s.disk, e.op)
    requires !s.server.Replying? && !Listening(s.server) && !s.server.Closed?
    requires SameRole(s.server, e.next)
    requires Resting(s.server) ==> Apply(s.disk, e.op).target == s.disk.target
    ensures UpOk(env, e.next, s.up, s.source) && Together(env, Perform(s, e))
  {
    if e.next.Replying? {
      assert s.up == [];
    }
  }

  // Nor does it matter to them, once the connection is gone, that a session ends.
  lemma EndKeeps(env: Env, s: System, e: Effect)
    requires Inv(env, s) && Allowed(s.disk, e.op)
    requires e.next.Closed? && !Listening(s.server) && !s.server.Replying?
    requires Apply(s.disk, e.op).target == s.disk.target
    ensures Together(env, Perform(s, e))
  {
  }

  // A failed write sends the client an error it did not ask for.
  lemma ComplaintKeeps(env: Env, s: System, e: Effect)
    requires Inv(env, s) && e.op.Nop? && Flowing(s.server) && s.server.Writing?
    requires e.next.Replying? && e.next.m.Error? && e.next.m.op == FILE_CHUNK
    ensures UpOk(env, e.next, s.up, s.source) && Together(env, Perform(s, e))
  {
    TilesAreStray(env, s.up, Position(s.server), s.source);
  }

  // ----- server file operations: the disk -----

  ghost predicate DiskOk(env: Env, d: Disk, p: Phase, source: Bytes, accepted: Bytes) {
    PairOk(env, d, accepted) && ServerOk(env, d, p, source, accepted)
  }

  ghost predicate Keeps(env: Env, d: Disk, e: Effect, source: Bytes, accepted: Bytes) {
    Allowed(d, e.op) && DiskOk(env, Apply(d, e.op), e.next, source, accepted)
  }

  lemma StartingDisk(env: Env, d: Disk, p: Phase, o: Outcome, source: Bytes, accepted: Bytes)
    requires DiskOk(env, d, p, source, accepted) && p.Starting?
    ensures Keeps(env, d, Local(env, d, p, o), source, accepted)
    ensures SameRole(p, Local(env, d, p, o).next)
  {
  }

  lemma DecidingDisk(env: Env, d: Disk, p: Phase, o: Outcome, source: Bytes, accepted: Bytes)
    requires DiskOk(env, d, p, source, accepted) && p.Deciding?
    ensures Keeps(env, d, Local(env, d, p, o), source, accepted)
    ensures SameRole(p, Local(env, d, p, o).next)
  {
  }

  lemma PurgingDisk(env: Env, d: Disk, p: Phase, o: Outcome, source: Bytes, accepted: Bytes)
    requires DiskOk(env, d, p, source, accepted) && p.Purging?
    ensures Keeps(env, d, Local(env, d, p, o), source, accepted)
    ensures SameRole(p, Local(env, d, p, o).next)
  {
  }

  lemma OpeningDisk(env: Env, d: Disk, p: Phase, o: Outcome, source: Bytes, accepted: Bytes)
    requires DiskOk(env, d, p, source, accepted) && p.Opening?
    ensures Keeps(env, d, Local(env, d, p, o), source, accepted)
    ensures SameRole(p, Local(env, d, p, o).next)
  {
  }

  lemma TruncatingDisk(env: Env, d: Disk, p: Phase, o: Outcome, source: Bytes, accepted: Bytes)
    requires DiskOk(env, d, p, source, accepted) && p.Truncating?
    ensures Keeps(env, d, Local(env, d, p, o), source, accepted)
    ensures o.Fault? || SameRole(p, Local(env, d, p, o).next)
  {
    var j := p.j;
    if j.received > 0 {
      assert j.fed[..j.received] == j.fed;
    }
  }

  lemma MakeDisk(env: Env, d: Disk, p: Phase, o: Outcome, source: Bytes, accepted: Bytes)
    requires DiskOk(env, d, p, source, accepted) && p.Saving? && p.save.Make?
    ensures Keeps(env, d, Local(env, d, p, o), source, accepted)
    ensures Local(env, d, p, o).next.Closed? || SameRole(p, Local(env, d, p, o).next)
  {
  }

  lemma DumpDisk(env: Env, d: Disk, p: Phase, o: Outcome, source: Bytes, accepted: Bytes)
    requires DiskOk(env, d, p, source, accepted) && p.Saving? && p.save.Dump?
    ensures Keeps(env, d, Local(env, d, p, o), source, accepted)
    ensures Local(env, d, p, o).next.Closed? || SameRole(p, Local(env, d, p, o).next)
  {
  }

  lemma FailedSwapDisk(env: Env, d: Disk, p: Phase, o: Outcome, source: Bytes, accepted: Bytes)
    requires DiskOk(env, d, p, source, accepted) && p.Saving? && p.save.Swap? && o.Fault?
    ensures Keeps(env, d, Local(env, d, p, o), source, accepted)
    ensures Local(env, d, p, o).next.Closed? || SameRole(p, Local(env, d, p, o).next)
  {
  }

  lemma SwapDisk(env: Env, d: Disk, p: Phase, o: Outcome, source: Bytes, accepted: Bytes)
    requires DiskOk(env, d, p, source, accepted) && p.Saving? && p.save.Swap? && !o.Fault?
    ensures
      var now := if p.j.received == 0 then [] else accepted + p.data;
      Keeps(env, d, Local(env, d, p, o), source, now)
    ensures SameRole(p, Local(env, d, p, o).next)
  {
    assert p.j.received == 0 ==> p.j.fed == [] && p.data == [];
    assert p.data == [] ==> accepted + p.data == accepted;
  }

  lemma WritingDisk(env: Env, d: Disk, p: Phase, o: Outcome, source: Bytes, accepted: Bytes)
    requires DiskOk(env, d, p, source, accepted) && p.Writing?
    ensures Keeps(env, d, Local(env, d, p, o), source, accepted)
    ensures o.Fault? || SameRole(p, Local(env, d, p, o).next)
  {
    var j, data, done := p.j, p.data, p.done;
    assert data[..|data|] == data;
    assert (j.fed + data)[..|j.fed|] == j.fed;
    if o.Short? && done + o.n < |data| {
      assert (j.fed + data[..done + o.n])[..|j.fed|] == j.fed;
    }
  }

  lemma PublishingDisk(env: Env, d: Disk, p: Phase, o: Outcome, source: Bytes, accepted: Bytes)
    requires DiskOk(env, d, p, source, accepted) && Finishing(p) && Outgoing(p).None?
    ensures Keeps(env, d, Local(env, d, p, o), source, accepted)
    ensures SameRole(p, Local(env, d, p, o).next)
  {
  }

  // Phases whose next step is a file operation.
  predicate Working(p: Phase) {
    !Listening(p) && !p.Closed? && Outgoing(p).None?
  }

  lemma LocalDisk(env: Env, d: Disk, p: Phase, o: Outcome, source: Bytes, accepted: Bytes)
    requires DiskOk(env, d, p, source, accepted) && Working(p)
    requires !(p.Saving? && p.save.Swap? && !o.Fault?)
    ensures Keeps(env, d, Local(env, d, p, o), source, accepted)
    ensures
      var q := Local(env, d, p, o).next;
      SameRole(p, q) || q.Closed? || (p.Writing? && o.Fault?)
  {
    match p {
      case Starting(_) => StartingDisk(env, d, p, o, source, accepted);
      case Deciding(_) => DecidingDisk(env, d, p, o, source, accepted);
      case Purging(_, _) => PurgingDisk(env, d, p, o, source, accepted);
      case Opening(_) => OpeningDisk(env, d, p, o, source, accepted);
      case Truncating(_) => TruncatingDisk(env, d, p, o, source, accepted);
      case Saving(_, _, save) =>
        match save {
          case Make => MakeDisk(env, d, p, o, source, accepted);
          case Dump => DumpDisk(env, d, p, o, source, accepted);
          case Swap(_) => FailedSwapDisk(env, d, p, o, source, accepted);
        }
      case Writing(_, _, _) => WritingDisk(env, d, p, o, source, accepted);
      case _ => PublishingDisk(env, d, p, o, source, accepted);
    }
  }

  // Only the end of a purge, which leaves the target alone, and a failed save
  // close the session.
  lemma TargetKept(env: Env, d: Disk, p: Phase, o: Outcome, source: Bytes, accepted: Bytes)
    requires DiskOk(env, d, p, source, accepted) && Working(p)
    requires Resting(p) || Local(env, d, p, o).next.Closed?
    ensures
      var e := Local(env, d, p, o);
      Allowed(d, e.op) ==> Apply(d, e.op).target == d.target
  {
  }

  // What the queue lemmas need to know about a file operation.
  ghost predicate Fits(d: Disk, p: Phase, e: Effect) {
    && Working(p) && Allowed(d, e.op)
    && (SameRole(p, e.next) || e.next.Closed?
        || (p.Writing? && e.op.Nop? && e.next.Replying? && e.next.m.Error? && e.next.m.op == FILE_CHUNK))
    && (Resting(p) || e.next.Closed? ==> Apply(d, e.op).target == d.target)
  }

  lemma EffectKeeps(env: Env, s: System, e: Effect)
    requires Inv(env, s) && Fits(s.disk, s.server, e)
    requires Keeps(env, s.disk, e, s.source, Accepted(s, e))
    ensures Inv(env, Perform(s, e))
  {
    if SameRole(s.server, e.next) {
      RoleKeeps(env, s, e);
    } else if e.next.Closed? {
      EndKeeps(env, s, e);
    } else {
      ComplaintKeeps(env, s, e);
    }
  }

  lemma LocalFits(env: Env, s: System, o: Outcome)
    requires DiskOk(env, s.disk, s.server, s.source, s.accepted) && Working(s.server)
    ensures Keeps(env, s.disk, Local(env, s.disk, s.server, o), s.source, Accepted(s, Local(env, s.disk, s.server, o)))
    ensures Fits(s.disk, s.server, Local(env, s.disk, s.server, o))
  {
    var p := s.server;
    if p.Saving? && p.save.Swap? && !o.Fault? {
      SwapDisk(env, s.disk, p, o, s.source, s.accepted);
    } else {
      LocalDisk(env, s.disk, p, o, s.source, s.accepted);
    }
    if Resting(p) || Local(env, s.disk, p, o).next.Closed? {
      TargetKept(env, s.disk, p, o, s.source, s.accepted);
    }
  }

  lemma ServerIoKeeps(env: Env, s: System, o: Outcome)
    requires Inv(env, s)
    ensures Inv(env, Step(env, s, ServerIo(o)))
  {
    if Working(s.server) {
      LocalFits(env, s, o);
      EffectKeeps(env, s, Local(env, s.disk, s.server, o));
    } else {
      assert Step(env, s, ServerIo(o)) == s;
    }
  }

  // ----- all steps, all runs -----

  lemma StepKeeps(env: Env, s: System, l: Label)
    requires Inv(env, s) && env.chunk > 0
    ensures Inv(env, Step(env, s, l))
  {
    match l {
      case Begin(source) => BeginKeeps(env, s, source);
      case Reconnect(source) => ReconnectKeeps(env, s, source);
      case ClientSend => ClientSendKeeps(env, s);
      case ClientReceive => ClientReceiveKeeps(env, s);
      case ClientAbort => ClientAbortKeeps(env, s);
      case ServerIo(o) => ServerIoKeeps(env, s, o);
      case ServerReceive => ServerReceiveKeeps(env, s);
      case ServerSend(ok) => ServerSendKeeps(env, s, ok);
      case Loss(keepUp, keepDown) => LossKeeps(env, s, keepUp, keepDown);
      case Kill => KillKeeps(env, s);
      case Sweep(op) => SweepKeeps(env, s, op);
    }
  }

  lemma {:induction false} RunKeeps(env: Env, s: System, schedule: seq<Label>)
    requires Inv(env, s) && env.chunk > 0
    ensures Inv(env, Run(env, s, schedule))
  {
    if schedule != [] {
      RunKeeps(env, s, schedule[..|schedule| - 1]);
      StepKeeps(env, Run(env, s, schedule[..|schedule| - 1]), schedule[|schedule| - 1]);
    }
  }
}
