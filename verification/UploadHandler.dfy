// handle_upload and the helpers it calls, as code over the pair's files. Each
// file operation, frame sent and frame received is tied to one step of module
// UploadSteps, so the runs of module UploadSystem are the runs of this code.

module UploadHandler {
  import opened Protocol
  import opened Files
  import opened Transfer
  import opened UploadSteps
  import opened UploadSystem

  datatype State = State(disk: Disk, phase: Phase)

  function Do(d: Disk, op: DiskOp): Disk {
    if Allowed(d, op) then Apply(d, op) else d
  }

  function Advance(env: Env, s: State, a: Action): State {
    var e := Next(env, s.disk, s.phase, a);
    State(Do(s.disk, e.op), e.next)
  }

  function Replay(env: Env, s: State, actions: seq<Action>): State {
    if actions == [] then s
    else Advance(env, Replay(env, s, actions[..|actions| - 1]), actions[|actions| - 1])
  }

  lemma ReplayStep(env: Env, from: State, actions: seq<Action>, s: State, a: Action) returns (t: State)
    requires Replay(env, from, actions) == s
    ensures t == Advance(env, s, a) && Replay(env, from, actions + [a]) == t
  {
    assert (actions + [a])[..|actions|] == actions;
    t := Advance(env, s, a);
  }

  // In the composed system the server moves by these steps and no others.
  lemma ServerMovesByAdvance(env: Env, s: System, l: Label)
    requires l.ServerIo? || l.ServerReceive? || l.ServerSend?
    ensures
      var t := Step(env, s, l);
      var before, after := State(s.disk, s.server), State(t.disk, t.server);
      || after == before
      || (l.ServerIo? && after == Advance(env, before, Io(l.o)))
      || (l.ServerReceive? && s.up != [] && after == Advance(env, before, Got(s.up[0])) && t.up == s.up[1..])
      || (l.ServerReceive? && s.up == [] && after == Advance(env, before, Gone))
      || (l.ServerSend? && after == Advance(env, before, if l.ok then Sent else Broken))
  {
  }

  // A piece of a chunk reaches the file.
  lemma PieceStep(env: Env, d: Disk, j: Job, data: Bytes, done: nat, n: nat)
    requires d.part.Some? && !d.shared && 0 < n && done + n < |data|
    ensures Advance(env, State(d, Writing(j, data, done)), Io(Short(n))) ==
      State(d.(part := Some(j.fed + data[..done + n])), Writing(j, data, done + n))
  {
  }

  datatype Incoming = Frame(m: Msg) | Rejected(code: ErrorCode) | Disconnected

  // How handle_upload ends: with a result, by raising a ProtocolError, or by
  // raising an OSError (a lost connection included).
  datatype Ending =
    | Finished(success: bool, received: nat, code: Option<ErrorCode>)
    | ProtocolFailure(raised: ErrorCode)
    | SystemFailure

  const READ_SIZE := 32768

  // ----- what the request and each frame are answered with -----

  // What an attempt finds of earlier ones.
  datatype Finding = Nothing | Orphan | Damaged | Foreign | Inconsistent | Usable(kept: Bytes)

  predicate Identified(env: Env, m: Meta, total: nat) {
    m.user == env.user && m.name == env.name && m.total == total && m.uploaded <= total
  }

  ghost predicate Finds(env: Env, d: Disk, total: nat, unreadable: bool, f: Finding) {
    match f
    case Nothing => d.part.None? && d.meta.None?
    case Orphan => d.part.Some? <==> d.meta.None?
    case Damaged => d.part.Some? && d.meta.Some? && (unreadable || d.meta == Some(Torn))
    case Foreign => d.part.Some? && !unreadable && exists m :: d.meta == Some(Saved(m)) && !Identified(env, m, total)
    case Inconsistent =>
      d.part.Some? && !unreadable && exists m ::
        && d.meta == Some(Saved(m)) && Identified(env, m, total)
        && !(m.uploaded <= |d.part.value| <= total)
    case Usable(kept) =>
      && d.part.Some? && !unreadable && |d.part.value| <= total && kept <= d.part.value
      && exists m :: d.meta == Some(Saved(m)) && Identified(env, m, total) && m.uploaded == |kept|
  }

  function Offset(f: Finding): nat { if f.Usable? then |f.kept| else 0 }

  // The code of an ERROR about frame `m` when `fed` has been received, unless the
  // file system is to blame.
  function Objection(env: Env, total: nat, fed: Bytes, m: Msg): Option<ErrorCode> {
    match m
    case Chunk(offset, data) =>
      if data == [] || |data| > env.chunk then Some(INVALID_PAYLOAD)
      else if offset != |fed| then Some(OFFSET_MISMATCH)
      else if |fed| + |data| > total then Some(SIZE_MISMATCH)
      else None
    case Checksum(size, digest) =>
      if |fed| < total || size != total then Some(SIZE_MISMATCH)
      else if digest != env.hash(fed) then Some(CHECKSUM_MISMATCH)
      else None
    case _ => Some(INVALID_STATE)
  }

  // compute_prefix_hash: the bytes fed to the hasher, and their count.
  method ComputePrefixHash(content: Bytes, length: nat) returns (fed: Bytes, count: nat)
    ensures fed == content[..Min(length, |content|)] && count == |fed|
  {
    fed, count := [], 0;
    var remaining := length;
    while remaining > 0
      invariant 0 <= count == |fed| <= |content| && remaining >= 0 && count + remaining == length
      invariant fed == content[..count]
    {
      var chunk := content[count..Min(count + Min(remaining, READ_SIZE), |content|)];
      if |chunk| == 0 { break; }
      assert content[..count] + chunk == content[..count + |chunk|];
      fed := fed + chunk;
      count := count + |chunk|;
      remaining := remaining - |chunk|;
    }
    assert count == Min(length, |content|);
  }

  class Session {
    const env: Env
    var disk: Disk
    var sent: seq<Msg>
    // The request under way: where it began, the environment's choices since
    // then, the step the code has reached, and the disk that step prescribes.
    ghost var origin: State
    ghost var trail: seq<Action>
    ghost var at: Phase
    ghost var due: Disk

    constructor (env: Env, disk: Disk)
      ensures this.env == env && this.disk == disk && sent == [] && at == Idle && Follows()
    {
      this.env := env;
      this.disk := disk;
      this.sent := [];
      origin, trail, at, due := State(disk, Idle), [], Idle, disk;
    }

    ghost predicate Tracks()
      reads this
    {
      Replay(env, origin, trail) == State(due, at)
    }

    // The code has done what its steps so far say.
    ghost predicate Follows()
      reads this
    {
      Tracks() && due == disk
    }

    // The environment has chosen `a`.
    ghost method Record(a: Action)
      requires Follows()
      modifies `at, `due, `trail
      ensures Tracks() && old(trail) <= trail && |old(trail)| < |trail| && trail[|old(trail)|] == a
      ensures State(due, at) == Advance(env, State(disk, old(at)), a)
    {
      var next := ReplayStep(env, origin, trail, State(disk, at), a);
      at, due, trail := next.phase, next.disk, trail + [a];
    }

    // A file operation is carried out; how it goes is not ours to choose.
    method Attempt() returns (o: Outcome)
      requires Follows()
      modifies `at, `due, `trail
      ensures Tracks() && old(trail) <= trail && Chosen(o)
      ensures State(due, at) == Advance(env, State(disk, old(at)), Io(o))
    {
      o := *;
      Record(Io(o));
    }

    method Send(m: Msg) returns (ok: bool)
      requires Follows() && Outgoing(at) == Some(m)
      modifies `at, `due, `trail, `sent
      ensures Follows() && old(trail) <= trail
      ensures sent == if ok then old(sent) + [m] else old(sent)
      ensures State(disk, at) == Advance(env, State(disk, old(at)), if ok then Sent else Broken)
    {
      ok := *;
      if ok { sent := sent + [m]; }
      Record(if ok then Sent else Broken);
    }

    method Receive() returns (f: Incoming)
      requires Follows() && at.Receiving?
      modifies `at, `due, `trail
      ensures Follows()
      ensures State(disk, at) == Advance(env, State(disk, old(at)), Arrival(f))
    {
      f := *;
      Record(Arrival(f));
    }

    static function Arrival(f: Incoming): Action {
      match f
      case Frame(m) => Got(m)
      case Rejected(code) => Garbled(code)
      case Disconnected => Gone
    }

    // _remove_quietly(partial); _remove_quietly(meta_path)
    method RemovePair()
      requires Follows() && at.Purging? && !at.metaOnly
      modifies `at, `due, `trail, `disk
      ensures Follows() && old(trail) <= trail
      ensures at == Purge(env, true, old(at).then_, Done).next
      ensures disk.target == old(disk).target && (disk.shared ==> old(disk).shared)
      ensures !env.quietFails ==> disk.part.None? && disk.meta.None?
    {
      var o := Attempt();
      if !(o.Fault? && env.quietFails) { disk := disk.(part := None, shared := false); }
      o := Attempt();
      if !(o.Fault? && env.quietFails) { disk := disk.(meta := None); }
    }

    // One ERROR was sent, or the connection broke before it was.
    twostate predicate Reported(r: Ending, op: Opcode, code: ErrorCode, received: nat)
      reads this
    {
      if r.Finished? then r == Finished(false, received, Some(code)) && sent == old(sent) + [Error(op, code)]
      else r == SystemFailure && sent == old(sent)
    }

    // _fail: report an error to the client and keep the pair.
    method Fail(op: Opcode, code: ErrorCode, received: nat) returns (r: Ending)
      requires Follows() && at == Replying(Error(op, code), false)
      modifies `at, `due, `trail, `sent
      ensures Follows() && Ended(r) && Reported(r, op, code, received) && old(trail) <= trail
    {
      var ok := Send(Error(op, code));
      r := if ok then Finished(false, received, Some(code)) else SystemFailure;
    }

    // _fail, then the finally block that removes the pair.
    method FailAndPurge(op: Opcode, code: ErrorCode, received: nat) returns (r: Ending)
      requires Follows() && at == Replying(Error(op, code), true)
      modifies `at, `due, `trail, `sent, `disk
      ensures Follows() && Ended(r) && disk.target == old(disk).target && (disk.shared ==> old(disk).shared)
      ensures Reported(r, op, code, received)
      ensures !env.quietFails ==> disk.part.None? && disk.meta.None?
    {
      var ok := Send(Error(op, code));
      r := if ok then Finished(false, received, Some(code)) else SystemFailure;
      RemovePair();
    }

    // The session goes on after a result, and ends after a system failure.
    ghost predicate Ended(r: Ending)
      reads this
    {
      match r
      case Finished(_, _, _) => at == Idle
      case SystemFailure => at == Closed
      case ProtocolFailure(code) => at == Refuse(FILE_UPLOAD, code)
    }

    // mkstemp of save_part_metadata; false when it raises.
    method CreateTemp() returns (ok: bool)
      requires Follows() && at.Saving? && at.save.Make?
      modifies `at, `due, `trail, `disk
      ensures Follows()
      ensures if ok then at == Saving(old(at).j, old(at).data, Dump) && disk == old(disk).(temp := Some(Torn))
              else at == Closed && disk == old(disk)
    {
      var o := Attempt();
      ok := !o.Fault?;
      if ok { disk := disk.(temp := Some(Torn)); }
    }

    // mkstemp and json.dump; false when one raises.
    method WriteTemp(total: nat, uploaded: nat) returns (ok: bool)
      requires Follows() && at.Saving? && at.save.Make? && at.j.total == total && at.j.received == uploaded
      modifies `at, `due, `trail, `disk
      ensures Follows()
      ensures at == if ok then Saving(old(at).j, old(at).data, Swap(0)) else Closed
      ensures ok ==> disk == old(disk).(temp := Some(Saved(Meta(env.user, env.name, total, uploaded))))
      ensures !ok ==> disk == old(disk).(temp := disk.temp)
    {
      ok := CreateTemp();
      if !ok { return; }
      var o := Attempt();
      ok := !o.Fault?;
      disk := disk.(temp := if ok then Some(Saved(Meta(env.user, env.name, total, uploaded))) else None);
    }

    // One os.replace of the retry loop.
    method TryReplace(attempt: nat) returns (ok: bool)
      requires Follows() && at.Saving? && at.save == Swap(attempt) && attempt < REPLACE_ATTEMPTS && disk.temp.Some?
      modifies `at, `due, `trail, `disk
      ensures Follows()
      ensures ok ==> disk == old(disk).(meta := old(disk).temp, temp := None)
      ensures !ok && attempt + 1 < REPLACE_ATTEMPTS ==> disk == old(disk)
      ensures !ok ==> disk == old(disk).(temp := disk.temp)
      ensures at == if ok then (if old(at).data == [] then Acking(old(at).j) else Receiving(old(at).j))
                    else if attempt + 1 < REPLACE_ATTEMPTS then Saving(old(at).j, old(at).data, Swap(attempt + 1))
                    else Closed
    {
      var o := Attempt();
      if !o.Fault? {
        disk := disk.(meta := disk.temp, temp := None);
        return true;
      }
      if attempt + 1 == REPLACE_ATTEMPTS {
        disk := disk.(temp := None);
      }
      ok := false;
    }

    // save_part_metadata; false when it raises.
    method SavePartMetadata(total: nat, uploaded: nat) returns (ok: bool)
      requires Follows() && at.Saving? && at.save.Make? && at.j.total == total && at.j.received == uploaded
      modifies `at, `due, `trail, `disk
      ensures Follows()
      ensures disk == old(disk).(meta := disk.meta, temp := disk.temp)
      ensures disk.meta == if ok then Some(Saved(Meta(env.user, env.name, total, uploaded))) else old(disk).meta
      ensures at == if !ok then Closed else if old(at).data == [] then Acking(old(at).j) else Receiving(old(at).j)
    {
      ok := WriteTemp(total, uploaded);
      if !ok { return; }
      for attempt := 0 to REPLACE_ATTEMPTS
        invariant Follows()
        invariant at == if attempt < REPLACE_ATTEMPTS then Saving(old(at).j, old(at).data, Swap(attempt)) else Closed
        invariant disk == old(disk).(temp := disk.temp)
        invariant attempt < REPLACE_ATTEMPTS ==> disk.temp == Some(Saved(Meta(env.user, env.name, total, uploaded)))
      {
        ok := TryReplace(attempt);
        if ok { return; }
      }
      ok := false;
    }
  
    // `o` is how the first file operation went.
    twostate predicate Chosen(new o: Outcome)
      reads this
    {
      |old(trail)| < |trail| && trail[|old(trail)|] == Io(o)
    }

    // Lines 64-108: path, directory, existing target, expired pair. `o` is what the
    // file system did: an error, or an expired pair found.
    method StartUpload(total: nat, hint: nat) returns (go: bool, r: Ending, ghost o: Outcome)
      requires Follows() && at == Starting(Job(total, hint, 0, []))
      requires disk.shared ==> disk.target.Some?
      modifies `at, `due, `trail, `disk, `sent
      ensures Follows() && disk.target == old(disk).target && Chosen(o)
      ensures go <==> !o.Fault? && disk.target.None?
      ensures o.Fault? ==> Reported(r, FILE_UPLOAD, OsErrorCode(o.e), 0)
      ensures !o.Fault? && disk.target.Some? ==> Reported(r, FILE_UPLOAD, FILE_EXISTS, 0)
      ensures !go ==> Ended(r) && disk == old(disk)
      ensures go ==> at == Deciding(Job(total, hint, 0, [])) && !disk.shared && sent == old(sent)
      ensures go && o.Expired? && !env.quietFails ==> disk.part.None? && disk.meta.None?
      ensures go && !o.Expired? ==> disk == old(disk)
    {
      go, r := false, SystemFailure;
      var oo := Attempt();
      o := oo;
      if oo.Fault? {
        r := Fail(FILE_UPLOAD, OsErrorCode(oo.e), 0);
      } else if disk.target.Some? {
        r := Fail(FILE_UPLOAD, FILE_EXISTS, 0);
      } else {
        if oo.Expired? { RemovePair(); }
        go := true;
      }
    }

    // Starting over: the pair is gone unless removing it failed.
    twostate predicate Restarts(received: nat, fed: Bytes)
      reads this
    {
      && received == 0 && fed == [] && sent == old(sent)
      && (!env.quietFails ==> disk.part.None? && disk.meta.None?)
    }

    // Lines 110-196: where to resume, and the digest of what is kept. `f` is what
    // was found, `o` what the file system did.
    method DecideResume(total: nat, hint: nat)
      returns (go: bool, received: nat, fed: Bytes, r: Ending, ghost f: Finding, ghost o: Outcome)
      requires Follows() && at == Deciding(Job(total, hint, 0, [])) && !disk.shared
      modifies `at, `due, `trail, `disk, `sent
      ensures Follows() && disk.target == old(disk).target && !disk.shared
      ensures go ==> at == Opening(Job(total, hint, received, fed)) && received == |fed| <= total
      ensures go && received > 0 ==> disk.part.Some? && fed <= disk.part.value
      ensures !go ==> Ended(r)
      ensures Finds(env, old(disk), total, o.Unreadable?, f) && Chosen(o)
      ensures
        match f
        case Nothing => go && Restarts(received, fed)
        case Orphan => go && Restarts(received, fed)
        case Damaged => go && Restarts(received, fed)
        case Foreign =>
          if hint == 0 then go && Restarts(received, fed)
          else !go && Reported(r, FILE_UPLOAD, RESUME_METADATA_MISMATCH, 0) && disk == old(disk)
        case Inconsistent =>
          if o.Fault? then !go && Reported(r, FILE_UPLOAD, OsErrorCode(o.e), 0) && disk == old(disk)
          else
            && !go && Reported(r, FILE_UPLOAD, RESUME_METADATA_MISMATCH, 0)
            && (!env.quietFails ==> disk.part.None? && disk.meta.None?)
        case Usable(kept) =>
          if o.Fault? then !go && Reported(r, FILE_UPLOAD, OsErrorCode(o.e), 0) && disk == old(disk)
          else go && fed == kept && disk == old(disk) && sent == old(sent)
    {
      go, received, fed, r, f := true, 0, [], SystemFailure, Nothing;
      var oo := Attempt();
      o := oo;
      if disk.part.Some? != disk.meta.Some? {
        f := Orphan;
        RemovePair();
      } else if disk.part.Some? {
        if oo.Unreadable? || disk.meta.value.Torn? {
          f := Damaged;
          RemovePair();
          return;
        }
        var m := disk.meta.value.meta;
        if m.user != env.user || m.name != env.name || m.total != total || m.uploaded > total {
          f := Foreign;
          if hint != 0 {
            go := false;
            r := Fail(FILE_UPLOAD, RESUME_METADATA_MISMATCH, 0);
          } else {
            RemovePair();
          }
        } else {
          go, received, fed, r, f := ResumeKnown(total, hint, m, oo);
        }
      }
    }

    // The pair is of this file and size.
    method ResumeKnown(total: nat, hint: nat, m: Meta, o: Outcome)
      returns (go: bool, received: nat, fed: Bytes, r: Ending, ghost f: Finding)
      requires Tracks() && disk.part.Some? && disk.meta == Some(Saved(m)) && Identified(env, m, total) && !disk.shared
      requires State(due, at) == Advance(env, State(disk, Deciding(Job(total, hint, 0, []))), Io(o)) && !o.Unreadable?
      modifies `at, `due, `trail, `disk, `sent
      ensures Follows() && disk.target == old(disk).target && !disk.shared
      ensures go ==> at == Opening(Job(total, hint, received, fed)) && received == |fed| <= total
      ensures go && received > 0 ==> disk.part.Some? && fed <= disk.part.value
      ensures !go ==> Ended(r)
      ensures Finds(env, old(disk), total, false, f) && (f.Inconsistent? || f.Usable?) && old(trail) <= trail
      ensures o.Fault? ==> !go && Reported(r, FILE_UPLOAD, OsErrorCode(o.e), 0) && disk == old(disk)
      ensures !o.Fault? && f.Inconsistent? ==>
        && !go && Reported(r, FILE_UPLOAD, RESUME_METADATA_MISMATCH, 0)
        && (!env.quietFails ==> disk.part.None? && disk.meta.None?)
      ensures !o.Fault? && f.Usable? ==> go && fed == f.kept && disk == old(disk) && sent == old(sent)
    {
      go, received, fed, r := false, 0, [], SystemFailure;
      var consistent := m.uploaded <= |disk.part.value| <= total;
      f := if consistent then Usable(disk.part.value[..m.uploaded]) else Inconsistent;
      if o.Fault? {
        r := Fail(FILE_UPLOAD, OsErrorCode(o.e), 0);
      } else if !consistent {
        RemovePair();
        r := Fail(FILE_UPLOAD, RESUME_METADATA_MISMATCH, 0);
      } else {
        go, received := true, m.uploaded;
        var count: nat;
        fed, count := ComputePrefixHash(disk.part.value, received);
      }
    }

    // Lines 198-231: open, truncate, save the offset, acknowledge it.
    method OpenPartial(total: nat, hint: nat, received: nat, fed: Bytes) returns (go: bool, r: Ending, ghost o: Outcome)
      requires Follows() && at == Opening(Job(total, hint, received, fed)) && received == |fed|
      requires disk.target.None? && !disk.shared
      requires received > 0 ==> disk.part.Some? && fed <= disk.part.value
      modifies `at, `due, `trail, `disk, `sent
      ensures Follows() && disk.target.None? && !disk.shared
      ensures go ==> at == Receiving(Job(total, hint, received, fed)) && disk.part == Some(fed)
      ensures go ==> disk.meta == Some(Saved(Meta(env.user, env.name, total, received)))
      ensures go ==> !o.Fault? && sent == old(sent) + [Ack(FILE_UPLOAD, received)]
      ensures o.Fault? ==> Reported(r, FILE_UPLOAD, OsErrorCode(o.e), received) && disk == old(disk)
      ensures !go && !o.Fault? ==> r == SystemFailure && sent == old(sent)
      ensures !go ==> Ended(r)
    {
      go, r := false, SystemFailure;
      var oo := Attempt();
      o := oo;
      if oo.Fault? {
        r := Fail(FILE_UPLOAD, OsErrorCode(oo.e), received);
        return;
      }
      if disk.part.None? { disk := disk.(part := Some([]), shared := false); }
      oo := Attempt();
      if oo.Fault? { return; }
      Write(disk.part.value[..received]);
      assert disk.part.value == fed;
      var ok := SavePartMetadata(total, received);
      if !ok { return; }
      go := Send(Ack(FILE_UPLOAD, received));
    }

    // Bytes written through the open file reach every name of its inode.
    method Write(content: Bytes)
      modifies `disk
      ensures disk == old(disk).(
        part := Some(content), target := if old(disk).shared then Some(content) else old(disk).target)
    {
      disk := disk.(part := Some(content), target := if disk.shared then Some(content) else disk.target);
    }
  
    method WritePiece(j: Job, data: Bytes, before: nat, n: nat) returns (done: nat, o: Outcome)
      requires disk.part.Some? && !disk.shared && 0 < n && before + n < |data|
      requires Tracks() && State(due, at) == Advance(env, State(disk, Writing(j, data, before)), Io(Short(n)))
      modifies `at, `due, `trail, `disk
      ensures done == before + n && disk == old(disk).(part := Some(j.fed + data[..done]))
      ensures Tracks() && State(due, at) == Advance(env, State(disk, Writing(j, data, done)), Io(o))
    {
      PieceStep(env, disk, j, data, before, n);
      done := before + n;
      Write(j.fed + data[..done]);
      o := Attempt();
    }

    // The pieces of a chunk that reach the file before the last one; `o` is how the
    // write went on.
    method WritePieces(j: Job, data: Bytes) returns (done: nat, o: Outcome)
      requires Follows() && at == Writing(j, data, 0) && disk.part == Some(j.fed) && disk.target.None? && !disk.shared
      modifies `at, `due, `trail, `disk
      ensures Tracks() && State(due, at) == Advance(env, State(disk, Writing(j, data, done)), Io(o))
      ensures done <= |data| && disk == old(disk).(part := Some(j.fed + data[..done]))
      ensures !(o.Short? && 0 < o.n && done + o.n < |data|)
    {
      done := 0;
      assert j.fed + data[..0] == j.fed;
      o := Attempt();
      while o.Short? && 0 < o.n && done + o.n < |data|
        invariant Tracks() && State(due, at) == Advance(env, State(disk, Writing(j, data, done)), Io(o))
        invariant done <= |data| && disk == old(disk).(part := Some(j.fed + data[..done]))
        decreases |data| - done
      {
        done, o := WritePiece(j, data, done, o.n);
      }
    }

    // Write and flush one chunk; `fault` is the error of a write that failed.
    method WriteChunk(total: nat, hint: nat, received: nat, fed: Bytes, data: Bytes)
      returns (ok: bool, r: Ending, ghost fault: Option<OsError>)
      requires Follows() && at == Writing(Job(total, hint, received, fed), data, 0) && data != []
      requires disk.part == Some(fed) && disk.target.None? && !disk.shared
      modifies `at, `due, `trail, `disk, `sent
      ensures Follows() && disk == old(disk).(part := disk.part)
      ensures ok <==> fault.None?
      ensures ok ==>
        && at == Saving(Job(total, hint, received + |data|, fed + data), data, Make)
        && disk.part == Some(fed + data) && sent == old(sent)
      ensures !ok ==> Ended(r) && Reported(r, FILE_CHUNK, OsErrorCode(fault.value), received)
      ensures !ok ==> disk.part.Some? && fed <= disk.part.value
    {
      r, fault := SystemFailure, None;
      var done, o := WritePieces(Job(total, hint, received, fed), data);
      ok := !o.Fault?;
      if ok {
        Write(fed + data);
      } else {
        fault := Some(o.e);
        r := Fail(FILE_CHUNK, OsErrorCode(o.e), received);
      }
    }

    // Lines 274-299: write and flush one chunk, then persist the new offset. If
    // that fails the call raises.
    method TakeChunk(total: nat, hint: nat, received: nat, fed: Bytes, data: Bytes)
      returns (go: bool, r: Ending, ghost fault: Option<OsError>)
      requires Follows() && at == Writing(Job(total, hint, received, fed), data, 0) && data != []
      requires disk.part == Some(fed) && disk.target.None? && !disk.shared
      modifies `at, `due, `trail, `disk, `sent
      ensures Follows() && disk.target.None? && !disk.shared
      ensures go ==> at == Receiving(Job(total, hint, received + |data|, fed + data)) && disk.part == Some(fed + data)
      ensures go ==> disk.meta == Some(Saved(Meta(env.user, env.name, total, received + |data|)))
      ensures go ==> fault.None? && sent == old(sent)
      ensures !go ==> Ended(r) && disk.meta == old(disk).meta && disk.part.Some? && fed <= disk.part.value
      ensures fault.Some? ==> Reported(r, FILE_CHUNK, OsErrorCode(fault.value), received)
      ensures !go && fault.None? ==> r == SystemFailure && sent == old(sent)
    {
      go, r, fault := WriteChunk(total, hint, received, fed, data);
      if !go { return; }
      r := SystemFailure;
      go := SavePartMetadata(total, received + |data|);
    }

    // Lines 366-414: link the data file to its target, remove the pair, confirm.
    // `fault` is the error of a failing link or unlink.
    method Publish(total: nat, hint: nat, received: nat, fed: Bytes) returns (r: Ending, ghost fault: Option<OsError>)
      requires Follows() && at == Linking(Job(total, hint, received, fed))
      requires disk.part == Some(fed) && disk.target.None? && !disk.shared
      modifies `at, `due, `trail, `disk, `sent
      ensures Follows() && Ended(r)
      ensures fault.Some? ==> Reported(r, FILE_CHECKSUM, OsErrorCode(fault.value), received)
      ensures fault.Some? && !env.quietFails ==> disk == old(disk)
      ensures fault.None? ==> disk.target == Some(fed) && Confirmed(r, received)
      ensures fault.None? && !env.quietFails ==> disk.part.None? && disk.meta.None?
    {
      var o := Attempt();
      if o.Fault? {
        fault := Some(o.e);
        r := Fail(FILE_CHECKSUM, OsErrorCode(o.e), received);
        return;
      }
      disk := disk.(target := disk.part, shared := true);
      o := Attempt();
      if o.Fault? {
        fault := Some(o.e);
        r := RollBack(Job(total, hint, received, fed), o.e);
      } else {
        fault := None;
        disk := disk.(part := None, shared := false);
        r := Confirm(Job(total, hint, received, fed));
      }
    }

    method RemoveTarget(j: Job, e: OsError)
      requires Follows() && at == RollingBack(j, e)
      modifies `at, `due, `trail, `disk
      ensures Follows() && at == Replying(Error(FILE_CHECKSUM, OsErrorCode(e)), false)
      ensures disk == old(disk).(target := disk.target, shared := disk.shared)
      ensures !env.quietFails ==> disk.target.None? && !disk.shared
    {
      var o := Attempt();                       // _remove_quietly(target)
      if !(o.Fault? && env.quietFails) { disk := disk.(target := None, shared := false); }
    }

    method RollBack(j: Job, e: OsError) returns (r: Ending)
      requires Follows() && at == RollingBack(j, e)
      modifies `at, `due, `trail, `disk, `sent
      ensures Follows() && Ended(r) && Reported(r, FILE_CHECKSUM, OsErrorCode(e), j.received)
      ensures disk == old(disk).(target := disk.target, shared := disk.shared)
      ensures !env.quietFails ==> disk.target.None? && !disk.shared
    {
      RemoveTarget(j, e);
      r := Fail(FILE_CHECKSUM, OsErrorCode(e), j.received);
    }

    method DropMeta(j: Job)
      requires Follows() && at == Dropping(j)
      modifies `at, `due, `trail, `disk
      ensures Follows() && at == Confirming(j) && disk == old(disk).(meta := disk.meta)
    {
      var o := Attempt();                       // _remove_quietly(meta_path)
      if !(o.Fault? && env.quietFails) { disk := disk.(meta := None); }
    }

    // A success is confirmed with the number of bytes, unless the connection broke.
    twostate predicate Confirmed(r: Ending, received: nat)
      reads this
    {
      if r.Finished? then r == Finished(true, received, None) && sent == old(sent) + [Ack(FILE_CHECKSUM, received)]
      else r == SystemFailure && sent == old(sent)
    }

    method Confirm(j: Job) returns (r: Ending)
      requires Follows() && at == Dropping(j)
      modifies `at, `due, `trail, `disk, `sent
      ensures Follows() && Ended(r) && disk.target == old(disk).target && Confirmed(r, j.received)
      ensures !env.quietFails ==> disk.part.None? && disk.meta.None?
    {
      DropMeta(j);
      var ok := Send(Ack(FILE_CHECKSUM, j.received));
      r := if ok then Finished(true, j.received, None) else SystemFailure;
      RemovePair();                             // finally
    }

    // What an objection leads to: one report, after which the pair is kept only
    // for a misplaced chunk.
    twostate predicate Objects(r: Ending, m: Msg, code: ErrorCode, received: nat)
      reads this
    {
      && Reported(r, Kind(m), code, received)
      && disk.target == old(disk).target
      && (code == OFFSET_MISMATCH ==> disk == old(disk))
      && (code != OFFSET_MISMATCH && !env.quietFails ==> disk.part.None? && disk.meta.None?)
    }

    // Lines 235-300: one FILE_CHUNK frame.
    method OnChunk(total: nat, hint: nat, received: nat, fed: Bytes, offset: nat, data: Bytes)
      returns (go: bool, r: Ending, ghost fault: Option<OsError>)
      requires Follows() && at == Received(Job(total, hint, received, fed), Chunk(offset, data))
      requires disk.part == Some(fed) && disk.target.None? && !disk.shared && received == |fed|
      modifies `at, `due, `trail, `disk, `sent
      ensures Follows() && disk.target.None? && !disk.shared && (!go ==> Ended(r))
      ensures
        var objection := Objection(env, total, fed, Chunk(offset, data));
        objection.Some? ==> !go && fault.None? && Objects(r, Chunk(offset, data), objection.value, received)
      ensures go ==>
        && at == Receiving(Job(total, hint, received + |data|, fed + data)) && disk.part == Some(fed + data)
        && disk.meta == Some(Saved(Meta(env.user, env.name, total, received + |data|)))
        && data != [] && received + |data| <= total && fault.None? && sent == old(sent)
      ensures Objection(env, total, fed, Chunk(offset, data)).None? && !go ==>
        && disk.meta == old(disk).meta && disk.part.Some? && fed <= disk.part.value
        && (fault.Some? ==> Reported(r, FILE_CHUNK, OsErrorCode(fault.value), received))
        && (fault.None? ==> r == SystemFailure && sent == old(sent))
    {
      go, fault := false, None;
      if !(0 < |data| <= env.chunk) {
        r := FailAndPurge(FILE_CHUNK, INVALID_PAYLOAD, received);
      } else if offset != received {
        r := Fail(FILE_CHUNK, OFFSET_MISMATCH, received);
      } else if received + |data| > total {
        r := FailAndPurge(FILE_CHUNK, SIZE_MISMATCH, received);
      } else {
        go, r, fault := TakeChunk(total, hint, received, fed, data);
      }
    }

    // Lines 302-354 and the publication that follows: the FILE_CHECKSUM frame.
    method OnChecksum(total: nat, hint: nat, received: nat, fed: Bytes, size: nat, digest: Bytes)
      returns (r: Ending, ghost fault: Option<OsError>)
      requires Follows() && at == Received(Job(total, hint, received, fed), Checksum(size, digest))
      requires disk.part == Some(fed) && disk.target.None? && !disk.shared && received == |fed| <= total
      modifies `at, `due, `trail, `disk, `sent
      ensures Follows() && Ended(r)
      ensures
        var objection := Objection(env, total, fed, Checksum(size, digest));
        objection.Some? ==> fault.None? && Objects(r, Checksum(size, digest), objection.value, received)
      ensures Objection(env, total, fed, Checksum(size, digest)).None? ==>
        && |fed| == total
        && (fault.Some? ==> Reported(r, FILE_CHECKSUM, OsErrorCode(fault.value), received))
        && (fault.Some? && !env.quietFails ==> disk == old(disk))
        && (fault.None? ==> disk.target == Some(fed) && Confirmed(r, received))
        && (fault.None? && !env.quietFails ==> disk.part.None? && disk.meta.None?)
    {
      fault := None;
      if received != total || size != total {
        r := FailAndPurge(FILE_CHECKSUM, SIZE_MISMATCH, received);
      } else if digest != env.hash(fed) {
        r := FailAndPurge(FILE_CHECKSUM, CHECKSUM_MISMATCH, received);
      } else {
        var o := Attempt();                     // flush and fsync
        if o.Fault? {
          fault := Some(o.e);
          r := Fail(FILE_CHECKSUM, OsErrorCode(o.e), received);
        } else {
          r, fault := Publish(total, hint, received, fed);
        }
      }
    }

    ghost function Received(j: Job, m: Msg): Phase { UploadSteps.Receive(env, j, m) }

    // The pair records that `fed` was received.
    predicate Keeps(total: nat, fed: Bytes)
      reads this
    {
      && disk.target.None? && disk.part.Some? && fed <= disk.part.value
      && disk.meta == Some(Saved(Meta(env.user, env.name, total, |fed|)))
    }

    predicate PairGone()
      reads this
    {
      !env.quietFails ==> disk.part.None? && disk.meta.None?
    }

    // One ERROR was said, or the connection broke before.
    static predicate Says(r: Ending, op: Opcode, code: ErrorCode, received: nat, said: seq<Msg>) {
      (r == Finished(false, received, Some(code)) && said == [Error(op, code)]) || (r == SystemFailure && said == [])
    }

    // What is `said` to the last frame, with `fed` received before it, and what is
    // left of the pair. `fault` is an error of the file system.
    predicate Final(total: nat, fed: Bytes, f: Incoming, r: Ending, fault: Option<OsError>, said: seq<Msg>)
      reads this
    {
      match f
      case Disconnected => r == SystemFailure && said == [] && Keeps(total, fed)
      case Rejected(code) => r == ProtocolFailure(code) && said == [] && Keeps(total, fed)
      case Frame(m) =>
        var objection := Objection(env, total, fed, m);
        if objection.Some? then
          && Says(r, Kind(m), objection.value, |fed|, said)
          && (if objection.value == OFFSET_MISMATCH then Keeps(total, fed) else PairGone() && disk.target.None?)
        else if fault.Some? then
          Says(r, Kind(m), OsErrorCode(fault.value), |fed|, said) && (!env.quietFails ==> Keeps(total, fed))
        else if m.Chunk? then r == SystemFailure && said == [] && Keeps(total, fed)
        else
          && |fed| == total && disk.target == Some(fed) && PairGone()
          && ((r == Finished(true, total, None) && said == [Ack(FILE_CHECKSUM, total)])
              || (r == SystemFailure && said == []))
    }

    // One round of the receiving loop; it goes on after a chunk that was stored.
    method TakeFrame(total: nat, hint: nat, received: nat, fed: Bytes)
      returns (go: bool, more: Bytes, r: Ending,
               ghost f: Incoming, ghost fault: Option<OsError>, ghost said: seq<Msg>)
      requires Follows() && at == Receiving(Job(total, hint, received, fed))
      requires disk.part == Some(fed) && !disk.shared && received == |fed| <= total && Keeps(total, fed)
      modifies `at, `due, `trail, `disk, `sent
      ensures Follows()
      ensures go ==>
        && f.Frame? && f.m.Chunk? && Objection(env, total, fed, f.m).None? && more == fed + f.m.data
        && at == Receiving(Job(total, hint, |more|, more)) && |fed| < |more| <= total
        && disk.part == Some(more) && !disk.shared && Keeps(total, more) && said == []
      ensures !go ==> Ended(r) && Final(total, fed, f, r, fault, said) && more == fed
      ensures sent == old(sent) + said
    {
      go, more, fault, said := false, fed, None, [];
      assert sent + [] == sent;
      var ff := Receive();
      f := ff;
      if ff.Disconnected? {
        r := SystemFailure;
        return;
      }
      if ff.Rejected? {
        r := ProtocolFailure(ff.code);
        return;
      }
      var m := ff.m;
      if m.Chunk? {
        go, r, fault := OnChunk(total, hint, received, fed, m.offset, m.data);
        if go { more := fed + m.data; }
      } else if m.Checksum? {
        r, fault := OnChecksum(total, hint, received, fed, m.size, m.digest);
      } else {
        r := FailAndPurge(Kind(m), INVALID_STATE, received);
      }
      if r.Finished? && !go { said := [if r.success then Ack(FILE_CHECKSUM, total) else Error(Kind(m), r.code.value)]; }
    }

    // The receiving loop. `f` is the frame it ends with, `stored` what was received
    // by then.
    method ReceiveAll(total: nat, hint: nat, resumed: Bytes)
      returns (r: Ending, ghost stored: Bytes, ghost f: Incoming, ghost fault: Option<OsError>, ghost said: seq<Msg>)
      requires Follows() && at == Receiving(Job(total, hint, |resumed|, resumed))
      requires disk.part == Some(resumed) && !disk.shared && |resumed| <= total && Keeps(total, resumed)
      modifies `at, `due, `trail, `disk, `sent
      ensures Follows() && Ended(r) && resumed <= stored && |stored| <= total
      ensures Final(total, stored, f, r, fault, said) && sent == old(sent) + said
    {
      var received, fed := |resumed|, resumed;
      while true
        invariant Follows() && at == Receiving(Job(total, hint, received, fed))
        invariant disk.part == Some(fed) && !disk.shared && Keeps(total, fed)
        invariant received == |fed| <= total && resumed <= fed && sent == old(sent)
        decreases total - received
      {
        var go;
        stored := fed;
        go, fed, r, f, fault, said := TakeFrame(total, hint, received, fed);
        if !go { return; }
        received := |fed|;
      }
    }

    // How an attempt ended before it could resume: the first thing that stood in
    // its way was answered, or the session failed.
    twostate predicate Declined(
        hint: nat, start: Outcome, new f: Finding, new look: Outcome, new open: Outcome, r: Ending)
      reads this
    {
      if start.Fault? then Reported(r, FILE_UPLOAD, OsErrorCode(start.e), 0)
      else if old(disk).target.Some? then Reported(r, FILE_UPLOAD, FILE_EXISTS, 0)
      else if f.Foreign? && hint != 0 then Reported(r, FILE_UPLOAD, RESUME_METADATA_MISMATCH, 0)
      else if (f.Inconsistent? || f.Usable?) && look.Fault? then Reported(r, FILE_UPLOAD, OsErrorCode(look.e), 0)
      else if f.Inconsistent? then Reported(r, FILE_UPLOAD, RESUME_METADATA_MISMATCH, 0)
      else if open.Fault? then Reported(r, FILE_UPLOAD, OsErrorCode(open.e), Offset(f))
      else r == SystemFailure && sent == old(sent)
    }

    // Lines 64-231. An expired pair is removed before anything is looked for; what
    // is found then decides the offset that is acknowledged.
    method Negotiate(total: nat, hint: nat)
      returns (go: bool, fed: Bytes, r: Ending,
               ghost start: Outcome, ghost f: Finding, ghost look: Outcome, ghost open: Outcome)
      requires Follows() && at == Starting(Job(total, hint, 0, []))
      requires disk.shared ==> disk.target.Some?
      modifies `at, `due, `trail, `disk, `sent
      ensures Follows()
      ensures old(disk).target.None? && !start.Fault? && start.Expired? && !env.quietFails ==> f == Nothing
      ensures old(disk).target.None? && !start.Fault? && !start.Expired? ==>
        Finds(env, old(disk), total, look.Unreadable?, f)
      ensures go ==>
        && at == Receiving(Job(total, hint, |fed|, fed)) && disk.part == Some(fed) && !disk.shared
        && |fed| <= total && Keeps(total, fed) && |fed| == Offset(f) && (f.Usable? ==> fed == f.kept)
        && sent == old(sent) + [Ack(FILE_UPLOAD, Offset(f))]
      ensures !go ==> Ended(r) && Declined(hint, start, f, look, open, r)
    {
      f, look, open := Nothing, Done, Done;
      fed := [];
      go, r, start := StartUpload(total, hint);
      if !go { return; }
      var received;
      go, received, fed, r, f, look := DecideResume(total, hint);
      if !go { return; }
      go, r, open := OpenPartial(total, hint, received, fed);
    }

    // handle_upload: every run of it, against any peer and any file-system
    // failures, is a run of the upload steps. It either declines the request with
    // the first reason there is, or acknowledges the offset of what it found and
    // answers the first frame that is not a chunk in its place; and a success has
    // published exactly what was received, under the digest the peer sent.
    method HandleUpload(total: nat, hint: nat)
      returns (r: Ending, ghost start: Outcome, ghost f: Finding, ghost look: Outcome, ghost open: Outcome,
               ghost stored: Option<Bytes>, ghost last: Incoming, ghost fault: Option<OsError>, ghost said: seq<Msg>)
      requires Follows() && at == Starting(Job(total, hint, 0, []))
      requires disk.shared ==> disk.target.Some?
      modifies `at, `due, `trail, `disk, `sent
      ensures Follows() && Ended(r)
      ensures old(disk).target.None? && !start.Fault? && start.Expired? && !env.quietFails ==> f == Nothing
      ensures old(disk).target.None? && !start.Fault? && !start.Expired? ==>
        Finds(env, old(disk), total, look.Unreadable?, f)
      ensures stored.None? ==> Declined(hint, start, f, look, open, r)
      ensures stored.Some? ==>
        && sent == old(sent) + [Ack(FILE_UPLOAD, Offset(f))] + said
        && Offset(f) <= |stored.value| <= total && (f.Usable? ==> f.kept <= stored.value)
        && Final(total, stored.value, last, r, fault, said)
      ensures r.Finished? && r.success ==>
        && stored.Some? && disk.target == stored && |stored.value| == total == r.received
        && last == Frame(Checksum(total, env.hash(stored.value)))
    {
      stored, last, fault, said := None, Disconnected, None, [];
      var go, fed;
      go, fed, r, start, f, look, open := Negotiate(total, hint);
      if !go { return; }
      ghost var received;
      r, received, last, fault, said := ReceiveAll(total, hint, fed);
      stored := Some(received);
    }

    // What the dispatcher adds: a ProtocolError is reported and the session
    // returns to IDLE.
    method DispatchUpload(total: nat, hint: nat) returns (idle: bool)
      requires disk.shared ==> disk.target.Some?
      modifies this
      ensures Follows() && origin == State(old(disk), Starting(Job(total, hint, 0, [])))
      ensures at == if idle then Idle else Closed
    {
      at, due := Starting(Job(total, hint, 0, [])), disk;
      origin, trail := State(disk, at), [];
      var r, _, _, _, _, _, _, _, _ := HandleUpload(total, hint);
      if r.ProtocolFailure? {
        r := Fail(FILE_UPLOAD, r.raised, 0);
      }
      idle := r.Finished?;
    }
  }
}
