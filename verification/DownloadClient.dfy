// download_file, the client's side of a download, against any server. Each of
// its steps is a client step of module DownloadSystem.

module DownloadClient {
  import opened Protocol
  import opened Transfer
  import opened Tiling
  import opened DownloadSystem

  // One choice of the environment: a file operation, a frame (and how writing
  // it would go), a frame sent, or the end of the connection.
  datatype Event = Op(o: Outcome) | Heard(m: Msg, writes: Outcome) | Said | Lost

  datatype State = State(disk: Local, client: Client)

  function Advance(env: Env, s: State, e: Event): State {
    match e
    case Op(o) => var f := ClientIo(s.disk, s.client, o); State(f.disk, f.next)
    case Heard(m, writes) => var f := ClientTakes(env, s.disk, s.client, m, writes); State(f.disk, f.next)
    case Said => State(s.disk, AfterSaying(env, s.client))
    case Lost => State(Close(s.disk), Client.Severed)
  }

  function Replay(env: Env, s: State, events: seq<Event>): State {
    if events == [] then s
    else Advance(env, Replay(env, s, events[..|events| - 1]), events[|events| - 1])
  }

  lemma ReplayStep(env: Env, from: State, events: seq<Event>, s: State, e: Event) returns (t: State)
    requires Replay(env, from, events) == s
    ensures t == Advance(env, s, e) && Replay(env, from, events + [e]) == t
  {
    assert (events + [e])[..|events|] == events;
    t := Advance(env, s, e);
  }

  ghost function Halt(env: Env, total: nat, received: nat, hashed: Bytes, m: Option<Msg>, w: Outcome): Stop {
    if m.None? then Hangup
    else if Objection(env, total, received, hashed, m.value).Some? then Objecting(total, received, hashed, m.value)
    else Storage(FILE_CHUNK, if w.Fault? then w.e else OtherOsError, true)
  }

  // What a stale .part keeps when the server starts at `start`.
  function Kept(part: Option<Bytes>, resume: nat, start: nat): Bytes {
    if part.None? || (start != resume && start == 0) then [] else part.value
  }

  datatype Verdict = More | Complete | Stop

  // Why a call raises: with the code alone, or after an ERROR to the server.
  datatype Complaint = Quiet(code: ErrorCode) | Told(op: Opcode, code: ErrorCode)

  // What the receive loop has against frame `m`.
  function Objection(env: Env, total: nat, received: nat, hashed: Bytes, m: Msg): Option<Complaint> {
    match m
    case Error(_, code) => Some(Quiet(code))
    case Chunk(offset, data) =>
      if data == [] || |data| > env.chunk then Some(Quiet(INVALID_PAYLOAD))
      else if offset != received then Some(Told(FILE_CHUNK, OFFSET_MISMATCH))
      else if received + |data| > total then Some(Told(FILE_CHUNK, SIZE_MISMATCH))
      else None
    case Checksum(size, digest) =>
      if size != total || received != total then Some(Told(FILE_CHECKSUM, SIZE_MISMATCH))
      else if digest != env.hash(hashed) then Some(Told(FILE_CHECKSUM, CHECKSUM_MISMATCH))
      else None
    case _ => Some(Told(Kind(m), INVALID_STATE))
  }

  // What kept a call from returning: the connection ended, the first answer, an
  // error of the local file system, or a frame of the receive loop.
  datatype Stop =
    | Hangup
    | Answer(m: Msg)
    | Storage(op: Opcode, e: OsError, fatal: bool)
    | Objecting(total: nat, received: nat, hashed: Bytes, m: Msg)

  // `q` delivers `data`, chunk after chunk, from `pos` on.
  ghost predicate Delivers(q: seq<Msg>, pos: nat, data: Bytes) {
    if q == [] then data == []
    else
      var last := q[|q| - 1];
      && last.Chunk? && |last.data| <= |data|
      && last.offset == pos + |data| - |last.data|
      && data[|data| - |last.data|..] == last.data
      && Delivers(q[..|q| - 1], pos, data[..|data| - |last.data|])
  }

  lemma DeliversMore(q: seq<Msg>, pos: nat, data: Bytes, m: Msg)
    requires Delivers(q, pos, data) && m.Chunk? && m.offset == pos + |data|
    ensures Delivers(q + [m], pos, data + m.data)
  {
    assert (q + [m])[..|q|] == q;
    assert (data + m.data)[..|data|] == data;
  }

  // `frames` delivered `data`, which was taken into the digest after `prefix`.
  ghost predicate Taken(start: nat, prefix: Bytes, frames: seq<Msg>, data: Bytes, received: nat, hashed: Bytes) {
    received == start + |data| && hashed == prefix + data && Delivers(frames, start, data)
  }

  lemma TakeMore(start: nat, prefix: Bytes, frames: seq<Msg>, data: Bytes, received: nat, hashed: Bytes, m: Msg)
    requires Taken(start, prefix, frames, data, received, hashed) && m.Chunk? && m.offset == received
    ensures Taken(start, prefix, frames + [m], data + m.data, received + |m.data|, hashed + m.data)
  {
    DeliversMore(frames, start, data, m);
    assert hashed + m.data == prefix + (data + m.data);
  }

  // One download: where it asked to resume, what FILE_INFO announced, the
  // chunks and their data, and all frames received and sent.
  datatype Log = Log(
    resume: nat, start: nat, total: nat, frames: seq<Msg>, data: Bytes, heard: seq<Msg>, said: seq<Msg>)

  // What a download that returned has done. `kept` is what was in .part when
  // the client began to append.
  ghost predicate Downloaded(env: Env, before: Local, after: Local, r: CallResult, log: Log) {
    var kept := Kept(before.part, log.resume, log.start);
    var digest := env.hash(kept[..Min(log.start, |kept|)] + log.data);
    && log.start + |log.data| == log.total
    && Delivers(log.frames, log.start, log.data)
    && log.heard == [Info(log.total, log.start)] + (log.frames + [Checksum(log.total, digest)])
    && log.said == [Download(log.resume), Ack(FILE_INFO, log.start), Ack(FILE_CHECKSUM, log.total)]
    && after == Local(Some(kept + log.data), None, [], false)
    && r == Returned(log.total, digest)
  }

  class Session {
    const env: Env
    var disk: Local
    var sent: seq<Msg>
    var got: seq<Msg>
    ghost var origin: State
    ghost var trail: seq<Event>
    ghost var at: Client
    ghost var due: Local

    constructor (env: Env, disk: Local)
      ensures this.env == env && this.disk == disk && sent == [] && got == [] && at == Ready(Fresh) && Follows()
    {
      this.env, this.disk := env, disk;
      sent, got := [], [];
      origin, trail, at, due := State(disk, Ready(Fresh)), [], Ready(Fresh), disk;
    }

    ghost predicate Follows()
      reads this
    {
      Replay(env, origin, trail) == State(due, at) && due == disk
    }

    ghost method Record(e: Event)
      requires Follows()
      modifies `at, `due, `trail
      ensures Replay(env, origin, trail) == State(due, at)
      ensures State(due, at) == Advance(env, State(disk, old(at)), e)
    {
      var next := ReplayStep(env, origin, trail, State(disk, at), e);
      at, due, trail := next.client, next.disk, trail + [e];
    }

    method Attempt() returns (o: Outcome)
      requires Follows()
      modifies `at, `due, `trail
      ensures Replay(env, origin, trail) == State(due, at)
      ensures State(due, at) == Advance(env, State(disk, old(at)), Op(o))
    {
      o := *;
      Record(Op(o));
    }

    // False when the connection breaks; the session closes, and an open .part
    // file with it.
    method Send(m: Msg) returns (ok: bool)
      requires Follows() && ClientSays(at) == Some(m)
      modifies `at, `due, `trail, `sent, `disk
      ensures Follows()
      ensures ok ==> sent == old(sent) + [m] && disk == old(disk) && at == AfterSaying(env, old(at))
      ensures !ok ==> sent == old(sent) && disk == Close(old(disk)) && at.Severed?
    {
      ok := *;
      if ok {
        sent := sent + [m];
        Record(Said);
      } else {
        Record(Lost);
        disk := Close(disk);
      }
    }

    method Receive() returns (m: Option<Msg>, writes: Outcome)
      requires Follows()
      modifies `at, `due, `trail, `got, `disk
      ensures Replay(env, origin, trail) == State(due, at)
      ensures m.None? ==> due == disk == Close(old(disk)) && at.Severed? && got == old(got)
      ensures m.Some? ==> disk == old(disk) && got == old(got) + [m.value]
      ensures m.Some? ==> State(due, at) == Advance(env, State(disk, old(at)), Heard(m.value, writes))
    {
      m, writes := *, *;
      match m {
        case Some(f) =>
          got := got + [f];
          Record(Heard(f, writes));
        case None =>
          Record(Lost);
          disk := Close(disk);
      }
    }

    // The call raises: a ProtocolError leaves the session open, anything else
    // closes it.
    ghost predicate Raises(r: Option<CallResult>)
      reads this
    {
      disk.buffer == [] && at == (if r.Some? then Ready(r.value) else Severed)
    }

    // The ProtocolError of a failure with `code`: .part is gone, or could not be
    // removed.
    ghost predicate Settled(r: CallResult, code: ErrorCode)
      reads this
    {
      r == Raised(FILE_IO_ERROR) || (r == Raised(code) && disk.part.None?)
    }

    // The server heard what it has to, and the call raised; or the connection
    // broke before that.
    twostate predicate Complains(r: Option<CallResult>, w: Complaint)
      reads this
    {
      match w
      case Quiet(code) => r.Some? && Settled(r.value, code) && sent == old(sent)
      case Told(op, code) =>
        if r.Some? then Settled(r.value, code) && sent == old(sent) + [Error(op, code)]
        else sent == old(sent)
    }

    // An OSError is reported; a fatal one closes the session and keeps .part.
    twostate predicate Fails(r: Option<CallResult>, op: Opcode, e: OsError, fatal: bool)
      reads this
    {
      if fatal then
        && r.None? && disk == Close(old(disk))
        && (sent == old(sent) || sent == old(sent) + [Error(op, OsErrorCode(e))])
      else Complains(r, Told(op, OsErrorCode(e)))
    }

    // except ProtocolError: remove .part and raise.
    method RemoveStalePart(code: ErrorCode) returns (r: CallResult, ghost failed: bool)
      requires Follows() && at == Cleaning(code)
      modifies `at, `due, `trail, `disk
      ensures Follows() && at == Ready(r)
      ensures if failed then r == Raised(FILE_IO_ERROR) && disk == old(disk)
              else r == Raised(code) && disk == old(disk).(part := None, shared := false)
    {
      var o := Attempt();
      failed := o.Fault?;
      if o.Fault? {
        r := Raised(FILE_IO_ERROR);
      } else {
        r := Raised(code);
        disk := disk.(part := None, shared := false);
      }
    }

    // _raise_local_failure and _send_failure; None when the session closes.
    method ReportFailure(op: Opcode, code: ErrorCode, fatal: bool) returns (r: Option<CallResult>)
      requires Follows() && at == Reporting(Error(op, code), fatal) && disk.buffer == []
      modifies `at, `due, `trail, `disk, `sent
      ensures Follows() && Raises(r)
      ensures disk == old(disk) || disk == old(disk).(part := None, shared := false)
      ensures r.None? ==> disk == old(disk)
      ensures if fatal then r.None? && (sent == old(sent) || sent == old(sent) + [Error(op, code)])
              else Complains(r, Told(op, code))
    {
      var ok := Send(Error(op, code));
      if !ok || fatal { return None; }
      var raised, _ := RemoveStalePart(code);
      r := Some(raised);
    }
  
    // Lines 95-141: drop a stale .part, hash what is kept, open it, acknowledge.
    method Prepare(resume: nat, total: nat, start: nat)
      returns (go: bool, hashed: Bytes, r: Option<CallResult>, ghost fault: Option<OsError>)
      requires Follows() && at == Preparing(resume, total, start) && disk.buffer == [] && !disk.shared
      modifies `at, `due, `trail, `disk, `sent
      ensures Follows() && disk.final == old(disk).final && !disk.shared
      ensures go ==>
        && at == Receiving(Count(total, start, hashed)) && disk.buffer == [] && r.None?
        && disk.part == Some(Kept(old(disk).part, resume, start))
        && hashed == disk.part.value[..Min(start, |disk.part.value|)]
        && sent == old(sent) + [Ack(FILE_INFO, start)]
      ensures !go ==> Raises(r)
      ensures !go && fault.Some? ==> Complains(r, Told(FILE_INFO, OsErrorCode(fault.value)))
      ensures !go && fault.None? ==> r.None? && sent == old(sent)
    {
      go, hashed, r, fault := false, [], None, None;
      var o := Attempt();
      if start != resume && start == 0 { disk := disk.(part := None, shared := false); }
      if o.Fault? {
        fault := Some(o.e);
        r := ReportFailure(FILE_INFO, OsErrorCode(o.e), false);
        return;
      }
      if start > 0 && disk.part.Some? {
        hashed := HashExisting(disk.part.value, start);
      }
      o := Attempt();
      if o.Fault? {
        fault := Some(o.e);
        r := ReportFailure(FILE_INFO, OsErrorCode(o.e), false);
        return;
      }
      if disk.part.None? { disk := disk.(part := Some([]), buffer := [], shared := false); }
      go := Send(Ack(FILE_INFO, start));
    }

    // Lines 109-119: feed the digest with the first `start` bytes of .part.
    static method HashExisting(content: Bytes, start: nat) returns (hashed: Bytes)
      ensures hashed == content[..Min(start, |content|)]
    {
      hashed := [];
      var read := 0;
      while read < start
        invariant 0 <= read == |hashed| <= |content| && read <= start && hashed == content[..read]
      {
        var chunk := content[read..Min(read + Min(65536, start - read), |content|)];
        if |chunk| == 0 { break; }
        assert content[..read] + chunk == content[..read + |chunk|];
        hashed := hashed + chunk;
        read := read + |chunk|;
      }
      assert read == Min(start, |content|);
    }
  
    // One frame of the receive loop, lines 144-226.
    method TakeFrame(total: nat, received: nat, hashed: Bytes, m: Msg, writes: Outcome)
      returns (v: Verdict, r: Option<CallResult>)
      requires Replay(env, origin, trail) == State(due, at)
      requires State(due, at) == Advance(env, State(disk, Receiving(Count(total, received, hashed))), Heard(m, writes))
      requires disk.part.Some? && !disk.shared
      modifies `at, `due, `trail, `disk, `sent
      ensures Follows() && disk.final == old(disk).final
      ensures v.More? ==>
        && m.Chunk? && m.offset == received && ChunkOk(env, m.data) && received + |m.data| <= total
        && at == Receiving(Count(total, received + |m.data|, hashed + m.data))
        && disk == old(disk).(buffer := old(disk).buffer + m.data) && sent == old(sent)
      ensures v.Complete? ==>
        && m == Checksum(total, env.hash(hashed)) && received == total
        && at == Syncing(Count(total, received, hashed)) && disk == old(disk) && sent == old(sent)
      ensures v.Stop? ==> Raises(r)
      ensures !v.Stop? ==> r.None?
      ensures v.Stop? <==> Objection(env, total, received, hashed, m).Some? || (m.Chunk? && writes.Fault?)
      ensures
        var objection := Objection(env, total, received, hashed, m);
        if objection.Some? then Complains(r, objection.value)
        else v.Stop? ==> Fails(r, FILE_CHUNK, writes.e, true)
      ensures v.Stop? && r.None? ==> disk == Close(old(disk))
    {
      v, r := Stop, None;
      if && m.Chunk? && 0 < |m.data| <= env.chunk && m.offset == received
         && received + |m.data| <= total && !writes.Fault? {
        disk := disk.(buffer := disk.buffer + m.data);
        return More, None;
      }
      if m.Checksum? && m.size == total && received == total && m.digest == env.hash(hashed) {
        return Complete, None;
      }
      disk := Close(disk);
      if m.Error? {
        var raised, _ := RemoveStalePart(m.code);
        r := Some(raised);
      } else if m.Chunk? {
        if !(0 < |m.data| <= env.chunk) {
          var raised, _ := RemoveStalePart(INVALID_PAYLOAD);
          r := Some(raised);
        } else if m.offset != received {
          r := ReportFailure(FILE_CHUNK, OFFSET_MISMATCH, false);
        } else if received + |m.data| > total {
          r := ReportFailure(FILE_CHUNK, SIZE_MISMATCH, false);
        } else {
          r := ReportFailure(FILE_CHUNK, OsErrorCode(writes.e), true);
        }
      } else if m.Checksum? {
        var code := if m.size != total || received != total then SIZE_MISMATCH else CHECKSUM_MISMATCH;
        r := ReportFailure(FILE_CHECKSUM, code, false);
      } else {
        r := ReportFailure(Kind(m), INVALID_STATE, false);
      }
    }

    // Lines 228-257: flush, link, unlink, confirm.
    method Publish(total: nat, received: nat, hashed: Bytes)
      returns (r: Option<CallResult>, ghost fault: Option<OsError>)
      requires Follows() && at == Syncing(Count(total, received, hashed))
      requires disk.part.Some? && !disk.shared && disk.final.None?
      modifies `at, `due, `trail, `disk, `sent
      ensures Follows()
      ensures r.Some? && r.value.Returned? ==>
        && at == Ready(r.value) && r.value == Returned(received, env.hash(hashed))
        && disk == Local(Some(old(disk).part.value + old(disk).buffer), None, [], false)
        && sent == old(sent) + [Ack(FILE_CHECKSUM, received)]
      ensures !(r.Some? && r.value.Returned?) ==> Raises(r)
      ensures fault.Some? ==> Complains(r, Told(FILE_CHECKSUM, OsErrorCode(fault.value)))
      ensures fault.None? && !(r.Some? && r.value.Returned?) ==> r.None? && sent == old(sent)
    {
      fault := None;
      var o := Attempt();
      assert disk.part.value + [] == disk.part.value;
      disk := Close(disk);
      if o.Fault? {
        fault := Some(o.e);
        r := ReportFailure(FILE_CHECKSUM, OsErrorCode(o.e), false);
        return;
      }
      o := Attempt();
      if o.Fault? {
        fault := Some(o.e);
        r := ReportFailure(FILE_CHECKSUM, OsErrorCode(o.e), false);
        return;
      }
      disk := disk.(final := disk.part, shared := true);
      r, fault := Unlink(total, received, hashed);
    }

    method Unlink(total: nat, received: nat, hashed: Bytes)
      returns (r: Option<CallResult>, ghost fault: Option<OsError>)
      requires Follows() && at == Unlinking(Count(total, received, hashed)) && disk.buffer == []
      modifies `at, `due, `trail, `disk, `sent
      ensures Follows()
      ensures r.Some? && r.value.Returned? ==>
        && at == Ready(r.value) && r.value == Returned(received, env.hash(hashed))
        && disk == old(disk).(part := None, shared := false)
        && sent == old(sent) + [Ack(FILE_CHECKSUM, received)]
      ensures !(r.Some? && r.value.Returned?) ==> Raises(r)
      ensures fault.Some? ==> Complains(r, Told(FILE_CHECKSUM, OsErrorCode(fault.value)))
      ensures fault.None? && !(r.Some? && r.value.Returned?) ==> r.None? && sent == old(sent)
    {
      fault := None;
      var o := Attempt();
      if o.Fault? {
        fault := Some(o.e);
        r := ReportFailure(FILE_CHECKSUM, OsErrorCode(o.e), false);
        return;
      }
      disk := disk.(part := None, shared := false);
      var ok := Send(Ack(FILE_CHECKSUM, received));
      r := if ok then Some(Returned(received, env.hash(hashed))) else None;
    }

    // Lines 70-93: ask for the file from `resume` on.
    method Ask(resume: nat) returns (go: bool, total: nat, start: nat, r: Option<CallResult>, ghost answer: Option<Msg>)
      requires Follows() && at == Asking(resume) && disk.buffer == []
      modifies `at, `due, `trail, `disk, `sent, `got
      ensures Follows()
      ensures go ==>
        && at == Preparing(resume, total, start) && disk == old(disk)
        && sent == old(sent) + [Download(resume)] && got == old(got) + [Info(total, start)]
      ensures !go ==> Raises(r)
      ensures answer.Some? ==> sent == old(sent) + [Download(resume)] && got == old(got) + [answer.value]
      ensures go <==> answer.Some? && answer.value.Info?
      ensures !go && answer.Some? ==>
        r.Some? && Settled(r.value, if answer.value.Error? then answer.value.code else INVALID_PAYLOAD)
      ensures answer.None? ==> r.None?
    {
      go, total, start, r, answer := false, 0, 0, None, None;
      var ok: bool := *;
      if !ok {
        Record(Lost);
        disk := Close(disk);
        return;
      }
      sent := sent + [Download(resume)];
      var m, writes := Receive();
      answer := m;
      if m.None? { return; }
      if m.value.Error? {
        var raised, _ := RemoveStalePart(m.value.code);
        r := Some(raised);
      } else if m.value.Info? {
        go, total, start := true, m.value.total, m.value.start;
      } else {
        var raised, _ := RemoveStalePart(INVALID_PAYLOAD);
        r := Some(raised);
      }
    }

    // The loop ends without a checksum that fits: the connection was lost, the
    // frame is refused, or it could not be written.
    twostate predicate Halts(
        total: nat, received: nat, hashed: Bytes, new m: Option<Msg>, new w: Outcome, r: Option<CallResult>)
      reads this
    {
      if m.None? then r.None? && sent == old(sent)
      else
        var objection := Objection(env, total, received, hashed, m.value);
        if objection.Some? then Complains(r, objection.value)
        else
          && m.value.Chunk? && w.Fault? && r.None?
          && (sent == old(sent) || sent == old(sent) + [Error(FILE_CHUNK, OsErrorCode(w.e))])
    }

    method ReceiveOne(total: nat, received: nat, hashed: Bytes)
      returns (v: Verdict, m: Option<Msg>, r: Option<CallResult>, ghost w: Outcome)
      requires Follows() && at == Receiving(Count(total, received, hashed)) && disk.part.Some? && !disk.shared
      modifies `at, `due, `trail, `disk, `sent, `got
      ensures Follows() && disk.final == old(disk).final
      ensures v.More? ==>
        && m.Some? && m.value.Chunk? && Objection(env, total, received, hashed, m.value).None?
        && at == Receiving(Count(total, received + |m.value.data|, hashed + m.value.data))
        && disk == old(disk).(buffer := old(disk).buffer + m.value.data)
      ensures v.Complete? ==>
        && m == Some(Checksum(total, env.hash(hashed))) && received == total
        && at == Syncing(Count(total, received, hashed)) && disk == old(disk)
      ensures !v.Stop? ==> r.None? && sent == old(sent)
      ensures got == if m.Some? then old(got) + [m.value] else old(got)
      ensures v.Stop? ==> Raises(r) && Halts(total, received, hashed, m, w, r)
      ensures v.Stop? && r.None? ==> disk == Close(old(disk))
    {
      v, m, r := Stop, None, None;
      var writes;
      m, writes := Receive();
      w := writes;
      if m.None? { return; }
      v, r := TakeFrame(total, received, hashed, m.value, writes);
    }

    // The receive loop: take chunks until the checksum, or until `m`.
    method ReceiveAll(total: nat, start: nat, prefix: Bytes)
      returns (go: bool, received: nat, hashed: Bytes, r: Option<CallResult>,
               ghost frames: seq<Msg>, ghost data: Bytes, ghost m: Option<Msg>, ghost w: Outcome)
      requires Follows() && at == Receiving(Count(total, start, prefix))
      requires disk.part.Some? && !disk.shared && disk.buffer == []
      modifies `at, `due, `trail, `disk, `sent, `got
      ensures Follows()
      ensures Taken(start, prefix, frames, data, received, hashed)
      ensures got == old(got) + (if m.Some? then frames + [m.value] else frames)
      ensures go ==>
        && received == total && m == Some(Checksum(total, env.hash(hashed)))
        && at == Syncing(Count(total, received, hashed))
        && sent == old(sent)
        && disk == old(disk).(buffer := data)
      ensures !go ==> Raises(r) && Halts(total, received, hashed, m, w, r)
      ensures !go && r.None? ==> disk == old(disk).(part := Some(old(disk).part.value + data))
    {
      go, received, hashed, r, frames, data := false, start, prefix, None, [], [];
      assert prefix + [] == prefix && disk.part.value + [] == disk.part.value;
      while true
        invariant Follows() && at == Receiving(Count(total, received, hashed)) && !go && r.None?
        invariant Taken(start, prefix, frames, data, received, hashed)
        invariant got == old(got) + frames && sent == old(sent)
        invariant disk == old(disk).(buffer := data)
        decreases if received <= total then total - received else 0
      {
        var v, next;
        v, next, r, w := ReceiveOne(total, received, hashed);
        m := next;
        if v.Stop? {
          if m.Some? { Joined(old(got), frames, [m.value]); }
          return;
        }
        if v.Complete? {
          Joined(old(got), frames, [m.value]);
          go := true;
          return;
        }
        var more := next.value.data;
        TakeMore(start, prefix, frames, data, received, hashed, next.value);
        Joined(old(got), frames, [next.value]);
        frames, data := frames + [next.value], data + more;
        received, hashed := received + |more|, hashed + more;
      }
    }

    // The call begins; its record starts afresh.
    ghost method BeginCall(stat: bool)
      requires due == disk
      modifies `origin, `trail, `at, `due
      ensures Follows() && at == Start(disk, stat)
    {
      origin, trail, at, due := State(disk, Start(disk, stat)), [], Start(disk, stat), disk;
    }

    // Why a call did not return, and with what.
    ghost predicate Explained(stop: Stop, r: Option<CallResult>)
      reads this
    {
      match stop
      case Hangup => r.None?
      case Answer(m) => r.Some? && Settled(r.value, if m.Error? then m.code else INVALID_PAYLOAD) && !m.Info?
      case Storage(op, e, fatal) =>
        r.Some? ==> Settled(r.value, OsErrorCode(e)) && !fatal && LastSent(Error(op, OsErrorCode(e)))
      case Objecting(total, received, hashed, m) =>
        var objection := Objection(env, total, received, hashed, m);
        && objection.Some?
        && (objection.value.Quiet? ==> r.Some?)
        && (r.Some? ==> Settled(r.value, objection.value.code))
        && (r.Some? && objection.value.Told? ==> LastSent(Error(objection.value.op, objection.value.code)))
    }

    ghost predicate LastSent(m: Msg)
      reads this
    {
      sent != [] && sent[|sent| - 1] == m
    }

    // Lines 143-257: receive the rest of the file and publish it.
    method TakeFile(total: nat, start: nat, prefix: Bytes)
      returns (r: Option<CallResult>, ghost frames: seq<Msg>, ghost data: Bytes, ghost stop: Stop)
      requires Follows() && at == Receiving(Count(total, start, prefix))
      requires disk.part.Some? && !disk.shared && disk.buffer == [] && disk.final.None?
      modifies `at, `due, `trail, `disk, `sent, `got
      ensures Follows()
      ensures !(r.Some? && r.value.Returned?) ==> Raises(r) && Explained(stop, r)
      ensures r.Some? && r.value.Returned? ==>
        && at == Ready(r.value) && r.value == Returned(total, env.hash(prefix + data))
        && start + |data| == total && Delivers(frames, start, data)
        && got == old(got) + (frames + [Checksum(total, env.hash(prefix + data))])
        && sent == old(sent) + [Ack(FILE_CHECKSUM, total)]
        && disk == Local(Some(old(disk).part.value + data), None, [], false)
    {
      stop := Hangup;
      ghost var fault, m, w;
      var go, received, hashed;
      go, received, hashed, r, frames, data, m, w := ReceiveAll(total, start, prefix);
      if !go {
        stop := Halt(env, total, received, hashed, m, w);
        return;
      }
      r, fault := Publish(total, received, hashed);
      if fault.Some? { stop := Storage(FILE_CHECKSUM, fault.value, false); }
    }

    method Fetch(resume: nat) returns (r: Option<CallResult>, ghost log: Log, ghost stop: Stop)
      requires Follows() && at == Asking(resume) && disk.buffer == [] && disk.final.None? && !disk.shared
      modifies `at, `due, `trail, `disk, `sent, `got
      ensures Follows()
      ensures !(r.Some? && r.value.Returned?) ==> Raises(r) && Explained(stop, r)
      ensures r.Some? && r.value.Returned? ==>
        && at == Ready(r.value) && Downloaded(env, old(disk), disk, r.value, log) && log.resume == resume
        && got == old(got) + log.heard && sent == old(sent) + log.said
    {
      log, stop := Log(resume, 0, 0, [], [], [], []), Hangup;
      var go, total, start;
      ghost var answer, fault;
      go, total, start, r, answer := Ask(resume);
      if !go {
        if answer.Some? { stop := Answer(answer.value); }
        return;
      }
      var prefix;
      go, prefix, r, fault := Prepare(resume, total, start);
      if !go {
        if fault.Some? { stop := Storage(FILE_INFO, fault.value, false); }
        return;
      }
      ghost var kept := disk.part.value;
      ghost var frames, data;
      r, frames, data, stop := TakeFile(total, start, prefix);
      if !(r.Some? && r.value.Returned?) { return; }
      ghost var last := Checksum(total, env.hash(prefix + data));
      Joined(old(got), [Info(total, start)], frames + [last]);
      log := Log(resume, start, total, frames, data, [Info(total, start)] + (frames + [last]),
                 [Download(resume), Ack(FILE_INFO, start), Ack(FILE_CHECKSUM, total)]);
    }
  }

  // download_file, whatever the server sends and whatever .part holds.
  method DownloadFile(session: Session) returns (r: Option<CallResult>, ghost log: Log, ghost stop: Stop)
    requires session.Follows() && session.at.Ready? && session.disk.buffer == []
    requires session.disk.shared ==> session.disk.final.Some?
    modifies session
    ensures session.Follows()
    ensures old(session.disk).final.Some? ==>
      r == Some(Raised(FILE_EXISTS)) && session.disk == old(session.disk) && session.sent == old(session.sent)
    ensures r.None? ==> session.at.Severed?
    ensures r.Some? ==> session.at == Ready(r.value)
    ensures old(session.disk).final.None? && !(r.Some? && r.value.Returned?) ==> session.Explained(stop, r)
    ensures r.Some? && r.value.Returned? ==>
      && Downloaded(session.env, old(session.disk), session.disk, r.value, log)
      && session.got == old(session.got) + log.heard && session.sent == old(session.sent) + log.said
      && (log.resume == 0 || (old(session.disk).part.Some? && log.resume == |old(session.disk).part.value|))
  {
    if session.disk.final.Some? {
      r, log, stop := Some(Raised(FILE_EXISTS)), Log(0, 0, 0, [], [], [], []), Hangup;
      session.BeginCall(true);
      return;
    }
    var stat: bool := *;
    var resume := if session.disk.part.Some? && stat then |session.disk.part.value| else 0;
    session.BeginCall(stat);
    r, log, stop := session.Fetch(resume);
  }

  // What Downloaded means for the file: it has the announced size if and only
  // if the server started where .part ended, and then it has the digest the
  // server sent.
  lemma DownloadedFile(env: Env, before: Local, after: Local, r: CallResult, log: Log)
    requires Downloaded(env, before, after, r, log)
    ensures |after.final.value| == log.total <==> |Kept(before.part, log.resume, log.start)| == log.start
    ensures |after.final.value| == log.total ==> env.hash(after.final.value) == r.digest
  {
    var kept := Kept(before.part, log.resume, log.start);
    if |kept| == log.start { assert kept[..Min(log.start, |kept|)] == kept; }
  }

  // This server always starts where it is asked to, so the size is right
  // exactly when the client asked for the size of its .part file.
  lemma AskedSizeDecides(env: Env, before: Local, after: Local, r: CallResult, log: Log)
    requires Downloaded(env, before, after, r, log) && log.start == log.resume
    ensures |after.final.value| == log.total <==> log.resume == if before.part.Some? then |before.part.value| else 0
  {
    DownloadedFile(env, before, after, r, log);
  }
}
