// handle_download, the server's side of a download, against any client. Each
// of its steps is a server step of module DownloadSystem.

module DownloadHandler {
  import opened Protocol
  import opened Transfer
  import opened Tiling
  import opened DownloadSystem

  // Where the server goes for one choice of the environment.
  function Advance(env: Env, file: Option<Bytes>, p: Server, a: Action): Server {
    match a
    case Io(o) => if p.Locating? then Locate(file, p.offset, o) else p
    case Got(m) => ServerTakes(env, file, p, m)
    case Garbled(code) => if p.AwaitInfo? || p.AwaitFinal? then Replying(Error(FILE_DOWNLOAD, code)) else p
    case Gone => Server.Closed
    case Sent => AfterSend(env, if file.Some? then file.value else [], p)
    case Broken => Server.Closed
  }

  function Replay(env: Env, file: Option<Bytes>, p: Server, actions: seq<Action>): Server {
    if actions == [] then p
    else Advance(env, file, Replay(env, file, p, actions[..|actions| - 1]), actions[|actions| - 1])
  }

  lemma ReplayStep(env: Env, file: Option<Bytes>, from: Server, actions: seq<Action>, p: Server, a: Action)
    requires Replay(env, file, from, actions) == p
    ensures Replay(env, file, from, actions + [a]) == Advance(env, file, p, a)
  {
    assert (actions + [a])[..|actions|] == actions;
  }

  // Succeeded, failed with a code, raised a ProtocolError, or lost the connection.
  datatype Ending = Succeeded | Failed(code: ErrorCode) | Raised(raised: ErrorCode) | Disconnected

  datatype Incoming = Frame(m: Msg) | Rejected(code: ErrorCode) | Nothing

  const READ_SIZE := 65536

  // The digest of the whole file, read piece by piece.
  method HashFile(content: Bytes) returns (fed: Bytes)
    ensures fed == content
  {
    fed := [];
    while |fed| < |content|
      invariant |fed| <= |content| && fed == content[..|fed|]
    {
      var chunk := content[|fed|..Min(|fed| + READ_SIZE, |content|)];
      assert content[..|fed|] + chunk == content[..|fed| + |chunk|];
      fed := fed + chunk;
    }
  }

  class Session {
    const env: Env
    const file: Option<Bytes>
    var sent: seq<Msg>
    var got: seq<Msg>
    ghost var origin: Server
    ghost var trail: seq<Action>
    ghost var at: Server

    constructor (env: Env, file: Option<Bytes>)
      ensures this.env == env && this.file == file && sent == [] && got == [] && at == Idle && Follows()
    {
      this.env, this.file := env, file;
      sent, got := [], [];
      origin, trail, at := Idle, [], Idle;
    }

    ghost predicate Follows()
      reads this
    {
      Replay(env, file, origin, trail) == at
    }

    ghost method Record(a: Action)
      requires Follows()
      modifies `at, `trail
      ensures Follows() && at == Advance(env, file, old(at), a)
    {
      ReplayStep(env, file, origin, trail, at, a);
      at, trail := Advance(env, file, at, a), trail + [a];
    }

    ghost function Content(): Bytes { if file.Some? then file.value else [] }

    method Send(m: Msg) returns (ok: bool)
      requires Follows() && Outgoing(env, Content(), at) == Some(m)
      modifies `at, `trail, `sent
      ensures Follows() && sent == if ok then old(sent) + [m] else old(sent)
      ensures at == if ok then AfterSend(env, Content(), old(at)) else Server.Closed
    {
      ok := *;
      if ok {
        sent := sent + [m];
        Record(Sent);
      } else {
        Record(Broken);
      }
    }

    method Receive() returns (f: Incoming)
      requires Follows()
      modifies `at, `trail, `got
      ensures Follows()
      ensures got == if f.Frame? then old(got) + [f.m] else old(got)
      ensures
        var a := if f.Frame? then Got(f.m) else if f.Rejected? then Garbled(f.code) else Gone;
        at == Advance(env, file, old(at), a)
    {
      f := *;
      match f {
        case Frame(m) =>
          got := got + [m];
          Record(Got(m));
        case Rejected(code) => Record(Garbled(code));
        case Nothing => Record(Gone);
      }
    }

    ghost predicate Ended(r: Ending)
      reads this
    {
      match r
      case Succeeded => at == Idle
      case Failed(_) => at == Idle
      case Raised(code) => at == Replying(Error(FILE_DOWNLOAD, code))
      case Disconnected => at == Server.Closed
    }

    // One ERROR was sent, or the connection broke before it was.
    twostate predicate Reported(r: Ending, op: Opcode, code: ErrorCode)
      reads this
    {
      if r == Disconnected then sent == old(sent)
      else r == Failed(code) && sent == old(sent) + [Error(op, code)]
    }

    method Fail(op: Opcode, code: ErrorCode) returns (r: Ending)
      requires Follows() && at == Replying(Error(op, code))
      modifies `at, `trail, `sent
      ensures Follows() && Ended(r) && Reported(r, op, code)
    {
      var ok := Send(Error(op, code));
      r := if ok then Failed(code) else Disconnected;
    }

    // An answer other than the ACK that is expected: an ERROR is not answered.
    twostate predicate Rebuffed(new f: Incoming, op: Opcode, next: nat, r: Ending)
      reads this
    {
      match f
      case Nothing => r == Disconnected && sent == old(sent)
      case Rejected(code) => r == Ending.Raised(code) && sent == old(sent)
      case Frame(m) =>
        if m.Error? then r == Failed(m.code) && sent == old(sent)
        else if m.Ack? && m.op == op then m.next != next && Reported(r, op, OFFSET_MISMATCH)
        else Reported(r, op, INVALID_STATE)
    }

    // _validate_ack and what follows it, for FILE_INFO and FILE_CHECKSUM.
    method AwaitAck(op: Opcode, next: nat) returns (go: bool, r: Ending, ghost answer: Incoming)
      requires Follows()
      requires
        || (op == FILE_INFO && at == AwaitInfo(next))
        || (op == FILE_CHECKSUM && at == AwaitFinal && file.Some? && next == |file.value|)
      modifies `at, `trail, `got, `sent
      ensures Follows()
      ensures go <==> answer == Frame(Ack(op, next))
      ensures go ==> got == old(got) + [Ack(op, next)] && sent == old(sent)
      ensures go ==> at == if op == FILE_INFO then Sending(next, next) else Idle
      ensures !go ==> Ended(r) && Rebuffed(answer, op, next, r)
    {
      go, r := false, Disconnected;
      var f := Receive();
      answer := f;
      if f.Nothing? { return; }
      if f.Rejected? {
        r := Ending.Raised(f.code);
        return;
      }
      var m := f.m;
      if m.Error? {
        r := Failed(m.code);
      } else if !m.Ack? || m.op != op {
        r := Fail(op, INVALID_STATE);
      } else if m.next != next {
        r := Fail(op, OFFSET_MISMATCH);
      } else {
        go := true;
      }
    }

    // The streaming loop.
    method StreamChunks(offset: nat) returns (ok: bool, ghost frames: seq<Msg>)
      requires Follows() && file.Some? && offset <= |file.value| && at == Sending(offset, offset) && env.chunk > 0
      modifies `at, `trail, `sent
      ensures Follows()
      ensures ok ==>
        && at == Sending(offset, |file.value|) && sent == old(sent) + frames
        && Tiles(env, frames, offset, file.value) && EndOf(frames, offset) == |file.value|
        && forall m :: m in frames ==> m.Chunk?
      ensures !ok ==> at == Server.Closed
    {
      ok := true;
      var position := offset;
      frames := [];
      while position < |file.value|
        invariant offset <= position <= |file.value|
        invariant Follows() && at == Sending(offset, position) && sent == old(sent) + frames && ok
        invariant Tiles(env, frames, offset, file.value) && EndOf(frames, offset) == position
        invariant forall m :: m in frames ==> m.Chunk?
      {
        var data := file.value[position..Min(position + env.chunk, |file.value|)];
        TilesExtend(env, frames, offset, file.value, position);
        ok := Send(Chunk(position, data));
        if !ok { return; }
        frames := frames + [Chunk(position, data)];
        position := position + |data|;
      }
    }

    // The frames sent tile the file from `offset` on and end in its digest.
    method Stream(offset: nat) returns (ok: bool, ghost frames: seq<Msg>)
      requires Follows() && file.Some? && offset <= |file.value| && at == Sending(offset, offset) && env.chunk > 0
      modifies `at, `trail, `sent
      ensures Follows()
      ensures ok ==>
        && at == AwaitFinal && sent == old(sent) + frames
        && Tiles(env, frames, offset, file.value)
        && frames != [] && frames[|frames| - 1] == Checksum(|file.value|, env.hash(file.value))
      ensures !ok ==> at == Server.Closed
    {
      var full := HashFile(file.value);
      ok, frames := StreamChunks(offset);
      if !ok { return; }
      TilesExtend(env, frames, offset, file.value, |file.value|);
      assert file.value[..|file.value|] == file.value;
      ok := Send(Checksum(|file.value|, env.hash(full)));
      frames := frames + [Checksum(|file.value|, env.hash(file.value))];
    }

    // How a request that was offered ends without success.
    predicate Judged(answer: Incoming, op: Opcode, next: nat, r: Ending) {
      match answer
      case Nothing => r == Disconnected
      case Rejected(code) => r == Ending.Raised(code)
      case Frame(m) =>
        r == Disconnected
        || r == Failed(if m.Error? then m.code else if m.Ack? && m.op == op then OFFSET_MISMATCH else INVALID_STATE)
    }

    // Lines 152-247: the file is offered, streamed and confirmed.
    method Offer(offset: nat)
      returns (r: Ending, ghost frames: seq<Msg>, ghost first: Incoming, ghost second: Incoming)
      requires env.chunk > 0 && Follows() && at == Offering(offset) && file.Some? && offset <= |file.value|
      modifies `at, `trail, `sent, `got
      ensures Follows() && Ended(r)
      ensures
        || r == Disconnected
        || Judged(first, FILE_INFO, offset, r)
        || (first == Frame(Ack(FILE_INFO, offset)) && Judged(second, FILE_CHECKSUM, |file.value|, r))
        || r.Succeeded?
      ensures r.Succeeded? ==>
        && sent == old(sent) + ([Info(|file.value|, offset)] + frames)
        && Tiles(env, frames, offset, file.value)
        && frames != [] && frames[|frames| - 1] == Checksum(|file.value|, env.hash(file.value))
        && got == old(got) + [Ack(FILE_INFO, offset), Ack(FILE_CHECKSUM, |file.value|)]
    {
      r, frames, first, second := Disconnected, [], Nothing, Nothing;
      var go := Send(Info(|file.value|, offset));
      if !go { return; }
      go, r, first := AwaitAck(FILE_INFO, offset);
      if !go { return; }
      go, frames := Stream(offset);
      if !go {
        r := Disconnected;
        return;
      }
      Joined(old(sent), [Info(|file.value|, offset)], frames);
      go, r, second := AwaitAck(FILE_CHECKSUM, |file.value|);
      if go { r := Succeeded; }
    }

    // handle_download. What cannot be offered is declined with its reason: no such
    // file, an error of the file system (`open`), an offset beyond the end. A success
    // has offered the file at the offset asked for, sent chunks that tile the rest of
    // it and its digest, and seen both acknowledgements; any other answer decides how
    // the request ends.
    method HandleDownload(offset: nat)
      returns (r: Ending, ghost frames: seq<Msg>, ghost open: Outcome, ghost first: Incoming, ghost second: Incoming)
      requires env.chunk > 0 && Follows() && at == Locating(offset)
      modifies `at, `trail, `sent, `got
      ensures Follows() && Ended(r)
      ensures file.None? ==> Reported(r, FILE_DOWNLOAD, FILE_NOT_FOUND)
      ensures file.Some? && open.Fault? ==> Reported(r, FILE_DOWNLOAD, OsErrorCode(open.e))
      ensures file.Some? && !open.Fault? && offset > |file.value| ==> Reported(r, FILE_DOWNLOAD, INVALID_PAYLOAD)
      ensures file.Some? && !open.Fault? && offset <= |file.value| ==>
        || r == Disconnected
        || Judged(first, FILE_INFO, offset, r)
        || (first == Frame(Ack(FILE_INFO, offset)) && Judged(second, FILE_CHECKSUM, |file.value|, r))
        || r.Succeeded?
      ensures r.Succeeded? ==>
        && file.Some? && offset <= |file.value|
        && sent == old(sent) + ([Info(|file.value|, offset)] + frames)
        && Tiles(env, frames, offset, file.value)
        && frames != [] && frames[|frames| - 1] == Checksum(|file.value|, env.hash(file.value))
        && got == old(got) + [Ack(FILE_INFO, offset), Ack(FILE_CHECKSUM, |file.value|)]
    {
      r, frames, first, second := Disconnected, [], Nothing, Nothing;
      var o: Outcome := *;
      open := o;
      Record(Io(o));
      if file.None? {
        r := Fail(FILE_DOWNLOAD, FILE_NOT_FOUND);
        return;
      }
      if o.Fault? {
        r := Fail(FILE_DOWNLOAD, OsErrorCode(o.e));
        return;
      }
      if offset > |file.value| {
        r := Fail(FILE_DOWNLOAD, INVALID_PAYLOAD);
        return;
      }
      r, frames, first, second := Offer(offset);
    }
  }
}
