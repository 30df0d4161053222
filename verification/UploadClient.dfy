// upload_file, the client's side of an upload, over a source file that may
// change while it is being read.

module UploadClient {
  import opened Protocol
  import opened Transfer
  import opened Tiling

  datatype Ending = Returned(size: nat, digest: Bytes) | Raised(code: ErrorCode) | Severed

  class Session {
    const env: Env
    var open: bool
    var sent: seq<Msg>
    var got: seq<Msg>

    constructor (env: Env)
      ensures this.env == env && open && sent == [] && got == []
    {
      this.env := env;
      open, sent, got := true, [], [];
    }

    // A failing send closes the session.
    method Send(m: Msg) returns (ok: bool)
      modifies `open, `sent
      ensures open == ok && (ok ==> old(open))
      ensures sent == if ok then old(sent) + [m] else old(sent)
    {
      ok := *;
      ok := ok && open;
      if ok { sent := sent + [m]; } else { open := false; }
    }

    // None when the connection is gone; the session is closed then.
    method Receive() returns (m: Option<Msg>)
      modifies `open, `got
      ensures open == m.Some? && (m.Some? ==> old(open))
      ensures got == if m.Some? then old(got) + [m.value] else old(got)
    {
      m := *;
      if !open { m := None; }
      open := m.Some?;
      if m.Some? { got := got + [m.value]; }
    }

    method Abort()
      modifies `open
      ensures !open
    {
      open := false;
    }

    // At most n bytes, whatever the file holds at this moment.
    method ReadSource(n: nat) returns (data: Bytes)
      ensures |data| <= n
    {
      data := *;
      if |data| > n { data := data[..n]; }
    }

    // The acknowledgement of `op`, at any offset or at the expected one.
    static predicate Acknowledges(m: Msg, op: Opcode, expected: Option<nat>) {
      m.Ack? && m.op == op && (expected.Some? ==> m.next == expected.value)
    }

    // _expect_ack. An ERROR about `op` leaves the session open; any other answer
    // but the acknowledgement, or none, closes it.
    method ExpectAck(op: Opcode, expected: Option<nat>) returns (r: Result<nat>, ghost answer: Option<Msg>)
      modifies `open, `got
      ensures got == if answer.Some? then old(got) + [answer.value] else old(got)
      ensures r.Ok? <==> answer.Some? && Acknowledges(answer.value, op, expected)
      ensures r.Ok? ==> r.value == answer.value.next && open && old(open)
      ensures r.Err? && open ==> answer == Some(Error(op, r.error.code))
      ensures answer.Some? && answer.value.Error? && answer.value.op == op ==>
        open && old(open) && r.Err? && r.error.code == answer.value.code
    {
      var m := Receive();
      answer := m;
      if m.None? { return Bad(INVALID_STATE), answer; }
      match m.value {
        case Error(failed, code) =>
          if failed != op { Abort(); }
          r := Bad(code);
        case Ack(acknowledged, next) =>
          if acknowledged != op || (expected.Some? && next != expected.value) {
            Abort();
            return Bad(INVALID_STATE), answer;
          }
          r := Ok(next);
        case _ =>
          Abort();
          r := Bad(INVALID_STATE);
      }
    }

    // Read the first `length` bytes again for the digest; false when they are
    // no longer there.
    method HashPrefix(length: nat) returns (ok: bool, fed: Bytes)
      requires env.chunk > 0
      modifies `open
      ensures ok ==> |fed| == length && open == old(open)
      ensures !ok ==> !open
    {
      fed := [];
      var remaining := length;
      while remaining > 0
        invariant remaining >= 0 && |fed| + remaining == length && open == old(open)
      {
        var want := Min(remaining, env.chunk);
        var data := ReadSource(want);
        if |data| != want {
          Abort();
          return false, fed;
        }
        fed := fed + data;
        remaining := remaining - |data|;
      }
      ok := true;
    }
  }

  // What upload_file makes of an answer that is an ERROR about `op`.
  predicate Refused(answer: Option<Msg>, op: Opcode, r: Ending) {
    answer.Some? && answer.value.Error? && answer.value.op == op && r == Raised(answer.value.code)
  }

  // upload_file. When it has the second answer, the frames it sent after the
  // request tile exactly the bytes it read past the acknowledged offset and end with
  // their checksum, so the declared size and the digest are those of what it read,
  // even if the file changed meanwhile. It returns on the acknowledgement of that
  // size, and raises on an ERROR about the request or the checksum and on nothing
  // else; whatever else happens closes the session.
  method UploadFile(session: Session, total: nat)
    returns (r: Ending, ghost read: Bytes, ghost offset: nat, ghost frames: seq<Msg>,
             ghost first: Option<Msg>, ghost second: Option<Msg>)
    requires session.env.chunk > 0
    modifies session
    ensures !old(session.open) ==> r.Severed? && session.sent == old(session.sent)
    ensures r.Severed? <==> !session.open
    ensures r.Raised? ==> Refused(first, FILE_UPLOAD, r) || Refused(second, FILE_CHECKSUM, r)
    ensures first.Some? && first.value.Error? && first.value.op == FILE_UPLOAD ==>
      Refused(first, FILE_UPLOAD, r) && session.sent == old(session.sent) + [Upload(total, 0)]
    ensures second.Some? && second.value.Error? && second.value.op == FILE_CHECKSUM ==>
      Refused(second, FILE_CHECKSUM, r)
    ensures second.Some? ==>
      && |read| == total && offset <= total && first == Some(Ack(FILE_UPLOAD, offset))
      && session.sent == old(session.sent) + [Upload(total, 0)] + frames
      && Tiles(session.env, frames, offset, read)
      && session.got == old(session.got) + [first.value, second.value]
      && frames != [] && frames[|frames| - 1] == Checksum(total, session.env.hash(read))
    ensures r.Returned? <==> second == Some(Ack(FILE_CHECKSUM, total))
    ensures r.Returned? ==> r == Returned(total, session.env.hash(read))
  {
    read, offset, frames, first, second := [], 0, [], None, None;
    r := Severed;
    var ok := session.Send(Upload(total, 0));
    if !ok { return; }
    var a;
    a, first := session.ExpectAck(FILE_UPLOAD, None);
    if a.Err? {
      r := if session.open then Raised(a.error.code) else Severed;
      return;
    }
    if a.value > total {
      session.Abort();
      return;
    }
    var sent := a.value;
    offset := sent;
    var fed: Bytes;
    ok, fed := session.HashPrefix(sent);
    if !ok { return; }
    while true
      invariant sent == |fed| <= total && offset <= sent && session.open && r.Severed? && second.None?
      invariant session.sent == old(session.sent) + [Upload(total, 0)] + frames
      invariant session.got == old(session.got) + [first.value]
      invariant Tiles(session.env, frames, offset, fed) && EndOf(frames, offset) == |fed|
      invariant forall m :: m in frames ==> m.Chunk?
      decreases total - sent
    {
      var data := session.ReadSource(session.env.chunk);
      if data == [] { break; }
      if sent + |data| > total {
        session.Abort();
        return;
      }
      ok := session.Send(Chunk(sent, data));
      if !ok { return; }
      TilesGrow(session.env, frames, offset, fed, data);
      frames := frames + [Chunk(sent, data)];
      fed := fed + data;
      sent := sent + |data|;
    }
    read := fed;
    if sent != total {
      session.Abort();
      return;
    }
    var digest := session.env.hash(fed);
    ok := session.Send(Checksum(sent, digest));
    if !ok { return; }
    TilesClose(session.env, frames, offset, fed);
    frames := frames + [Checksum(sent, digest)];
    a, second := session.ExpectAck(FILE_CHECKSUM, Some(sent));
    if a.Err? {
      r := if session.open then Raised(a.error.code) else Severed;
      return;
    }
    r := Returned(sent, digest);
  }
}
