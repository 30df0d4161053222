// Frames of the transfer protocol, and runs of chunks that tile a file.

module Transfer {
  import opened Protocol

  // A decoded frame of the transfer protocol. The filename is fixed by the
  // pair under study, so requests and FILE_INFO do not repeat it.
  datatype Msg =
    | Upload(total: nat, hint: nat)
    | Download(offset: nat)
    | Info(total: nat, start: nat)
    | Chunk(offset: nat, data: Bytes)
    | Checksum(size: nat, digest: Bytes)
    | Ack(op: Opcode, next: nat)
    | Error(op: Opcode, code: ErrorCode)

  function Kind(m: Msg): Opcode {
    match m
    case Upload(_, _) => FILE_UPLOAD
    case Download(_) => FILE_DOWNLOAD
    case Info(_, _) => FILE_INFO
    case Chunk(_, _) => FILE_CHUNK
    case Checksum(_, _) => FILE_CHECKSUM
    case Ack(_, _) => ACK
    case Error(_, _) => ERROR
  }

  // `hash` is SHA-256, of which nothing is assumed. `chunk` is the configured
  // chunk size. `quietFails` lets the unlink calls of _remove_quietly fail.
  datatype Env = Env(hash: Bytes -> Bytes, chunk: nat, user: string, name: string, quietFails: bool)

  // What happens at one step: a file operation and its outcome, a frame
  // received (Garbled: a whole frame with a wrong USER_ID or opcode), the peer
  // gone, or a frame sent with or without error.
  datatype Action =
    | Io(outcome: Outcome)
    | Got(m: Msg)
    | Garbled(code: ErrorCode)
    | Gone
    | Sent
    | Broken

  // Unreadable: the metadata file could not be read. Expired: the partial pair
  // is older than its time to live. Short(n): n > 0 more bytes reached the file,
  // but the write call has not returned yet.
  datatype Outcome = Done | Fault(e: OsError) | Unreadable | Expired | Short(n: nat)

  ghost predicate ChunkOk(env: Env, data: Bytes) {
    0 < |data| <= env.chunk
  }

  // The reply of the dispatcher to a frame it has no handler for.
  function Unhandled(env: Env, m: Msg): Msg {
    if m.Chunk? && !(0 < |m.data| <= env.chunk) then Error(FILE_CHUNK, INVALID_PAYLOAD)
    else Error(Kind(m), UNSUPPORTED_OPCODE)
  }

  lemma Joined(x: seq<Msg>, y: seq<Msg>, z: seq<Msg>)
    ensures x + y + z == x + (y + z)
  {
  }
}

module Tiling {
  import opened Protocol
  import opened Transfer

  ghost predicate Matches(env: Env, a: Bytes, b: Bytes) {
    |a| == |b| && env.hash(a) == env.hash(b)
  }

  // The next frame of the streaming loop, or the checksum after it.
  function NextFrame(env: Env, source: Bytes, sent: nat, fed: Bytes): Msg {
    if sent < |source| then Chunk(sent, source[sent..Min(sent + env.chunk, |source|)])
    else Checksum(sent, env.hash(fed))
  }

  // The chunks in `q` tile `source` from `pos` on, each at most one chunk
  // long; after the last byte the checksum may follow.
  ghost predicate Tiles(env: Env, q: seq<Msg>, pos: nat, source: Bytes) {
    || q == []
    || (q == [Checksum(pos, env.hash(source))] && pos == |source|)
    || (&& q[0].Chunk? && q[0].offset == pos && ChunkOk(env, q[0].data)
        && pos + |q[0].data| <= |source|
        && q[0].data == source[pos..pos + |q[0].data|]
        && Tiles(env, q[1..], pos + |q[0].data|, source))
  }

  // Where the client stands after `q` was sent from `pos`.
  ghost function EndOf(q: seq<Msg>, pos: nat): nat {
    if q == [] then pos
    else EndOf(q[1..], if q[0].Chunk? then pos + |q[0].data| else pos)
  }

  ghost predicate Stray(q: seq<Msg>) {
    forall m :: m in q ==> m.Chunk? || m.Checksum?
  }

  lemma {:induction false} TilesAreStray(env: Env, q: seq<Msg>, pos: nat, source: Bytes)
    requires Tiles(env, q, pos, source)
    ensures Stray(q)
  {
    if q != [] && q != [Checksum(pos, env.hash(source))] {
      TilesAreStray(env, q[1..], pos + |q[0].data|, source);
      assert q == [q[0]] + q[1..];
    }
  }

  lemma {:induction false} EndBound(env: Env, q: seq<Msg>, pos: nat, source: Bytes)
    requires Tiles(env, q, pos, source) && pos <= |source|
    ensures pos <= EndOf(q, pos) <= |source|
    ensures q != [] && q[|q| - 1].Checksum? ==> EndOf(q, pos) == |source|
  {
    if q != [] && q != [Checksum(pos, env.hash(source))] {
      EndBound(env, q[1..], pos + |q[0].data|, source);
    }
  }

  // The client's next frame extends the tiling.
  lemma {:induction false} TilesExtend(env: Env, q: seq<Msg>, pos: nat, source: Bytes, sent: nat)
    requires env.chunk > 0 && pos <= |source|
    requires Tiles(env, q, pos, source) && (forall m :: m in q ==> m.Chunk?)
    requires EndOf(q, pos) == sent
    ensures sent <= |source|
    ensures
      var m := NextFrame(env, source, sent, source[..sent]);
      && Tiles(env, q + [m], pos, source)
      && (m.Chunk? ==> EndOf(q + [m], pos) == sent + |m.data|)
      && (m.Chunk? <==> sent < |source|)
    decreases |q|
  {
    EndBound(env, q, pos, source);
    var m := NextFrame(env, source, sent, source[..sent]);
    if q == [] {
      assert q + [m] == [m] && [m][1..] == [];
      assert source[..|source|] == source;
    } else {
      var rest := q[1..];
      assert (q + [m])[1..] == rest + [m];
      TilesExtend(env, rest, pos + |q[0].data|, source, sent);
    }
  }

  lemma {:induction false} TilesPrefix(env: Env, q: seq<Msg>, pos: nat, source: Bytes, n: nat)
    requires Tiles(env, q, pos, source) && n <= |q|
    ensures Tiles(env, q[..n], pos, source)
  {
    if n > 0 && q != [Checksum(pos, env.hash(source))] {
      TilesPrefix(env, q[1..], pos + |q[0].data|, source, n - 1);
      assert q[..n][1..] == q[1..][..n - 1];
    } else if n > 0 {
      assert q[..n] == q;
    }
  }

  // Appending the next chunk, or the checksum, to frames that tile what has
  // been read so far.
  lemma {:induction false} TilesGrow(env: Env, q: seq<Msg>, pos: nat, read: Bytes, data: Bytes)
    requires Tiles(env, q, pos, read) && (forall m :: m in q ==> m.Chunk?)
    requires pos <= |read| && EndOf(q, pos) == |read| && ChunkOk(env, data)
    ensures Tiles(env, q + [Chunk(|read|, data)], pos, read + data)
    ensures EndOf(q + [Chunk(|read|, data)], pos) == |read| + |data|
    decreases |q|
  {
    var m := Chunk(|read|, data);
    if q == [] {
      assert (read + data)[|read|..|read| + |data|] == data;
      assert (q + [m])[1..] == [];
    } else {
      assert (q + [m])[1..] == q[1..] + [m];
      assert (read + data)[pos..pos + |q[0].data|] == read[pos..pos + |q[0].data|];
      TilesGrow(env, q[1..], pos + |q[0].data|, read, data);
    }
  }

  lemma {:induction false} TilesClose(env: Env, q: seq<Msg>, pos: nat, read: Bytes)
    requires Tiles(env, q, pos, read) && (forall m :: m in q ==> m.Chunk?)
    requires pos <= |read| && EndOf(q, pos) == |read|
    ensures Tiles(env, q + [Checksum(|read|, env.hash(read))], pos, read)
    decreases |q|
  {
    var m := Checksum(|read|, env.hash(read));
    if q == [] {
      assert q + [m] == [m];
    } else {
      assert (q + [m])[1..] == q[1..] + [m];
      TilesClose(env, q[1..], pos + |q[0].data|, read);
    }
  }
}
