// Length-prefixed frames over a byte stream that delivers and accepts data in
// pieces of any size.

module Framing {
  import opened Protocol
  import opened Packing

  // A frame with its opcode as it stands on the wire, defined or not.
  datatype RawFrame = RawFrame(op: nat, userId: nat, payload: Bytes)

  datatype Frame = Frame(op: Opcode, userId: nat, payload: Bytes)

  predicate Fits(f: RawFrame, max: nat) {
    f.op < 0x1_0000 && f.userId < 0x1_0000 && |f.payload| <= max
  }

  // LENGTH is 32 bits wide.
  predicate Bound(max: nat) {
    max + BODY_HEADER_BYTES < 0x1_0000_0000
  }

  function Encode(f: RawFrame, max: nat): Bytes
    requires Fits(f, max) && Bound(max)
  {
    Widths();
    Pack(BODY_HEADER_BYTES + |f.payload|, 4) + (Pack(f.op, 2) + (Pack(f.userId, 2) + f.payload))
  }

  function SerializeFrame(f: Frame, max: nat): Result<Bytes>
    requires f.userId <= MAX_USER_ID && Bound(max)
  {
    if |f.payload| > max then Bad(PAYLOAD_TOO_LARGE)
    else Ok(Encode(RawFrame(OpcodeValue(f.op), f.userId, f.payload), max))
  }

  // What receive_frame makes of a stream that ends after `s`, and how many
  // bytes of it are left. None is the end of the stream.
  datatype Parsed = Parsed(result: Result<Option<Frame>>, rest: Bytes)

  function ParseFrame(s: Bytes, max: nat): Parsed {
    if s == [] then Parsed(Ok(None), [])
    else if |s| < 4 then Parsed(Bad(INVALID_FRAME), [])
    else
      var length := Unpack(s[..4]);
      if length < BODY_HEADER_BYTES then Parsed(Bad(INVALID_FRAME), s[4..])
      else if length - BODY_HEADER_BYTES > max then Parsed(Bad(PAYLOAD_TOO_LARGE), s[4..])
      else if |s| < 4 + length then Parsed(Bad(INVALID_FRAME), [])
      else
        var raw := RawFrame(Unpack(s[4..6]), Unpack(s[6..8]), s[8..4 + length]);
        Parsed(Interpret(raw), s[4 + length..])
  }

  function Interpret(raw: RawFrame): Result<Option<Frame>> {
    var op := OpcodeOf(raw.op);
    if op.None? then Err(Failure(UNSUPPORTED_OPCODE, Some(raw.op), true))
    else Ok(Some(Frame(op.value, raw.userId, raw.payload)))
  }

  // ----- where the fields stand -----

  function RawOf(f: Frame): RawFrame { RawFrame(OpcodeValue(f.op), f.userId, f.payload) }

  // `s` begins with frame `f`: LENGTH, OPCODE, USER_ID, payload.
  ghost predicate Begins(s: Bytes, f: RawFrame) {
    var n := |f.payload|;
    && |s| >= 8 + n && Unpack(s[..4]) == 4 + n
    && Unpack(s[4..6]) == f.op && Unpack(s[6..8]) == f.userId && s[8..8 + n] == f.payload
  }

  lemma Slices(a: Bytes, b: Bytes, c: Bytes, d: Bytes, rest: Bytes)
    requires |a| == 4 && |b| == 2 && |c| == 2
    ensures
      var s := (a + (b + (c + d))) + rest;
      && s[..4] == a && s[4..6] == b && s[6..8] == c
      && s[8..8 + |d|] == d && s[8 + |d|..] == rest
  {
  }

  lemma EncodedFields(f: RawFrame, max: nat)
    requires Fits(f, max) && Bound(max)
    ensures |Encode(f, max)| == 8 + |f.payload| && Begins(Encode(f, max), f)
  {
    Widths();
    var n := BODY_HEADER_BYTES + |f.payload|;
    Slices(Pack(n, 4), Pack(f.op, 2), Pack(f.userId, 2), f.payload, []);
    assert Encode(f, max) + [] == Encode(f, max);
    UnpackPack(n, 4);
    UnpackPack(f.op, 2);
    UnpackPack(f.userId, 2);
  }

  lemma FieldsEncoded(s: Bytes, f: RawFrame, max: nat)
    requires Fits(f, max) && Bound(max) && Begins(s, f)
    ensures s[..8 + |f.payload|] == Encode(f, max)
  {
    Widths();
    PackUnpack(s[..4]);
    PackUnpack(s[4..6]);
    PackUnpack(s[6..8]);
    assert s[..8 + |f.payload|] == s[..4] + (s[4..6] + (s[6..8] + s[8..8 + |f.payload|]));
  }

  // The first bytes of a stream are taken for a frame exactly when they are one, with
  // a payload within the limit and an opcode that is defined; its bytes are used up.
  lemma Accepted(s: Bytes, max: nat, f: Frame, rest: Bytes)
    ensures
      ParseFrame(s, max) == Parsed(Ok(Some(f)), rest) <==>
        Begins(s, RawOf(f)) && |f.payload| <= max && rest == s[8 + |f.payload|..]
    ensures
      ParseFrame(s, max) == Parsed(Ok(Some(f)), rest) && Bound(max) ==>
        Fits(RawOf(f), max) && s == Encode(RawOf(f), max) + rest
  {
    Widths();
    if Begins(s, RawOf(f)) && |f.payload| <= max && Bound(max) {
      assert |s[4..6]| == 2 && |s[6..8]| == 2;
      FieldsEncoded(s, RawOf(f), max);
      assert s == s[..8 + |f.payload|] + s[8 + |f.payload|..];
    }
  }

  // A LENGTH that is too small or announces too much is refused on the spot: its four
  // bytes are used and nothing after them is waited for.
  lemma Refused(s: Bytes, max: nat)
    requires |s| >= 4
    ensures Unpack(s[..4]) < 4 ==> ParseFrame(s, max) == Parsed(Bad(INVALID_FRAME), s[4..])
    ensures Unpack(s[..4]) > 4 + max ==> ParseFrame(s, max) == Parsed(Bad(PAYLOAD_TOO_LARGE), s[4..])
    ensures ParseFrame(s, max).result == Bad(PAYLOAD_TOO_LARGE) ==> Unpack(s[..4]) > 4 + max
  {
  }

  // A frame whose opcode is not defined is used up whole, and the stream goes on.
  lemma UnknownOpcode(s: Bytes, max: nat, f: RawFrame)
    requires Begins(s, f) && |f.payload| <= max && forall op: Opcode :: OpcodeValue(op) != f.op
    ensures
      ParseFrame(s, max) ==
        Parsed(Err(Failure(UNSUPPORTED_OPCODE, Some(f.op), true)), s[8 + |f.payload|..])
  {
  }

  // ----- preface -----

  function EncodePreface(): Bytes {
    Widths();
    Pack(MAGIC, 4) + Pack(VERSION, 2) + Pack(0, 2)
  }

  // decode_preface and validate_preface
  function CheckPreface(b: Bytes): Result<bool> {
    if |b| != 8 then Bad(INVALID_FRAME)
    else if Unpack(b[..4]) != MAGIC || Unpack(b[4..6]) != VERSION || Unpack(b[6..]) != 0 then Bad(INVALID_FRAME)
    else Ok(true)
  }

  lemma PrefaceValue()
    ensures EncodePreface() == [0x48, 0x43, 0x4D, 0x55, 0x00, 0x02, 0x00, 0x00]
  {
    var m: Bytes, v: Bytes, z: Bytes := [0x48, 0x43, 0x4D, 0x55], [0x00, 0x02], [0x00, 0x00];
    Widths();
    Four(m);
    PackUnpack(m);
    Two(v);
    PackUnpack(v);
    Two(z);
    PackUnpack(z);
    assert Pack(MAGIC, 4) == m && Pack(VERSION, 2) == v && Pack(0, 2) == z;
  }

  // Exactly one preface is accepted, and these are its bytes: "HCMU", version 2.
  lemma OnePreface(b: Bytes)
    ensures CheckPreface(b).Ok? <==> b == EncodePreface()
    ensures CheckPreface(b).Err? ==> CheckPreface(b) == Bad(INVALID_FRAME)
    ensures EncodePreface() == [0x48, 0x43, 0x4D, 0x55, 0x00, 0x02, 0x00, 0x00]
  {
    Widths();
    UnpackPack(MAGIC, 4);
    UnpackPack(VERSION, 2);
    UnpackPack(0, 2);
    var e := EncodePreface();
    PrefaceValue();
    assert e[..4] == Pack(MAGIC, 4) && e[4..6] == Pack(VERSION, 2) && e[6..] == Pack(0, 2);
    if CheckPreface(b).Ok? {
      PackUnpack(b[..4]);
      PackUnpack(b[4..6]);
      PackUnpack(b[6..]);
      assert b == b[..4] + b[4..6] + b[6..];
    }
  }

  // ----- sockets -----

  // `incoming` is what the peer will have sent before it closes, `outgoing`
  // what has been written.
  class Socket {
    var incoming: Bytes
    var outgoing: Bytes

    constructor (incoming: Bytes)
      ensures this.incoming == incoming && outgoing == []
    {
      this.incoming := incoming;
      outgoing := [];
    }

    // Accepts some prefix of the data; 0 when the peer has closed.
    method Send(data: Bytes) returns (n: nat)
      requires data != []
      modifies `outgoing
      ensures n <= |data| && outgoing == old(outgoing) + data[..n]
    {
      var k: int := *;
      n := if 0 <= k <= |data| then k else |data|;
      outgoing := outgoing + data[..n];
    }

    // Delivers between 1 and `size` bytes, or none at the end of the stream.
    method Recv(size: nat) returns (chunk: Bytes)
      requires size > 0
      modifies `incoming
      ensures chunk + incoming == old(incoming) && |chunk| <= size
      ensures chunk == [] <==> old(incoming) == []
    {
      var k: int := *;
      var n := if 0 < k <= Min(size, |incoming|) then k else Min(size, |incoming|);
      chunk := incoming[..n];
      incoming := incoming[n..];
    }
  }

  // send_all; false when the peer closes.
  method SendAll(sock: Socket, data: Bytes) returns (ok: bool)
    modifies sock`outgoing
    ensures ok ==> sock.outgoing == old(sock.outgoing) + data
    ensures !ok ==> exists k :: 0 <= k < |data| && sock.outgoing == old(sock.outgoing) + data[..k]
  {
    var sent := 0;
    while sent < |data|
      invariant 0 <= sent <= |data|
      invariant sock.outgoing == old(sock.outgoing) + data[..sent]
    {
      var n := sock.Send(data[sent..]);
      assert data[..sent] + data[sent..][..n] == data[..sent + n];
      if n == 0 { return false; }
      sent := sent + n;
    }
    assert data[..|data|] == data;
    ok := true;
  }

  // recv_exact: None when the stream ends before the first byte.
  method RecvExact(sock: Socket, size: nat) returns (r: Result<Option<Bytes>>)
    modifies sock`incoming
    ensures
      var s := old(sock.incoming);
      if size <= |s| then r == Ok(Some(s[..size])) && sock.incoming == s[size..]
      else r == (if s == [] then Ok(None) else Bad(INVALID_FRAME)) && sock.incoming == []
  {
    if size == 0 { return Ok(Some([])); }
    var received: Bytes := [];
    while |received| < size
      invariant |received| <= size && received + sock.incoming == old(sock.incoming)
    {
      var chunk := sock.Recv(size - |received|);
      if chunk == [] {
        return if received == [] then Ok(None) else Bad(INVALID_FRAME);
      }
      received := received + chunk;
    }
    assert old(sock.incoming)[..size] == received;
    r := Ok(Some(received));
  }

  // The pieces recv_exact took are those of the parsed frame.
  lemma ReceivedSlices(s: Bytes, size: nat)
    requires |s| >= 8 + size
    ensures s[4..][..4][..2] == s[4..6] && s[4..][..4][2..] == s[6..8]
    ensures s[4..][4..][..size] == s[8..8 + size] && s[4..][4..][size..] == s[8 + size..]
  {
  }

  // receive_frame, however the stream is cut into pieces.
  method ReceiveFrame(sock: Socket, max: nat) returns (r: Result<Option<Frame>>)
    modifies sock`incoming
    ensures Parsed(r, sock.incoming) == ParseFrame(old(sock.incoming), max)
    ensures
      var s := old(sock.incoming);
      && (s == [] ==> r == Ok(None))
      && (|s| >= 4 && Unpack(s[..4]) < 4 ==> r == Bad(INVALID_FRAME) && sock.incoming == s[4..])
      && (|s| >= 4 && Unpack(s[..4]) > 4 + max ==> r == Bad(PAYLOAD_TOO_LARGE) && sock.incoming == s[4..])
      && (r.Ok? && r.value.Some? ==>
            var f := r.value.value;
            |f.payload| <= max && Begins(s, RawOf(f)) && sock.incoming == s[8 + |f.payload|..])
  {
    ghost var s := sock.incoming;
    if |s| >= 4 { Refused(s, max); }
    var head := RecvExact(sock, 4);
    if head.Err? { return Err(head.error); }
    if head.value.None? { return Ok(None); }
    var length := Unpack(head.value.value);
    if length < BODY_HEADER_BYTES { return Bad(INVALID_FRAME); }
    var size := length - BODY_HEADER_BYTES;
    if size > max { return Bad(PAYLOAD_TOO_LARGE); }
    var body := RecvExact(sock, BODY_HEADER_BYTES);
    if body.Err? { return Err(body.error); }
    if body.value.None? { return Bad(INVALID_FRAME); }
    var payload := RecvExact(sock, size);
    if payload.Err? { return Err(payload.error); }
    if payload.value.None? { return Bad(INVALID_FRAME); }
    var header := body.value.value;
    ReceivedSlices(s, size);
    r := Interpret(RawFrame(Unpack(header[..2]), Unpack(header[2..]), payload.value.value));
    if r.Ok? { Accepted(s, max, r.value.value, sock.incoming); }
  }

  // send_frame
  method SendFrame(sock: Socket, f: Frame, max: nat) returns (r: Result<bool>)
    requires f.userId <= MAX_USER_ID && Bound(max)
    modifies sock`outgoing
    ensures r == Ok(true) ==>
      SerializeFrame(f, max).Ok? && sock.outgoing == old(sock.outgoing) + SerializeFrame(f, max).value
    ensures |f.payload| > max ==> r == Bad(PAYLOAD_TOO_LARGE) && sock.outgoing == old(sock.outgoing)
    ensures |f.payload| <= max ==>
      && r.Ok?
      && exists b: Bytes, k: nat :: k <= |b| == 8 + |f.payload| && Begins(b, RawOf(f))
           && sock.outgoing == old(sock.outgoing) + b[..k] && (r.value <==> k == |b|)
  {
    var b := SerializeFrame(f, max);
    if b.Err? { return Err(b.error); }
    EncodedFields(RawOf(f), max);
    var ok := SendAll(sock, b.value);
    r := Ok(ok);
    assert ok ==> b.value[..|b.value|] == b.value;
  }

  // ----- whole streams -----

  // A receiver reads on after a whole frame and after one whose opcode it does
  // not know; anything else ends the stream for it.
  datatype Item = Known(frame: Frame) | Unknown(op: nat)

  datatype Ending = Clean | Broken(code: ErrorCode)

  datatype Stream = Stream(items: seq<Item>, ending: Ending)

  function ItemOf(raw: RawFrame): Item {
    var op := OpcodeOf(raw.op);
    if op.Some? then Known(Frame(op.value, raw.userId, raw.payload)) else Unknown(raw.op)
  }

  function Items(raws: seq<RawFrame>): seq<Item> {
    if raws == [] then [] else [ItemOf(raws[0])] + Items(raws[1..])
  }

  lemma {:induction false} ParseShrinks(s: Bytes, max: nat)
    requires s != []
    ensures |ParseFrame(s, max).rest| < |s|
  {
  }

  function ReadAll(s: Bytes, max: nat): Stream
    decreases |s|
  {
    var p := ParseFrame(s, max);
    if p.result == Ok(None) then Stream([], Clean)
    else if p.result.Err? && !p.result.error.synchronized then Stream([], Broken(p.result.error.code))
    else
      ParseShrinks(s, max);
      var tail := ReadAll(p.rest, max);
      var item := if p.result.Ok? then Known(p.result.value.value)
                  else Unknown(p.result.error.rawOpcode.value);
      Stream([item] + tail.items, tail.ending)
  }

  predicate AllFit(raws: seq<RawFrame>, max: nat) {
    Bound(max) && forall raw :: raw in raws ==> Fits(raw, max)
  }

  function EncodeAll(raws: seq<RawFrame>, max: nat): Bytes
    requires AllFit(raws, max)
  {
    if raws == [] then [] else Encode(raws[0], max) + EncodeAll(raws[1..], max)
  }

  lemma ParseParts(s: Bytes, raw: RawFrame, rest: Bytes, max: nat)
    requires Fits(raw, max) && |s| == 8 + |raw.payload| + |rest|
    requires Unpack(s[..4]) == BODY_HEADER_BYTES + |raw.payload|
    requires Unpack(s[4..6]) == raw.op && Unpack(s[6..8]) == raw.userId
    requires s[8..8 + |raw.payload|] == raw.payload && s[8 + |raw.payload|..] == rest
    ensures ParseFrame(s, max) == Parsed(Interpret(raw), rest)
  {
  }

  // A frame followed by anything is read back, and exactly its bytes are used.
  lemma ParseEncoded(raw: RawFrame, rest: Bytes, max: nat)
    requires Fits(raw, max) && Bound(max)
    ensures ParseFrame(Encode(raw, max) + rest, max) == Parsed(Interpret(raw), rest)
  {
    Widths();
    var length := BODY_HEADER_BYTES + |raw.payload|;
    var a, b, c := Pack(length, 4), Pack(raw.op, 2), Pack(raw.userId, 2);
    Slices(a, b, c, raw.payload, rest);
    UnpackPack(length, 4);
    UnpackPack(raw.op, 2);
    UnpackPack(raw.userId, 2);
    ParseParts(a + (b + (c + raw.payload)) + rest, raw, rest, max);
  }

  // A frame cut before its last byte is the end of the stream if nothing of it
  // arrived, and INVALID_FRAME otherwise.
  lemma ParseCut(raw: RawFrame, k: nat, max: nat)
    requires Fits(raw, max) && Bound(max) && k < |Encode(raw, max)|
    ensures
      var p := ParseFrame(Encode(raw, max)[..k], max);
      p.rest == [] && p.result == if k == 0 then Ok(None) else Bad(INVALID_FRAME)
  {
    Widths();
    var length := BODY_HEADER_BYTES + |raw.payload|;
    var s := Encode(raw, max)[..k];
    if 4 <= k {
      assert s[..4] == Pack(length, 4);
      UnpackPack(length, 4);
    }
  }

  // How many whole frames the first k bytes hold.
  function WholeFrames(raws: seq<RawFrame>, k: nat, max: nat): (n: nat)
    requires AllFit(raws, max)
    ensures n <= |raws|
  {
    if raws == [] || k < |Encode(raws[0], max)| then 0
    else 1 + WholeFrames(raws[1..], k - |Encode(raws[0], max)|, max)
  }

  lemma ReadFirst(raw: RawFrame, rest: Bytes, max: nat)
    requires Fits(raw, max) && Bound(max)
    ensures
      var tail := ReadAll(rest, max);
      ReadAll(Encode(raw, max) + rest, max) == Stream([ItemOf(raw)] + tail.items, tail.ending)
  {
    ParseEncoded(raw, rest, max);
  }

  lemma CutInside(first: RawFrame, rest: Bytes, k: nat, cut: Bytes, max: nat)
    requires Fits(first, max) && Bound(max) && k < |Encode(first, max)| && cut == (Encode(first, max) + rest)[..k]
    ensures ReadAll(cut, max) == Stream([], if k == 0 then Clean else Broken(INVALID_FRAME))
  {
    assert cut == Encode(first, max)[..k];
    ParseCut(first, k, max);
  }

  lemma CutAfter(first: RawFrame, rest: Bytes, k: nat, cut: Bytes, tail: Stream, max: nat)
    requires Fits(first, max) && Bound(max) && |Encode(first, max)| <= k <= |Encode(first, max)| + |rest|
    requires cut == (Encode(first, max) + rest)[..k] && tail == ReadAll(rest[..k - |Encode(first, max)|], max)
    ensures ReadAll(cut, max) == Stream([ItemOf(first)] + tail.items, tail.ending)
  {
    var e := Encode(first, max);
    assert cut == e + rest[..k - |e|];
    ReadFirst(first, rest[..k - |e|], max);
  }

  // What the first k bytes of a run of frames should be read as: the frames they
  // hold in full, and a clean end exactly when the cut falls between frames.
  function Expected(raws: seq<RawFrame>, k: nat, max: nat): Stream
    requires AllFit(raws, max)
  {
    var n := WholeFrames(raws, k, max);
    Stream(Items(raws[..n]), if k == |EncodeAll(raws[..n], max)| then Clean else Broken(INVALID_FRAME))
  }

  lemma ExpectedInside(raws: seq<RawFrame>, k: nat, max: nat)
    requires AllFit(raws, max) && raws != [] && k < |Encode(raws[0], max)|
    ensures Expected(raws, k, max) == Stream([], if k == 0 then Clean else Broken(INVALID_FRAME))
  {
    assert raws[..0] == [];
  }

  lemma ExpectedAfter(raws: seq<RawFrame>, k: nat, max: nat)
    requires AllFit(raws, max) && raws != [] && k >= |Encode(raws[0], max)|
    ensures
      var tail := Expected(raws[1..], k - |Encode(raws[0], max)|, max);
      Expected(raws, k, max) == Stream([ItemOf(raws[0])] + tail.items, tail.ending)
  {
    var n := WholeFrames(raws[1..], k - |Encode(raws[0], max)|, max);
    assert raws[..1 + n][0] == raws[0] && raws[..1 + n][1..] == raws[1..][..n];
  }

  lemma {:induction false} ReadCutOf(raws: seq<RawFrame>, k: nat, cut: Bytes, max: nat)
    requires AllFit(raws, max) && k <= |EncodeAll(raws, max)| && cut == EncodeAll(raws, max)[..k]
    ensures ReadAll(cut, max) == Expected(raws, k, max)
  {
    if raws == [] {
      assert cut == [] && raws[..0] == [];
    } else {
      var size, rest := |Encode(raws[0], max)|, EncodeAll(raws[1..], max);
      if k < size {
        CutInside(raws[0], rest, k, cut, max);
        ExpectedInside(raws, k, max);
      } else {
        var left := rest[..k - size];
        ReadCutOf(raws[1..], k - size, left, max);
        CutAfter(raws[0], rest, k, cut, Expected(raws[1..], k - size, max), max);
        ExpectedAfter(raws, k, max);
      }
    }
  }

  // Framing inverts over any cut. Unknown opcodes use up their own frame only.
  lemma ReadCut(raws: seq<RawFrame>, k: nat, max: nat)
    requires AllFit(raws, max) && k <= |EncodeAll(raws, max)|
    ensures ReadAll(EncodeAll(raws, max)[..k], max) == Expected(raws, k, max)
  {
    ReadCutOf(raws, k, EncodeAll(raws, max)[..k], max);
  }

  // The whole stream is read back as it was sent.
  lemma ReadBack(raws: seq<RawFrame>, max: nat)
    requires AllFit(raws, max)
    ensures ReadAll(EncodeAll(raws, max), max) == Stream(Items(raws), Clean)
  {
    var s := EncodeAll(raws, max);
    AllWhole(raws, max);
    ReadCut(raws, |s|, max);
    assert s[..|s|] == s && raws[..|raws|] == raws;
  }

  lemma {:induction false} AllWhole(raws: seq<RawFrame>, max: nat)
    requires AllFit(raws, max)
    ensures WholeFrames(raws, |EncodeAll(raws, max)|, max) == |raws|
  {
    if raws != [] { AllWhole(raws[1..], max); }
  }

  lemma ReadOn(s: Bytes, items: seq<Item>, item: Item, max: nat)
    requires s != []
    requires
      var p := ParseFrame(s, max);
      if p.result.Ok? then item == Known(p.result.value.value)
      else p.result.error.synchronized && item == Unknown(p.result.error.rawOpcode.value)
    ensures
      var rest := ParseFrame(s, max).rest;
      && items + ReadAll(s, max).items == items + [item] + ReadAll(rest, max).items
      && ReadAll(s, max).ending == ReadAll(rest, max).ending
  {
    var tail := ReadAll(ParseFrame(s, max).rest, max);
    assert ReadAll(s, max) == Stream([item] + tail.items, tail.ending);
    assert items + ([item] + tail.items) == items + [item] + tail.items;
  }

  // The receiving loop of a peer, over whatever pieces the socket delivers.
  method ReceiveAll(sock: Socket, max: nat) returns (items: seq<Item>, ending: Ending)
    modifies sock`incoming
    ensures Stream(items, ending) == ReadAll(old(sock.incoming), max)
  {
    items := [];
    while true
      invariant ReadAll(old(sock.incoming), max) ==
        Stream(items + ReadAll(sock.incoming, max).items, ReadAll(sock.incoming, max).ending)
      decreases |sock.incoming|
    {
      ghost var s := sock.incoming;
      var r := ReceiveFrame(sock, max);
      if r == Ok(None) { return items, Clean; }
      if r.Err? && !r.error.synchronized { return items, Broken(r.error.code); }
      ParseShrinks(s, max);
      var item := if r.Ok? then Known(r.value.value) else Unknown(r.error.rawOpcode.value);
      ReadOn(s, items, item, max);
      items := items + [item];
    }
  }

  function Raws(frames: seq<Frame>): (raws: seq<RawFrame>)
    ensures |raws| == |frames| && forall i :: 0 <= i < |raws| ==> raws[i] == RawOf(frames[i])
  {
    seq(|frames|, i requires 0 <= i < |frames| => RawOf(frames[i]))
  }

  lemma RawsFit(frames: seq<Frame>, max: nat)
    requires Bound(max) && forall f :: f in frames ==> f.userId <= MAX_USER_ID && |f.payload| <= max
    ensures AllFit(Raws(frames), max)
  {
    forall raw | raw in Raws(frames) ensures Fits(raw, max) {
      var i :| 0 <= i < |frames| && raw == RawOf(frames[i]);
      assert frames[i] in frames;
    }
  }

  lemma FirstSent(before: Bytes, raws: seq<RawFrame>, max: nat)
    requires AllFit(raws, max) && raws != []
    ensures before + EncodeAll(raws, max) == before + Encode(raws[0], max) + EncodeAll(raws[1..], max)
  {
    var first, rest := Encode(raws[0], max), EncodeAll(raws[1..], max);
    assert before + (first + rest) == before + first + rest;
  }

  // The sending side of a peer.
  method SendEach(sock: Socket, frames: seq<Frame>, max: nat) returns (ok: bool)
    requires Bound(max) && forall f :: f in frames ==> f.userId <= MAX_USER_ID && |f.payload| <= max
    modifies sock`outgoing
    ensures AllFit(Raws(frames), max)
    ensures ok ==> sock.outgoing == old(sock.outgoing) + EncodeAll(Raws(frames), max)
  {
    RawsFit(frames, max);
    var i := 0;
    ghost var sentAll := Raws(frames);
    while i < |frames|
      invariant 0 <= i <= |frames|
      invariant sock.outgoing + EncodeAll(Raws(frames)[i..], max) == old(sock.outgoing) + EncodeAll(Raws(frames), max)
    {
      assert frames[i] in frames;
      ghost var before := sock.outgoing;
      var r := SendFrame(sock, frames[i], max);
      if r != Ok(true) { return false; }
      ghost var tail := Raws(frames)[i..];
      assert tail[0] == RawOf(frames[i]) && tail[1..] == Raws(frames)[i + 1..];
      FirstSent(before, tail, max);
      i := i + 1;
    }
    ok := true;
  }
}
