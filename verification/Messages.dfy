// The payload codecs: for every kind of message, what is written and what is
// accepted.

module Messages {
  import opened Protocol
  import opened Packing
  import opened Framing
  import opened Utf8
  import opened Fields

  datatype Message =
    | Login(username: Bytes)
    | Disconnect
    | ListFiles
    | Listing(entries: seq<Entry>)
    | Upload(filename: Bytes, total: nat, start: nat)
    | Download(filename: Bytes, offset: nat)
    | Info(filename: Bytes, total: nat, start: nat)
    | Chunk(offset: nat, data: Bytes)
    | Checksum(size: nat, digest: Bytes)
    | Ack(acknowledged: Opcode, next: nat)
    | Error(failed: nat, code: ErrorCode, text: Bytes)

  function Kind(m: Message): Opcode {
    match m
    case Login(_) => LOGIN
    case Disconnect => DISCONNECT
    case ListFiles => FILE_LIST
    case Listing(_) => FILE_LIST_RESP
    case Upload(_, _, _) => FILE_UPLOAD
    case Download(_, _) => FILE_DOWNLOAD
    case Info(_, _, _) => FILE_INFO
    case Chunk(_, _) => FILE_CHUNK
    case Checksum(_, _) => FILE_CHECKSUM
    case Ack(_, _) => ACK
    case Error(_, _, _) => ERROR
  }

  // ----- writing -----

  function MakeNamed(name: Bytes, suffix: Bytes): Result<Bytes> {
    if !ValidFilename(name) then Bad(INVALID_FILENAME) else Ok(PutFilename(name) + suffix)
  }

  function MakeTransfer(name: Bytes, total: nat, start: nat): Result<Bytes> {
    Widths();
    if total >= U64 || start >= U64 then Bad(INVALID_PAYLOAD)
    else MakeNamed(name, Pack(total, 8) + Pack(start, 8))
  }

  function MakeEntries(entries: seq<Entry>): Result<Bytes> {
    if entries == [] then Ok([])
    else if entries[0].size >= U64 then Bad(INVALID_PAYLOAD)
    else if !ValidFilename(entries[0].filename) then Bad(INVALID_FILENAME)
    else
      var more := MakeEntries(entries[1..]);
      if more.Err? then more else Ok(PutEntry(entries[0]) + more.value)
  }

  function MakeListing(entries: seq<Entry>): Result<Bytes> {
    Widths();
    if |entries| >= U32 then Bad(INVALID_PAYLOAD)
    else
      var parts := MakeEntries(entries);
      if parts.Err? then parts else Ok(Pack(|entries|, 4) + parts.value)
  }

  predicate ValidChunk(data: Bytes, chunk: nat) { 0 < |data| <= chunk }

  function MakePayload(m: Message, chunk: nat): Result<Bytes> {
    Widths();
    match m
    case Login(name) =>
      if !ValidUsername(name) then Bad(INVALID_USERNAME) else Ok(Pack(|name|, 2) + name)
    case Disconnect => Ok([])
    case ListFiles => Ok([])
    case Listing(entries) => MakeListing(entries)
    case Upload(name, total, start) => MakeTransfer(name, total, start)
    case Download(name, offset) =>
      if offset >= U64 then Bad(INVALID_PAYLOAD) else MakeNamed(name, Pack(offset, 8))
    case Info(name, total, start) => MakeTransfer(name, total, start)
    case Chunk(offset, data) =>
      if offset >= U64 || !ValidChunk(data, chunk) then Bad(INVALID_PAYLOAD) else Ok(Pack(offset, 8) + data)
    case Checksum(size, digest) =>
      if size >= U64 || |digest| != DIGEST_BYTES then Bad(INVALID_PAYLOAD) else Ok(Pack(size, 8) + digest)
    case Ack(op, next) =>
      if next >= U64 then Bad(INVALID_PAYLOAD) else Ok(Pack(OpcodeValue(op), 2) + Pack(next, 8))
    case Error(failed, code, text) =>
      if failed >= U16 || !ValidUtf8(text) || |text| >= U16 then Bad(INVALID_PAYLOAD)
      else Ok(Pack(failed, 2) + (Pack(ErrorValue(code), 2) + (Pack(|text|, 2) + text)))
  }

  // The frame-level make functions; only LOGIN looks at the USER_ID.
  function MakeFrame(m: Message, user: nat, max: nat, chunk: nat): Result<Frame> {
    if m.Login? && user != NO_USER_ID then Bad(INVALID_USER_ID)
    else
      var p := MakePayload(m, chunk);
      if p.Err? then Err(p.error)
      else if |p.value| > max then Bad(PAYLOAD_TOO_LARGE)
      else Ok(Frame(Kind(m), user, p.value))
  }

  // ----- reading -----

  function Finish<T>(r: Result<Read<T>>): (out: Result<T>)
    ensures out.Ok? <==> r.Ok? && r.value.rest == []
    ensures out.Ok? ==> out.value == r.value.value
  {
    if r.Err? then Err(r.error)
    else if r.value.rest != [] then Bad(INVALID_PAYLOAD)
    else Ok(r.value.value)
  }

  function TakeText(s: Bytes): Result<Read<Bytes>> {
    var n := TakeUint(s, 2);
    if n.Err? then Err(n.error) else Take(n.value.rest, n.value.value)
  }

  function ParseLogin(p: Bytes): Result<Message> {
    var name := Finish(TakeText(p));
    if name.Err? then Err(name.error)
    else if !ValidUsername(name.value) then Bad(INVALID_USERNAME)
    else Ok(Login(name.value))
  }

  function TakeListing(p: Bytes): Result<Read<seq<Entry>>> {
    var count := TakeUint(p, 4);
    if count.Err? then Err(count.error) else TakeEntries(count.value.rest, count.value.value)
  }

  function ParseListing(p: Bytes): Result<Message> {
    var r := Finish(TakeListing(p));
    if r.Err? then Err(r.error) else Ok(Listing(r.value))
  }

  datatype Transfer = Transfer(filename: Bytes, total: nat, start: nat)

  function TakeTransfer(p: Bytes): Result<Read<Transfer>> {
    var name := TakeFilename(p);
    if name.Err? then Err(name.error)
    else
      var total := TakeUint(name.value.rest, 8);
      if total.Err? then Err(total.error)
      else
        var start := TakeUint(total.value.rest, 8);
        if start.Err? then Err(start.error)
        else Ok(Read(Transfer(name.value.value, total.value.value, start.value.value), start.value.rest))
  }

  function ParseTransfer(p: Bytes): Result<Transfer> { Finish(TakeTransfer(p)) }

  function ParseUpload(p: Bytes): Result<Message> {
    var r := ParseTransfer(p);
    if r.Err? then Err(r.error) else Ok(Upload(r.value.filename, r.value.total, r.value.start))
  }

  function ParseInfo(p: Bytes): Result<Message> {
    var r := ParseTransfer(p);
    if r.Err? then Err(r.error) else Ok(Info(r.value.filename, r.value.total, r.value.start))
  }

  function ParseDownload(p: Bytes): Result<Message> {
    var r := Finish(TakeEntry(p));
    if r.Err? then Err(r.error) else Ok(Download(r.value.filename, r.value.size))
  }

  function ParseChunk(p: Bytes, chunk: nat): Result<Message> {
    var offset := TakeUint(p, 8);
    if offset.Err? then Err(offset.error)
    else if !ValidChunk(offset.value.rest, chunk) then Bad(INVALID_PAYLOAD)
    else Ok(Chunk(offset.value.value, offset.value.rest))
  }

  function ParseChecksum(p: Bytes): Result<Message> {
    if |p| != 8 + DIGEST_BYTES then Bad(INVALID_PAYLOAD) else Ok(Checksum(Unpack(p[..8]), p[8..]))
  }

  function ParseAck(p: Bytes): Result<Message> {
    if |p| != 10 then Bad(INVALID_PAYLOAD)
    else
      var op := OpcodeOf(Unpack(p[..2]));
      if op.None? then Bad(INVALID_PAYLOAD) else Ok(Ack(op.value, Unpack(p[2..])))
  }

  datatype Raw = Raw(failed: nat, code: nat, text: Bytes)

  function TakeRaw(p: Bytes): Result<Read<Raw>> {
    var failed := TakeUint(p, 2);
    if failed.Err? then Err(failed.error)
    else
      var code := TakeUint(failed.value.rest, 2);
      if code.Err? then Err(code.error)
      else
        var text := TakeText(code.value.rest);
        if text.Err? then Err(text.error)
        else Ok(Read(Raw(failed.value.value, code.value.value, text.value.value), text.value.rest))
  }

  function ParseError(p: Bytes): Result<Message> {
    var r := Finish(TakeRaw(p));
    if r.Err? then Err(r.error)
    else
      var code := ErrorOf(r.value.code);
      if code.None? || !ValidUtf8(r.value.text) then Bad(INVALID_PAYLOAD)
      else Ok(Error(r.value.failed, code.value, r.value.text))
  }

  function ParseEmpty(p: Bytes, m: Message): Result<Message> {
    if p != [] then Bad(INVALID_PAYLOAD) else Ok(m)
  }

  function ParsePayload(op: Opcode, p: Bytes, chunk: nat): Result<Message> {
    match op
    case LOGIN => ParseLogin(p)
    case DISCONNECT => ParseEmpty(p, Disconnect)
    case FILE_LIST => ParseEmpty(p, ListFiles)
    case FILE_LIST_RESP => ParseListing(p)
    case FILE_UPLOAD => ParseUpload(p)
    case FILE_DOWNLOAD => ParseDownload(p)
    case FILE_CHUNK => ParseChunk(p, chunk)
    case FILE_DELETE => Bad(UNSUPPORTED_OPCODE)
    case FILE_INFO => ParseInfo(p)
    case FILE_CHECKSUM => ParseChecksum(p)
    case ACK => ParseAck(p)
    case ERROR => ParseError(p)
  }

  // decode_message
  function DecodeMessage(f: Frame, max: nat, chunk: nat): Result<Message> {
    if f.op == FILE_DELETE then Bad(UNSUPPORTED_OPCODE)
    else if |f.payload| > max then Bad(PAYLOAD_TOO_LARGE)
    else if f.op == LOGIN && f.userId != NO_USER_ID then Bad(INVALID_USER_ID)
    else ParsePayload(f.op, f.payload, chunk)
  }

  // ----- each layout is read back, whatever follows it -----

  lemma TakePutText(text: Bytes, rest: Bytes)
    requires |text| < U16
    ensures Limit(2) == U16 && TakeText(Pack(|text|, 2) + text + rest) == Ok(Read(text, rest))
  {
    Widths();
    Assoc(Pack(|text|, 2), text, rest);
    TakePutUint(|text|, 2, text + rest);
    assert (text + rest)[..|text|] == text && (text + rest)[|text|..] == rest;
  }

  lemma {:induction false} PutTakeText(s: Bytes)
    requires TakeText(s).Ok?
    ensures
      var r := TakeText(s).value;
      |r.value| < U16 == Limit(2) && s == Pack(|r.value|, 2) + r.value + r.rest
  {
    Widths();
    PutTakeUint(s, 2);
    var n := TakeUint(s, 2).value;
    assert n.rest == n.rest[..n.value] + n.rest[n.value..];
    Assoc(Pack(n.value, 2), n.rest[..n.value], n.rest[n.value..]);
  }

  lemma TakePutTransfer(t: Transfer, rest: Bytes)
    requires MakeTransfer(t.filename, t.total, t.start).Ok?
    ensures TakeTransfer(MakeTransfer(t.filename, t.total, t.start).value + rest) == Ok(Read(t, rest))
  {
    Widths();
    var name, a, b := PutFilename(t.filename), Pack(t.total, 8), Pack(t.start, 8);
    assert name + (a + b) + rest == name + (a + (b + rest));
    TakePutFilename(t.filename, a + (b + rest));
    TakePutUint(t.total, 8, b + rest);
    TakePutUint(t.start, 8, rest);
  }

  lemma {:induction false} PutTakePair(s: Bytes)
    requires |s| >= 16
    ensures Limit(8) == U64
    ensures s == Pack(Unpack(s[..8]), 8) + Pack(Unpack(s[8..][..8]), 8) + s[16..]
  {
    Widths();
    PutTakeUint(s, 8);
    PutTakeUint(s[8..], 8);
    assert s[8..][8..] == s[16..];
    Assoc(Pack(Unpack(s[..8]), 8), Pack(Unpack(s[8..][..8]), 8), s[16..]);
  }

  lemma {:induction false} PutTakeTransfer(s: Bytes)
    requires TakeTransfer(s).Ok?
    ensures
      var r := TakeTransfer(s).value;
      var made := MakeTransfer(r.value.filename, r.value.total, r.value.start);
      made.Ok? && s == made.value + r.rest
  {
    PutTakeFilename(s);
    var name := TakeFilename(s).value;
    PutTakePair(name.rest);
    var r := TakeTransfer(s).value;
    assert name.rest[8..][8..] == name.rest[16..];
    Assoc(PutFilename(name.value), Pack(r.value.total, 8) + Pack(r.value.start, 8), r.rest);
  }

  lemma {:induction false} EntriesMade(entries: seq<Entry>)
    ensures MakeEntries(entries).Ok? <==> ValidEntries(entries)
    ensures ValidEntries(entries) ==> MakeEntries(entries).value == PutEntries(entries)
  {
    if entries != [] {
      assert entries == [entries[0]] + entries[1..];
      EntriesMade(entries[1..]);
    }
  }

  lemma TakePutListing(entries: seq<Entry>, rest: Bytes)
    requires MakeListing(entries).Ok?
    ensures TakeListing(MakeListing(entries).value + rest) == Ok(Read(entries, rest))
  {
    Widths();
    EntriesMade(entries);
    Assoc(Pack(|entries|, 4), PutEntries(entries), rest);
    TakePutUint(|entries|, 4, PutEntries(entries) + rest);
    TakePutEntries(entries, rest);
  }

  lemma {:induction false} PutTakeListing(s: Bytes)
    requires TakeListing(s).Ok?
    ensures
      var r := TakeListing(s).value;
      MakeListing(r.value).Ok? && s == MakeListing(r.value).value + r.rest
  {
    Widths();
    PutTakeUint(s, 4);
    var count := TakeUint(s, 4).value;
    PutTakeEntries(count.rest, count.value);
    var r := TakeListing(s).value;
    EntriesMade(r.value);
    Assoc(Pack(count.value, 4), PutEntries(r.value), r.rest);
  }

  function PutRaw(raw: Raw): Bytes
    requires raw.failed < U16 && raw.code < U16 && |raw.text| < U16
  {
    Widths();
    Pack(raw.failed, 2) + (Pack(raw.code, 2) + (Pack(|raw.text|, 2) + raw.text))
  }

  lemma TakePutRaw(raw: Raw, rest: Bytes)
    requires raw.failed < U16 && raw.code < U16 && |raw.text| < U16
    ensures TakeRaw(PutRaw(raw) + rest) == Ok(Read(raw, rest))
  {
    Widths();
    var a, b, c := Pack(raw.failed, 2), Pack(raw.code, 2), Pack(|raw.text|, 2) + raw.text;
    Assoc(a, b + c, rest);
    Assoc(b, c, rest);
    TakePutUint(raw.failed, 2, b + (c + rest));
    TakePutUint(raw.code, 2, c + rest);
    TakePutText(raw.text, rest);
  }

  lemma {:induction false} PutTakeRaw(s: Bytes)
    requires TakeRaw(s).Ok?
    ensures
      var r := TakeRaw(s).value;
      && r.value.failed < U16 && r.value.code < U16 && |r.value.text| < U16
      && s == PutRaw(r.value) + r.rest
  {
    Widths();
    PutTakeUint(s, 2);
    var failed := TakeUint(s, 2).value;
    PutTakeUint(failed.rest, 2);
    var code := TakeUint(failed.rest, 2).value;
    PutTakeText(code.rest);
    var text := TakeText(code.rest).value;
    var a, b, c := Pack(failed.value, 2), Pack(code.value, 2), Pack(|text.value|, 2) + text.value;
    Assoc(b, c, text.rest);
    Assoc(a, b + c, text.rest);
  }

  lemma NoRest(s: Bytes)
    ensures s + [] == s
  {
  }

  // ----- kind by kind: accepted payloads are those that are made -----

  lemma LoginPayloads(p: Bytes, m: Message, chunk: nat)
    ensures ParseLogin(p) == Ok(m) <==> m.Login? && MakePayload(m, chunk) == Ok(p)
  {
    Widths();
    if m.Login? && ValidUsername(m.username) {
      NoRest(Pack(|m.username|, 2) + m.username);
      TakePutText(m.username, []);
    }
    if ParseLogin(p).Ok? {
      PutTakeText(p);
      NoRest(p);
    }
  }

  lemma ListingPayloads(p: Bytes, m: Message, chunk: nat)
    ensures ParseListing(p) == Ok(m) <==> m.Listing? && MakePayload(m, chunk) == Ok(p)
  {
    if m.Listing? && MakeListing(m.entries).Ok? {
      NoRest(MakeListing(m.entries).value);
      TakePutListing(m.entries, []);
    }
    if ParseListing(p).Ok? { PutTakeListing(p); }
  }

  lemma TransferPayloads(p: Bytes, t: Transfer)
    ensures ParseTransfer(p) == Ok(t) <==> MakeTransfer(t.filename, t.total, t.start) == Ok(p)
  {
    var made := MakeTransfer(t.filename, t.total, t.start);
    if made.Ok? {
      NoRest(made.value);
      TakePutTransfer(t, []);
    }
    if ParseTransfer(p).Ok? { PutTakeTransfer(p); }
  }

  lemma UploadPayloads(p: Bytes, m: Message, chunk: nat)
    ensures ParseUpload(p) == Ok(m) <==> m.Upload? && MakePayload(m, chunk) == Ok(p)
    ensures ParseInfo(p) == Ok(m) <==> m.Info? && MakePayload(m, chunk) == Ok(p)
  {
    if m.Upload? || m.Info? { TransferPayloads(p, Transfer(m.filename, m.total, m.start)); }
  }

  lemma DownloadPayloads(p: Bytes, m: Message, chunk: nat)
    ensures ParseDownload(p) == Ok(m) <==> m.Download? && MakePayload(m, chunk) == Ok(p)
  {
    Widths();
    if m.Download? && MakePayload(m, chunk).Ok? {
      NoRest(MakePayload(m, chunk).value);
      TakePutEntry(Entry(m.filename, m.offset), []);
    }
    if ParseDownload(p).Ok? {
      PutTakeEntry(p);
      NoRest(p);
    }
  }

  lemma ChunkPayloads(p: Bytes, m: Message, chunk: nat)
    ensures ParseChunk(p, chunk) == Ok(m) <==> m.Chunk? && MakePayload(m, chunk) == Ok(p)
  {
    Widths();
    if m.Chunk? && m.offset < U64 { TakePutUint(m.offset, 8, m.data); }
    if ParseChunk(p, chunk).Ok? { PutTakeUint(p, 8); }
  }

  lemma ChecksumPayloads(p: Bytes, m: Message, chunk: nat)
    ensures ParseChecksum(p) == Ok(m) <==> m.Checksum? && MakePayload(m, chunk) == Ok(p)
  {
    Widths();
    if m.Checksum? && m.size < U64 { TakePutUint(m.size, 8, m.digest); }
    if ParseChecksum(p).Ok? { PutTakeUint(p, 8); }
  }

  lemma AckPayloads(p: Bytes, m: Message, chunk: nat)
    ensures ParseAck(p) == Ok(m) <==> m.Ack? && MakePayload(m, chunk) == Ok(p)
  {
    Widths();
    if m.Ack? && m.next < U64 {
      TakePutUint(OpcodeValue(m.acknowledged), 2, Pack(m.next, 8));
      UnpackPack(m.next, 8);
    }
    if ParseAck(p).Ok? {
      PutTakeUint(p, 2);
      PackUnpack(p[2..]);
    }
  }

  lemma ErrorPayloads(p: Bytes, m: Message, chunk: nat)
    ensures ParseError(p) == Ok(m) <==> m.Error? && MakePayload(m, chunk) == Ok(p)
  {
    if m.Error? && MakePayload(m, chunk).Ok? {
      var raw := Raw(m.failed, ErrorValue(m.code), m.text);
      NoRest(PutRaw(raw));
      TakePutRaw(raw, []);
    }
    if ParseError(p).Ok? {
      PutTakeRaw(p);
      NoRest(PutRaw(TakeRaw(p).value.value));
    }
  }

  // ----- the codec as a whole -----

  // parse inverts make and make inverts parse, for every opcode, payload and
  // message.
  lemma PayloadBijection(op: Opcode, p: Bytes, m: Message, chunk: nat)
    ensures ParsePayload(op, p, chunk) == Ok(m) <==> op == Kind(m) && MakePayload(m, chunk) == Ok(p)
  {
    match op
    case LOGIN => LoginPayloads(p, m, chunk);
    case FILE_LIST_RESP => ListingPayloads(p, m, chunk);
    case FILE_UPLOAD => UploadPayloads(p, m, chunk);
    case FILE_INFO => UploadPayloads(p, m, chunk);
    case FILE_DOWNLOAD => DownloadPayloads(p, m, chunk);
    case FILE_CHUNK => ChunkPayloads(p, m, chunk);
    case FILE_CHECKSUM => ChecksumPayloads(p, m, chunk);
    case ACK => AckPayloads(p, m, chunk);
    case ERROR => ErrorPayloads(p, m, chunk);
    case _ =>
  }

  lemma CodecBijection(f: Frame, m: Message, max: nat, chunk: nat)
    ensures DecodeMessage(f, max, chunk) == Ok(m) <==> MakeFrame(m, f.userId, max, chunk) == Ok(f)
  {
    PayloadBijection(f.op, f.payload, m, chunk);
  }

  // ----- no accepted payload is a prefix of another -----

  lemma LoginExtended(m: Message, chunk: nat, x: Bytes)
    requires m.Login? && MakePayload(m, chunk).Ok? && x != []
    ensures ParseLogin(MakePayload(m, chunk).value + x).Err?
  {
    Widths();
    TakePutText(m.username, x);
  }

  lemma ListingExtended(m: Message, chunk: nat, x: Bytes)
    requires m.Listing? && MakePayload(m, chunk).Ok? && x != []
    ensures ParseListing(MakePayload(m, chunk).value + x).Err?
  {
    TakePutListing(m.entries, x);
  }

  lemma TransferExtended(t: Transfer, x: Bytes)
    requires MakeTransfer(t.filename, t.total, t.start).Ok? && x != []
    ensures ParseTransfer(MakeTransfer(t.filename, t.total, t.start).value + x).Err?
  {
    TakePutTransfer(t, x);
  }

  lemma DownloadExtended(m: Message, chunk: nat, x: Bytes)
    requires m.Download? && MakePayload(m, chunk).Ok? && x != []
    ensures ParseDownload(MakePayload(m, chunk).value + x).Err?
  {
    TakePutEntry(Entry(m.filename, m.offset), x);
  }

  lemma ErrorExtended(m: Message, chunk: nat, x: Bytes)
    requires m.Error? && MakePayload(m, chunk).Ok? && x != []
    ensures ParseError(MakePayload(m, chunk).value + x).Err?
  {
    TakePutRaw(Raw(m.failed, ErrorValue(m.code), m.text), x);
  }

  // Every strict extension of an accepted payload is rejected; FILE_CHUNK, whose
  // data runs to the end, is the exception as long as a chunk is not exceeded.
  lemma Extension(op: Opcode, p: Bytes, x: Bytes, chunk: nat)
    requires ParsePayload(op, p, chunk).Ok? && x != []
    ensures ParsePayload(op, p + x, chunk).Ok? <==> op == FILE_CHUNK && |p + x| <= 8 + chunk
  {
    var m := ParsePayload(op, p, chunk).value;
    PayloadBijection(op, p, m, chunk);
    match op
    case LOGIN => LoginExtended(m, chunk, x);
    case FILE_LIST_RESP => ListingExtended(m, chunk, x);
    case FILE_UPLOAD => TransferExtended(Transfer(m.filename, m.total, m.start), x);
    case FILE_INFO => TransferExtended(Transfer(m.filename, m.total, m.start), x);
    case FILE_DOWNLOAD => DownloadExtended(m, chunk, x);
    case ERROR => ErrorExtended(m, chunk, x);
    case _ =>
  }

  lemma ChunkPrefix(p: Bytes, k: nat, chunk: nat)
    requires ParseChunk(p, chunk).Ok? && k < |p|
    ensures ParseChunk(p[..k], chunk).Ok? <==> k > 8
  {
  }

  // Likewise every strict prefix; a FILE_CHUNK keeps at least one data byte.
  lemma Prefix(op: Opcode, p: Bytes, k: nat, chunk: nat)
    requires ParsePayload(op, p, chunk).Ok? && k < |p|
    ensures ParsePayload(op, p[..k], chunk).Ok? <==> op == FILE_CHUNK && k > 8
  {
    if op == FILE_CHUNK {
      ChunkPrefix(p, k, chunk);
    } else if ParsePayload(op, p[..k], chunk).Ok? {
      assert p[..k] + p[k..] == p;
      Extension(op, p[..k], p[k..], chunk);
    }
  }

  // ----- the reading object and the two list loops -----

  class PayloadReader {
    const payload: Bytes
    var offset: nat

    predicate Valid() reads this { offset <= |payload| }

    // What has not been read.
    ghost function Rest(): Bytes
      reads this
      requires Valid()
    {
      payload[offset..]
    }

    constructor (payload: Bytes)
      ensures this.payload == payload && Valid() && Rest() == payload
    {
      this.payload := payload;
      offset := 0;
    }

    method Read(size: nat) returns (r: Result<Bytes>)
      requires Valid()
      modifies this
      ensures Valid()
      ensures r.Ok? ==> Take(old(Rest()), size) == Ok(Fields.Read(r.value, Rest()))
      ensures r.Err? ==> Take(old(Rest()), size) == Err(r.error) && Rest() == old(Rest())
    {
      var end := offset + size;
      if end > |payload| { return Bad(INVALID_PAYLOAD); }
      assert payload[offset..][..size] == payload[offset..end] && payload[offset..][size..] == payload[end..];
      r := Ok(payload[offset..end]);
      offset := end;
    }

    method Uint(width: nat) returns (r: Result<nat>)
      requires Valid()
      modifies this
      ensures Valid()
      ensures r.Ok? ==> TakeUint(old(Rest()), width) == Ok(Fields.Read(r.value, Rest()))
      ensures r.Err? ==> TakeUint(old(Rest()), width) == Err(r.error) && Rest() == old(Rest())
    {
      var b := Read(width);
      if b.Err? { return Err(b.error); }
      r := Ok(Unpack(b.value));
    }

    // _decode_filename
    method Filename() returns (r: Result<Bytes>)
      requires Valid()
      modifies this
      ensures Valid()
      ensures r.Ok? ==> TakeFilename(old(Rest())) == Ok(Fields.Read(r.value, Rest()))
      ensures r.Err? ==> TakeFilename(old(Rest())) == Err(r.error)
    {
      var size := Uint(2);
      if size.Err? { return Err(size.error); }
      var encoded := Read(size.value);
      if encoded.Err? { return Err(encoded.error); }
      if !ValidFilename(encoded.value) { return Bad(INVALID_FILENAME); }
      r := encoded;
    }
  }

  method ReadEntry(reader: PayloadReader) returns (r: Result<Entry>)
    requires reader.Valid()
    modifies reader
    ensures reader.Valid()
    ensures r.Ok? ==> TakeEntry(old(reader.Rest())) == Ok(Read(r.value, reader.Rest()))
    ensures r.Err? ==> TakeEntry(old(reader.Rest())) == Err(r.error)
  {
    var name := reader.Filename();
    if name.Err? { return Err(name.error); }
    var size := reader.Uint(8);
    if size.Err? { return Err(size.error); }
    r := Ok(Entry(name.value, size.value));
  }

  // `count` more entries after those already read.
  function Resumed(entries: seq<Entry>, s: Bytes, count: nat): Result<Read<seq<Entry>>> {
    var r := TakeEntries(s, count);
    if r.Err? then r else Ok(Read(entries + r.value.value, r.value.rest))
  }

  lemma NothingRead(s: Bytes, count: nat)
    ensures Resumed([], s, count - 0) == TakeEntries(s, count)
  {
    var r := TakeEntries(s, count);
    if r.Ok? { assert [] + r.value.value == r.value.value; }
  }

  lemma NothingLeft(entries: seq<Entry>, s: Bytes)
    ensures Resumed(entries, s, 0) == Ok(Read(entries, s))
  {
    assert entries + [] == entries;
  }

  lemma ResumedStep(entries: seq<Entry>, s: Bytes, count: nat)
    requires count > 0 && TakeEntry(s).Ok?
    ensures
      var first := TakeEntry(s).value;
      Resumed(entries, s, count) == Resumed(entries + [first.value], first.rest, count - 1)
  {
    var first := TakeEntry(s).value;
    var more := TakeEntries(first.rest, count - 1);
    if more.Ok? {
      assert entries + ([first.value] + more.value.value) == entries + [first.value] + more.value.value;
    }
  }

  // One round of the entry loop.
  method ReadNext(reader: PayloadReader, entries: seq<Entry>, ghost count: nat) returns (r: Result<seq<Entry>>)
    requires reader.Valid() && count > 0
    modifies reader
    ensures reader.Valid()
    ensures r.Ok? ==> Resumed(entries, old(reader.Rest()), count) == Resumed(r.value, reader.Rest(), count - 1)
    ensures r.Err? ==> Resumed(entries, old(reader.Rest()), count) == Err(r.error)
  {
    ghost var rest := reader.Rest();
    var entry := ReadEntry(reader);
    if entry.Err? { return Err(entry.error); }
    ResumedStep(entries, rest, count);
    r := Ok(entries + [entry.value]);
  }

  // The entry loop of parse_file_list_response.
  method ReadEntries(reader: PayloadReader, count: nat) returns (r: Result<seq<Entry>>)
    requires reader.Valid()
    modifies reader
    ensures reader.Valid()
    ensures r.Ok? ==> TakeEntries(old(reader.Rest()), count) == Ok(Read(r.value, reader.Rest()))
    ensures r.Err? ==> TakeEntries(old(reader.Rest()), count) == Err(r.error)
  {
    ghost var wanted := TakeEntries(reader.Rest(), count);
    NothingRead(reader.Rest(), count);
    r := Ok([]);
    var i := 0;
    while i < count
      invariant 0 <= i <= count && reader.Valid() && r.Ok?
      invariant wanted == Resumed(r.value, reader.Rest(), count - i)
    {
      r := ReadNext(reader, r.value, count - i);
      if r.Err? { return; }
      i := i + 1;
    }
    NothingLeft(r.value, reader.Rest());
  }

  method ParseFileListResponse(payload: Bytes) returns (r: Result<Message>)
    ensures r == ParseListing(payload)
  {
    var reader := new PayloadReader(payload);
    var count := reader.Uint(4);
    if count.Err? { return Err(count.error); }
    var entries := ReadEntries(reader, count.value);
    if entries.Err? { return Err(entries.error); }
    assert reader.Rest() == [] <==> reader.offset == |payload|;
    if reader.offset != |payload| { return Bad(INVALID_PAYLOAD); }
    r := Ok(Listing(entries.value));
  }

  // The parts of `entries` after those already made.
  function Following(parts: Bytes, entries: seq<Entry>): Result<Bytes> {
    var r := MakeEntries(entries);
    if r.Err? then r else Ok(parts + r.value)
  }

  lemma NothingMade(entries: seq<Entry>)
    ensures Following([], entries[0..]) == MakeEntries(entries)
  {
    assert entries[0..] == entries;
    var r := MakeEntries(entries);
    if r.Ok? { assert [] + r.value == r.value; }
  }

  lemma FollowingStep(parts: Bytes, entries: seq<Entry>)
    requires entries != [] && ValidFilename(entries[0].filename) && entries[0].size < U64
    ensures
      && Limit(8) == U64
      && Following(parts, entries) ==
        Following(parts + PutFilename(entries[0].filename) + Pack(entries[0].size, 8), entries[1..])
  {
    Widths();
    var a, b := PutFilename(entries[0].filename), Pack(entries[0].size, 8);
    var more := MakeEntries(entries[1..]);
    if more.Ok? {
      assert parts + (a + b + more.value) == parts + a + b + more.value;
    }
  }

  // make_file_list_response_frame, up to the frame around the payload
  method MakeFileListResponse(entries: seq<Entry>) returns (r: Result<Bytes>)
    ensures r == MakeListing(entries)
  {
    Widths();
    if |entries| >= U32 { return Bad(INVALID_PAYLOAD); }
    var parts: Bytes := [];
    NothingMade(entries);
    var i := 0;
    while i < |entries|
      invariant 0 <= i <= |entries|
      invariant MakeEntries(entries) == Following(parts, entries[i..])
    {
      assert entries[i..][0] == entries[i] && entries[i..][1..] == entries[i + 1..];
      if entries[i].size >= U64 { return Bad(INVALID_PAYLOAD); }
      if !ValidFilename(entries[i].filename) { return Bad(INVALID_FILENAME); }
      FollowingStep(parts, entries[i..]);
      parts := parts + PutFilename(entries[i].filename) + Pack(entries[i].size, 8);
      i := i + 1;
    }
    NoRest(parts);
    r := Ok(Pack(|entries|, 4) + parts);
  }
}
