// Where every field stands in a payload, and the frames the protocol document
// spells out byte by byte.

module Layouts {
  import opened Protocol
  import opened Packing
  import opened Framing
  import opened Utf8
  import opened Fields
  import opened Messages

  // A name behind its length, two bytes wide.
  ghost predicate TextAt(s: Bytes, text: Bytes) {
    |s| >= 2 + |text| && Unpack(s[..2]) == |text| && s[2..2 + |text|] == text
  }

  ghost predicate EntriesAt(s: Bytes, entries: seq<Entry>) {
    if entries == [] then s == []
    else
      var n := |entries[0].filename|;
      && TextAt(s, entries[0].filename) && |s| >= n + 10
      && Unpack(s[n + 2..n + 10]) == entries[0].size
      && EntriesAt(s[n + 10..], entries[1..])
  }

  ghost predicate TransferAt(p: Bytes, name: Bytes, total: nat, start: nat) {
    var n := |name|;
    && |p| == n + 18 && TextAt(p, name)
    && Unpack(p[n + 2..n + 10]) == total && Unpack(p[n + 10..]) == start
  }

  // Where message `m` has its fields in payload `p`.
  ghost predicate LaidOut(m: Message, p: Bytes) {
    match m
    case Login(name) => |p| == |name| + 2 && TextAt(p, name)
    case Disconnect => p == []
    case ListFiles => p == []
    case Listing(entries) => |p| >= 4 && Unpack(p[..4]) == |entries| && EntriesAt(p[4..], entries)
    case Upload(name, total, start) => TransferAt(p, name, total, start)
    case Download(name, offset) =>
      var n := |name|;
      |p| == n + 10 && TextAt(p, name) && Unpack(p[n + 2..]) == offset
    case Info(name, total, start) => TransferAt(p, name, total, start)
    case Chunk(offset, data) => |p| == 8 + |data| && Unpack(p[..8]) == offset && p[8..] == data
    case Checksum(size, digest) => |p| == 40 && Unpack(p[..8]) == size && p[8..] == digest
    case Ack(op, next) => |p| == 10 && Unpack(p[..2]) == OpcodeValue(op) && Unpack(p[2..]) == next
    case Error(failed, code, text) =>
      && |p| == 6 + |text| && Unpack(p[..2]) == failed && Unpack(p[2..4]) == ErrorValue(code)
      && TextAt(p[4..], text)
  }

  predicate Names(entries: seq<Entry>) { forall i :: 0 <= i < |entries| ==> ValidFilename(entries[i].filename) }

  // What is asked of the fields beyond their widths.
  ghost predicate Admissible(m: Message, chunk: nat) {
    match m
    case Login(name) => ValidUsername(name)
    case Listing(entries) => Names(entries)
    case Upload(name, _, _) => ValidFilename(name)
    case Download(name, _) => ValidFilename(name)
    case Info(name, _, _) => ValidFilename(name)
    case Chunk(_, data) => 1 <= |data| <= chunk
    case Error(_, _, text) => ValidUtf8(text)
    case _ => true
  }

  // ----- reading a name -----

  lemma Slice(s: Bytes, a: nat, n: nat)
    requires a + n <= |s|
    ensures s[a..][..n] == s[a..a + n] && s[a..][n..] == s[a + n..]
  {
  }

  lemma Front(a: Bytes, b: Bytes)
    ensures (a + b)[..|a|] == a && (a + b)[|a|..] == b
  {
  }

  lemma Whole(s: Bytes, a: nat, b: nat)
    requires a <= b == |s|
    ensures s[a..b] == s[a..]
  {
  }

  lemma TextFields(s: Bytes, text: Bytes, rest: Bytes)
    ensures TakeText(s) == Ok(Read(text, rest)) <==> TextAt(s, text) && rest == s[2 + |text|..]
  {
    if |s| >= 2 {
      if 2 + Unpack(s[..2]) <= |s| { Slice(s, 2, Unpack(s[..2])); }
      if 2 + |text| <= |s| { Slice(s, 2, |text|); }
    }
  }

  lemma NameFields(s: Bytes, name: Bytes, rest: Bytes)
    ensures
      TakeFilename(s) == Ok(Read(name, rest)) <==>
        TextAt(s, name) && ValidFilename(name) && rest == s[2 + |name|..]
  {
    TextFields(s, name, rest);
  }

  lemma EntryFields(s: Bytes, e: Entry, rest: Bytes)
    ensures
      var n := |e.filename|;
      TakeEntry(s) == Ok(Read(e, rest)) <==>
        && TextAt(s, e.filename) && ValidFilename(e.filename) && |s| >= n + 10
        && Unpack(s[n + 2..n + 10]) == e.size && rest == s[n + 10..]
  {
    var n := |e.filename|;
    if TakeFilename(s).Ok? {
      var r := TakeFilename(s).value;
      NameFields(s, r.value, r.rest);
    }
    if n + 10 <= |s| {
      NameFields(s, e.filename, s[n + 2..]);
      Slice(s, n + 2, 8);
    }
  }

  lemma EntryPut(s: Bytes, e: Entry, rest: Bytes)
    requires ValidFilename(e.filename) && e.size < U64
    ensures
      var n := |e.filename|;
      s == PutEntry(e) + rest <==>
        TextAt(s, e.filename) && |s| >= n + 10 && Unpack(s[n + 2..n + 10]) == e.size && rest == s[n + 10..]
  {
    EntryFields(s, e, rest);
    if s == PutEntry(e) + rest { TakePutEntry(e, rest); }
    if TakeEntry(s) == Ok(Read(e, rest)) { PutTakeEntry(s); }
  }

  lemma SizeWidth(s: Bytes)
    requires |s| == 8
    ensures Unpack(s) < U64
  {
    Widths();
  }

  lemma {:induction false} SizesFit(s: Bytes, entries: seq<Entry>)
    requires EntriesAt(s, entries) && Names(entries)
    ensures ValidEntries(entries)
  {
    if entries != [] {
      var n := |entries[0].filename|;
      assert entries == [entries[0]] + entries[1..];
      SizeWidth(s[n + 2..n + 10]);
      SizesFit(s[n + 10..], entries[1..]);
    }
  }

  // The first entry stands at the front of `s` and `rest` follows it.
  ghost predicate FirstAt(s: Bytes, e: Entry, rest: Bytes) {
    var n := |e.filename|;
    TextAt(s, e.filename) && |s| >= n + 10 && Unpack(s[n + 2..n + 10]) == e.size && rest == s[n + 10..]
  }

  lemma FirstPut(s: Bytes, entries: seq<Entry>, rest: Bytes)
    requires ValidEntries(entries) && entries != []
    ensures ValidEntries(entries[1..])
    ensures FirstAt(s, entries[0], PutEntries(entries[1..])) <==> s == PutEntries(entries)
    ensures FirstAt(s, entries[0], rest) && EntriesAt(rest, entries[1..]) ==> EntriesAt(s, entries)
    ensures EntriesAt(s, entries) && |s| >= |entries[0].filename| + 10 && rest == s[|entries[0].filename| + 10..] ==>
      FirstAt(s, entries[0], rest) && EntriesAt(rest, entries[1..])
  {
    assert ValidFilename(entries[0].filename) && entries[0].size < U64;
    EntryPut(s, entries[0], PutEntries(entries[1..]));
  }

  lemma {:induction false} EntriesFields(s: Bytes, entries: seq<Entry>)
    requires ValidEntries(entries)
    ensures s == PutEntries(entries) <==> EntriesAt(s, entries)
  {
    if entries != [] {
      var n := |entries[0].filename|;
      if n + 10 <= |s| {
        var rest := s[n + 10..];
        FirstPut(s, entries, rest);
        EntriesFields(rest, entries[1..]);
      } else {
        FirstPut(s, entries, []);
      }
    }
  }

  // ----- kind by kind -----

  lemma LoginFields(p: Bytes, name: Bytes)
    ensures ParseLogin(p) == Ok(Login(name)) <==> LaidOut(Login(name), p) && ValidUsername(name)
  {
    TextFields(p, name, []);
    if TakeText(p).Ok? { TextFields(p, TakeText(p).value.value, TakeText(p).value.rest); }
  }

  lemma CountAt(p: Bytes, count: nat, rest: Bytes)
    requires count < U32
    ensures Limit(4) == U32
    ensures p == Pack(count, 4) + rest <==> |p| >= 4 && Unpack(p[..4]) == count && rest == p[4..]
  {
    Widths();
    UnpackPack(count, 4);
    if p == Pack(count, 4) + rest { Front(Pack(count, 4), rest); }
    if |p| >= 4 {
      PackUnpack(p[..4]);
      assert p == p[..4] + p[4..];
    }
  }

  lemma ListingFields(p: Bytes, entries: seq<Entry>, chunk: nat)
    ensures
      ParseListing(p) == Ok(Listing(entries)) <==> LaidOut(Listing(entries), p) && Names(entries)
  {
    Widths();
    ListingPayloads(p, Listing(entries), chunk);
    EntriesMade(entries);
    if |p| >= 4 && EntriesAt(p[4..], entries) && Names(entries) { SizesFit(p[4..], entries); }
    if ValidEntries(entries) && |entries| < U32 {
      CountAt(p, |entries|, PutEntries(entries));
      if |p| >= 4 { EntriesFields(p[4..], entries); }
    }
  }

  lemma TransferFields(p: Bytes, t: Transfer)
    ensures
      ParseTransfer(p) == Ok(t) <==>
        TransferAt(p, t.filename, t.total, t.start) && ValidFilename(t.filename)
  {
    var n := |t.filename|;
    if TakeFilename(p).Ok? {
      var r := TakeFilename(p).value;
      NameFields(p, r.value, r.rest);
    }
    if n + 18 <= |p| {
      NameFields(p, t.filename, p[n + 2..]);
      Slice(p, n + 2, 8);
      Slice(p, n + 10, 8);
      if |p| == n + 18 { Whole(p, n + 10, n + 18); }
    }
  }

  lemma DownloadFields(p: Bytes, name: Bytes, offset: nat)
    ensures
      ParseDownload(p) == Ok(Download(name, offset)) <==> LaidOut(Download(name, offset), p) && ValidFilename(name)
  {
    EntryFields(p, Entry(name, offset), []);
    if |p| == |name| + 10 { Whole(p, |name| + 2, |name| + 10); }
  }

  lemma ErrorFields(p: Bytes, failed: nat, code: ErrorCode, text: Bytes)
    ensures
      ParseError(p) == Ok(Error(failed, code, text)) <==> LaidOut(Error(failed, code, text), p) && ValidUtf8(text)
  {
    if |p| >= 4 {
      Slice(p, 2, 2);
      TextFields(p[4..], text, []);
      if TakeText(p[4..]).Ok? {
        TextFields(p[4..], TakeText(p[4..]).value.value, TakeText(p[4..]).value.rest);
      }
    }
  }

  lemma PlainFields(p: Bytes, m: Message, chunk: nat)
    requires m.Disconnect? || m.ListFiles? || m.Chunk? || m.Checksum? || m.Ack?
    ensures ParsePayload(Messages.Kind(m), p, chunk) == Ok(m) <==> LaidOut(m, p) && Admissible(m, chunk)
  {
  }

  lemma KindLayout(p: Bytes, m: Message, chunk: nat)
    ensures ParsePayload(Messages.Kind(m), p, chunk) == Ok(m) <==> LaidOut(m, p) && Admissible(m, chunk)
  {
    match m
    case Login(name) => LoginFields(p, name);
    case Listing(entries) => ListingFields(p, entries, chunk);
    case Upload(name, total, start) => TransferFields(p, Transfer(name, total, start));
    case Download(name, offset) => DownloadFields(p, name, offset);
    case Info(name, total, start) => TransferFields(p, Transfer(name, total, start));
    case Error(failed, code, text) => ErrorFields(p, failed, code, text);
    case _ => PlainFields(p, m, chunk);
  }

  // A payload is accepted as a message if and only if every field of the message
  // stands in its place and is admissible.
  lemma Layout(op: Opcode, p: Bytes, m: Message, chunk: nat)
    ensures ParsePayload(op, p, chunk) == Ok(m) <==> op == Messages.Kind(m) && LaidOut(m, p) && Admissible(m, chunk)
  {
    PayloadBijection(op, p, m, chunk);
    if op == Messages.Kind(m) { KindLayout(p, m, chunk); }
  }

  // And these are the payloads that are written.
  lemma MadeLayout(p: Bytes, m: Message, chunk: nat)
    ensures MakePayload(m, chunk) == Ok(p) <==> LaidOut(m, p) && Admissible(m, chunk)
  {
    PayloadBijection(Messages.Kind(m), p, m, chunk);
    Layout(Messages.Kind(m), p, m, chunk);
  }

  // ----- what is refused, and with which code -----

  // The name a payload begins with is all there, but is not admissible.
  predicate BadName(p: Bytes) {
    |p| >= 2 && |p| >= 2 + Unpack(p[..2]) && !ValidFilename(p[2..2 + Unpack(p[..2])])
  }

  // A payload that is not accepted is INVALID_PAYLOAD, unless its form is in order as
  // far as the name and it is the name that is not.
  lemma Rejected(op: Opcode, p: Bytes, chunk: nat)
    requires ParsePayload(op, p, chunk).Err?
    ensures
      var code := ParsePayload(op, p, chunk).error.code;
      match op
      case FILE_DELETE => code == UNSUPPORTED_OPCODE
      case LOGIN => code == if |p| >= 2 && |p| == 2 + Unpack(p[..2]) then INVALID_USERNAME else INVALID_PAYLOAD
      case FILE_UPLOAD => code == if BadName(p) then INVALID_FILENAME else INVALID_PAYLOAD
      case FILE_DOWNLOAD => code == if BadName(p) then INVALID_FILENAME else INVALID_PAYLOAD
      case FILE_INFO => code == if BadName(p) then INVALID_FILENAME else INVALID_PAYLOAD
      case FILE_LIST_RESP => code == INVALID_PAYLOAD || code == INVALID_FILENAME
      case _ => code == INVALID_PAYLOAD
  {
    if |p| >= 2 && |p| >= 2 + Unpack(p[..2]) { Slice(p, 2, Unpack(p[..2])); }
    if op == FILE_LIST_RESP && TakeListing(p).Err? && |p| >= 4 { EntriesRejected(p[4..], Unpack(p[..4])); }
  }

  lemma {:induction false} EntriesRejected(s: Bytes, count: nat)
    requires TakeEntries(s, count).Err?
    ensures TakeEntries(s, count).error.code in {INVALID_PAYLOAD, INVALID_FILENAME}
  {
    if TakeEntry(s).Ok? { EntriesRejected(TakeEntry(s).value.rest, count - 1); }
  }

  // What cannot be written is refused with the code that reading it would be refused
  // with: a name that is not admissible by its kind, anything else as INVALID_PAYLOAD.
  lemma NotMade(m: Message, chunk: nat)
    requires MakePayload(m, chunk).Err?
    ensures
      var code := MakePayload(m, chunk).error.code;
      match m
      case Login(name) => code == INVALID_USERNAME && !ValidUsername(name)
      case Upload(name, total, start) =>
        if total < U64 && start < U64 then code == INVALID_FILENAME && !ValidFilename(name) else code == INVALID_PAYLOAD
      case Info(name, total, start) =>
        if total < U64 && start < U64 then code == INVALID_FILENAME && !ValidFilename(name) else code == INVALID_PAYLOAD
      case Download(name, offset) =>
        if offset < U64 then code == INVALID_FILENAME && !ValidFilename(name) else code == INVALID_PAYLOAD
      case Listing(_) => code == INVALID_PAYLOAD || code == INVALID_FILENAME
      case _ => code == INVALID_PAYLOAD
  {
    if m.Listing? { EntriesNotMade(m.entries); }
  }

  lemma {:induction false} EntriesNotMade(entries: seq<Entry>)
    ensures MakeEntries(entries).Err? ==> MakeEntries(entries).error.code in {INVALID_PAYLOAD, INVALID_FILENAME}
  {
    if entries != [] { EntriesNotMade(entries[1..]); }
  }

  // A frame is made and taken under the same three rules around its payload: LOGIN
  // goes under USER_ID 0, the payload is within the limit, FILE_DELETE is not spoken.
  lemma FrameRules(f: Frame, m: Message, max: nat, chunk: nat)
    ensures
      m.Login? && f.userId != 0 ==>
        MakeFrame(m, f.userId, max, chunk) == Bad(INVALID_USER_ID)
    ensures
      !(m.Login? && f.userId != 0) && MakePayload(m, chunk).Ok? && |MakePayload(m, chunk).value| > max ==>
        MakeFrame(m, f.userId, max, chunk) == Bad(PAYLOAD_TOO_LARGE)
    ensures
      var d := DecodeMessage(f, max, chunk);
      && (f.op == FILE_DELETE ==> d == Bad(UNSUPPORTED_OPCODE))
      && (f.op != FILE_DELETE && |f.payload| > max ==> d == Bad(PAYLOAD_TOO_LARGE))
      && (f.op == LOGIN && |f.payload| <= max && f.userId != 0 ==> d == Bad(INVALID_USER_ID))
  {
  }

  // ----- frames as documented -----

  function Serialized(m: Message, user: nat, max: nat, chunk: nat): Result<Bytes>
    requires user <= MAX_USER_ID && Bound(max)
  {
    var f := MakeFrame(m, user, max, chunk);
    if f.Err? then Err(f.error) else SerializeFrame(f.value, max)
  }

  predicate Header(h: Bytes, size: nat, op: nat, user: nat) {
    && |h| == 8 && h[0] == h[1] == 0 && 0x100 * h[2] as nat + h[3] as nat == 4 + size
    && 0x100 * h[4] as nat + h[5] as nat == op && 0x100 * h[6] as nat + h[7] as nat == user
  }

  lemma HeaderFields(h: Bytes, p: Bytes, op: nat, user: nat)
    requires Header(h, |p|, op, user)
    ensures Begins(h + p, RawFrame(op, user, p))
  {
    var b := h + p;
    assert b[..4] == h[..4] && b[4..6] == h[4..6] && b[6..8] == h[6..8] && b[8..8 + |p|] == p;
    Four(h[..4]);
    Two(h[4..6]);
    Two(h[6..8]);
  }

  // A message laid out in `p` is sent behind a header that announces it.
  lemma SerializedAs(m: Message, user: nat, max: nat, chunk: nat, h: Bytes, p: Bytes)
    requires user <= MAX_USER_ID && Bound(max) && (m.Login? ==> user == NO_USER_ID) && |p| <= max
    requires Header(h, |p|, OpcodeValue(Messages.Kind(m)), user) && LaidOut(m, p) && Admissible(m, chunk)
    ensures Serialized(m, user, max, chunk) == Ok(h + p)
  {
    MadeLayout(p, m, chunk);
    HeaderFields(h, p, OpcodeValue(Messages.Kind(m)), user);
    FieldsEncoded(h + p, RawFrame(OpcodeValue(Messages.Kind(m)), user, p), max);
    assert (h + p)[..8 + |p|] == h + p;
  }

  // Section 22.1 of the protocol document: LIST by user 7.
  lemma ListExample(max: nat, chunk: nat)
    requires Bound(max)
    ensures Serialized(ListFiles, 7, max, chunk) == Ok([0x00, 0x00, 0x00, 0x04, 0x00, 0x10, 0x00, 0x07])
  {
    var h: Bytes := [0x00, 0x00, 0x00, 0x04, 0x00, 0x10, 0x00, 0x07];
    SerializedAs(ListFiles, 7, max, chunk, h, []);
    assert h + [] == h;
  }

  lemma TransferPieces(size: Bytes, name: Bytes, total: Bytes, start: Bytes, t: Bytes, q: Bytes, p: Bytes)
    requires |size| == 2 && |total| == 8 && |start| == 8 && Unpack(size) == |name|
    requires p == size + q && q == name + t && t == total + start
    ensures TransferAt(p, name, Unpack(total), Unpack(start))
  {
    var n := |name|;
    assert p[..2] == size && p[2..2 + n] == name;
    assert p[n + 2..n + 10] == total by { assert p[n + 2..n + 10] == q[n..n + 8] == t[..8]; }
    assert p[n + 10..] == start by { assert p[n + 10..] == q[n + 8..] == t[8..]; }
  }

  lemma PlainName(name: Bytes)
    requires 2 < |name| <= MAX_FILENAME_BYTES
    requires forall i :: 0 <= i < |name| ==> 0x2E <= name[i] <= 0x7A && name[i] != 0x2F && name[i] != 0x5C
    ensures ValidFilename(name)
  {
    AsciiIsText(name);
  }

  lemma ExampleFields(size: Bytes, name: Bytes, total: Bytes, start: Bytes, p: Bytes)
    requires size == [0x00, 0x08] && |name| == 8
    requires total == [0x00, 0x00, 0x00, 0x00, 0x00, 0x98, 0x96, 0x80]
    requires start == [0x00, 0x00, 0x00, 0x00, 0x00, 0x00, 0x00, 0x00]
    requires p == size + (name + (total + start))
    ensures LaidOut(Upload(name, 10_000_000, 0), p)
  {
    Two(size);
    Eight(total);
    Eight(start);
    TransferPieces(size, name, total, start, total + start, name + (total + start), p);
  }

  // Section 22.2: data.bin of 10,000,000 bytes, uploaded by user 7.
  lemma UploadExample(h: Bytes, size: Bytes, name: Bytes, total: Bytes, start: Bytes, max: nat, chunk: nat)
    requires Bound(max) && max >= 26
    requires h == [0x00, 0x00, 0x00, 0x1E, 0x00, 0x12, 0x00, 0x07]
    requires size == [0x00, 0x08] && name == [0x64, 0x61, 0x74, 0x61, 0x2E, 0x62, 0x69, 0x6E]
    requires total == [0x00, 0x00, 0x00, 0x00, 0x00, 0x98, 0x96, 0x80]
    requires start == [0x00, 0x00, 0x00, 0x00, 0x00, 0x00, 0x00, 0x00]
    ensures
      Serialized(Upload(name, 10_000_000, 0), 7, max, chunk) == Ok(h + (size + (name + (total + start))))
  {
    var p := size + (name + (total + start));
    ExampleFields(size, name, total, start, p);
    PlainName(name);
    SerializedAs(Upload(name, 10_000_000, 0), 7, max, chunk, h, p);
  }

  // Section 22.3: the acknowledgement of an upload resumed at 6,000,000.
  lemma AckExample(max: nat, chunk: nat)
    requires Bound(max) && max >= 10
    ensures
      Serialized(Ack(FILE_UPLOAD, 6_000_000), 7, max, chunk) ==
        Ok([0x00, 0x00, 0x00, 0x0E, 0x00, 0x20, 0x00, 0x07] +
           ([0x00, 0x12] + [0x00, 0x00, 0x00, 0x00, 0x00, 0x5B, 0x8D, 0x80]))
  {
    var h: Bytes := [0x00, 0x00, 0x00, 0x0E, 0x00, 0x20, 0x00, 0x07];
    var op: Bytes, next: Bytes := [0x00, 0x12], [0x00, 0x00, 0x00, 0x00, 0x00, 0x5B, 0x8D, 0x80];
    Two(op);
    Eight(next);
    assert (op + next)[..2] == op && (op + next)[2..] == next;
    SerializedAs(Ack(FILE_UPLOAD, 6_000_000), 7, max, chunk, h, op + next);
  }

  // The LOGIN of "alice".
  lemma LoginExample(max: nat, chunk: nat)
    requires Bound(max) && max >= 7
    ensures
      Serialized(Login([0x61, 0x6C, 0x69, 0x63, 0x65]), 0, max, chunk) ==
        Ok([0x00, 0x00, 0x00, 0x0B, 0x00, 0x01, 0x00, 0x00] + ([0x00, 0x05] + [0x61, 0x6C, 0x69, 0x63, 0x65]))
  {
    var h: Bytes := [0x00, 0x00, 0x00, 0x0B, 0x00, 0x01, 0x00, 0x00];
    var size: Bytes, name: Bytes := [0x00, 0x05], [0x61, 0x6C, 0x69, 0x63, 0x65];
    Two(size);
    assert (size + name)[..2] == size && (size + name)[2..2 + 5] == name;
    SerializedAs(Login(name), 0, max, chunk, h, size + name);
  }

  // The values of opcodes and error codes as the document's tables list them.
  lemma OpcodeValues()
    ensures
      && OpcodeValue(LOGIN) == 0x0001 && OpcodeValue(DISCONNECT) == 0x0002 && OpcodeValue(FILE_LIST) == 0x0010
      && OpcodeValue(FILE_LIST_RESP) == 0x0011 && OpcodeValue(FILE_UPLOAD) == 0x0012
      && OpcodeValue(FILE_DOWNLOAD) == 0x0013 && OpcodeValue(FILE_CHUNK) == 0x0014
      && OpcodeValue(FILE_DELETE) == 0x0015 && OpcodeValue(FILE_INFO) == 0x0016
      && OpcodeValue(FILE_CHECKSUM) == 0x0017 && OpcodeValue(ACK) == 0x0020 && OpcodeValue(ERROR) == 0x00FF
  {
  }

  lemma SessionErrorValues()
    ensures
      && ErrorValue(INVALID_FRAME) == 0x0001 && ErrorValue(UNSUPPORTED_OPCODE) == 0x0002
      && ErrorValue(INVALID_PAYLOAD) == 0x0003 && ErrorValue(INVALID_STATE) == 0x0004
      && ErrorValue(PAYLOAD_TOO_LARGE) == 0x0005 && ErrorValue(INVALID_USER_ID) == 0x0006
      && ErrorValue(AUTHENTICATION_REQUIRED) == 0x0007 && ErrorValue(INVALID_USERNAME) == 0x0008
      && ErrorValue(USERNAME_IN_USE) == 0x0009 && ErrorValue(SERVER_BUSY) == 0x000A
  {
  }

  lemma FileErrorValues()
    ensures
      && ErrorValue(FILE_NOT_FOUND) == 0x0010 && ErrorValue(FILE_EXISTS) == 0x0011
      && ErrorValue(INVALID_FILENAME) == 0x0012 && ErrorValue(ACCESS_DENIED) == 0x0013
      && ErrorValue(FILE_IO_ERROR) == 0x0014 && ErrorValue(SIZE_MISMATCH) == 0x0015
      && ErrorValue(CHECKSUM_MISMATCH) == 0x0016 && ErrorValue(OFFSET_MISMATCH) == 0x0017
      && ErrorValue(TRANSFER_IN_PROGRESS) == 0x0018 && ErrorValue(LIST_TOO_LARGE) == 0x0019
      && ErrorValue(RESUME_METADATA_MISMATCH) == 0x001A && ErrorValue(INTERNAL_ERROR) == 0x00FF
  {
  }

  // ----- names -----

  predicate IsAlone(s: Bytes, b: byte) { s != [] && forall i :: 0 <= i < |s| ==> s[i] == b }

  // An accepted filename names an entry of its own directory: it is not empty, not the
  // directory itself or the one above, has no separator and no NUL, and fits 255 bytes.
  // A username is such a name of at most 32 bytes, and has no dot either.
  lemma NamesAreSafe(s: Bytes)
    ensures ValidFilename(s) ==>
      && 0 < |s| <= 255 && !(IsAlone(s, 0x2E) && |s| <= 2)
      && forall i :: 0 <= i < |s| ==> s[i] != 0x00 && s[i] != 0x2F && s[i] != 0x5C
    ensures ValidUsername(s) ==> ValidFilename(s) && |s| <= 32 && forall i :: 0 <= i < |s| ==> s[i] != 0x2E
  {
    if ValidUsername(s) {
      assert forall i :: 0 <= i < |s| ==> NameByte(s[i]);
      AsciiIsText(s);
      assert s[0] != 0x2E;
    }
    if IsAlone(s, 0x2E) && |s| <= 2 { assert s == [0x2E] || s == [0x2E, 0x2E]; }
  }
}
