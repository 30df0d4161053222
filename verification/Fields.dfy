// The fields payloads are made of: reading each off the front of a payload and
// writing it. Text is its UTF-8 bytes.

module Fields {
  import opened Protocol
  import opened Packing
  import opened Utf8

  datatype Entry = Entry(filename: Bytes, size: nat)

  const U16 := 0x1_0000
  const U32 := 0x1_0000_0000
  const U64 := 0x1_0000_0000_0000_0000

  // ----- text -----

  predicate NameByte(b: byte) {
    0x41 <= b <= 0x5A || 0x61 <= b <= 0x7A || 0x30 <= b <= 0x39 || b == 0x5F || b == 0x2D
  }

  predicate ValidUsername(s: Bytes) {
    1 <= |s| <= MAX_USERNAME_BYTES && forall b :: b in s ==> NameByte(b)
  }

  predicate ValidFilename(s: Bytes) {
    && ValidUtf8(s) && 1 <= |s| <= MAX_FILENAME_BYTES
    && s != [0x2E] && s != [0x2E, 0x2E]
    && 0x00 !in s && 0x2F !in s && 0x5C !in s
  }

  // ----- reading -----

  // A value read off the front of a payload, and what follows it.
  datatype Read<T> = Read(value: T, rest: Bytes)

  function Take(s: Bytes, n: nat): Result<Read<Bytes>> {
    if n > |s| then Bad(INVALID_PAYLOAD) else Ok(Read(s[..n], s[n..]))
  }

  function TakeUint(s: Bytes, width: nat): Result<Read<nat>> {
    if width > |s| then Bad(INVALID_PAYLOAD) else Ok(Read(Unpack(s[..width]), s[width..]))
  }

  function TakeFilename(s: Bytes): Result<Read<Bytes>> {
    var n := TakeUint(s, 2);
    if n.Err? then Err(n.error)
    else
      var r := Take(n.value.rest, n.value.value);
      if r.Err? then Err(r.error)
      else if !ValidFilename(r.value.value) then Bad(INVALID_FILENAME)
      else r
  }

  function TakeEntry(s: Bytes): Result<Read<Entry>> {
    var name := TakeFilename(s);
    if name.Err? then Err(name.error)
    else
      var size := TakeUint(name.value.rest, 8);
      if size.Err? then Err(size.error)
      else Ok(Read(Entry(name.value.value, size.value.value), size.value.rest))
  }

  function TakeEntries(s: Bytes, count: nat): (r: Result<Read<seq<Entry>>>)
    ensures r.Ok? ==> |r.value.value| == count
  {
    if count == 0 then Ok(Read([], s))
    else
      var first := TakeEntry(s);
      if first.Err? then Err(first.error)
      else
        var more := TakeEntries(first.value.rest, count - 1);
        if more.Err? then Err(more.error)
        else Ok(Read([first.value.value] + more.value.value, more.value.rest))
  }

  // ----- writing -----

  function PutFilename(name: Bytes): Bytes
    requires ValidFilename(name)
  {
    Widths();
    Pack(|name|, 2) + name
  }

  function PutEntry(e: Entry): Bytes
    requires ValidFilename(e.filename) && e.size < U64
  {
    Widths();
    PutFilename(e.filename) + Pack(e.size, 8)
  }

  predicate ValidEntries(entries: seq<Entry>) {
    forall e :: e in entries ==> ValidFilename(e.filename) && e.size < U64
  }

  function PutEntries(entries: seq<Entry>): Bytes
    requires ValidEntries(entries)
  {
    if entries == [] then [] else PutEntry(entries[0]) + PutEntries(entries[1..])
  }

  lemma TakePutUint(n: nat, width: nat, rest: Bytes)
    requires n < Limit(width)
    ensures TakeUint(Pack(n, width) + rest, width) == Ok(Read(n, rest))
  {
    var s := Pack(n, width) + rest;
    assert s[..width] == Pack(n, width) && s[width..] == rest;
    UnpackPack(n, width);
  }

  lemma {:induction false} PutTakeUint(s: Bytes, width: nat)
    requires width <= |s|
    ensures
      var n := Unpack(s[..width]);
      n < Limit(width) && s == Pack(n, width) + s[width..]
  {
    var front, back := s[..width], s[width..];
    PackUnpack(front);
    assert s == front + back;
  }

  lemma TakePutFilename(name: Bytes, rest: Bytes)
    requires ValidFilename(name)
    ensures TakeFilename(PutFilename(name) + rest) == Ok(Read(name, rest))
  {
    Widths();
    assert PutFilename(name) + rest == Pack(|name|, 2) + (name + rest);
    TakePutUint(|name|, 2, name + rest);
    assert (name + rest)[..|name|] == name && (name + rest)[|name|..] == rest;
  }

  lemma PutTakeFilename(s: Bytes)
    requires TakeFilename(s).Ok?
    ensures
      var r := TakeFilename(s).value;
      ValidFilename(r.value) && s == PutFilename(r.value) + r.rest
  {
    PutTakeUint(s, 2);
    var n := TakeUint(s, 2).value;
    assert n.rest == n.rest[..n.value] + n.rest[n.value..];
  }

  lemma TakePutEntry(e: Entry, rest: Bytes)
    requires ValidFilename(e.filename) && e.size < U64
    ensures TakeEntry(PutEntry(e) + rest) == Ok(Read(e, rest))
  {
    Widths();
    assert PutEntry(e) + rest == PutFilename(e.filename) + (Pack(e.size, 8) + rest);
    TakePutFilename(e.filename, Pack(e.size, 8) + rest);
    TakePutUint(e.size, 8, rest);
  }

  lemma PutTakeEntry(s: Bytes)
    requires TakeEntry(s).Ok?
    ensures
      var r := TakeEntry(s).value;
      ValidFilename(r.value.filename) && r.value.size < U64 && s == PutEntry(r.value) + r.rest
  {
    Widths();
    PutTakeFilename(s);
    PutTakeUint(TakeFilename(s).value.rest, 8);
  }

  lemma PutCons(e: Entry, entries: seq<Entry>)
    requires ValidFilename(e.filename) && e.size < U64 && ValidEntries(entries)
    ensures ValidEntries([e] + entries)
    ensures PutEntries([e] + entries) == PutEntry(e) + PutEntries(entries)
  {
    assert ([e] + entries)[1..] == entries;
  }

  lemma TakeCons(s: Bytes, e: Entry, middle: Bytes, entries: seq<Entry>, rest: Bytes)
    requires TakeEntry(s) == Ok(Read(e, middle)) && TakeEntries(middle, |entries|) == Ok(Read(entries, rest))
    ensures TakeEntries(s, 1 + |entries|) == Ok(Read([e] + entries, rest))
  {
  }

  lemma Assoc(a: Bytes, b: Bytes, c: Bytes)
    ensures (a + b) + c == a + (b + c)
  {
  }

  lemma {:induction false} TakePutEntries(entries: seq<Entry>, rest: Bytes)
    requires ValidEntries(entries)
    ensures TakeEntries(PutEntries(entries) + rest, |entries|) == Ok(Read(entries, rest))
  {
    if entries == [] {
      assert PutEntries(entries) + rest == rest;
    } else {
      var e, more := entries[0], entries[1..];
      assert entries == [e] + more;
      TakePutEntries(more, rest);
      PutCons(e, more);
      Assoc(PutEntry(e), PutEntries(more), rest);
      TakePutEntry(e, PutEntries(more) + rest);
      TakeCons(PutEntries(entries) + rest, e, PutEntries(more) + rest, more, rest);
    }
  }

  // The first of the entries taken, and where the others begin.
  lemma FirstTaken(s: Bytes, count: nat) returns (e: Entry, middle: Bytes)
    requires count > 0 && TakeEntries(s, count).Ok?
    ensures ValidFilename(e.filename) && e.size < U64 && s == PutEntry(e) + middle
    ensures TakeEntries(middle, count - 1).Ok?
    ensures
      var more := TakeEntries(middle, count - 1).value;
      TakeEntries(s, count).value == Read([e] + more.value, more.rest)
  {
    PutTakeEntry(s);
    var first := TakeEntry(s).value;
    e, middle := first.value, first.rest;
  }

  lemma {:induction false} PutTakeEntries(s: Bytes, count: nat)
    requires TakeEntries(s, count).Ok?
    ensures
      var r := TakeEntries(s, count).value;
      |r.value| == count && ValidEntries(r.value) && s == PutEntries(r.value) + r.rest
    decreases count
  {
    if count == 0 {
      assert s == PutEntries([]) + s;
    } else {
      var e, middle := FirstTaken(s, count);
      PutTakeEntries(middle, count - 1);
      var more := TakeEntries(middle, count - 1).value;
      PutCons(e, more.value);
      Assoc(PutEntry(e), PutEntries(more.value), more.rest);
    }
  }
}
