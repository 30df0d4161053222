// Which byte sequences are UTF-8 text.

module Utf8 {
  import opened Protocol

  predicate Tail(b: byte) { 0x80 <= b <= 0xBF }

  // The byte sequences of section 4 of RFC 3629.
  predicate ValidUtf8(s: Bytes) {
    if s == [] then true
    else if s[0] <= 0x7F then ValidUtf8(s[1..])
    else if 0xC2 <= s[0] <= 0xDF then |s| >= 2 && Tail(s[1]) && ValidUtf8(s[2..])
    else if 0xE0 <= s[0] <= 0xEF then
      && |s| >= 3 && Tail(s[1]) && Tail(s[2])
      && (s[0] == 0xE0 ==> s[1] >= 0xA0) && (s[0] == 0xED ==> s[1] <= 0x9F)
      && ValidUtf8(s[3..])
    else if 0xF0 <= s[0] <= 0xF4 then
      && |s| >= 4 && Tail(s[1]) && Tail(s[2]) && Tail(s[3])
      && (s[0] == 0xF0 ==> s[1] >= 0x90) && (s[0] == 0xF4 ==> s[1] <= 0x8F)
      && ValidUtf8(s[4..])
    else false
  }

  lemma {:induction false} AsciiIsText(s: Bytes)
    requires forall i :: 0 <= i < |s| ==> s[i] <= 0x7F
    ensures ValidUtf8(s)
  {
    if s != [] { AsciiIsText(s[1..]); }
  }

  // ----- an independent definition: encodings of character numbers -----

  // A character number other than a surrogate.
  predicate Scalar(c: nat) { c < 0xD800 || 0xE000 <= c < 0x11_0000 }

  // Section 3 of RFC 3629.
  function EncodeScalar(c: nat): (b: Bytes)
    requires Scalar(c)
    ensures b != []
  {
    if c < 0x80 then [c as byte]
    else if c < 0x800 then [(0xC0 + c / 64) as byte, (0x80 + c % 64) as byte]
    else if c < 0x1_0000 then [(0xE0 + c / 4096) as byte, (0x80 + c / 64 % 64) as byte, (0x80 + c % 64) as byte]
    else
      [(0xF0 + c / 262144) as byte, (0x80 + c / 4096 % 64) as byte,
       (0x80 + c / 64 % 64) as byte, (0x80 + c % 64) as byte]
  }

  predicate Text(cs: seq<nat>) { forall c :: c in cs ==> Scalar(c) }

  function Encoded(cs: seq<nat>): Bytes
    requires Text(cs)
  {
    if cs == [] then [] else EncodeScalar(cs[0]) + Encoded(cs[1..])
  }

  lemma TwoBytes(x: nat, y: nat)
    requires 2 <= x < 32 && y < 64
    ensures var c := x * 64 + y; Scalar(c) && EncodeScalar(c) == [(0xC0 + x) as byte, (0x80 + y) as byte]
  {
  }

  lemma ThreeBytes(x: nat, y: nat, z: nat)
    requires x < 16 && y < 64 && z < 64 && (x == 0 ==> y >= 32) && (x == 13 ==> y < 32)
    ensures
      var c := x * 4096 + y * 64 + z;
      Scalar(c) && EncodeScalar(c) == [(0xE0 + x) as byte, (0x80 + y) as byte, (0x80 + z) as byte]
  {
    var c := x * 4096 + y * 64 + z;
    assert c / 64 == x * 64 + y && c / 4096 == x;
  }

  lemma FourBytes(x: nat, y: nat, z: nat, w: nat)
    requires x < 5 && y < 64 && z < 64 && w < 64 && (x == 0 ==> y >= 16) && (x == 4 ==> y < 16)
    ensures
      var c := x * 262144 + y * 4096 + z * 64 + w;
      && Scalar(c)
      && EncodeScalar(c) == [(0xF0 + x) as byte, (0x80 + y) as byte, (0x80 + z) as byte, (0x80 + w) as byte]
  {
    var c := x * 262144 + y * 4096 + z * 64 + w;
    assert c / 64 == x * 4096 + y * 64 + z && c / 4096 == x * 64 + y && c / 262144 == x;
  }

  // The first character of valid text, and the number of bytes it takes.
  function First(s: Bytes): (r: (nat, nat))
    requires s != [] && ValidUtf8(s)
    ensures 0 < r.1 <= |s| && ValidUtf8(s[r.1..])
    ensures Scalar(r.0) && EncodeScalar(r.0) == s[..r.1]
  {
    var b := s[0] as nat;
    if b <= 0x7F then (b, 1)
    else if b <= 0xDF then
      var x, y := b - 0xC0, s[1] as nat - 0x80;
      TwoBytes(x, y);
      (x * 64 + y, 2)
    else if b <= 0xEF then
      var x, y, z := b - 0xE0, s[1] as nat - 0x80, s[2] as nat - 0x80;
      ThreeBytes(x, y, z);
      (x * 4096 + y * 64 + z, 3)
    else
      var x, y, z, w := b - 0xF0, s[1] as nat - 0x80, s[2] as nat - 0x80, s[3] as nat - 0x80;
      FourBytes(x, y, z, w);
      (x * 262144 + y * 4096 + z * 64 + w, 4)
  }

  function Decoded(s: Bytes): (cs: seq<nat>)
    requires ValidUtf8(s)
    ensures Text(cs) && Encoded(cs) == s
  {
    if s == [] then []
    else
      var (c, n) := First(s);
      var rest := Decoded(s[n..]);
      assert ([c] + rest)[1..] == rest;
      [c] + rest
  }

  lemma ScalarFirst(c: nat, rest: Bytes)
    requires Scalar(c)
    ensures ValidUtf8(EncodeScalar(c) + rest) <==> ValidUtf8(rest)
  {
    var e := EncodeScalar(c);
    assert (e + rest)[|e|..] == rest;
  }

  lemma {:induction false} EncodedIsValid(cs: seq<nat>)
    requires Text(cs)
    ensures ValidUtf8(Encoded(cs))
  {
    if cs != [] {
      EncodedIsValid(cs[1..]);
      ScalarFirst(cs[0], Encoded(cs[1..]));
    }
  }

  // The validity predicate accepts exactly the encodings of character sequences.
  lemma ValidIffEncoded(s: Bytes)
    ensures ValidUtf8(s) <==> exists cs :: Text(cs) && Encoded(cs) == s
  {
    if ValidUtf8(s) {
      var cs := Decoded(s);
    }
    forall cs | Text(cs) && Encoded(cs) == s ensures ValidUtf8(s) {
      EncodedIsValid(cs);
    }
  }
}
