// Big-endian unsigned integers (struct formats !H, !I and !Q).

module Packing {
  import opened Protocol

  function Limit(width: nat): (n: nat)
    ensures n > 0
  {
    if width == 0 then 1 else 256 * Limit(width - 1)
  }

  function Pack(n: nat, width: nat): (b: Bytes)
    requires n < Limit(width)
    ensures |b| == width
  {
    if width == 0 then [] else Pack(n / 256, width - 1) + [(n % 256) as byte]
  }

  function Unpack(b: Bytes): (n: nat)
    ensures n < Limit(|b|)
  {
    if b == [] then 0 else 256 * Unpack(b[..|b| - 1]) + b[|b| - 1] as nat
  }

  lemma {:induction false} UnpackPack(n: nat, width: nat)
    requires n < Limit(width)
    ensures Unpack(Pack(n, width)) == n
  {
    if width > 0 {
      UnpackPack(n / 256, width - 1);
      var b := Pack(n, width);
      assert b[..|b| - 1] == Pack(n / 256, width - 1);
    }
  }

  lemma {:induction false} PackUnpack(b: Bytes)
    ensures Pack(Unpack(b), |b|) == b
  {
    if b != [] {
      PackUnpack(b[..|b| - 1]);
      var n, front, last := Unpack(b), Unpack(b[..|b| - 1]), b[|b| - 1] as nat;
      assert n / 256 == front && n % 256 == last;
    }
  }

  // The first k bytes of `b`, each times the power of 256 of its place.
  ghost function Places(b: Bytes, k: nat): nat
    requires k <= |b|
  {
    if k == 0 then 0 else Places(b, k - 1) + b[k - 1] as nat * Limit(|b| - k)
  }

  lemma {:induction false} PlacesOfFront(b: Bytes, k: nat)
    requires b != [] && k < |b|
    ensures Places(b, k) == 256 * Places(b[..|b| - 1], k)
  {
    if k > 0 { PlacesOfFront(b, k - 1); }
  }

  // The value by position: byte i counts 256 to the power of the number of bytes
  // after it.
  lemma {:induction false} Positional(b: Bytes)
    ensures Unpack(b) == Places(b, |b|)
  {
    if b != [] {
      Positional(b[..|b| - 1]);
      PlacesOfFront(b, |b| - 1);
    }
  }

  lemma Two(b: Bytes)
    requires |b| == 2
    ensures Unpack(b) == 0x100 * b[0] as nat + b[1] as nat
  {
    assert b[..1][..0] == [];
  }

  lemma Four(b: Bytes)
    requires |b| == 4
    ensures Unpack(b) == 0x100_0000 * b[0] as nat + 0x1_0000 * b[1] as nat + 0x100 * b[2] as nat + b[3] as nat
  {
    Two(b[..2]);
    assert b[..3][..2] == b[..2] && b[..3][2] == b[2];
    assert Unpack(b[..3]) == 256 * Unpack(b[..2]) + b[2] as nat;
  }

  lemma Eight(b: Bytes)
    requires |b| == 8 && b[0] == b[1] == b[2] == b[3] == 0
    ensures
      Unpack(b) == 0x100_0000 * b[4] as nat + 0x1_0000 * b[5] as nat + 0x100 * b[6] as nat + b[7] as nat
  {
    Four(b[..4]);
    assert b[..5][..4] == b[..4] && b[..6][..5] == b[..5] && b[..7][..6] == b[..6] && b[..8] == b;
    assert Unpack(b[..5]) == 256 * Unpack(b[..4]) + b[4] as nat;
    assert Unpack(b[..6]) == 256 * Unpack(b[..5]) + b[5] as nat;
    assert Unpack(b[..7]) == 256 * Unpack(b[..6]) + b[6] as nat;
  }

  lemma Widths()
    ensures Limit(2) == 0x1_0000 && Limit(4) == 0x1_0000_0000 && Limit(8) == 0x1_0000_0000_0000_0000
  {
    assert Limit(3) == 0x100_0000 && Limit(5) == 0x100_0000_0000;
    assert Limit(6) == 0x1_0000_0000_0000 && Limit(7) == 0x100_0000_0000_0000;
  }
}
