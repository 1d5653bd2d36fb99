/** Octets and the fixed-width integers that Python's struct module packs into them. */
module Bytes {
  newtype byte = n: int | 0 <= n < 256

  type bytes = seq<byte>

  type u7 = n: nat | n < 128
  type u16 = n: nat | n < 0x1_0000
  type u32 = n: nat | n < 0x1_0000_0000

  /** & 0xFFFF and & 0xFFFFFFFF */
  function Low16(n: nat): u16 {
    n % 0x1_0000
  }

  function Low32(n: nat): u32 {
    n % 0x1_0000_0000
  }

  function Pow256(width: nat): (p: nat)
    ensures p > 0
  {
    if width == 0 then 1 else 256 * Pow256(width - 1)
  }

  lemma Powers()
    ensures Pow256(2) == 0x1_0000 && Pow256(4) == 0x1_0000_0000 && Pow256(8) == 0x1_0000_0000_0000_0000
  {
    assert Pow256(2) == 256 * (256 * Pow256(0));
    assert Pow256(4) == 256 * (256 * Pow256(2));
    assert Pow256(6) == 256 * (256 * Pow256(4));
    assert Pow256(8) == 256 * (256 * Pow256(6));
  }

  /** Little-endian ("<" formats). */
  function PackLittle(n: nat, width: nat): (packed: bytes)
    ensures |packed| == width
    decreases width
  {
    if width == 0 then [] else [(n % 256) as byte] + PackLittle(n / 256, width - 1)
  }

  function UnpackLittle(packed: bytes): nat {
    if packed == [] then 0 else packed[0] as nat + 256 * UnpackLittle(packed[1..])
  }

  lemma {:induction false} LittleRoundTrip(n: nat, width: nat)
    requires n < Pow256(width)
    ensures UnpackLittle(PackLittle(n, width)) == n
    decreases width
  {
    if width > 0 {
      LittleRoundTrip(n / 256, width - 1);
      assert PackLittle(n, width)[1..] == PackLittle(n / 256, width - 1);
    }
  }

  /** Big-endian ("!" formats). */
  function PackBig(n: nat, width: nat): (packed: bytes)
    ensures |packed| == width
    decreases width
  {
    if width == 0 then [] else PackBig(n / 256, width - 1) + [(n % 256) as byte]
  }

  function UnpackBig(packed: bytes): (n: nat)
    ensures n < Pow256(|packed|)
  {
    if packed == [] then 0 else UnpackBig(packed[..|packed| - 1]) * 256 + packed[|packed| - 1] as nat
  }

  lemma {:induction false} BigRoundTrip(n: nat, width: nat)
    requires n < Pow256(width)
    ensures UnpackBig(PackBig(n, width)) == n
    decreases width
  {
    if width > 0 {
      BigRoundTrip(n / 256, width - 1);
      assert PackBig(n, width)[..width - 1] == PackBig(n / 256, width - 1);
    }
  }
}
