/** The Ogg flavour of CRC-32 (sipgram/audio/ogg.py): a 256-entry table of byte steps, and the
    long division over GF(2) that the table abbreviates. */
module Crc {
  /** The generator 0x04C11DB7; its x^32 term is the bit that falls off the register. */
  const POLY: bv32 := 0x04C1_1DB7

  // ---- Words as polynomials over GF(2) ----

  function Xor(x: bv32, y: bv32): bv32 {
    x ^ y
  }

  function One(bit: bool): bv32 {
    if bit then 1 else 0
  }

  predicate Leading(r: bv32) {
    r & 0x8000_0000 != 0
  }

  function Twice(r: bv32): bv32 {
    r << 1
  }

  // ---- Long division, one message bit at a time ----

  /** Shifts one bit of the dividend into the running remainder and subtracts the divisor when the
      leading term appears. */
  function DivideBit(r: bv32, bit: bool): bv32 {
    var shifted := Xor(Twice(r), One(bit));
    if Leading(r) then Xor(shifted, POLY) else shifted
  }

  function Divide(r: bv32, bits: seq<bool>): bv32
    decreases |bits|
  {
    if bits == [] then r else Divide(DivideBit(r, bits[0]), bits[1..])
  }

  predicate Has(b: bv8, mask: bv8) {
    b & mask != 0
  }

  function LowBits(b: bv8): seq<bool> {
    [Has(b, 0x08)] + ([Has(b, 0x04)] + ([Has(b, 0x02)] + ([Has(b, 0x01)] + [])))
  }

  /** The bits of a byte, most significant first. */
  function Bits(b: bv8): seq<bool> {
    [Has(b, 0x80)] + ([Has(b, 0x40)] + ([Has(b, 0x20)] + ([Has(b, 0x10)] + LowBits(b))))
  }

  function MessageBits(data: seq<bv8>): seq<bool> {
    if data == [] then [] else Bits(data[0]) + MessageBits(data[1..])
  }

  function Zeros(n: nat): seq<bool> {
    seq(n, _ => false)
  }

  /** The remainder of data * x^32 divided by the generator. */
  function Remainder(data: seq<bv8>): bv32 {
    Divide(0, MessageBits(data) + Zeros(32))
  }

  // ---- The byte-wise form of the source ----

  function Step(r: bv32): bv32 {
    if Leading(r) then Xor(Twice(r), POLY) else Twice(r)
  }

  function StepN(r: bv32, n: nat): bv32
    decreases n
  {
    if n == 0 then r else StepN(Step(r), n - 1)
  }

  function Top(b: bv8): bv32 {
    (b as bv32) << 24
  }

  function Low(crc: bv32): bv32 {
    crc & 0x00FF_FFFF
  }

  function High(crc: bv32): bv8 {
    ((crc >> 24) & 0xFF) as bv8
  }

  /** The table index of the source: the register's top byte against the data byte. */
  function Index(crc: bv32, b: bv8): bv8 {
    High(crc) ^ b
  }

  /** The register after the bytes of `data`, each added at the top and run through eight steps. */
  function Update(crc: bv32, data: seq<bv8>): bv32
    decreases |data|
  {
    if data == [] then crc
    else var last := |data| - 1; StepN(Xor(Update(crc, data[..last]), Top(data[last])), 8)
  }

  function Crc32(data: seq<bv8>): bv32 {
    Update(0, data)
  }

  // ---- Facts about single words, by bit-blasting; everything after them hides the bits ----

  lemma XorLaws(x: bv32, y: bv32, z: bv32)
    ensures Xor(x, Xor(y, z)) == Xor(Xor(x, y), z) == Xor(Xor(x, z), y)
    ensures Xor(Xor(x, z), Xor(y, z)) == Xor(x, y)
    ensures Xor(x, 0) == x && Xor(0, x) == x
  {
  }

  lemma WordSums(x: bv32, y: bv32)
    ensures (x ^ y) << 1 == (x << 1) ^ (y << 1)
    ensures ((x ^ y) & 0x8000_0000 != 0) == ((x & 0x8000_0000 != 0) != (y & 0x8000_0000 != 0))
  {
  }

  lemma SumShifts(x: bv32, y: bv32)
    ensures Twice(Xor(x, y)) == Xor(Twice(x), Twice(y))
    ensures Leading(Xor(x, y)) <==> Leading(x) != Leading(y)
  {
    WordSums(x, y);
  }

  /** The one-bit step is linear. */
  lemma StepLinear(x: bv32, y: bv32)
    ensures Step(Xor(x, y)) == Xor(Step(x), Step(y))
  {
    hide Xor, Leading, Twice;
    SumShifts(x, y);
    XorLaws(Twice(x), Twice(y), POLY);
  }

  lemma StepShifts(x: bv32)
    requires x & 0x8000_0000 == 0
    ensures Step(x) == x << 1
  {
  }

  lemma DivideBitIsStep(r: bv32, bit: bool)
    ensures DivideBit(r, bit) == Xor(Step(r), One(bit))
  {
    hide Xor, Leading, Twice;
    XorLaws(Twice(r), POLY, One(bit));
  }

  /** With the top byte clear no reduction happens in eight steps. */
  lemma Step8Shifts(x: bv32)
    requires x & 0xFF00_0000 == 0
    ensures StepN(x, 8) == x << 8
  {
    TopBitsClear(x);
    var x1 := x << 1;
    var x2 := x1 << 1;
    var x3 := x2 << 1;
    var x4 := x3 << 1;
    var x5 := x4 << 1;
    var x6 := x5 << 1;
    var x7 := x6 << 1;
    StepShifts(x);
    StepShifts(x1);
    StepShifts(x2);
    StepShifts(x3);
    StepShifts(x4);
    StepShifts(x5);
    StepShifts(x6);
    StepShifts(x7);
    hide Step;
    assert StepN(x, 8) == StepN(x1, 7) == StepN(x2, 6) == StepN(x3, 5) == StepN(x4, 4);
    assert StepN(x4, 4) == StepN(x5, 3) == StepN(x6, 2) == StepN(x7, 1) == StepN(x7 << 1, 0);
  }

  lemma TopBitsClear(x: bv32)
    requires x & 0xFF00_0000 == 0
    ensures x & 0x8000_0000 == 0 && (x << 1) & 0x8000_0000 == 0
    ensures ((x << 1) << 1) & 0x8000_0000 == 0 && (((x << 1) << 1) << 1) & 0x8000_0000 == 0
    ensures ((((x << 1) << 1) << 1) << 1) & 0x8000_0000 == 0
    ensures (((((x << 1) << 1) << 1) << 1) << 1) & 0x8000_0000 == 0
    ensures ((((((x << 1) << 1) << 1) << 1) << 1) << 1) & 0x8000_0000 == 0
    ensures (((((((x << 1) << 1) << 1) << 1) << 1) << 1) << 1) & 0x8000_0000 == 0
    ensures (((((((x << 1) << 1) << 1) << 1) << 1) << 1) << 1) << 1 == x << 8
  {
  }

  lemma LowAndHigh(crc: bv32)
    ensures crc == Xor(Low(crc), Top(High(crc)))
    ensures Low(crc) & 0xFF00_0000 == 0 && Low(crc) << 8 == crc << 8
  {
  }

  lemma TopSum(a: bv8, b: bv8)
    ensures Top(a ^ b) == Xor(Top(a), Top(b))
  {
  }

  lemma SplitTop(crc: bv32, b: bv8)
    ensures Xor(crc, Top(b)) == Xor(Low(crc), Top(Index(crc, b)))
  {
    hide Xor, Top, Low, High;
    LowAndHigh(crc);
    TopSum(High(crc), b);
    XorLaws(Low(crc), Top(High(crc)), Top(b));
  }

  lemma ByteFits(b: bv8)
    ensures (b as bv32) & 0xFF00_0000 == 0 && ((b as bv32) << 8) & 0xFF00_0000 == 0
    ensures ((b as bv32) << 16) & 0xFF00_0000 == 0
    ensures ((b as bv32) << 8) << 8 == (b as bv32) << 16 && ((b as bv32) << 16) << 8 == Top(b)
  {
  }

  /** The first k bits of a byte as a word. */
  function Head(b: bv8, k: nat): bv32
    requires k <= 8
  {
    if k == 0 then 0 else if k == 1 then (b >> 7) as bv32 else if k == 2 then (b >> 6) as bv32
    else if k == 3 then (b >> 5) as bv32 else if k == 4 then (b >> 4) as bv32
    else if k == 5 then (b >> 3) as bv32 else if k == 6 then (b >> 2) as bv32
    else if k == 7 then (b >> 1) as bv32 else b as bv32
  }

  lemma FirstHeads(b: bv8)
    ensures Xor(Twice(Head(b, 0)), One(Has(b, 0x80))) == Head(b, 1)
    ensures Xor(Twice(Head(b, 1)), One(Has(b, 0x40))) == Head(b, 2)
    ensures Xor(Twice(Head(b, 2)), One(Has(b, 0x20))) == Head(b, 3)
    ensures Xor(Twice(Head(b, 3)), One(Has(b, 0x10))) == Head(b, 4)
  {
  }

  lemma LastHeads(b: bv8)
    ensures Xor(Twice(Head(b, 4)), One(Has(b, 0x08))) == Head(b, 5)
    ensures Xor(Twice(Head(b, 5)), One(Has(b, 0x04))) == Head(b, 6)
    ensures Xor(Twice(Head(b, 6)), One(Has(b, 0x02))) == Head(b, 7)
    ensures Xor(Twice(Head(b, 7)), One(Has(b, 0x01))) == Head(b, 8)
  {
  }

  lemma HeadsFit(b: bv8)
    ensures !Leading(Head(b, 0)) && !Leading(Head(b, 1)) && !Leading(Head(b, 2)) && !Leading(Head(b, 3))
    ensures !Leading(Head(b, 4)) && !Leading(Head(b, 5)) && !Leading(Head(b, 6)) && !Leading(Head(b, 7))
  {
  }

  // ---- Many steps ----

  lemma {:induction false} StepNLinear(x: bv32, y: bv32, n: nat)
    ensures StepN(Xor(x, y), n) == Xor(StepN(x, n), StepN(y, n))
    decreases n
  {
    hide Step, Xor;
    if n > 0 {
      StepLinear(x, y);
      StepNLinear(Step(x), Step(y), n - 1);
    }
  }

  lemma {:induction false} StepNAdd(r: bv32, m: nat, n: nat)
    ensures StepN(r, m + n) == StepN(StepN(r, m), n)
    decreases m
  {
    hide Step;
    if m > 0 {
      StepNAdd(Step(r), m - 1, n);
    }
  }

  /** The table refines eight bit steps: the low three bytes only move up, and the top byte is what
      the table entry accounts for. */
  lemma TableStep(crc: bv32, b: bv8)
    ensures StepN(Xor(crc, Top(b)), 8) == Xor(crc << 8, StepN(Top(Index(crc, b)), 8))
  {
    SplitTop(crc, b);
    LowAndHigh(crc);
    hide Step, Xor, Top, Index, Low, StepN;
    StepNLinear(Low(crc), Top(Index(crc, b)), 8);
    Step8Shifts(Low(crc));
  }

  // ---- The code ----

  lemma StepInline(r: bv32)
    ensures Step(r) == if r & 0x8000_0000 != 0 then (r << 1) ^ POLY else r << 1
  {
  }

  /** The inner loop of `_crc_table`. */
  method TableEntry(index: bv8) returns (r: bv32)
    ensures r == StepN(Top(index), 8)
  {
    r := (index as bv32) << 24;
    assert r == Top(index);
    hide Step, Top;
    var k := 0;
    while k < 8
      invariant 0 <= k <= 8
      invariant StepN(r, 8 - k) == StepN(Top(index), 8)
    {
      StepInline(r);
      r := if r & 0x8000_0000 != 0 then (r << 1) ^ POLY else r << 1;
      k := k + 1;
    }
  }

  /** `_crc_table`: each entry is the byte's own eight steps. */
  method BuildTable() returns (table: array<bv32>)
    ensures fresh(table) && table.Length == 256
    ensures forall b: bv8 :: table[b as int] == StepN(Top(b), 8)
  {
    hide StepN, Top;
    table := new bv32[256];
    for i := 0 to 256
      invariant forall b: bv8 :: b as int < i ==> table[b as int] == StepN(Top(b), 8)
    {
      table[i] := TableEntry(i as bv8);
    }
  }

  lemma UpdateNext(data: seq<bv8>, i: nat)
    requires i < |data|
    ensures Update(0, data[..i + 1]) == StepN(Xor(Update(0, data[..i]), Top(data[i])), 8)
  {
    hide StepN, Xor, Top;
    assert data[..i + 1][..i] == data[..i];
  }

  /** `crc32`: one table lookup per byte yields the remainder of the long division. */
  method TableCrc32(data: seq<bv8>) returns (crc: bv32)
    ensures crc == Remainder(data)
  {
    var table := BuildTable();
    crc := 0;
    hide StepN, Top, Remainder, Index, Xor;
    for i := 0 to |data|
      invariant forall b: bv8 :: table[b as int] == StepN(Top(b), 8)
      invariant crc == Update(0, data[..i])
    {
      TableStep(crc, data[i]);
      UpdateNext(data, i);
      crc := Xor(crc << 8, table[Index(crc, data[i]) as int]);
    }
    assert data[..|data|] == data;
    CrcIsRemainder(data);
  }

  // ---- Adding the bytes at the top of the register is long division ----

  lemma {:induction false} DivideAppend(r: bv32, a: seq<bool>, b: seq<bool>)
    ensures Divide(r, a + b) == Divide(Divide(r, a), b)
    decreases |a|
  {
    hide DivideBit;
    if a == [] {
      assert a + b == b;
    } else {
      assert (a + b)[1..] == a[1..] + b;
      DivideAppend(DivideBit(r, a[0]), a[1..], b);
    }
  }

  lemma {:induction false} DivideZeros(r: bv32, n: nat)
    ensures Divide(r, Zeros(n)) == StepN(r, n)
    decreases n
  {
    hide DivideBit, Step, Xor;
    if n > 0 {
      assert Zeros(n)[1..] == Zeros(n - 1);
      DivideBitIsStep(r, false);
      XorLaws(Step(r), 0, 0);
      DivideZeros(Step(r), n - 1);
    }
  }

  /** What the register holds and what is fed into it superpose. */
  lemma {:induction false} DivideLinear(r: bv32, s: bv32, bits: seq<bool>)
    ensures Divide(Xor(r, s), bits) == Xor(StepN(r, |bits|), Divide(s, bits))
    decreases |bits|
  {
    hide DivideBit, Step, Xor;
    if bits != [] {
      DivideBitIsStep(Xor(r, s), bits[0]);
      DivideBitIsStep(s, bits[0]);
      StepLinear(r, s);
      XorLaws(Step(r), Step(s), One(bits[0]));
      DivideLinear(Step(r), DivideBit(s, bits[0]), bits[1..]);
    }
  }

  lemma Feed(high: bv32, bit: bool, next: bv32, rest: seq<bool>)
    requires !Leading(high) && Xor(Twice(high), One(bit)) == next
    ensures Divide(high, [bit] + rest) == Divide(next, rest)
  {
    hide Xor, Twice, Leading, One;
    assert ([bit] + rest)[1..] == rest;
  }

  lemma FirstHalf(b: bv8, rest: seq<bool>)
    ensures Divide(0, [Has(b, 0x80)] + ([Has(b, 0x40)] + ([Has(b, 0x20)] + ([Has(b, 0x10)] + rest))))
            == Divide(Head(b, 4), rest)
  {
    HeadEnds(b);
    hide Xor, Twice, Leading, One, Head, Has, Divide;
    HeadsFit(b);
    FirstHeads(b);
    Feed(Head(b, 0), Has(b, 0x80), Head(b, 1), [Has(b, 0x40)] + ([Has(b, 0x20)] + ([Has(b, 0x10)] + rest)));
    Feed(Head(b, 1), Has(b, 0x40), Head(b, 2), [Has(b, 0x20)] + ([Has(b, 0x10)] + rest));
    Feed(Head(b, 2), Has(b, 0x20), Head(b, 3), [Has(b, 0x10)] + rest);
    Feed(Head(b, 3), Has(b, 0x10), Head(b, 4), rest);
  }

  lemma SecondHalf(b: bv8)
    ensures Divide(Head(b, 4), [Has(b, 0x08)] + ([Has(b, 0x04)] + ([Has(b, 0x02)] + ([Has(b, 0x01)] + []))))
            == b as bv32
  {
    HeadEnds(b);
    DivideNothing(Head(b, 8));
    hide Xor, Twice, Leading, One, Head, Has, Divide;
    HeadsFit(b);
    LastHeads(b);
    Feed(Head(b, 4), Has(b, 0x08), Head(b, 5), [Has(b, 0x04)] + ([Has(b, 0x02)] + ([Has(b, 0x01)] + [])));
    Feed(Head(b, 5), Has(b, 0x04), Head(b, 6), [Has(b, 0x02)] + ([Has(b, 0x01)] + []));
    Feed(Head(b, 6), Has(b, 0x02), Head(b, 7), [Has(b, 0x01)] + []);
    Feed(Head(b, 7), Has(b, 0x01), Head(b, 8), []);
  }

  lemma HeadEnds(b: bv8)
    ensures Head(b, 0) == 0 && Head(b, 8) == b as bv32
  {
  }

  /** A byte fed into the empty register is the register. */
  lemma ByteEnters(b: bv8)
    ensures Divide(0, Bits(b)) == b as bv32
  {
    hide Has, Divide, Head;
    FirstHalf(b, LowBits(b));
    SecondHalf(b);
  }

  /** A byte at the bottom climbs to the top in 24 steps. */
  lemma ByteClimbs(b: bv8)
    ensures StepN(b as bv32, 24) == Top(b)
  {
    var x := b as bv32;
    ByteFits(b);
    hide Step, Top, StepN;
    Step8Shifts(x);
    Step8Shifts(x << 8);
    Step8Shifts(x << 16);
    StepNAdd(x, 8, 16);
    StepNAdd(x << 8, 8, 8);
  }

  lemma DivideByte(r: bv32, b: bv8)
    ensures Divide(r, Bits(b)) == Xor(StepN(r, 8), b as bv32)
  {
    hide Step, Xor, Top, StepN, Divide, Has, Head;
    ByteEnters(b);
    XorLaws(r, 0, 0);
    DivideLinear(r, 0, Bits(b));
  }

  /** Dividing by a byte and then 32 zero bits equals adding the byte at the top of the register
      that has already taken its 32 steps. */
  lemma ByteAtTheTop(r: bv32, b: bv8)
    ensures StepN(Divide(r, Bits(b)), 32) == StepN(Xor(StepN(r, 32), Top(b)), 8)
  {
    hide Step, Xor, Top, StepN, Divide, Bits;
    DivideByte(r, b);
    StepNLinear(StepN(r, 8), b as bv32, 32);
    StepNAdd(r, 8, 32);
    StepNAdd(r, 32, 8);
    StepNAdd(b as bv32, 24, 8);
    ByteClimbs(b);
    StepNLinear(StepN(r, 32), Top(b), 8);
  }

  lemma {:induction false} MessageBitsAppend(a: seq<bv8>, b: seq<bv8>)
    ensures MessageBits(a + b) == MessageBits(a) + MessageBits(b)
    decreases |a|
  {
    hide Bits;
    if a == [] {
      assert a + b == b;
    } else {
      assert (a + b)[1..] == a[1..] + b;
      MessageBitsAppend(a[1..], b);
    }
  }

  lemma {:induction false} ZeroStays(n: nat)
    ensures StepN(0, n) == 0
    decreases n
  {
    if n > 0 {
      assert Step(0) == 0;
      ZeroStays(n - 1);
    }
  }

  lemma {:induction false} DivideMessage(data: seq<bv8>)
    ensures StepN(Divide(0, MessageBits(data)), 32) == Crc32(data)
    decreases |data|
  {
    hide Step, Xor, Top, StepN, Bits, Divide;
    if data == [] {
      ZeroStays(32);
      DivideNothing(0);
    } else {
      var last := |data| - 1;
      assert data == data[..last] + [data[last]];
      MessageBitsAppend(data[..last], [data[last]]);
      assert MessageBits([data[last]]) == Bits(data[last]) + MessageBits([]) == Bits(data[last]);
      DivideAppend(0, MessageBits(data[..last]), Bits(data[last]));
      DivideMessage(data[..last]);
      ByteAtTheTop(Divide(0, MessageBits(data[..last])), data[last]);
    }
  }

  lemma DivideNothing(r: bv32)
    ensures Divide(r, []) == r
  {
  }

  /** The byte-wise checksum is the remainder of the message times x^32 by the generator. */
  lemma CrcIsRemainder(data: seq<bv8>)
    ensures Crc32(data) == Remainder(data)
  {
    DivideMessage(data);
    DivideAppend(0, MessageBits(data), Zeros(32));
    DivideZeros(Divide(0, MessageBits(data)), 32);
  }
}
