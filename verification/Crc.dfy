/**
 The cyclic redundancy check of PNG chunks. The program's loop works on a reflected register, a byte
 at a time; the reference, section 3.4 of RFC 2083, divides the message by a polynomial bit by bit.
 */
module Crc {
  import opened Bytes

  // ---- folding and iterating ----

  function Fold<R, B>(step: (R, B) -> R, r: R, xs: seq<B>): R {
    if xs == [] then r else step(Fold(step, r, xs[..|xs| - 1]), xs[|xs| - 1])
  }

  function Iterate<R>(f: R -> R, r: R, n: nat): R
    decreases n
  {
    if n == 0 then r else Iterate(f, f(r), n - 1)
  }

  lemma {:induction false} FoldConcat<R, B>(step: (R, B) -> R, r: R, a: seq<B>, b: seq<B>)
    ensures Fold(step, r, a + b) == Fold(step, Fold(step, r, a), b)
  {
    if b == [] {
      assert a + b == a;
    } else {
      assert (a + b)[..|a + b| - 1] == a + b[..|b| - 1];
      FoldConcat(step, r, a, b[..|b| - 1]);
    }
  }

  /** A map that carries every step over carries the fold over. */
  lemma {:induction false} FoldCarries<R(!new), S, B(!new)>(step: (R, B) -> R, over: (S, B) -> S, carry: R -> S, r: R, xs: seq<B>)
    requires forall r, x :: carry(step(r, x)) == over(carry(r), x)
    ensures carry(Fold(step, r, xs)) == Fold(over, carry(r), xs)
  {
    if xs != [] { FoldCarries(step, over, carry, r, xs[..|xs| - 1]); }
  }

  function Expanded<B, C>(expand: B -> seq<C>, xs: seq<B>): seq<C> {
    if xs == [] then [] else Expanded(expand, xs[..|xs| - 1]) + expand(xs[|xs| - 1])
  }

  /** A step that is itself a fold over what its argument expands to. */
  lemma {:induction false} FoldExpands<R(!new), B(!new), C>(step: (R, B) -> R, small: (R, C) -> R, expand: B -> seq<C>, r: R, xs: seq<B>)
    requires forall r, x :: step(r, x) == Fold(small, r, expand(x))
    ensures Fold(step, r, xs) == Fold(small, r, Expanded(expand, xs))
  {
    if xs != [] {
      var front, last := xs[..|xs| - 1], xs[|xs| - 1];
      FoldExpands(step, small, expand, r, front);
      FoldConcat(small, r, Expanded(expand, front), expand(last));
    }
  }

  // ---- the reference ----

  /** Bit i of a register is the coefficient of x^i; x^32 is the bit shifted out. */
  const GENERATOR: bv32 := 0x04C1_1DB7

  /** x^26 + x^23 + x^22 + x^16 + x^12 + x^11 + x^10 + x^8 + x^7 + x^5 + x^4 + x^2 + x + 1, below x^32. */
  lemma GeneratorIsThePolynomial()
    ensures GENERATOR ==
      (1 << 26) | (1 << 23) | (1 << 22) | (1 << 16) | (1 << 12) | (1 << 11) | (1 << 10) |
      (1 << 8) | (1 << 7) | (1 << 5) | (1 << 4) | (1 << 2) | (1 << 1) | 1
  {
  }

  /** One bit of the message enters the division. */
  function Divide(register: bv32, bit: bool): bv32 {
    if (register & 0x8000_0000 != 0) != bit then (register << 1) ^ GENERATOR else register << 1
  }

  /** A byte's bits enter from the least significant on. */
  function BitsOf(b: Byte): seq<bool> {
    [b & 1 != 0, b & 2 != 0, b & 4 != 0, b & 8 != 0, b & 16 != 0, b & 32 != 0, b & 64 != 0, b & 128 != 0]
  }

  /** What the message leaves, the register starting with all ones. */
  function Remainder(bytes: seq<Byte>): bv32 {
    Fold(Divide, 0xFFFF_FFFF, Expanded(BitsOf, bytes))
  }

  /** The order of the bits reversed: neighbours, pairs, quadruples and so on change places. */
  function Reflect(c: bv32): bv32 {
    var bits := ((c >> 1) & 0x5555_5555) | ((c & 0x5555_5555) << 1);
    var pairs := ((bits >> 2) & 0x3333_3333) | ((bits & 0x3333_3333) << 2);
    var nibbles := ((pairs >> 4) & 0x0F0F_0F0F) | ((pairs & 0x0F0F_0F0F) << 4);
    var bytes := ((nibbles >> 8) & 0x00FF_00FF) | ((nibbles & 0x00FF_00FF) << 8);
    (bytes >> 16) | (bytes << 16)
  }

  // ---- the loop ----

  function Shift(crc: bv32): bv32 {
    if crc & 1 != 0 then (crc >> 1) ^ 0xEDB8_8320 else crc >> 1
  }

  function Absorb(register: bv32, b: Byte): bv32 {
    Iterate(Shift, register ^ (b as bv32), 8)
  }

  function Checksum(bytes: seq<Byte>): bv32 {
    Fold(Absorb, 0xFFFF_FFFF, bytes) ^ 0xFFFF_FFFF
  }

  lemma FoldStep<R, B>(step: (R, B) -> R, r: R, xs: seq<B>, k: nat)
    requires k < |xs|
    ensures Fold(step, r, xs[..k + 1]) == step(Fold(step, r, xs[..k]), xs[k])
  {
    assert xs[..k + 1][..k] == xs[..k];
  }

  /** The inner loop. */
  method AbsorbByte(register: bv32, b: Byte) returns (crc: bv32)
    ensures crc == Absorb(register, b)
  {
    crc := register ^ (b as bv32);
    for bit := 0 to 8
      invariant Iterate(Shift, crc, 8 - bit) == Absorb(register, b)
    {
      IterateStep(Shift, crc, 8 - bit);
      ShiftIs(crc);
      crc := (crc >> 1) ^ (if crc & 1 != 0 then 0xEDB8_8320 else 0);
    }
  }

  lemma ShiftIs(crc: bv32)
    ensures Shift(crc) == (crc >> 1) ^ (if crc & 1 != 0 then 0xEDB8_8320 else 0)
  {
    if crc & 1 == 0 { XorZero(crc >> 1); }
  }

  lemma IterateStep<R>(f: R -> R, r: R, n: nat)
    requires n > 0
    ensures Iterate(f, r, n) == Iterate(f, f(r), n - 1)
  {
  }

  method Crc32(bytes: seq<Byte>) returns (r: bv32)
    ensures r == Checksum(bytes)
  {
    var crc: bv32 := 0xFFFF_FFFF;
    for k := 0 to |bytes|
      invariant crc == Fold(Absorb, 0xFFFF_FFFF, bytes[..k])
    {
      FoldStep(Absorb, 0xFFFF_FFFF, bytes, k);
      crc := AbsorbByte(crc, bytes[k]);
    }
    assert bytes[..|bytes|] == bytes;
    r := crc ^ 0xFFFF_FFFF;
  }

  // ---- one bit ----

  /** The reflected division by one bit. */
  function DivideLow(register: bv32, bit: bool): bv32 {
    if (register & 1 != 0) != bit then (register >> 1) ^ 0xEDB8_8320 else register >> 1
  }

  lemma ReflectShift(c: bv32)
    ensures Reflect(c >> 1) == Reflect(c) << 1
    ensures c & 1 != 0 <==> Reflect(c) & 0x8000_0000 != 0
  {
  }

  lemma ReflectShiftDividing(c: bv32)
    ensures Reflect((c >> 1) ^ 0xEDB8_8320) == (Reflect(c) << 1) ^ 0x04C1_1DB7
  {
  }

  lemma Divides(register: bv32, bit: bool)
    requires (register & 1 != 0) != bit
    ensures Reflect(DivideLow(register, bit)) == Divide(Reflect(register), bit)
  {
    ReflectShift(register);
    ReflectShiftDividing(register);
  }

  lemma DividesNot(register: bv32, bit: bool)
    requires (register & 1 != 0) == bit
    ensures Reflect(DivideLow(register, bit)) == Divide(Reflect(register), bit)
  {
    ReflectShift(register);
  }

  lemma DivideReflected(register: bv32, bit: bool)
    ensures Reflect(DivideLow(register, bit)) == Divide(Reflect(register), bit)
  {
    if (register & 1 != 0) != bit { Divides(register, bit); } else { DividesNot(register, bit); }
  }

  lemma XorParts(a: bv32, b: bv32)
    ensures (a ^ b) >> 1 == (a >> 1) ^ (b >> 1)
    ensures (a ^ b) & 1 != 0 <==> (a & 1 != 0) != (b & 1 != 0)
  {
  }

  lemma XorSwaps(a: bv32, b: bv32, c: bv32)
    ensures (a ^ b) ^ c == (a ^ c) ^ b
  {
  }

  function Low(rest: bv32): bool { rest & 1 != 0 }

  function Half(rest: bv32): bv32 { rest >> 1 }

  /** The register with part of a byte still mixed in. */
  predicate IsMix(mixed: bv32, register: bv32, rest: bv32) { mixed == register ^ rest }

  lemma ShiftMixed(register: bv32, rest: bv32, mixed: bv32, low: bool, half: bv32)
    requires mixed == register ^ rest && low == (rest & 1 != 0) && half == rest >> 1
    ensures IsMix(Shift(mixed), DivideLow(register, low), half)
  {
    XorParts(register, rest);
    if (register & 1 != 0) != (rest & 1 != 0) { XorSwaps(register >> 1, rest >> 1, 0xEDB8_8320); }
  }

  /** Shifting the mix divides by the byte's lowest bit, and leaves the rest mixed in. */
  lemma ShiftKeepsMix(register: bv32, rest: bv32, mixed: bv32)
    requires IsMix(mixed, register, rest)
    ensures IsMix(Shift(mixed), DivideLow(register, Low(rest)), Half(rest))
  {
    ShiftMixed(register, rest, mixed, Low(rest), Half(rest));
  }

  // ---- one byte ----

  function LowBits<E>(low: E -> bool, half: E -> E, rest: E, n: nat): (bits: seq<bool>)
    ensures |bits| == n
    decreases n
  {
    if n == 0 then [] else [low(rest)] + LowBits(low, half, half(rest), n - 1)
  }

  lemma {:induction false} IterateKeepsMix<R(!new), E(!new)>(
      shift: R -> R, divide: (R, bool) -> R, isMix: (R, R, E) -> bool, low: E -> bool, half: E -> E, mixed: R, r: R, rest: E, n: nat)
    requires forall m, r, e :: isMix(m, r, e) ==> isMix(shift(m), divide(r, low(e)), half(e))
    requires isMix(mixed, r, rest)
    ensures isMix(Iterate(shift, mixed, n), Fold(divide, r, LowBits(low, half, rest, n)), Iterate(half, rest, n))
    decreases n
  {
    if n > 0 {
      var first, later := divide(r, low(rest)), LowBits(low, half, half(rest), n - 1);
      IterateKeepsMix(shift, divide, isMix, low, half, shift(mixed), first, half(rest), n - 1);
      FoldConcat(divide, r, [low(rest)], later);
      assert [low(rest)][..0] == [];
      assert Fold(divide, r, [low(rest)]) == first;
    }
  }

  lemma EightLowBits<E>(low: E -> bool, half: E -> E, e0: E, e1: E, e2: E, e3: E, e4: E, e5: E, e6: E, e7: E)
    requires e1 == half(e0) && e2 == half(e1) && e3 == half(e2) && e4 == half(e3) && e5 == half(e4) && e6 == half(e5) && e7 == half(e6)
    ensures LowBits(low, half, e0, 8) == [low(e0), low(e1), low(e2), low(e3), low(e4), low(e5), low(e6), low(e7)]
  {
    assert LowBits(low, half, e4, 4) == [low(e4), low(e5), low(e6), low(e7)];
  }

  lemma ByteBits(b: Byte)
    ensures LowBits(Low, Half, b as bv32, 8) == BitsOf(b)
  {
    var x := b as bv32;
    EightLowBits(Low, Half, x, x >> 1, (x >> 1) >> 1, ((x >> 1) >> 1) >> 1, (((x >> 1) >> 1) >> 1) >> 1,
                 ((((x >> 1) >> 1) >> 1) >> 1) >> 1, (((((x >> 1) >> 1) >> 1) >> 1) >> 1) >> 1,
                 ((((((x >> 1) >> 1) >> 1) >> 1) >> 1) >> 1) >> 1);
  }

  lemma HalvedAway(b: Byte)
    ensures Iterate(Half, b as bv32, 8) == 0
  {
  }

  lemma XorZero(a: bv32)
    ensures a ^ 0 == a
  {
  }

  /** The loop over the bits of a byte divides by its bits. */
  lemma AbsorbDivides(register: bv32, b: Byte)
    ensures Absorb(register, b) == Fold(DivideLow, register, BitsOf(b))
  {
    var mixed := register ^ (b as bv32);
    forall m, r, e | IsMix(m, r, e) ensures IsMix(Shift(m), DivideLow(r, Low(e)), Half(e)) { ShiftKeepsMix(r, e, m); }
    IterateKeepsMix(Shift, DivideLow, IsMix, Low, Half, mixed, register, b as bv32, 8);
    ByteBits(b);
    HalvedAway(b);
    XorZero(Fold(DivideLow, register, BitsOf(b)));
  }

  // ---- all bytes ----

  lemma ReflectAllOnes()
    ensures Reflect(0xFFFF_FFFF) == 0xFFFF_FFFF
  {
  }

  /** Reflecting loses nothing, so a checksum is determined by its reflection. */
  lemma ReflectTwice(c: bv32)
    ensures Reflect(Reflect(c)) == c
  {
  }

  lemma InvertTwice(c: bv32)
    ensures (c ^ 0xFFFF_FFFF) ^ 0xFFFF_FFFF == c
  {
  }

  /** For every byte sequence the checksum, inverted back and reflected, is the remainder of the division. */
  lemma ChecksumIsTheRemainder(bytes: seq<Byte>)
    ensures Reflect(Checksum(bytes) ^ 0xFFFF_FFFF) == Remainder(bytes)
  {
    forall r, b ensures Absorb(r, b) == Fold(DivideLow, r, BitsOf(b)) { AbsorbDivides(r, b); }
    FoldExpands(Absorb, DivideLow, BitsOf, 0xFFFF_FFFF, bytes);
    var bits := Expanded(BitsOf, bytes);
    forall r, bit ensures Reflect(DivideLow(r, bit)) == Divide(Reflect(r), bit) { DivideReflected(r, bit); }
    FoldCarries(DivideLow, Divide, Reflect, 0xFFFF_FFFF, bits);
    ReflectAllOnes();
    InvertTwice(Fold(Absorb, 0xFFFF_FFFF, bytes));
  }

  // ---- what the checksum is for ----

  lemma {:induction false} IterateTellsApart<R(!new)>(f: R -> R, a: R, b: R, n: nat)
    requires forall x, y :: f(x) == f(y) ==> x == y
    requires a != b
    ensures Iterate(f, a, n) != Iterate(f, b, n)
    decreases n
  {
    if n > 0 { IterateTellsApart(f, f(a), f(b), n - 1); }
  }

  lemma {:induction false} FoldTellsApart<R(!new), B(!new)>(step: (R, B) -> R, r: R, a: seq<B>, b: seq<B>, i: nat)
    requires forall q, x, y :: step(q, x) == step(q, y) ==> x == y
    requires forall p, q, x :: step(p, x) == step(q, x) ==> p == q
    requires |a| == |b| && i < |a| && a[i] != b[i]
    requires forall j :: 0 <= j < |a| && j != i ==> a[j] == b[j]
    ensures Fold(step, r, a) != Fold(step, r, b)
  {
    var n := |a| - 1;
    if i == n {
      assert a[..n] == b[..n];
    } else {
      FoldTellsApart(step, r, a[..n], b[..n], i);
    }
  }

  lemma ShiftTellsApart(a: bv32, b: bv32)
    ensures Shift(a) == Shift(b) ==> a == b
  {
  }

  lemma XorTellsApart(p: bv32, q: bv32, x: Byte, y: Byte)
    ensures p == q && p ^ (x as bv32) == q ^ (y as bv32) ==> x == y
    ensures x == y && p ^ (x as bv32) == q ^ (y as bv32) ==> p == q
  {
  }

  lemma AbsorbTellsApart(p: bv32, q: bv32, x: Byte, y: Byte)
    requires Absorb(p, x) == Absorb(q, y)
    ensures p ^ (x as bv32) == q ^ (y as bv32)
  {
    if p ^ (x as bv32) != q ^ (y as bv32) {
      forall a, b | Shift(a) == Shift(b) ensures a == b { ShiftTellsApart(a, b); }
      IterateTellsApart(Shift, p ^ (x as bv32), q ^ (y as bv32), 8);
    }
  }

  lemma InvertTellsApart(a: bv32, b: bv32)
    requires a != b
    ensures a ^ 0xFFFF_FFFF != b ^ 0xFFFF_FFFF
  {
  }

  /** Whatever a single byte is changed to, the checksum changes. */
  lemma ChecksumNoticesOneByte(a: seq<Byte>, b: seq<Byte>, i: nat)
    requires |a| == |b| && i < |a| && a[i] != b[i]
    requires forall j :: 0 <= j < |a| && j != i ==> a[j] == b[j]
    ensures Checksum(a) != Checksum(b)
  {
    forall q, x, y | Absorb(q, x) == Absorb(q, y) ensures x == y {
      AbsorbTellsApart(q, q, x, y);
      XorTellsApart(q, q, x, y);
    }
    forall p, q, x | Absorb(p, x) == Absorb(q, x) ensures p == q {
      AbsorbTellsApart(p, q, x, x);
      XorTellsApart(p, q, x, x);
    }
    FoldTellsApart(Absorb, 0xFFFF_FFFF, a, b, i);
    InvertTellsApart(Fold(Absorb, 0xFFFF_FFFF, a), Fold(Absorb, 0xFFFF_FFFF, b));
  }
}
