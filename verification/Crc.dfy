/** CRC-32C (section 12.1 of RFC 3720), bit by bit as the store computes it. */
module Crc {
  import opened Prelude
  import opened Bits

  const POLYNOMIAL: bv32 := 0x82f6_3b78
  const START: bv32 := 0xffff_ffff

  function Xor(c: bv32, d: bv32): bv32 {
    c ^ d
  }

  function Complement(c: bv32): bv32 {
    !c
  }

  /** One byte higher up. */
  function Raise(c: bv32): bv32 {
    c << 8
  }

  function Bit(present: bool, weight: bv32): bv32 {
    if present then weight else 0
  }

  function Weigh(b0: bool, b1: bool, b2: bool, b3: bool, b4: bool, b5: bool, b6: bool, b7: bool): bv32 {
    Bit(b0, 1) | Bit(b1, 2) | Bit(b2, 4) | Bit(b3, 8) | Bit(b4, 16) | Bit(b5, 32) | Bit(b6, 64) | Bit(b7, 128)
  }

  /** A byte widened to 32 bits, bit by bit. */
  function Widen(b: Byte): bv32 {
    Weigh(BitAt(b, 0), BitAt(b, 1), BitAt(b, 2), BitAt(b, 3), BitAt(b, 4), BitAt(b, 5), BitAt(b, 6), BitAt(b, 7))
  }

  predicate Odd(c: bv32) {
    c & 1 == 1
  }

  function Half(c: bv32): bv32 {
    c >> 1
  }

  /** One step of the register. */
  function Shift(c: bv32): bv32 {
    if Odd(c) then Xor(Half(c), POLYNOMIAL) else Half(c)
  }

  function Shifts(c: bv32, n: nat): bv32 {
    if n == 0 then c else Shift(Shifts(c, n - 1))
  }

  function Absorb(c: bv32, b: Byte): bv32 {
    Shifts(Xor(c, Widen(b)), 8)
  }

  /** The register after absorbing the bytes. */
  function Register(c: bv32, bytes: Bytes): bv32 {
    if bytes == [] then c else Absorb(Register(c, bytes[..|bytes| - 1]), bytes[|bytes| - 1])
  }

  function Checksum(bytes: Bytes): bv32 {
    Complement(Register(START, bytes))
  }

  method Crc32c(bytes: Bytes) returns (checksum: bv32)
    ensures checksum == Checksum(bytes)
  {
    hide Widen;
    hide Shift;
    hide Xor;
    hide Complement;
    var crc := START;
    for i := 0 to |bytes|
      invariant crc == Register(START, bytes[..i])
    {
      assert bytes[..i + 1][..i] == bytes[..i];
      crc := Xor(crc, Widen(bytes[i]));
      ghost var mixed := crc;
      for k := 0 to 8
        invariant crc == Shifts(mixed, k)
      {
        crc := Shift(crc);
      }
    }
    assert bytes[..|bytes|] == bytes;
    return Complement(crc);
  }

  // ------------------------------------------------------------- bytes as bits

  lemma WidenIsSmall(b: Byte)
    ensures Widen(b) < 256
  {
    hide BitAt;
  }

  lemma BitsDiffer(a0: bool, a1: bool, a2: bool, a3: bool, a4: bool, a5: bool, a6: bool, a7: bool,
      b0: bool, b1: bool, b2: bool, b3: bool, b4: bool, b5: bool, b6: bool, b7: bool)
    requires Weigh(a0, a1, a2, a3, a4, a5, a6, a7) == Weigh(b0, b1, b2, b3, b4, b5, b6, b7)
    ensures a0 == b0 && a1 == b1 && a2 == b2 && a3 == b3 && a4 == b4 && a5 == b5 && a6 == b6 && a7 == b7
  {
  }

  lemma WidenedBits(a: Byte, b: Byte)
    requires Widen(a) == Widen(b)
    ensures forall k | 0 <= k < 8 :: BitAt(a, k) == BitAt(b, k)
  {
    hide BitAt;
    hide Weigh;
    BitsDiffer(BitAt(a, 0), BitAt(a, 1), BitAt(a, 2), BitAt(a, 3), BitAt(a, 4), BitAt(a, 5), BitAt(a, 6), BitAt(a, 7),
      BitAt(b, 0), BitAt(b, 1), BitAt(b, 2), BitAt(b, 3), BitAt(b, 4), BitAt(b, 5), BitAt(b, 6), BitAt(b, 7));
    hide Widen;
    forall k | 0 <= k < 8 ensures BitAt(a, k) == BitAt(b, k) {
      assert k == 0 || k == 1 || k == 2 || k == 3 || k == 4 || k == 5 || k == 6 || k == 7;
    }
  }

  lemma WidenInjective(a: Byte, b: Byte)
    requires Widen(a) == Widen(b)
    ensures a == b
  {
    hide BitAt;
    WidenedBits(a, b);
    hide Widen;
    assert Power(8) == 256 by {
      assert Power(4) == 16;
    }
    SameBits(a, b, 8);
  }

  // ------------------------------------------------- the step is linear and invertible

  lemma ShiftInjective(c: bv32, d: bv32)
    requires Shift(c) == Shift(d)
    ensures c == d
  {
  }

  /** Each register step is invertible. */
  lemma {:induction false} ShiftsInjective(c: bv32, d: bv32, n: nat)
    requires Shifts(c, n) == Shifts(d, n)
    ensures c == d
  {
    hide Shift;
    if n > 0 {
      ShiftInjective(Shifts(c, n - 1), Shifts(d, n - 1));
      ShiftsInjective(c, d, n - 1);
    }
  }

  lemma XorParts(c: bv32, d: bv32)
    ensures Half(Xor(c, d)) == Xor(Half(c), Half(d))
    ensures Odd(Xor(c, d)) <==> Odd(c) != Odd(d)
  {
    assert (c ^ d) & 1 == (c & 1) ^ (d & 1);
    assert c & 1 == 0 || c & 1 == 1;
    assert d & 1 == 0 || d & 1 == 1;
  }

  lemma XorAssociates(a: bv32, b: bv32, c: bv32)
    ensures Xor(Xor(a, b), c) == Xor(a, Xor(b, c))
  {
  }

  lemma XorCommutes(a: bv32, b: bv32)
    ensures Xor(a, b) == Xor(b, a)
  {
  }

  lemma XorCancels(a: bv32, b: bv32)
    ensures Xor(Xor(a, b), b) == a
  {
  }

  lemma ShiftLinear(c: bv32, d: bv32)
    ensures Shift(Xor(c, d)) == Xor(Shift(c), Shift(d))
  {
    hide Half;
    hide Odd;
    hide Xor;
    XorParts(c, d);
    var (a, b, p) := (Half(c), Half(d), POLYNOMIAL);
    XorAssociates(a, b, p);
    XorAssociates(a, p, b);
    XorCommutes(b, p);
    XorAssociates(Xor(a, p), b, p);
    XorCancels(Xor(a, b), p);
  }

  lemma {:induction false} ShiftsLinear(c: bv32, d: bv32, n: nat)
    ensures Shifts(Xor(c, d), n) == Xor(Shifts(c, n), Shifts(d, n))
  {
    hide Shift;
    hide Xor;
    if n > 0 {
      ShiftsLinear(c, d, n - 1);
      ShiftLinear(Shifts(c, n - 1), Shifts(d, n - 1));
    }
  }

  lemma HighShift(c: bv32, n: bv6)
    requires 1 <= n <= 8 && c < 0x0100_0000
    ensures Shift(c << n) == c << (n - 1)
  {
    assert (c << n) & 1 == 0 && (c << n) >> 1 == c << (n - 1);
  }

  lemma HighShifts(c: bv32)
    requires c < 0x0100_0000
    ensures Shift(Shift(Shift(Shift(Shift(Shift(Shift(Shift(Raise(c)))))))))  == c
  {
    HighShift(c, 8);
    HighShift(c, 7);
    HighShift(c, 6);
    HighShift(c, 5);
    HighShift(c, 4);
    HighShift(c, 3);
    HighShift(c, 2);
    HighShift(c, 1);
    hide Shift;
    assert c << 0 == c;
  }

  /** Eight steps bring a value back from one byte higher up. */
  lemma RaiseUndone(c: bv32)
    requires c < 0x0100_0000
    ensures Shifts(Raise(c), 8) == c
  {
    HighShifts(c);
    hide Shift;
    hide Raise;
    var r := Raise(c);
    assert Shifts(r, 1) == Shift(r) by {
      assert Shifts(r, 0) == r;
    }
    assert Shifts(r, 3) == Shift(Shift(Shift(r)));
    assert Shifts(r, 5) == Shift(Shift(Shifts(r, 3)));
    assert Shifts(r, 7) == Shift(Shift(Shifts(r, 5)));
  }

  // -------------------------------------------------------- differences of registers

  lemma Regroup(c: bv32, d: bv32, a: bv32, b: bv32)
    ensures Xor(Xor(c, a), Xor(d, b)) == Xor(Xor(c, d), Xor(a, b))
  {
    hide Xor;
    XorAssociates(c, a, Xor(d, b));
    XorAssociates(a, d, b);
    XorCommutes(a, d);
    XorAssociates(d, a, b);
    XorAssociates(c, d, Xor(a, b));
  }

  lemma XorSelf(c: bv32)
    ensures Xor(c, c) == 0
  {
  }

  lemma XorNothing(c: bv32)
    ensures Xor(0, c) == c
  {
  }

  lemma XorZero(c: bv32, d: bv32)
    ensures Xor(c, d) == 0 <==> c == d
  {
    XorSelf(d);
    XorNothing(d);
    XorCancels(c, d);
    hide Xor;
  }

  lemma XorMove(c: bv32, d: bv32, e: bv32)
    requires Xor(c, d) == e
    ensures c == Xor(e, d)
  {
  }

  /** What two registers differed by, from what they differ by one byte later. */
  lemma Backwards(c: bv32, d: bv32, a: Byte, b: Byte, later: bv32)
    requires Xor(Absorb(c, a), Absorb(d, b)) == later && later < 0x0100_0000
    ensures Xor(c, d) == Xor(Raise(later), Xor(Widen(a), Widen(b)))
  {
    hide Widen;
    hide Shifts;
    hide Xor;
    hide Raise;
    var (x, y) := (Xor(c, Widen(a)), Xor(d, Widen(b)));
    ShiftsLinear(x, y, 8);
    RaiseUndone(later);
    ShiftsInjective(Xor(x, y), Raise(later), 8);
    Regroup(c, d, Widen(a), Widen(b));
    XorMove(Xor(c, d), Xor(Widen(a), Widen(b)), Raise(later));
  }

  /** Four byte differences side by side vanish only when each one does. */
  lemma SideBySide(d0: bv32, d1: bv32, d2: bv32, d3: bv32)
    requires d0 < 256 && d1 < 256 && d2 < 256 && d3 < 256
    ensures Xor(Raise(0), d3) < 256
    ensures Xor(Raise(d3), d2) < 0x0001_0000
    ensures Xor(Raise(Xor(Raise(d3), d2)), d1) < 0x0100_0000
    ensures Xor(Raise(0), d3) == d3
    ensures Xor(Raise(Xor(Raise(Xor(Raise(d3), d2)), d1)), d0) == 0 ==> d0 == 0 && d1 == 0 && d2 == 0 && d3 == 0
  {
  }

  lemma Less(c: bv32)
    ensures c < 256 ==> c < 0x0001_0000
    ensures c < 0x0001_0000 ==> c < 0x0100_0000
  {
  }

  lemma ByteDifference(a: Byte, b: Byte)
    ensures Xor(Widen(a), Widen(b)) < 256
    ensures Xor(Widen(a), Widen(b)) == 0 ==> a == b
  {
    hide Widen;
    WidenIsSmall(a);
    WidenIsSmall(b);
    SmallXor(Widen(a), Widen(b));
    XorZero(Widen(a), Widen(b));
    hide Xor;
    if Widen(a) == Widen(b) {
      WidenInjective(a, b);
    }
  }

  lemma SmallXor(a: bv32, b: bv32)
    requires a < 256 && b < 256
    ensures Xor(a, b) < 256
  {
  }

  lemma AbsorbInjective(c: bv32, d: bv32, b: Byte)
    requires Absorb(c, b) == Absorb(d, b)
    ensures c == d
  {
    hide Widen;
    hide Shifts;
    hide Xor;
    ShiftsInjective(Xor(c, Widen(b)), Xor(d, Widen(b)), 8);
    SameXor(c, d, Widen(b));
  }

  lemma SameXor(c: bv32, d: bv32, w: bv32)
    requires Xor(c, w) == Xor(d, w)
    ensures c == d
  {
  }

  // -------------------------------------------------------------- whole strings

  lemma {:induction false} RegisterAppend(c: bv32, a: Bytes, b: Bytes)
    ensures Register(c, a + b) == Register(Register(c, a), b)
  {
    hide Absorb;
    if b == [] {
      assert a + b == a;
    } else {
      var n := |b| - 1;
      RegisterAppend(c, a, b[..n]);
      assert (a + b)[..|a + b| - 1] == a + b[..n] && (a + b)[|a + b| - 1] == b[n];
    }
  }

  lemma {:induction false} RegisterInjective(c: bv32, d: bv32, bytes: Bytes)
    requires Register(c, bytes) == Register(d, bytes)
    ensures c == d
  {
    hide Absorb;
    if bytes != [] {
      var n := |bytes| - 1;
      AbsorbInjective(Register(c, bytes[..n]), Register(d, bytes[..n]), bytes[n]);
      RegisterInjective(c, d, bytes[..n]);
    }
  }

  lemma RegisterFour(c: bv32, a: Bytes)
    requires |a| == 4
    ensures Register(c, a) == Absorb(Absorb(Absorb(Absorb(c, a[0]), a[1]), a[2]), a[3])
  {
    hide Absorb;
    var (a3, a2, a1) := (a[..3], a[..2], a[..1]);
    assert a3[..2] == a2 && a2[..1] == a1 && a1[..0] == [];
    assert Register(c, a1) == Absorb(Register(c, []), a[0]);
    assert Register(c, a2) == Absorb(Register(c, a1), a[1]);
    assert Register(c, a3) == Absorb(Register(c, a2), a[2]);
  }

  /** Four bytes enter the register bijectively. */
  lemma FourBytesInjective(c: bv32, a: Bytes, b: Bytes)
    requires |a| == |b| == 4 && Register(c, a) == Register(c, b)
    ensures a == b
  {
    RegisterFour(c, a);
    RegisterFour(c, b);
    hide Absorb;
    hide Register;
    FourAbsorbed(c, a[0], a[1], a[2], a[3], b[0], b[1], b[2], b[3]);
    assert a == [a[0], a[1], a[2], a[3]] == b;
  }

  lemma FourAbsorbed(c: bv32, a0: Byte, a1: Byte, a2: Byte, a3: Byte, b0: Byte, b1: Byte, b2: Byte, b3: Byte)
    requires Absorb(Absorb(Absorb(Absorb(c, a0), a1), a2), a3) == Absorb(Absorb(Absorb(Absorb(c, b0), b1), b2), b3)
    ensures a0 == b0 && a1 == b1 && a2 == b2 && a3 == b3
  {
    hide Absorb;
    hide Widen;
    hide Xor;
    hide Raise;
    var (x1, y1) := (Absorb(c, a0), Absorb(c, b0));
    var (x2, y2) := (Absorb(x1, a1), Absorb(y1, b1));
    var (x3, y3) := (Absorb(x2, a2), Absorb(y2, b2));
    var (d0, d1) := (Xor(Widen(a0), Widen(b0)), Xor(Widen(a1), Widen(b1)));
    var (d2, d3) := (Xor(Widen(a2), Widen(b2)), Xor(Widen(a3), Widen(b3)));
    ByteDifference(a0, b0);
    ByteDifference(a1, b1);
    ByteDifference(a2, b2);
    ByteDifference(a3, b3);
    SideBySide(d0, d1, d2, d3);
    XorZero(Absorb(x3, a3), Absorb(y3, b3));
    Less(0);
    Backwards(x3, y3, a3, b3, 0);
    Less(d3);
    Backwards(x2, y2, a2, b2, d3);
    Less(Xor(Raise(d3), d2));
    Backwards(x1, y1, a1, b1, Xor(Raise(d3), d2));
    Backwards(c, c, a0, b0, Xor(Raise(Xor(Raise(d3), d2)), d1));
    XorZero(c, c);
  }

  lemma SameComplement(c: bv32, d: bv32)
    requires Complement(c) == Complement(d)
    ensures c == d
  {
  }

  /** Bytes before, a changed run of four, and bytes after. */
  lemma ChangedRun(before: Bytes, a: Bytes, b: Bytes, after: Bytes)
    requires |a| == |b| == 4 && Checksum(before + a + after) == Checksum(before + b + after)
    ensures a == b
  {
    hide Complement;
    hide Register;
    var c := Register(START, before);
    RegisterAppend(START, before + a, after);
    RegisterAppend(START, before + b, after);
    RegisterAppend(START, before, a);
    RegisterAppend(START, before, b);
    SameComplement(Register(START, before + a + after), Register(START, before + b + after));
    RegisterInjective(Register(c, a), Register(c, b), after);
    FourBytesInjective(c, a, b);
  }

  /** Strings shorter than a run are padded; the register stays invertible. */
  lemma ShortStrings(x: Bytes, y: Bytes)
    requires |x| == |y| < 4 && Checksum(x) == Checksum(y)
    ensures x == y
  {
    hide Complement;
    hide Register;
    var pad: Bytes := seq(4 - |x|, i => 0);
    SameComplement(Register(START, x), Register(START, y));
    RegisterAppend(START, x, pad);
    RegisterAppend(START, y, pad);
    FourBytesInjective(START, x + pad, y + pad);
    assert x == (x + pad)[..|x|] == (y + pad)[..|y|] == y;
  }

  /**
   Burst detection: two different strings of one length whose differences all lie
   within four consecutive bytes never share a checksum.
   */
  lemma BurstsAreDetected(x: Bytes, y: Bytes, start: nat)
    requires |x| == |y| && x != y
    requires forall i :: 0 <= i < |x| && !(start <= i < start + 4) ==> x[i] == y[i]
    ensures Checksum(x) != Checksum(y)
  {
    hide Checksum;
    if Checksum(x) == Checksum(y) {
      if |x| < 4 {
        ShortStrings(x, y);
      } else {
        var s := if start + 4 <= |x| then start else |x| - 4;
        var (before, after) := (x[..s], x[s + 4..]);
        assert x == before + x[s..s + 4] + after;
        assert y == before + y[s..s + 4] + after;
        ChangedRun(before, x[s..s + 4], y[s..s + 4], after);
      }
      assert false;
    }
  }

  function Weight(n: nat, k: nat): nat {
    if BitAt(n, k) then 1 else 0
  }

  lemma FourBits(n: nat)
    ensures n == Weight(n, 0) + 2 * Weight(n, 1) + 4 * Weight(n, 2) + 8 * Weight(n, 3) + 16 * (n / 2 / 2 / 2 / 2)
  {
    BitsOf(n);
    hide BitAt;
  }

  /** A byte is the sum of its bits' weights. */
  lemma ByteIsItsBits(b: Byte)
    ensures b == Weight(b, 0) + 2 * Weight(b, 1) + 4 * Weight(b, 2) + 8 * Weight(b, 3)
                 + 16 * Weight(b, 4) + 32 * Weight(b, 5) + 64 * Weight(b, 6) + 128 * Weight(b, 7)
  {
    var high := b / 2 / 2 / 2 / 2;
    assert high < 16 && high / 2 / 2 / 2 / 2 == 0;
    FourBits(b);
    FourBits(high);
    HighBits(b);
    hide BitAt;
    assert Weight(b, 4) == Weight(high, 0) && Weight(b, 5) == Weight(high, 1) && Weight(b, 6) == Weight(high, 2) && Weight(b, 7) == Weight(high, 3);
    hide Weight;
  }

  /** Widening puts each bit of a byte in the place of its weight. */
  lemma WidenKeepsBits(b: Byte)
    ensures Odd(Halves(Widen(b), 0)) == BitAt(b, 0) && Odd(Halves(Widen(b), 1)) == BitAt(b, 1)
    ensures Odd(Halves(Widen(b), 2)) == BitAt(b, 2) && Odd(Halves(Widen(b), 3)) == BitAt(b, 3)
    ensures Odd(Halves(Widen(b), 4)) == BitAt(b, 4) && Odd(Halves(Widen(b), 5)) == BitAt(b, 5)
    ensures Odd(Halves(Widen(b), 6)) == BitAt(b, 6) && Odd(Halves(Widen(b), 7)) == BitAt(b, 7)
  {
    hide Weigh;
    hide BitAt;
    hide Halves;
    hide Odd;
    WeighedBits(BitAt(b, 0), BitAt(b, 1), BitAt(b, 2), BitAt(b, 3), BitAt(b, 4), BitAt(b, 5), BitAt(b, 6), BitAt(b, 7));
  }

  function Halves(c: bv32, n: nat): bv32 {
    if n == 0 then c else Half(Halves(c, n - 1))
  }

  lemma WeighedBits(b0: bool, b1: bool, b2: bool, b3: bool, b4: bool, b5: bool, b6: bool, b7: bool)
    ensures var w := Weigh(b0, b1, b2, b3, b4, b5, b6, b7);
            && Odd(Halves(w, 0)) == b0 && Odd(Halves(w, 1)) == b1 && Odd(Halves(w, 2)) == b2 && Odd(Halves(w, 3)) == b3
            && Odd(Halves(w, 4)) == b4 && Odd(Halves(w, 5)) == b5 && Odd(Halves(w, 6)) == b6 && Odd(Halves(w, 7)) == b7
  {
    var w := Weigh(b0, b1, b2, b3, b4, b5, b6, b7);
    HalvesUnfold(w);
    hide Halves;
  }

  lemma HalvesUnfold(w: bv32)
    ensures Halves(w, 0) == w && Halves(w, 1) == w >> 1 && Halves(w, 2) == w >> 2 && Halves(w, 3) == w >> 3
    ensures Halves(w, 4) == w >> 4 && Halves(w, 5) == w >> 5 && Halves(w, 6) == w >> 6 && Halves(w, 7) == w >> 7
  {
    assert Halves(w, 1) == w >> 1;
    assert Halves(w, 2) == w >> 2;
    assert Halves(w, 3) == w >> 3;
    assert Halves(w, 4) == w >> 4;
    assert Halves(w, 5) == w >> 5;
    assert Halves(w, 6) == w >> 6;
  }

  // ----------------------------------------------------------------- a known answer

  lemma Shifted(c0: bv32, c1: bv32, c2: bv32, c3: bv32, c4: bv32, c5: bv32, c6: bv32, c7: bv32, c8: bv32)
    requires Shift(c0) == c1 && Shift(c1) == c2 && Shift(c2) == c3 && Shift(c3) == c4
    requires Shift(c4) == c5 && Shift(c5) == c6 && Shift(c6) == c7 && Shift(c7) == c8
    ensures Shifts(c0, 8) == c8
  {
    hide Shift;
    assert Shifts(c0, 1) == c1 && Shifts(c0, 2) == c2 && Shifts(c0, 3) == c3 && Shifts(c0, 4) == c4;
    assert Shifts(c0, 5) == c5 && Shifts(c0, 6) == c6 && Shifts(c0, 7) == c7;
  }

  lemma BitsOf(n: nat)
    ensures (BitAt(n, 0) <==> n % 2 == 1) && (BitAt(n, 1) <==> n / 2 % 2 == 1)
    ensures (BitAt(n, 2) <==> n / 2 / 2 % 2 == 1) && (BitAt(n, 3) <==> n / 2 / 2 / 2 % 2 == 1)
  {
  }

  /** An ASCII digit has the bits 4 and 5 set, and below them those of its value. */
  lemma DigitWidens(value: nat, b0: bool, b1: bool, b2: bool, b3: bool)
    requires value < 10 && b0 == (value % 2 == 1) && b1 == (value / 2 % 2 == 1) && b2 == (value / 2 / 2 % 2 == 1) && b3 == (value / 2 / 2 / 2 % 2 == 1)
    ensures Widen(48 + value) == Weigh(b0, b1, b2, b3, true, true, false, false)
  {
    hide Weigh;
    var n := 48 + value;
    BitsOf(n);
    BitsOf(n / 2 / 2 / 2 / 2);
    assert n / 2 / 2 / 2 / 2 == 3;
    HighBits(n);
    hide BitAt;
  }

  lemma HighBits(n: nat)
    ensures var high := n / 2 / 2 / 2 / 2;
            (BitAt(n, 4) <==> BitAt(high, 0)) && (BitAt(n, 5) <==> BitAt(high, 1)) && (BitAt(n, 6) <==> BitAt(high, 2)) && (BitAt(n, 7) <==> BitAt(high, 3))
  {
    BitLower(n, 4);
    BitLower(n, 5);
    BitLower(n, 6);
    BitLower(n, 7);
  }

  lemma BitLower(n: nat, k: nat)
    requires k >= 4
    ensures BitAt(n, k) <==> BitAt(n / 2 / 2 / 2 / 2, k - 4)
  {
    assert BitAt(n, k) <==> BitAt(n / 2, k - 1);
    assert BitAt(n / 2, k - 1) <==> BitAt(n / 2 / 2, k - 2);
    assert BitAt(n / 2 / 2, k - 2) <==> BitAt(n / 2 / 2 / 2, k - 3);
  }

  lemma Digit1()
    ensures Absorb(0xffff_ffff, 0x31) == 0x6f0a_661c
  {
    DigitWidens(1, true, false, false, false);
    hide Widen;
    assert Xor(0xffff_ffff, Widen(0x31)) == 0xffff_ffce;
    Shifted(0xffff_ffce, 0x7fff_ffe7, 0xbd09_c48b, 0xdc72_d93d, 0xeccf_57e6,
            0x7667_abf3, 0xb9c5_ee81, 0xde14_cc38, 0x6f0a_661c);
  }

  lemma Digit2()
    ensures Absorb(0x6f0a_661c, 0x32) == 0x8caa_3b9f
  {
    DigitWidens(2, false, true, false, false);
    hide Widen;
    assert Xor(0x6f0a_661c, Widen(0x32)) == 0x6f0a_662e;
    Shifted(0x6f0a_662e, 0x3785_3317, 0x9934_a2f3, 0xce6c_6a01, 0xe5c0_0e78,
            0x72e0_073c, 0x3970_039e, 0x1cb8_01cf, 0x8caa_3b9f);
  }

  lemma Digit3()
    ensures Absorb(0x8caa_3b9f, 0x33) == 0xef84_d04d
  {
    DigitWidens(3, true, true, false, false);
    hide Widen;
    assert Xor(0x8caa_3b9f, Widen(0x33)) == 0x8caa_3bac;
    Shifted(0x8caa_3bac, 0x4655_1dd6, 0x232a_8eeb, 0x9363_7c0d, 0xcb47_857e,
            0x65a3_c2bf, 0xb027_da27, 0xdae5_d66b, 0xef84_d04d);
  }

  lemma Digit4()
    ensures Absorb(0xef84_d04d, 0x34) == 0x09c5_0b11
  {
    DigitWidens(4, false, false, true, false);
    hide Widen;
    assert Xor(0xef84_d04d, Widen(0x34)) == 0xef84_d079;
    Shifted(0xef84_d079, 0xf534_5344, 0x7a9a_29a2, 0x3d4d_14d1, 0x9c50_b110,
            0x4e28_5888, 0x2714_2c44, 0x138a_1622, 0x09c5_0b11);
  }

  lemma Digit5()
    ensures Absorb(0x09c5_0b11, 0x35) == 0xe72e_dcca
  {
    DigitWidens(5, true, false, true, false);
    hide Widen;
    assert Xor(0x09c5_0b11, Widen(0x35)) == 0x09c5_0b24;
    Shifted(0x09c5_0b24, 0x04e2_8592, 0x0271_42c9, 0x83ce_9a1c, 0x41e7_4d0e,
            0x20f3_a687, 0x928f_e83b, 0xcbb1_cf65, 0xe72e_dcca);
  }

  lemma Digit6()
    ensures Absorb(0xe72e_dcca, 0x36) == 0xbeca_8e79
  {
    DigitWidens(6, false, true, true, false);
    hide Widen;
    assert Xor(0xe72e_dcca, Widen(0x36)) == 0xe72e_dcfc;
    Shifted(0xe72e_dcfc, 0x7397_6e7e, 0x39cb_b73f, 0x9e13_e0e7, 0xcdff_cb0b,
            0xe409_defd, 0xf0f2_d406, 0x7879_6a03, 0xbeca_8e79);
  }

  lemma Digit7()
    ensures Absorb(0xbeca_8e79, 0x37) == 0xedbd_6815
  {
    DigitWidens(7, true, true, true, false);
    hide Widen;
    assert Xor(0xbeca_8e79, Widen(0x37)) == 0xbeca_8e4e;
    Shifted(0xbeca_8e4e, 0x5f65_4727, 0xad44_98eb, 0xd454_770d, 0xe8dc_00fe,
            0x746e_007f, 0xb8c1_3b47, 0xde96_a6db, 0xedbd_6815);
  }

  lemma Digit8()
    ensures Absorb(0xedbd_6815, 0x38) == 0x9f78_7f65
  {
    DigitWidens(8, false, false, false, true);
    hide Widen;
    assert Xor(0xedbd_6815, Widen(0x38)) == 0xedbd_682d;
    Shifted(0xedbd_682d, 0xf428_8f6e, 0x7a14_47b7, 0xbffc_18a3, 0xdd08_3729,
            0xec72_20ec, 0x7639_1076, 0x3b1c_883b, 0x9f78_7f65);
  }

  lemma Digit9()
    ensures Absorb(0x9f78_7f65, 0x39) == 0x1cf9_6d7c
  {
    DigitWidens(9, true, false, false, true);
    hide Widen;
    assert Xor(0x9f78_7f65, Widen(0x39)) == 0x9f78_7f5c;
    Shifted(0x9f78_7f5c, 0x4fbc_3fae, 0x27de_1fd7, 0x9119_3493, 0xca7a_a131,
            0xe7cb_6be0, 0x73e5_b5f0, 0x39f2_daf8, 0x1cf9_6d7c);
  }

  lemma RegisterSnoc(bytes: Bytes, b: Byte)
    ensures Register(START, bytes + [b]) == Absorb(Register(START, bytes), b)
  {
    assert (bytes + [b])[..|bytes|] == bytes;
  }

  /** The nine ASCII digits 1 to 9. */
  const DIGITS: Bytes := [0x31, 0x32, 0x33, 0x34, 0x35, 0x36, 0x37, 0x38, 0x39]

  /** The check value of CRC-32C, which tells it from every other choice of polynomial, start and complement in use. */
  lemma CheckValue()
    ensures Checksum(DIGITS) == 0xe306_9283
  {
    Digit1();
    Digit2();
    Digit3();
    Digit4();
    Digit5();
    Digit6();
    Digit7();
    Digit8();
    Digit9();
    hide Absorb;
    RegisterSnoc([], 0x31);
    assert DIGITS[..0] + [DIGITS[0]] == DIGITS[..1];
    RegisterSnoc(DIGITS[..0], DIGITS[0]);
    assert DIGITS[..1] + [DIGITS[1]] == DIGITS[..2];
    RegisterSnoc(DIGITS[..1], DIGITS[1]);
    assert DIGITS[..2] + [DIGITS[2]] == DIGITS[..3];
    RegisterSnoc(DIGITS[..2], DIGITS[2]);
    assert DIGITS[..3] + [DIGITS[3]] == DIGITS[..4];
    RegisterSnoc(DIGITS[..3], DIGITS[3]);
    assert DIGITS[..4] + [DIGITS[4]] == DIGITS[..5];
    RegisterSnoc(DIGITS[..4], DIGITS[4]);
    assert DIGITS[..5] + [DIGITS[5]] == DIGITS[..6];
    RegisterSnoc(DIGITS[..5], DIGITS[5]);
    assert DIGITS[..6] + [DIGITS[6]] == DIGITS[..7];
    RegisterSnoc(DIGITS[..6], DIGITS[6]);
    assert DIGITS[..7] + [DIGITS[7]] == DIGITS[..8];
    RegisterSnoc(DIGITS[..7], DIGITS[7]);
    assert DIGITS[..8] + [DIGITS[8]] == DIGITS[..9];
    RegisterSnoc(DIGITS[..8], DIGITS[8]);
    assert DIGITS[..9] == DIGITS;
    assert Complement(0x1cf9_6d7c) == 0xe306_9283;
  }
}
