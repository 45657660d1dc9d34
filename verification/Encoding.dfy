/**
 The integer encodings of the store: little-endian numbers of fixed width, and
 canonical ULEB128 (section 7.6 of DWARF 4, with the shortest form required).
 A decoder returns its value with the bytes that follow it; None is corruption.
 */
module Encoding {
  import opened Prelude

  datatype Parsed<+T> = Parsed(value: T, rest: Bytes)

  const U16 := 0x1_0000
  const U32 := 0x1_0000_0000
  const U64 := 0x1_0000_0000_0000_0000

  // ------------------------------------------------------- fixed-width numbers

  function Range(width: nat): (bound: nat)
    ensures bound > 0
  {
    if width == 0 then 1 else 256 * Range(width - 1)
  }

  lemma Ranges()
    ensures Range(1) == 256 && Range(2) == U16 && Range(4) == U32 && Range(8) == U64
  {
    assert Range(3) == 256 * Range(2);
    assert Range(5) == 256 * Range(4);
    assert Range(6) == 256 * Range(5);
    assert Range(7) == 256 * Range(6);
  }

  function Little(n: nat, width: nat): (bytes: Bytes)
    ensures |bytes| == width
  {
    if width == 0 then [] else [n % 256] + Little(n / 256, width - 1)
  }

  function Number(bytes: Bytes): nat {
    if bytes == [] then 0 else bytes[0] + 256 * Number(bytes[1..])
  }

  function TakeNumber(bytes: Bytes, width: nat): Option<Parsed<nat>> {
    if |bytes| < width then None else Some(Parsed(Number(bytes[..width]), bytes[width..]))
  }

  lemma {:induction false} NumberOfLittle(n: nat, width: nat)
    requires n < Range(width)
    ensures Number(Little(n, width)) == n
  {
    if width > 0 {
      NumberOfLittle(n / 256, width - 1);
      assert Little(n, width)[1..] == Little(n / 256, width - 1);
    }
  }

  lemma LowByte(low: Byte, high: nat)
    ensures (low + 256 * high) % 256 == low && (low + 256 * high) / 256 == high
  {
  }

  lemma {:induction false} LittleOfNumber(bytes: Bytes)
    ensures Number(bytes) < Range(|bytes|) && Little(Number(bytes), |bytes|) == bytes
  {
    if bytes != [] {
      LittleOfNumber(bytes[1..]);
      LowByte(bytes[0], Number(bytes[1..]));
      assert Number(bytes) == bytes[0] + 256 * Number(bytes[1..]);
      hide Number;
      assert bytes == [bytes[0]] + bytes[1..];
    }
  }

  /** Fixed-width numbers and byte strings of that width are in bijection. */
  lemma FixedWidthRoundTrip(n: nat, width: nat, rest: Bytes)
    requires n < Range(width)
    ensures TakeNumber(Little(n, width) + rest, width) == Some(Parsed(n, rest))
  {
    NumberOfLittle(n, width);
    assert (Little(n, width) + rest)[..width] == Little(n, width);
    assert (Little(n, width) + rest)[width..] == rest;
  }

  lemma FixedWidthCanonical(bytes: Bytes, width: nat)
    requires TakeNumber(bytes, width).Some?
    ensures var p := TakeNumber(bytes, width).value; p.value < Range(width) && bytes == Little(p.value, width) + p.rest
  {
    LittleOfNumber(bytes[..width]);
  }

  // --------------------------------------------------------------- two's complement

  function Unsigned(n: int, modulus: nat): nat
    requires 0 < modulus && -(modulus as int) <= n
  {
    if n < 0 then n + modulus else n
  }

  function Signed(n: nat, modulus: nat): int {
    if 2 * n < modulus then n else n - modulus
  }

  lemma TwosComplement(n: int, modulus: nat)
    requires modulus % 2 == 0 && -(modulus as int) <= 2 * n < modulus
    ensures Unsigned(n, modulus) < modulus && Signed(Unsigned(n, modulus), modulus) == n
  {
  }

  // ----------------------------------------------------------------------- ULEB128

  function Uleb(n: nat): (bytes: Bytes)
    ensures bytes != []
  {
    if n < 128 then [n] else [n % 128 + 128] + Uleb(n / 128)
  }

  /** Exclusive bound on what byte number index and its successors can still carry into 64 bits. */
  function Room(index: nat): nat
    decreases 10 - index
  {
    if index >= 10 then 0 else if index == 9 then 2 else 128 * Room(index + 1)
  }

  lemma RoomIs64Bits()
    ensures Room(0) == U64
  {
    assert Room(7) == 128 * Room(8) && Room(8) == 128 * Room(9);
    assert Room(5) == 128 * Room(6) && Room(6) == 128 * Room(7);
    assert Room(3) == 128 * Room(4) && Room(4) == 128 * Room(5);
    assert Room(1) == 128 * Room(2) && Room(2) == 128 * Room(3);
  }

  /** What the bytes from position index of an encoding carry, below the bits already read. */
  function TakeUlebFrom(bytes: Bytes, index: nat): Option<Parsed<nat>>
    requires index <= 10
    decreases 10 - index
  {
    if index == 10 || bytes == [] then None
    else
      var part := bytes[0] % 128;
      if index == 9 && part > 1 then None
      else if bytes[0] < 128 then
        if index > 0 && bytes[0] == 0 then None else Some(Parsed(part, bytes[1..]))
      else match TakeUlebFrom(bytes[1..], index + 1) {
        case Some(high) => Some(Parsed(part + 128 * high.value, high.rest))
        case None => None
      }
  }

  function TakeUleb(bytes: Bytes): Option<Parsed<nat>> {
    TakeUlebFrom(bytes, 0)
  }

  lemma UlebUnfolds(n: nat)
    ensures Uleb(n) == if n < 128 then [n] else [n % 128 + 128] + Uleb(n / 128)
  {
  }

  lemma RoomBelow(n: nat, index: nat)
    requires 128 <= n < Room(index)
    ensures index < 9 && n / 128 < Room(index + 1) && n / 128 > 0
    ensures (n % 128 + 128) % 128 == n % 128 && n % 128 + 128 * (n / 128) == n
  {
  }

  lemma {:induction false} UlebReads(n: nat, index: nat, rest: Bytes)
    requires index < 10 && n < Room(index) && (index > 0 ==> n > 0)
    ensures TakeUlebFrom(Uleb(n) + rest, index) == Some(Parsed(n, rest))
    decreases n
  {
    hide Uleb;
    var bytes := Uleb(n) + rest;
    UlebUnfolds(n);
    if n < 128 {
      assert bytes[1..] == rest;
    } else {
      RoomBelow(n, index);
      hide Room;
      assert bytes[1..] == Uleb(n / 128) + rest;
      UlebReads(n / 128, index + 1, rest);
    }
  }

  lemma UlebOneMore(part: nat, high: nat)
    requires part < 128 && high > 0
    ensures Uleb(part + 128 * high) == [part + 128] + Uleb(high)
  {
    assert (part + 128 * high) / 128 == high && (part + 128 * high) % 128 == part;
  }

  lemma UlebIsShort(byte: Byte, index: nat)
    requires byte < 128 && index < 10 && (index == 9 ==> byte < 2)
    ensures Uleb(byte) == [byte] && byte < Room(index)
  {
    RoomGrows(index);
  }

  lemma {:induction false} RoomGrows(index: nat)
    requires index < 10
    ensures Room(index) >= (if index == 9 then 2 else 128)
    decreases 10 - index
  {
    if index < 9 {
      RoomGrows(index + 1);
    }
  }

  lemma {:induction false} UlebIsCanonical(bytes: Bytes, index: nat)
    requires index <= 10 && TakeUlebFrom(bytes, index).Some?
    ensures var p := TakeUlebFrom(bytes, index).value;
            p.value < Room(index) && (index > 0 ==> p.value > 0) && bytes == Uleb(p.value) + p.rest
    decreases 10 - index
  {
    hide Uleb;
    assert bytes == [bytes[0]] + bytes[1..];
    if bytes[0] >= 128 {
      UlebIsCanonical(bytes[1..], index + 1);
      var high := TakeUlebFrom(bytes[1..], index + 1).value;
      UlebOneMore(bytes[0] % 128, high.value);
    } else {
      UlebIsShort(bytes[0], index);
    }
  }

  /** Canonical ULEB128 is a bijection between 64-bit numbers and accepted byte strings. */
  lemma UlebBijection(n: nat, rest: Bytes, bytes: Bytes)
    requires n < U64
    ensures TakeUleb(bytes) == Some(Parsed(n, rest)) <==> bytes == Uleb(n) + rest
  {
    RoomIs64Bits();
    UlebReads(n, 0, rest);
    if TakeUleb(bytes).Some? {
      UlebIsCanonical(bytes, 0);
    }
  }

  lemma UlebBound(bytes: Bytes)
    requires TakeUleb(bytes).Some?
    ensures TakeUleb(bytes).value.value < U64 && bytes == Uleb(TakeUleb(bytes).value.value) + TakeUleb(bytes).value.rest
  {
    RoomIs64Bits();
    UlebIsCanonical(bytes, 0);
  }

  // --------------------------------------------------------------------- the loops

  method EncodeUleb128(number: nat) returns (target: Bytes)
    ensures target == Uleb(number)
  {
    var value := number;
    target := [];
    while true
      invariant target + Uleb(value) == Uleb(number)
      decreases value
    {
      var byte: Byte := value % 128;
      value := value / 128;
      if value != 0 {
        byte := byte + 128;
      }
      target := target + [byte];
      if value == 0 {
        break;
      }
    }
  }

  /** A part shifted left by seven bits for each byte before it. */
  function Place(part: nat, index: nat): nat {
    if index == 0 then part else 128 * Place(part, index - 1)
  }

  lemma {:induction false} PlaceSum(part: nat, high: nat, index: nat)
    ensures Place(part + 128 * high, index) == Place(part, index) + Place(high, index + 1)
  {
    if index > 0 {
      PlaceSum(part, high, index - 1);
    } else {
      assert Place(high, 1) == 128 * Place(high, 0);
    }
  }

  function Joined(value: nat, index: nat, high: Option<Parsed<nat>>): Option<Parsed<nat>> {
    match high
    case Some(p) => Some(Parsed(value + Place(p.value, index), p.rest))
    case None => None
  }

  /** A loop has read this value, and what the rest of the encoding carries goes above it. */
  predicate Pending(bytes: Bytes, value: nat, index: nat)
    requires index <= 10 && index <= |bytes|
  {
    TakeUleb(bytes) == Joined(value, index, TakeUlebFrom(bytes[index..], index))
  }

  /** Seven bits below what is decoded behind them. */
  function Raised(part: nat, high: Option<Parsed<nat>>): Option<Parsed<nat>> {
    match high
    case Some(p) => Some(Parsed(part + 128 * p.value, p.rest))
    case None => None
  }

  /** What decoding from a place on makes of the byte there. */
  lemma TakeStep(bytes: Bytes, index: nat)
    requires index < 10 && index < |bytes|
    ensures var part := bytes[index] % 128;
            TakeUlebFrom(bytes[index..], index) ==
            if index == 9 && part > 1 then None
            else if bytes[index] < 128 then (if index > 0 && bytes[index] == 0 then None else Some(Parsed(part, bytes[index + 1..])))
            else Raised(part, TakeUlebFrom(bytes[index + 1..], index + 1))
  {
    assert bytes[index..][0] == bytes[index] && bytes[index..][1..] == bytes[index + 1..];
  }

  lemma JoinedRaised(value: nat, part: nat, index: nat, high: Option<Parsed<nat>>)
    ensures Joined(value, index, Raised(part, high)) == Joined(value + Place(part, index), index + 1, high)
  {
    if high.Some? {
      PlaceSum(part, high.value.value, index);
    }
    hide Place;
  }

  lemma PendingStep(bytes: Bytes, value: nat, index: nat)
    requires index < 10 && index < |bytes| && Pending(bytes, value, index)
    ensures index == 9 && bytes[index] % 128 > 1 ==> TakeUleb(bytes).None?
    ensures !(index == 9 && bytes[index] % 128 > 1) && bytes[index] < 128 ==>
              TakeUleb(bytes) == (if index > 0 && bytes[index] == 0 then None
                                  else Some(Parsed(value + Place(bytes[index] % 128, index), bytes[index + 1..])))
    ensures !(index == 9 && bytes[index] % 128 > 1) && bytes[index] >= 128 ==>
              Pending(bytes, value + Place(bytes[index] % 128, index), index + 1)
  {
    var part := bytes[index] % 128;
    TakeStep(bytes, index);
    JoinedRaised(value, part, index, TakeUlebFrom(bytes[index + 1..], index + 1));
    hide Place;
    hide Raised;
    hide TakeUlebFrom;
  }

  lemma PendingEnds(bytes: Bytes, value: nat)
    requires |bytes| >= 10 && Pending(bytes, value, 10)
    ensures TakeUleb(bytes).None?
  {
  }

  lemma PendingRunsOut(bytes: Bytes, value: nat, index: nat)
    requires index <= 10 && index == |bytes| && Pending(bytes, value, index)
    ensures TakeUleb(bytes).None?
  {
  }

  lemma PendingStart(bytes: Bytes)
    ensures Pending(bytes, 0, 0)
  {
    assert bytes[0..] == bytes;
  }

  /**
   Decoding from a slice: the parts are disjoint bits, so joining one is an addition,
   and the last part is checked before it could be cut off at 64 bits.
   */
  method DecodeUleb128(bytes: Bytes, start: nat) returns (decoded: Option<(nat, nat)>)
    requires start <= |bytes|
    ensures match TakeUleb(bytes[start..]) {
              case None => decoded.None?
              case Some(p) => decoded.Some? && decoded.value.0 == p.value && start < decoded.value.1 <= |bytes| && bytes[decoded.value.1..] == p.rest
            }
  {
    hide Place;
    hide Pending;
    hide TakeUlebFrom;
    var cursor := start;
    var value: nat := 0;
    ghost var slice := bytes[start..];
    PendingStart(slice);
    for index := 0 to 10
      invariant cursor == start + index <= |bytes|
      invariant Pending(slice, value, index)
    {
      if cursor == |bytes| {
        PendingRunsOut(slice, value, index);
        return None;
      }
      assert slice[index] == bytes[cursor] && slice[index + 1..] == bytes[cursor + 1..];
      PendingStep(slice, value, index);
      var byte := bytes[cursor];
      cursor := cursor + 1;
      var part := byte % 128;
      if index == 9 && part > 1 {
        return None;
      }
      value := value + Place(part, index);
      if byte < 128 {
        if cursor - start > 1 && byte == 0 {
          return None;
        }
        return Some((value, cursor));
      }
    }
    PendingEnds(slice, value);
    return None;
  }

  /** A log file being read from front to back. */
  class Source {
    const bytes: Bytes
    var position: nat

    constructor (bytes: Bytes)
      ensures this.bytes == bytes && position == 0
    {
      this.bytes := bytes;
      position := 0;
    }

    ghost function Remaining(): Bytes
      requires position <= |bytes|
      reads this
    {
      bytes[position..]
    }

    /** Reads exactly so many bytes, or fails at the end of the file. */
    method ReadExact(count: nat) returns (read: Option<Bytes>)
      requires position <= |bytes|
      modifies this
      ensures position <= |bytes|
      ensures read.Some? <==> |old(Remaining())| >= count
      ensures read.Some? ==> position == old(position) + count && read.value == bytes[old(position)..position]
    {
      if |bytes| - position < count {
        position := |bytes|;
        return None;
      }
      read := Some(bytes[position..position + count]);
      position := position + count;
    }
  }

  /** Decoding from a stream, keeping the raw bytes for the checksum. */
  method ReadUleb128(source: Source) returns (decoded: Option<nat>, framed: Bytes)
    requires source.position <= |source.bytes|
    modifies source
    ensures source.position <= |source.bytes|
    ensures match TakeUleb(old(source.Remaining())) {
              case None => decoded.None?
              case Some(p) =>
                && decoded == Some(p.value) && source.Remaining() == p.rest
                && source.position == old(source.position) + |framed| && framed == source.bytes[old(source.position)..source.position]
            }
  {
    hide Place;
    hide Pending;
    hide TakeUlebFrom;
    var value: nat := 0;
    framed := [];
    hide Uleb;
    ghost var start := source.position;
    ghost var all := source.bytes[start..];
    PendingStart(all);
    for index := 0 to 10
      invariant source.position == start + index <= |source.bytes| && framed == source.bytes[start..start + index]
      invariant Pending(all, value, index)
    {
      var read := source.ReadExact(1);
      if read.None? {
        PendingRunsOut(all, value, index);
        return None, framed;
      }
      var byte := read.value[0];
      assert all[index] == byte && all[index + 1..] == source.bytes[start + index + 1..];
      assert source.bytes[start..start + index + 1] == source.bytes[start..start + index] + [byte];
      PendingStep(all, value, index);
      framed := framed + [byte];
      var part := byte % 128;
      if index == 9 && part > 1 {
        return None, framed;
      }
      value := value + Place(part, index);
      if byte < 128 {
        if index > 0 && byte == 0 {
          return None, framed;
        }
        return Some(value), framed;
      }
    }
    PendingEnds(all, value);
    return None, framed;
  }

  // ------------------------------------------------------------------- byte strings

  function Blob(bytes: Bytes): Bytes {
    Uleb(|bytes|) + bytes
  }

  function TakeBlob(bytes: Bytes): Option<Parsed<Bytes>> {
    match TakeUleb(bytes)
    case None => None
    case Some(p) => if |p.rest| < p.value then None else Some(Parsed(p.rest[..p.value], p.rest[p.value..]))
  }

  /** A length-prefixed string reads back exactly when it was written so. */
  lemma BlobBijection(blob: Bytes, rest: Bytes, bytes: Bytes)
    requires |blob| < U64
    ensures TakeBlob(bytes) == Some(Parsed(blob, rest)) <==> bytes == Blob(blob) + rest
  {
    if bytes == Blob(blob) + rest {
      assert bytes == Uleb(|blob|) + (blob + rest);
      UlebBijection(|blob|, blob + rest, bytes);
    }
    if TakeBlob(bytes) == Some(Parsed(blob, rest)) {
      UlebBound(bytes);
      assert bytes == Uleb(|blob|) + (blob + rest);
    }
  }

  lemma BlobBound(bytes: Bytes)
    requires TakeBlob(bytes).Some?
    ensures |TakeBlob(bytes).value.value| < U64 && bytes == Blob(TakeBlob(bytes).value.value) + TakeBlob(bytes).value.rest
  {
    UlebBound(bytes);
    BlobBijection(TakeBlob(bytes).value.value, TakeBlob(bytes).value.rest, bytes);
  }
}
