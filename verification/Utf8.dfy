/** UTF-8, whose accepted byte strings are in bijection with strings of scalar values. */
module Utf8 {
  import opened Prelude

  datatype Next = Next(scalar: char, width: nat)

  /** A continuation byte carries six bits. */
  function Six(n: nat): Byte {
    0x80 + n % 64
  }

  function EncodeChar(c: char): (bytes: Bytes)
    ensures bytes != []
  {
    var n: nat := c as int;
    if n < 0x80 then [n]
    else if n < 0x800 then [0xc0 + n / 64, Six(n)]
    else if n < 0x1_0000 then [0xe0 + n / 64 / 64, Six(n / 64), Six(n)]
    else [0xf0 + n / 64 / 64 / 64, Six(n / 64 / 64), Six(n / 64), Six(n)]
  }

  predicate Continues(bytes: Bytes, from: nat, to: nat)
    requires from <= to
  {
    to <= |bytes| && forall i :: from <= i < to ==> 0x80 <= bytes[i] < 0xc0
  }

  function Joined(high: nat, b: Byte): nat
    requires 0x80 <= b
  {
    64 * high + (b as int - 0x80)
  }

  predicate IsScalar(n: int) {
    0 <= n < 0xd800 || 0xe000 <= n < 0x11_0000
  }

  /** The shortest form only, no surrogates, nothing past the last code point. */
  function TakeChar(bytes: Bytes): Option<Next>
    requires bytes != []
  {
    var lead: nat := bytes[0];
    if lead < 0x80 then Some(Next(lead as char, 1))
    else if 0xc0 <= lead < 0xe0 && Continues(bytes, 1, 2) then
      var n := Joined(lead - 0xc0, bytes[1]);
      if n < 0x80 then None else Some(Next(n as char, 2))
    else if 0xe0 <= lead < 0xf0 && Continues(bytes, 1, 3) then
      var n := Joined(Joined(lead - 0xe0, bytes[1]), bytes[2]);
      if n < 0x800 || !IsScalar(n) then None else Some(Next(n as char, 3))
    else if 0xf0 <= lead < 0xf8 && Continues(bytes, 1, 4) then
      var n := Joined(Joined(Joined(lead - 0xf0, bytes[1]), bytes[2]), bytes[3]);
      if n < 0x1_0000 || !IsScalar(n) then None else Some(Next(n as char, 4))
    else None
  }

  function Encode(text: string): Bytes {
    if text == "" then [] else EncodeChar(text[0]) + Encode(text[1..])
  }

  function Decode(bytes: Bytes): Option<string> {
    if bytes == [] then Some("")
    else
      var next :- TakeChar(bytes);
      var rest :- Decode(bytes[next.width..]);
      Some([next.scalar] + rest)
  }

  lemma SplitJoined(high: nat, b: Byte)
    requires 0x80 <= b < 0xc0
    ensures Joined(high, b) / 64 == high && Six(Joined(high, b)) == b
  {
  }

  lemma JoinSplit(n: nat)
    ensures 0x80 <= Six(n) < 0xc0 && Joined(n / 64, Six(n)) == n
  {
  }

  lemma TakeEncoded(c: char, rest: Bytes)
    ensures TakeChar(EncodeChar(c) + rest) == Some(Next(c, |EncodeChar(c)|))
  {
    var n: nat := c as int;
    var bytes := EncodeChar(c) + rest;
    JoinSplit(n);
    JoinSplit(n / 64);
    JoinSplit(n / 64 / 64);
    EncodedLead(n);
    hide Six;
    hide Joined;
    if 0x80 <= n < 0x800 {
      assert bytes[0] == 0xc0 + n / 64 && bytes[1] == Six(n);
    } else if 0x800 <= n < 0x1_0000 {
      assert bytes[0] == 0xe0 + n / 64 / 64 && bytes[1] == Six(n / 64) && bytes[2] == Six(n);
    } else if 0x1_0000 <= n {
      assert bytes[0] == 0xf0 + n / 64 / 64 / 64 && bytes[1] == Six(n / 64 / 64) && bytes[2] == Six(n / 64) && bytes[3] == Six(n);
    }
  }

  lemma EncodedLead(n: nat)
    ensures n < 0x800 ==> n / 64 < 0x20
    ensures n < 0x1_0000 ==> n / 64 / 64 < 0x10
    ensures n < 0x11_0000 ==> n / 64 / 64 / 64 < 8
  {
  }

  lemma EncodeTaken(bytes: Bytes)
    requires bytes != [] && TakeChar(bytes).Some?
    ensures var next := TakeChar(bytes).value; next.width <= |bytes| && bytes[..next.width] == EncodeChar(next.scalar)
  {
    var next := TakeChar(bytes).value;
    var lead: nat := bytes[0];
    if next.width == 2 {
      SplitJoined(lead - 0xc0, bytes[1]);
      TwoBytes(Joined(lead - 0xc0, bytes[1]));
    } else if next.width == 3 {
      SplitJoined(lead - 0xe0, bytes[1]);
      SplitJoined(Joined(lead - 0xe0, bytes[1]), bytes[2]);
    } else if next.width == 4 {
      SplitJoined(lead - 0xf0, bytes[1]);
      SplitJoined(Joined(lead - 0xf0, bytes[1]), bytes[2]);
      SplitJoined(Joined(Joined(lead - 0xf0, bytes[1]), bytes[2]), bytes[3]);
    }
    JoinedBounds(bytes);
    hide Joined;
    hide Six;
  }

  lemma TwoBytes(n: nat)
    ensures n / 64 < 0x20 <==> n < 0x800
  {
  }

  /** Each form reaches no further than the next longer one starts. */
  lemma JoinedBounds(bytes: Bytes)
    requires bytes != []
    ensures 0xc0 <= bytes[0] < 0xe0 && Continues(bytes, 1, 2) ==> Joined(bytes[0] - 0xc0, bytes[1]) < 0x800
    ensures 0xe0 <= bytes[0] < 0xf0 && Continues(bytes, 1, 3) ==> Joined(Joined(bytes[0] - 0xe0, bytes[1]), bytes[2]) < 0x1_0000
  {
  }

  lemma {:induction false} DecodeEncoded(text: string)
    ensures Decode(Encode(text)) == Some(text)
  {
    hide EncodeChar;
    hide TakeChar;
    if text != "" {
      TakeEncoded(text[0], Encode(text[1..]));
      assert Encode(text)[|EncodeChar(text[0])|..] == Encode(text[1..]);
      DecodeEncoded(text[1..]);
      assert text == [text[0]] + text[1..];
    }
  }

  lemma {:induction false} EncodeDecoded(bytes: Bytes)
    requires Decode(bytes).Some?
    ensures Encode(Decode(bytes).value) == bytes
    decreases |bytes|
  {
    hide EncodeChar;
    hide TakeChar;
    if bytes != [] {
      EncodeTaken(bytes);
      TakenWidth(bytes);
      var next := TakeChar(bytes).value;
      EncodeDecoded(bytes[next.width..]);
      var text := Decode(bytes).value;
      assert text[1..] == Decode(bytes[next.width..]).value;
      assert bytes == bytes[..next.width] + bytes[next.width..];
    }
  }

  lemma TakenWidth(bytes: Bytes)
    requires bytes != [] && TakeChar(bytes).Some?
    ensures 0 < TakeChar(bytes).value.width <= |bytes|
  {
  }

  /** A byte string decodes to a text exactly when it is that text's encoding. */
  lemma Utf8Bijection(text: string, bytes: Bytes)
    ensures Decode(bytes) == Some(text) <==> bytes == Encode(text)
  {
    DecodeEncoded(text);
    if Decode(bytes) == Some(text) {
      EncodeDecoded(bytes);
    }
  }
}
