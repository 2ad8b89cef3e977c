/**
 * The hand-written UTF-8 decoder, and the encodings of RFC 3629 and RFC 2781 as its reference.
 */
module Utf8 {
  import opened Base64
  import opened Text

  /** A Unicode scalar value: any code point but the surrogates. */
  type Scalar = v: int | 0 <= v < 0xd800 || 0xe000 <= v < 0x11_0000

  /** Section 3 of RFC 3629. */
  function Utf8Of(v: Scalar): (b: seq<Byte>)
    ensures 1 <= |b| <= 4
  {
    if v < 0x80 then [v]
    else if v < 0x800 then [0xc0 + v / 64, 0x80 + v % 64]
    else if v < 0x1_0000 then [0xe0 + v / 4096, 0x80 + v / 64 % 64, 0x80 + v % 64]
    else [0xf0 + v / 0x4_0000, 0x80 + v / 4096 % 64, 0x80 + v / 64 % 64, 0x80 + v % 64]
  }

  /** Section 2.1 of RFC 2781. */
  function Utf16Of(v: Scalar): Text {
    if v < 0x1_0000 then [v]
    else [0xd800 + (v - 0x1_0000) / 0x400, 0xdc00 + (v - 0x1_0000) % 0x400]
  }

  function Utf8Bytes(vs: seq<Scalar>): seq<Byte> {
    if vs == [] then [] else Utf8Of(vs[0]) + Utf8Bytes(vs[1..])
  }

  function Utf16(vs: seq<Scalar>): Text {
    if vs == [] then [] else Utf16Of(vs[0]) + Utf16(vs[1..])
  }

  // --- the decoder ---------------------------------------------------------

  /** An element read past the end is undefined, which the bitwise operators take as 0. */
  function At(b: seq<Byte>, i: nat): Byte {
    if i < |b| then b[i] else 0
  }

  /** How many bytes the character that starts with `b1` takes; a stray continuation byte takes four. */
  function Width(b1: Byte): nat {
    if b1 < 0x80 then 1 else if 0xc0 <= b1 < 0xe0 then 2 else if 0xe0 <= b1 < 0xf0 then 3 else 4
  }

  function Two(b1: Byte, b2: Byte): CodeUnit {
    b1 % 32 * 64 + b2 % 64
  }

  function Three(b1: Byte, b2: Byte, b3: Byte): CodeUnit {
    b1 % 16 * 4096 + b2 % 64 * 64 + b3 % 64
  }

  /** A surrogate pair, by the formula for code points from 0x10000 on whatever the bytes are. */
  function Pair(codePoint: nat): Text
    requires codePoint < 0x20_0000
  {
    var offset := codePoint - 0x1_0000;
    [0xd800 + offset / 0x400, 0xdc00 + offset % 0x400]
  }

  function Four(b1: Byte, b2: Byte, b3: Byte, b4: Byte): (codePoint: nat)
    ensures codePoint < 0x20_0000
  {
    b1 % 8 * 0x4_0000 + b2 % 64 * 4096 + b3 % 64 * 64 + b4 % 64
  }

  /** The code units of the character in the first bytes. */
  function Character(b1: Byte, b2: Byte, b3: Byte, b4: Byte): Text {
    if b1 < 0x80 then [b1]
    else if 0xc0 <= b1 < 0xe0 then [Two(b1, b2)]
    else if 0xe0 <= b1 < 0xf0 then [Three(b1, b2, b3)]
    else Pair(Four(b1, b2, b3, b4))
  }

  function DecodeUtf8(b: seq<Byte>): Text
    decreases |b|
  {
    if b == [] then []
    else
      var next := if Width(b[0]) <= |b| then b[Width(b[0])..] else [];
      Character(b[0], At(b, 1), At(b, 2), At(b, 3)) + DecodeUtf8(next)
  }

  function From(b: seq<Byte>, i: nat): seq<Byte> {
    if i <= |b| then b[i..] else []
  }

  /** utf8Decode; it ends on every byte string, also when the last character is cut short. */
  method Utf8Decode(bytes: seq<Byte>) returns (result: Text)
    ensures result == DecodeUtf8(bytes)
  {
    result := [];
    var i := 0;
    while i < |bytes|
      invariant 0 <= i
      invariant result + DecodeUtf8(From(bytes, i)) == DecodeUtf8(bytes)
      decreases |bytes| - i
    {
      ghost var before, start := result, i;
      var byte1 := bytes[i];
      i := i + 1;
      ghost var character := Character(byte1, At(bytes, i), At(bytes, i + 1), At(bytes, i + 2));
      if byte1 < 0x80 {
        result := result + [byte1];
      } else if 0xc0 <= byte1 < 0xe0 {
        var byte2 := At(bytes, i);
        i := i + 1;
        result := result + [Two(byte1, byte2)];
      } else if 0xe0 <= byte1 < 0xf0 {
        var byte2, byte3 := At(bytes, i), At(bytes, i + 1);
        i := i + 2;
        result := result + [Three(byte1, byte2, byte3)];
      } else {
        var byte2, byte3, byte4 := At(bytes, i), At(bytes, i + 1), At(bytes, i + 2);
        i := i + 3;
        result := result + Pair(Four(byte1, byte2, byte3, byte4));
      }
      assert result == before + character;
      DecodeStep(bytes, start, before, character, i);
    }
  }

  lemma DecodeFirst(b: seq<Byte>, i: nat)
    requires i < |b|
    ensures DecodeUtf8(From(b, i)) ==
      Character(b[i], At(b, i + 1), At(b, i + 2), At(b, i + 3)) + DecodeUtf8(From(b, i + Width(b[i])))
  {
    var rest := From(b, i);
    assert rest[0] == b[i];
    if i + Width(b[i]) <= |b| {
      assert rest[Width(b[i])..] == From(b, i + Width(b[i]));
    }
  }

  lemma DecodeStep(b: seq<Byte>, i: nat, before: Text, character: Text, next: nat)
    requires i < |b| && next == i + Width(b[i])
    requires before + DecodeUtf8(From(b, i)) == DecodeUtf8(b)
    requires character == Character(b[i], At(b, i + 1), At(b, i + 2), At(b, i + 3))
    ensures before + character + DecodeUtf8(From(b, next)) == DecodeUtf8(b)
  {
    DecodeFirst(b, i);
    Associative(before, character, DecodeUtf8(From(b, next)));
  }

  lemma Associative(a: Text, b: Text, c: Text)
    ensures a + b + c == a + (b + c)
  {
  }

  // --- decoding undoes encoding --------------------------------------------

  lemma DecodesTwo(v: Scalar)
    requires 0x80 <= v < 0x800
    ensures Two(0xc0 + v / 64, 0x80 + v % 64) == v
  {
    assert (0xc0 + v / 64) % 32 == v / 64;
  }

  lemma DecodesThree(v: Scalar)
    requires 0x800 <= v < 0x1_0000
    ensures Three(0xe0 + v / 4096, 0x80 + v / 64 % 64, 0x80 + v % 64) == v
  {
    assert (0xe0 + v / 4096) % 16 == v / 4096;
    assert v / 64 == v / 4096 * 64 + v / 64 % 64;
  }

  lemma DecodesFour(v: Scalar)
    requires 0x1_0000 <= v
    ensures Four(0xf0 + v / 0x4_0000, 0x80 + v / 4096 % 64, 0x80 + v / 64 % 64, 0x80 + v % 64) == v
  {
    assert (0xf0 + v / 0x4_0000) % 8 == v / 0x4_0000;
    assert v / 4096 == v / 0x4_0000 * 64 + v / 4096 % 64;
    assert v / 64 == v / 4096 * 64 + v / 64 % 64;
  }

  /** The character that the bytes of a whole sequence spell. */
  function Whole(b: seq<Byte>): Text
    requires 1 <= |b| <= 4
  {
    Character(b[0], At(b, 1), At(b, 2), At(b, 3))
  }

  lemma DecodesCharacter(v: Scalar)
    ensures Width(Utf8Of(v)[0]) == |Utf8Of(v)| && Whole(Utf8Of(v)) == Utf16Of(v)
  {
    if v < 0x800 {
      DecodesShort(v);
    } else if v < 0x1_0000 {
      DecodesThree(v);
      assert Utf8Of(v) == [0xe0 + v / 4096, 0x80 + v / 64 % 64, 0x80 + v % 64];
    } else {
      DecodesLong(v);
    }
  }

  lemma DecodesShort(v: Scalar)
    requires v < 0x800
    ensures Width(Utf8Of(v)[0]) == |Utf8Of(v)| && Whole(Utf8Of(v)) == Utf16Of(v)
  {
    if v >= 0x80 {
      DecodesTwo(v);
      assert Utf8Of(v) == [0xc0 + v / 64, 0x80 + v % 64];
    }
  }

  lemma WholeOfFour(b1: Byte, b2: Byte, b3: Byte, b4: Byte)
    requires 0xf0 <= b1
    ensures Width(b1) == 4 && Whole([b1, b2, b3, b4]) == Pair(Four(b1, b2, b3, b4))
  {
  }

  lemma DecodesLong(v: Scalar)
    requires 0x1_0000 <= v
    ensures Width(Utf8Of(v)[0]) == |Utf8Of(v)| && Whole(Utf8Of(v)) == Utf16Of(v)
  {
    var b := Utf8Of(v);
    DecodesFour(v);
    WholeOfFour(b[0], b[1], b[2], b[3]);
    assert b == [b[0], b[1], b[2], b[3]];
  }

  lemma CharacterReadsItsBytes(b: seq<Byte>, rest: seq<Byte>)
    requires b != [] && Width(b[0]) == |b|
    ensures var t := b + rest; Character(t[0], At(t, 1), At(t, 2), At(t, 3)) == Whole(b)
  {
    assert forall i: nat :: i < |b| ==> At(b + rest, i) == At(b, i);
  }

  lemma DecodesFirst(v: Scalar, rest: seq<Byte>)
    ensures DecodeUtf8(Utf8Of(v) + rest) == Utf16Of(v) + DecodeUtf8(rest)
  {
    DecodesCharacter(v);
    CharacterReadsItsBytes(Utf8Of(v), rest);
    assert (Utf8Of(v) + rest)[|Utf8Of(v)|..] == rest;
  }

  /** Decoding the UTF-8 encoding of any Unicode text yields its UTF-16 form, surrogate pairs included. */
  lemma {:induction false} Utf8ToUtf16(vs: seq<Scalar>)
    ensures DecodeUtf8(Utf8Bytes(vs)) == Utf16(vs)
  {
    if vs != [] {
      Utf8ToUtf16(vs[1..]);
      DecodesFirst(vs[0], Utf8Bytes(vs[1..]));
    }
  }

  /** base64ToString. */
  function Base64ToString(input: Text): Text {
    DecodeUtf8(Base64.Decode(input))
  }

  /**
   * A text sent as the base64 form of its UTF-8 encoding arrives unchanged: either alphabet, with
   * or without padding, white space anywhere.
   */
  lemma TextArrives(t: Text, vs: seq<Scalar>, urlSafe: bool, padded: bool)
    requires WithoutSpaces(t) == Encode(Utf8Bytes(vs), urlSafe, padded)
    ensures Base64ToString(t) == Utf16(vs)
  {
    DecodeUndoesEncode(t, Utf8Bytes(vs), urlSafe, padded);
    Utf8ToUtf16(vs);
  }

  lemma {:induction false} Utf16Append(a: seq<Scalar>, b: seq<Scalar>)
    ensures Utf16(a + b) == Utf16(a) + Utf16(b)
  {
    if a == [] {
      assert a + b == b;
    } else {
      assert (a + b)[1..] == a[1..] + b;
      Utf16Append(a[1..], b);
    }
  }

  // --- malformed input -------------------------------------------------------

  /** A last character that is cut short is read as if the missing bytes were 0. */
  lemma CutShortIsPadded(b: seq<Byte>, zeros: seq<Byte>)
    requires b != [] && |b| < Width(b[0]) && |zeros| == Width(b[0]) - |b|
    requires forall i :: 0 <= i < |zeros| ==> zeros[i] == 0
    ensures DecodeUtf8(b) == DecodeUtf8(b + zeros) && |DecodeUtf8(b)| <= 2
  {
    var padded := b + zeros;
    assert padded[0] == b[0] && padded[Width(b[0])..] == [];
    assert At(padded, 1) == At(b, 1) && At(padded, 2) == At(b, 2) && At(padded, 3) == At(b, 3);
    assert DecodeUtf8([]) == [];
  }

  /** However malformed the bytes, each is read as part of one character of at most four. */
  lemma {:induction false} EveryCharacterCounts(b: seq<Byte>, rest: seq<Byte>)
    requires |b| > 0 && |b| == Width(b[0])
    ensures DecodeUtf8(b + rest) == DecodeUtf8(b) + DecodeUtf8(rest) && 1 <= |DecodeUtf8(b)| <= 2
  {
    var all := b + rest;
    assert all[0] == b[0] && all[|b|..] == rest && b[|b|..] == [];
    assert forall i :: 0 <= i < |b| ==> At(all, i) == At(b, i);
    OnlyItsOwnBytes(b[0], At(all, 1), At(all, 2), At(all, 3), At(b, 1), At(b, 2), At(b, 3));
    assert DecodeUtf8([]) == [];
  }

  lemma OnlyItsOwnBytes(b1: Byte, b2: Byte, b3: Byte, b4: Byte, c2: Byte, c3: Byte, c4: Byte)
    requires (Width(b1) > 1 ==> b2 == c2) && (Width(b1) > 2 ==> b3 == c3) && (Width(b1) > 3 ==> b4 == c4)
    ensures Character(b1, b2, b3, b4) == Character(b1, c2, c3, c4)
  {
  }
}
