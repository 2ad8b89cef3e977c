/**
 * Base64 decoding with a bit accumulator, and the encoding of RFC 4648 as its reference.
 */
module Base64 {
  import opened Options
  import opened Text

  type Byte = b: int | 0 <= b < 0x100
  type Sextet = v: int | 0 <= v < 64
  /** How many bits of a byte are pending between two digits. */
  type BitCount = n: int | n == 0 || n == 2 || n == 4 || n == 6

  // --- the alphabet --------------------------------------------------------

  /** B64_LOOKUP. */
  function Lookup(c: CodeUnit): Option<Sextet> {
    if 0x41 <= c <= 0x5a then Some(c - 0x41)
    else if 0x61 <= c <= 0x7a then Some(c - 0x61 + 26)
    else if 0x30 <= c <= 0x39 then Some(c - 0x30 + 52)
    else if c == PLUS then Some(62)
    else if c == SLASH then Some(63)
    else None
  }

  /** Section 4 of RFC 4648, or section 5 when `urlSafe`. */
  function Digit(v: Sextet, urlSafe: bool): CodeUnit {
    if v < 26 then 0x41 + v
    else if v < 52 then 0x61 + v - 26
    else if v < 62 then 0x30 + v - 52
    else if v == 62 then if urlSafe then MINUS else PLUS
    else if urlSafe then UNDERSCORE else SLASH
  }

  // --- the decoder ---------------------------------------------------------

  function Standard(c: CodeUnit): CodeUnit {
    if c == MINUS then PLUS else if c == UNDERSCORE then SLASH else c
  }

  /** Replace the URL-safe characters and drop whitespace. */
  function Normalize(t: Text): Text {
    if t == [] then []
    else (if IsSpace(t[0]) then [] else [Standard(t[0])]) + Normalize(t[1..])
  }

  /** Drop the trailing '='. */
  function StripPadding(t: Text): Text {
    if t != [] && t[|t| - 1] == EQUALS then StripPadding(t[..|t| - 1]) else t
  }

  function Clean(t: Text): Text {
    StripPadding(Normalize(t))
  }

  /** `bits` pending bits with value `acc` in front of what is left of the input. */
  function DecodeFrom(t: Text, bits: BitCount, acc: nat): seq<Byte>
    requires acc < Pow2(bits)
    decreases |t|
  {
    if t == [] then []
    else if Lookup(t[0]).None? then DecodeFrom(t[1..], bits, acc)
    else
      var all := acc * 64 + Lookup(t[0]).value;
      if bits == 0 then DecodeFrom(t[1..], 6, all)
      else [all / Pow2(bits - 2)] + DecodeFrom(t[1..], bits - 2, all % Pow2(bits - 2))
  }

  function Pow2(bits: int): nat {
    if bits == 0 then 1 else if bits == 2 then 4 else if bits == 4 then 16 else 64
  }

  /** base64ToBytes. */
  function Decode(t: Text): seq<Byte> {
    DecodeFrom(Clean(t), 0, 0)
  }

  /** JavaScript's conversion to a signed 32-bit integer. */
  function ToInt32(x: int): (r: int)
    ensures -0x8000_0000 <= r < 0x8000_0000 && (r - x) % 0x1_0000_0000 == 0
  {
    var m := x % 0x1_0000_0000;
    if m < 0x8000_0000 then m else m - 0x1_0000_0000
  }

  // --- the loop ------------------------------------------------------------

  /**
   * The accumulator is never masked and wraps at 32 bits, yet the bits still pending in it and
   * the byte taken from it are those of the exact value.
   */
  lemma WrappedAccumulator(buffer: int, value: Sextet, bits: BitCount)
    ensures var acc, next := buffer % Pow2(bits), ToInt32(buffer * 64) + value;
      && -0x8000_0000 <= next < 0x8000_0000
      && (bits == 0 ==> next % 64 == acc * 64 + value)
      && (bits != 0 ==>
            && (next / Pow2(bits - 2)) % 0x100 == (acc * 64 + value) / Pow2(bits - 2)
            && next % Pow2(bits - 2) == (acc * 64 + value) % Pow2(bits - 2))
  {
    var shifted, acc := ToInt32(buffer * 64), buffer % Pow2(bits);
    var wraps := (shifted - buffer * 64) / 0x1_0000_0000;
    assert shifted == buffer * 64 + wraps * 0x1_0000_0000;
    var high := buffer / Pow2(bits);
    if bits == 0 {
    } else if bits == 2 {
      TakeByte0(high + wraps * 0x100_0000, acc * 64 + value);
    } else if bits == 4 {
      TakeByte2(high + wraps * 0x40_0000, acc * 64 + value);
    } else {
      TakeByte4(high + wraps * 0x10_0000, acc * 64 + value);
    }
  }

  lemma TakeByte0(high: int, all: nat)
    requires all < 0x100
    ensures (0x100 * high + all) % 0x100 == all
  {
  }

  lemma TakeByte2(high: int, all: nat)
    requires all < 0x400
    ensures (0x400 * high + all) / 4 % 0x100 == all / 4 && (0x400 * high + all) % 4 == all % 4
  {
    assert (0x400 * high + all) / 4 == 0x100 * high + all / 4;
  }

  lemma TakeByte4(high: int, all: nat)
    requires all < 0x1000
    ensures (0x1000 * high + all) / 16 % 0x100 == all / 16 && (0x1000 * high + all) % 16 == all % 16
  {
    assert (0x1000 * high + all) / 16 == 0x100 * high + all / 16;
  }

  /** `(bitBuffer << 6) | value`. */
  function Shifted(buffer: int, value: Sextet): int {
    ToInt32(buffer * 64) + value
  }

  /** `(bitBuffer >> bits) & 0xff`. */
  function Taken(buffer: int, bits: BitCount): Byte {
    (buffer / Pow2(bits)) % 0x100
  }

  /** The bytes still to come at digit `i`. */
  function Rest(clean: Text, i: nat, buffer: int, bits: BitCount): seq<Byte>
    requires i <= |clean|
  {
    DecodeFrom(clean[i..], bits, buffer % Pow2(bits))
  }

  lemma LoopStep(clean: Text, i: nat, buffer: int, value: Sextet, bits: BitCount)
    requires i < |clean| && Lookup(clean[i]) == Some(value)
    ensures var next := Shifted(buffer, value);
      && -0x8000_0000 <= next < 0x8000_0000
      && Rest(clean, i, buffer, bits) ==
        if bits == 0 then Rest(clean, i + 1, next, 6)
        else [Taken(next, bits - 2)] + Rest(clean, i + 1, next, bits - 2)
  {
    WrappedAccumulator(buffer, value, bits);
    assert clean[i..][1..] == clean[i + 1..];
  }

  lemma SkipStep(clean: Text, i: nat, buffer: int, bits: BitCount)
    requires i < |clean| && Lookup(clean[i]).None?
    ensures Rest(clean, i, buffer, bits) == Rest(clean, i + 1, buffer, bits)
  {
    assert clean[i..][1..] == clean[i + 1..];
  }

  /** Shift the digit at `i` in, and a byte out once eight bits are there. */
  method Accumulate(clean: Text, i: nat, buffer: int, bits: BitCount, value: Sextet)
    returns (bitBuffer: int, bitCount: BitCount, byte: Option<Byte>)
    requires i < |clean| && Lookup(clean[i]) == Some(value)
    ensures -0x8000_0000 <= bitBuffer < 0x8000_0000
    ensures bits + 6 == if byte.Some? then bitCount + 8 else bitCount
    ensures var later := Rest(clean, i + 1, bitBuffer, bitCount);
      Rest(clean, i, buffer, bits) == if byte.Some? then [byte.value] + later else later
  {
    LoopStep(clean, i, buffer, value, bits);
    bitBuffer := Shifted(buffer, value);
    if bits + 6 >= 8 {
      bitCount := bits - 2;
      byte := Some(Taken(bitBuffer, bitCount));
    } else {
      bitCount := bits + 6;
      byte := None;
    }
  }

  /** The loop's invariant: what is written, and what the rest of the input will add to it. */
  ghost predicate Midway(clean: Text, i: nat, out: array<Byte>, byteIndex: nat, bitBuffer: int, bitCount: BitCount)
    reads out
  {
    && i <= |clean| && byteIndex * 8 + bitCount <= i * 6 && out.Length == (|clean| * 6) / 8
    && byteIndex <= out.Length
    && out[..byteIndex] + Rest(clean, i, bitBuffer, bitCount) == Rest(clean, 0, 0, 0)
  }

  /** Write the byte behind those already written; there is always room for it. */
  method Write(clean: Text, i: nat, out: array<Byte>, byteIndex: nat, b: Byte, bitBuffer: int, bitCount: BitCount)
    requires i <= |clean| && byteIndex * 8 + 8 + bitCount <= i * 6 && out.Length == (|clean| * 6) / 8
    requires out[..byteIndex] + ([b] + Rest(clean, i, bitBuffer, bitCount)) == Rest(clean, 0, 0, 0)
    modifies out
    ensures Midway(clean, i, out, byteIndex + 1, bitBuffer, bitCount)
  {
    ghost var done := out[..byteIndex];
    out[byteIndex] := b;
    assert out[..byteIndex + 1] == done + [b];
    Moves(done, b, Rest(clean, i, bitBuffer, bitCount));
  }

  lemma Moves(done: seq<Byte>, b: Byte, rest: seq<Byte>)
    ensures done + ([b] + rest) == done + [b] + rest
  {
  }

  lemma Starts(clean: Text, out: array<Byte>)
    requires out.Length == (|clean| * 6) / 8
    ensures Midway(clean, 0, out, 0, 0, 0)
  {
    assert out[..0] + Rest(clean, 0, 0, 0) == Rest(clean, 0, 0, 0);
  }

  lemma Finishes(clean: Text, out: array<Byte>, byteIndex: nat, bitBuffer: int, bitCount: BitCount)
    requires Midway(clean, |clean|, out, byteIndex, bitBuffer, bitCount)
    ensures out[..byteIndex] == DecodeFrom(clean, 0, 0)
  {
    assert clean[0..] == clean && Rest(clean, |clean|, bitBuffer, bitCount) == [];
  }

  /**
   * base64ToBytes: `<< 6` wraps to a signed 32-bit integer, whose six low bits are then free for
   * the value; `>>` and `& 0xff` are floor division and remainder. Every write is inside the
   * array, which is sized before the loop.
   */
  method Base64ToBytes(input: Text) returns (bytes: seq<Byte>)
    ensures bytes == Decode(input)
  {
    var clean := Clean(input);
    var byteLength := (|clean| * 6) / 8;
    var out := new Byte[byteLength](_ => 0);
    var bitBuffer, bitCount: BitCount, byteIndex: nat := 0, 0, 0;
    Starts(clean, out);
    for i := 0 to |clean|
      invariant byteIndex <= out.Length && Midway(clean, i, out, byteIndex, bitBuffer, bitCount)
    {
      bitBuffer, bitCount, byteIndex := Consume(clean, i, out, byteIndex, bitBuffer, bitCount);
    }
    Finishes(clean, out, byteIndex, bitBuffer, bitCount);
    bytes := out[..byteIndex];
  }

  /** The body of base64ToBytes' loop; stray characters are skipped. */
  method Consume(clean: Text, i: nat, out: array<Byte>, byteIndex: nat, bitBuffer: int, bitCount: BitCount)
    returns (buffer: int, count: BitCount, index: nat)
    requires i < |clean| && Midway(clean, i, out, byteIndex, bitBuffer, bitCount)
    modifies out
    ensures Midway(clean, i + 1, out, index, buffer, count)
  {
    buffer, count, index := bitBuffer, bitCount, byteIndex;
    var value := Lookup(clean[i]);
    if value.None? {
      SkipStep(clean, i, bitBuffer, bitCount);
      return;
    }
    var byte;
    buffer, count, byte := Accumulate(clean, i, bitBuffer, bitCount, value.value);
    if byte.Some? {
      Write(clean, i + 1, out, byteIndex, byte.value, buffer, count);
      index := byteIndex + 1;
    }
  }

  predicate IsBase64Char(c: CodeUnit) {
    Lookup(c).Some? || c == MINUS || c == UNDERSCORE || c == EQUALS || IsSpace(c)
  }

  /** looksLikeBase64. */
  predicate LooksLikeBase64(input: Text) {
    var trimmed := Trim(input);
    IndexOfMark(trimmed) == -1 && trimmed != [] && forall i :: 0 <= i < |trimmed| ==> IsBase64Char(trimmed[i])
  }

  // --- the reference encoder -----------------------------------------------

  /** Section 4 of RFC 4648: 24-bit groups, the last one filled up with zero bits. */
  function Sextets(b: seq<Byte>): seq<Sextet> {
    if b == [] then []
    else if |b| == 1 then [b[0] / 4, b[0] % 4 * 16]
    else if |b| == 2 then [b[0] / 4, b[0] % 4 * 16 + b[1] / 16, b[1] % 16 * 4]
    else Group(b[0], b[1], b[2]) + Sextets(b[3..])
  }

  function Group(b0: Byte, b1: Byte, b2: Byte): seq<Sextet> {
    [b0 / 4, b0 % 4 * 16 + b1 / 16, b1 % 16 * 4 + b2 / 64, b2 % 64]
  }

  function Digits(vs: seq<Sextet>, urlSafe: bool): (t: Text)
    ensures |t| == |vs| && forall i :: 0 <= i < |t| ==> t[i] == Digit(vs[i], urlSafe)
  {
    seq(|vs|, i requires 0 <= i < |vs| => Digit(vs[i], urlSafe))
  }

  function Padding(n: nat): Text {
    if n % 3 == 1 then [EQUALS, EQUALS] else if n % 3 == 2 then [EQUALS] else []
  }

  function Encode(b: seq<Byte>, urlSafe: bool, padded: bool): Text {
    Digits(Sextets(b), urlSafe) + if padded then Padding(|b|) else []
  }

  function WithoutSpaces(t: Text): Text {
    if t == [] then [] else (if IsSpace(t[0]) then [] else [t[0]]) + WithoutSpaces(t[1..])
  }

  // --- decoding undoes encoding --------------------------------------------

  function Standardized(t: Text): (r: Text)
    ensures |r| == |t| && forall i :: 0 <= i < |t| ==> r[i] == Standard(t[i])
  {
    seq(|t|, i requires 0 <= i < |t| => Standard(t[i]))
  }

  lemma {:induction false} NormalizeDropsSpaces(t: Text)
    ensures Normalize(t) == Standardized(WithoutSpaces(t))
  {
    if t != [] {
      NormalizeDropsSpaces(t[1..]);
    }
  }

  lemma {:induction false} StripsPadding(t: Text, k: nat)
    requires t != [] ==> t[|t| - 1] != EQUALS
    ensures StripPadding(t + seq(k, _ => EQUALS)) == t
  {
    var padded := t + seq(k, _ => EQUALS);
    if k == 0 {
      assert padded == t;
    } else {
      assert padded[..|padded| - 1] == t + seq(k - 1, _ => EQUALS);
      StripsPadding(t, k - 1);
    }
  }

  lemma StandardDigit(v: Sextet, urlSafe: bool)
    ensures Standard(Digit(v, urlSafe)) == Digit(v, false) && Digit(v, false) != EQUALS
    ensures Lookup(Digit(v, false)) == Some(v)
  {
  }

  lemma StandardEncoding(vs: seq<Sextet>, urlSafe: bool, pad: Text)
    requires forall i :: 0 <= i < |pad| ==> pad[i] == EQUALS
    ensures Standardized(Digits(vs, urlSafe) + pad) == Digits(vs, false) + pad
    ensures forall i :: 0 <= i < |vs| ==> Digits(vs, false)[i] != EQUALS
  {
    forall i | 0 <= i < |vs| ensures Standard(Digit(vs[i], urlSafe)) == Digit(vs[i], false) != EQUALS {
      StandardDigit(vs[i], urlSafe);
    }
  }

  lemma CleanEncoding(t: Text, b: seq<Byte>, urlSafe: bool, padded: bool)
    requires WithoutSpaces(t) == Encode(b, urlSafe, padded)
    ensures Clean(t) == Digits(Sextets(b), false)
  {
    var pad := if padded then Padding(|b|) else [];
    NormalizeDropsSpaces(t);
    StandardEncoding(Sextets(b), urlSafe, pad);
    assert pad == seq(|pad|, _ => EQUALS);
    StripsPadding(Digits(Sextets(b), false), |pad|);
  }

  lemma DecodeFirst(v: Sextet, rest: Text)
    ensures DecodeFrom([Digit(v, false)] + rest, 0, 0) == DecodeFrom(rest, 6, v)
  {
    StandardDigit(v, false);
    assert ([Digit(v, false)] + rest)[1..] == rest;
  }

  lemma SplitsOff(all: nat, bits: BitCount, b: Byte, left: nat)
    requires bits != 6 && left < Pow2(bits)
    requires all == (if bits == 0 then b else if bits == 2 then b * 4 else b * 16) + left
    ensures all / Pow2(bits) == b && all % Pow2(bits) == left
  {
    if bits == 2 {
      assert all / 4 == b;
    } else if bits == 4 {
      assert all / 16 == b;
    }
  }

  lemma DecodeNext(v: Sextet, rest: Text, bits: BitCount, acc: nat, b: Byte, left: nat)
    requires bits != 0 && acc < Pow2(bits) && left < Pow2(bits - 2)
    requires acc * 64 + v == (if bits == 2 then b else if bits == 4 then b * 4 else b * 16) + left
    ensures DecodeFrom([Digit(v, false)] + rest, bits, acc) == [b] + DecodeFrom(rest, bits - 2, left)
  {
    StandardDigit(v, false);
    SplitsOff(acc * 64 + v, bits - 2, b, left);
    assert ([Digit(v, false)] + rest)[1..] == rest;
  }

  /** A group of digits carries the bytes whose bits it spells. */
  lemma DecodeTwo(v0: Sextet, v1: Sextet, b0: Byte, left: nat, rest: Text)
    requires v0 * 64 + v1 == b0 * 16 + left && left < 16
    ensures DecodeFrom([Digit(v0, false)] + ([Digit(v1, false)] + rest), 0, 0) == [b0] + DecodeFrom(rest, 4, left)
  {
    DecodeFirst(v0, [Digit(v1, false)] + rest);
    DecodeNext(v1, rest, 6, v0, b0, left);
  }

  lemma DigitsStep(v: Sextet, vs: seq<Sextet>)
    ensures Digits([v] + vs, false) == [Digit(v, false)] + Digits(vs, false)
  {
  }

  lemma {:induction false} DecodeSextets(b: seq<Byte>)
    ensures DecodeFrom(Digits(Sextets(b), false), 0, 0) == b
    decreases |b|
  {
    if |b| == 1 {
      DecodeSingle(b[0]);
      assert b == [b[0]];
    } else if |b| == 2 {
      DecodePair(b[0], b[1]);
      assert b == [b[0], b[1]];
    } else if |b| > 2 {
      DecodeSextets(b[3..]);
      DecodeGroup(b[0], b[1], b[2], Sextets(b[3..]));
      assert b == [b[0], b[1], b[2]] + b[3..];
    }
  }

  lemma DecodeSingle(b0: Byte)
    ensures DecodeFrom(Digits(Sextets([b0]), false), 0, 0) == [b0]
  {
    var v0: Sextet, v1: Sextet := b0 / 4, b0 % 4 * 16;
    DigitsStep(v1, []);
    DigitsStep(v0, [v1] + []);
    assert Sextets([b0]) == [v0] + ([v1] + []) && Digits([], false) == [];
    DecodeTwo(v0, v1, b0, 0, []);
  }

  lemma DecodePair(b0: Byte, b1: Byte)
    ensures DecodeFrom(Digits(Sextets([b0, b1]), false), 0, 0) == [b0, b1]
  {
    var v0: Sextet, v1: Sextet, v2: Sextet := b0 / 4, b0 % 4 * 16 + b1 / 16, b1 % 16 * 4;
    var t2 := [Digit(v2, false)] + [];
    DigitsStep(v2, []);
    DigitsStep(v1, [v2] + []);
    DigitsStep(v0, [v1] + ([v2] + []));
    assert Sextets([b0, b1]) == [v0] + ([v1] + ([v2] + [])) && Digits([], false) == [];
    DecodeTwo(v0, v1, b0, b1 / 16, t2);
    DecodeNext(v2, [], 4, b1 / 16, b1, 0);
  }

  lemma DecodeGroup(b0: Byte, b1: Byte, b2: Byte, vs: seq<Sextet>)
    ensures
      DecodeFrom(Digits(Group(b0, b1, b2) + vs, false), 0, 0) ==
        [b0, b1, b2] + DecodeFrom(Digits(vs, false), 0, 0)
  {
    var g := Group(b0, b1, b2);
    var t3 := [Digit(g[3], false)] + Digits(vs, false);
    var t2 := [Digit(g[2], false)] + t3;
    assert Digits(g + vs, false) == [Digit(g[0], false)] + ([Digit(g[1], false)] + t2) by {
      DigitsOfGroup(g, vs);
    }
    GroupArithmetic(b0, b1, b2);
    DecodeTwo(g[0], g[1], b0, b1 / 16, t2);
    DecodeNext(g[2], t3, 4, b1 / 16, b1, b2 / 64);
    DecodeNext(g[3], Digits(vs, false), 2, b2 / 64, b2, 0);
  }

  lemma GroupArithmetic(b0: Byte, b1: Byte, b2: Byte)
    ensures var g := Group(b0, b1, b2);
      && 64 * g[0] as int + g[1] == 16 * b0 as int + b1 / 16 && b1 / 16 < 16
      && 64 * (b1 / 16) as int + g[2] == 4 * b1 as int + b2 / 64 && b2 / 64 < 4
      && 64 * (b2 / 64) as int + g[3] == b2
  {
  }

  lemma DigitsOfGroup(g: seq<Sextet>, vs: seq<Sextet>)
    requires |g| == 4
    ensures Digits(g + vs, false) ==
      [Digit(g[0], false)] + ([Digit(g[1], false)] + ([Digit(g[2], false)] + ([Digit(g[3], false)] + Digits(vs, false))))
  {
    var t3 := [Digit(g[3], false)] + Digits(vs, false);
    assert Digits(g + vs, false) == Digits(g, false) + Digits(vs, false);
    assert Digits(g, false) == [Digit(g[0], false), Digit(g[1], false), Digit(g[2], false), Digit(g[3], false)];
  }

  lemma EncodingIsPlain(b: seq<Byte>, urlSafe: bool, padded: bool)
    ensures var t := Encode(b, urlSafe, padded);
      forall i :: 0 <= i < |t| ==> IsBase64Char(t[i]) && !IsSpace(t[i])
  {
    forall v: Sextet ensures IsBase64Char(Digit(v, urlSafe)) && !IsSpace(Digit(v, urlSafe)) {
      StandardDigit(v, urlSafe);
    }
  }

  lemma {:induction false} NoSpacesToDrop(t: Text)
    requires NoSpace(t)
    ensures WithoutSpaces(t) == t
  {
    if t != [] {
      NoSpacesToDrop(t[1..]);
      assert t == [t[0]] + t[1..];
    }
  }

  /**
   * For every byte sequence, whatever text its standard or URL-safe encoding is once white space
   * is taken out, padded or not, decodes to those bytes.
   */
  lemma DecodeUndoesEncode(t: Text, b: seq<Byte>, urlSafe: bool, padded: bool)
    requires WithoutSpaces(t) == Encode(b, urlSafe, padded)
    ensures Decode(t) == b
  {
    CleanEncoding(t, b, urlSafe, padded);
    DecodeSextets(b);
  }
}
