/**
 * decodeURIComponent as the share-link parsers use it, with encodeURIComponent as its reference.
 */
module Percent {
  import opened Base64
  import opened Options
  import opened Text
  import opened Utf8

  // --- the encoder ---------------------------------------------------------

  /** The characters that encodeURIComponent keeps. */
  predicate IsUnreserved(c: int) {
    0x30 <= c <= 0x39 || 0x41 <= c <= 0x5a || 0x61 <= c <= 0x7a ||
    c == 0x2d || c == 0x5f || c == 0x2e || c == 0x21 || c == 0x7e || 0x27 <= c <= 0x2a
  }

  /** What can occur in an encoded text: no delimiter of a link and no white space. */
  predicate IsEncodedChar(c: CodeUnit) {
    IsUnreserved(c) || c == PERCENT
  }

  predicate IsEncoded(t: Text) {
    forall i :: 0 <= i < |t| ==> IsEncodedChar(t[i])
  }

  function HexDigit(n: nat): CodeUnit
    requires n < 16
  {
    if n < 10 then 0x30 + n else 0x41 + n - 10
  }

  function HexValue(c: CodeUnit): (n: int)
    ensures -1 <= n < 16
  {
    if 0x30 <= c <= 0x39 then c - 0x30
    else if 0x41 <= c <= 0x46 then c - 0x41 + 10
    else if 0x61 <= c <= 0x66 then c - 0x61 + 10
    else -1
  }

  function PercentOctets(b: seq<Byte>): Text {
    if b == [] then []
    else [PERCENT, HexDigit(b[0] / 16), HexDigit(b[0] % 16)] + PercentOctets(b[1..])
  }

  function EncodeCharacter(v: Scalar): Text {
    if IsUnreserved(v) then [v] else PercentOctets(Utf8Of(v))
  }

  /** encodeURIComponent on a well-formed text. */
  function EncodeComponent(vs: seq<Scalar>): Text {
    if vs == [] then [] else EncodeCharacter(vs[0]) + EncodeComponent(vs[1..])
  }

  // --- the decoder ---------------------------------------------------------

  /** The octet that the escape at the front stands for. */
  function Octet(t: Text): Option<Byte> {
    if |t| >= 3 && t[0] == PERCENT && HexValue(t[1]) >= 0 && HexValue(t[2]) >= 0
    then Some(HexValue(t[1]) * 16 + HexValue(t[2]))
    else None
  }

  /** Read `n` continuation octets, six bits each, behind `soFar`. */
  function Continued(t: Text, n: nat, soFar: nat): (v: Option<nat>)
    ensures v.Some? ==> 3 * n <= |t|
    decreases n
  {
    if n == 0 then Some(soFar)
    else if Octet(t).None? then None
    else if Octet(t).value < 0x80 || 0xc0 <= Octet(t).value then None
    else Continued(t[3..], n - 1, soFar * 64 + (Octet(t).value - 0x80))
  }

  /** How many continuation octets a leading octet announces. */
  function Announced(lead: Byte): Option<nat> {
    if lead < 0x80 then Some(0) else if lead < 0xc0 then None else if lead < 0xe0 then Some(1)
    else if lead < 0xf0 then Some(2) else if lead < 0xf8 then Some(3) else None
  }

  function Payload(lead: Byte): nat {
    if lead < 0x80 then lead else if lead < 0xc0 then 0 else if lead < 0xe0 then lead - 0xc0
    else if lead < 0xf0 then lead - 0xe0 else lead - 0xf0
  }

  /** A scalar value that needs `n` continuation octets, and no fewer. */
  predicate Fits(v: nat, n: nat) {
    if n == 0 then v < 0x80
    else if n == 1 then 0x80 <= v < 0x800
    else if n == 2 then 0x800 <= v < 0xd800 || 0xe000 <= v < 0x1_0000
    else n == 3 && 0x1_0000 <= v < 0x11_0000
  }

  /** The character escaped at the front and how long its escape is; its octets must be valid UTF-8. */
  function Escaped(t: Text): (r: Option<(Scalar, nat)>)
    ensures r.Some? ==> 3 <= r.value.1 <= |t|
  {
    if Octet(t).None? then None
    else if Announced(Octet(t).value).None? then None
    else
      var n := Announced(Octet(t).value).value;
      var v := Continued(t[3..], n, Payload(Octet(t).value));
      if v.None? || !Fits(v.value, n) then None else Some((v.value, 3 * n + 3))
  }

  /** decodeURIComponent, with None for a URIError. */
  function DecodeComponent(t: Text): Option<Text>
    decreases |t|
  {
    if t == [] then Some([])
    else if t[0] != PERCENT then Prepend([t[0]], DecodeComponent(t[1..]))
    else if Escaped(t).None? then None
    else Prepend(Utf16Of(Escaped(t).value.0), DecodeComponent(t[Escaped(t).value.1..]))
  }

  function Prepend(a: Text, t: Option<Text>): Option<Text> {
    if t.None? then None else Some(a + t.value)
  }

  /** decodeComponentSafe: a malformed text stays as it is. */
  function DecodeComponentSafe(t: Text): Text {
    if DecodeComponent(t).Some? then DecodeComponent(t).value else t
  }

  // --- exactly what decodes --------------------------------------------------

  /** A hexadecimal digit for `n`, in either case. */
  predicate IsHex(c: CodeUnit, n: nat)
    requires n < 16
  {
    c == HexDigit(n) || (n >= 10 && c == 0x61 + n - 10)
  }

  /** The text is the percent-escapes of these bytes. */
  predicate Spells(t: Text, b: seq<Byte>)
    decreases |b|
  {
    if b == [] then t == []
    else |t| >= 3 && t[0] == PERCENT && IsHex(t[1], b[0] / 16) && IsHex(t[2], b[0] % 16) && Spells(t[3..], b[1..])
  }

  /** A character as it is, or one escaped byte by byte. */
  datatype Piece = Plain(c: CodeUnit) | Escape(v: Scalar, spelled: Text)

  predicate ProperPiece(p: Piece) {
    match p
    case Plain(c) => c != PERCENT
    case Escape(v, spelled) => Spells(spelled, Utf8Of(v))
  }

  predicate ProperPieces(ps: seq<Piece>) {
    forall i :: 0 <= i < |ps| ==> ProperPiece(ps[i])
  }

  function PrintPiece(p: Piece): Text {
    match p
    case Plain(c) => [c]
    case Escape(_, spelled) => spelled
  }

  function MeaningOf(p: Piece): Text {
    match p
    case Plain(c) => [c]
    case Escape(v, _) => Utf16Of(v)
  }

  function PrintPieces(ps: seq<Piece>): Text {
    if ps == [] then [] else PrintPiece(ps[0]) + PrintPieces(ps[1..])
  }

  function Meaning(ps: seq<Piece>): Text {
    if ps == [] then [] else MeaningOf(ps[0]) + Meaning(ps[1..])
  }

  /** The value that continuation bytes add up to. */
  function Folded(b: seq<Byte>, soFar: nat): nat
    requires forall i :: 0 <= i < |b| ==> 0x80 <= b[i] < 0xc0
  {
    if b == [] then soFar else Folded(b[1..], soFar * 64 + (b[0] - 0x80))
  }

  lemma FoldsToScalar(v: Scalar)
    ensures var b := Utf8Of(v);
      && (forall i :: 1 <= i < |b| ==> 0x80 <= b[i] < 0xc0)
      && Announced(b[0]) == Some(|b| - 1) && Fits(v, |b| - 1)
      && Folded(b[1..], Payload(b[0])) == v
  {
    var b := Utf8Of(v);
    var tail := b[1..];
    if v < 0x80 {
      assert tail == [];
    } else if v < 0x800 {
      FoldOne(v / 64, b[1]);
      assert tail == [b[1]];
    } else if v < 0x1_0000 {
      FoldTwo(v / 4096, b[1], b[2]);
      ThreeParts(v);
      assert tail == [b[1], b[2]];
    } else {
      FoldThree(v / 0x4_0000, b[1], b[2], b[3]);
      FourParts(v);
      assert tail == [b[1], b[2], b[3]];
    }
  }

  lemma ThreeParts(v: nat)
    ensures v == (v / 4096 * 64 + v / 64 % 64) * 64 + v % 64
  {
    assert v / 64 == v / 4096 * 64 + v / 64 % 64;
  }

  lemma FourParts(v: nat)
    ensures v == ((v / 0x4_0000 * 64 + v / 4096 % 64) * 64 + v / 64 % 64) * 64 + v % 64
  {
    assert v / 4096 == v / 0x4_0000 * 64 + v / 4096 % 64;
    ThreeParts(v);
  }

  lemma FoldOne(soFar: nat, b: Byte)
    requires 0x80 <= b < 0xc0
    ensures Folded([b], soFar) == soFar * 64 + (b - 0x80)
  {
    assert [b][1..] == [];
  }

  lemma FoldTwo(soFar: nat, b: Byte, c: Byte)
    requires 0x80 <= b < 0xc0 && 0x80 <= c < 0xc0
    ensures Folded([b, c], soFar) == (soFar * 64 + (b - 0x80)) * 64 + (c - 0x80)
  {
    assert [b, c][1..] == [c];
    FoldOne(soFar * 64 + (b - 0x80), c);
  }

  lemma FoldThree(soFar: nat, b: Byte, c: Byte, d: Byte)
    requires 0x80 <= b < 0xc0 && 0x80 <= c < 0xc0 && 0x80 <= d < 0xc0
    ensures Folded([b, c, d], soFar) == ((soFar * 64 + (b - 0x80)) * 64 + (c - 0x80)) * 64 + (d - 0x80)
  {
    assert [b, c, d][1..] == [c, d];
    FoldTwo(soFar * 64 + (b - 0x80), c, d);
  }

  lemma EscapedIs(t: Text, lead: Byte, n: nat, v: Scalar)
    requires Octet(t) == Some(lead) && Announced(lead) == Some(n) && Fits(v, n)
    requires Continued(t[3..], n, Payload(lead)) == Some(v)
    ensures Escaped(t) == Some((v, 3 * n + 3))
  {
  }

  lemma HexIs(c: CodeUnit, n: nat)
    requires n < 16
    ensures IsHex(c, n) <==> HexValue(c) == n
  {
  }

  lemma OctetIs(t: Text, b: Byte)
    requires |t| >= 3
    ensures Octet(t) == Some(b) <==> t[0] == PERCENT && IsHex(t[1], b / 16) && IsHex(t[2], b % 16)
  {
    HexIs(t[1], b / 16);
    HexIs(t[2], b % 16);
  }

  lemma {:induction false} SpelledLength(t: Text, b: seq<Byte>)
    requires Spells(t, b)
    ensures |t| == 3 * |b|
    decreases |b|
  {
    if b != [] {
      SpelledLength(t[3..], b[1..]);
    }
  }

  lemma {:induction false} ContinuedIs(t: Text, b: seq<Byte>, rest: Text, soFar: nat)
    requires Spells(t, b) && forall i :: 0 <= i < |b| ==> 0x80 <= b[i] < 0xc0
    ensures Continued(t + rest, |b|, soFar) == Some(Folded(b, soFar))
    decreases |b|
  {
    if b != [] {
      SpelledFront(t, b, rest);
      ContinuedIs(t[3..], b[1..], rest, soFar * 64 + (b[0] - 0x80));
    }
  }

  lemma OctetFront(t: Text, rest: Text)
    requires |t| >= 3
    ensures Octet(t + rest) == Octet(t) && (t + rest)[3..] == t[3..] + rest
  {
    var all := t + rest;
    assert all[0] == t[0] && all[1] == t[1] && all[2] == t[2];
  }

  lemma SpelledFront(t: Text, b: seq<Byte>, rest: Text)
    requires b != [] && Spells(t, b)
    ensures Octet(t + rest) == Some(b[0]) && |t| >= 3 && (t + rest)[3..] == t[3..] + rest && Spells(t[3..], b[1..])
  {
    OctetIs(t, b[0]);
    OctetFront(t, rest);
  }

  lemma SpelledIsRead(v: Scalar, b: seq<Byte>, spelled: Text, rest: Text)
    requires b != [] && Spells(spelled, b) && forall i :: 1 <= i < |b| ==> 0x80 <= b[i] < 0xc0
    requires Announced(b[0]) == Some(|b| - 1) && Fits(v, |b| - 1) && Folded(b[1..], Payload(b[0])) == v
    ensures Escaped(spelled + rest) == Some((v, |spelled|))
  {
    SpelledLength(spelled, b);
    SpelledFront(spelled, b, rest);
    ContinuedIs(spelled[3..], b[1..], rest, Payload(b[0]));
    EscapedIs(spelled + rest, b[0], |b| - 1, v);
  }

  lemma EscapeIsRead(v: Scalar, spelled: Text, rest: Text)
    requires Spells(spelled, Utf8Of(v))
    ensures Escaped(spelled + rest) == Some((v, |spelled|))
  {
    FoldsToScalar(v);
    SpelledIsRead(v, Utf8Of(v), spelled, rest);
  }

  /** Whatever is put together from plain characters and escaped ones decodes to what they mean. */
  lemma {:induction false} PiecesAreRead(ps: seq<Piece>)
    requires ProperPieces(ps)
    ensures DecodeComponent(PrintPieces(ps)) == Some(Meaning(ps))
  {
    if ps != [] {
      var rest := PrintPieces(ps[1..]);
      PiecesAreRead(ps[1..]);
      match ps[0]
      case Plain(c) => assert ([c] + rest)[1..] == rest;
      case Escape(v, spelled) =>
        EscapeIsRead(v, spelled, rest);
        SpelledLength(spelled, Utf8Of(v));
        assert (spelled + rest)[|spelled|..] == rest;
    }
  }

  /** The octets that `Continued` has read. */
  lemma {:induction false} ContinuedFrom(t: Text, n: nat, soFar: nat) returns (b: seq<Byte>)
    requires Continued(t, n, soFar).Some?
    ensures |b| == n && 3 * n <= |t| && Spells(t[..3 * n], b) && (forall i :: 0 <= i < n ==> 0x80 <= b[i] < 0xc0)
    ensures Continued(t, n, soFar) == Some(Folded(b, soFar))
    decreases n
  {
    b := [];
    if n > 0 {
      var first := Octet(t).value;
      var more := ContinuedFrom(t[3..], n - 1, soFar * 64 + (first - 0x80));
      OctetIs(t, first);
      b := [first] + more;
      assert b[1..] == more && t[..3 * n][3..] == t[3..][..3 * (n - 1)];
    }
  }

  lemma OnlyTwo(lead: Byte, b: Byte, v: Scalar)
    requires 0xc0 <= lead < 0xe0 && 0x80 <= b < 0xc0 && 0x80 <= v < 0x800 && v == (lead - 0xc0) * 64 + (b - 0x80)
    ensures Utf8Of(v) == [lead, b]
  {
  }

  lemma OnlyThree(lead: Byte, b: Byte, c: Byte, v: Scalar)
    requires 0xe0 <= lead < 0xf0 && 0x80 <= b < 0xc0 && 0x80 <= c < 0xc0 && 0x800 <= v < 0x1_0000
    requires v == ((lead - 0xe0) * 64 + (b - 0x80)) * 64 + (c - 0x80)
    ensures Utf8Of(v) == [lead, b, c]
  {
    TwoDigits(lead - 0xe0, b, c);
  }

  lemma OnlyFour(lead: Byte, b: Byte, c: Byte, d: Byte, v: Scalar)
    requires 0xf0 <= lead < 0xf8 && 0x80 <= b < 0xc0 && 0x80 <= c < 0xc0 && 0x80 <= d < 0xc0 && 0x1_0000 <= v
    requires v == (((lead - 0xf0) * 64 + (b - 0x80)) * 64 + (c - 0x80)) * 64 + (d - 0x80)
    ensures Utf8Of(v) == [lead, b, c, d]
  {
    ThreeDigits(lead - 0xf0, b, c, d);
  }

  lemma OnlyUtf8(lead: Byte, b: seq<Byte>, v: Scalar)
    requires forall i :: 0 <= i < |b| ==> 0x80 <= b[i] < 0xc0
    requires Announced(lead) == Some(|b|) && Fits(v, |b|) && Folded(b, Payload(lead)) == v
    ensures Utf8Of(v) == [lead] + b
  {
    if |b| == 1 {
      assert b == [b[0]];
      FoldOne(Payload(lead), b[0]);
      OnlyTwo(lead, b[0], v);
    } else if |b| == 2 {
      assert b == [b[0], b[1]];
      FoldTwo(Payload(lead), b[0], b[1]);
      OnlyThree(lead, b[0], b[1], v);
    } else if |b| == 3 {
      assert b == [b[0], b[1], b[2]];
      FoldThree(Payload(lead), b[0], b[1], b[2]);
      OnlyFour(lead, b[0], b[1], b[2], v);
    }
  }

  lemma TwoDigits(high: nat, b: Byte, c: Byte)
    requires 0x80 <= b < 0xc0 && 0x80 <= c < 0xc0
    ensures var v := (high * 64 + (b - 0x80)) * 64 + (c - 0x80);
      v / 4096 == high && v / 64 % 64 == b - 0x80 && v % 64 == c - 0x80
  {
    var v := (high * 64 + (b - 0x80)) * 64 + (c - 0x80);
    assert v / 64 == high * 64 + (b - 0x80);
  }

  lemma ThreeDigits(high: nat, b: Byte, c: Byte, d: Byte)
    requires 0x80 <= b < 0xc0 && 0x80 <= c < 0xc0 && 0x80 <= d < 0xc0
    ensures var v := ((high * 64 + (b - 0x80)) * 64 + (c - 0x80)) * 64 + (d - 0x80);
      v / 0x4_0000 == high && v / 4096 % 64 == b - 0x80 && v / 64 % 64 == c - 0x80 && v % 64 == d - 0x80
  {
    var upper := (high * 64 + (b - 0x80)) * 64 + (c - 0x80);
    var v := upper * 64 + (d - 0x80);
    TwoDigits(high, b, c);
    assert v / 64 == upper;
    assert v / 4096 == upper / 64 && v / 0x4_0000 == upper / 4096;
  }

  lemma EscapedFrom(t: Text, v: Scalar, k: nat)
    requires Escaped(t) == Some((v, k))
    ensures k <= |t| && Spells(t[..k], Utf8Of(v))
  {
    var lead := Octet(t).value;
    var n := Announced(lead).value;
    var b := ContinuedFrom(t[3..], n, Payload(lead));
    OnlyUtf8(lead, b, v);
    OctetIs(t, lead);
    assert ([lead] + b)[1..] == b && t[..k][3..] == t[3..][..3 * n];
  }

  /** Nothing else decodes: a text that does is put together that way. */
  lemma {:induction false} PiecesOf(t: Text) returns (ps: seq<Piece>)
    requires DecodeComponent(t).Some?
    ensures ProperPieces(ps) && PrintPieces(ps) == t
    decreases |t|
  {
    ps := [];
    if t != [] {
      if t[0] != PERCENT {
        var rest := PiecesOf(t[1..]);
        ps := [Plain(t[0])] + rest;
        assert ps[1..] == rest;
      } else {
        var (v, k) := Escaped(t).value;
        EscapedFrom(t, v, k);
        var rest := PiecesOf(t[k..]);
        ps := [Escape(v, t[..k])] + rest;
        assert ps[1..] == rest && t[..k] + t[k..] == t;
      }
    }
  }

  /**
   * Exactly what decodes, and to what: a text decodes if and only if it is put together from plain
   * characters and valid UTF-8 escaped byte by byte, in either case; and then it means just that.
   */
  lemma DecodesExactly(t: Text, u: Text)
    ensures DecodeComponent(t) == Some(u) <==>
      exists ps: seq<Piece> :: ProperPieces(ps) && PrintPieces(ps) == t && Meaning(ps) == u
    ensures DecodeComponent(t) == None ==> DecodeComponentSafe(t) == t
  {
    if DecodeComponent(t).Some? {
      var ps := PiecesOf(t);
      PiecesAreRead(ps);
      assert DecodeComponent(t) == Some(Meaning(ps));
    }
    forall ps: seq<Piece> | ProperPieces(ps) && PrintPieces(ps) == t ensures DecodeComponent(t) == Some(Meaning(ps)) {
      PiecesAreRead(ps);
    }
  }

  // --- decoding undoes encoding --------------------------------------------

  lemma HexRoundTrip(n: nat)
    requires n < 16
    ensures HexValue(HexDigit(n)) == n && IsEncodedChar(HexDigit(n))
  {
  }

  lemma {:induction false} EscapesAreEncoded(b: seq<Byte>)
    ensures Spells(PercentOctets(b), b) && IsEncoded(PercentOctets(b))
  {
    if b != [] {
      EscapesAreEncoded(b[1..]);
      HexRoundTrip(b[0] / 16);
      HexRoundTrip(b[0] % 16);
      var t := PercentOctets(b);
      assert t[3..] == PercentOctets(b[1..]);
    }
  }

  lemma DecodesEncodedCharacter(v: Scalar, rest: Text)
    ensures DecodeComponent(EncodeCharacter(v) + rest) == Prepend(Utf16Of(v), DecodeComponent(rest))
    ensures IsEncoded(EncodeCharacter(v)) && EncodeCharacter(v) != []
  {
    var t := EncodeCharacter(v) + rest;
    if IsUnreserved(v) {
      assert t[1..] == rest;
    } else {
      EscapesAreEncoded(Utf8Of(v));
      EscapeIsRead(v, PercentOctets(Utf8Of(v)), rest);
      SpelledLength(PercentOctets(Utf8Of(v)), Utf8Of(v));
      assert t[0] == PERCENT && t[|PercentOctets(Utf8Of(v))|..] == rest;
    }
  }

  /** What encodeURIComponent makes of any Unicode text decodes to its UTF-16 form. */
  lemma {:induction false} DecodeUndoesEncode(vs: seq<Scalar>)
    ensures DecodeComponent(EncodeComponent(vs)) == Some(Utf16(vs))
    ensures DecodeComponentSafe(EncodeComponent(vs)) == Utf16(vs)
    ensures IsEncoded(EncodeComponent(vs)) && (vs != [] ==> EncodeComponent(vs) != [])
  {
    if vs != [] {
      DecodeUndoesEncode(vs[1..]);
      DecodesEncodedCharacter(vs[0], EncodeComponent(vs[1..]));
    }
  }

  // --- decoding piece by piece -----------------------------------------------

  /** A character that cannot be part of an escape. */
  predicate Separates(c: CodeUnit) {
    c != PERCENT && HexValue(c) == -1
  }

  lemma OctetEnds(a: Text, c: CodeUnit, b: Text)
    requires Separates(c)
    ensures Octet(a + [c] + b) == Octet(a)
  {
    var t := a + [c] + b;
    assert t[|a|] == c && forall i :: 0 <= i < |a| ==> t[i] == a[i];
  }

  lemma {:induction false} ContinuedEnds(a: Text, c: CodeUnit, b: Text, n: nat, soFar: nat)
    requires Separates(c)
    ensures Continued(a + [c] + b, n, soFar) == Continued(a, n, soFar)
    decreases n
  {
    if n > 0 {
      OctetEnds(a, c, b);
      if Octet(a).Some? && 0x80 <= Octet(a).value < 0xc0 {
        assert (a + [c] + b)[3..] == a[3..] + [c] + b;
        ContinuedEnds(a[3..], c, b, n - 1, soFar * 64 + (Octet(a).value - 0x80));
      }
    }
  }

  lemma EscapedEnds(a: Text, c: CodeUnit, b: Text)
    requires Separates(c)
    ensures Escaped(a + [c] + b) == Escaped(a)
  {
    OctetEnds(a, c, b);
    if Octet(a).Some? && Announced(Octet(a).value).Some? {
      assert (a + [c] + b)[3..] == a[3..] + [c] + b;
      ContinuedEnds(a[3..], c, b, Announced(Octet(a).value).value, Payload(Octet(a).value));
    }
  }

  /** Both parts around a separator decode, or the whole does not. */
  function Around(a: Option<Text>, c: CodeUnit, b: Option<Text>): Option<Text> {
    if a.None? || b.None? then None else Some(a.value + [c] + b.value)
  }

  /** What stands on the two sides of a character that cannot be part of an escape decodes on its own. */
  lemma {:induction false} DecodesAround(a: Text, c: CodeUnit, b: Text)
    requires Separates(c)
    ensures DecodeComponent(a + [c] + b) == Around(DecodeComponent(a), c, DecodeComponent(b))
    decreases |a|
  {
    var t := a + [c] + b;
    if a == [] {
      assert t[1..] == b;
      Regroups([], Some([]), c, DecodeComponent(b));
      assert DecodeComponent(b).Some? ==> [] + [c] + DecodeComponent(b).value == [c] + DecodeComponent(b).value;
    } else if a[0] != PERCENT {
      assert t[1..] == a[1..] + [c] + b;
      DecodesAround(a[1..], c, b);
      Regroups([a[0]], DecodeComponent(a[1..]), c, DecodeComponent(b));
    } else {
      EscapedEnds(a, c, b);
      if Escaped(a).Some? {
        var (v, k) := Escaped(a).value;
        assert t[k..] == a[k..] + [c] + b;
        DecodesAround(a[k..], c, b);
        Regroups(Utf16Of(v), DecodeComponent(a[k..]), c, DecodeComponent(b));
      }
    }
  }

  lemma Regroups(first: Text, a: Option<Text>, c: CodeUnit, b: Option<Text>)
    ensures Prepend(first, Around(a, c, b)) == Around(Prepend(first, a), c, b)
  {
    if a.Some? && b.Some? {
      assert first + (a.value + [c] + b.value) == first + a.value + [c] + b.value;
    }
  }
}
