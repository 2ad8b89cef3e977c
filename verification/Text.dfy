/**
 * JavaScript strings: sequences of UTF-16 code units, with the few operations the parsers use.
 */
module Text {
  import opened Options

  type CodeUnit = u: int | 0 <= u < 0x1_0000

  type Text = seq<CodeUnit>

  const HASH: CodeUnit := 0x23
  const PERCENT: CodeUnit := 0x25
  const AMPERSAND: CodeUnit := 0x26
  const PLUS: CodeUnit := 0x2b
  const COMMA: CodeUnit := 0x2c
  const MINUS: CodeUnit := 0x2d
  const SLASH: CodeUnit := 0x2f
  const COLON: CodeUnit := 0x3a
  const EQUALS: CodeUnit := 0x3d
  const QUESTION: CodeUnit := 0x3f
  const AT: CodeUnit := 0x40
  const OPEN_BRACKET: CodeUnit := 0x5b
  const CLOSE_BRACKET: CodeUnit := 0x5d
  const UNDERSCORE: CodeUnit := 0x5f
  const NEWLINE: CodeUnit := 0x0a
  const RETURN: CodeUnit := 0x0d

  /** The white space and line terminators that `\s` and `trim` know. */
  predicate IsSpace(c: CodeUnit) {
    0x09 <= c <= 0x0d || c == 0x20 || c == 0xa0 || c == 0x1680 || 0x2000 <= c <= 0x200a ||
    c == 0x2028 || c == 0x2029 || c == 0x202f || c == 0x205f || c == 0x3000 || c == 0xfeff
  }

  /** WhiteSpace and LineTerminator of ECMAScript (sections 12.2 and 12.3 of ECMA-262). */
  const SPACES: set<CodeUnit> := {
    0x09, 0x0b, 0x0c, 0xfeff,                                                         // TAB, VT, FF, ZWNBSP
    0x20, 0xa0, 0x1680, 0x202f, 0x205f, 0x3000,                                       // Unicode space separators
    0x2000, 0x2001, 0x2002, 0x2003, 0x2004, 0x2005, 0x2006, 0x2007, 0x2008, 0x2009, 0x200a,
    0x0a, 0x0d, 0x2028, 0x2029}                                                       // LF, CR, LS, PS

  lemma SpacesAreThose(c: CodeUnit)
    ensures IsSpace(c) <==> c in SPACES
  {
  }

  /** The code units of a literal made of ASCII characters; any other becomes '?'. */
  function Ascii(s: string): (t: Text)
    ensures |t| == |s| && forall i :: 0 <= i < |t| ==> t[i] == if s[i] as int < 0x80 then s[i] as int else QUESTION
  {
    seq(|s|, i requires 0 <= i < |s| => if s[i] as int < 0x80 then s[i] as int else QUESTION)
  }

  // --- trim ----------------------------------------------------------------

  function TrimStart(t: Text): (r: Text)
    ensures |r| <= |t| && r == t[|t| - |r|..]
    ensures forall i :: 0 <= i < |t| - |r| ==> IsSpace(t[i])
    ensures r != [] ==> !IsSpace(r[0])
  {
    if t != [] && IsSpace(t[0]) then TrimStart(t[1..]) else t
  }

  function TrimEnd(t: Text): (r: Text)
    ensures r <= t
    ensures forall i :: |r| <= i < |t| ==> IsSpace(t[i])
    ensures r != [] ==> !IsSpace(r[|r| - 1])
  {
    if t != [] && IsSpace(t[|t| - 1]) then TrimEnd(t[..|t| - 1]) else t
  }

  function Trim(t: Text): (r: Text)
    ensures Trimmed(r) && (Trimmed(t) ==> r == t)
  {
    TrimEnd(TrimStart(t))
  }

  /** Nothing to trim. */
  predicate Trimmed(t: Text) {
    t != [] ==> !IsSpace(t[0]) && !IsSpace(t[|t| - 1])
  }

  predicate NoSpace(t: Text) {
    forall i :: 0 <= i < |t| ==> !IsSpace(t[i])
  }

  lemma NoSpaceTogether(a: Text, b: Text)
    requires NoSpace(a) && NoSpace(b)
    ensures NoSpace(a + b)
  {
  }

  lemma {:induction false} TrimDropsSpace(t: Text, space: CodeUnit)
    requires IsSpace(space)
    ensures Trim(t + [space]) == Trim(t)
  {
    var longer := t + [space];
    if t == [] {
      assert longer[1..] == [];
    } else if IsSpace(t[0]) {
      assert longer[1..] == t[1..] + [space];
      TrimDropsSpace(t[1..], space);
    } else {
      assert longer[..|longer| - 1] == t;
    }
  }

  predicate Blank(t: Text) {
    forall i :: 0 <= i < |t| ==> IsSpace(t[i])
  }

  lemma BlankInFront(space: Text, t: Text)
    requires Blank(space) && Trimmed(t)
    ensures Trim(space + t) == t
  {
    SpaceIsSkipped(space, t);
  }

  lemma {:induction false} BlankBehind(t: Text, space: Text)
    requires Blank(space)
    ensures Trim(t + space) == Trim(t)
    decreases |space|
  {
    if space == [] {
      assert t + space == t;
    } else {
      var front := space[..|space| - 1];
      assert t + space == t + front + [space[|space| - 1]];
      BlankBehind(t, front);
      TrimDropsSpace(t + front, space[|space| - 1]);
    }
  }

  /** Trimming takes away all white space around a text, and nothing else. */
  lemma TrimUndoesPadding(before: Text, t: Text, after: Text)
    requires Blank(before) && Blank(after) && Trimmed(t)
    ensures Trim(before + t + after) == t
  {
    BlankBehind(before + t, after);
    BlankInFront(before, t);
  }

  // --- searching -----------------------------------------------------------

  /** indexOf for one character. */
  function IndexOf(t: Text, c: CodeUnit): (i: int)
    ensures -1 <= i < |t|
    ensures if i == -1 then c !in t else t[i] == c && forall k :: 0 <= k < i ==> t[k] != c
  {
    if t == [] then -1
    else if t[0] == c then 0
    else
      var i := IndexOf(t[1..], c);
      if i == -1 then -1 else i + 1
  }

  /** lastIndexOf for one character. */
  function LastIndexOf(t: Text, c: CodeUnit): (i: int)
    ensures -1 <= i < |t|
    ensures if i == -1 then c !in t else t[i] == c && forall k :: i < k < |t| ==> t[k] != c
  {
    if t == [] then -1
    else if t[|t| - 1] == c then |t| - 1
    else LastIndexOf(t[..|t| - 1], c)
  }

  /** The text in front of the first `c` (all of it when there is none). */
  function Before(t: Text, c: CodeUnit): Text {
    if IndexOf(t, c) == -1 then t else t[..IndexOf(t, c)]
  }

  /** The text behind the first `c` (empty when there is none). */
  function After(t: Text, c: CodeUnit): Text {
    if IndexOf(t, c) == -1 then [] else t[IndexOf(t, c) + 1..]
  }

  lemma Slices(a: Text, c: CodeUnit, b: Text)
    ensures var t := a + [c] + b; |t| == |a| + 1 + |b| && t[..|a|] == a && t[|a|] == c && t[|a| + 1..] == b
  {
  }

  lemma FirstAt(a: Text, c: CodeUnit, b: Text)
    requires c !in a
    ensures IndexOf(a + [c] + b, c) == |a|
    ensures Before(a + [c] + b, c) == a && After(a + [c] + b, c) == b
  {
    var t := a + [c] + b;
    Slices(a, c, b);
    assert forall k :: 0 <= k < |a| ==> t[k] == a[k];
  }

  lemma NoneAt(t: Text, c: CodeUnit)
    requires c !in t
    ensures IndexOf(t, c) == -1 && Before(t, c) == t && After(t, c) == []
  {
  }

  lemma LastAt(a: Text, c: CodeUnit, b: Text)
    requires c !in b
    ensures LastIndexOf(a + [c] + b, c) == |a|
    ensures (a + [c] + b)[..|a|] == a && (a + [c] + b)[|a| + 1..] == b
  {
    Slices(a, c, b);
    LastIs(a + [c] + b, |a|, c);
  }

  lemma LastIs(t: Text, i: nat, c: CodeUnit)
    requires i < |t| && t[i] == c && c !in t[i + 1..]
    ensures LastIndexOf(t, c) == i
  {
    assert forall k :: i < k < |t| ==> t[k] in t[i + 1..];
  }

  /** "://" at position `k`. */
  predicate MarkAt(t: Text, k: nat) {
    k + 3 <= |t| && t[k] == COLON && t[k + 1] == SLASH && t[k + 2] == SLASH
  }

  /** indexOf('://'). */
  function IndexOfMark(t: Text): (i: int)
    ensures i >= -1
    ensures if i == -1 then forall k: nat :: !MarkAt(t, k) else MarkAt(t, i) && forall k: nat :: k < i ==> !MarkAt(t, k)
  {
    if t == [] then -1
    else if MarkAt(t, 0) then 0
    else
      var i := IndexOfMark(t[1..]);
      assert forall k: nat :: 0 < k && MarkAt(t, k) ==> MarkAt(t[1..], k - 1);
      if i == -1 then -1 else i + 1
  }

  /** split on one character. */
  function Split(t: Text, c: CodeUnit): (parts: seq<Text>)
    ensures |parts| > 0
    decreases |t|
  {
    var i := IndexOf(t, c);
    if i == -1 then [t] else [t[..i]] + Split(t[i + 1..], c)
  }

  function Join(parts: seq<Text>, c: CodeUnit): Text {
    if parts == [] then []
    else if |parts| == 1 then parts[0]
    else parts[0] + [c] + Join(parts[1..], c)
  }

  lemma {:induction false} SplitUndoesJoin(parts: seq<Text>, c: CodeUnit)
    requires parts != [] && forall i :: 0 <= i < |parts| ==> c !in parts[i]
    ensures Split(Join(parts, c), c) == parts
  {
    if |parts| > 1 {
      FirstAt(parts[0], c, Join(parts[1..], c));
      SplitUndoesJoin(parts[1..], c);
    }
  }

  // --- numbers -------------------------------------------------------------

  predicate IsDecimal(c: CodeUnit) {
    0x30 <= c <= 0x39
  }

  /** A number as a template literal prints it. */
  function Decimal(n: int): (t: Text)
    ensures t != []
    ensures n >= 0 ==> forall i :: 0 <= i < |t| ==> IsDecimal(t[i])
    decreases n < 0, if n < 0 then -n else n
  {
    if n < 0 then [MINUS] + Decimal(-n)
    else if n < 10 then [0x30 + n]
    else Decimal(n / 10) + [0x30 + n % 10]
  }

  /** The digits at the front of the text, read after `soFar`. */
  function ReadDigits(t: Text, soFar: nat): nat {
    if t != [] && IsDecimal(t[0]) then ReadDigits(t[1..], soFar * 10 + (t[0] - 0x30)) else soFar
  }

  predicate StartsWithDigit(t: Text) {
    t != [] && IsDecimal(t[0])
  }

  /** parseInt(t, 10), with None for NaN. */
  function ParseInt(t: Text): Option<int> {
    ParseSigned(TrimStart(t))
  }

  function ParseSigned(t: Text): Option<int> {
    if t != [] && t[0] == MINUS then Negated(ParseDigits(t[1..]))
    else if t != [] && t[0] == PLUS then ParseDigits(t[1..])
    else ParseDigits(t)
  }

  function ParseDigits(t: Text): Option<int> {
    if StartsWithDigit(t) then Some(ReadDigits(t, 0)) else None
  }

  function Negated(n: Option<int>): Option<int> {
    if n.Some? then Some(0 - n.value) else None
  }

  lemma {:induction false} ReadsDigit(a: Text, d: CodeUnit, soFar: nat)
    requires IsDecimal(d) && forall i :: 0 <= i < |a| ==> IsDecimal(a[i])
    ensures ReadDigits(a + [d], soFar) == ReadDigits(a, soFar) * 10 + (d - 0x30)
  {
    if a == [] {
      assert ReadDigits(([d])[1..], soFar * 10 + (d - 0x30)) == soFar * 10 + (d - 0x30);
      assert a + [d] == [d];
    } else {
      assert (a + [d])[1..] == a[1..] + [d];
      ReadsDigit(a[1..], d, soFar * 10 + (a[0] - 0x30));
    }
  }

  lemma {:induction false} ReadDecimal(n: nat)
    ensures ReadDigits(Decimal(n), 0) == n
  {
    if n < 10 {
      assert Decimal(n)[1..] == [];
    } else {
      ReadDecimal(n / 10);
      ReadsDigit(Decimal(n / 10), 0x30 + n % 10, 0);
    }
  }

  predicate AllDecimal(t: Text) {
    forall i :: 0 <= i < |t| ==> IsDecimal(t[i])
  }

  /** Reading stops in front of the first character that is no digit. */
  lemma {:induction false} DigitsEnd(digits: Text, rest: Text, soFar: nat)
    requires AllDecimal(digits) && !StartsWithDigit(rest)
    ensures ReadDigits(digits + rest, soFar) == ReadDigits(digits, soFar)
  {
    if digits == [] {
      assert digits + rest == rest;
    } else {
      assert (digits + rest)[1..] == digits[1..] + rest;
      DigitsEnd(digits[1..], rest, soFar * 10 + (digits[0] - 0x30));
    }
  }

  lemma {:induction false} SpaceIsSkipped(space: Text, t: Text)
    requires Blank(space) && (t != [] ==> !IsSpace(t[0]))
    ensures TrimStart(space + t) == t
  {
    if space == [] {
      assert space + t == t;
    } else {
      assert (space + t)[1..] == space[1..] + t;
      SpaceIsSkipped(space[1..], t);
    }
  }

  /** A sign is none, a '+' or a '-'. */
  predicate IsSign(sign: Text) {
    sign == [] || sign == [PLUS] || sign == [MINUS]
  }

  /** What follows the sign decides; without a sign it does not begin with one. */
  lemma SignIsRead(sign: Text, digits: Text)
    requires IsSign(sign)
    requires sign == [] && digits != [] ==> digits[0] != PLUS && digits[0] != MINUS
    ensures ParseSigned(sign + digits) == if sign == [MINUS] then Negated(ParseDigits(digits)) else ParseDigits(digits)
  {
    if sign == [] {
      assert sign + digits == digits;
    } else {
      SignStandsFirst(sign[0], digits);
      assert sign == [sign[0]];
    }
  }

  lemma SignStandsFirst(sign: CodeUnit, digits: Text)
    ensures ([sign] + digits)[0] == sign && ([sign] + digits)[1..] == digits && [sign] + digits != []
  {
  }

  lemma SpaceBeforeNumber(space: Text, t: Text)
    requires Blank(space) && (t != [] ==> !IsSpace(t[0]))
    ensures ParseInt(space + t) == ParseSigned(t)
  {
    SpaceIsSkipped(space, t);
  }

  lemma PrintedDigitsAreRead(n: nat, rest: Text)
    requires !StartsWithDigit(rest)
    ensures StartsWithDigit(Decimal(n) + rest) && ParseDigits(Decimal(n) + rest) == Some(n)
  {
    var digits := Decimal(n);
    assert AllDecimal(digits) && (digits + rest)[0] == digits[0];
    DigitsEnd(digits, rest, 0);
    ReadDecimal(n);
  }

  lemma NothingToSkip(sign: Text, t: Text)
    requires IsSign(sign) && StartsWithDigit(t)
    ensures sign + t != [] && !IsSpace((sign + t)[0]) && t[0] != PLUS && t[0] != MINUS
  {
    if sign == [] {
      assert sign + t == t;
    } else {
      assert (sign + t)[0] == sign[0];
    }
  }

  /**
   * Reading a printed natural number gives it back, whatever follows it that is no digit, behind any
   * white space, and with the sign that stands in front of it.
   */
  lemma ParseUndoesDecimal(space: Text, sign: Text, n: nat, rest: Text)
    requires Blank(space) && IsSign(sign) && !StartsWithDigit(rest)
    ensures ParseInt(space + (sign + (Decimal(n) + rest))) == Some(if sign == [MINUS] then 0 - n else n)
  {
    var t := Decimal(n) + rest;
    PrintedDigitsAreRead(n, rest);
    NothingToSkip(sign, t);
    SignIsRead(sign, t);
    SpaceBeforeNumber(space, sign + t);
  }

  /** A text with no digit behind its white space and sign is not a number. */
  lemma NoDigitNoNumber(space: Text, sign: Text, rest: Text)
    requires Blank(space) && IsSign(sign) && !StartsWithDigit(rest)
    requires sign == [] && rest != [] ==> rest[0] != PLUS && rest[0] != MINUS && !IsSpace(rest[0])
    ensures ParseInt(space + (sign + rest)) == None
  {
    SignIsRead(sign, rest);
    if sign + rest != [] {
      assert (sign + rest)[0] == if sign == [] then rest[0] else sign[0];
    }
    SpaceBeforeNumber(space, sign + rest);
  }

  /** The plain case: the number, and then no digit. */
  lemma NumberIsRead(n: nat, rest: Text)
    requires !StartsWithDigit(rest)
    ensures ParseInt(Decimal(n) + rest) == Some(n)
  {
    ParseUndoesDecimal([], [], n, rest);
    var nothing: Text := [];
    assert nothing + (nothing + (Decimal(n) + rest)) == Decimal(n) + rest;
  }
}
