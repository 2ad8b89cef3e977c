/**
 * Whole subscriptions: share links on lines, or the base64 form of such a text.
 */
module Subscription {
  import opened Base64
  import opened Options
  import opened ShareLink
  import opened Text
  import opened Utf8

  // --- the parser ----------------------------------------------------------

  function DropReturn(line: Text): Text {
    if line != [] && line[|line| - 1] == RETURN then line[..|line| - 1] else line
  }

  /** split(/\r?\n/). */
  function Lines(t: Text): seq<Text>
    decreases |t|
  {
    var i := IndexOf(t, NEWLINE);
    if i == -1 then [t] else [DropReturn(t[..i])] + Lines(t[i + 1..])
  }

  /** Any reader of single links will do for what is proved here. */
  type LinkReader = Text -> Option<Server>

  /** parseShareLink. */
  function Links(vmess: VmessReader): LinkReader {
    (uri: Text) => ParseShareLink(uri, vmess)
  }

  function Known(server: Option<Server>): seq<Server> {
    match server
    case None => []
    case Some(s) => [s]
  }

  /** What one line contributes. */
  function ParseLine(line: Text, parse: LinkReader): seq<Server> {
    if Trim(line) == [] then [] else Known(parse(Trim(line)))
  }

  function ParseLines(lines: seq<Text>, parse: LinkReader): seq<Server> {
    if lines == [] then [] else ParseLine(lines[0], parse) + ParseLines(lines[1..], parse)
  }

  function ParseText(t: Text, parse: LinkReader): seq<Server> {
    ParseLines(Lines(t), parse)
  }

  /** parseSubscription. */
  function ParseSubscription(payload: Text, parse: LinkReader): seq<Server> {
    ParseText(if LooksLikeBase64(payload) then Base64ToString(payload) else payload, parse)
  }

  // --- lines ---------------------------------------------------------------

  lemma ReturnIsTrimmed(line: Text)
    ensures Trim(DropReturn(line)) == Trim(line)
  {
    if line != [] && line[|line| - 1] == RETURN {
      var kept := line[..|line| - 1];
      TrimDropsSpace(kept, RETURN);
      LastCharacter(line);
    }
  }

  lemma LastCharacter(line: Text)
    requires line != []
    ensures line[..|line| - 1] + [line[|line| - 1]] == line
  {
  }

  lemma OneLine(line: Text, parse: LinkReader)
    requires NEWLINE !in line
    ensures ParseText(line, parse) == ParseLine(line, parse)
  {
    assert Lines(line) == [line];
    assert [line][1..] == [];
    assert ParseLines([], parse) == [];
  }

  lemma FirstLine(line: Text, rest: Text, parse: LinkReader)
    requires NEWLINE !in line
    ensures ParseText(line + [NEWLINE] + rest, parse) == ParseLine(line, parse) + ParseText(rest, parse)
  {
    var t := line + [NEWLINE] + rest;
    FirstAt(line, NEWLINE, rest);
    Slices(line, NEWLINE, rest);
    ReturnIsTrimmed(line);
    assert Lines(t) == [DropReturn(line)] + Lines(rest);
    assert ([DropReturn(line)] + Lines(rest))[1..] == Lines(rest);
  }

  lemma Regroup(line: Text, rest: Text, b: Text)
    ensures line + [NEWLINE] + rest + [NEWLINE] + b == line + [NEWLINE] + (rest + [NEWLINE] + b)
  {
  }

  lemma Associative(a: seq<Server>, b: seq<Server>, c: seq<Server>)
    ensures a + (b + c) == a + b + c
  {
  }

  lemma CutAt(t: Text, i: nat)
    requires i < |t|
    ensures t == t[..i] + [t[i]] + t[i + 1..]
  {
  }

  /** Parsing two texts joined by a newline is parsing one after the other. */
  lemma {:induction false} TextsAppend(a: Text, b: Text, parse: LinkReader)
    ensures ParseText(a + [NEWLINE] + b, parse) == ParseText(a, parse) + ParseText(b, parse)
    decreases |a|
  {
    var i := IndexOf(a, NEWLINE);
    if i == -1 {
      OneLine(a, parse);
      FirstLine(a, b, parse);
    } else {
      var line, rest := a[..i], a[i + 1..];
      CutAt(a, i);
      Regroup(line, rest, b);
      TextsAppend(rest, b, parse);
      FirstLine(line, rest, parse);
      FirstLine(line, rest + [NEWLINE] + b, parse);
      Associative(ParseLine(line, parse), ParseText(rest, parse), ParseText(b, parse));
    }
  }

  lemma JoinFirst(parts: seq<Text>, c: CodeUnit)
    requires |parts| > 1
    ensures Join(parts, c) == parts[0] + [c] + Join(parts[1..], c)
  {
  }

  lemma LinesFirst(parts: seq<Text>, parse: LinkReader)
    requires parts != []
    ensures ParseLines(parts, parse) == ParseLine(parts[0], parse) + ParseLines(parts[1..], parse)
  {
  }

  lemma JustOneLine(parts: seq<Text>, parse: LinkReader)
    requires |parts| == 1 && NEWLINE !in parts[0]
    ensures ParseText(Join(parts, NEWLINE), parse) == ParseLines(parts, parse)
  {
    OneLine(parts[0], parse);
    assert ParseLines(parts[1..], parse) == [];
  }

  /** A text made of lines is parsed line by line. */
  lemma {:induction false} JoinedLines(parts: seq<Text>, parse: LinkReader)
    requires forall i :: 0 <= i < |parts| ==> NEWLINE !in parts[i]
    ensures ParseText(Join(parts, NEWLINE), parse) == ParseLines(parts, parse)
  {
    if parts == [] {
      OneLine([], parse);
    } else if |parts| == 1 {
      JustOneLine(parts, parse);
    } else {
      JoinedLines(parts[1..], parse);
      FirstLine(parts[0], Join(parts[1..], NEWLINE), parse);
      JoinFirst(parts, NEWLINE);
      LinesFirst(parts, parse);
    }
  }

  // --- texts with a link in them -------------------------------------------

  /** Does the text contain "://"? */
  predicate HasMark(t: Text) {
    IndexOfMark(t) != -1
  }

  lemma MarkBefore(t: Text, b: Text)
    requires HasMark(t)
    ensures HasMark(t + b)
  {
    assert MarkAt(t + b, IndexOfMark(t));
  }

  lemma MarkAfter(a: Text, t: Text)
    requires HasMark(t)
    ensures HasMark(a + t)
  {
    assert MarkAt(a + t, |a| + IndexOfMark(t));
  }

  lemma TrimStartKeepsMark(t: Text, k: nat)
    requires MarkAt(t, k)
    ensures k >= |t| - |TrimStart(t)| && MarkAt(TrimStart(t), k - (|t| - |TrimStart(t)|))
  {
    assert !IsSpace(t[k]);
  }

  lemma TrimEndKeepsMark(t: Text, k: nat)
    requires MarkAt(t, k)
    ensures MarkAt(TrimEnd(t), k)
  {
    assert !IsSpace(t[k + 2]);
  }

  /** "://" has no white space, so trimming keeps it. */
  lemma TrimKeepsMark(t: Text)
    ensures HasMark(Trim(t)) <==> HasMark(t)
  {
    if HasMark(t) {
      var k := IndexOfMark(t);
      var dropped := |t| - |TrimStart(t)|;
      TrimStartKeepsMark(t, k);
      TrimEndKeepsMark(TrimStart(t), k - dropped);
      assert MarkAt(Trim(t), k - dropped);
    }
    if HasMark(Trim(t)) {
      TrimAddsNoMark(t, IndexOfMark(Trim(t)));
    }
  }

  lemma TrimAddsNoMark(t: Text, k: nat)
    requires MarkAt(Trim(t), k)
    ensures HasMark(t)
  {
    assert MarkAt(TrimStart(t), k);
    assert MarkAt(t, |t| - |TrimStart(t)| + k);
  }

  lemma LinksAreNotBase64(t: Text)
    requires HasMark(t)
    ensures !LooksLikeBase64(t)
  {
    TrimKeepsMark(t);
  }

  /** Nor is a text of nothing but white space. */
  lemma BlankIsNotBase64(t: Text)
    requires Blank(t)
    ensures !LooksLikeBase64(t)
  {
    BlankBehind([], t);
    assert [] + t == t;
  }

  lemma {:induction false} JoinIsMarked(parts: seq<Text>, c: CodeUnit, i: nat)
    requires i < |parts| && HasMark(parts[i])
    ensures HasMark(Join(parts, c))
  {
    if i == 0 {
      if |parts| > 1 {
        MarkBefore(parts[0], [c]);
        MarkBefore(parts[0] + [c], Join(parts[1..], c));
      }
    } else {
      JoinIsMarked(parts[1..], c, i - 1);
      MarkAfter(parts[0] + [c], Join(parts[1..], c));
    }
  }

  /** Two subscriptions with links, joined by a newline, yield both lists of servers. */
  lemma SubscriptionsAppend(a: Text, b: Text, parse: LinkReader)
    requires HasMark(a) && HasMark(b)
    ensures ParseSubscription(a + [NEWLINE] + b, parse) == ParseSubscription(a, parse) + ParseSubscription(b, parse)
  {
    MarkBefore(a, [NEWLINE]);
    MarkBefore(a + [NEWLINE], b);
    LinksAreNotBase64(a);
    LinksAreNotBase64(b);
    LinksAreNotBase64(a + [NEWLINE] + b);
    TextsAppend(a, b, parse);
  }

  // --- base64 --------------------------------------------------------------

  lemma {:induction false} CharactersKept(t: Text, i: nat)
    requires i < |t| && !IsSpace(t[i])
    ensures t[i] in WithoutSpaces(t)
  {
    if i > 0 {
      CharactersKept(t[1..], i - 1);
    }
  }

  lemma {:induction false} OnlySpaces(t: Text)
    requires forall i :: 0 <= i < |t| ==> IsSpace(t[i])
    ensures WithoutSpaces(t) == []
  {
    if t != [] {
      OnlySpaces(t[1..]);
    }
  }

  lemma NonEmptyEncoding(vs: seq<Scalar>, urlSafe: bool, padded: bool)
    requires vs != []
    ensures Encode(Utf8Bytes(vs), urlSafe, padded) != []
  {
    assert Utf8Bytes(vs) != [];
    assert Sextets(Utf8Bytes(vs)) != [];
  }

  /** The base64 form is recognized as such, and never contains "://". */
  lemma WrappedIsRecognized(w: Text, vs: seq<Scalar>, urlSafe: bool, padded: bool)
    requires WithoutSpaces(w) == Encode(Utf8Bytes(vs), urlSafe, padded)
    ensures !HasMark(w) && (vs != [] ==> LooksLikeBase64(w))
  {
    EncodingIsPlain(Utf8Bytes(vs), urlSafe, padded);
    forall i | 0 <= i < |w| ensures IsBase64Char(w[i]) && w[i] != COLON {
      if !IsSpace(w[i]) {
        CharactersKept(w, i);
      }
    }
    assert forall k: nat :: !MarkAt(w, k);
    if vs != [] {
      NonEmptyEncoding(vs, urlSafe, padded);
      TrimKeepsMark(w);
      TrimIsInside(w);
      if Trim(w) == [] {
        OnlySpaces(w);
      }
    }
  }

  /** What trimming leaves is part of the text, and what it takes is white space. */
  lemma TrimIsInside(t: Text)
    ensures forall i :: 0 <= i < |Trim(t)| ==> Trim(t)[i] in t
    ensures Trim(t) == [] ==> forall i :: 0 <= i < |t| ==> IsSpace(t[i])
  {
    var start := TrimStart(t);
    assert forall i :: 0 <= i < |start| ==> start[i] == t[|t| - |start| + i];
  }

  /**
   * Wrapping in base64 does not change what a text with links means: either alphabet, padded or
   * not, broken into lines or not.
   */
  lemma WrappingKeepsMeaning(w: Text, vs: seq<Scalar>, urlSafe: bool, padded: bool, parse: LinkReader)
    requires WithoutSpaces(w) == Encode(Utf8Bytes(vs), urlSafe, padded)
    requires HasMark(Utf16(vs))
    ensures ParseSubscription(w, parse) == ParseSubscription(Utf16(vs), parse)
  {
    WrappedIsRecognized(w, vs, urlSafe, padded);
    TextArrives(w, vs, urlSafe, padded);
    LinksAreNotBase64(Utf16(vs));
  }

  // --- what has no link yields no server -----------------------------------

  /** A reader that finds a server only where there is "://". */
  ghost predicate NeedsMark(parse: LinkReader) {
    forall t: Text :: !HasMark(t) ==> parse(t).None?
  }

  lemma LinksNeedMark(vmess: VmessReader)
    ensures NeedsMark(Links(vmess))
  {
    forall t: Text | !HasMark(t) ensures Links(vmess)(t).None? {
      TrimKeepsMark(t);
    }
  }

  lemma LineWithoutMark(line: Text, parse: LinkReader)
    requires NeedsMark(parse) && !HasMark(line)
    ensures ParseLine(line, parse) == []
  {
    TrimKeepsMark(line);
  }

  lemma PartsWithoutMark(line: Text, rest: Text)
    requires !HasMark(line + [NEWLINE] + rest)
    ensures !HasMark(line) && !HasMark(rest)
  {
    if HasMark(line) {
      MarkBefore(line, [NEWLINE]);
      MarkBefore(line + [NEWLINE], rest);
    }
    if HasMark(rest) {
      MarkAfter(line + [NEWLINE], rest);
    }
  }

  lemma {:induction false} TextWithoutMark(t: Text, parse: LinkReader)
    requires NeedsMark(parse) && !HasMark(t)
    ensures ParseText(t, parse) == []
    decreases |t|
  {
    var i := IndexOf(t, NEWLINE);
    if i == -1 {
      OneLine(t, parse);
      LineWithoutMark(t, parse);
    } else {
      CutAt(t, i);
      PartsWithoutMark(t[..i], t[i + 1..]);
      TextWithoutMark(t[i + 1..], parse);
      LineWithoutMark(t[..i], parse);
      FirstLine(t[..i], t[i + 1..], parse);
    }
  }

  /**
   * Exactly when wrapping keeps the meaning: unless the text has no link of its own and is itself
   * the base64 form of a list of servers, which the second wrapping hides.
   */
  lemma WrappingExactly(w: Text, vs: seq<Scalar>, urlSafe: bool, padded: bool, parse: LinkReader)
    requires NeedsMark(parse) && vs != [] && WithoutSpaces(w) == Encode(Utf8Bytes(vs), urlSafe, padded)
    ensures !HasMark(Utf16(vs)) ==> ParseSubscription(w, parse) == []
    ensures ParseSubscription(w, parse) == ParseSubscription(Utf16(vs), parse) <==>
      HasMark(Utf16(vs)) || !LooksLikeBase64(Utf16(vs)) || ParseText(Base64ToString(Utf16(vs)), parse) == []
  {
    if HasMark(Utf16(vs)) {
      WrappingKeepsMeaning(w, vs, urlSafe, padded, parse);
    } else {
      WrappedIsRecognized(w, vs, urlSafe, padded);
      TextArrives(w, vs, urlSafe, padded);
      TextWithoutMark(Utf16(vs), parse);
    }
  }

  /** For share links: wrapping changes the meaning only of a text that is itself the base64 form of links. */
  lemma LinksWrappingExactly(w: Text, vs: seq<Scalar>, urlSafe: bool, padded: bool, vmess: VmessReader)
    requires vs != [] && WithoutSpaces(w) == Encode(Utf8Bytes(vs), urlSafe, padded)
    ensures ParseSubscription(w, Links(vmess)) == ParseSubscription(Utf16(vs), Links(vmess)) <==>
      HasMark(Utf16(vs)) || !LooksLikeBase64(Utf16(vs)) || ParseText(Base64ToString(Utf16(vs)), Links(vmess)) == []
  {
    LinksNeedMark(vmess);
    WrappingExactly(w, vs, urlSafe, padded, Links(vmess));
  }

  // --- wrapped twice -------------------------------------------------------

  /** The characters of a plain text. */
  function Characters(t: Text): (vs: seq<Scalar>)
    requires forall i :: 0 <= i < |t| ==> t[i] < 0x80
    ensures |vs| == |t|
  {
    if t == [] then [] else [t[0] as int] + Characters(t[1..])
  }

  lemma {:induction false} CharactersAreTheText(t: Text)
    requires forall i :: 0 <= i < |t| ==> t[i] < 0x80
    ensures Utf16(Characters(t)) == t
  {
    if t != [] {
      CharactersAreTheText(t[1..]);
      assert Characters(t)[1..] == Characters(t[1..]);
      assert t == [t[0]] + t[1..];
    }
  }

  lemma Base64CharIsPlain(c: CodeUnit)
    requires IsBase64Char(c) && !IsSpace(c)
    ensures c < 0x80
  {
  }

  lemma WrappedIsPlain(vs: seq<Scalar>, urlSafe: bool, padded: bool)
    ensures var t := Encode(Utf8Bytes(vs), urlSafe, padded);
      WithoutSpaces(t) == t && forall i :: 0 <= i < |t| ==> t[i] < 0x80
  {
    var t := Encode(Utf8Bytes(vs), urlSafe, padded);
    EncodingIsPlain(Utf8Bytes(vs), urlSafe, padded);
    NoSpacesToDrop(t);
    forall i | 0 <= i < |t| ensures t[i] < 0x80 {
      Base64CharIsPlain(t[i]);
    }
  }

  /** The second wrapping hides every link: a text wrapped once yields its servers, wrapped twice none. */
  lemma TwiceIsLost(vs: seq<Scalar>, once: Text, twice: Text, urlSafe: bool, padded: bool, parse: LinkReader)
    requires NeedsMark(parse) && HasMark(Utf16(vs)) && once == Encode(Utf8Bytes(vs), urlSafe, padded)
    requires forall i :: 0 <= i < |once| ==> once[i] < 0x80
    requires twice == Encode(Utf8Bytes(Characters(once)), urlSafe, padded)
    ensures ParseSubscription(once, parse) == ParseSubscription(Utf16(vs), parse)
    ensures ParseSubscription(twice, parse) == []
  {
    WrappedIsPlain(vs, urlSafe, padded);
    WrappedIsPlain(Characters(once), urlSafe, padded);
    WrappingKeepsMeaning(once, vs, urlSafe, padded, parse);
    WrappedIsRecognized(once, vs, urlSafe, padded);
    NonEmptyEncoding(vs, urlSafe, padded);
    CharactersAreTheText(once);
    WrappingExactly(twice, Characters(once), urlSafe, padded, parse);
  }
}
