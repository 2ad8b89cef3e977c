/**
 * Shadowsocks links whose user info is percent-encoded instead of base64. The parser tries base64
 * first, so such a link stands for its server only if that attempt yields no other pair.
 */
module PercentForm {
  import opened Base64
  import opened Options
  import opened Percent
  import opened Profiles
  import opened ShareLink
  import opened Shadowsocks
  import opened Text
  import opened Utf8

  /** `method:password`, percent-encoded, in front of '@host:port'. */
  function PercentBody(p: SsProfile): Text {
    EncodeComponent(CredentialsOf(p)) + [AT] + Utf16(p.hostPort)
  }

  /** What the parser finds when it takes the percent-encoded user info for base64. */
  function Misread(p: SsProfile): Option<(Text, Text)> {
    Credentials(Base64ToString(EncodeComponent(CredentialsOf(p))))
  }

  function OwnPair(p: SsProfile): (Text, Text) {
    (Utf16(p.cipher), Utf16(p.password))
  }

  // --- exactly when it is read back ----------------------------------------

  lemma PercentBodyIsRead(p: SsProfile)
    requires ProperSs(p)
    ensures ShadowsocksBody(PercentBody(p)) ==
      Some((if Misread(p).Some? then Misread(p).value else OwnPair(p), SplitHostPort(Utf16(p.hostPort))))
  {
    var userinfo, host := EncodeComponent(CredentialsOf(p)), Utf16(p.hostPort);
    Percent.DecodeUndoesEncode(CredentialsOf(p));
    CredentialsArrive(p);
    LastAt(userinfo, AT, host);
    assert PercentBody(p)[|userinfo|] == AT;
  }

  lemma PercentBodyIsPlain(p: SsProfile)
    requires ProperSs(p)
    ensures Unbroken(PercentBody(p))
  {
    EncodedIsHarmless(CredentialsOf(p));
    UnbrokenTogether(EncodeComponent(CredentialsOf(p)), [AT]);
    UnbrokenTogether(EncodeComponent(CredentialsOf(p)) + [AT], Utf16(p.hostPort));
  }

  lemma PercentLinkIsParsed(p: SsProfile, plugin: Text, raw: Text)
    requires ProperSs(p) && ProperPlugin(plugin)
    ensures ParseShadowsocks(PercentBody(p) + Suffix(QUESTION, plugin) + Suffix(HASH, EncodeComponent(p.tag)), raw) ==
      ShadowsocksOf(Utf16(p.tag), ShadowsocksBody(PercentBody(p)), raw)
  {
    PercentBodyIsPlain(p);
    UnbrokenLacks(PercentBody(p));
    LinkFallsApart(PercentBody(p), plugin, p.tag);
  }

  lemma PercentLinkIsDispatched(p: SsProfile, scheme: Text, plugin: Text, vmess: VmessReader)
    requires ProperSs(p) && LowerCase(scheme) == Ascii("ss") && ProperPlugin(plugin)
    ensures var link := SsLink(scheme, PercentBody(p), plugin, p.tag);
      ParseShareLink(link, vmess) == ShadowsocksOf(Utf16(p.tag), ShadowsocksBody(PercentBody(p)), link)
  {
    PercentBodyIsPlain(p);
    UnbrokenLacks(PercentBody(p));
    LinkHasNoSpace(PercentBody(p), plugin, p.tag);
    SsIsDispatched(scheme, PercentBody(p) + Suffix(QUESTION, plugin) + Suffix(HASH, EncodeComponent(p.tag)), vmess);
    PercentLinkIsParsed(p, plugin, SsLink(scheme, PercentBody(p), plugin, p.tag));
  }

  /**
   * Exactly when a link with percent-encoded user info parses to the server it was printed from:
   * unless it has a host and a port, and the characters of its user info, read as base64, happen to
   * yield another pair.
   */
  lemma PercentFormExactly(p: SsProfile, scheme: Text, plugin: Text, vmess: VmessReader)
    requires ProperSs(p) && LowerCase(scheme) == Ascii("ss") && ProperPlugin(plugin)
    ensures var link := SsLink(scheme, PercentBody(p), plugin, p.tag);
      ParseShareLink(link, vmess) == SsRecord(p, link) <==>
        SsRecord(p, link).None? || Misread(p).None? || Misread(p).value == OwnPair(p)
  {
    var link := SsLink(scheme, PercentBody(p), plugin, p.tag);
    PercentLinkIsDispatched(p, scheme, plugin, vmess);
    PercentBodyIsRead(p);
    SsBodyIsRead(p, link);
  }

  // --- user info with a plain ':' --------------------------------------------

  /** The two sides of the ':', decoded, or as they stand when either is malformed. */
  function PlainPair(cipher: Text, password: Text): (Text, Text) {
    if DecodeComponent(cipher).Some? && DecodeComponent(password).Some? then
      (DecodeComponent(cipher).value, DecodeComponent(password).value)
    else (cipher, password)
  }

  /** User info written as it is, `method:password`, is read as that pair unless its base64 reading is one. */
  lemma PlainPairIsRead(cipher: Text, password: Text)
    requires COLON !in PlainPair(cipher, password).0
    ensures var userinfo, pair := cipher + [COLON] + password, PlainPair(cipher, password);
      var fromBase64 := Credentials(Base64ToString(userinfo));
      DecodeUserinfoCreds(userinfo) ==
        if fromBase64.Some? then fromBase64 else if pair.0 == [] then None else Some(pair)
  {
    var pair := PlainPair(cipher, password);
    DecodesAround(cipher, COLON, password);
    FirstAt(pair.0, COLON, pair.1);
  }

  /** `method:password` with a plain ':', in front of '@host:port' and perhaps a path. */
  function PlainBody(cipher: Text, password: Text, host: HostName, port: nat, path: Text): Text {
    cipher + [COLON] + password + [AT] + (PrintHostPort(host, port) + path)
  }

  predicate ProperPlain(cipher: Text, password: Text, host: HostName, path: Text) {
    && Unbroken(cipher) && Unbroken(password) && ProperHost(host) && MayFollow(host, path) && Undelimited(path)
    && PlainPair(cipher, password).0 != [] && COLON !in PlainPair(cipher, password).0
  }

  lemma PlainBodyIsUnbroken(cipher: Text, password: Text, host: HostName, port: nat, path: Text)
    requires ProperPlain(cipher, password, host, path)
    ensures Unbroken(PlainBody(cipher, password, host, port, path)) && AT !in PrintHostPort(host, port) + path
  {
    HostPortIsHarmless(host, port);
    HarmlessLacks(PrintHostPort(host, port));
    assert Unbroken(PrintHostPort(host, port)) && Unbroken(path);
    UnbrokenTogether(PrintHostPort(host, port), path);
    UnbrokenTogether(cipher, [COLON]);
    UnbrokenTogether(cipher + [COLON], password);
    UnbrokenTogether(cipher + [COLON] + password, [AT]);
    UnbrokenTogether(cipher + [COLON] + password + [AT], PrintHostPort(host, port) + path);
  }

  lemma PlainBodyIsRead(cipher: Text, password: Text, host: HostName, port: nat, path: Text)
    requires ProperPlain(cipher, password, host, path)
    ensures var misread := Credentials(Base64ToString(cipher + [COLON] + password));
      ShadowsocksBody(PlainBody(cipher, password, host, port, path)) ==
        Some((if misread.Some? then misread.value else PlainPair(cipher, password), (Address(host), port)))
  {
    var userinfo, hostPort := cipher + [COLON] + password, PrintHostPort(host, port) + path;
    PlainBodyIsUnbroken(cipher, password, host, port, path);
    PlainPairIsRead(cipher, password);
    HostPortArrives(host, port, path);
    LastAt(userinfo, AT, hostPort);
    assert PlainBody(cipher, password, host, port, path)[|userinfo|] == AT;
  }

  /** The server such a link stands for. */
  function PlainServer(pair: (Text, Text), host: HostName, port: nat, tag: seq<Scalar>, raw: Text): Option<Server> {
    if port == 0 then None
    else Some(Server.Shadowsocks(
      TagRecord(tag, Ascii("ss"), host, port), Address(host), port, pair.0, pair.1, raw))
  }

  lemma PlainBodyIsRecorded(pair: (Text, Text), host: HostName, port: nat, tag: seq<Scalar>, raw: Text)
    requires ProperHost(host)
    ensures ShadowsocksOf(Utf16(tag), Some((pair, (Address(host), port))), raw) ==
      PlainServer(pair, host, port, tag, raw)
  {
    TagIsRead(tag, Ascii("ss"), host, port);
  }

  lemma PlainLinkIsDispatched(body: Text, scheme: Text, plugin: Text, tag: seq<Scalar>, vmess: VmessReader)
    requires LowerCase(scheme) == Ascii("ss") && ProperPlugin(plugin) && Unbroken(body)
    ensures var link := SsLink(scheme, body, plugin, tag);
      ParseShareLink(link, vmess) == ShadowsocksOf(Utf16(tag), ShadowsocksBody(body), link)
  {
    UnbrokenLacks(body);
    LinkHasNoSpace(body, plugin, tag);
    SsIsDispatched(scheme, body + Suffix(QUESTION, plugin) + Suffix(HASH, EncodeComponent(tag)), vmess);
    LinkFallsApart(body, plugin, tag);
  }

  /**
   * A link whose user info is `method:password` with a plain ':', each side percent-encoded or not:
   * it parses to the server with the decoded pair if and only if the port is 0 (and then to nothing),
   * or the user info, read as base64, yields no pair or that same one.
   */
  lemma PlainFormExactly(
    cipher: Text, password: Text, host: HostName, port: nat, path: Text,
    scheme: Text, plugin: Text, tag: seq<Scalar>, vmess: VmessReader)
    requires ProperPlain(cipher, password, host, path) && LowerCase(scheme) == Ascii("ss") && ProperPlugin(plugin)
    ensures var link := SsLink(scheme, PlainBody(cipher, password, host, port, path), plugin, tag);
      var misread := Credentials(Base64ToString(cipher + [COLON] + password));
      ParseShareLink(link, vmess) == PlainServer(PlainPair(cipher, password), host, port, tag, link) <==>
        port == 0 || misread.None? || misread.value == PlainPair(cipher, password)
  {
    var body := PlainBody(cipher, password, host, port, path);
    var link := SsLink(scheme, body, plugin, tag);
    var misread := Credentials(Base64ToString(cipher + [COLON] + password));
    PlainBodyIsUnbroken(cipher, password, host, port, path);
    PlainLinkIsDispatched(body, scheme, plugin, tag, vmess);
    PlainBodyIsRead(cipher, password, host, port, path);
    PlainBodyIsRecorded(if misread.Some? then misread.value else PlainPair(cipher, password), host, port, tag, link);
  }

  // --- passwords it loses --------------------------------------------------

  /** "aes-128-gcm:jo" in front of more. */
  function Head(rest: seq<Scalar>): seq<Scalar> {
    [0x61] + ([0x65] + ([0x73] + ([0x2d] + ([0x31] + ([0x32] + ([0x38] + ([0x2d] +
    ([0x67] + ([0x63] + ([0x6d] + ([0x3a] + ([0x6a] + ([0x6f] + rest)))))))))))))
  }

  /** The same, percent-encoded and cleaned for the base64 decoder, which skips the stray '%'. */
  function CleanHead(tail: Text): Text {
    [0x61] + ([0x65] + ([0x73] + ([PLUS] + ([0x31] + ([0x32] + ([0x38] + ([PLUS] +
    ([0x67] + ([0x63] + ([0x6d] + ([PERCENT] + ([0x33] + ([0x41] + ([0x6a] + ([0x6f] + tail)))))))))))))))
  }

  /** The bytes that spells, the last of them a ':'. */
  function HeadBytes(more: seq<Byte>): seq<Byte> {
    [0x69] + ([0xeb] + ([0x3e] + ([0xd7] + ([0x6f] + ([0x3e] +
    ([0x81] + ([0xc9] + ([0xb7] + ([0x02] + ([0x3a] + more))))))))))
  }

  /** What the base64 decoder gets to see of a text. */
  function Seen(vs: seq<Scalar>): Text {
    Standardized(EncodeComponent(vs))
  }

  lemma Sees(v: Scalar, vs: seq<Scalar>)
    requires IsUnreserved(v)
    ensures Seen([v] + vs) == [Standard(v)] + Seen(vs)
  {
    assert ([v] + vs)[1..] == vs;
    assert EncodeComponent([v] + vs) == [v] + EncodeComponent(vs);
  }

  lemma ColonIsEscaped()
    ensures EncodeCharacter(0x3a) == [PERCENT] + ([0x33] + [0x41])
  {
    assert [0x3a as Byte][1..] == [];
    assert PercentOctets([0x3a]) == [PERCENT, HexDigit(3), HexDigit(10)] + PercentOctets([]);
  }

  lemma SeenTogether(a: Text, b: Text)
    ensures Standardized(a + b) == Standardized(a) + Standardized(b)
  {
  }

  lemma EscapeStays()
    ensures Standardized([PERCENT] + ([0x33] + [0x41])) == [PERCENT] + ([0x33] + [0x41])
  {
  }

  lemma SeesColon(vs: seq<Scalar>)
    ensures Seen([0x3a] + vs) == [PERCENT] + ([0x33] + ([0x41] + Seen(vs)))
  {
    assert ([0x3a] + vs)[1..] == vs;
    ColonIsEscaped();
    EscapeStays();
    SeenTogether([PERCENT] + ([0x33] + [0x41]), EncodeComponent(vs));
  }

  lemma SeesHead(rest: seq<Scalar>)
    ensures Seen(Head(rest)) == CleanHead(Seen(rest))
  {
    var password := [0x6a] + ([0x6f] + rest);
    Sees(0x6f, rest);
    Sees(0x6a, [0x6f] + rest);
    SeesColon(password);
    var gcm := [0x67] + ([0x63] + ([0x6d] + ([0x3a] + password)));
    Sees(0x6d, [0x3a] + password);
    Sees(0x63, [0x6d] + ([0x3a] + password));
    Sees(0x67, [0x63] + ([0x6d] + ([0x3a] + password)));
    SeesAes(gcm);
  }

  lemma SeesAes(vs: seq<Scalar>)
    ensures Seen([0x61] + ([0x65] + ([0x73] + ([0x2d] + ([0x31] + ([0x32] + ([0x38] + ([0x2d] + vs))))))))
        == [0x61] + ([0x65] + ([0x73] + ([PLUS] + ([0x31] + ([0x32] + ([0x38] + ([PLUS] + Seen(vs))))))))
  {
    var digits := [0x31] + ([0x32] + ([0x38] + ([0x2d] + vs)));
    Sees(0x2d, vs);
    Sees(0x38, [0x2d] + vs);
    Sees(0x32, [0x38] + ([0x2d] + vs));
    Sees(0x31, [0x32] + ([0x38] + ([0x2d] + vs)));
    Sees(0x2d, digits);
    Sees(0x73, [0x2d] + digits);
    Sees(0x65, [0x73] + ([0x2d] + digits));
    Sees(0x61, [0x65] + ([0x73] + ([0x2d] + digits)));
  }

  lemma EncodedIsPlain(t: Text)
    requires IsEncoded(t)
    ensures NoSpace(t) && EQUALS !in Standardized(t)
  {
  }

  lemma PlainIsClean(t: Text)
    requires NoSpace(t) && EQUALS !in Standardized(t)
    ensures Clean(t) == Standardized(t)
  {
    NormalizeDropsSpaces(t);
    NoSpacesToDrop(t);
  }

  lemma EncodedIsClean(vs: seq<Scalar>)
    ensures Clean(EncodeComponent(vs)) == Seen(vs)
  {
    Percent.DecodeUndoesEncode(vs);
    EncodedIsPlain(EncodeComponent(vs));
    PlainIsClean(EncodeComponent(vs));
  }

  /** Three digits carry two bytes and two pending bits, four carry three bytes. */
  lemma DecodeThree(v0: Sextet, v1: Sextet, v2: Sextet, b0: Byte, b1: Byte, l0: nat, l1: nat, rest: Text)
    requires v0 * 64 + v1 == b0 * 16 + l0 && l0 < 16 && l0 * 64 + v2 == b1 * 4 + l1 && l1 < 4
    ensures DecodeFrom([Digit(v0, false)] + ([Digit(v1, false)] + ([Digit(v2, false)] + rest)), 0, 0)
        == [b0] + ([b1] + DecodeFrom(rest, 2, l1))
  {
    DecodeTwo(v0, v1, b0, l0, [Digit(v2, false)] + rest);
    DecodeNext(v2, rest, 4, l0, b1, l1);
  }

  lemma SkipsStray(rest: Text, bits: BitCount, acc: nat)
    requires acc < Pow2(bits)
    ensures DecodeFrom([PERCENT] + rest, bits, acc) == DecodeFrom(rest, bits, acc)
  {
    assert ([PERCENT] + rest)[1..] == rest;
  }

  lemma LastGroup(tail: Text)
    ensures DecodeFrom([0x41] + ([0x6a] + ([0x6f] + tail)), 0, 0) == [0x02] + ([0x3a] + DecodeFrom(tail, 2, 0))
  {
    DecodeThree(0, 35, 40, 0x02, 0x3a, 3, 0, tail);
  }

  lemma ThirdGroup(rest: Text)
    ensures DecodeFrom([0x67] + ([0x63] + ([0x6d] + ([PERCENT] + ([0x33] + rest)))), 0, 0)
        == [0x81] + ([0xc9] + ([0xb7] + DecodeFrom(rest, 0, 0)))
  {
    DecodeThree(32, 28, 38, 0x81, 0xc9, 12, 2, [PERCENT] + ([0x33] + rest));
    SkipsStray([0x33] + rest, 2, 2);
    DecodeNext(55, rest, 2, 2, 0xb7, 0);
  }

  lemma SecondGroup(rest: Text)
    ensures DecodeFrom([0x31] + ([0x32] + ([0x38] + ([PLUS] + rest))), 0, 0)
        == [0xd7] + ([0x6f] + ([0x3e] + DecodeFrom(rest, 0, 0)))
  {
    DecodeThree(53, 54, 60, 0xd7, 0x6f, 6, 0, [PLUS] + rest);
    DecodeNext(62, rest, 2, 0, 0x3e, 0);
  }

  lemma FirstGroup(rest: Text)
    ensures DecodeFrom([0x61] + ([0x65] + ([0x73] + ([PLUS] + rest))), 0, 0)
        == [0x69] + ([0xeb] + ([0x3e] + DecodeFrom(rest, 0, 0)))
  {
    DecodeThree(26, 30, 44, 0x69, 0xeb, 14, 0, [PLUS] + rest);
    DecodeNext(62, rest, 2, 0, 0x3e, 0);
  }

  lemma HeadDecodes(tail: Text)
    ensures DecodeFrom(CleanHead(tail), 0, 0) == HeadBytes(DecodeFrom(tail, 2, 0))
  {
    var t4 := [0x41] + ([0x6a] + ([0x6f] + tail));
    var t3 := [0x67] + ([0x63] + ([0x6d] + ([PERCENT] + ([0x33] + t4))));
    var t2 := [0x31] + ([0x32] + ([0x38] + ([PLUS] + t3)));
    FirstGroup(t2);
    SecondGroup(t3);
    ThirdGroup(t4);
    LastGroup(tail);
  }

  /** One character, one of three bytes, two more, and a surrogate pair from four bytes. */
  function MisreadCipher(more: Text): Text {
    [0x69] + ([0xbf97] + ([0x6f] + ([0x3e] + ([0xd8e7] + ([0xddc2] + more)))))
  }

  lemma ReadsOne(b: Byte, rest: seq<Byte>)
    requires b < 0x80
    ensures DecodeUtf8([b] + rest) == [b] + DecodeUtf8(rest)
  {
    assert ([b] + rest)[1..] == rest;
  }

  lemma ReadsThree(b1: Byte, b2: Byte, b3: Byte, rest: seq<Byte>)
    requires 0xe0 <= b1 < 0xf0
    ensures DecodeUtf8([b1] + ([b2] + ([b3] + rest))) == [Three(b1, b2, b3)] + DecodeUtf8(rest)
  {
    assert ([b1] + ([b2] + ([b3] + rest)))[3..] == rest;
  }

  lemma ReadsFour(b1: Byte, b2: Byte, b3: Byte, b4: Byte, rest: seq<Byte>)
    requires 0x80 <= b1 < 0xc0
    ensures DecodeUtf8([b1] + ([b2] + ([b3] + ([b4] + rest)))) == Pair(Four(b1, b2, b3, b4)) + DecodeUtf8(rest)
  {
    assert ([b1] + ([b2] + ([b3] + ([b4] + rest))))[4..] == rest;
  }

  lemma PairIs()
    ensures Three(0xeb, 0x3e, 0xd7) == 0xbf97 && Pair(Four(0x81, 0xc9, 0xb7, 0x02)) == [0xd8e7, 0xddc2]
  {
  }

  lemma HeadIsMisread(more: seq<Byte>)
    ensures DecodeUtf8(HeadBytes(more)) == MisreadCipher([COLON] + DecodeUtf8(more))
  {
    var b10 := [0x3a] + more;
    var b6 := [0x81] + ([0xc9] + ([0xb7] + ([0x02] + b10)));
    var b4 := [0x6f] + ([0x3e] + b6);
    ReadsOne(0x3a, more);
    ReadsFour(0x81, 0xc9, 0xb7, 0x02, b10);
    PairIs();
    assert [0xd8e7, 0xddc2] + DecodeUtf8(b10) == [0xd8e7] + ([0xddc2] + DecodeUtf8(b10));
    ReadsOne(0x3e, b6);
    ReadsOne(0x6f, [0x3e] + b6);
    ReadsThree(0xeb, 0x3e, 0xd7, b4);
    ReadsOne(0x69, [0xeb] + ([0x3e] + ([0xd7] + b4)));
  }

  lemma CutAtColon(more: Text)
    ensures Credentials(MisreadCipher([COLON] + more)) == Some((MisreadCipher([]), more))
  {
    assert COLON !in MisreadCipher([]);
    FirstAt(MisreadCipher([]), COLON, more);
    assert MisreadCipher([COLON] + more) == MisreadCipher([]) + [COLON] + more;
  }

  const AES: seq<Scalar> := [0x61, 0x65, 0x73, 0x2d, 0x31, 0x32, 0x38, 0x2d, 0x67, 0x63, 0x6d]

  /** The method is aes-128-gcm and the password starts with "jo". */
  predicate Unlucky(p: SsProfile, rest: seq<Scalar>) {
    p.cipher == AES && p.password == [0x6a] + ([0x6f] + rest)
  }

  lemma UnluckyIsHead(p: SsProfile, rest: seq<Scalar>)
    requires Unlucky(p, rest)
    ensures CredentialsOf(p) == Head(rest)
  {
  }

  /** Each of these is taken for another pair. */
  lemma PercentFormMisleads(p: SsProfile, rest: seq<Scalar>)
    requires Unlucky(p, rest)
    ensures Misread(p).Some? && Misread(p).value.0 == MisreadCipher([]) != OwnPair(p).0
  {
    var tail := Seen(rest);
    UnluckyIsHead(p, rest);
    EncodedIsClean(Head(rest));
    SeesHead(rest);
    HeadDecodes(tail);
    HeadIsMisread(DecodeFrom(tail, 2, 0));
    CutAtColon(DecodeUtf8(DecodeFrom(tail, 2, 0)));
    CipherDiffers(p, rest);
  }

  lemma FirstCharacters(vs: seq<Scalar>)
    requires |vs| >= 2 && vs[0] < 0x80 && vs[1] < 0x80
    ensures |Utf16(vs)| >= 2 && Utf16(vs)[1] == vs[1]
  {
    assert Utf16(vs[1..])[0] == vs[1];
  }

  lemma CipherDiffers(p: SsProfile, rest: seq<Scalar>)
    requires Unlucky(p, rest)
    ensures Utf16(p.cipher) != MisreadCipher([])
  {
    FirstCharacters(p.cipher);
    assert MisreadCipher([])[1] == 0xbf97;
  }

  /** Such a link with a host and a port is read as a server with a cipher nobody asked for. */
  lemma PercentFormCanMislead(p: SsProfile, rest: seq<Scalar>, scheme: Text, plugin: Text, vmess: VmessReader)
    requires ProperSs(p) && LowerCase(scheme) == Ascii("ss") && ProperPlugin(plugin)
    requires Unlucky(p, rest) && SsRecord(p, []).Some?
    ensures var server := ParseShareLink(SsLink(scheme, PercentBody(p), plugin, p.tag), vmess);
      server.Some? && server.value.Shadowsocks? && server.value.cipher != Utf16(p.cipher)
  {
    PercentLinkIsDispatched(p, scheme, plugin, vmess);
    PercentBodyIsRead(p);
    PercentFormMisleads(p, rest);
  }
}
