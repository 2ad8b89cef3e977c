/**
 * Shadowsocks links: the SIP002 form and the legacy form of one server parse to the same server.
 */
module Shadowsocks {
  import opened Base64
  import opened Options
  import opened Percent
  import opened Profiles
  import opened ShareLink
  import opened Text
  import opened Utf8

  datatype SsProfile = SsProfile(
    cipher: seq<Scalar>, password: seq<Scalar>, hostPort: seq<Scalar>, tag: seq<Scalar>)

  /** Which base64 variant a link uses. */
  datatype Variant = Variant(urlSafe: bool, padded: bool)

  /** Free of '@', '#', '?' and white space. */
  predicate Undelimited(t: Text) {
    forall i :: 0 <= i < |t| ==> t[i] != AT && t[i] != HASH && t[i] != QUESTION && !IsSpace(t[i])
  }

  /** The legacy form even takes an empty method. */
  predicate ProperLegacy(p: SsProfile) {
    COLON !in Utf16(p.cipher) && Undelimited(Utf16(p.hostPort))
  }

  predicate ProperSs(p: SsProfile) {
    p.cipher != [] && ProperLegacy(p)
  }

  /** A plugin string may hold anything but '#' and white space. */
  predicate ProperPlugin(t: Text) {
    HASH !in t && NoSpace(t)
  }

  // --- the two printers ----------------------------------------------------

  function Wrapped(vs: seq<Scalar>, v: Variant): Text {
    Encode(Utf8Bytes(vs), v.urlSafe, v.padded)
  }

  function CredentialsOf(p: SsProfile): seq<Scalar> {
    p.cipher + [COLON as int] + p.password
  }

  /** `ss://base64(method:password)@host:port?plugin#tag`, the part in front of '?'. */
  function Sip002Body(p: SsProfile, v: Variant): Text {
    Wrapped(CredentialsOf(p), v) + [AT] + Utf16(p.hostPort)
  }

  /** `ss://base64(method:password@host:port)#tag`, the part in front of '#'. */
  function LegacyBody(p: SsProfile, v: Variant): Text {
    Wrapped(CredentialsOf(p) + [AT as int] + p.hostPort, v)
  }

  function SsLink(scheme: Text, body: Text, plugin: Text, tag: seq<Scalar>): Text {
    PrintLink(scheme, body + Suffix(QUESTION, plugin) + Suffix(HASH, EncodeComponent(tag)))
  }

  // --- the record both stand for -------------------------------------------

  /** Nothing when the host is empty or the port is not a number other than 0. */
  function SsRecord(p: SsProfile, raw: Text): Option<Server> {
    var (host, port) := SplitHostPort(Utf16(p.hostPort));
    if host == [] || port == 0 then None
    else
      Some(Server.Shadowsocks(SsTag(p.tag, host, port), host, port, Utf16(p.cipher), Utf16(p.password), raw))
  }

  function SsTag(tag: seq<Scalar>, host: Text, port: int): Text {
    if tag == [] then Ascii("ss-") + host + Ascii(":") + Decimal(port) else Utf16(tag)
  }

  function WithoutRaw(server: Option<Server>): Option<Server> {
    if server.None? then None else Some(server.value.(raw := []))
  }

  // --- reading the bodies back ---------------------------------------------

  /** Base64 text carries none of the delimiters. */
  lemma WrappedArrives(vs: seq<Scalar>, v: Variant)
    ensures Undelimited(Wrapped(vs, v)) && Base64ToString(Wrapped(vs, v)) == Utf16(vs)
  {
    var t := Wrapped(vs, v);
    EncodingIsPlain(Utf8Bytes(vs), v.urlSafe, v.padded);
    assert Undelimited(t) && NoSpace(t);
    NoSpacesToDrop(t);
    TextArrives(t, vs, v.urlSafe, v.padded);
  }

  lemma JoinedUtf16(a: seq<Scalar>, c: CodeUnit, b: seq<Scalar>)
    requires c < 0x80
    ensures Utf16(a + [c as int] + b) == Utf16(a) + [c] + Utf16(b)
  {
    Utf16Append(a + [c as int], b);
    Utf16Append(a, [c as int]);
    assert ([c as int])[1..] == [];
    assert Utf16([c as int]) == [c];
  }

  lemma CredentialsArrive(p: SsProfile)
    requires ProperLegacy(p)
    ensures Credentials(Utf16(CredentialsOf(p))) ==
      if p.cipher == [] then None else Some((Utf16(p.cipher), Utf16(p.password)))
    ensures SplitFirst(Utf16(CredentialsOf(p))) == Some((Utf16(p.cipher), Utf16(p.password)))
  {
    JoinedUtf16(p.cipher, COLON, p.password);
    FirstAt(Utf16(p.cipher), COLON, Utf16(p.password));
    NonEmpty(p.cipher);
  }

  function BodyOf(p: SsProfile): ((Text, Text), (Text, int)) {
    ((Utf16(p.cipher), Utf16(p.password)), SplitHostPort(Utf16(p.hostPort)))
  }

  lemma Sip002Arrives(p: SsProfile, v: Variant)
    requires ProperSs(p)
    ensures ShadowsocksBody(Sip002Body(p, v)) == Some(BodyOf(p))
  {
    var userinfo, host := Wrapped(CredentialsOf(p), v), Utf16(p.hostPort);
    WrappedArrives(CredentialsOf(p), v);
    CredentialsArrive(p);
    LastAt(userinfo, AT, host);
    assert Sip002Body(p, v)[|userinfo|] == AT;
  }

  lemma LegacyArrives(p: SsProfile, v: Variant)
    requires ProperLegacy(p)
    ensures ShadowsocksBody(LegacyBody(p, v)) == Some(BodyOf(p)) && Undelimited(LegacyBody(p, v))
  {
    var all := CredentialsOf(p) + [AT as int] + p.hostPort;
    WrappedArrives(all, v);
    JoinedUtf16(CredentialsOf(p), AT, p.hostPort);
    CredentialsArrive(p);
    LastAt(Utf16(CredentialsOf(p)), AT, Utf16(p.hostPort));
  }

  // --- reading the links back ----------------------------------------------

  lemma SsBodyIsRead(p: SsProfile, raw: Text)
    ensures ShadowsocksOf(Utf16(p.tag), Some(BodyOf(p)), raw) == SsRecord(p, raw)
  {
    NonEmpty(p.tag);
    assert Ascii("ss-") == Ascii("ss") + [MINUS] && Ascii(":") == [COLON];
  }

  /** The parts in front of '#' and '?' come back as they were. */
  lemma LinkFallsApart(body: Text, plugin: Text, tag: seq<Scalar>)
    requires HASH !in body && QUESTION !in body && HASH !in plugin
    ensures var t := body + Suffix(QUESTION, plugin) + Suffix(HASH, EncodeComponent(tag));
      Before(Before(t, HASH), QUESTION) == body && DecodeComponentSafe(After(t, HASH)) == Utf16(tag)
  {
    CutSuffix(body, QUESTION, plugin);
    CutSuffix(body + Suffix(QUESTION, plugin), HASH, EncodeComponent(tag));
    Percent.DecodeUndoesEncode(tag);
  }

  lemma LinkHasNoSpace(body: Text, plugin: Text, tag: seq<Scalar>)
    requires NoSpace(body) && NoSpace(plugin)
    ensures NoSpace(body + Suffix(QUESTION, plugin) + Suffix(HASH, EncodeComponent(tag)))
  {
    EncodedIsHarmless(tag);
    HarmlessHasNoSpace(EncodeComponent(tag));
    NoSpaceTogether([QUESTION], plugin);
    NoSpaceTogether(body, Suffix(QUESTION, plugin));
    NoSpaceTogether(body + Suffix(QUESTION, plugin), Suffix(HASH, EncodeComponent(tag)));
  }

  /** A link with any spelling of the ss scheme reaches the Shadowsocks parser. */
  lemma SsIsDispatched(scheme: Text, after: Text, vmess: VmessReader)
    requires LowerCase(scheme) == Ascii("ss") && NoSpace(after)
    ensures var link := PrintLink(scheme, after);
      NoSpace(link) && ParseShareLink(link, vmess) == ParseShadowsocks(after, link)
  {
    LinkIsDispatched(scheme, Ascii("ss"), after, vmess);
    assert |Ascii("ss")| == 2;
  }

  lemma SsIsParsed(p: SsProfile, body: Text, plugin: Text, raw: Text)
    requires HASH !in body && QUESTION !in body && HASH !in plugin && ShadowsocksBody(body) == Some(BodyOf(p))
    ensures ParseShadowsocks(body + Suffix(QUESTION, plugin) + Suffix(HASH, EncodeComponent(p.tag)), raw)
        == SsRecord(p, raw)
  {
    LinkFallsApart(body, plugin, p.tag);
    SsBodyIsRead(p, raw);
  }

  /** Any body that yields the server's credentials, host and port. */
  lemma SsLinkIsRead(p: SsProfile, scheme: Text, body: Text, plugin: Text, vmess: VmessReader)
    requires LowerCase(scheme) == Ascii("ss") && ProperPlugin(plugin)
    requires Unbroken(body) && ShadowsocksBody(body) == Some(BodyOf(p))
    ensures var link := SsLink(scheme, body, plugin, p.tag);
      NoSpace(link) && ParseShareLink(link, vmess) == SsRecord(p, link)
  {
    var after := body + Suffix(QUESTION, plugin) + Suffix(HASH, EncodeComponent(p.tag));
    var link := PrintLink(scheme, after);
    UnbrokenLacks(body);
    LinkHasNoSpace(body, plugin, p.tag);
    SsIsDispatched(scheme, after, vmess);
    SsIsParsed(p, body, plugin, link);
  }

  /** Nothing that ends the body or the line. */
  predicate Unbroken(t: Text) {
    forall i :: 0 <= i < |t| ==> t[i] != HASH && t[i] != QUESTION && !IsSpace(t[i])
  }

  lemma UnbrokenTogether(a: Text, b: Text)
    requires Unbroken(a) && Unbroken(b)
    ensures Unbroken(a + b)
  {
  }

  lemma UnbrokenLacks(t: Text)
    requires Unbroken(t)
    ensures HASH !in t && QUESTION !in t && NoSpace(t)
  {
  }

  lemma Sip002IsPlain(p: SsProfile, v: Variant)
    requires ProperSs(p)
    ensures Unbroken(Sip002Body(p, v))
  {
    WrappedArrives(CredentialsOf(p), v);
    UnbrokenTogether(Wrapped(CredentialsOf(p), v), [AT]);
    UnbrokenTogether(Wrapped(CredentialsOf(p), v) + [AT], Utf16(p.hostPort));
  }

  lemma Sip002IsRead(p: SsProfile, scheme: Text, v: Variant, plugin: Text, vmess: VmessReader)
    requires ProperSs(p) && LowerCase(scheme) == Ascii("ss") && ProperPlugin(plugin)
    ensures var link := SsLink(scheme, Sip002Body(p, v), plugin, p.tag);
      NoSpace(link) && ParseShareLink(link, vmess) == SsRecord(p, link)
  {
    Sip002Arrives(p, v);
    Sip002IsPlain(p, v);
    SsLinkIsRead(p, scheme, Sip002Body(p, v), plugin, vmess);
  }

  lemma LegacyIsRead(p: SsProfile, scheme: Text, v: Variant, plugin: Text, vmess: VmessReader)
    requires ProperLegacy(p) && LowerCase(scheme) == Ascii("ss") && ProperPlugin(plugin)
    ensures var link := SsLink(scheme, LegacyBody(p, v), plugin, p.tag);
      NoSpace(link) && ParseShareLink(link, vmess) == SsRecord(p, link)
  {
    LegacyArrives(p, v);
    SsLinkIsRead(p, scheme, LegacyBody(p, v), plugin, vmess);
  }

  /**
   * The two forms of one server, in any base64 variant and with any plugin string, parse to the
   * same server apart from the raw link, or both to nothing.
   */
  lemma BothFormsAgree(p: SsProfile, v: Variant, w: Variant, plugin: Text, other: Text, vmess: VmessReader)
    requires ProperSs(p) && ProperPlugin(plugin) && ProperPlugin(other)
    ensures
      WithoutRaw(ParseShareLink(SsLink(Ascii("ss"), Sip002Body(p, v), plugin, p.tag), vmess)) ==
      WithoutRaw(ParseShareLink(SsLink(Ascii("ss"), LegacyBody(p, w), other, p.tag), vmess))
  {
    assert LowerCase(Ascii("ss")) == Ascii("ss");
    Sip002IsRead(p, Ascii("ss"), v, plugin, vmess);
    LegacyIsRead(p, Ascii("ss"), w, other, vmess);
  }

  // --- host and port spelled out ---------------------------------------------

  /** The link names this host and port, and perhaps something more that cannot belong to them. */
  predicate Names(p: SsProfile, host: HostName, port: nat, more: Text) {
    && COLON !in Utf16(p.cipher)
    && ProperHost(host) && MayFollow(host, more) && Undelimited(more)
    && Utf16(p.hostPort) == PrintHostPort(host, port) + more
  }

  function SsServer(p: SsProfile, host: HostName, port: nat, raw: Text): Server {
    Server.Shadowsocks(TagRecord(p.tag, Ascii("ss"), host, port), Address(host), port,
                       Utf16(p.cipher), Utf16(p.password), raw)
  }

  lemma NamedIsProper(p: SsProfile, host: HostName, port: nat, more: Text)
    requires Names(p, host, port, more)
    ensures ProperLegacy(p)
  {
    HostPortIsHarmless(host, port);
    assert Undelimited(PrintHostPort(host, port));
  }

  lemma NamedIsRecorded(p: SsProfile, host: HostName, port: nat, more: Text, raw: Text)
    requires Names(p, host, port, more)
    ensures SsRecord(p, raw) == if port == 0 then None else Some(SsServer(p, host, port, raw))
  {
    HostPortArrives(host, port, more);
    SsTagIs(p.tag, host, port);
  }

  lemma SsTagIs(tag: seq<Scalar>, host: HostName, port: nat)
    ensures SsTag(tag, Address(host), port) == TagRecord(tag, Ascii("ss"), host, port)
  {
    assert Ascii("ss-") == Ascii("ss") + Ascii("-");
  }

  /**
   * A SIP002 link, with or without a path such as "/" behind the port, in any base64 variant and with
   * any plugin string, parses to the server it was printed from, or to nothing when the port is 0.
   */
  lemma Sip002RoundTrip(
    p: SsProfile, host: HostName, port: nat, path: Text, scheme: Text, v: Variant, plugin: Text, vmess: VmessReader)
    requires Names(p, host, port, path) && p.cipher != []
    requires LowerCase(scheme) == Ascii("ss") && ProperPlugin(plugin)
    ensures var link := SsLink(scheme, Sip002Body(p, v), plugin, p.tag);
      ParseShareLink(link, vmess) == if port == 0 then None else Some(SsServer(p, host, port, link))
  {
    NamedIsProper(p, host, port, path);
    Sip002IsRead(p, scheme, v, plugin, vmess);
    NamedIsRecorded(p, host, port, path, SsLink(scheme, Sip002Body(p, v), plugin, p.tag));
  }

  /** The same for the legacy form. */
  lemma LegacyRoundTrip(
    p: SsProfile, host: HostName, port: nat, path: Text, scheme: Text, v: Variant, plugin: Text, vmess: VmessReader)
    requires Names(p, host, port, path) && LowerCase(scheme) == Ascii("ss") && ProperPlugin(plugin)
    ensures var link := SsLink(scheme, LegacyBody(p, v), plugin, p.tag);
      ParseShareLink(link, vmess) == if port == 0 then None else Some(SsServer(p, host, port, link))
  {
    NamedIsProper(p, host, port, path);
    LegacyIsRead(p, scheme, v, plugin, vmess);
    NamedIsRecorded(p, host, port, path, SsLink(scheme, LegacyBody(p, v), plugin, p.tag));
  }

  /** Base64 text has no ':' to be found by the percent-decoded reading. */
  lemma WrappedIsNoPair(vs: seq<Scalar>, v: Variant)
    ensures DecodeComponentSafe(Wrapped(vs, v)) == Wrapped(vs, v) && COLON !in Wrapped(vs, v)
  {
    var t := Wrapped(vs, v);
    EncodingIsPlain(Utf8Bytes(vs), v.urlSafe, v.padded);
    assert forall i :: 0 <= i < |t| ==> IsBase64Char(t[i]) && t[i] != PERCENT && t[i] != COLON;
    DecodesToItself(t);
  }

  lemma EmptyMethodIsNoBody(p: SsProfile, v: Variant)
    requires ProperLegacy(p) && p.cipher == []
    ensures ShadowsocksBody(Sip002Body(p, v)) == None && Unbroken(Sip002Body(p, v))
  {
    var userinfo, host := Wrapped(CredentialsOf(p), v), Utf16(p.hostPort);
    WrappedArrives(CredentialsOf(p), v);
    CredentialsArrive(p);
    WrappedIsNoPair(CredentialsOf(p), v);
    LastAt(userinfo, AT, host);
    assert Sip002Body(p, v)[|userinfo|] == AT;
    UnbrokenTogether(userinfo, [AT]);
    UnbrokenTogether(userinfo + [AT], host);
  }

  /** Where the two forms differ: an empty method is a server in the legacy form only. */
  lemma EmptyMethodIsLegacyOnly(p: SsProfile, scheme: Text, v: Variant, plugin: Text, vmess: VmessReader)
    requires ProperLegacy(p) && p.cipher == [] && LowerCase(scheme) == Ascii("ss") && ProperPlugin(plugin)
    ensures ParseShareLink(SsLink(scheme, Sip002Body(p, v), plugin, p.tag), vmess) == None
    ensures var link := SsLink(scheme, LegacyBody(p, v), plugin, p.tag);
      ParseShareLink(link, vmess) == SsRecord(p, link)
  {
    var body := Sip002Body(p, v);
    EmptyMethodIsNoBody(p, v);
    UnbrokenLacks(body);
    LinkHasNoSpace(body, plugin, p.tag);
    SsIsDispatched(scheme, body + Suffix(QUESTION, plugin) + Suffix(HASH, EncodeComponent(p.tag)), vmess);
    LinkFallsApart(body, plugin, p.tag);
    LegacyIsRead(p, scheme, v, plugin, vmess);
  }

  /** Behind a registered name a path is harmless exactly when it has no ':'; the last one counts. */
  lemma PathHarmlessExactly(t: Text, port: nat, path: Text)
    requires ProperHost(Name(t)) && ProperPath(path)
    ensures SplitHostPort(PrintHostPort(Name(t), port) + path) == (t, port) <==> COLON !in path
  {
    if COLON !in path {
      HostPortArrives(Name(t), port, path);
    } else {
      var hostPort := PrintHostPort(Name(t), port) + path;
      assert LastIndexOf(hostPort, COLON) > |t| by {
        var i :| 0 <= i < |path| && path[i] == COLON;
        assert hostPort[|PrintHostPort(Name(t), port)| + i] == COLON;
      }
    }
  }
}
