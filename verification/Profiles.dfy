/**
 * Server profiles and the share links that carry them: what a printer writes from a profile, the
 * parsers read back, whatever the order of the options in the link.
 */
module Profiles {
  import opened Base64
  import opened Options
  import opened Percent
  import opened ShareLink
  import opened Text
  import opened Utf8

  // --- profiles ------------------------------------------------------------

  /** A registered name or IPv4 address, or an IP literal (section 3.2.2 of RFC 3986). */
  datatype HostName = Name(name: Text) | Literal(literal: Text)

  type Value = Option<seq<Scalar>>

  datatype Transport = Transport(
    network: Value, security: Value, sni: Value, peer: Value, fingerprint: Value,
    alpn: seq<seq<Scalar>>, publicKey: Value, shortId: Value, spiderX: Value, path: Value,
    hostHeader: Value, serviceName: Value, headerType: Value, flow: Value, encryption: Value)

  datatype Profile = Profile(
    credential: seq<Scalar>, host: HostName, port: nat, transport: Transport, tag: seq<Scalar>)

  predicate IsHarmless(c: CodeUnit) {
    c != HASH && c != QUESTION && c != AT && c != SLASH && !IsSpace(c)
  }

  predicate Harmless(t: Text) {
    forall i :: 0 <= i < |t| ==> IsHarmless(t[i])
  }

  predicate ProperHost(host: HostName) {
    match host
    case Name(t) => t != [] && Harmless(t) && COLON !in t && t[0] != OPEN_BRACKET
    case Literal(t) => t != [] && Harmless(t) && CLOSE_BRACKET !in t
  }

  predicate ProperItem(item: seq<Scalar>) {
    item != [] && COMMA !in Utf16(item) && Trimmed(Utf16(item))
  }

  predicate Proper(p: Profile) {
    && p.credential != [] && ProperHost(p.host) && p.port > 0
    && (forall i :: 0 <= i < |p.transport.alpn| ==> ProperItem(p.transport.alpn[i]))
  }

  // --- the printer ---------------------------------------------------------

  function Csv(items: seq<seq<Scalar>>): seq<Scalar> {
    if items == [] then []
    else if |items| == 1 then items[0]
    else items[0] + [COMMA as int] + Csv(items[1..])
  }

  /** The value that the link carries for an option. */
  function Sent(t: Transport, f: Field): Value {
    match f
    case Type => t.network
    case Security => t.security
    case Sni => t.sni
    case Peer => t.peer
    case Fp => t.fingerprint
    case Alpn => if t.alpn == [] then None else Some(Csv(t.alpn))
    case Pbk => t.publicKey
    case Sid => t.shortId
    case Spx => t.spiderX
    case Path => t.path
    case Host => t.hostHeader
    case ServiceName => t.serviceName
    case HeaderType => t.headerType
    case Flow => t.flow
    case Encryption => t.encryption
  }

  function PrintOption(f: Field, value: seq<Scalar>): Text {
    Key(f) + [EQUALS] + EncodeComponent(value)
  }

  function PrintOptions(t: Transport, order: seq<Field>): seq<Text> {
    if order == [] then []
    else
      var f := order[|order| - 1];
      PrintOptions(t, order[..|order| - 1]) +
      if Sent(t, f).Some? then [PrintOption(f, Sent(t, f).value)] else []
  }

  /** An order in which to print the options: every option sent occurs in it. */
  predicate Covers(order: seq<Field>, t: Transport) {
    forall f :: Sent(t, f).Some? ==> f in order
  }

  function PrintHost(host: HostName): Text {
    match host
    case Name(t) => t
    case Literal(t) => [OPEN_BRACKET] + t + [CLOSE_BRACKET]
  }

  function Suffix(delimiter: CodeUnit, t: Text): Text {
    if t == [] then [] else [delimiter] + t
  }

  function Assemble(userinfo: Text, hostPort: Text, path: Text, query: Text, fragment: Text): Text {
    userinfo + [AT] + (hostPort + path) + Suffix(QUESTION, query) + Suffix(HASH, fragment)
  }

  function PrintHostPort(host: HostName, port: nat): Text {
    PrintHost(host) + [COLON] + Decimal(port)
  }

  /** What may stand between the port and the query: nothing, or "/" and more. */
  predicate ProperPath(path: Text) {
    && (path != [] ==> path[0] == SLASH)
    && forall i :: 0 <= i < |path| ==> path[i] != AT && path[i] != QUESTION && path[i] != HASH && !IsSpace(path[i])
  }

  function PrintBody(p: Profile, path: Text, order: seq<Field>): Text {
    Assemble(EncodeComponent(p.credential), PrintHostPort(p.host, p.port), path,
             Join(PrintOptions(p.transport, order), AMPERSAND), EncodeComponent(p.tag))
  }

  function PrintLink(scheme: Text, body: Text): Text {
    scheme + [COLON, SLASH, SLASH] + body
  }

  // --- the record a profile stands for -------------------------------------

  /** An option sent empty is as good as one not sent. */
  function Read(value: Value): Option<Text> {
    if value.None? || value.value == [] then None else Some(Utf16(value.value))
  }

  function ReadAll(items: seq<seq<Scalar>>): (r: seq<Text>)
    ensures |r| == |items| && forall i :: 0 <= i < |r| ==> r[i] == Utf16(items[i])
  {
    seq(|items|, i requires 0 <= i < |items| => Utf16(items[i]))
  }

  function StreamRecord(t: Transport, defaultSecurity: Text): Stream {
    Stream(
      Default(t.network, Ascii("tcp")), Default(t.security, defaultSecurity),
      if Read(t.sni).Some? then Read(t.sni) else Read(t.peer),
      Read(t.fingerprint), if t.alpn == [] then None else Some(ReadAll(t.alpn)),
      Read(t.publicKey), Read(t.shortId), Read(t.spiderX), Read(t.path), Read(t.hostHeader),
      Read(t.serviceName), Read(t.headerType), Read(t.flow))
  }

  function Address(host: HostName): Text {
    match host
    case Name(t) => t
    case Literal(t) => t
  }

  /** Without a name the server is called after its address. */
  function TagRecord(tag: seq<Scalar>, protocol: Text, host: HostName, port: nat): Text {
    if tag == [] then protocol + Ascii("-") + Address(host) + Ascii(":") + Decimal(port) else Utf16(tag)
  }

  function Default(value: Value, fallback: Text): Text {
    if value.None? || value.value == [] then fallback else Utf16(value.value)
  }

  function VlessRecord(p: Profile, raw: Text): Server {
    Vless(TagRecord(p.tag, Ascii("vless"), p.host, p.port), Address(p.host), p.port, Utf16(p.credential),
          Default(p.transport.encryption, Ascii("none")), StreamRecord(p.transport, Ascii("none")), raw)
  }

  function TrojanRecord(p: Profile, raw: Text): Server {
    Trojan(TagRecord(p.tag, Ascii("trojan"), p.host, p.port), Address(p.host), p.port, Utf16(p.credential),
           StreamRecord(p.transport, Ascii("tls")), raw)
  }

  // --- keys ----------------------------------------------------------------

  /** Tells the keys apart by their length and first letters. */
  function Fingerprint(t: Text): int
    requires |t| >= 2
  {
    0x1_0000 * |t| + 0x100 * t[0] as int + t[1]
  }

  predicate IsLetters(t: Text) {
    forall i :: 0 <= i < |t| ==> 0x41 <= t[i] <= 0x5a || 0x61 <= t[i] <= 0x7a
  }

  function KeyCode(f: Field): int {
    match f
    case Type => 0x4_7479
    case Security => 0x8_7365
    case Sni => 0x3_736e
    case Peer => 0x4_7065
    case Fp => 0x2_6670
    case Alpn => 0x4_616c
    case Pbk => 0x3_7062
    case Sid => 0x3_7369
    case Spx => 0x3_7370
    case Path => 0x4_7061
    case Host => 0x4_686f
    case ServiceName => 0xb_7365
    case HeaderType => 0xa_6865
    case Flow => 0x4_666c
    case Encryption => 0xa_656e
  }

  predicate WellShaped(f: Field) {
    IsLetters(Key(f)) && |Key(f)| >= 2 && Fingerprint(Key(f)) == KeyCode(f)
  }

  lemma ShortKeys()
    ensures WellShaped(Sni) && WellShaped(Fp) && WellShaped(Pbk) && WellShaped(Sid) && WellShaped(Spx)
  {
  }

  lemma MediumKeys()
    ensures WellShaped(Type) && WellShaped(Peer) && WellShaped(Alpn)
    ensures WellShaped(Path) && WellShaped(Host) && WellShaped(Flow)
  {
  }

  lemma LongKeys()
    ensures WellShaped(Security) && WellShaped(ServiceName)
  {
  }

  lemma MoreLongKeys()
    ensures WellShaped(HeaderType) && WellShaped(Encryption)
  {
  }

  lemma KeyShape(f: Field)
    ensures WellShaped(f)
  {
    ShortKeys();
    MediumKeys();
    LongKeys();
    MoreLongKeys();
  }

  lemma KeysDiffer(f: Field, g: Field)
    requires Key(f) == Key(g)
    ensures f == g
  {
    KeyShape(f);
    KeyShape(g);
  }

  // --- reading the query back ----------------------------------------------

  lemma {:induction false} DecodesToItself(t: Text)
    requires PERCENT !in t
    ensures DecodeComponentSafe(t) == t && DecodeComponent(t) == Some(t)
  {
    if t != [] {
      assert t[0] in t && forall c :: c in t[1..] ==> c in t;
      DecodesToItself(t[1..]);
      assert t == [t[0]] + t[1..];
    }
  }

  lemma PrintedOption(query: Query, f: Field, value: seq<Scalar>)
    ensures AddPair(query, PrintOption(f, value)) == query[Key(f) := Utf16(value)]
  {
    KeyShape(f);
    FirstAt(Key(f), EQUALS, EncodeComponent(value));
    DecodesToItself(Key(f));
    Percent.DecodeUndoesEncode(value);
  }

  lemma AfterSetting(query: Query, f: Field, g: Field, value: Text)
    ensures Get(query[Key(g) := value], f) == if f != g then Get(query, f) else if value == [] then None else Some(value)
  {
    if Key(f) == Key(g) {
      KeysDiffer(f, g);
    }
  }

  lemma QueryGrows(pairs: seq<Text>, pair: Text)
    ensures QueryOf(pairs + [pair]) == AddPair(QueryOf(pairs), pair)
  {
    assert (pairs + [pair])[..|pairs|] == pairs;
  }

  /** When an option is given twice, the last value counts. */
  lemma LastValueWins(pairs: seq<Text>, f: Field, value: seq<Scalar>)
    ensures Get(QueryOf(pairs + [PrintOption(f, value)]), f) == Read(Some(value))
    ensures forall g :: g != f ==> Get(QueryOf(pairs + [PrintOption(f, value)]), g) == Get(QueryOf(pairs), g)
  {
    QueryGrows(pairs, PrintOption(f, value));
    PrintedOption(QueryOf(pairs), f, value);
    NonEmpty(value);
    forall g ensures Get(QueryOf(pairs)[Key(f) := Utf16(value)], g) ==
        if g != f then Get(QueryOf(pairs), g) else Read(Some(value)) {
      AfterSetting(QueryOf(pairs), g, f, Utf16(value));
    }
  }

  /** Whatever the order, the query object holds exactly the options sent. */
  lemma {:induction false} OptionsArrive(t: Transport, order: seq<Field>, f: Field)
    ensures Get(QueryOf(PrintOptions(t, order)), f) == if f in order then Read(Sent(t, f)) else None
  {
    if order != [] {
      var before, g := order[..|order| - 1], order[|order| - 1];
      OptionsArrive(t, before, f);
      assert order == before + [g];
      OptionArrives(t, before, f, g);
    }
  }

  lemma OptionArrives(t: Transport, before: seq<Field>, f: Field, g: Field)
    ensures var was, now := QueryOf(PrintOptions(t, before)), QueryOf(PrintOptions(t, before + [g]));
      Get(now, f) == if f == g && Sent(t, g).Some? then Read(Sent(t, g)) else Get(was, f)
  {
    var printed := PrintOptions(t, before);
    assert (before + [g])[..|before|] == before;
    if Sent(t, g).Some? {
      var value := Sent(t, g).value;
      QueryGrows(printed, PrintOption(g, value));
      PrintedOption(QueryOf(printed), g, value);
      AfterSetting(QueryOf(printed), f, g, Utf16(value));
      NonEmpty(value);
    } else {
      assert PrintOptions(t, before + [g]) == printed;
    }
  }

  lemma NonEmpty(vs: seq<Scalar>)
    ensures Utf16(vs) == [] <==> vs == []
  {
  }

  // --- the ALPN list -------------------------------------------------------

  lemma {:induction false} CsvJoins(items: seq<seq<Scalar>>)
    ensures Utf16(Csv(items)) == Join(ReadAll(items), COMMA)
  {
    if |items| == 1 {
      assert ReadAll(items) == [Utf16(items[0])];
    } else if |items| > 1 {
      CsvJoins(items[1..]);
      assert ReadAll(items)[1..] == ReadAll(items[1..]);
      Utf16Append(items[0] + [COMMA as int], Csv(items[1..]));
      Utf16Append(items[0], [COMMA as int]);
      assert Utf16([COMMA as int]) == [COMMA] by {
        assert ([COMMA as int])[1..] == [];
      }
    }
  }

  lemma {:induction false} NothingToTrim(parts: seq<Text>)
    requires forall i :: 0 <= i < |parts| ==> parts[i] != [] && Trimmed(parts[i])
    ensures TrimAll(parts) == parts
  {
    if parts != [] {
      NothingToTrim(parts[1..]);
      assert parts == [parts[0]] + parts[1..];
    }
  }

  lemma AlpnArrives(items: seq<seq<Scalar>>)
    requires items != [] && forall i :: 0 <= i < |items| ==> ProperItem(items[i])
    ensures SplitCsv(Some(Utf16(Csv(items)))) == Some(ReadAll(items))
  {
    var parts := ReadAll(items);
    forall i | 0 <= i < |parts| ensures COMMA !in parts[i] && parts[i] != [] && Trimmed(parts[i]) {
      assert ProperItem(items[i]);
      NonEmpty(items[i]);
    }
    CsvJoins(items);
    SplitUndoesJoin(parts, COMMA);
    NothingToTrim(parts);
  }

  /** White space around an item. */
  ghost predicate Padded(part: Text, item: Text) {
    exists before, after :: Blank(before) && Blank(after) && part == before + item + after
  }

  /** The items that are not empty. */
  function Kept(items: seq<Text>): seq<Text> {
    if items == [] then [] else (if items[0] == [] then [] else [items[0]]) + Kept(items[1..])
  }

  lemma {:induction false} PaddingIsTrimmed(parts: seq<Text>, items: seq<Text>)
    requires |parts| == |items| && forall i :: 0 <= i < |parts| ==> Padded(parts[i], items[i]) && Trimmed(items[i])
    ensures TrimAll(parts) == Kept(items)
  {
    if parts != [] {
      PaddingIsTrimmed(parts[1..], items[1..]);
      var before, after :| Blank(before) && Blank(after) && parts[0] == before + items[0] + after;
      TrimUndoesPadding(before, items[0], after);
    }
  }

  /** A list with white space around its items and with empty ones among them yields the others, trimmed. */
  lemma ListArrives(parts: seq<Text>, items: seq<Text>)
    requires parts != [] && |parts| == |items|
    requires forall i :: 0 <= i < |parts| ==> Padded(parts[i], items[i]) && Trimmed(items[i]) && COMMA !in parts[i]
    ensures SplitCsv(Some(Join(parts, COMMA))) == if Kept(items) == [] then None else Some(Kept(items))
  {
    SplitUndoesJoin(parts, COMMA);
    PaddingIsTrimmed(parts, items);
  }

  // --- reading the authority back ------------------------------------------

  lemma CutSuffix(a: Text, c: CodeUnit, t: Text)
    requires c !in a
    ensures Before(a + Suffix(c, t), c) == a && After(a + Suffix(c, t), c) == t
  {
    if t == [] {
      NoneAt(a, c);
      assert a + Suffix(c, t) == a;
    } else {
      FirstAt(a, c, t);
      SuffixIs(a, c, t);
    }
  }

  lemma SuffixIs(a: Text, c: CodeUnit, t: Text)
    requires t != []
    ensures a + Suffix(c, t) == a + [c] + t
  {
  }

  /** The path is cut off. */
  lemma PathIsCut(hostPort: Text, path: Text)
    requires ProperPath(path) && SLASH !in hostPort
    ensures Before(hostPort + path, SLASH) == hostPort
  {
    if path == [] {
      NoneAt(hostPort, SLASH);
      assert hostPort + path == hostPort;
    } else {
      FirstAt(hostPort, SLASH, path[1..]);
      assert hostPort + path == hostPort + [SLASH] + path[1..];
    }
  }

  lemma PathLacks(path: Text)
    requires ProperPath(path)
    ensures HASH !in path && QUESTION !in path && AT !in path && NoSpace(path)
  {
  }

  /** The parts of an assembled link fall apart where they were joined, and a path behind the port is dropped. */
  lemma AuthorityArrives(userinfo: Text, hostPort: Text, path: Text, query: Text, fragment: Text)
    requires HASH !in userinfo && QUESTION !in userinfo && HASH !in query && ProperPath(path)
    requires HASH !in hostPort && QUESTION !in hostPort && AT !in hostPort && SLASH !in hostPort
    ensures var (host, port) := SplitHostPort(hostPort);
      Authority(Assemble(userinfo, hostPort, path, query, fragment)) ==
        if host == [] then None
        else Some(AuthorityParts(userinfo, host, port, QueryOf(Split(query, AMPERSAND)), DecodeComponentSafe(fragment)))
  {
    PathLacks(path);
    LinkIsCut(userinfo + [AT] + (hostPort + path), query, fragment);
    LastAt(userinfo, AT, hostPort + path);
    PathIsCut(hostPort, path);
  }

  /** A link is no server exactly when it has no user info, no host, or no port but 0. */
  lemma RejectedExactly(userinfo: Text, hostPort: Text, path: Text, query: Text, fragment: Text, raw: Text)
    requires HASH !in userinfo && QUESTION !in userinfo && HASH !in query && ProperPath(path)
    requires HASH !in hostPort && QUESTION !in hostPort && AT !in hostPort && SLASH !in hostPort
    ensures var rejected := userinfo == [] || SplitHostPort(hostPort).0 == [] || SplitHostPort(hostPort).1 == 0;
      var link := Assemble(userinfo, hostPort, path, query, fragment);
      (ParseVless(link, raw) == None <==> rejected) && (ParseTrojan(link, raw) == None <==> rejected)
  {
    AuthorityArrives(userinfo, hostPort, path, query, fragment);
  }

  /** Nor is a link without an '@'. */
  lemma NoUserNoServer(authority: Text, query: Text, fragment: Text, raw: Text)
    requires HASH !in authority && QUESTION !in authority && AT !in authority && HASH !in query
    ensures var link := authority + Suffix(QUESTION, query) + Suffix(HASH, fragment);
      ParseVless(link, raw) == None && ParseTrojan(link, raw) == None
  {
    LinkIsCut(authority, query, fragment);
  }

  lemma LinkIsCut(authority: Text, query: Text, fragment: Text)
    requires HASH !in authority && QUESTION !in authority && HASH !in query
    ensures Authority(authority + Suffix(QUESTION, query) + Suffix(HASH, fragment)) ==
      AuthorityFrom(authority, query, fragment)
  {
    CutSuffix(authority + Suffix(QUESTION, query), HASH, fragment);
    CutSuffix(authority, QUESTION, query);
  }

  lemma DecimalIsPlain(n: nat)
    ensures forall i :: 0 <= i < |Decimal(n)| ==> IsDecimal(Decimal(n)[i])
    ensures Harmless(Decimal(n)) && COLON !in Decimal(n)
  {
  }

  /** What may follow a port so that host and port still come back: no digit first, and no ':' behind a name. */
  predicate MayFollow(host: HostName, rest: Text) {
    !StartsWithDigit(rest) && (host.Name? ==> COLON !in rest)
  }

  lemma NameArrives(t: Text, n: nat, rest: Text)
    requires ProperHost(Name(t)) && MayFollow(Name(t), rest)
    ensures SplitHostPort(t + [COLON] + (Decimal(n) + rest)) == (t, n)
  {
    DecimalIsPlain(n);
    NumberIsRead(n, rest);
    LastAt(t, COLON, Decimal(n) + rest);
  }

  lemma LiteralPieces(t: Text, port: Text)
    requires CLOSE_BRACKET !in t
    ensures var printed := [OPEN_BRACKET] + t + [CLOSE_BRACKET] + port;
      IndexOf(printed, CLOSE_BRACKET) == |t| + 1 && printed[1..|t| + 1] == t && printed[|t| + 2..] == port
  {
    FirstAt([OPEN_BRACKET] + t, CLOSE_BRACKET, port);
    Slices([OPEN_BRACKET] + t, CLOSE_BRACKET, port);
  }

  lemma LiteralArrives(t: Text, n: nat, rest: Text)
    requires CLOSE_BRACKET !in t && !StartsWithDigit(rest)
    ensures SplitHostPort([OPEN_BRACKET] + t + [CLOSE_BRACKET] + [COLON] + (Decimal(n) + rest)) == (t, n)
  {
    var port := [COLON] + (Decimal(n) + rest);
    LiteralPieces(t, port);
    NumberIsRead(n, rest);
    Regrouped([OPEN_BRACKET] + t + [CLOSE_BRACKET], [COLON], Decimal(n) + rest);
    assert port[1..] == Decimal(n) + rest;
  }

  lemma Regrouped(a: Text, b: Text, c: Text)
    ensures a + b + c == a + (b + c)
  {
  }

  /** A printed host and port come back, whatever follows that cannot belong to them. */
  lemma HostPortArrives(host: HostName, n: nat, rest: Text)
    requires ProperHost(host) && MayFollow(host, rest)
    ensures SplitHostPort(PrintHostPort(host, n) + rest) == (Address(host), n)
  {
    Regrouped(PrintHost(host) + [COLON], Decimal(n), rest);
    match host
    case Name(t) => NameArrives(t, n, rest);
    case Literal(t) => LiteralArrives(t, n, rest);
  }

  // --- reading the link back -----------------------------------------------

  predicate IsQueryChar(c: CodeUnit) {
    IsEncodedChar(c) || c == EQUALS || c == AMPERSAND
  }

  /** A printed option has no '&' and nothing else that could end it early. */
  predicate PlainOption(t: Text) {
    forall i :: 0 <= i < |t| ==> IsEncodedChar(t[i]) || t[i] == EQUALS
  }

  lemma {:induction false} OptionsArePlain(t: Transport, order: seq<Field>)
    ensures forall i :: 0 <= i < |PrintOptions(t, order)| ==> PlainOption(PrintOptions(t, order)[i])
  {
    if order != [] {
      var f := order[|order| - 1];
      OptionsArePlain(t, order[..|order| - 1]);
      if Sent(t, f).Some? {
        OptionIsPlain(f, Sent(t, f).value);
      }
    }
  }

  lemma OptionIsPlain(f: Field, value: seq<Scalar>)
    ensures PlainOption(PrintOption(f, value))
  {
    KeyShape(f);
    Percent.DecodeUndoesEncode(value);
  }

  predicate PlainQuery(t: Text) {
    forall i :: 0 <= i < |t| ==> IsQueryChar(t[i])
  }

  lemma PlainLacksHash(t: Text)
    requires PlainQuery(t)
    ensures HASH !in t
  {
  }

  lemma PlainTogether(a: Text, b: Text)
    requires PlainQuery(a) && PlainQuery(b)
    ensures PlainQuery(a + b)
  {
  }

  lemma {:induction false} JoinIsPlain(options: seq<Text>)
    requires forall i :: 0 <= i < |options| ==> PlainOption(options[i])
    ensures PlainQuery(Join(options, AMPERSAND))
  {
    if options != [] {
      JoinIsPlain(options[1..]);
      assert PlainOption(options[0]) && PlainQuery(options[0]) && PlainQuery([AMPERSAND]);
      PlainTogether(options[0], [AMPERSAND]);
      PlainTogether(options[0] + [AMPERSAND], Join(options[1..], AMPERSAND));
    }
  }

  lemma QueryArrives(options: seq<Text>)
    requires forall i :: 0 <= i < |options| ==> PlainOption(options[i])
    ensures QueryOf(Split(Join(options, AMPERSAND), AMPERSAND)) == QueryOf(options)
  {
    if options == [] {
      NothingFollows();
    } else {
      SplitUndoesJoin(options, AMPERSAND);
    }
  }

  /** Behind an IP literal the ':' may be missing. */
  lemma ColonIsOptional(t: Text, n: nat, rest: Text)
    requires CLOSE_BRACKET !in t && !StartsWithDigit(rest)
    ensures SplitHostPort([OPEN_BRACKET] + t + [CLOSE_BRACKET] + (Decimal(n) + rest)) == (t, n)
  {
    LiteralPieces(t, Decimal(n) + rest);
    NumberIsRead(n, rest);
    DecimalIsPlain(n);
    assert (Decimal(n) + rest)[0] == Decimal(n)[0];
  }

  /** Without a port, or with a bracket that is not closed, the port read is 0. */
  lemma NoPortIsZero(t: Text)
    requires COLON !in t
    ensures t != [] && t[0] != OPEN_BRACKET ==> SplitHostPort(t) == (t, 0)
    ensures CLOSE_BRACKET !in t ==> SplitHostPort([OPEN_BRACKET] + t) == ([OPEN_BRACKET] + t, 0)
    ensures CLOSE_BRACKET !in t ==> SplitHostPort([OPEN_BRACKET] + t + [CLOSE_BRACKET] + []) == (t, 0)
  {
    if CLOSE_BRACKET !in t {
      LiteralPieces(t, []);
      NoneAt([OPEN_BRACKET] + t, CLOSE_BRACKET);
    }
  }

  lemma HostPortIsHarmless(host: HostName, port: nat)
    requires ProperHost(host)
    ensures Harmless(PrintHostPort(host, port))
  {
    DecimalIsPlain(port);
    assert Harmless(PrintHost(host)) && Harmless([COLON]);
    HarmlessTogether(PrintHost(host), [COLON]);
    HarmlessTogether(PrintHost(host) + [COLON], Decimal(port));
  }

  lemma HarmlessTogether(a: Text, b: Text)
    requires Harmless(a) && Harmless(b)
    ensures Harmless(a + b)
  {
  }

  lemma EncodedIsHarmless(vs: seq<Scalar>)
    ensures Harmless(EncodeComponent(vs))
  {
    Percent.DecodeUndoesEncode(vs);
  }

  lemma HarmlessLacks(t: Text)
    requires Harmless(t)
    ensures HASH !in t && QUESTION !in t && AT !in t && SLASH !in t
  {
  }

  lemma QueryTextArrives(t: Transport, order: seq<Field>)
    ensures var text := Join(PrintOptions(t, order), AMPERSAND);
      HASH !in text && QueryOf(Split(text, AMPERSAND)) == QueryOf(PrintOptions(t, order))
  {
    OptionsArePlain(t, order);
    JoinIsPlain(PrintOptions(t, order));
    PlainLacksHash(Join(PrintOptions(t, order), AMPERSAND));
    QueryArrives(PrintOptions(t, order));
  }

  lemma BodyArrives(p: Profile, path: Text, order: seq<Field>)
    requires Proper(p) && ProperPath(path)
    ensures Authority(PrintBody(p, path, order)) == Some(PartsOf(p, order))
  {
    var userinfo, hostPort := EncodeComponent(p.credential), PrintHostPort(p.host, p.port);
    QueryTextArrives(p.transport, order);
    HostPortIsHarmless(p.host, p.port);
    HarmlessLacks(hostPort);
    HostPortArrives(p.host, p.port, []);
    assert hostPort + [] == hostPort;
    EncodedIsHarmless(p.credential);
    HarmlessLacks(userinfo);
    Percent.DecodeUndoesEncode(p.tag);
    AuthorityArrives(
      userinfo, hostPort, path, Join(PrintOptions(p.transport, order), AMPERSAND), EncodeComponent(p.tag));
  }

  predicate Carries(query: Query, t: Transport) {
    forall f :: Get(query, f) == Read(Sent(t, f))
  }

  lemma FirstOptions(t: Transport, query: Query)
    requires Carries(query, t)
    ensures Get(query, Type) == Read(t.network) && Get(query, Security) == Read(t.security)
    ensures Get(query, Sni) == Read(t.sni) && Get(query, Peer) == Read(t.peer)
    ensures Get(query, Fp) == Read(t.fingerprint) && Get(query, Pbk) == Read(t.publicKey)
    ensures Get(query, Sid) == Read(t.shortId)
    ensures Get(query, Alpn) == if t.alpn == [] then None else Read(Some(Csv(t.alpn)))
  {
    assert Get(query, Alpn) == Read(Sent(t, Alpn));
  }

  lemma OtherOptions(t: Transport, query: Query)
    requires Carries(query, t)
    ensures Get(query, Spx) == Read(t.spiderX) && Get(query, Path) == Read(t.path)
    ensures Get(query, Host) == Read(t.hostHeader) && Get(query, ServiceName) == Read(t.serviceName)
  {
  }

  lemma LastOptions(t: Transport, query: Query)
    requires Carries(query, t)
    ensures Get(query, HeaderType) == Read(t.headerType) && Get(query, Flow) == Read(t.flow)
    ensures Get(query, Encryption) == Read(t.encryption)
  {
  }

  lemma StreamArrives(t: Transport, query: Query, defaultSecurity: Text)
    requires Carries(query, t)
    requires forall i :: 0 <= i < |t.alpn| ==> ProperItem(t.alpn[i])
    ensures StreamFromQuery(query, defaultSecurity) == StreamRecord(t, defaultSecurity)
  {
    FirstOptions(t, query);
    OtherOptions(t, query);
    LastOptions(t, query);
    if t.alpn != [] {
      assert ProperItem(t.alpn[0]);
      AlpnArrives(t.alpn);
    }
  }

  lemma AllOptionsArrive(t: Transport, order: seq<Field>)
    requires Covers(order, t)
    ensures Carries(QueryOf(PrintOptions(t, order)), t)
  {
    forall f ensures Get(QueryOf(PrintOptions(t, order)), f) == Read(Sent(t, f)) {
      OptionsArrive(t, order, f);
    }
  }

  // --- the whole link ------------------------------------------------------

  lemma SchemeIsPlain(scheme: Text, name: Text)
    requires LowerCase(scheme) == name && IsLetters(name)
    ensures NoSpace(scheme) && COLON !in scheme
  {
    assert forall i :: 0 <= i < |scheme| ==> 0x41 <= name[i] <= 0x7a;
  }

  lemma SchemeArrives(scheme: Text, body: Text)
    requires COLON !in scheme
    ensures var link := PrintLink(scheme, body);
      IndexOfMark(link) == |scheme| && link[..|scheme|] == scheme && link[|scheme| + 3..] == body
  {
    var link := PrintLink(scheme, body);
    assert MarkAt(link, |scheme|);
    assert forall k: nat :: k < |scheme| ==> link[k] == scheme[k];
  }

  lemma HarmlessHasNoSpace(t: Text)
    requires Harmless(t)
    ensures NoSpace(t) && NoSpace(Suffix(HASH, t))
  {
  }

  lemma PlainHasNoSpace(t: Text)
    requires PlainQuery(t)
    ensures NoSpace(Suffix(QUESTION, t))
  {
  }

  lemma BodyHasNoSpace(p: Profile, path: Text, order: seq<Field>)
    requires Proper(p) && ProperPath(path)
    ensures NoSpace(PrintBody(p, path, order))
  {
    var userinfo, hostPort := EncodeComponent(p.credential), PrintHostPort(p.host, p.port);
    var query := Join(PrintOptions(p.transport, order), AMPERSAND);
    OptionsArePlain(p.transport, order);
    JoinIsPlain(PrintOptions(p.transport, order));
    PlainHasNoSpace(query);
    HostPortIsHarmless(p.host, p.port);
    HarmlessHasNoSpace(hostPort);
    PathLacks(path);
    NoSpaceTogether(hostPort, path);
    EncodedIsHarmless(p.credential);
    HarmlessHasNoSpace(userinfo);
    EncodedIsHarmless(p.tag);
    HarmlessHasNoSpace(EncodeComponent(p.tag));
    NoSpaceTogether(userinfo, [AT]);
    NoSpaceTogether(userinfo + [AT], hostPort + path);
    NoSpaceTogether(userinfo + [AT] + (hostPort + path), Suffix(QUESTION, query));
    NoSpaceTogether(
      userinfo + [AT] + (hostPort + path) + Suffix(QUESTION, query), Suffix(HASH, EncodeComponent(p.tag)));
  }

  lemma LinkIsDispatched(scheme: Text, name: Text, body: Text, vmess: VmessReader)
    requires LowerCase(scheme) == name && IsLetters(name) && NoSpace(body)
    ensures var link := PrintLink(scheme, body);
      NoSpace(link) && ParseShareLink(link, vmess) == Dispatch(name, body, link, vmess)
  {
    var link := PrintLink(scheme, body);
    SchemeIsPlain(scheme, name);
    SchemeArrives(scheme, body);
    NoSpaceTogether(scheme, [COLON, SLASH, SLASH]);
    NoSpaceTogether(scheme + [COLON, SLASH, SLASH], body);
    assert Trimmed(link);
  }

  lemma TagIsRead(tag: seq<Scalar>, protocol: Text, host: HostName, port: nat)
    ensures TagOf(Utf16(tag), protocol, Address(host), port) == TagRecord(tag, protocol, host, port)
  {
    NonEmpty(tag);
    assert Ascii("-") == [MINUS] && Ascii(":") == [COLON];
  }

  lemma VlessIsRead(p: Profile, parts: AuthorityParts, raw: Text)
    requires Proper(p) && Carries(parts.query, p.transport)
    requires parts.userinfo == EncodeComponent(p.credential) && parts.fragment == Utf16(p.tag)
    requires parts.host == Address(p.host) && parts.port == p.port
    ensures VlessOf(Some(parts), raw) == Some(VlessRecord(p, raw))
  {
    TagIsRead(p.tag, Ascii("vless"), p.host, p.port);
    StreamArrives(p.transport, parts.query, Ascii("none"));
    LastOptions(p.transport, parts.query);
    Percent.DecodeUndoesEncode(p.credential);
  }

  lemma TrojanIsRead(p: Profile, parts: AuthorityParts, raw: Text)
    requires Proper(p) && Carries(parts.query, p.transport)
    requires parts.userinfo == EncodeComponent(p.credential) && parts.fragment == Utf16(p.tag)
    requires parts.host == Address(p.host) && parts.port == p.port
    ensures TrojanOf(Some(parts), raw) == Some(TrojanRecord(p, raw))
  {
    TagIsRead(p.tag, Ascii("trojan"), p.host, p.port);
    StreamArrives(p.transport, parts.query, Ascii("tls"));
    Percent.DecodeUndoesEncode(p.credential);
  }

  function PartsOf(p: Profile, order: seq<Field>): AuthorityParts {
    AuthorityParts(EncodeComponent(p.credential), Address(p.host), p.port,
                   QueryOf(PrintOptions(p.transport, order)), Utf16(p.tag))
  }

  /**
   * For every profile, scheme spelling, path behind the port and order of options: the printed vless
   * link parses to the record of that profile.
   */
  lemma VlessRoundTrip(p: Profile, scheme: Text, path: Text, order: seq<Field>, vmess: VmessReader)
    requires Proper(p) && ProperPath(path) && Covers(order, p.transport) && LowerCase(scheme) == Ascii("vless")
    ensures var link := PrintLink(scheme, PrintBody(p, path, order));
      NoSpace(link) && ParseShareLink(link, vmess) == Some(VlessRecord(p, link))
  {
    var body := PrintBody(p, path, order);
    BodyHasNoSpace(p, path, order);
    LinkIsDispatched(scheme, Ascii("vless"), body, vmess);
    BodyArrives(p, path, order);
    AllOptionsArrive(p.transport, order);
    VlessIsRead(p, PartsOf(p, order), PrintLink(scheme, body));
  }

  /** The same for trojan links, whose security is 'tls' unless the link says otherwise. */
  lemma TrojanRoundTrip(p: Profile, scheme: Text, path: Text, order: seq<Field>, vmess: VmessReader)
    requires Proper(p) && ProperPath(path) && Covers(order, p.transport) && LowerCase(scheme) == Ascii("trojan")
    ensures var link := PrintLink(scheme, PrintBody(p, path, order));
      NoSpace(link) && ParseShareLink(link, vmess) == Some(TrojanRecord(p, link))
  {
    var body := PrintBody(p, path, order);
    BodyHasNoSpace(p, path, order);
    LinkIsDispatched(scheme, Ascii("trojan"), body, vmess);
    BodyArrives(p, path, order);
    AllOptionsArrive(p.transport, order);
    TrojanIsRead(p, PartsOf(p, order), PrintLink(scheme, body));
  }
}
