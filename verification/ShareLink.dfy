/**
 * The share-link parsers: a URI in, a server record out, or nothing for a malformed link.
 */
module ShareLink {
  import opened Base64
  import opened Options
  import opened Percent
  import opened Text
  import opened Utf8

  // --- data model ----------------------------------------------------------

  /** The transport options of a ParsedServer; `undefined` is None. */
  datatype Stream = Stream(
    network: Text, security: Text, sni: Option<Text>, fingerprint: Option<Text>,
    alpn: Option<seq<Text>>, publicKey: Option<Text>, shortId: Option<Text>, spiderX: Option<Text>,
    path: Option<Text>, host: Option<Text>, serviceName: Option<Text>, headerType: Option<Text>,
    flow: Option<Text>)

  datatype Server =
    | Vless(tag: Text, address: Text, port: int, id: Text, encryption: Text, stream: Stream, raw: Text)
    | Trojan(tag: Text, address: Text, port: int, password: Text, stream: Stream, raw: Text)
    | Shadowsocks(tag: Text, address: Text, port: int, cipher: Text, password: Text, raw: Text)
    | Vmess(tag: Text, address: Text, port: int, user: Option<Text>, alterId: int, encryption: Text,
            stream: Stream, raw: Text)

  type Query = map<Text, Text>

  datatype AuthorityParts =
    AuthorityParts(userinfo: Text, host: Text, port: int, query: Query, fragment: Text)

  /** How the vmess:// payload is read: JSON is outside the model, so any reader will do. */
  type VmessReader = (Text, Text) -> Option<Server>

  // --- the query -----------------------------------------------------------

  /** The options the parsers look up, and the names they look them up by. */
  datatype Field =
    | Type | Security | Sni | Peer | Fp | Alpn | Pbk | Sid | Spx | Path | Host
    | ServiceName | HeaderType | Flow | Encryption

  function Key(f: Field): Text {
    match f
    case Type => Ascii("type")
    case Security => Ascii("security")
    case Sni => Ascii("sni")
    case Peer => Ascii("peer")
    case Fp => Ascii("fp")
    case Alpn => Ascii("alpn")
    case Pbk => Ascii("pbk")
    case Sid => Ascii("sid")
    case Spx => Ascii("spx")
    case Path => Ascii("path")
    case Host => Ascii("host")
    case ServiceName => Ascii("serviceName")
    case HeaderType => Ascii("headerType")
    case Flow => Ascii("flow")
    case Encryption => Ascii("encryption")
  }

  /** `query.key || undefined`. */
  function Get(query: Query, f: Field): Option<Text> {
    if Key(f) in query && query[Key(f)] != [] then Some(query[Key(f)]) else None
  }

  function Or(value: Option<Text>, fallback: Text): Text {
    if value.Some? then value.value else fallback
  }

  /** What one `key=value` of the query does to the object built so far. */
  function AddPair(query: Query, pair: Text): Query {
    if pair == [] then query
    else query[DecodeComponentSafe(Before(pair, EQUALS)) := DecodeComponentSafe(After(pair, EQUALS))]
  }

  function QueryOf(pairs: seq<Text>): Query {
    if pairs == [] then map[] else AddPair(QueryOf(pairs[..|pairs| - 1]), pairs[|pairs| - 1])
  }

  lemma QueryStep(pairs: seq<Text>, i: nat)
    requires i < |pairs|
    ensures QueryOf(pairs[..i + 1]) == AddPair(QueryOf(pairs[..i]), pairs[i])
  {
    assert pairs[..i + 1][..i] == pairs[..i];
  }

  method ParseQuery(query: Text) returns (out: Query)
    ensures out == QueryOf(Split(query, AMPERSAND))
  {
    out := map[];
    var pairs := Split(query, AMPERSAND);
    for i := 0 to |pairs|
      invariant out == QueryOf(pairs[..i])
    {
      QueryStep(pairs, i);
      out := SetPair(out, pairs[i]);
    }
    assert pairs[..|pairs|] == pairs;
  }

  /** The body of parseQuery's loop. */
  method SetPair(soFar: Query, pair: Text) returns (out: Query)
    ensures out == AddPair(soFar, pair)
  {
    out := soFar;
    if pair == [] {
      return;
    }
    var eqIdx := IndexOf(pair, EQUALS);
    var key := if eqIdx == -1 then pair else pair[..eqIdx];
    var value := if eqIdx == -1 then [] else pair[eqIdx + 1..];
    assert key == Before(pair, EQUALS);
    assert value == After(pair, EQUALS);
    out := out[DecodeComponentSafe(key) := DecodeComponentSafe(value)];
  }

  function TrimAll(parts: seq<Text>): seq<Text> {
    if parts == [] then []
    else (if Trim(parts[0]) == [] then [] else [Trim(parts[0])]) + TrimAll(parts[1..])
  }

  function SplitCsv(value: Option<Text>): Option<seq<Text>> {
    if value.None? || TrimAll(Split(value.value, COMMA)) == [] then None
    else Some(TrimAll(Split(value.value, COMMA)))
  }

  function StreamFromQuery(query: Query, defaultSecurity: Text): Stream {
    Stream(
      Or(Get(query, Type), Ascii("tcp")), Or(Get(query, Security), defaultSecurity),
      if Get(query, Sni).Some? then Get(query, Sni) else Get(query, Peer),
      Get(query, Fp), SplitCsv(Get(query, Alpn)), Get(query, Pbk), Get(query, Sid), Get(query, Spx),
      Get(query, Path), Get(query, Host), Get(query, ServiceName), Get(query, HeaderType), Get(query, Flow))
  }

  // --- the authority -------------------------------------------------------

  /** toPort: what parseInt makes of the text, 0 when it is not a number. */
  function ToPort(t: Text): int {
    if ParseInt(t).Some? then ParseInt(t).value else 0
  }

  function SplitHostPort(hostPort: Text): (Text, int) {
    if hostPort != [] && hostPort[0] == OPEN_BRACKET then
      var close := IndexOf(hostPort, CLOSE_BRACKET);
      if close == -1 then (hostPort, 0)
      else
        var after := hostPort[close + 1..];
        (hostPort[1..close], ToPort(if after != [] && after[0] == COLON then after[1..] else after))
    else
      var colon := LastIndexOf(hostPort, COLON);
      if colon == -1 then (hostPort, 0) else (hostPort[..colon], ToPort(hostPort[colon + 1..]))
  }

  /** `userinfo@host:port/path?query#fragment`, peeled from the right. */
  function Authority(afterScheme: Text): Option<AuthorityParts> {
    var link := Before(afterScheme, HASH);
    AuthorityFrom(Before(link, QUESTION), After(link, QUESTION), After(afterScheme, HASH))
  }

  /** The same with query and fragment cut off. */
  function AuthorityFrom(authority: Text, query: Text, fragment: Text): Option<AuthorityParts> {
    var at := LastIndexOf(authority, AT);
    var userinfo := if at == -1 then [] else authority[..at];
    var (host, port) := SplitHostPort(Before(authority[at + 1..], SLASH));
    if host == [] then None
    else Some(AuthorityParts(userinfo, host, port, QueryOf(Split(query, AMPERSAND)), DecodeComponentSafe(fragment)))
  }

  lemma NothingFollows()
    ensures DecodeComponentSafe([]) == [] && QueryOf(Split([], AMPERSAND)) == map[]
  {
    var nothing: seq<Text> := [[]];
    assert Split([], AMPERSAND) == nothing;
    assert nothing[..0] == [];
  }

  /** `rest` in front of the first `c`, and what is behind it. */
  method Cut(rest: Text, c: CodeUnit) returns (before: Text, after: Text)
    ensures before == Before(rest, c) && after == After(rest, c)
  {
    before, after := rest, [];
    var idx := IndexOf(rest, c);
    if idx != -1 {
      before, after := rest[..idx], rest[idx + 1..];
    }
  }

  /** An absent fragment decodes to nothing and an absent query parses to nothing (NothingFollows). */
  method SplitAuthorityLink(afterScheme: Text) returns (parts: Option<AuthorityParts>)
    ensures parts == Authority(afterScheme)
  {
    var rest, hash := Cut(afterScheme, HASH);
    var fragment := DecodeComponentSafe(hash);
    var question;
    rest, question := Cut(rest, QUESTION);
    var query := ParseQuery(question);
    var userinfo: Text := [];
    var atIdx := LastIndexOf(rest, AT);
    if atIdx != -1 {
      userinfo := rest[..atIdx];
    }
    var path;
    rest, path := Cut(rest[atIdx + 1..], SLASH);
    var (host, port) := SplitHostPort(rest);
    if host == [] {
      return None;
    }
    return Some(AuthorityParts(userinfo, host, port, query, fragment));
  }

  // --- the protocols -------------------------------------------------------

  function FallbackTag(protocol: Text, host: Text, port: int): Text {
    protocol + [MINUS] + host + [COLON] + Decimal(port)
  }

  function TagOf(fragment: Text, protocol: Text, host: Text, port: int): Text {
    if fragment == [] then FallbackTag(protocol, host, port) else fragment
  }

  predicate Usable(parts: Option<AuthorityParts>) {
    parts.Some? && parts.value.userinfo != [] && parts.value.port != 0
  }

  function VlessOf(parts: Option<AuthorityParts>, raw: Text): Option<Server> {
    if !Usable(parts) then None
    else
      var p := parts.value;
      Some(Vless(TagOf(p.fragment, Ascii("vless"), p.host, p.port), p.host, p.port,
                 DecodeComponentSafe(p.userinfo), Or(Get(p.query, Encryption), Ascii("none")),
                 StreamFromQuery(p.query, Ascii("none")), raw))
  }

  function ParseVless(afterScheme: Text, raw: Text): Option<Server> {
    VlessOf(Authority(afterScheme), raw)
  }

  function TrojanOf(parts: Option<AuthorityParts>, raw: Text): Option<Server> {
    if !Usable(parts) then None
    else
      var p := parts.value;
      Some(Trojan(TagOf(p.fragment, Ascii("trojan"), p.host, p.port), p.host, p.port,
                  DecodeComponentSafe(p.userinfo), StreamFromQuery(p.query, Ascii("tls")), raw))
  }

  function ParseTrojan(afterScheme: Text, raw: Text): Option<Server> {
    TrojanOf(Authority(afterScheme), raw)
  }

  /** splitFirst on ':', kept only with something in front of it. */
  function Credentials(t: Text): Option<(Text, Text)> {
    if IndexOf(t, COLON) <= 0 then None else Some((Before(t, COLON), After(t, COLON)))
  }

  /** The base64 reading of the user info if that is a pair, else its percent-decoded one. */
  function DecodeUserinfoCreds(userinfo: Text): Option<(Text, Text)> {
    var fromBase64 := Credentials(Base64ToString(userinfo));
    if fromBase64.Some? then fromBase64 else Credentials(DecodeComponentSafe(userinfo))
  }

  /** splitFirst on ':' as the legacy form uses it, where an empty method passes. */
  function SplitFirst(t: Text): Option<(Text, Text)> {
    if IndexOf(t, COLON) == -1 then None else Some((Before(t, COLON), After(t, COLON)))
  }

  /** Credentials, host and port of the part in front of '?' and '#'. */
  function ShadowsocksBody(body: Text): Option<((Text, Text), (Text, int))> {
    var sip002 := AT in body;
    var text := if sip002 then body else Base64ToString(body);
    var at := LastIndexOf(text, AT);
    if at == -1 then None
    else
      var creds := if sip002 then DecodeUserinfoCreds(text[..at]) else SplitFirst(text[..at]);
      if creds.None? then None else Some((creds.value, SplitHostPort(text[at + 1..])))
  }

  function ShadowsocksOf(fragment: Text, body: Option<((Text, Text), (Text, int))>, raw: Text): Option<Server> {
    if body.None? || body.value.1.0 == [] || body.value.1.1 == 0 then None
    else
      var ((cipher, password), (host, port)) := body.value;
      Some(Shadowsocks(TagOf(fragment, Ascii("ss"), host, port), host, port, cipher, password, raw))
  }

  function ParseShadowsocks(afterScheme: Text, raw: Text): Option<Server> {
    ShadowsocksOf(DecodeComponentSafe(After(afterScheme, HASH)),
                  ShadowsocksBody(Before(Before(afterScheme, HASH), QUESTION)), raw)
  }

  // --- the dispatcher ------------------------------------------------------

  /** toLowerCase, as far as it can tell one of the four schemes. */
  function LowerCase(t: Text): (r: Text)
    ensures |r| == |t|
    ensures forall i :: 0 <= i < |t| ==> r[i] == if 0x41 <= t[i] <= 0x5a then t[i] + 0x20 else t[i]
  {
    seq(|t|, i requires 0 <= i < |t| => if 0x41 <= t[i] <= 0x5a then t[i] + 0x20 else t[i])
  }

  function Dispatch(scheme: Text, afterScheme: Text, raw: Text, vmess: VmessReader): Option<Server> {
    if scheme == Ascii("vless") then ParseVless(afterScheme, raw)
    else if scheme == Ascii("trojan") then ParseTrojan(afterScheme, raw)
    else if scheme == Ascii("vmess") then vmess(afterScheme, raw)
    else if scheme == Ascii("ss") then ParseShadowsocks(afterScheme, raw)
    else None
  }

  function ParseShareLink(uri: Text, vmess: VmessReader): Option<Server> {
    var trimmed := Trim(uri);
    var mark := IndexOfMark(trimmed);
    if mark == -1 then None
    else Dispatch(LowerCase(trimmed[..mark]), trimmed[mark + 3..], trimmed, vmess)
  }

  // --- what every parsed server has ----------------------------------------

  predicate Complete(server: Option<Server>, raw: Text) {
    server.Some? ==>
      var s := server.value;
      s.address != [] && s.port != 0 && s.tag != [] && s.raw == raw
  }

  lemma CompleteAuthority(parts: Option<AuthorityParts>, raw: Text)
    requires parts.Some? ==> parts.value.host != []
    ensures Complete(VlessOf(parts, raw), raw) && Complete(TrojanOf(parts, raw), raw)
  {
  }

  lemma CompleteShadowsocks(fragment: Text, body: Option<((Text, Text), (Text, int))>, raw: Text)
    ensures Complete(ShadowsocksOf(fragment, body, raw), raw)
  {
  }

  lemma CompleteDispatch(scheme: Text, afterScheme: Text, raw: Text, vmess: VmessReader)
    requires scheme != Ascii("vmess")
    ensures Complete(Dispatch(scheme, afterScheme, raw, vmess), raw)
  {
    if scheme == Ascii("vless") || scheme == Ascii("trojan") {
      CompleteAuthority(Authority(afterScheme), raw);
    } else if scheme == Ascii("ss") {
      CompleteShadowsocks(DecodeComponentSafe(After(afterScheme, HASH)),
                          ShadowsocksBody(Before(Before(afterScheme, HASH), QUESTION)), raw);
    }
  }

  /** The four schemes; the case of their letters does not matter. */
  predicate IsKnown(scheme: Text) {
    var lower := LowerCase(scheme);
    lower == Ascii("vless") || lower == Ascii("trojan") || lower == Ascii("vmess") || lower == Ascii("ss")
  }

  /** What each scheme may yield. */
  predicate FitsScheme(scheme: Text, server: Server) {
    var lower := LowerCase(scheme);
    && (lower == Ascii("vless") ==> server.Vless?)
    && (lower == Ascii("trojan") ==> server.Trojan?)
    && (lower == Ascii("ss") ==> server.Shadowsocks?)
  }

  lemma OnlyFittingServers(scheme: Text, afterScheme: Text, raw: Text, vmess: VmessReader)
    ensures var server := Dispatch(LowerCase(scheme), afterScheme, raw, vmess);
      server.Some? ==> IsKnown(scheme) && FitsScheme(scheme, server.value)
    ensures LowerCase(scheme) == Ascii("vmess") ==>
      Dispatch(LowerCase(scheme), afterScheme, raw, vmess) == vmess(afterScheme, raw)
  {
    assert |Ascii("vless")| == 5 && |Ascii("trojan")| == 6 && |Ascii("ss")| == 2;
    assert Ascii("vmess")[1] != Ascii("vless")[1];
  }

  /** A server comes from a text with "://" in it, one of the four schemes in front of the first, and is of its kind. */
  lemma OnlyKnownSchemes(uri: Text, vmess: VmessReader)
    ensures var mark, server := IndexOfMark(Trim(uri)), ParseShareLink(uri, vmess);
      server.Some? ==> mark != -1 && IsKnown(Trim(uri)[..mark]) && FitsScheme(Trim(uri)[..mark], server.value)
  {
    var t := Trim(uri);
    if IndexOfMark(t) != -1 {
      OnlyFittingServers(t[..IndexOfMark(t)], t[IndexOfMark(t) + 3..], t, vmess);
    }
  }

  /** Apart from vmess, whatever the text: a server comes with an address, a port, a tag and its link. */
  lemma OnlyCompleteServers(uri: Text, vmess: VmessReader)
    requires
      var t := Trim(uri);
      IndexOfMark(t) != -1 ==> LowerCase(t[..IndexOfMark(t)]) != Ascii("vmess")
    ensures Complete(ParseShareLink(uri, vmess), Trim(uri))
  {
    var t := Trim(uri);
    if IndexOfMark(t) != -1 {
      CompleteDispatch(LowerCase(t[..IndexOfMark(t)]), t[IndexOfMark(t) + 3..], t, vmess);
    }
  }
}
