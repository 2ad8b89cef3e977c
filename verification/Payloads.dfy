/**
 * Whole subscriptions there and back: any mix of printed links and lines that are no link, as
 * plain text or in base64, parses to the servers of the links, in order.
 */
module Payloads {
  import opened Base64
  import opened Options
  import opened Profiles
  import opened ShareLink
  import opened Shadowsocks
  import opened Subscription
  import opened Text
  import opened Utf8

  datatype Line =
    | VlessLine(profile: Profile, scheme: Text, path: Text, order: seq<Field>)
    | TrojanLine(profile: Profile, scheme: Text, path: Text, order: seq<Field>)
    | Sip002Line(server: SsProfile, scheme: Text, variant: Variant, plugin: Text)
    | LegacyLine(server: SsProfile, scheme: Text, variant: Variant, plugin: Text)
    | Junk(text: Text)

  /** A line and whether it ends in "\r\n" or just "\n". */
  datatype Entry = Entry(line: Line, crlf: bool)

  predicate ProperLine(line: Line, vmess: VmessReader) {
    match line
    case VlessLine(p, scheme, path, order) =>
      Proper(p) && ProperPath(path) && Covers(order, p.transport) && LowerCase(scheme) == Ascii("vless")
    case TrojanLine(p, scheme, path, order) =>
      Proper(p) && ProperPath(path) && Covers(order, p.transport) && LowerCase(scheme) == Ascii("trojan")
    case Sip002Line(p, scheme, v, plugin) =>
      ProperSs(p) && LowerCase(scheme) == Ascii("ss") && ProperPlugin(plugin)
    case LegacyLine(p, scheme, v, plugin) =>
      ProperLegacy(p) && LowerCase(scheme) == Ascii("ss") && ProperPlugin(plugin)
    case Junk(text) => NEWLINE !in text && ParseLine(text, Links(vmess)) == []
  }

  function PrintLine(line: Line): Text {
    match line
    case VlessLine(p, scheme, path, order) => PrintLink(scheme, PrintBody(p, path, order))
    case TrojanLine(p, scheme, path, order) => PrintLink(scheme, PrintBody(p, path, order))
    case Sip002Line(p, scheme, v, plugin) => SsLink(scheme, Sip002Body(p, v), plugin, p.tag)
    case LegacyLine(p, scheme, v, plugin) => SsLink(scheme, LegacyBody(p, v), plugin, p.tag)
    case Junk(text) => text
  }

  /** The servers a line stands for. */
  function LineServers(line: Line): seq<Server> {
    match line
    case VlessLine(p, _, _, _) => [VlessRecord(p, PrintLine(line))]
    case TrojanLine(p, _, _, _) => [TrojanRecord(p, PrintLine(line))]
    case Sip002Line(p, _, _, _) => Known(SsRecord(p, PrintLine(line)))
    case LegacyLine(p, _, _, _) => Known(SsRecord(p, PrintLine(line)))
    case Junk(_) => []
  }

  function PrintEntry(e: Entry): Text {
    PrintLine(e.line) + if e.crlf then [RETURN] else []
  }

  function PrintEach(es: seq<Entry>): seq<Text> {
    if es == [] then [] else [PrintEntry(es[0])] + PrintEach(es[1..])
  }

  function PrintEntries(es: seq<Entry>): Text {
    Join(PrintEach(es), NEWLINE)
  }

  function Servers(es: seq<Entry>): seq<Server> {
    if es == [] then [] else LineServers(es[0].line) + Servers(es[1..])
  }

  predicate ProperEntries(es: seq<Entry>, vmess: VmessReader) {
    forall i :: 0 <= i < |es| ==> ProperLine(es[i].line, vmess)
  }

  // --- one line ------------------------------------------------------------

  lemma LinksAreRead(line: Line, vmess: VmessReader)
    requires ProperLine(line, vmess) && !line.Junk?
    ensures NoSpace(PrintLine(line)) && Known(ParseShareLink(PrintLine(line), vmess)) == LineServers(line)
  {
    match line
    case VlessLine(p, scheme, path, order) => VlessRoundTrip(p, scheme, path, order, vmess);
    case TrojanLine(p, scheme, path, order) => TrojanRoundTrip(p, scheme, path, order, vmess);
    case Sip002Line(p, scheme, v, plugin) => Sip002IsRead(p, scheme, v, plugin, vmess);
    case LegacyLine(p, scheme, v, plugin) => LegacyIsRead(p, scheme, v, plugin, vmess);
  }

  lemma LinkIsMarked(line: Line)
    requires !line.Junk?
    ensures HasMark(PrintLine(line)) && PrintLine(line) != []
  {
    var link := PrintLine(line);
    assert MarkAt(link, |line.scheme|);
  }

  /** The line is one line, and reading it yields what it stands for. */
  predicate ReadBy(line: Line, parse: LinkReader) {
    NEWLINE !in PrintLine(line) && ParseLine(PrintLine(line), parse) == LineServers(line)
  }

  lemma LinkIsALine(link: Text, parse: LinkReader)
    requires NoSpace(link) && link != []
    ensures NEWLINE !in link && ParseLine(link, parse) == Known(parse(link))
  {
    assert Trim(link) == link;
  }

  lemma LineIsRead(line: Line, vmess: VmessReader)
    requires ProperLine(line, vmess)
    ensures ReadBy(line, Links(vmess))
  {
    if !line.Junk? {
      LinksAreRead(line, vmess);
      LinkIsMarked(line);
      LinkIsALine(PrintLine(line), Links(vmess));
    }
  }

  lemma EntryIsRead(e: Entry, parse: LinkReader)
    requires ReadBy(e.line, parse)
    ensures NEWLINE !in PrintEntry(e) && ParseLine(PrintEntry(e), parse) == LineServers(e.line)
  {
    if e.crlf {
      TrimDropsSpace(PrintLine(e.line), RETURN);
    } else {
      assert PrintEntry(e) == PrintLine(e.line);
    }
  }

  // --- the whole text ------------------------------------------------------

  lemma {:induction false} EntriesAreRead(es: seq<Entry>, vmess: VmessReader)
    requires ProperEntries(es, vmess)
    ensures ParseLines(PrintEach(es), Links(vmess)) == Servers(es)
    ensures forall i :: 0 <= i < |PrintEach(es)| ==> NEWLINE !in PrintEach(es)[i]
  {
    if es != [] {
      LineIsRead(es[0].line, vmess);
      EntryIsRead(es[0], Links(vmess));
      EntriesAreRead(es[1..], vmess);
      OneMoreLine(PrintEntry(es[0]), PrintEach(es[1..]), Links(vmess));
    }
  }

  lemma OneMoreLine(line: Text, lines: seq<Text>, parse: LinkReader)
    ensures ParseLines([line] + lines, parse) == ParseLine(line, parse) + ParseLines(lines, parse)
  {
    assert ([line] + lines)[1..] == lines;
  }

  lemma {:induction false} EachPrinted(es: seq<Entry>, i: nat)
    requires i < |es|
    ensures |PrintEach(es)| == |es| && PrintEach(es)[i] == PrintEntry(es[i])
  {
    if i > 0 {
      EachPrinted(es[1..], i - 1);
    } else if |es| > 1 {
      EachPrinted(es[1..], 0);
    }
  }

  lemma EntriesAreMarked(es: seq<Entry>, i: nat)
    requires i < |es| && !es[i].line.Junk?
    ensures HasMark(PrintEntries(es))
  {
    EachPrinted(es, i);
    LinkIsMarked(es[i].line);
    MarkBefore(PrintLine(es[i].line), if es[i].crlf then [RETURN] else []);
    JoinIsMarked(PrintEach(es), NEWLINE, i);
  }

  /** A plain-text subscription with at least one link yields the servers of its links, in order. */
  lemma PlainSubscription(es: seq<Entry>, i: nat, vmess: VmessReader)
    requires ProperEntries(es, vmess) && i < |es| && !es[i].line.Junk?
    ensures ParseSubscription(PrintEntries(es), Links(vmess)) == Servers(es)
  {
    EntriesAreMarked(es, i);
    LinksAreNotBase64(PrintEntries(es));
    EntriesAreRead(es, vmess);
    JoinedLines(PrintEach(es), Links(vmess));
  }

  /** So does its base64 form, in any variant and broken into lines anywhere. */
  lemma WrappedSubscription(
    es: seq<Entry>, i: nat, w: Text, vs: seq<Scalar>, urlSafe: bool, padded: bool, vmess: VmessReader)
    requires ProperEntries(es, vmess) && i < |es| && !es[i].line.Junk?
    requires Utf16(vs) == PrintEntries(es) && WithoutSpaces(w) == Encode(Utf8Bytes(vs), urlSafe, padded)
    ensures ParseSubscription(w, Links(vmess)) == Servers(es)
  {
    EntriesAreMarked(es, i);
    WrappingKeepsMeaning(w, vs, urlSafe, padded, Links(vmess));
    PlainSubscription(es, i, vmess);
  }

  /**
   * Wrapped once more it yields nothing: for every text of links, and every variant, the base64 of
   * its base64 form has lost all its servers.
   */
  lemma WrappedTwiceIsLost(es: seq<Entry>, i: nat, vs: seq<Scalar>, urlSafe: bool, padded: bool, vmess: VmessReader)
    requires ProperEntries(es, vmess) && i < |es| && !es[i].line.Junk? && Utf16(vs) == PrintEntries(es)
    ensures var once := Encode(Utf8Bytes(vs), urlSafe, padded);
      && ParseSubscription(once, Links(vmess)) == Servers(es)
      && (forall k :: 0 <= k < |once| ==> once[k] < 0x80)
      && ParseSubscription(Encode(Utf8Bytes(Characters(once)), urlSafe, padded), Links(vmess)) == []
  {
    var once := Encode(Utf8Bytes(vs), urlSafe, padded);
    WrappedIsPlain(vs, urlSafe, padded);
    EntriesAreMarked(es, i);
    LinksNeedMark(vmess);
    TwiceIsLost(vs, once, Encode(Utf8Bytes(Characters(once)), urlSafe, padded), urlSafe, padded, Links(vmess));
    PlainSubscription(es, i, vmess);
  }
}
