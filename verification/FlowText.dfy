/** Flow descriptions: the printer of adaptive reports and the parser of SDF filters, and
    what the printed rule matches. */
module FlowText {
  import opened Rules
  import opened Sdf
  import opened Text

  // ---- the parser ----

  /** One octet of a dotted address: no leading zero. */
  function ParseOctet(s: string): (r: Option<nat>)
    ensures r.Some? ==> r.value <= 255
  {
    if |s| > 1 && s[0] == '0' then None else ParseUint(s, 255)
  }

  function ParseIpv4(s: string): Option<Ipv4> {
    var p := Split(s, '.');
    if |p| != 4 then None
    else
      var a, b, c, d := ParseOctet(p[0]), ParseOctet(p[1]), ParseOctet(p[2]), ParseOctet(p[3]);
      if a.None? || b.None? || c.None? || d.None? then None
      else Some(a.value * 0x100_0000 + b.value * 0x1_0000 + c.value * 0x100 + d.value)
  }

  /** The network part of an address. */
  function Masked(ip: Ipv4, prefix: nat): (r: Ipv4)
    requires prefix <= 32
    ensures r / Pow2(32 - prefix) == ip / Pow2(32 - prefix)
  {
    var m := Pow2(32 - prefix);
    MaskDiv(ip, m);
    ip / m * m
  }

  lemma {:induction false} MaskDiv(x: nat, m: nat)
    requires m > 0
    ensures 0 <= x / m * m <= x && (x / m * m) / m == x / m
  {
  }

  function ParseCidr(s: string): Option<Network> {
    var p := Split(s, '/');
    if |p| != 2 then None
    else
      var ip, n := ParseIpv4(p[0]), ParseUint(p[1], 32);
      if ip.None? || n.None? then None
      else Some(Network(Masked(ip.value, n.value), n.value))
  }

  function ParsePort(s: string): Option<Port> {
    var n := ParseUint(s, 65535);
    if n.Some? then Some(n.value) else None
  }

  /** A range `a-b`, split at its first dash, or a single port. */
  function ParseRange(part: string): Option<PortRange> {
    var bounds := Split(part, '-');
    if |bounds| == 1 then
      var port := ParsePort(part);
      if port.None? then None else Some(PortRange(port.value, port.value))
    else
      SplitPrefix(part, '-');
      var from, to := ParsePort(bounds[0]), ParsePort(part[|bounds[0]| + 1..]);
      if from.None? || to.None? then None else Some(PortRange(from.value, to.value))
  }

  lemma {:induction false} SplitPrefix(s: string, sep: char)
    requires |Split(s, sep)| > 1
    ensures |Split(s, sep)[0]| < |s|
  {
    if s[0] != sep { SplitPrefix(s[1..], sep); }
  }

  /** The comma-separated pieces of one token, blank ones skipped. */
  function ParsePieces(parts: seq<string>): Option<seq<PortRange>> {
    if parts == [] then Some([])
    else
      var front := ParsePieces(parts[..|parts| - 1]);
      var part := TrimSpace(parts[|parts| - 1]);
      if front.None? || part == "" then front
      else
        var r := ParseRange(part);
        if r.None? then None else Some(front.value + [r.value])
  }

  function ParsePorts(tokens: seq<string>): Option<seq<PortRange>> {
    if tokens == [] then Some([])
    else
      var front := ParsePorts(tokens[..|tokens| - 1]);
      var token := tokens[|tokens| - 1];
      if front.None? || ToLower(token) == "any" then front
      else
        var r := ParsePieces(Split(token, ','));
        if r.None? then None else Some(front.value + r.value)
  }

  /** parsePortList as written: two nested loops that append to the list and give up at the
      first bad piece. */
  method ParsePortList(tokens: seq<string>) returns (r: Option<seq<PortRange>>)
    ensures r == ParsePorts(tokens)
  {
    var ports: seq<PortRange> := [];
    for i := 0 to |tokens|
      invariant ParsePorts(tokens[..i]) == Some(ports)
    {
      assert tokens[..i + 1][..i] == tokens[..i];
      if ToLower(tokens[i]) == "any" { continue; }
      var parts := Split(tokens[i], ',');
      ghost var before := ports;
      assert parts[..0] == [] && ports[|before|..] == [];
      for j := 0 to |parts|
        invariant before <= ports && ParsePieces(parts[..j]) == Some(ports[|before|..])
      {
        assert parts[..j + 1][..j] == parts[..j];
        var part := TrimSpace(parts[j]);
        if part == "" { continue; }
        var range := ParseRange(part);
        if range.None? {
          PiecesFail(parts, j + 1);
          PortsFail(tokens, i + 1);
          return None;
        }
        assert (ports + [range.value])[|before|..] == ports[|before|..] + [range.value];
        ports := ports + [range.value];
      }
      assert parts[..|parts|] == parts;
      assert before + ports[|before|..] == ports;
    }
    assert tokens[..|tokens|] == tokens;
    return Some(ports);
  }

  lemma {:induction false} PiecesFail(parts: seq<string>, j: nat)
    requires j <= |parts| && ParsePieces(parts[..j]).None?
    ensures ParsePieces(parts).None?
    decreases |parts|
  {
    if j < |parts| {
      assert parts[..|parts| - 1][..j] == parts[..j];
      PiecesFail(parts[..|parts| - 1], j);
    } else {
      assert parts[..j] == parts;
    }
  }

  lemma {:induction false} PortsFail(tokens: seq<string>, i: nat)
    requires i <= |tokens| && ParsePorts(tokens[..i]).None?
    ensures ParsePorts(tokens).None?
    decreases |tokens|
  {
    if i < |tokens| {
      assert tokens[..|tokens| - 1][..i] == tokens[..i];
      PortsFail(tokens[..|tokens| - 1], i);
    } else {
      assert tokens[..i] == tokens;
    }
  }

  const ANY_ENDPOINT := Endpoint(false, false, None, [])

  function ParseEndpoint(tokens: seq<string>): Option<Endpoint> {
    if tokens == [] then Some(ANY_ENDPOINT)
    else
      var ports := ParsePorts(tokens[1..]);
      var first := ToLower(tokens[0]);
      var net := ParseCidr(if '/' in tokens[0] then tokens[0] else tokens[0] + "/32");
      if ports.None? then None
      else if first == "any" then Some(Endpoint(true, false, None, ports.value))
      else if first == "assigned" then Some(Endpoint(false, true, None, ports.value))
      else if net.None? then None
      else Some(Endpoint(false, false, net, ports.value))
  }

  /** The position of the first "to" from `i` on, or the number of words if there is none. */
  function FindTo(words: seq<string>, i: nat): (k: nat)
    requires i <= |words|
    ensures i <= k <= |words|
    decreases |words| - i
  {
    if i == |words| || ToLower(words[i]) == "to" then i else FindTo(words, i + 1)
  }

  function ParseFlow(desc: string): Option<SdfRule> {
    var words := Fields(TrimSpace(desc));
    if |words| < 7 || ToLower(words[0]) != "permit" || ToLower(words[3]) != "from" then None
    else
      var k := FindTo(words, 4);
      if k + 1 >= |words| then None
      else
        var src, dst := ParseEndpoint(words[4..k]), ParseEndpoint(words[k + 1..]);
        if src.None? || dst.None? then None
        else Some(SdfRule(ToLower(words[1]), ToLower(words[2]), src.value, dst.value))
  }

  // ---- the printer ----

  /** A reported five-tuple; an empty address and port zero stand for absence. */
  datatype FiveTuple = FiveTuple(protocol: string, srcIp: string, dstIp: string, srcPort: Port, dstPort: Port)

  function Token(ip: string, port: Port): string {
    var addr := if ip == "" then "any" else ip;
    if port == 0 then addr else addr + " " + Decimal(port)
  }

  function Protocol(t: FiveTuple): string {
    var p := ToLower(TrimSpace(t.protocol));
    if p == "" then "ip" else p
  }

  /** buildFlowDescription. */
  function Build(t: FiveTuple): string {
    var src, dst := TrimSpace(t.srcIp), TrimSpace(t.dstIp);
    if src == "" && dst == "" then ""
    else "permit out " + Protocol(t) + " from " + Token(src, t.srcPort) + " to " + Token(dst, t.dstPort)
  }

  // ---- agreement ----

  /** An address field is absent or a valid IPv4 address. */
  predicate ValidAddress(s: string) {
    TrimSpace(s) == "" || ParseIpv4(TrimSpace(s)).Some?
  }

  function Words(ip: string, port: Port): seq<string> {
    [if ip == "" then "any" else ip] + if port == 0 then [] else [Decimal(port)]
  }

  lemma {:induction false} AddressWord(s: string)
    requires ParseIpv4(s).Some?
    ensures IsWord(s) && '/' !in s && IsDigit(s[0])
  {
    var p := Split(s, '.');
    forall i | 0 <= i < |p| ensures AllDigits(p[i]) { ParsedDigits(p[i], 255); }
    SplitDigits(s, '.');
    ParsedDigits(p[0], 255);
    FirstOfSplit(s, '.');
  }

  lemma {:induction false} FirstOfSplit(s: string, sep: char)
    requires Split(s, sep)[0] != ""
    ensures s != "" && s[0] == Split(s, sep)[0][0]
  {
  }

  lemma {:induction false} WordsAreWords(ip: string, port: Port)
    requires ip == "" || ParseIpv4(ip).Some?
    ensures forall i | 0 <= i < |Words(ip, port)| :: IsWord(Words(ip, port)[i]) && ToLower(Words(ip, port)[i]) != "to"
    ensures Token(ip, port) == Join(Words(ip, port))
  {
    hide ParseIpv4, Decimal;
    if ip != "" {
      AddressWord(ip);
      assert ToLower(ip)[0] == Lower(ip[0]) && "to"[0] == 't';
    }
    assert ToLower("any")[0] == 'a';
    if port != 0 {
      ParseDecimal(port, 65535);
      DigitsAreAWord(Decimal(port));
      assert ToLower(Decimal(port))[0] == Decimal(port)[0] && IsDigit(Decimal(port)[0]);
      assert Join([Decimal(port)]) == Decimal(port);
      assert Words(ip, port)[1..] == [Decimal(port)];
    }
  }

  /** What a printed address and port parse to. */
  function PrintedEndpoint(ip: string, port: Port): Endpoint
    requires ip == "" || ParseIpv4(ip).Some?
  {
    var ports := if port == 0 then [] else [PortRange(port, port)];
    if ip == "" then Endpoint(true, false, None, ports)
    else Endpoint(false, false, Some(Network(Masked(ParseIpv4(ip).value, 32), 32)), ports)
  }

  lemma {:induction false} HostCidr(ip: string)
    requires ParseIpv4(ip).Some? && '/' !in ip
    ensures ParseCidr(ip + "/32") == Some(Network(Masked(ParseIpv4(ip).value, 32), 32))
  {
    hide ParseIpv4, Masked;
    assert ip + "/32" == ip + ['/'] + "32";
    SplitAt(ip, "32", '/');
    SplitWithout("32", '/');
    ThirtyTwo();
  }

  lemma {:induction false} ThirtyTwo()
    ensures ParseUint("32", 32) == Some(32)
  {
    var s := "32";
    assert s[..1] == "3";
    assert ParseUint("3", 32) == Some(3);
  }

  lemma {:induction false} SplitAt(a: string, b: string, sep: char)
    requires sep !in a
    ensures Split(a + [sep] + b, sep) == [a] + Split(b, sep)
  {
    var s := a + [sep] + b;
    if a == "" {
      assert s[1..] == b;
    } else {
      assert s[1..] == a[1..] + [sep] + b;
      SplitAt(a[1..], b, sep);
      assert [a[0]] + a[1..] == a;
    }
  }

  lemma {:induction false} OneToken(d: string, ports: seq<PortRange>)
    requires ToLower(d) != "any" && ParsePieces(Split(d, ',')) == Some(ports)
    ensures ParsePorts([d]) == Some(ports)
  {
    hide ToLower, ParsePieces, Split;
    var tokens := [d];
    assert tokens[..0] == [] && tokens[|tokens| - 1] == d;
    assert [] + ports == ports;
  }

  lemma {:induction false} PortToken(port: Port)
    ensures ParsePorts([Decimal(port)]) == Some([PortRange(port, port)])
  {
    var d := Decimal(port);
    ParseDecimal(port, 65535);
    DigitsAreAWord(d);
    SplitWithout(d, ',');
    SplitWithout(d, '-');
    assert IsDigit(d[0]) && ToLower(d)[0] == d[0];
    assert ToLower(d) != "any" by { assert "any"[0] == 'a'; }
    var none: seq<string> := [];
    assert [d][..0] == none && ParsePieces(none) == Some([]);
    assert ParseRange(d) == Some(PortRange(port, port));
    var ports := [PortRange(port, port)];
    assert [] + ports == ports;
    assert ParsePieces([d]) == Some([] + ports);
    OneToken(d, ports);
  }

  lemma {:induction false} EndpointOfWords(ip: string, port: Port)
    requires ip == "" || ParseIpv4(ip).Some?
    ensures ParseEndpoint(Words(ip, port)) == Some(PrintedEndpoint(ip, port))
  {
    hide ParseIpv4, Decimal, ParsePorts, Masked;
    var w := Words(ip, port);
    NoPorts();
    if port != 0 {
      PortToken(port);
      assert w[1..] == [Decimal(port)];
    } else {
      assert w[1..] == [];
    }
    if ip == "" {
      assert ToLower("any") == "any";
    } else {
      AddressWord(ip);
      HostCidr(ip);
      assert ToLower(ip)[0] == ip[0];
      assert "any"[0] == 'a' && "assigned"[0] == 'a';
    }
  }

  lemma {:induction false} NoPorts()
    ensures ParsePorts([]) == Some([])
  {
  }

  lemma {:induction false} JoinConcat(a: seq<string>, b: seq<string>)
    requires a != [] && b != []
    ensures Join(a + b) == Join(a) + " " + Join(b)
  {
    if |a| == 1 {
      assert (a + b)[1..] == b;
    } else {
      assert (a + b)[1..] == a[1..] + b;
      JoinConcat(a[1..], b);
    }
  }

  /** A nonempty description is the join of its words. */
  lemma {:induction false} PrintedWords(t: FiveTuple)
    requires ValidAddress(t.srcIp) && ValidAddress(t.dstIp) && IsWord(Protocol(t))
    requires Build(t) != ""
    ensures var head := ["permit", "out", Protocol(t), "from"];
            var words := head + Words(TrimSpace(t.srcIp), t.srcPort) + ["to"] + Words(TrimSpace(t.dstIp), t.dstPort);
      Build(t) == Join(words) && forall i | 0 <= i < |words| :: IsWord(words[i])
  {
    hide Protocol, Words, Token, ParseIpv4, TrimSpace, Join;
    var src, dst := TrimSpace(t.srcIp), TrimSpace(t.dstIp);
    WordsAreWords(src, t.srcPort);
    WordsAreWords(dst, t.dstPort);
    SomeWords(src, t.srcPort);
    SomeWords(dst, t.dstPort);
    SentenceJoin(Protocol(t), Words(src, t.srcPort), Words(dst, t.dstPort));
  }

  lemma {:induction false} SentenceJoin(p: string, a: seq<string>, b: seq<string>)
    requires a != [] && b != []
    ensures Join(["permit", "out", p, "from"] + a + ["to"] + b)
         == "permit out " + p + " from " + Join(a) + " to " + Join(b)
  {
    hide Join;
    var head := ["permit", "out", p, "from"];
    JoinConcat(head, a);
    JoinConcat(head + a, ["to"]);
    JoinConcat(head + a + ["to"], b);
    HeadJoin(p);
    SingleJoin("to");
    Regroup("permit out " + p + " from", Join(a), Join(b));
  }

  lemma {:induction false} SingleJoin(w: string)
    ensures Join([w]) == w
  {
  }

  lemma {:induction false} Regroup(h: string, a: string, b: string)
    ensures ((h + " " + a) + " " + "to") + " " + b == h + " " + a + " to " + b
  {
  }

  lemma {:induction false} SomeWords(ip: string, port: Port)
    ensures Words(ip, port) != []
  {
  }

  lemma {:induction false} HeadJoin(p: string)
    ensures Join(["permit", "out", p, "from"]) == "permit out " + p + " from"
  {
    var a, b, c := ["out", p, "from"], [p, "from"], ["from"];
    assert ["permit", "out", p, "from"][1..] == a && a[1..] == b && b[1..] == c;
    assert Join(c) == "from";
    assert Join(b) == p + " " + "from";
    assert Join(a) == "out" + " " + (p + " " + "from");
    assert "permit" + " " + ("out" + " " + (p + " " + "from")) == "permit out " + p + " from";
  }

  lemma {:induction false} FindToAt(words: seq<string>, i: nat, k: nat)
    requires i <= k < |words| && ToLower(words[k]) == "to"
    requires forall j | i <= j < k :: ToLower(words[j]) != "to"
    ensures FindTo(words, i) == k
    decreases k - i
  {
    if i < k { FindToAt(words, i + 1, k); }
  }

  /** The rule a printed tuple stands for. */
  function PrintedRule(t: FiveTuple): SdfRule
    requires ValidAddress(t.srcIp) && ValidAddress(t.dstIp)
  {
    SdfRule("out", Protocol(t), PrintedEndpoint(TrimSpace(t.srcIp), t.srcPort), PrintedEndpoint(TrimSpace(t.dstIp),
        t.dstPort))
  }

  lemma {:induction false} LowerTwice(s: string)
    ensures ToLower(ToLower(s)) == ToLower(s)
  {
  }

  lemma {:induction false} ProtocolLower(t: FiveTuple)
    ensures ToLower(Protocol(t)) == Protocol(t)
  {
    hide TrimSpace;
    LowerTwice(TrimSpace(t.protocol));
    assert ToLower("ip") == "ip";
  }

  lemma {:induction false} ParseSentence(t: FiveTuple)
    requires ValidAddress(t.srcIp) && ValidAddress(t.dstIp) && IsWord(Protocol(t))
    requires Build(t) != ""
    ensures ParseFlow(Build(t)) == Some(PrintedRule(t))
  {
    hide Protocol, Words, ParseIpv4, TrimSpace, ParseEndpoint, PrintedEndpoint, Build, Fields, Join, FindTo;
    var src, dst := TrimSpace(t.srcIp), TrimSpace(t.dstIp);
    var sw, dw := Words(src, t.srcPort), Words(dst, t.dstPort);
    var head := ["permit", "out", Protocol(t), "from"];
    var words := head + sw + ["to"] + dw;
    PrintedWords(t);
    JoinIsTrimmed(words);
    FieldsOfJoin(words);
    WordsAreWords(src, t.srcPort);
    SomeWords(src, t.srcPort);
    SomeWords(dst, t.dstPort);
    Keywords();
    ProtocolLower(t);
    var k := 4 + |sw|;
    forall j | 4 <= j < k ensures ToLower(words[j]) != "to" { assert words[j] == sw[j - 4]; }
    assert words[k] == "to" && words[0] == "permit" && words[1] == "out" && words[2] == Protocol(t)
        && words[3] == "from";
    FindToAt(words, 4, k);
    assert words[4..k] == sw && words[k + 1..] == dw;
    EndpointOfWords(src, t.srcPort);
    EndpointOfWords(dst, t.dstPort);
  }

  /** What the printer prints, the parser reads back: for every five-tuple with a one-word
      protocol and valid or absent IPv4 addresses the printed description parses to the rule of
      the tuple, except that a tuple with neither address is printed as nothing and not
      parsed. */
  lemma {:induction false} ParsePrinted(t: FiveTuple)
    requires ValidAddress(t.srcIp) && ValidAddress(t.dstIp) && IsWord(Protocol(t))
    ensures ParseFlow(Build(t))
         == if TrimSpace(t.srcIp) == "" && TrimSpace(t.dstIp) == "" then None else Some(PrintedRule(t))
  {
    hide ParseIpv4, PrintedRule, Token, Protocol;
    if Build(t) == "" {
      EmptyWords();
      assert "permit out "[0] == 'p';
    } else {
      ParseSentence(t);
    }
  }

  lemma {:induction false} EmptyWords()
    ensures ParseFlow("") == None
  {
  }

  lemma {:induction false} Keywords()
    ensures ToLower("permit") == "permit" && ToLower("out") == "out" && ToLower("from") == "from"
        && ToLower("to") == "to"
  {
  }

  /** The packet end agrees with an address and a port of the tuple, absent ones agreeing
      with everything. */
  predicate EndAgrees(ip: string, port: Port, actual: Ipv4, actualPort: Port, hasPorts: bool)
    requires ip == "" || ParseIpv4(ip).Some?
  {
    (ip == "" || ParseIpv4(ip).value == actual) && (port == 0 || (hasPorts && actualPort == port))
  }

  lemma {:induction false} PrintedEndpointMatches(ip: string, port: Port, ue: Option<Ipv4>, actual: Ipv4,
          actualPort: Port, hasPorts: bool)
    requires ip == "" || ParseIpv4(ip).Some?
    ensures EndpointMatches(PrintedEndpoint(ip, port), ue, actual, actualPort, hasPorts)
       <==> EndAgrees(ip, port, actual, actualPort, hasPorts)
  {
    hide ParseIpv4;
    var e := PrintedEndpoint(ip, port);
    assert Pow2(0) == 1;
    if port != 0 { assert e.ports[0] == PortRange(port, port); }
  }

  /** The protocols that have names, and numbers up to 255. */
  predicate ProtocolIs(name: string, number: nat) {
    || name == "ip"
    || (name == "tcp" && number == 6)
    || (name == "udp" && number == 17)
    || (name == "icmp" && number == 1)
    || (name !in ["tcp", "udp", "icmp"] && number <= 255 && ParseUint(name, 255) == Some(number))
  }

  lemma {:induction false} ProtocolAgrees(t: FiveTuple, number: nat)
    ensures ProtocolMatches(Protocol(t), number) <==> ProtocolIs(Protocol(t), number)
  {
    ProtocolLower(t);
    ProtocolNotEmpty(t);
    hide Protocol;
  }

  lemma {:induction false} ProtocolNotEmpty(t: FiveTuple)
    ensures Protocol(t) != ""
  {
    hide TrimSpace;
  }

  /** The printed rule matches an uplink packet if and only if the packet's protocol,
      addresses and ports agree with the fields the tuple has, and no downlink packet. */
  lemma {:induction false} PrintedRuleMatches(t: FiveTuple, ue: Option<Ipv4>, m: Meta)
    requires ValidAddress(t.srcIp) && ValidAddress(t.dstIp)
    ensures RuleMatches(PrintedRule(t), ue, m, Uplink) <==>
      && ProtocolIs(Protocol(t), m.protocol)
      && EndAgrees(TrimSpace(t.srcIp), t.srcPort, m.src, m.srcPort, m.hasPorts)
      && EndAgrees(TrimSpace(t.dstIp), t.dstPort, m.dst, m.dstPort, m.hasPorts)
    ensures !RuleMatches(PrintedRule(t), ue, m, Downlink)
  {
    hide ParseIpv4, EndAgrees, EndpointMatches, TrimSpace, Protocol, ProtocolMatches, ProtocolIs;
    ProtocolAgrees(t, m.protocol);
    PrintedEndpointMatches(TrimSpace(t.srcIp), t.srcPort, ue, m.src, m.srcPort, m.hasPorts);
    PrintedEndpointMatches(TrimSpace(t.dstIp), t.dstPort, ue, m.dst, m.dstPort, m.hasPorts);
    assert !UsesAssigned(PrintedRule(t));
  }

  // ---- what the parser reads ----

  lemma {:induction false} DecimalDigits(n: nat)
    ensures AllDigits(Decimal(n)) && (n >= 10 ==> |Decimal(n)| > 1) && (n < 10 ==> |Decimal(n)| == 1)
    ensures n > 0 ==> Decimal(n)[0] != '0'
  {
    if n >= 10 { DecimalDigits(n / 10); }
  }

  lemma {:induction false} OctetLaw(n: nat)
    requires n < 256
    ensures ParseOctet(Decimal(n)) == Some(n) && '.' !in Decimal(n) && '/' !in Decimal(n) && '-' !in Decimal(n)
  {
    DecimalDigits(n);
    ParseDecimal(n, 255);
    hide Decimal;
  }

  /** A dotted address is its four octets, the most significant first. */
  lemma {:induction false} AddressLaw(a: nat, b: nat, c: nat, d: nat)
    requires a < 256 && b < 256 && c < 256 && d < 256
    ensures ParseIpv4(Decimal(a) + "." + Decimal(b) + "." + Decimal(c) + "." + Decimal(d))
         == Some(((a * 256 + b) * 256 + c) * 256 + d)
  {
    hide Decimal, ParseOctet, Split;
    OctetLaw(a);
    OctetLaw(b);
    OctetLaw(c);
    OctetLaw(d);
    var x, y, z, w := Decimal(a), Decimal(b), Decimal(c), Decimal(d);
    var s := x + "." + y + "." + z + "." + w;
    SplitAt(z, w, '.');
    SplitAt(y, z + "." + w, '.');
    SplitAt(x, y + "." + z + "." + w, '.');
    SplitWithout(w, '.');
    assert s == x + ['.'] + (y + "." + z + "." + w);
    assert y + "." + z + "." + w == y + ['.'] + (z + "." + w);
    assert z + "." + w == z + ['.'] + w;
    assert Split(s, '.') == [x, y, z, w];
  }

  /** A port is itself as a range, and a range its two ports. */
  lemma {:induction false} RangeLaw(a: Port, b: Port)
    ensures ParseRange(Decimal(a)) == Some(PortRange(a, a))
    ensures ParseRange(Decimal(a) + "-" + Decimal(b)) == Some(PortRange(a, b))
  {
    hide Decimal, Split;
    PlainPort(a);
    PlainPort(b);
    var x, y := Decimal(a), Decimal(b);
    SplitWithout(x, '-');
    SplitWithout(y, '-');
    SplitAt(x, y, '-');
    var s := x + "-" + y;
    assert s == x + ['-'] + y;
    assert Split(s, '-') == [x, y];
    assert s[|x| + 1..] == y;
  }

  lemma {:induction false} PlainPort(p: Port)
    ensures ParsePort(Decimal(p)) == Some(p) && '-' !in Decimal(p)
  {
    DecimalDigits(p);
    ParseDecimal(p, 65535);
    hide Decimal;
  }

  /** A network has the prefix it names, the address's bits in front and zeros behind. */
  lemma {:induction false} NetworkLaw(ip: string, prefix: nat)
    requires ParseIpv4(ip).Some? && '/' !in ip && prefix <= 32
    ensures var n := ParseCidr(ip + "/" + Decimal(prefix));
      && n.Some? && n.value.prefix == prefix
      && (forall k | 0 <= k < prefix :: Bit(n.value.base, k) == Bit(ParseIpv4(ip).value, k))
      && n.value.base == n.value.base / Pow2(32 - prefix) * Pow2(32 - prefix)
  {
    hide ParseIpv4, Decimal, Split, Bit, Masked;
    OctetLaw(prefix);
    ParseDecimal(prefix, 32);
    SplitAt(ip, Decimal(prefix), '/');
    SplitWithout(Decimal(prefix), '/');
    assert ip + "/" + Decimal(prefix) == ip + ['/'] + Decimal(prefix);
    assert Split(ip + "/" + Decimal(prefix), '/') == [ip, Decimal(prefix)];
    PrefixBits(Masked(ParseIpv4(ip).value, prefix), ParseIpv4(ip).value, prefix);
    MaskedZeros(ParseIpv4(ip).value, prefix);
  }

  lemma {:induction false} MaskedZeros(ip: Ipv4, prefix: nat)
    requires prefix <= 32
    ensures var m := Pow2(32 - prefix); Masked(ip, prefix) == Masked(ip, prefix) / m * m
    ensures Masked(ip, prefix) / Pow2(32 - prefix) == ip / Pow2(32 - prefix)
  {
    hide Pow2;
    MaskDiv(ip, Pow2(32 - prefix));
  }

  /** One end of a description: `any` is every address, `assigned` the UE's, anything else a network, an
      address alone being a network of 32 bits; the ports follow. */
  lemma {:induction false} EndpointLaw(first: string, ports: seq<string>)
    requires ParsePorts(ports).Some?
    ensures var e := ParseEndpoint([first] + ports);
      && (ToLower(first) == "any" ==>
            e.Some? && !e.value.isAssigned && e.value.network.None? && e.value.ports == ParsePorts(ports).value)
      && (ToLower(first) == "assigned" ==> e.Some? && e.value.isAssigned && e.value.ports == ParsePorts(ports).value)
      && (ToLower(first) != "any" && ToLower(first) != "assigned" ==>
            var net := ParseCidr(if '/' in first then first else first + "/32");
            && (e.Some? <==> net.Some?)
            && (e.Some? ==> !e.value.isAssigned && e.value.network == net && e.value.ports == ParsePorts(ports).value))
  {
    hide ParseCidr, ParsePorts;
    assert ([first] + ports)[1..] == ports;
  }

  /** A sentence: `permit`, a direction, a protocol, `from`, one end, `to`, the other end. */
  lemma {:induction false} SentenceLaw(dir: string, proto: string, src: seq<string>, dst: seq<string>)
    requires IsWord(dir) && IsWord(proto) && src != [] && dst != []
    requires (forall i | 0 <= i < |src| :: IsWord(src[i]) && ToLower(src[i]) != "to")
          && forall i | 0 <= i < |dst| :: IsWord(dst[i])
    ensures ParseFlow(Join(["permit", dir, proto, "from"] + src + ["to"] + dst)) ==
      var s, d := ParseEndpoint(src), ParseEndpoint(dst);
      if s.Some? && d.Some? then Some(SdfRule(ToLower(dir), ToLower(proto), s.value, d.value)) else None
  {
    hide ParseEndpoint, Fields, Join, FindTo, TrimSpace;
    var words := ["permit", dir, proto, "from"] + src + ["to"] + dst;
    JoinIsTrimmed(words);
    FieldsOfJoin(words);
    Keywords();
    var k := 4 + |src|;
    forall j | 4 <= j < k ensures ToLower(words[j]) != "to" { assert words[j] == src[j - 4]; }
    assert words[k] == "to" && words[0] == "permit" && words[1] == dir && words[2] == proto && words[3] == "from";
    FindToAt(words, 4, k);
    assert words[4..k] == src && words[k + 1..] == dst;
  }
}
