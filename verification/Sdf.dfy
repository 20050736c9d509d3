/** Service data flow filters: how a parsed rule matches a packet. */
module Sdf {
  import opened Rules

  function Lower(c: char): char {
    if 'A' <= c <= 'Z' then (c as int + 32) as char else c
  }

  /** Lower case over the ASCII letters. */
  function ToLower(s: string): (r: string)
    ensures |r| == |s|
    ensures forall i | 0 <= i < |s| :: r[i] == Lower(s[i])
  {
    seq(|s|, i requires 0 <= i < |s| => Lower(s[i]))
  }

  predicate IsDigit(c: char) { '0' <= c <= '9' }

  /** The value of a run of decimal digits, if it is one and does not exceed `max`. */
  function ParseUint(s: string, max: nat): (r: Option<nat>)
    ensures r.Some? ==> r.value <= max
  {
    if s == [] then None
    else if |s| == 1 then (if IsDigit(s[0]) then Bounded(Digit(s[0]), max) else None)
    else
      var front := ParseUint(s[..|s| - 1], max);
      if front.Some? && IsDigit(s[|s| - 1]) then Bounded(front.value * 10 + Digit(s[|s| - 1]), max) else None
  }

  function Digit(c: char): nat
    requires IsDigit(c)
  {
    c as int - '0' as int
  }

  function Bounded(n: nat, max: nat): Option<nat> { if n <= max then Some(n) else None }

  function Pow2(n: nat): (r: nat)
    ensures r > 0
  {
    if n == 0 then 1 else 2 * Pow2(n - 1)
  }

  /** Two addresses agree on their first `prefix` bits. */
  predicate Contains(n: Network, ip: Ipv4) {
    n.prefix <= 32 && n.base / Pow2(32 - n.prefix) == ip / Pow2(32 - n.prefix)
  }

  predicate InRange(r: PortRange, port: Port) { r.from <= port <= r.to }

  predicate EndpointMatches(e: Endpoint, ue: Option<Ipv4>, ip: Ipv4, port: Port, hasPorts: bool) {
    && (if e.isAssigned then ue == Some(ip) else e.network.Some? ==> Contains(e.network.value, ip))
    && (e.ports == [] || (hasPorts && exists i :: 0 <= i < |e.ports| && InRange(e.ports[i], port)))
  }

  predicate UsesAssigned(r: SdfRule) { r.source.isAssigned || r.destination.isAssigned }

  predicate ProtocolMatches(proto: string, actual: nat) {
    var p := ToLower(proto);
    if p == "" || p == "ip" then true
    else if p == "tcp" then actual == 6
    else if p == "udp" then actual == 17
    else if p == "icmp" then actual == 1
    else ParseUint(proto, 255) == Some(actual)
  }

  /** A rule for one direction matches only packets of it, except a rule that speaks of the
      assigned UE address, which also matches uplink packets with the ends swapped. */
  predicate RuleMatches(r: SdfRule, ue: Option<Ipv4>, m: Meta, dir: Direction) {
    && (r.direction == "out" ==> dir.Uplink? || UsesAssigned(r))
    && (r.direction == "in" ==> dir.Downlink? || UsesAssigned(r))
    && ProtocolMatches(r.protocol, m.protocol)
    && (|| (EndpointMatches(r.source, ue, m.src, m.srcPort, m.hasPorts)
            && EndpointMatches(r.destination, ue, m.dst, m.dstPort, m.hasPorts))
        || (dir.Uplink? && UsesAssigned(r)
            && EndpointMatches(r.source, ue, m.dst, m.dstPort, m.hasPorts)
            && EndpointMatches(r.destination, ue, m.src, m.srcPort, m.hasPorts)))
  }

  predicate AnyRuleMatches(pdi: Pdi, m: Meta, dir: Direction) {
    exists i :: 0 <= i < |pdi.sdf| && RuleMatches(pdi.sdf[i], pdi.ue, m, dir)
  }

  /** A PDR without filters matches every packet; filters match no unparsed packet. */
  predicate Matches(pdr: Pdr, meta: Option<Meta>, dir: Direction) {
    || pdr.pdi.None?
    || pdr.pdi.value.sdf == []
    || (meta.Some? && AnyRuleMatches(pdr.pdi.value, meta.value, dir))
  }

  // ---- what the tests mean ----

  /** Bit `k` of an address, the first one in front. */
  function Bit(ip: Ipv4, k: nat): nat
    requires k < 32
  {
    ip / Pow2(31 - k) % 2
  }

  lemma {:induction false} Halves(x: nat, a: nat)
    requires a > 0
    ensures x / (2 * a) == x / a / 2
  {
    var q := x / a;
    assert q * a <= x < q * a + a by { Quotient(x, a); }
    assert 2 * a * (q / 2) <= x < 2 * a * (q / 2) + 2 * a by {
      assert q == 2 * (q / 2) + q % 2;
      assert q * a == 2 * a * (q / 2) + (q % 2) * a;
    }
    QuotientIs(x, 2 * a, q / 2);
  }

  lemma {:induction false} Quotient(x: nat, a: nat)
    requires a > 0
    ensures (x / a) * a <= x < (x / a) * a + a
  {
  }

  lemma {:induction false} QuotientIs(x: nat, b: nat, q: nat)
    requires b > 0 && b * q <= x < b * q + b
    ensures x / b == q
  {
    Quotient(x, b);
    var p := x / b;
    assert b * (p - q) == p * b - b * q && b * (q - p) == b * q - p * b;
    NotPositive(b, p - q);
    NotPositive(b, q - p);
  }

  lemma {:induction false} NotPositive(b: nat, k: int)
    requires b * k < b
    ensures k <= 0
  {
  }

  lemma {:induction false} Pow2Is32()
    ensures Pow2(32) == 0x1_0000_0000
  {
    assert Pow2(8) == 256;
    assert Pow2(16) == 0x1_0000 by { assert Pow2(12) == 4096; }
    assert Pow2(24) == 0x100_0000 by { assert Pow2(20) == 0x10_0000; }
    assert Pow2(28) == 0x1000_0000;
  }

  lemma {:induction false} PrefixBits(a: Ipv4, b: Ipv4, prefix: nat)
    requires prefix <= 32
    ensures a / Pow2(32 - prefix) == b / Pow2(32 - prefix) <==> forall k | 0 <= k < prefix :: Bit(a, k) == Bit(b, k)
  {
    hide Pow2;
    if prefix == 0 {
      Pow2Is32();
    } else {
      PrefixBits(a, b, prefix - 1);
      var p := Pow2(32 - prefix);
      assert Pow2(33 - prefix) == 2 * p by { Doubles(32 - prefix); }
      Halves(a, p);
      Halves(b, p);
      assert a / p == 2 * (a / p / 2) + a / p % 2 && b / p == 2 * (b / p / 2) + b / p % 2;
      assert Bit(a, prefix - 1) == a / p % 2 && Bit(b, prefix - 1) == b / p % 2;
    }
  }

  lemma {:induction false} Doubles(n: nat)
    ensures Pow2(n + 1) == 2 * Pow2(n)
  {
  }

  /** A network contains exactly the addresses with the same bits in front; no prefix is longer than 32. */
  lemma {:induction false} ContainsByBits(n: Network, ip: Ipv4)
    ensures Contains(n, ip) <==> n.prefix <= 32 && forall k | 0 <= k < n.prefix :: Bit(n.base, k) == Bit(ip, k)
  {
    hide Bit;
    if n.prefix <= 32 { PrefixBits(n.base, ip, n.prefix); }
  }

  /** Which protocol numbers a filter's protocol stands for, in any case. */
  lemma {:induction false} ProtocolNumbers(proto: string, number: nat)
    ensures ToLower(proto) in ["", "ip"] ==> ProtocolMatches(proto, number)
    ensures ToLower(proto) == "tcp" ==> (ProtocolMatches(proto, number) <==> number == 6)
    ensures ToLower(proto) == "udp" ==> (ProtocolMatches(proto, number) <==> number == 17)
    ensures ToLower(proto) == "icmp" ==> (ProtocolMatches(proto, number) <==> number == 1)
    ensures ToLower(proto) !in ["", "ip", "tcp", "udp", "icmp"] ==>
      (ProtocolMatches(proto, number) <==> number <= 255 && ParseUint(proto, 255) == Some(number))
  {
  }

  /** One end of a rule holds of an address and a port: the assigned end is the UE's address; a network
      agrees bit by bit; and one of the port ranges, if there are any, contains the port. */
  predicate EndHolds(e: Endpoint, ue: Option<Ipv4>, ip: Ipv4, port: Port, hasPorts: bool) {
    && (e.isAssigned ==> ue.Some? && ue.value == ip)
    && (!e.isAssigned && e.network.Some? ==>
          var n := e.network.value;
          n.prefix <= 32 && forall k | 0 <= k < n.prefix :: Bit(n.base, k) == Bit(ip, k))
    && (|e.ports| > 0 ==> hasPorts && exists i :: 0 <= i < |e.ports| && e.ports[i].from <= port && port <= e.ports[i].to)
  }

  lemma {:induction false} EndLaw(e: Endpoint, ue: Option<Ipv4>, ip: Ipv4, port: Port, hasPorts: bool)
    ensures EndpointMatches(e, ue, ip, port, hasPorts) <==> EndHolds(e, ue, ip, port, hasPorts)
  {
    hide Contains, Bit;
    if e.network.Some? { ContainsByBits(e.network.value, ip); }
  }

  /** Which packets a rule matches.  A rule without the assigned address matches packets of its own
      direction whose ends hold as written: "out" is the uplink, "in" the downlink.  One with it matches
      both directions, on the uplink with the ends swapped too. */
  lemma {:induction false} RuleLaw(r: SdfRule, ue: Option<Ipv4>, m: Meta)
    ensures var written := EndHolds(r.source, ue, m.src, m.srcPort, m.hasPorts)
                        && EndHolds(r.destination, ue, m.dst, m.dstPort, m.hasPorts);
            var swapped := EndHolds(r.source, ue, m.dst, m.dstPort, m.hasPorts)
                        && EndHolds(r.destination, ue, m.src, m.srcPort, m.hasPorts);
            var anyAssigned := r.source.isAssigned || r.destination.isAssigned;
      && (RuleMatches(r, ue, m, Uplink) <==>
            && ProtocolMatches(r.protocol, m.protocol)
            && (if anyAssigned then written || swapped else r.direction != "in" && written))
      && (RuleMatches(r, ue, m, Downlink) <==>
            && ProtocolMatches(r.protocol, m.protocol) && written && (anyAssigned || r.direction != "out"))
  {
    hide EndpointMatches, EndHolds, ProtocolMatches;
    EndLaw(r.source, ue, m.src, m.srcPort, m.hasPorts);
    EndLaw(r.destination, ue, m.dst, m.dstPort, m.hasPorts);
    EndLaw(r.source, ue, m.dst, m.dstPort, m.hasPorts);
    EndLaw(r.destination, ue, m.src, m.srcPort, m.hasPorts);
  }

  /** Digits stand for their decimal number. */
  lemma {:induction false} ParseUintLaw(front: string, c: char, max: nat)
    requires front != "" && ParseUint(front, max).Some?
    ensures ParseUint(front + [c], max) ==
      if '0' <= c <= '9' && 10 * ParseUint(front, max).value + (c as int - 48) <= max
      then Some(10 * ParseUint(front, max).value + (c as int - 48)) else None
  {
    assert (front + [c])[..|front|] == front;
  }
}
