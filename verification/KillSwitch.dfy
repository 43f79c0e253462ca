/** The routing table and forward chain that confine the protected namespace. */
module KillSwitch {
  import opened Wrappers
  import opened Addresses

  /** Priority and table of the hard-isolation policy rule. */
  const HARD_RULE := 19240
  const HARD_TABLE := 20240

  datatype Hop = Hop(dev: string, gateway: string)

  datatype PolicyRule = PolicyRule(priority: int, source: Prefix, table: int)

  /** The `dst` of one main-table route: "default", a prefix or bare address, or
      text that is neither. */
  datatype Destination = DefaultRoute | Parsed(addr: Addr, bits: nat) | Unparsable

  datatype Line = Line(dst: Destination, dev: string, gateway: string)

  datatype Transport = Transport(v4: seq<Addr>, v6: seq<Addr>)

  // ------------------------------------------------------------- host routes

  /** A host route to a public address that does not already use the VPN. */
  predicate Eligible(vpn: string, line: Line) {
    && line.dev != "" && line.dev != vpn
    && line.dst.Parsed? && line.dst.bits == Width(line.dst.addr)
    && GlobalUnicast(line.dst.addr) && !Private(line.dst.addr)
  }

  predicate TransportHost(vpn: string, lines: seq<Line>, a: Addr) {
    exists i :: 0 <= i < |lines| && Eligible(vpn, lines[i]) && lines[i].dst.addr == a
  }

  /** `replace` keeps the last of several routes to one host. */
  predicate LastFor(vpn: string, lines: seq<Line>, a: Addr, i: nat) {
    && i < |lines| && Eligible(vpn, lines[i]) && lines[i].dst.addr == a
    && forall j :: i < j < |lines| && Eligible(vpn, lines[j]) ==> lines[j].dst.addr != a
  }

  function HopOf(line: Line): Hop {
    Hop(line.dev, line.gateway)
  }

  predicate InTransport(t: Transport, a: Addr) {
    a in t.v4 || a in t.v6
  }

  /** The table after copying: every transport host by its last route, and all
      other prefixes as before. */
  ghost predicate CopyOf(vpn: string, lines: seq<Line>, before: map<Prefix, Hop>, after: map<Prefix, Hop>) {
    && (forall a: Addr, i: nat :: LastFor(vpn, lines, a, i) ==> HostPrefix(a) in after && after[HostPrefix(a)] == HopOf(lines[i]))
    && (forall p: Prefix :: p.bits < Width(p.addr) || !TransportHost(vpn, lines, p.addr) ==> SameAt(before, after, p))
  }

  predicate SameAt(before: map<Prefix, Hop>, after: map<Prefix, Hop>, p: Prefix) {
    (p in after <==> p in before) && (p in after ==> after[p] == before[p])
  }

  ghost predicate TransportOf(vpn: string, lines: seq<Line>, t: Transport) {
    && (forall a: Addr :: a in t.v4 <==> a.V4? && TransportHost(vpn, lines, a))
    && (forall a: Addr :: a in t.v6 <==> a.V6? && TransportHost(vpn, lines, a))
  }

  function WithDefaults(vpn: string, table: map<Prefix, Hop>): map<Prefix, Hop> {
    table[DefaultPrefix(V4(0)) := Hop(vpn, "")][DefaultPrefix(V6(0)) := Hop(vpn, "")]
  }

  ghost predicate Installed(vpn: string, lines: seq<Line>, before: map<Prefix, Hop>, after: map<Prefix, Hop>, t: Transport) {
    CopyOf(vpn, lines, WithDefaults(vpn, before), after) && TransportOf(vpn, lines, t)
  }

  lemma LastExists(vpn: string, lines: seq<Line>, a: Addr, i: nat)
    requires i < |lines| && Eligible(vpn, lines[i]) && lines[i].dst.addr == a
    ensures exists m: nat :: LastFor(vpn, lines, a, m)
    decreases |lines| - i
  {
    if !LastFor(vpn, lines, a, i) {
      var j :| i < j < |lines| && Eligible(vpn, lines[j]) && lines[j].dst.addr == a;
      LastExists(vpn, lines, a, j);
    }
  }

  lemma OneMoreLine(vpn: string, lines: seq<Line>, line: Line, a: Addr)
    ensures TransportHost(vpn, lines + [line], a) <==> TransportHost(vpn, lines, a) || (Eligible(vpn, line) && line.dst.addr == a)
  {
    var more := lines + [line];
    assert more[|lines|] == line;
    if TransportHost(vpn, lines, a) {
      var i :| 0 <= i < |lines| && Eligible(vpn, lines[i]) && lines[i].dst.addr == a;
      assert more[i] == lines[i];
    }
  }

  lemma LastAfterOneMore(vpn: string, lines: seq<Line>, line: Line, a: Addr, i: nat)
    requires LastFor(vpn, lines + [line], a, i)
    ensures if i == |lines| then Eligible(vpn, line) && line.dst.addr == a
            else LastFor(vpn, lines, a, i) && !(Eligible(vpn, line) && line.dst.addr == a)
  {
    var more := lines + [line];
    assert more[|lines|] == line;
    if i < |lines| {
      forall j | i < j < |lines| && Eligible(vpn, lines[j]) ensures lines[j].dst.addr != a {
        assert more[j] == lines[j];
      }
    }
  }

  lemma CopySkips(vpn: string, lines: seq<Line>, line: Line, before: map<Prefix, Hop>, after: map<Prefix, Hop>)
    requires CopyOf(vpn, lines, before, after) && !Eligible(vpn, line)
    ensures CopyOf(vpn, lines + [line], before, after)
  {
    forall a: Addr ensures TransportHost(vpn, lines + [line], a) <==> TransportHost(vpn, lines, a) {
      OneMoreLine(vpn, lines, line, a);
    }
    forall a: Addr, i: nat | LastFor(vpn, lines + [line], a, i) ensures LastFor(vpn, lines, a, i) && (lines + [line])[i] == lines[i] {
      LastAfterOneMore(vpn, lines, line, a, i);
    }
  }

  lemma CopyReplaces(vpn: string, lines: seq<Line>, line: Line, before: map<Prefix, Hop>, after: map<Prefix, Hop>)
    requires CopyOf(vpn, lines, before, after) && Eligible(vpn, line)
    ensures CopyOf(vpn, lines + [line], before, after[HostPrefix(line.dst.addr) := HopOf(line)])
  {
    var more, next := lines + [line], after[HostPrefix(line.dst.addr) := HopOf(line)];
    forall a: Addr, i: nat | LastFor(vpn, more, a, i)
      ensures HostPrefix(a) in next && next[HostPrefix(a)] == HopOf(more[i])
    {
      LastAfterOneMore(vpn, lines, line, a, i);
    }
    forall p: Prefix | p.bits < Width(p.addr) || !TransportHost(vpn, more, p.addr) ensures SameAt(before, next, p) {
      OneMoreLine(vpn, lines, line, p.addr);
      assert SameAt(before, after, p);
    }
  }

  lemma TransportGrows(vpn: string, lines: seq<Line>, line: Line, t: Transport)
    requires TransportOf(vpn, lines, t)
    ensures TransportOf(vpn, lines + [line], if Eligible(vpn, line) then Listed(t, line.dst.addr) else t)
  {
    forall a: Addr
      ensures TransportHost(vpn, lines + [line], a) <==> TransportHost(vpn, lines, a) || (Eligible(vpn, line) && line.dst.addr == a)
    {
      OneMoreLine(vpn, lines, line, a);
    }
  }

  function Listed(t: Transport, a: Addr): Transport {
    if a.V4? then t.(v4 := t.v4 + [a]) else t.(v6 := t.v6 + [a])
  }

  // ----------------------------------------------------------- forward chain

  /** A rule of the nftables forward chain; an absent match always holds. */
  datatype FilterRule = FilterRule(iif: Option<string>, oif: Option<string>, hosts: Option<seq<Addr>>, established: bool, accept: bool)

  datatype Flow = Flow(iif: string, oif: string, dst: Addr, established: bool)

  predicate Hits(r: FilterRule, f: Flow) {
    && (r.iif.Some? ==> f.iif == r.iif.value)
    && (r.oif.Some? ==> f.oif == r.oif.value)
    && (r.hosts.Some? ==> f.dst in r.hosts.value)
    && (r.established ==> f.established)
  }

  /** The first rule that hits decides; the policy is to accept. */
  predicate Accepts(chain: seq<FilterRule>, f: Flow) {
    if chain == [] then true
    else if Hits(chain[0], f) then chain[0].accept
    else Accepts(chain[1..], f)
  }

  /** What the kill-switch promises for a packet that is being forwarded. */
  predicate Allowed(veth: string, vpn: string, t: Transport, f: Flow) {
    || f.iif != veth
    || (f.established && f.oif == veth)
    || InTransport(t, f.dst)
    || f.oif == vpn
  }

  predicate SomeHit(rules: seq<FilterRule>, f: Flow) {
    exists i :: 0 <= i < |rules| && Hits(rules[i], f)
  }

  lemma {:induction false} FirstHitDecides(a: seq<FilterRule>, b: seq<FilterRule>, f: Flow)
    ensures Accepts(a + b, f) == if SomeHit(a, f) then Accepts(a, f) else Accepts(b, f)
  {
    if a == [] {
      assert a + b == b;
    } else {
      assert (a + b)[1..] == a[1..] + b;
      FirstHitDecides(a[1..], b, f);
      if i :| 0 <= i < |a| && Hits(a[i], f) && i > 0 {
        assert Hits(a[1..][i - 1], f);
      }
    }
  }

  /** With the closing pair of rules, only what an earlier rule accepted, what
      leaves by the VPN, and what does not come from the namespace goes through. */
  lemma ClosingRules(open: seq<FilterRule>, veth: string, vpn: string, f: Flow)
    requires forall i :: 0 <= i < |open| ==> open[i].accept
    ensures Accepts(open + Closing(veth, vpn), f) <==>
              f.iif != veth || f.oif == vpn || SomeHit(open, f)
  {
    FirstHitDecides(open, Closing(veth, vpn), f);
    AcceptingRules(open, f);
    ClosingPair(veth, vpn, f);
  }

  lemma ClosingPair(veth: string, vpn: string, f: Flow)
    ensures Accepts(Closing(veth, vpn), f) <==> f.iif != veth || f.oif == vpn
  {
    var c := Closing(veth, vpn);
    assert c[1..] == [c[1]];
    assert Accepts(c[1..], f) <==> f.iif != veth;
  }

  lemma {:induction false} AcceptingRules(open: seq<FilterRule>, f: Flow)
    requires forall i :: 0 <= i < |open| ==> open[i].accept
    ensures Accepts(open, f)
  {
    if open != [] {
      AcceptingRules(open[1..], f);
    }
  }

  function Closing(veth: string, vpn: string): seq<FilterRule> {
    [FilterRule(Some(veth), Some(vpn), None, false, true), FilterRule(Some(veth), None, None, false, false)]
  }

  // --------------------------------------------------------------- operations

  /** The kernel objects hard isolation creates. */
  class HardNetwork {
    var rules: seq<PolicyRule>
    var table: map<Prefix, Hop>  // routing table 20240
    var chain: seq<FilterRule>

    method AddRule(source: Prefix) returns (ok: bool)
      modifies this`rules
      ensures rules == if ok then old(rules) + [PolicyRule(HARD_RULE, source, HARD_TABLE)] else old(rules)
    {
      ok := *;
      if ok {
        rules := rules + [PolicyRule(HARD_RULE, source, HARD_TABLE)];
      }
    }

    method ReplaceRoute(p: Prefix, hop: Hop) returns (ok: bool)
      modifies this`table
      ensures table == if ok then old(table)[p := hop] else old(table)
    {
      ok := *;
      if ok {
        table := table[p := hop];
      }
    }

    /** One address family of copyHostTransportRoutes, after the lines in `done`. */
    method CopyFamily(vpn: string, lines: seq<Line>, listed: Transport, ghost done: seq<Line>, ghost base: map<Prefix, Hop>)
      returns (ok: bool, t: Transport)
      requires CopyOf(vpn, done, base, table) && TransportOf(vpn, done, listed)
      modifies this`table
      ensures ok ==> CopyOf(vpn, done + lines, base, table) && TransportOf(vpn, done + lines, t)
    {
      ok, t := true, listed;
      assert done + lines[..0] == done;
      for i := 0 to |lines|
        invariant CopyOf(vpn, done + lines[..i], base, table) && TransportOf(vpn, done + lines[..i], t)
      {
        var line := lines[i];
        ghost var seen := done + lines[..i];
        assert done + lines[..i + 1] == seen + [line];
        TransportGrows(vpn, seen, line, t);
        if !Eligible(vpn, line) {
          CopySkips(vpn, seen, line, base, table);
          continue;
        }
        CopyReplaces(vpn, seen, line, base, table);
        var added := ReplaceRoute(HostPrefix(line.dst.addr), HopOf(line));
        if !added {
          return false, t;
        }
        t := Listed(t, line.dst.addr);
      }
      assert lines[..|lines|] == lines;
    }

    /** A listing is None when the main table cannot be read or decoded. */
    method CopyHostTransportRoutes(vpn: string, main4: Option<seq<Line>>, main6: Option<seq<Line>>) returns (t: Option<Transport>)
      modifies this`table
      ensures t.Some? ==> main4.Some? && main6.Some?
      ensures t.Some? ==> CopyOf(vpn, main4.value + main6.value, old(table), table)
      ensures t.Some? ==> TransportOf(vpn, main4.value + main6.value, t.value)
    {
      var out := Transport([], []);
      ghost var done: seq<Line> := [];
      var families := [main4, main6];
      for i := 0 to 2
        invariant CopyOf(vpn, done, old(table), table) && TransportOf(vpn, done, out)
        invariant i > 0 ==> main4.Some?
        invariant i > 1 ==> main6.Some?
        invariant done == if i == 0 then [] else if i == 1 then main4.value else main4.value + main6.value
      {
        if families[i].None? {
          return None;
        }
        var ok;
        ok, out := CopyFamily(vpn, families[i].value, out, done, old(table));
        if !ok {
          return None;
        }
        done := done + families[i].value;
      }
      t := Some(out);
    }

    method InstallHardRoutes(vpn: string, main4: Option<seq<Line>>, main6: Option<seq<Line>>) returns (t: Option<Transport>)
      modifies this`rules, this`table
      ensures t.Some? ==> rules == old(rules) + NamespaceRules()
      ensures t.Some? ==> main4.Some? && main6.Some? && Installed(vpn, main4.value + main6.value, old(table), table, t.value)
    {
      var rule4 := AddRule(HostPrefix(NAMESPACE_V4));
      if !rule4 {
        return None;
      }
      var rule6 := AddRule(HostPrefix(NAMESPACE_V6));
      if !rule6 {
        return None;
      }
      var route4 := ReplaceRoute(DefaultPrefix(V4(0)), Hop(vpn, ""));
      if !route4 {
        return None;
      }
      var route6 := ReplaceRoute(DefaultPrefix(V6(0)), Hop(vpn, ""));
      if !route6 {
        return None;
      }
      t := CopyHostTransportRoutes(vpn, main4, main6);
    }

    /** The nft script is built rule by rule and loaded in one transaction. */
    method InstallHardFirewall(veth: string, vpn: string, t: Transport) returns (ok: bool)
      requires chain == []
      modifies this`chain
      ensures ok ==> forall f :: Accepts(chain, f) <==> Allowed(veth, vpn, t, f)
      ensures !ok ==> chain == []
    {
      var script := [FilterRule(None, Some(veth), None, true, true)];
      if |t.v4| > 0 {
        script := script + [FilterRule(Some(veth), None, Some(t.v4), false, true)];
      }
      if |t.v6| > 0 {
        script := script + [FilterRule(Some(veth), None, Some(t.v6), false, true)];
      }
      ghost var open := script;
      script := script + [FilterRule(Some(veth), Some(vpn), None, false, true)];
      script := script + [FilterRule(Some(veth), None, None, false, false)];
      assert script == open + Closing(veth, vpn);
      forall f: Flow ensures Accepts(script, f) <==> Allowed(veth, vpn, t, f) {
        ClosingRules(open, veth, vpn, f);
        OpeningRules(open, veth, t, f);
      }
      ok := *;
      if ok {
        chain := script;
      }
    }
  }

  lemma OpeningRules(open: seq<FilterRule>, veth: string, t: Transport, f: Flow)
    requires |open| > 0 && open[0] == FilterRule(None, Some(veth), None, true, true)
    requires open[1..] == Hosts(veth, t.v4) + Hosts(veth, t.v6)
    ensures (f.iif == veth && SomeHit(open, f)) <==>
              f.iif == veth && ((f.established && f.oif == veth) || InTransport(t, f.dst))
  {
    var tail := open[1..];
    assert forall i :: 1 <= i < |open| ==> open[i] == tail[i - 1];
    if f.iif == veth && f.dst in t.v4 {
      assert Hits(open[1], f);
    } else if f.iif == veth && f.dst in t.v6 {
      assert Hits(open[|open| - 1], f);
    } else if f.established && f.oif == veth {
      assert Hits(open[0], f);
    }
  }

  function Hosts(veth: string, hosts: seq<Addr>): seq<FilterRule> {
    if |hosts| > 0 then [FilterRule(Some(veth), None, Some(hosts), false, true)] else []
  }

  function NamespaceRules(): seq<PolicyRule> {
    [PolicyRule(HARD_RULE, HostPrefix(NAMESPACE_V4), HARD_TABLE), PolicyRule(HARD_RULE, HostPrefix(NAMESPACE_V6), HARD_TABLE)]
  }

  // ------------------------------------------------------------------ packets

  /** Longest-prefix match. */
  ghost predicate Chosen(table: map<Prefix, Hop>, dst: Addr, p: Prefix) {
    && p in table && Matches(p, dst)
    && forall q: Prefix :: q in table && Matches(q, dst) ==> q.bits <= p.bits
  }

  /** A more specific route to the destination was already in the table. */
  ghost predicate Stale(before: map<Prefix, Hop>, dst: Addr) {
    exists q: Prefix :: q in before && q.bits > 0 && Matches(q, dst)
  }

  lemma SomeRouteIsChosen(table: map<Prefix, Hop>, dst: Addr, p: Prefix)
    requires p in table && Matches(p, dst)
    ensures exists q: Prefix :: Chosen(table, dst, q)
    decreases Width(dst) - p.bits
  {
    if !Chosen(table, dst, p) {
      var q: Prefix :| q in table && Matches(q, dst) && q.bits > p.bits;
      SomeRouteIsChosen(table, dst, q);
    }
  }

  /** Only the namespace's two addresses are routed by the hard table. */
  lemma OnlyTheNamespaceIsRerouted(src: Addr)
    ensures (exists r :: r in NamespaceRules() && Matches(r.source, src)) <==> src == NAMESPACE_V4 || src == NAMESPACE_V6
  {
    HostPrefixMatchesOnlyItself(HostPrefix(NAMESPACE_V4), src);
    HostPrefixMatchesOnlyItself(HostPrefix(NAMESPACE_V6), src);
    assert NamespaceRules()[0] in NamespaceRules() && NamespaceRules()[1] in NamespaceRules();
  }

  /** Every destination has a route; a transport host goes by the last main-table
      route to it, and any other by the VPN exactly when nothing more specific was
      in the table before. */
  lemma RoutedAsIntended(vpn: string, lines: seq<Line>, before: map<Prefix, Hop>, after: map<Prefix, Hop>, t: Transport, dst: Addr)
    requires Installed(vpn, lines, before, after, t)
    ensures exists p: Prefix :: Chosen(after, dst, p)
    ensures forall p: Prefix :: Chosen(after, dst, p) && InTransport(t, dst) ==>
              p == HostPrefix(dst) && exists i: nat :: LastFor(vpn, lines, dst, i) && after[p] == HopOf(lines[i])
    ensures forall p: Prefix :: Chosen(after, dst, p) && !InTransport(t, dst) ==>
              (p == DefaultPrefix(dst) <==> !Stale(before, dst)) && (p == DefaultPrefix(dst) ==> after[p] == Hop(vpn, ""))
  {
    var d := DefaultPrefix(dst);
    DefaultInstalled(vpn, lines, before, after, dst);
    SomeRouteIsChosen(after, dst, d);
    forall p: Prefix | Chosen(after, dst, p) && InTransport(t, dst)
      ensures p == HostPrefix(dst) && exists i: nat :: LastFor(vpn, lines, dst, i) && after[p] == HopOf(lines[i])
    {
      HostRouteWins(vpn, lines, WithDefaults(vpn, before), after, dst, p);
    }
    forall p: Prefix | Chosen(after, dst, p) && !InTransport(t, dst) ensures p == d <==> !Stale(before, dst) {
      DefaultWins(vpn, lines, before, after, dst, p);
    }
  }

  lemma DefaultInstalled(vpn: string, lines: seq<Line>, before: map<Prefix, Hop>, after: map<Prefix, Hop>, dst: Addr)
    requires CopyOf(vpn, lines, WithDefaults(vpn, before), after)
    ensures var d := DefaultPrefix(dst); d in after && after[d] == Hop(vpn, "") && Matches(d, dst)
  {
    var d := DefaultPrefix(dst);
    DefaultMatchesItsFamily(d, dst);
    assert SameAt(WithDefaults(vpn, before), after, d);
  }

  lemma HostRouteWins(vpn: string, lines: seq<Line>, base: map<Prefix, Hop>, after: map<Prefix, Hop>, dst: Addr, p: Prefix)
    requires CopyOf(vpn, lines, base, after) && TransportHost(vpn, lines, dst) && Chosen(after, dst, p)
    ensures p == HostPrefix(dst) && exists i: nat :: LastFor(vpn, lines, dst, i) && after[p] == HopOf(lines[i])
  {
    var k :| 0 <= k < |lines| && Eligible(vpn, lines[k]) && lines[k].dst.addr == dst;
    LastExists(vpn, lines, dst, k);
    var i: nat :| LastFor(vpn, lines, dst, i);
    var h := HostPrefix(dst);
    HostPrefixMatchesOnlyItself(h, dst);
    assert h in after && Matches(h, dst);
    HostPrefixMatchesOnlyItself(p, dst);
  }

  lemma DefaultWins(vpn: string, lines: seq<Line>, before: map<Prefix, Hop>, after: map<Prefix, Hop>, dst: Addr, p: Prefix)
    requires CopyOf(vpn, lines, WithDefaults(vpn, before), after) && !TransportHost(vpn, lines, dst) && Chosen(after, dst, p)
    ensures p == DefaultPrefix(dst) <==> !Stale(before, dst)
  {
    if Stale(before, dst) {
      var q: Prefix :| q in before && q.bits > 0 && Matches(q, dst);
      KeptUnlessHost(vpn, lines, before, after, dst, q);
      assert q in after;
    } else {
      KeptUnlessHost(vpn, lines, before, after, dst, p);
      if p.bits == 0 {
        DefaultMatchesItsFamily(p, dst);
      }
    }
  }

  /** A prefix that matches a destination without a host route is not touched. */
  lemma KeptUnlessHost(vpn: string, lines: seq<Line>, before: map<Prefix, Hop>, after: map<Prefix, Hop>, dst: Addr, q: Prefix)
    requires CopyOf(vpn, lines, WithDefaults(vpn, before), after) && !TransportHost(vpn, lines, dst) && Matches(q, dst)
    ensures q.bits > 0 ==> SameAt(before, after, q)
  {
    if q.bits == Width(q.addr) {
      HostPrefixMatchesOnlyItself(q, dst);
    }
    assert SameAt(WithDefaults(vpn, before), after, q);
  }

  /** The kill-switch: a packet the namespace sends, routed by the hard table, is
      let out only by the VPN, or to a public host that a main-table route already
      reaches without it; and nothing from another interface is dropped. */
  lemma NothingLeaks(veth: string, vpn: string, lines: seq<Line>, before: map<Prefix, Hop>, after: map<Prefix, Hop>, t: Transport,
                     chain: seq<FilterRule>, f: Flow)
    requires Installed(vpn, lines, before, after, t)
    requires forall g :: Accepts(chain, g) <==> Allowed(veth, vpn, t, g)
    ensures f.iif == veth && f.oif != vpn && !(f.established && f.oif == veth) ==>
              (Accepts(chain, f) <==> TransportHost(vpn, lines, f.dst))
    ensures TransportHost(vpn, lines, f.dst) ==> GlobalUnicast(f.dst) && !Private(f.dst)
    ensures f.iif != veth ==> Accepts(chain, f)
  {
    assert Accepts(chain, f) <==> Allowed(veth, vpn, t, f);
  }

  /** Routing and filtering together: a new connection from the namespace is let
      through exactly when its route is the VPN's or its host's own. */
  lemma NamespaceTrafficFlows(veth: string, vpn: string, lines: seq<Line>, before: map<Prefix, Hop>, after: map<Prefix, Hop>, t: Transport,
                              chain: seq<FilterRule>, dst: Addr, p: Prefix)
    requires Installed(vpn, lines, before, after, t) && Chosen(after, dst, p)
    requires forall g :: Accepts(chain, g) <==> Allowed(veth, vpn, t, g)
    ensures Accepts(chain, Flow(veth, after[p].dev, dst, false)) <==>
              after[p].dev == vpn || exists i: nat :: LastFor(vpn, lines, dst, i) && after[p] == HopOf(lines[i])
    ensures !Stale(before, dst) ==> Accepts(chain, Flow(veth, after[p].dev, dst, false))
  {
    var f := Flow(veth, after[p].dev, dst, false);
    assert Accepts(chain, f) <==> Allowed(veth, vpn, t, f);
    RoutedAsIntended(vpn, lines, before, after, t, dst);
    if i: nat :| LastFor(vpn, lines, dst, i) && after[p] == HopOf(lines[i]) {
      assert TransportHost(vpn, lines, dst);
    }
  }

  /** The setup does not empty table 20240: a route left there takes packets away
      from the VPN, and the chain then drops them. */
  lemma StaleRouteBlocksTraffic(veth: string, vpn: string, lines: seq<Line>, before: map<Prefix, Hop>, after: map<Prefix, Hop>, t: Transport,
                                chain: seq<FilterRule>, dst: Addr)
    requires Installed(vpn, lines, before, after, t)
    requires forall g :: Accepts(chain, g) <==> Allowed(veth, vpn, t, g)
    requires !InTransport(t, dst) && HostPrefix(dst) in before && before[HostPrefix(dst)].dev != vpn
    ensures Chosen(after, dst, HostPrefix(dst)) && !Accepts(chain, Flow(veth, after[HostPrefix(dst)].dev, dst, false))
  {
    var h := HostPrefix(dst);
    HostPrefixMatchesOnlyItself(h, dst);
    KeptUnlessHost(vpn, lines, before, after, dst, h);
    var f := Flow(veth, after[h].dev, dst, false);
    assert Accepts(chain, f) <==> Allowed(veth, vpn, t, f);
  }
}
