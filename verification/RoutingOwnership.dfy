/** The routing namespace Agent Tunnel reserves, the deltas it derives from
    snapshots and merges, and the checks recovery makes on them. */
module RoutingOwnership {
  import opened Wrappers
  import opened Ordering

  const TUN_NAME := "antigravity-tun"
  const ROUTE_TABLE := "20229"
  const RULE_START := 19000
  const RULE_END := 19031

  datatype Family = V4 | V6

  /** A name in the policy-routing namespace of one address family. */
  datatype Key =
    | Table(fam: Family, table: string)
    | Priority(fam: Family, prio: int)

  /** One `ip route show table all` line: the token after "table", or "". */
  datatype RouteLine = RouteLine(table: string, text: string)

  /** One `ip rule show` line: the leading number, if there is one. */
  datatype RuleLine = RuleLine(priority: Option<int>, text: string)

  datatype Snapshot = Snapshot(
    routesV4: seq<RouteLine>, routesV6: seq<RouteLine>,
    rulesV4: seq<RuleLine>, rulesV6: seq<RuleLine>,
    dns: string, firewall: string)

  datatype Owned = Owned(
    tunnel: string,
    tablesV4: seq<string>, tablesV6: seq<string>,
    priosV4: seq<int>, priosV6: seq<int>,
    dnsChanged: bool, firewallChanged: bool)
  {
    function Tables(f: Family): seq<string> {
      if f.V4? then tablesV4 else tablesV6
    }

    function Prios(f: Family): seq<int> {
      if f.V4? then priosV4 else priosV6
    }
  }

  predicate HasTable(lines: seq<RouteLine>, table: string) {
    exists l :: l in lines && l.table == table
  }

  predicate HasPriority(lines: seq<RuleLine>, prio: int) {
    exists l :: l in lines && l.priority == Some(prio)
  }

  /** The key occurs in the snapshot. */
  predicate Shows(s: Snapshot, k: Key) {
    match k
    case Table(f, t) => HasTable(if f.V4? then s.routesV4 else s.routesV6, t)
    case Priority(f, p) => HasPriority(if f.V4? then s.rulesV4 else s.rulesV6, p)
  }

  /** The key is one of those the delta claims. */
  predicate Owns(o: Owned, k: Key) {
    match k
    case Table(f, t) => t in o.Tables(f)
    case Priority(f, p) => p in o.Prios(f)
  }

  predicate IsReserved(k: Key) {
    match k
    case Table(_, t) => t == ROUTE_TABLE
    case Priority(_, p) => RULE_START <= p <= RULE_END
  }

  /** The main table carries no "table" token and is never a candidate. */
  predicate IsMain(k: Key) {
    k.Table? && k.table == ""
  }

  /** Every list sorted and duplicate-free, the form every merge returns. */
  ghost predicate Canonical(o: Owned) {
    && Ascending(StringLess, o.tablesV4) && Ascending(StringLess, o.tablesV6)
    && Ascending(IntLess, o.priosV4) && Ascending(IntLess, o.priosV6)
  }

  ghost predicate SameKeys(a: Owned, b: Owned) {
    forall k :: Owns(a, k) <==> Owns(b, k)
  }

  lemma CanonicalListsDecideKeys(a: Owned, b: Owned)
    requires Canonical(a) && Canonical(b)
    ensures SameKeys(a, b) <==>
            a.tablesV4 == b.tablesV4 && a.tablesV6 == b.tablesV6 && a.priosV4 == b.priosV4 && a.priosV6 == b.priosV6
  {
    if SameKeys(a, b) {
      StringLessIsTotal();
      IntLessIsTotal();
      forall f: Family ensures a.Tables(f) == b.Tables(f) && a.Prios(f) == b.Prios(f) {
        forall t ensures t in a.Tables(f) <==> t in b.Tables(f) {
          assert Owns(a, Table(f, t)) <==> Owns(b, Table(f, t));
        }
        AscendingIsCanonical(StringLess, a.Tables(f), b.Tables(f));
        forall p ensures p in a.Prios(f) <==> p in b.Prios(f) {
          assert Owns(a, Priority(f, p)) <==> Owns(b, Priority(f, p));
        }
        AscendingIsCanonical(IntLess, a.Prios(f), b.Prios(f));
      }
      assert a.Tables(V4) == b.Tables(V4) && a.Tables(V6) == b.Tables(V6);
      assert a.Prios(V4) == b.Prios(V4) && a.Prios(V6) == b.Prios(V6);
    }
  }

  // ---------------------------------------------------------------- reserved

  function ReservedRange(): seq<int> {
    seq(RULE_END - RULE_START + 1, i => RULE_START + i)
  }

  /** What a Linux control plane owns before it has observed anything. */
  function Reserved(): Owned {
    Owned(TUN_NAME, [ROUTE_TABLE], [ROUTE_TABLE], ReservedRange(), ReservedRange(), false, false)
  }

  method ReservedPlatformOwnership() returns (d: Owned)
    ensures d == Reserved()
    ensures Canonical(d) && forall k :: Owns(d, k) <==> IsReserved(k)
  {
    var prios: seq<int> := [];
    for p := RULE_START to RULE_END + 1
      invariant prios == ReservedRange()[..p - RULE_START]
    {
      prios := prios + [p];
    }
    d := Owned(TUN_NAME, [ROUTE_TABLE], [ROUTE_TABLE], prios, prios, false, false);
    ReservedOwnsExactlyTheNamespace();
  }

  lemma ReservedOwnsExactlyTheNamespace()
    ensures Canonical(Reserved())
    ensures forall k :: Owns(Reserved(), k) <==> IsReserved(k)
  {
    forall p ensures p in ReservedRange() <==> RULE_START <= p <= RULE_END {
      if RULE_START <= p <= RULE_END {
        assert ReservedRange()[p - RULE_START] == p;
      }
    }
  }

  // ------------------------------------------------------------------- merge

  ghost predicate MergeOf(base: Owned, observed: Owned, out: Owned) {
    && Canonical(out)
    && (forall k :: Owns(out, k) <==> Owns(base, k) || Owns(observed, k))
    && out.tunnel == (if base.tunnel == "" then observed.tunnel else base.tunnel)
    && out.dnsChanged == (base.dnsChanged || observed.dnsChanged)
    && out.firewallChanged == (base.firewallChanged || observed.firewallChanged)
  }

  /** mergeStrings and mergeInts: the same loop at two element types. */
  method MergeLists<T(!new, ==)>(less: (T, T) -> bool, a: seq<T>, b: seq<T>) returns (out: seq<T>)
    requires TotalOrder(less)
    ensures Ascending(less, out)
    ensures forall x :: x in out <==> x in a || x in b
  {
    var seen: set<T> := {};
    for i := 0 to |a|
      invariant seen == Elements(a[..i])
    {
      seen := seen + {a[i]};
    }
    for i := 0 to |b|
      invariant seen == Elements(a) + Elements(b[..i])
    {
      seen := seen + {b[i]};
    }
    assert b[..|b|] == b;
    out := SortedKeys(less, seen);
  }

  method MergeOwnedNetworkDelta(base: Owned, observed: Owned) returns (out: Owned)
    ensures MergeOf(base, observed, out)
  {
    StringLessIsTotal();
    IntLessIsTotal();
    out := base;
    if out.tunnel == "" {
      out := out.(tunnel := observed.tunnel);
    }
    var t4 := MergeLists(StringLess, out.tablesV4, observed.tablesV4);
    var t6 := MergeLists(StringLess, out.tablesV6, observed.tablesV6);
    var p4 := MergeLists(IntLess, out.priosV4, observed.priosV4);
    var p6 := MergeLists(IntLess, out.priosV6, observed.priosV6);
    out := out.(tablesV4 := t4, tablesV6 := t6, priosV4 := p4, priosV6 := p6,
                dnsChanged := out.dnsChanged || observed.dnsChanged,
                firewallChanged := out.firewallChanged || observed.firewallChanged);
    forall k ensures Owns(out, k) <==> Owns(base, k) || Owns(observed, k) {
      match k
      case Table(f, t) =>
      case Priority(f, p) =>
    }
  }

  /** Merging is a set union, so its lists are determined by the two arguments. */
  lemma MergeIsAFunction(base: Owned, observed: Owned, x: Owned, y: Owned)
    requires MergeOf(base, observed, x) && MergeOf(base, observed, y)
    ensures x == y
  {
    forall k ensures Owns(x, k) <==> Owns(y, k) {}
    CanonicalListsDecideKeys(x, y);
  }

  // ------------------------------------------------------------------- delta

  predicate Changed(before: string, after: string) {
    before != "" && after != "" && before != after
  }

  /** Exactly the keys that `after` shows and `before` does not; never the main table. */
  ghost predicate DeltaOf(before: Snapshot, after: Snapshot, d: Owned) {
    && Canonical(d)
    && d.tunnel == TUN_NAME
    && (forall k :: Owns(d, k) <==> Shows(after, k) && !Shows(before, k) && !IsMain(k))
    && d.dnsChanged == Changed(before.dns, after.dns)
    && d.firewallChanged == Changed(before.firewall, after.firewall)
  }

  method NewRouteTables(before: seq<RouteLine>, after: seq<RouteLine>) returns (out: seq<string>)
    ensures Ascending(StringLess, out)
    ensures forall t :: t in out <==> t != "" && HasTable(after, t) && !HasTable(before, t)
  {
    var b: set<string> := {};
    for i := 0 to |before|
      invariant forall t :: t in b <==> t != "" && HasTable(before[..i], t)
    {
      assert before[..i + 1] == before[..i] + [before[i]];
      if before[i].table != "" {
        b := b + {before[i].table};
      }
    }
    assert before[..|before|] == before;
    var seen: set<string> := {};
    for i := 0 to |after|
      invariant forall t :: t in seen <==> t != "" && HasTable(after[..i], t) && !HasTable(before, t)
    {
      assert after[..i + 1] == after[..i] + [after[i]];
      if after[i].table != "" && after[i].table !in b {
        seen := seen + {after[i].table};
      }
    }
    assert after[..|after|] == after;
    StringLessIsTotal();
    out := SortedKeys(StringLess, seen);
  }

  method NewRulePriorities(before: seq<RuleLine>, after: seq<RuleLine>) returns (out: seq<int>)
    ensures Ascending(IntLess, out)
    ensures forall p :: p in out <==> HasPriority(after, p) && !HasPriority(before, p)
  {
    var b: set<int> := {};
    for i := 0 to |before|
      invariant forall p :: p in b <==> HasPriority(before[..i], p)
    {
      assert before[..i + 1] == before[..i] + [before[i]];
      if before[i].priority.Some? {
        b := b + {before[i].priority.value};
      }
    }
    assert before[..|before|] == before;
    var seen: set<int> := {};
    for i := 0 to |after|
      invariant forall p :: p in seen <==> HasPriority(after[..i], p) && !HasPriority(before, p)
    {
      assert after[..i + 1] == after[..i] + [after[i]];
      if after[i].priority.Some? && after[i].priority.value !in b {
        seen := seen + {after[i].priority.value};
      }
    }
    assert after[..|after|] == after;
    IntLessIsTotal();
    out := SortedKeys(IntLess, seen);
  }

  method DeriveOwnedNetworkDelta(before: Snapshot, after: Snapshot) returns (d: Owned)
    ensures DeltaOf(before, after, d)
  {
    var t4 := NewRouteTables(before.routesV4, after.routesV4);
    var t6 := NewRouteTables(before.routesV6, after.routesV6);
    var p4 := NewRulePriorities(before.rulesV4, after.rulesV4);
    var p6 := NewRulePriorities(before.rulesV6, after.rulesV6);
    d := Owned(TUN_NAME, t4, t6, p4, p6, Changed(before.dns, after.dns), Changed(before.firewall, after.firewall));
    forall k ensures Owns(d, k) <==> Shows(after, k) && !Shows(before, k) && !IsMain(k) {
      match k
      case Table(f, t) =>
      case Priority(f, p) =>
    }
  }

  lemma DeltaExists(before: Snapshot, after: Snapshot) returns (d: Owned)
    ensures DeltaOf(before, after, d)
  {
    StringLessIsTotal();
    IntLessIsTotal();
    var t4 := SortedListExists(StringLess, set l | l in after.routesV4 && l.table != "" && !HasTable(before.routesV4, l.table) :: l.table);
    var t6 := SortedListExists(StringLess, set l | l in after.routesV6 && l.table != "" && !HasTable(before.routesV6, l.table) :: l.table);
    var p4 := SortedListExists(IntLess, set l | l in after.rulesV4 && l.priority.Some? && !HasPriority(before.rulesV4, l.priority.value) :: l.priority.value);
    var p6 := SortedListExists(IntLess, set l | l in after.rulesV6 && l.priority.Some? && !HasPriority(before.rulesV6, l.priority.value) :: l.priority.value);
    d := Owned(TUN_NAME, t4, t6, p4, p6, Changed(before.dns, after.dns), Changed(before.firewall, after.firewall));
    forall k ensures Owns(d, k) <==> Shows(after, k) && !Shows(before, k) && !IsMain(k) {
      match k
      case Table(f, t) =>
      case Priority(f, p) =>
    }
  }

  lemma MergeExists(base: Owned, observed: Owned) returns (out: Owned)
    ensures MergeOf(base, observed, out)
  {
    StringLessIsTotal();
    IntLessIsTotal();
    var t4 := SortedListExists(StringLess, Elements(base.tablesV4) + Elements(observed.tablesV4));
    var t6 := SortedListExists(StringLess, Elements(base.tablesV6) + Elements(observed.tablesV6));
    var p4 := SortedListExists(IntLess, Elements(base.priosV4) + Elements(observed.priosV4));
    var p6 := SortedListExists(IntLess, Elements(base.priosV6) + Elements(observed.priosV6));
    out := Owned(if base.tunnel == "" then observed.tunnel else base.tunnel, t4, t6, p4, p6,
                 base.dnsChanged || observed.dnsChanged, base.firewallChanged || observed.firewallChanged);
    forall k ensures Owns(out, k) <==> Owns(base, k) || Owns(observed, k) {
      match k
      case Table(f, t) =>
      case Priority(f, p) =>
    }
  }

  // ------------------------------------------------------- preflight, verify

  ghost predicate ReservedFree(s: Snapshot) {
    forall k :: IsReserved(k) ==> !Shows(s, k)
  }

  ghost predicate OwnedAbsent(post: Snapshot, owned: Owned) {
    forall k :: Owns(owned, k) ==> !Shows(post, k)
  }

  method PreflightPlatformNetworkOwnership(before: Snapshot) returns (ok: bool)
    ensures ok <==> ReservedFree(before)
  {
    var families := [V4, V6];
    for f := 0 to |families|
      invariant forall g :: 0 <= g < f ==> !Shows(before, Table(families[g], ROUTE_TABLE))
    {
      var lines := if families[f].V4? then before.routesV4 else before.routesV6;
      for i := 0 to |lines|
        invariant forall m :: 0 <= m < i ==> lines[m].table != ROUTE_TABLE
      {
        if lines[i].table == ROUTE_TABLE {
          assert Shows(before, Table(families[f], ROUTE_TABLE));
          return false;
        }
      }
    }
    for f := 0 to |families|
      invariant forall g, p :: 0 <= g < f && RULE_START <= p <= RULE_END ==> !Shows(before, Priority(families[g], p))
    {
      var lines := if families[f].V4? then before.rulesV4 else before.rulesV6;
      for i := 0 to |lines|
        invariant forall m, p :: 0 <= m < i && RULE_START <= p <= RULE_END ==> lines[m].priority != Some(p)
      {
        if lines[i].priority.Some? && RULE_START <= lines[i].priority.value <= RULE_END {
          assert Shows(before, Priority(families[f], lines[i].priority.value));
          return false;
        }
      }
    }
    forall k | IsReserved(k) ensures !Shows(before, k) {
      assert families[0] == V4 && families[1] == V6;
      assert k.fam == families[0] || k.fam == families[1];
      match k
      case Table(fam, t) =>
        assert !Shows(before, Table(families[0], ROUTE_TABLE)) && !Shows(before, Table(families[1], ROUTE_TABLE));
      case Priority(fam, p) =>
        assert !Shows(before, Priority(families[0], p)) && !Shows(before, Priority(families[1], p));
    }
    return true;
  }

  /** No owned route table is left in the lines of its family. */
  method TablesAbsent(tables: seq<string>, lines: seq<RouteLine>) returns (ok: bool)
    ensures ok <==> forall t :: t in tables ==> !HasTable(lines, t)
  {
    for i := 0 to |tables|
      invariant forall m :: 0 <= m < i ==> !HasTable(lines, tables[m])
    {
      for n := 0 to |lines|
        invariant forall m :: 0 <= m < n ==> lines[m].table != tables[i]
      {
        if lines[n].table == tables[i] {
          assert HasTable(lines, tables[i]);
          return false;
        }
      }
    }
    return true;
  }

  method PrioritiesAbsent(prios: seq<int>, lines: seq<RuleLine>) returns (ok: bool)
    ensures ok <==> forall p :: p in prios ==> !HasPriority(lines, p)
  {
    for i := 0 to |prios|
      invariant forall m :: 0 <= m < i ==> !HasPriority(lines, prios[m])
    {
      for n := 0 to |lines|
        invariant forall m :: 0 <= m < n ==> lines[m].priority != Some(prios[i])
      {
        if lines[n].priority == Some(prios[i]) {
          assert HasPriority(lines, prios[i]);
          return false;
        }
      }
    }
    return true;
  }

  method VerifyOwnedDeltaAbsent(post: Snapshot, owned: Owned) returns (ok: bool)
    ensures ok <==> OwnedAbsent(post, owned)
  {
    var t4 := TablesAbsent(owned.tablesV4, post.routesV4);
    var t6 := TablesAbsent(owned.tablesV6, post.routesV6);
    var p4 := PrioritiesAbsent(owned.priosV4, post.rulesV4);
    var p6 := PrioritiesAbsent(owned.priosV6, post.rulesV6);
    ok := t4 && t6 && p4 && p6;
    if ok {
      forall k | Owns(owned, k) ensures !Shows(post, k) {}
    } else if !t4 {
      var t :| t in owned.tablesV4 && HasTable(post.routesV4, t);
      assert Owns(owned, Table(V4, t)) && Shows(post, Table(V4, t));
    } else if !t6 {
      var t :| t in owned.tablesV6 && HasTable(post.routesV6, t);
      assert Owns(owned, Table(V6, t)) && Shows(post, Table(V6, t));
    } else if !p4 {
      var p :| p in owned.priosV4 && HasPriority(post.rulesV4, p);
      assert Owns(owned, Priority(V4, p)) && Shows(post, Priority(V4, p));
    } else {
      var p :| p in owned.priosV6 && HasPriority(post.rulesV6, p);
      assert Owns(owned, Priority(V6, p)) && Shows(post, Priority(V6, p));
    }
  }

  // ---------------------------------------------------- a whole transaction

  /** What a journal's ownership record always satisfies: canonical lists that
      contain the reserved namespace and nothing the baseline already had. */
  ghost predicate SoundOwnership(before: Snapshot, o: Owned) {
    && Canonical(o)
    && o.tunnel == TUN_NAME
    && (forall k :: IsReserved(k) ==> Owns(o, k))
    && (forall k :: Owns(o, k) ==> !Shows(before, k) && !IsMain(k))
  }

  lemma ReservedIsSound(before: Snapshot)
    ensures SoundOwnership(before, Reserved()) <==> ReservedFree(before)
  {
    ReservedOwnsExactlyTheNamespace();
  }

  lemma MergeKeepsOwnershipSound(before: Snapshot, after: Snapshot, base: Owned, d: Owned, out: Owned)
    requires SoundOwnership(before, base) && DeltaOf(before, after, d) && MergeOf(base, d, out)
    ensures SoundOwnership(before, out.(tunnel := TUN_NAME)) && out.tunnel == TUN_NAME
  {
    assert out.(tunnel := TUN_NAME) == out;
  }

  /** When recovery finalises an operation as clean, the same snapshot passes the
      preflight of the next start. */
  lemma CleanImpliesRestartable(before: Snapshot, post: Snapshot, owned: Owned)
    requires SoundOwnership(before, owned) && OwnedAbsent(post, owned)
    ensures ReservedFree(post)
  {
    forall k | IsReserved(k) ensures !Shows(post, k) {
      assert Owns(owned, k);
    }
  }

  // -------------------------------------------------- the privileged recovery

  method SameList<T(==)>(a: seq<T>, b: seq<T>) returns (same: bool)
    ensures same <==> a == b
  {
    if |a| != |b| {
      return false;
    }
    for i := 0 to |a|
      invariant a[..i] == b[..i]
    {
      if a[i] != b[i] {
        return false;
      }
    }
    assert a == a[..|a|] && b == b[..|b|];
    return true;
  }

  ghost predicate ReservedOnly(owned: Owned) {
    forall k :: Owns(owned, k) ==> IsReserved(k)
  }

  /** What the root helper accepts: exactly the reserved record, list by list. */
  predicate Accepted(owned: Owned) {
    && owned.tunnel == TUN_NAME
    && owned.tablesV4 == Reserved().tablesV4 && owned.tablesV6 == Reserved().tablesV6
    && owned.priosV4 == Reserved().priosV4 && owned.priosV6 == Reserved().priosV6
  }

  method ValidateReservedTunnelOwnership(owned: Owned) returns (ok: bool)
    ensures ok <==> Accepted(owned)
    ensures ok ==> ReservedOnly(owned) && Canonical(owned)
  {
    var want := ReservedPlatformOwnership();
    var t4 := SameList(owned.tablesV4, want.tablesV4);
    var t6 := SameList(owned.tablesV6, want.tablesV6);
    var p4 := SameList(owned.priosV4, want.priosV4);
    var p6 := SameList(owned.priosV6, want.priosV6);
    ok := owned.tunnel == want.tunnel && t4 && t6 && p4 && p6;
    if ok {
      AcceptedIsReserved(owned);
    }
  }

  lemma AcceptedIsReserved(owned: Owned)
    requires Accepted(owned)
    ensures ReservedOnly(owned) && Canonical(owned)
  {
    ReservedOwnsExactlyTheNamespace();
    forall k | Owns(owned, k) ensures IsReserved(k) {
      assert Owns(Reserved(), k);
    }
  }

  /** On a record with sound ownership the list comparison accepts exactly when
      nothing outside the namespace was claimed. */
  lemma AcceptedExactly(before: Snapshot, owned: Owned)
    requires SoundOwnership(before, owned)
    ensures Accepted(owned) <==> ReservedOnly(owned)
  {
    ReservedOwnsExactlyTheNamespace();
    if Accepted(owned) {
      AcceptedIsReserved(owned);
    } else if ReservedOnly(owned) {
      assert SameKeys(owned, Reserved());
      CanonicalListsDecideKeys(owned, Reserved());
    }
  }

  /** An ownership record built from the reserved namespace by merging deltas. */
  ghost predicate MergeChain(deltas: seq<Owned>, owned: Owned)
    decreases |deltas|
  {
    if deltas == [] then owned == Reserved()
    else
      var last := |deltas| - 1;
      exists base :: MergeChain(deltas[..last], base) && MergeOf(base, deltas[last], owned)
  }

  /** The root helper accepts a record exactly when every delta ever merged into
      it lies inside the reserved namespace. */
  lemma {:induction false} ChainIsReservedExactlyWhenEveryDeltaIs(deltas: seq<Owned>, owned: Owned)
    requires MergeChain(deltas, owned)
    ensures ReservedOnly(owned) <==> forall i :: 0 <= i < |deltas| ==> ReservedOnly(deltas[i])
    ensures Canonical(owned) && forall k :: IsReserved(k) ==> Owns(owned, k)
    decreases |deltas|
  {
    ReservedOwnsExactlyTheNamespace();
    if deltas != [] {
      var last := |deltas| - 1;
      var base :| MergeChain(deltas[..last], base) && MergeOf(base, deltas[last], owned);
      ChainIsReservedExactlyWhenEveryDeltaIs(deltas[..last], base);
      assert ReservedOnly(owned) <==> ReservedOnly(base) && ReservedOnly(deltas[last]) by {
        if ReservedOnly(owned) {
          forall k | Owns(base, k) || Owns(deltas[last], k) ensures IsReserved(k) {
            assert Owns(owned, k);
          }
        }
      }
      assert forall i :: 0 <= i < last ==> deltas[..last][i] == deltas[i];
    }
  }
}
