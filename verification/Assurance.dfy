/** The verdict on the whole transport path, composed from independent evidence. */
module Assurance {
  import opened Wrappers
  import opened Ordering
  import opened Text
  import PidAttestation
  import ProcessTree

  datatype State = Idle | Partial | Degraded | Verified

  datatype Isolation = Inactive | Strict | Relaxed

  /** AttestAgentRoutes: what the helper itself reports. */
  datatype RouteReport = RouteReport(available: bool, observed: nat, direct: nat, unexpected: nat)

  datatype Egress = Egress(available: bool, coverageComplete: bool)

  datatype Evidence = Evidence(
    tree: ProcessTree.Report,
    route: RouteReport,
    pids: PidAttestation.Report,
    egress: Egress)

  function ClassifyIsolationPolicy(tunnelActive: bool, domainFallback: bool): Isolation {
    if !tunnelActive then Inactive else if domainFallback then Relaxed else Strict
  }

  function ClassifyNetworkAttestation(tunnelActive: bool, e: Evidence): State {
    if !tunnelActive then Idle
    else if !e.tree.complete then Degraded
    else if |e.tree.unknown| > 0 then Degraded
    else if |e.tree.learned| > 0 then Degraded
    else if e.route.available && e.route.unexpected > 0 then Degraded
    else if e.pids.available && |e.pids.unexpected| > 0 then Degraded
    else if e.pids.available && (e.pids.ambiguous > 0 || |e.pids.unresolvedPaths| > 0) then Degraded
    else if |e.tree.processes| == 0 then Partial
    else if !e.route.available || !e.pids.available then Partial
    else if |e.pids.active| == 0 then Partial
    else if |e.pids.vpnDirect| != |e.pids.active| then Degraded
    else if !e.egress.available then Partial
    else if !e.egress.coverageComplete then Partial
    else Verified
  }

  // ------------------------------------------------------------ route evidence

  predicate Strays(c: PidAttestation.Connection) {
    PidAttestation.LooksLikeAntigravity(c.process) && c.outbound != PidAttestation.VPN_DIRECT
  }

  function CountStrays(conns: seq<PidAttestation.Connection>): nat {
    if conns == [] then 0
    else CountStrays(conns[..|conns| - 1]) + (if Strays(conns[|conns| - 1]) then 1 else 0)
  }

  function CountProduct(conns: seq<PidAttestation.Connection>): nat {
    if conns == [] then 0
    else CountProduct(conns[..|conns| - 1]) + (if PidAttestation.LooksLikeAntigravity(conns[|conns| - 1].process) then 1 else 0)
  }

  /** None stands for a connection tracker that cannot be read. */
  method AttestAgentRoutes(tracker: Option<seq<PidAttestation.Connection>>) returns (r: RouteReport)
    ensures r.available <==> tracker.Some?
    ensures r.available ==> r.unexpected == CountStrays(tracker.value) && r.observed == CountProduct(tracker.value)
    ensures r.direct == r.observed - r.unexpected
    ensures !r.available ==> r.observed == 0 && r.unexpected == 0
  {
    if tracker.None? {
      return RouteReport(false, 0, 0, 0);
    }
    var conns := tracker.value;
    var observed, direct, unexpected := 0, 0, 0;
    for i := 0 to |conns|
      invariant unexpected == CountStrays(conns[..i]) && observed == CountProduct(conns[..i]) && direct == observed - unexpected
    {
      assert conns[..i + 1][..i] == conns[..i];
      if PidAttestation.LooksLikeAntigravity(conns[i].process) {
        observed := observed + 1;
        if conns[i].outbound == PidAttestation.VPN_DIRECT {
          direct := direct + 1;
        } else {
          unexpected := unexpected + 1;
        }
      }
    }
    assert conns[..|conns|] == conns;
    r := RouteReport(true, observed, direct, unexpected);
  }

  lemma {:induction false} NoStrays(conns: seq<PidAttestation.Connection>)
    ensures CountStrays(conns) == 0 <==> forall i :: 0 <= i < |conns| ==> !Strays(conns[i])
  {
    if conns != [] {
      NoStrays(conns[..|conns| - 1]);
    }
  }

  // ---------------------------------------------------------- the verdict, exactly

  /** One joined row is beyond doubt: a product row has exactly one owner, an owned
      row leaves by the VPN, and no row has several owners. */
  predicate SoundRow(row: PidAttestation.Row) {
    && |row.owners| <= 1
    && (|row.owners| == 1 ==> row.conn.outbound == PidAttestation.VPN_DIRECT)
    && (PidAttestation.Suspect(row.conn) ==> |row.owners| == 1)
  }

  ghost predicate SoundRows(r: PidAttestation.Report) {
    forall i :: 0 <= i < |r.rows| ==> SoundRow(r.rows[i])
  }

  ghost predicate HasOwnedRow(r: PidAttestation.Report) {
    exists i :: 0 <= i < |r.rows| && |r.rows[i].owners| == 1
  }

  ghost predicate Attested(candidates: seq<int>, conns: seq<PidAttestation.Connection>, lookups: seq<PidAttestation.Lookup>, r: PidAttestation.Report) {
    |lookups| == |conns| && PidAttestation.IsAttestation(candidates, conns, lookups, r)
  }

  lemma RowIsJudged(candidates: seq<int>, conns: seq<PidAttestation.Connection>, lookups: seq<PidAttestation.Lookup>, r: PidAttestation.Report, i: nat)
    requires Attested(candidates, conns, lookups, r) && i < |r.rows|
    ensures r.rows[i].ownership == PidAttestation.Judge(r.rows[i].owners)
    ensures |r.rows[i].owners| == 1 <==> PidAttestation.ExactOwner(r.rows[i], if |r.rows[i].owners| > 0 then r.rows[i].owners[0] else 0)
  {
    assert PidAttestation.IsRow(r.candidates, conns[i], lookups[i], r.rows[i]);
  }

  lemma NoUnexpectedRows(candidates: seq<int>, conns: seq<PidAttestation.Connection>, lookups: seq<PidAttestation.Lookup>, r: PidAttestation.Report)
    requires Attested(candidates, conns, lookups, r)
    ensures |r.unexpected| == 0 <==> forall i :: 0 <= i < |r.rows| && |r.rows[i].owners| == 1 ==> r.rows[i].conn.outbound == PidAttestation.VPN_DIRECT
  {
    if |r.unexpected| == 0 {
      forall i | 0 <= i < |r.rows| && |r.rows[i].owners| == 1 ensures r.rows[i].conn.outbound == PidAttestation.VPN_DIRECT {
        RowIsJudged(candidates, conns, lookups, r, i);
        assert !PidAttestation.IsUnexpected(r.rows, r.rows[i].owners[0]);
      }
    } else {
      assert PidAttestation.IsUnexpected(r.rows, r.unexpected[0]) by { assert r.unexpected[0] in r.unexpected; }
    }
  }

  lemma NoUnresolvedRows(candidates: seq<int>, conns: seq<PidAttestation.Connection>, lookups: seq<PidAttestation.Lookup>, r: PidAttestation.Report)
    requires Attested(candidates, conns, lookups, r)
    ensures |r.unresolvedPaths| == 0 <==> forall i :: 0 <= i < |r.rows| && PidAttestation.Suspect(r.rows[i].conn) ==> |r.rows[i].owners| != 0
  {
    if |r.unresolvedPaths| == 0 {
      forall i | 0 <= i < |r.rows| && PidAttestation.Suspect(r.rows[i].conn) ensures |r.rows[i].owners| != 0 {
        RowIsJudged(candidates, conns, lookups, r, i);
        assert !PidAttestation.IsUnresolvedPath(r.rows, r.rows[i].conn.process);
      }
    } else {
      assert PidAttestation.IsUnresolvedPath(r.rows, r.unresolvedPaths[0]) by { assert r.unresolvedPaths[0] in r.unresolvedPaths; }
      var i :| 0 <= i < |r.rows| && r.rows[i].ownership.Unresolved? && PidAttestation.Suspect(r.rows[i].conn);
      RowIsJudged(candidates, conns, lookups, r, i);
    }
  }

  lemma ActiveIffOwnedRow(candidates: seq<int>, conns: seq<PidAttestation.Connection>, lookups: seq<PidAttestation.Lookup>, r: PidAttestation.Report)
    requires Attested(candidates, conns, lookups, r)
    ensures HasOwnedRow(r) <==> |r.active| > 0
  {
    if |r.active| > 0 {
      assert PidAttestation.IsActive(r.rows, r.active[0]) by { assert r.active[0] in r.active; }
    }
    if HasOwnedRow(r) {
      var i :| 0 <= i < |r.rows| && |r.rows[i].owners| == 1;
      RowIsJudged(candidates, conns, lookups, r, i);
      assert PidAttestation.IsActive(r.rows, r.rows[i].owners[0]);
    }
  }

  lemma SummariesSpeakForRows(candidates: seq<int>, conns: seq<PidAttestation.Connection>, lookups: seq<PidAttestation.Lookup>, r: PidAttestation.Report)
    requires Attested(candidates, conns, lookups, r)
    ensures SoundRows(r) <==> |r.unexpected| == 0 && r.ambiguous == 0 && |r.unresolvedPaths| == 0
    ensures HasOwnedRow(r) <==> |r.active| > 0
  {
    PidAttestation.NoAmbiguousRows(r.rows);
    NoUnexpectedRows(candidates, conns, lookups, r);
    NoUnresolvedRows(candidates, conns, lookups, r);
    ActiveIffOwnedRow(candidates, conns, lookups, r);
    forall i | 0 <= i < |r.rows| ensures r.rows[i].ownership.Ambiguous? <==> |r.rows[i].owners| > 1 {
      RowIsJudged(candidates, conns, lookups, r, i);
    }
  }

  lemma VpnAmongActive(candidates: seq<int>, conns: seq<PidAttestation.Connection>, lookups: seq<PidAttestation.Lookup>, r: PidAttestation.Report)
    requires Attested(candidates, conns, lookups, r)
    ensures forall pid :: pid in r.vpnDirect ==> pid in r.active
    ensures |r.unexpected| == 0 ==> forall pid :: pid in r.active ==> pid in r.vpnDirect
  {
    PidAttestation.ActiveArePositive(r.candidates, r.candidates, conns, lookups, r.rows);
    forall pid | pid in r.vpnDirect ensures pid in r.active {
      assert PidAttestation.IsDirect(r.rows, pid) && PidAttestation.IsActive(r.rows, pid);
    }
    if |r.unexpected| == 0 {
      forall pid | pid in r.active ensures pid in r.vpnDirect {
        assert PidAttestation.IsActive(r.rows, pid) && !PidAttestation.IsUnexpected(r.rows, pid);
        var i :| 0 <= i < |r.rows| && PidAttestation.ExactOwner(r.rows[i], pid);
        assert PidAttestation.IsDirect(r.rows, pid);
      }
    }
  }

  /** The length comparison in the classifier decides equality of the two lists,
      because the VPN PIDs are always among the active ones. */
  lemma LengthsDecideEquality(candidates: seq<int>, conns: seq<PidAttestation.Connection>, lookups: seq<PidAttestation.Lookup>, r: PidAttestation.Report)
    requires Attested(candidates, conns, lookups, r)
    ensures |r.vpnDirect| == |r.active| <==> r.vpnDirect == r.active
    ensures |r.unexpected| == 0 ==> r.vpnDirect == r.active
  {
    VpnAmongActive(candidates, conns, lookups, r);
    SameLengthSameList(r.vpnDirect, r.active);
  }

  lemma SameLengthSameList(x: seq<int>, y: seq<int>)
    requires Ascending(IntLess, x) && Ascending(IntLess, y) && forall v :: v in x ==> v in y
    ensures |x| == |y| || (forall v :: v in y ==> v in x) ==> x == y
  {
    IntLessIsTotal();
    AscendingSize(x);
    AscendingSize(y);
    assert Elements(x) <= Elements(y);
    if |x| == |y| {
      SubsetOfSameSize(Elements(x), Elements(y));
      forall v ensures v in x <==> v in y {
        assert v in Elements(x) <==> v in Elements(y);
      }
    }
    if forall v :: v in y ==> v in x {
      AscendingIsCanonical(IntLess, x, y);
    }
  }

  lemma {:induction false} AscendingSize(s: seq<int>)
    requires Ascending(IntLess, s)
    ensures |Elements(s)| == |s|
  {
    if s != [] {
      var last := s[|s| - 1];
      AscendingSize(s[..|s| - 1]);
      assert last !in s[..|s| - 1] by {
        assert forall i :: 0 <= i < |s| - 1 ==> IntLess(s[i], last);
      }
      assert Elements(s) == Elements(s[..|s| - 1]) + {last};
    }
  }

  lemma SubsetOfSameSize(x: set<int>, y: set<int>)
    requires x <= y && |x| == |y|
    ensures x == y
  {
    assert y == x + (y - x);
  }

  /** "Verified", on reports built by the two attestors, means exactly this. */
  lemma VerifiedExactly(tunnelActive: bool, e: Evidence, conns: seq<PidAttestation.Connection>, routed: seq<PidAttestation.Connection>,
                        candidates: seq<int>, lookups: seq<PidAttestation.Lookup>)
    requires e.pids.available ==> Attested(candidates, conns, lookups, e.pids)
    requires e.route.available ==> e.route.unexpected == CountStrays(routed)
    ensures ClassifyNetworkAttestation(tunnelActive, e) == Verified <==>
            && tunnelActive
            && e.tree.complete && e.tree.unknown == [] && e.tree.learned == [] && e.tree.processes != []
            && e.route.available && (forall i :: 0 <= i < |routed| ==> !Strays(routed[i]))
            && e.pids.available && SoundRows(e.pids) && HasOwnedRow(e.pids)
            && e.egress.available && e.egress.coverageComplete
  {
    NoStrays(routed);
    if e.pids.available {
      SummariesSpeakForRows(candidates, conns, lookups, e.pids);
      LengthsDecideEquality(candidates, conns, lookups, e.pids);
    }
  }

  /** While the tunnel is active a single doubtful row forces Degraded, whatever
      the rest of the evidence says. */
  lemma DoubtfulRowDegrades(e: Evidence, conns: seq<PidAttestation.Connection>, candidates: seq<int>, lookups: seq<PidAttestation.Lookup>, i: nat)
    requires e.pids.available && Attested(candidates, conns, lookups, e.pids)
    requires i < |e.pids.rows| && !SoundRow(e.pids.rows[i])
    ensures ClassifyNetworkAttestation(true, e) == Degraded
  {
    SummariesSpeakForRows(candidates, conns, lookups, e.pids);
  }

  /** Missing evidence alone never degrades and never verifies. */
  lemma MissingEvidenceIsPartial(e: Evidence, conns: seq<PidAttestation.Connection>, candidates: seq<int>, lookups: seq<PidAttestation.Lookup>)
    requires e.pids.available ==> Attested(candidates, conns, lookups, e.pids)
    requires e.tree.complete && e.tree.unknown == [] && e.tree.learned == []
    requires e.route.available ==> e.route.unexpected == 0
    requires e.pids.available ==> SoundRows(e.pids)
    ensures ClassifyNetworkAttestation(true, e) == Partial <==>
            || e.tree.processes == [] || !e.route.available || !e.pids.available || !HasOwnedRow(e.pids)
            || !e.egress.available || !e.egress.coverageComplete
    ensures ClassifyNetworkAttestation(true, e) != Degraded
  {
    if e.pids.available {
      SummariesSpeakForRows(candidates, conns, lookups, e.pids);
      LengthsDecideEquality(candidates, conns, lookups, e.pids);
    }
  }
}
