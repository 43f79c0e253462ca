/** Recoveries that are cut off, given up and started again, any number of times:
    where such a run ends does not depend on where it was interrupted. */
module RecoveryRuns {
  import opened Wrappers
  import opened RoutingOwnership
  import opened HostNetwork
  import opened TunnelJournal
  import opened TunnelMachine
  import opened TunnelInvariant
  import AtomicFile

  // ------------------------------------------------------------------- claims

  /** What recovery of journal j claims on network a. */
  ghost predicate Claims(j: Journal, a: Network, out: Journal) {
    exists snap :: Captures(a, snap) && Attributed(j, snap, out)
  }

  lemma ClaimExists(j: Journal, a: Network) returns (out: Journal)
    ensures Claims(j, a, out)
  {
    var snap := SnapshotExists(a);
    out := j;
    if j.active.None? {
      var d := DeltaExists(j.before, snap);
      var m := MergeExists(j.owned, d);
      out := j.(owned := m.(tunnel := TUN_NAME));
    }
    assert Attributed(j, snap, out);
  }

  lemma DeltaIsAFunction(before: Snapshot, x: Snapshot, y: Snapshot, d: Owned, e: Owned)
    requires DeltaOf(before, x, d) && DeltaOf(before, y, e)
    requires x.dns == y.dns && x.firewall == y.firewall && forall k :: Shows(x, k) <==> Shows(y, k)
    ensures d == e
  {
    assert SameKeys(d, e);
    CanonicalListsDecideKeys(d, e);
  }

  lemma OneNetwork(a: Network, s: Snapshot, t: Snapshot)
    requires Captures(a, s) && Captures(a, t)
    ensures s.dns == t.dns && s.firewall == t.firewall && forall k :: Shows(s, k) <==> Shows(t, k)
  {
    forall k ensures Shows(s, k) <==> Shows(t, k) {}
  }

  /** The claims are determined by the journal and the network, whatever order the
      snapshot lists its lines in. */
  lemma ClaimsAreDetermined(j: Journal, a: Network, x: Journal, y: Journal)
    requires Claims(j, a, x) && Claims(j, a, y)
    ensures x == y
  {
    var s :| Captures(a, s) && Attributed(j, s, x);
    var t :| Captures(a, t) && Attributed(j, t, y);
    OneNetwork(a, s, t);
    AttributionIsAFunction(j, s, t, x, y);
  }

  lemma AttributionIsAFunction(j: Journal, s: Snapshot, t: Snapshot, x: Journal, y: Journal)
    requires Attributed(j, s, x) && Attributed(j, t, y)
    requires s.dns == t.dns && s.firewall == t.firewall && forall k :: Shows(s, k) <==> Shows(t, k)
    ensures x == y
  {
    if j.active.None? {
      var d, m :| DeltaOf(j.before, s, d) && MergeOf(j.owned, d, m) && x == j.(owned := m.(tunnel := TUN_NAME));
      var e, n :| DeltaOf(j.before, t, e) && MergeOf(j.owned, e, n) && y == j.(owned := n.(tunnel := TUN_NAME));
      DeltaIsAFunction(j.before, s, t, d, e);
      MergeIsAFunction(j.owned, d, m, n);
    }
  }

  /** What a recovery leaves of a network: no interface, nothing it claims. */
  function Cleared(a: Network, owned: Owned): Network {
    a.(tun := None, entries := set e | e in a.entries && e.dev != TUN_NAME && !Owns(owned, e.key))
  }

  /** Some of that has happened. */
  ghost predicate Shrunk(a: Network, owned: Owned, mid: Network) {
    && mid == a.(tun := mid.tun, entries := mid.entries) && mid.entries <= a.entries && WellFormed(mid)
    && (forall e :: e in a.entries && e.dev != TUN_NAME && !Owns(owned, e.key) ==> e in mid.entries)
  }

  lemma ShrunkAway(a: Network, owned: Owned, mid: Network)
    requires Shrunk(a, owned, mid) && mid.tun.None? && forall k :: Owns(owned, k) ==> !HasKey(mid, k)
    ensures mid == Cleared(a, owned)
  {
    forall e ensures e in mid.entries <==> e in Cleared(a, owned).entries {
      if e in mid.entries {
        assert HasKey(mid, e.key);
      }
    }
  }

  /** A later recovery of the same transaction claims nothing new. */
  lemma RerunClaimsNothingNew(j: Journal, a: Network, out: Journal, mid: Network, i: Journal, again: Journal)
    requires Claims(j, a, out) && i == out.(phase := i.phase, fromBackup := i.fromBackup)
    requires mid.entries <= a.entries && mid.dns == a.dns && mid.firewall == a.firewall
    requires Claims(i, mid, again)
    ensures again == i
  {
    if j.active.None? {
      var s :| Captures(a, s) && Attributed(j, s, out);
      var t :| Captures(mid, t) && Attributed(i, t, again);
      var d, m :| DeltaOf(j.before, s, d) && MergeOf(j.owned, d, m) && out == j.(owned := m.(tunnel := TUN_NAME));
      var e, n :| DeltaOf(i.before, t, e) && MergeOf(i.owned, e, n) && again == i.(owned := n.(tunnel := TUN_NAME));
      DeltaShrinks(j.before, a, s, d, mid, t, e);
      MergedAlready(j.owned, d, m, i.owned, e, n);
    }
  }

  lemma MergedAlready(base: Owned, d: Owned, m: Owned, claimed: Owned, e: Owned, n: Owned)
    requires MergeOf(base, d, m) && claimed == m.(tunnel := TUN_NAME) && MergeOf(claimed, e, n)
    requires (forall k :: Owns(e, k) ==> Owns(d, k)) && e.dnsChanged == d.dnsChanged && e.firewallChanged == d.firewallChanged
    ensures n.(tunnel := TUN_NAME) == claimed
  {
    forall k ensures Owns(claimed, k) <==> Owns(m, k) {}
    assert SameKeys(n, m);
    CanonicalListsDecideKeys(n, m);
  }

  lemma DeltaShrinks(before: Snapshot, a: Network, s: Snapshot, d: Owned, mid: Network, t: Snapshot, e: Owned)
    requires Captures(a, s) && DeltaOf(before, s, d) && Captures(mid, t) && DeltaOf(before, t, e)
    requires mid.entries <= a.entries && mid.dns == a.dns && mid.firewall == a.firewall
    ensures forall k :: Owns(e, k) ==> Owns(d, k)
    ensures e.dnsChanged == d.dnsChanged && e.firewallChanged == d.firewallChanged
  {
    forall k | Owns(e, k) ensures Owns(d, k) {
      assert HasKey(mid, k) && HasKey(a, k);
    }
  }

  // ------------------------------------------------------------- quiet stretches

  /** Recovery steps, failures, crashes and restarts, while processes come and go and
      a helper may end; but no new transaction, no damage, and nobody else changes
      the network. */
  ghost predicate Quiet(s: State, t: State) {
    || CallsStart(s, t) || CallsRecovery(s, t) || GivesUp(s, t) || Writes(s, t) || Recovery(s, t) || Finalising(s, t)
    || Crashes(s, t) || Restarts(s, t) || ProcessesMove(s, t) || HelperExits(s, t) || Reaped(s, t)
  }

  ghost predicate QuietAt(run: seq<State>, i: nat)
    requires i + 1 < |run|
  {
    Quiet(run[i], run[i + 1])
  }

  ghost predicate QuietFrom(run: seq<State>, from: nat) {
    forall i: nat {:trigger QuietAt(run, i)} :: from <= i && i + 1 < |run| ==> QuietAt(run, i)
  }

  /** The transaction is over and nothing was lost on the way. */
  predicate Finished(u: State) {
    u.disk.primary.None? && !u.unjournaled && !u.pc.Writing?
  }

  predicate Resting(pc: Pc) {
    pc.Down? || pc.Idle? || pc.Loading?
  }

  // --------------------------------------------------------------------- phases

  /** Nothing has been claimed or changed yet. */
  ghost predicate Unclaimed(j: Journal, a: Network, u: State) {
    && u.net == a && u.disk.primary.Some? && Load(u.disk) == Found(j)
    && match u.pc
       case Guarding(_, i) => i == j
       case Capturing(_, i) => i == j
       case Quarantining(_, i) => Claims(j, a, i)
       case Writing(p, i) => p.ToRecover? && !j.fromBackup && WritesClaim(j, a, i)
       case pc => Resting(pc)
  }

  ghost predicate WritesClaim(j: Journal, a: Network, i: Journal) {
    exists out :: Claims(j, a, out) && i == Quarantined(out)
  }

  /** A damaged primary has been moved away. */
  ghost predicate Exposed(j: Journal, a: Network, u: State) {
    u.net == a && u.disk.primary.None? && u.pc.Writing? && u.pc.p.ToRecover? && WritesClaim(j, a, u.pc.j)
  }

  /** The claims are durable and commands may have been issued. */
  ghost predicate Claimed(a: Network, out: Journal, u: State) {
    var q := Quarantined(out);
    && u.disk.primary == Some(Encode(q)) && Shrunk(a, out.owned, u.net)
    && match u.pc
       case Guarding(_, i) => i == q
       case Capturing(_, i) => i == q
       case Quarantining(_, i) => i == q
       case Writing(p, i) => i == q && (p.ToRecover? || p.ToReportFailure?)
       case Mutating(_, i) => i == q
       case Verifying(_, i) => i == q
       case TunChecking(_, i) => i == q && forall k :: Owns(out.owned, k) ==> !HasKey(u.net, k)
       case CleanWriting(_, _) => u.net == Cleared(a, out.owned)
       case RemovingPrimary(_, _) => u.net == Cleared(a, out.owned)
       case pc => Resting(pc)
  }

  ghost predicate Done(a: Network, out: Journal, u: State) {
    && u.disk.primary.None? && u.net == Cleared(a, out.owned)
    && (u.pc.RemovingBackup? || u.pc.BeginTunChecking? || Resting(u.pc))
  }

  predicate Lost(u: State) {
    u.disk.primary.None? && u.unjournaled && (u.pc.BeginTunChecking? || Resting(u.pc))
  }

  ghost predicate Phase(j: Journal, a: Network, u: State) {
    || Unclaimed(j, a, u) || Exposed(j, a, u) || Lost(u)
    || (exists out :: Claims(j, a, out) && (Claimed(a, out, u) || Done(a, out, u)))
  }

  lemma ClaimIsDurable(j: Journal, a: Network, out: Journal)
    requires Claims(j, a, out) && j.schema == SCHEMA && !Blank(j.op)
    ensures Decode(Encode(Quarantined(out))) == Some(Quarantined(out))
  {
    DecodeInvertsEncode(Quarantined(out));
  }

  lemma UnclaimedGoesOn(j: Journal, a: Network, s: State, t: State)
    requires Inv(s) && Unclaimed(j, a, s) && Open(j) && Quiet(s, t)
    ensures Phase(j, a, t)
  {
    if ProcessesMove(s, t) {
      assert Unclaimed(j, a, t);
    } else if s.pc.Writing? {
      UnclaimedWrites(j, a, s, t);
    } else if Recovery(s, t) {
      UnclaimedRecovers(j, a, s, t);
    } else {
      UnclaimedRests(j, a, s, t);
    }
  }

  lemma UnclaimedRecovers(j: Journal, a: Network, s: State, t: State)
    requires Unclaimed(j, a, s) && Open(j) && !s.pc.Writing? && Recovery(s, t)
    ensures Unclaimed(j, a, t) || Exposed(j, a, t)
  {
    if CapturesStale(s, t) {
      UnclaimedCaptures(j, a, s, t);
    } else if Quarantines(s, t) {
      assert WritesClaim(j, a, t.pc.j);
    }
  }

  lemma UnclaimedCaptures(j: Journal, a: Network, s: State, t: State)
    requires Unclaimed(j, a, s) && Open(j) && CapturesStale(s, t)
    ensures Unclaimed(j, a, t)
  {
    var snap :| Captures(s.net, snap) && Attributed(s.pc.j, snap, t.pc.j);
    assert Claims(j, a, t.pc.j);
  }

  lemma UnclaimedRests(j: Journal, a: Network, s: State, t: State)
    requires Unclaimed(j, a, s) && !s.pc.Writing? && Quiet(s, t) && !Recovery(s, t)
    ensures Unclaimed(j, a, t)
  {
    if Crashes(s, t) || Restarts(s, t) || GivesUp(s, t) {
      UnclaimedStops(j, a, s, t);
    }
  }

  lemma UnclaimedStops(j: Journal, a: Network, s: State, t: State)
    requires Unclaimed(j, a, s) && !s.pc.Writing? && (Crashes(s, t) || Restarts(s, t) || GivesUp(s, t))
    ensures Unclaimed(j, a, t)
  {
  }

  /** With a write in progress only its completion or interruption is possible, as
      far as the files and the network go. */
  lemma WriteEnds(s: State, t: State)
    requires Inv(s) && s.pc.Writing? && s.pc.p.ToRecover? && Quiet(s, t) && !ProcessesMove(s, t)
    ensures t.net == s.net && !t.pc.Writing? && (t.pc == WrittenPc(s.pc.p, s.pc.j) || Resting(t.pc))
    ensures AtomicFile.WriteOutcome(s.disk.primary, s.disk.backup, Encode(s.pc.j), t.disk.primary, t.disk.backup)
    ensures t.pc.Mutating? ==> t.disk.primary == Some(Encode(s.pc.j))
    ensures t.disk.primary.None? ==> Lost(t)
  {
    WriteMayEnd(s, t);
  }

  /** No helper runs while the recovering journal is written. */
  lemma WriteMayEnd(s: State, t: State)
    requires Inv(s) && s.pc.Writing? && s.pc.p.ToRecover? && Quiet(s, t) && !ProcessesMove(s, t)
    ensures Writes(s, t) || GivesUp(s, t) || Crashes(s, t)
  {
  }

  lemma UnclaimedWrites(j: Journal, a: Network, s: State, t: State)
    requires Inv(s) && Unclaimed(j, a, s) && Open(j) && Quiet(s, t) && !ProcessesMove(s, t) && s.pc.Writing?
    ensures Phase(j, a, t)
  {
    LoadFailsClosed(s.disk);
    WriteEnds(s, t);
    var out :| Claims(j, a, out) && s.pc.j == Quarantined(out);
    ClaimIsDurable(j, a, out);
    if t.disk.primary == Some(Encode(s.pc.j)) {
      assert Shrunk(a, out.owned, a);
      assert Claimed(a, out, t);
    } else {
      assert Load(t.disk) == Load(s.disk) by { FallbackUnused(j, s.disk, t.disk); }
      assert Unclaimed(j, a, t);
    }
  }

  /** A readable primary decides alone what is loaded. */
  lemma FallbackUnused(j: Journal, d: Disk, e: Disk)
    requires Load(d) == Found(j) && !j.fromBackup && e.primary == d.primary
    ensures Load(e) == Load(d)
  {
  }

  lemma ExposedGoesOn(j: Journal, a: Network, s: State, t: State)
    requires Inv(s) && Exposed(j, a, s) && Quiet(s, t)
    ensures Phase(j, a, t)
  {
    if ProcessesMove(s, t) {
      assert Exposed(j, a, t);
    } else {
      ExposedEnds(j, a, s, t);
    }
  }

  lemma ExposedEnds(j: Journal, a: Network, s: State, t: State)
    requires Inv(s) && Exposed(j, a, s) && Quiet(s, t) && !ProcessesMove(s, t)
    ensures Phase(j, a, t)
  {
    var out :| Claims(j, a, out) && s.pc.j == Quarantined(out);
    WriteEnds(s, t);
    if t.disk.primary.Some? {
      assert Shrunk(a, out.owned, a);
      assert Claimed(a, out, t);
    }
  }

  lemma ClaimedGoesOn(j: Journal, a: Network, out: Journal, s: State, t: State)
    requires Inv(s) && Claims(j, a, out) && Claimed(a, out, s) && Quiet(s, t) && j.schema == SCHEMA && !Blank(j.op)
    ensures Claimed(a, out, t) || Done(a, out, t)
  {
    ClaimIsDurable(j, a, out);
    if Recovery(s, t) {
      if CapturesStale(s, t) {
        ClaimedCaptures(j, a, out, s, t);
      } else if Mutates(s, t) {
        CommandTouchesOnlyOwned(out.owned, s.net, t.net);
      } else {
        ClaimedRecovers(a, out, s, t);
      }
    } else {
      ClaimedRests(a, out, s, t);
    }
  }

  lemma ClaimedCaptures(j: Journal, a: Network, out: Journal, s: State, t: State)
    requires Claims(j, a, out) && Claimed(a, out, s) && CapturesStale(s, t)
    ensures Claimed(a, out, t)
  {
    var snap :| Captures(s.net, snap) && Attributed(s.pc.j, snap, t.pc.j);
    assert Claims(s.pc.j, s.net, t.pc.j);
    RerunClaimsNothingNew(j, a, out, s.net, s.pc.j, t.pc.j);
  }

  lemma ClaimedRecovers(a: Network, out: Journal, s: State, t: State)
    requires Claimed(a, out, s) && Decode(Encode(Quarantined(out))) == Some(Quarantined(out))
    requires Loads(s, t) || PassesGuard(s, t) || Quarantines(s, t) || FinishesMutating(s, t) || ReportsFailure(s, t) || Verifies(s, t) || FindsTunGone(s, t)
    ensures Claimed(a, out, t)
  {
    if Verifies(s, t) {
      var post :| Captures(s.net, post) && OwnedAbsent(post, s.pc.j.owned);
      assert forall k :: Owns(out.owned, k) ==> !HasKey(s.net, k);
    } else if FindsTunGone(s, t) {
      ShrunkAway(a, out.owned, s.net);
    }
  }

  lemma ClaimedRests(a: Network, out: Journal, s: State, t: State)
    requires Claimed(a, out, s)
    requires CallsStart(s, t) || CallsRecovery(s, t) || GivesUp(s, t) || Writes(s, t) || Finalising(s, t)
             || Crashes(s, t) || Restarts(s, t) || ProcessesMove(s, t) || HelperExits(s, t) || Reaped(s, t)
    ensures Claimed(a, out, t) || Done(a, out, t)
  {
  }

  lemma DoneStays(a: Network, out: Journal, s: State, t: State)
    requires Done(a, out, s) && Quiet(s, t)
    ensures Done(a, out, t)
  {
  }

  lemma LostStays(s: State, t: State)
    requires Lost(s) && Quiet(s, t)
    ensures Lost(t)
  {
  }

  lemma PhaseGoesOn(j: Journal, a: Network, s: State, t: State)
    requires Inv(s) && Phase(j, a, s) && Quiet(s, t) && Open(j) && j.schema == SCHEMA && !Blank(j.op)
    ensures Phase(j, a, t)
  {
    if Unclaimed(j, a, s) {
      UnclaimedGoesOn(j, a, s, t);
    } else if Exposed(j, a, s) {
      ExposedGoesOn(j, a, s, t);
    } else if Lost(s) {
      LostStays(s, t);
    } else {
      var out :| Claims(j, a, out) && (Claimed(a, out, s) || Done(a, out, s));
      if Claimed(a, out, s) {
        ClaimedGoesOn(j, a, out, s, t);
      } else {
        DoneStays(a, out, s, t);
      }
    }
  }

  // ---------------------------------------------------------------- convergence

  /** A stretch that starts with an open transaction in the files. */
  ghost predicate Recovering(run: seq<State>, i: nat, j: Journal) {
    IsRun(run) && i < |run| && Load(run[i].disk) == Found(j) && Open(j) && Resting(run[i].pc) && QuietFrom(run, i)
  }

  lemma {:induction false} RecoveryPhases(run: seq<State>, i: nat, n: nat, j: Journal)
    requires Recovering(run, i, j) && i <= n < |run|
    ensures Phase(j, run[i].net, run[n])
    decreases n
  {
    if n == i {
      PhaseBegins(j, run[i]);
    } else {
      RecoveryPhases(run, i, n - 1, j);
      QuietStep(run, i, n - 1);
      PhaseGoesOn(j, run[i].net, run[n - 1], run[n]);
    }
  }

  lemma PhaseBegins(j: Journal, s: State)
    requires Load(s.disk) == Found(j) && Open(j) && Resting(s.pc)
    ensures Phase(j, s.net, s)
  {
    LoadFailsClosed(s.disk);
  }

  lemma QuietStep(run: seq<State>, i: nat, n: nat)
    requires IsRun(run) && QuietFrom(run, i) && i <= n && n + 1 < |run|
    ensures Inv(run[n]) && Quiet(run[n], run[n + 1])
  {
    Reachable(run, n);
    assert QuietAt(run, n);
  }

  /** However often it was interrupted, a recovery that is finished has removed the
      interface and exactly what it claimed when it began. */
  lemma FinishedMeansCleared(run: seq<State>, i: nat, n: nat, j: Journal) returns (out: Journal)
    requires Recovering(run, i, j) && i <= n < |run| && Finished(run[n])
    ensures Claims(j, run[i].net, out) && run[n].net == Cleared(run[i].net, out.owned)
  {
    RecoveryPhases(run, i, n, j);
    out :| Claims(j, run[i].net, out) && (Claimed(run[i].net, out, run[n]) || Done(run[i].net, out, run[n]));
  }

  /** Two recoveries of one transaction on one network end in the same network,
      wherever either of them was cut off, given up, crashed and run again. */
  lemma InterruptionsDoNotMatter(x: seq<State>, i: nat, m: nat, y: seq<State>, k: nat, n: nat, j: Journal)
    requires Recovering(x, i, j) && i <= m < |x| && Finished(x[m])
    requires Recovering(y, k, j) && k <= n < |y| && Finished(y[n]) && y[k].net == x[i].net
    ensures x[m].net == y[n].net
  {
    var out := FinishedMeansCleared(x, i, m, j);
    var other := FinishedMeansCleared(y, k, n, j);
    ClaimsAreDetermined(j, x[i].net, out, other);
  }

  /** The second run begins as the first did, is cut off somewhere, and is taken to
      its end in its own way. */
  ghost predicate CutAndRerun(full: seq<State>, from: nat, c: nat, rest: seq<State>) {
    && IsRun(rest) && from <= c < |full| && c < |rest| && rest[..c + 1] == full[..c + 1]
    && QuietFrom(rest, from) && Finished(rest[|rest| - 1])
  }

  ghost predicate RerunsAgree(full: seq<State>, from: nat, net: Network) {
    forall c: nat, rest: seq<State> :: CutAndRerun(full, from, c, rest) ==> rest[|rest| - 1].net == net
  }

  lemma AllCutsConverge(full: seq<State>, i: nat, j: Journal)
    requires Recovering(full, i, j) && Finished(full[|full| - 1])
    ensures RerunsAgree(full, i, full[|full| - 1].net)
  {
    forall c: nat, rest: seq<State> | CutAndRerun(full, i, c, rest) ensures rest[|rest| - 1].net == full[|full| - 1].net {
      assert rest[i] == rest[..c + 1][i] == full[..c + 1][i] == full[i];
      InterruptionsDoNotMatter(full, i, |full| - 1, rest, i, |rest| - 1, j);
    }
  }

  lemma QuietGrows(run: seq<State>, t: State, from: nat)
    requires from < |run| && QuietFrom(run, from) && Quiet(run[|run| - 1], t)
    ensures QuietFrom(run + [t], from)
  {
    forall i: nat | from <= i && i + 1 < |run + [t]| ensures QuietAt(run + [t], i) {
      if i + 1 < |run| {
        assert QuietAt(run, i);
      }
    }
  }

  lemma OpenMeansJournaled(run: seq<State>, i: nat)
    requires IsRun(run) && i < |run| && Load(run[i].disk).Found?
    ensures !run[i].unjournaled
  {
    Reachable(run, i);
    LoadFailsClosed(run[i].disk);
  }

  /** A recovery that closes the transaction could have been cut off anywhere. */
  lemma ClosedCutsAgree(full: seq<State>, i: nat, was: State, now: State, j: Journal)
    requires Recovering(full, i, j) && full[i] == was && full[|full| - 1] == now
    requires now.disk.primary.None? && !now.pc.Writing? && now.unjournaled == was.unjournaled
    ensures RerunsAgree(full, i, now.net)
  {
    OpenMeansJournaled(full, i);
    AllCutsConverge(full, i, j);
  }
}
