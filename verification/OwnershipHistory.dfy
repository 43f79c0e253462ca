/** Where the claims of a journal come from: the reserved namespace and the deltas
    observed on the networks of its run, merged one after the other. */
module OwnershipHistory {
  import opened Wrappers
  import opened RoutingOwnership
  import opened HostNetwork
  import opened TunnelJournal
  import opened TunnelMachine
  import opened TunnelInvariant

  function PcJournal(pc: Pc): Option<Journal> {
    match pc
    case Guarding(_, j) => Some(j)
    case Capturing(_, j) => Some(j)
    case Quarantining(_, j) => Some(j)
    case Writing(_, j) => Some(j)
    case Mutating(_, j) => Some(j)
    case Verifying(_, j) => Some(j)
    case TunChecking(_, j) => Some(j)
    case CleanWriting(_, j) => Some(j)
    case RemovingPrimary(_, j) => Some(j)
    case RemovingBackup(_, j) => Some(j)
    case ActCapturing(j) => Some(j)
    case _ => None
  }

  predicate Records(j: Option<Journal>, before: Snapshot, owned: Owned) {
    j.Some? && j.value.before == before && j.value.owned == owned
  }

  /** Some journal of the state, in a file or in memory, makes these claims against
      this baseline. */
  predicate Holds(s: State, before: Snapshot, owned: Owned) {
    || Records(DecodeSlot(s.disk.primary), before, owned)
    || Records(DecodeSlot(s.disk.backup), before, owned)
    || Records(PcJournal(s.pc), before, owned)
  }

  // ----------------------------------------------------------------- one step

  ghost predicate Grows(s: State, before: Snapshot, base: Owned, d: Owned, owned: Owned) {
    Holds(s, before, base) && MergeOf(base, d, owned) && ObservedOn(s.net, before, d)
  }

  ghost predicate ObservedOn(net: Network, before: Snapshot, d: Owned) {
    exists snap :: Captures(net, snap) && DeltaOf(before, snap, d)
  }

  ghost predicate Origin(s: State, before: Snapshot, owned: Owned) {
    || Holds(s, before, owned)
    || owned == Reserved()
    || exists base, d :: Grows(s, before, base, d, owned)
  }

  lemma AttributionMerges(j: Journal, snap: Snapshot, out: Journal) returns (d: Owned)
    requires SoundOwnership(j.before, j.owned) && Attributed(j, snap, out) && j.active.None?
    ensures DeltaOf(j.before, snap, d) && MergeOf(j.owned, d, out.owned) && out.before == j.before
  {
    var m;
    d, m :| DeltaOf(j.before, snap, d) && MergeOf(j.owned, d, m) && out == j.(owned := m.(tunnel := TUN_NAME));
    MergeKeepsOwnershipSound(j.before, snap, j.owned, d, m);
  }

  lemma EvidenceMerges(j: Journal, cmd: Option<Proc>, snap: Snapshot, out: Journal) returns (d: Owned)
    requires SoundOwnership(j.before, j.owned) && Evidence(j, cmd, snap, out)
    ensures DeltaOf(j.before, snap, d) && MergeOf(j.owned, d, out.owned) && out.before == j.before
  {
    var m;
    d, m :| DeltaOf(j.before, snap, d) && MergeOf(j.owned, d, m)
            && out == j.(phase := Active, active := Some(snap), owned := m.(tunnel := TUN_NAME),
                         pid := if cmd.Some? then cmd.value.pid else 0,
                         identity := if cmd.Some? then cmd.value.identity else j.identity);
    MergeKeepsOwnershipSound(j.before, snap, j.owned, d, m);
  }

  /** The journal in memory is replaced by one with a delta merged in. */
  lemma MergedInMemory(s: State, t: State, snap: Snapshot, d: Owned, before: Snapshot, owned: Owned)
    requires t.disk == s.disk && PcJournal(s.pc).Some? && PcJournal(t.pc).Some? && Holds(t, before, owned)
    requires var j, out := PcJournal(s.pc).value, PcJournal(t.pc).value;
             Captures(s.net, snap) && DeltaOf(j.before, snap, d) && MergeOf(j.owned, d, out.owned) && out.before == j.before
    ensures Origin(s, before, owned)
  {
    if !Holds(s, before, owned) {
      assert ObservedOn(s.net, before, d);
      assert Grows(s, before, PcJournal(s.pc).value.owned, d, owned);
    }
  }

  lemma SoundInMemory(s: State)
    requires Inv(s) && (s.pc.Capturing? || s.pc.ActCapturing?)
    ensures SoundOwnership(s.pc.j.before, s.pc.j.owned)
  {
  }

  lemma StaleCaptureGrows(s: State, t: State, before: Snapshot, owned: Owned)
    requires Inv(s) && CapturesStale(s, t) && Holds(t, before, owned)
    ensures Origin(s, before, owned)
  {
    SoundInMemory(s);
    var snap :| Captures(s.net, snap) && Attributed(s.pc.j, snap, t.pc.j);
    if s.pc.j.active.None? {
      var d := AttributionMerges(s.pc.j, snap, t.pc.j);
      MergedInMemory(s, t, snap, d, before, owned);
    }
  }

  lemma ActiveCaptureGrows(s: State, t: State, before: Snapshot, owned: Owned)
    requires Inv(s) && CapturesActive(s, t) && Holds(t, before, owned)
    ensures Origin(s, before, owned)
  {
    SoundInMemory(s);
    var snap :| Captures(s.net, snap) && Evidence(s.pc.j, s.cmd, snap, t.pc.j);
    var d := EvidenceMerges(s.pc.j, s.cmd, snap, t.pc.j);
    MergedInMemory(s, t, snap, d, before, owned);
  }

  lemma SurroundingsBringNoClaims(s: State, t: State, before: Snapshot, owned: Owned)
    requires Holds(t, before, owned)
    requires Environment(s, t) || PrimaryDamaged(s, t) || Restarts(s, t) || CallsStart(s, t) || CallsRecovery(s, t)
    ensures Holds(s, before, owned)
  {
  }

  lemma WritesBringNoClaims(s: State, t: State, before: Snapshot, owned: Owned)
    requires Holds(t, before, owned) && (Crashes(s, t) || GivesUp(s, t) || Writes(s, t))
    ensures Holds(s, before, owned)
  {
  }

  lemma FinalisingBringsNoClaims(s: State, t: State, before: Snapshot, owned: Owned)
    requires Holds(t, before, owned) && Finalising(s, t)
    ensures Holds(s, before, owned)
  {
  }

  lemma LoadingBringsNoClaims(s: State, t: State, before: Snapshot, owned: Owned)
    requires Holds(t, before, owned) && (Loads(s, t) || Aborts(s, t) || LoadsForActivation(s, t))
    ensures Holds(s, before, owned)
  {
  }

  lemma GuardingBringsNoClaims(s: State, t: State, before: Snapshot, owned: Owned)
    requires Holds(t, before, owned) && (PassesGuard(s, t) || Quarantines(s, t) || Mutates(s, t))
    ensures Holds(s, before, owned)
  {
  }

  lemma CheckingBringsNoClaims(s: State, t: State, before: Snapshot, owned: Owned)
    requires Holds(t, before, owned) && (FinishesMutating(s, t) || ReportsFailure(s, t) || Verifies(s, t) || FindsTunGone(s, t))
    ensures Holds(s, before, owned)
  {
  }

  lemma RecoveryBringsNoClaims(s: State, t: State, before: Snapshot, owned: Owned)
    requires Holds(t, before, owned) && Recovery(s, t) && !CapturesStale(s, t)
    ensures Holds(s, before, owned)
  {
    if Loads(s, t) {
      LoadingBringsNoClaims(s, t, before, owned);
    } else if PassesGuard(s, t) || Quarantines(s, t) || Mutates(s, t) {
      GuardingBringsNoClaims(s, t, before, owned);
    } else {
      CheckingBringsNoClaims(s, t, before, owned);
    }
  }

  lemma StartingBringsReserved(s: State, t: State, before: Snapshot, owned: Owned)
    requires Holds(t, before, owned)
    requires BeginFindsNoTun(s, t) || BeginPreflights(s, t) || BeginDropsBackup(s, t) || Launches(s, t) || FailsToLaunch(s, t) || BecomesReady(s, t)
    ensures Holds(s, before, owned) || owned == Reserved()
  {
  }

  lemma ClaimsHaveAnOrigin(s: State, t: State, before: Snapshot, owned: Owned)
    requires Inv(s) && Next(s, t) && Holds(t, before, owned)
    ensures Origin(s, before, owned)
  {
    if CapturesStale(s, t) {
      StaleCaptureGrows(s, t, before, owned);
    } else if CapturesActive(s, t) {
      ActiveCaptureGrows(s, t, before, owned);
    } else if Crashes(s, t) || GivesUp(s, t) || Writes(s, t) {
      WritesBringNoClaims(s, t, before, owned);
    } else if Finalising(s, t) {
      FinalisingBringsNoClaims(s, t, before, owned);
    } else if Recovery(s, t) {
      RecoveryBringsNoClaims(s, t, before, owned);
    } else if Aborts(s, t) || LoadsForActivation(s, t) {
      LoadingBringsNoClaims(s, t, before, owned);
    } else if Starting(s, t) {
      StartingBringsReserved(s, t, before, owned);
    } else {
      SurroundingsBringNoClaims(s, t, before, owned);
    }
  }

  // ------------------------------------------------------------------- a run

  ghost predicate ObservedBy(run: seq<State>, n: nat, before: Snapshot, d: Owned) {
    exists m: nat :: m <= n && m < |run| && ObservedOn(run[m].net, before, d)
  }

  /** The record is the reserved one with these deltas merged in, each of them seen
      on a network of the run so far. */
  ghost predicate History(run: seq<State>, n: nat, before: Snapshot, deltas: seq<Owned>, owned: Owned) {
    MergeChain(deltas, owned) && forall i :: 0 <= i < |deltas| ==> ObservedBy(run, n, before, deltas[i])
  }

  lemma HistoryGrows(run: seq<State>, n: nat, before: Snapshot, deltas: seq<Owned>, base: Owned, d: Owned, owned: Owned)
    requires History(run, n, before, deltas, base) && n + 1 < |run| && MergeOf(base, d, owned) && ObservedOn(run[n].net, before, d)
    ensures History(run, n + 1, before, deltas + [d], owned)
  {
    var more := deltas + [d];
    assert more[..|more| - 1] == deltas && more[|more| - 1] == d;
    forall i | 0 <= i < |more| ensures ObservedBy(run, n + 1, before, more[i]) {
      if i < |deltas| {
        assert ObservedBy(run, n, before, deltas[i]);
      }
    }
  }

  /** Every journal of every reachable state, in either file or in memory, has such
      a history. */
  lemma {:induction false} EveryJournalHasAHistory(run: seq<State>, n: nat, before: Snapshot, owned: Owned) returns (deltas: seq<Owned>)
    requires IsRun(run) && n < |run| && Holds(run[n], before, owned)
    ensures History(run, n, before, deltas, owned)
    decreases n
  {
    deltas := [];
    if n == 0 {
      NothingAtFirst(run[0], before, owned);
    } else {
      var s := run[n - 1];
      OriginInRun(run, n, before, owned);
      if Holds(s, before, owned) {
        deltas := EveryJournalHasAHistory(run, n - 1, before, owned);
        HistoryLasts(run, n - 1, before, deltas, owned);
      } else if owned != Reserved() {
        var base, d :| Grows(s, before, base, d, owned);
        deltas := EveryJournalHasAHistory(run, n - 1, before, base);
        HistoryGrows(run, n - 1, before, deltas, base, d, owned);
        deltas := deltas + [d];
      }
    }
  }

  lemma NothingAtFirst(s: State, before: Snapshot, owned: Owned)
    requires Init(s)
    ensures !Holds(s, before, owned)
  {
  }

  lemma OriginInRun(run: seq<State>, n: nat, before: Snapshot, owned: Owned)
    requires IsRun(run) && 0 < n < |run| && Holds(run[n], before, owned)
    ensures Origin(run[n - 1], before, owned)
  {
    Reachable(run, n - 1);
    assert StepAt(run, n - 1);
    ClaimsHaveAnOrigin(run[n - 1], run[n], before, owned);
  }

  lemma HistoryLasts(run: seq<State>, n: nat, before: Snapshot, deltas: seq<Owned>, owned: Owned)
    requires History(run, n, before, deltas, owned)
    ensures History(run, n + 1, before, deltas, owned)
  {
    forall i | 0 <= i < |deltas| ensures ObservedBy(run, n + 1, before, deltas[i]) {
      assert ObservedBy(run, n, before, deltas[i]);
    }
  }

  /** The root helper accepts a journal of the protocol exactly when every delta
      that was observed and merged into it lies inside the reserved namespace. */
  lemma RootHelperAcceptsExactly(run: seq<State>, n: nat, j: Journal) returns (deltas: seq<Owned>)
    requires IsRun(run) && n < |run| && DecodeSlot(run[n].disk.primary) == Some(j)
    ensures History(run, n, j.before, deltas, j.owned)
    ensures Accepted(j.owned) <==> forall i :: 0 <= i < |deltas| ==> ReservedOnly(deltas[i])
  {
    deltas := EveryJournalHasAHistory(run, n, j.before, j.owned);
    SoundPrimary(run, n, j);
    AcceptedExactly(j.before, j.owned);
    ChainIsReservedExactlyWhenEveryDeltaIs(deltas, j.owned);
  }

  lemma SoundPrimary(run: seq<State>, n: nat, j: Journal)
    requires IsRun(run) && n < |run| && DecodeSlot(run[n].disk.primary) == Some(j)
    ensures SoundOwnership(j.before, j.owned)
  {
    Reachable(run, n);
  }
}
