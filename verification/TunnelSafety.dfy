/** What every run of the tunnel machine keeps, whatever is interrupted. */
module TunnelSafety {
  import opened Wrappers
  import opened RoutingOwnership
  import opened HostNetwork
  import opened TunnelJournal
  import opened TunnelMachine
  import opened TunnelInvariant

  function Primary(s: State): Option<Journal> {
    DecodeSlot(s.disk.primary)
  }

  function Backup(s: State): Option<Journal> {
    DecodeSlot(s.disk.backup)
  }

  // ------------------------------------------------------------- write-ahead

  /** Whatever the helper has put on the host, an open, decodable primary claims
      it: the whole reserved namespace and every helper object outside the TUN. */
  lemma WriteAheadSafety(run: seq<State>, i: nat)
    requires IsRun(run) && i < |run| && !run[i].corrupted && HelperState(run[i])
    ensures Primary(run[i]).Some?
    ensures var j := Primary(run[i]).value;
            && Open(j) && j.owned.tunnel == TUN_NAME
            && (forall k :: IsReserved(k) ==> Owns(j.owned, k))
            && (forall e | e in run[i].net.entries && e.origin == Helper :: Owns(j.owned, e.key) || e.dev == TUN_NAME)
  {
    Reachable(run, i);
  }

  /** With damage to the primary allowed at any time: helper state goes unreported
      exactly when a recovery was cut off inside the quarantine window. */
  lemma SilentLossOnlyInTheWindow(run: seq<State>, i: nat)
    requires IsRun(run) && i < |run| && HelperState(run[i])
    ensures Load(run[i].disk).Nothing? <==> run[i].unjournaled || InWindow(run[i].pc, run[i].disk)
  {
    Reachable(run, i);
  }

  /** Even then no helper is ever launched on top of leftovers. */
  lemma LaunchFindsNothingLeft(run: seq<State>, i: nat)
    requires IsRun(run) && i + 1 < |run| && Launches(run[i], run[i + 1])
    ensures !HelperState(run[i])
  {
    Reachable(run, i);
  }

  // ------------------------------------------------------- owner and baseline

  /** The network is touched only while no helper runs and the process recorded
      in the journal is gone, even if its PID has been reused. */
  lemma LiveOwnerExclusion(run: seq<State>, i: nat)
    requires IsRun(run) && i + 1 < |run| && Mutates(run[i], run[i + 1])
    ensures run[i].helper.None?
    ensures var j := run[i].pc.j; j.pid > 0 ==> Proc(j.pid, j.identity) !in run[i].live
  {
    Reachable(run, i);
  }

  /** Every journal on disk keeps its claims disjoint from its baseline. */
  lemma JournalsNeverClaimTheBaseline(run: seq<State>, i: nat)
    requires IsRun(run) && i < |run|
    ensures Primary(run[i]).Some? ==> SoundOwnership(Primary(run[i]).value.before, Primary(run[i]).value.owned)
    ensures Backup(run[i]).Some? ==> SoundOwnership(Backup(run[i]).value.before, Backup(run[i]).value.owned)
  {
    Reachable(run, i);
  }

  /** A recovery command never removes a rule at a priority, or a route in a
      table, that the transaction's baseline already had, unless the route leaves
      by the tunnel interface. */
  lemma BaselinePreservation(run: seq<State>, i: nat, e: Entry)
    requires IsRun(run) && i + 1 < |run| && Mutates(run[i], run[i + 1])
    requires e in run[i].net.entries && e !in run[i + 1].net.entries
    ensures e.dev == TUN_NAME || (Owns(run[i].pc.j.owned, e.key) && !Shows(run[i].pc.j.before, e.key) && !IsMain(e.key))
  {
    Reachable(run, i);
    CommandTouchesOnlyOwned(run[i].pc.j.owned, run[i].net, run[i + 1].net);
  }

  /** Every other step of the control plane leaves the network as it is. */
  lemma OnlyRecoveryTouchesTheNetwork(run: seq<State>, i: nat)
    requires IsRun(run) && i + 1 < |run| && run[i + 1].net != run[i].net
    ensures NetworkMoves(run[i], run[i + 1]) || (Mutates(run[i], run[i + 1]) && run[i].pc.Mutating?)
  {
    assert StepAt(run, i);
    NetworkChangesOnlyBy(run[i], run[i + 1]);
  }

  // ---------------------------------------------------------------- freezing

  lemma FreezeStep(s: State, t: State)
    requires Inv(s) && Next(s, t)
    requires Primary(s).Some? && Primary(s).value.active.Some? && Primary(t).Some?
    ensures Continues(Primary(s).value, Primary(t).value)
  {
    if t.disk.primary != s.disk.primary {
      PrimaryChangesOnlyBy(s, t);
      FreezeWrite(s, t.disk);
    }
  }

  lemma FreezeWrite(s: State, d: Disk)
    requires Inv(s) && s.pc.Writing? && Primary(s).Some? && Primary(s).value.active.Some?
    requires d.primary == Some(Encode(s.pc.j)) && DecodeSlot(d.primary).Some?
    ensures Continues(Primary(s).value, DecodeSlot(d.primary).value)
  {
    DecodeInvertsEncode(s.pc.j);
  }

  /** Once active evidence is durable, and for as long as the primary decodes,
      neither the claims nor the baseline nor the recorded owner change. */
  lemma {:induction false} OwnershipFreeze(run: seq<State>, i: nat, n: nat)
    requires IsRun(run) && i <= n < |run|
    requires forall m :: i <= m <= n ==> Primary(run[m]).Some?
    requires Primary(run[i]).value.active.Some?
    ensures Continues(Primary(run[i]).value, Primary(run[n]).value)
    decreases n
  {
    if i < n {
      OwnershipFreeze(run, i, n - 1);
      Reachable(run, n - 1);
      assert StepAt(run, n - 1);
      FreezeStep(run[n - 1], run[n]);
    }
  }

  // ---------------------------------------------------------- foreign state

  /** The transaction does not claim the key and can no longer come to claim it. */
  predicate JournalSpares(j: Journal, k: Key) {
    !Owns(j.owned, k) && (j.active.Some? || Shows(j.before, k) || IsMain(k))
  }

  predicate PcSpares(pc: Pc, k: Key) {
    match pc
    case Guarding(_, j) => JournalSpares(j, k)
    case Capturing(_, j) => JournalSpares(j, k)
    case Quarantining(_, j) => JournalSpares(j, k)
    case Writing(_, j) => JournalSpares(j, k)
    case Mutating(_, j) => JournalSpares(j, k)
    case Verifying(_, j) => JournalSpares(j, k)
    case ActCapturing(j) => JournalSpares(j, k)
    case BeginDropping(before) => Shows(before, k)
    case _ => true
  }

  /** A backup that would answer for a damaged primary spares the key. */
  predicate BackupSpares(d: Disk, k: Key) {
    DecodeSlot(d.backup).Some? && Fresh(d, DecodeSlot(d.backup).value.op) ==> JournalSpares(DecodeSlot(d.backup).value, k)
  }

  predicate PrimarySpares(d: Disk, k: Key) {
    DecodeSlot(d.primary).Some? ==> JournalSpares(DecodeSlot(d.primary).value, k)
  }

  /** `damage`: the primary may be damaged, so that the backup counts as well. */
  predicate Spares(s: State, k: Key, damage: bool) {
    && PrimarySpares(s.disk, k) && PcSpares(s.pc, k)
    && (damage && (s.disk.primary.Some? || s.pc.Writing?) ==> BackupSpares(s.disk, k))
  }

  lemma MergedClaimsSpare(before: Snapshot, base: Owned, snap: Snapshot, d: Owned, m: Owned, k: Key)
    requires DeltaOf(before, snap, d) && MergeOf(base, d, m) && (Shows(before, k) || IsMain(k)) && !Owns(base, k)
    ensures !Owns(m.(tunnel := TUN_NAME), k)
  {
  }

  lemma StaleCaptureSpares(s: State, t: State, k: Key)
    requires Inv(s) && PcSpares(s.pc, k) && CapturesStale(s, t)
    ensures PcSpares(t.pc, k)
  {
    var j := s.pc.j;
    if j.active.None? {
      var snap :| Captures(s.net, snap) && Attributed(j, snap, t.pc.j);
      var d, m :| DeltaOf(j.before, snap, d) && MergeOf(j.owned, d, m) && t.pc.j == j.(owned := m.(tunnel := TUN_NAME));
      MergedClaimsSpare(j.before, j.owned, snap, d, m, k);
    }
  }

  lemma ActiveCaptureSpares(s: State, t: State, k: Key)
    requires Inv(s) && PcSpares(s.pc, k) && CapturesActive(s, t)
    ensures PcSpares(t.pc, k)
  {
    var j := s.pc.j;
    var snap :| Captures(s.net, snap) && Evidence(j, s.cmd, snap, t.pc.j);
    var d, m :| DeltaOf(j.before, snap, d) && MergeOf(j.owned, d, m)
                && t.pc.j == j.(phase := Active, active := Some(snap), owned := m.(tunnel := TUN_NAME),
                                pid := if s.cmd.Some? then s.cmd.value.pid else 0,
                                identity := if s.cmd.Some? then s.cmd.value.identity else j.identity);
    MergedClaimsSpare(j.before, j.owned, snap, d, m, k);
  }

  lemma BeginSpares(s: State, t: State, k: Key)
    requires Inv(s) && PcSpares(s.pc, k) && HasKey(s.net, k) && (BeginPreflights(s, t) || BeginDropsBackup(s, t))
    ensures PcSpares(t.pc, k)
  {
    ReservedOwnsExactlyTheNamespace();
  }

  // What a step does to the primary and to the program counter ...

  lemma FilesSpare(s: State, t: State, k: Key)
    requires Inv(s) && Spares(s, k, false) && (Crashes(s, t) || GivesUp(s, t) || Writes(s, t))
    ensures Spares(t, k, false)
  {
    if s.pc.Writing? {
      DecodeInvertsEncode(s.pc.j);
    }
  }

  lemma SurroundingsSpare(s: State, t: State, k: Key)
    requires Spares(s, k, false)
    requires Environment(s, t) || PrimaryDamaged(s, t) || Restarts(s, t) || CallsStart(s, t) || CallsRecovery(s, t)
    ensures Spares(t, k, false)
  {
  }

  lemma RecoverySpares(s: State, t: State, k: Key, damage: bool)
    requires Inv(s) && Spares(s, k, damage) && (damage || !s.corrupted)
    requires Loads(s, t) || PassesGuard(s, t) || Quarantines(s, t) || FinishesMutating(s, t)
             || ReportsFailure(s, t) || Verifies(s, t) || FindsTunGone(s, t)
    ensures Spares(t, k, false)
  {
  }

  lemma LifecycleSpares(s: State, t: State, k: Key)
    requires Spares(s, k, false)
    requires Finalising(s, t) || BeginFindsNoTun(s, t) || Launches(s, t) || FailsToLaunch(s, t) || Aborts(s, t) || BecomesReady(s, t)
    ensures Spares(t, k, false)
  {
  }

  lemma ActivationLoadSpares(s: State, t: State, k: Key, damage: bool)
    requires Inv(s) && Spares(s, k, damage) && (damage || !s.corrupted) && LoadsForActivation(s, t)
    ensures Spares(t, k, false)
  {
  }

  lemma CapturingStepSpares(s: State, t: State, k: Key, damage: bool)
    requires Inv(s) && Spares(s, k, damage) && (damage || !s.corrupted) && HasKey(s.net, k)
    requires (Recovery(s, t) && !Mutates(s, t)) || Starting(s, t)
    ensures Spares(t, k, false)
  {
    if CapturesStale(s, t) {
      StaleCaptureSpares(s, t, k);
    } else if CapturesActive(s, t) {
      ActiveCaptureSpares(s, t, k);
    } else if BeginPreflights(s, t) || BeginDropsBackup(s, t) {
      BeginSpares(s, t, k);
    } else if Recovery(s, t) {
      RecoverySpares(s, t, k, damage);
    } else if LoadsForActivation(s, t) {
      ActivationLoadSpares(s, t, k, damage);
    } else {
      LifecycleSpares(s, t, k);
    }
  }

  lemma ControlStepSpares(s: State, t: State, k: Key, damage: bool)
    requires Inv(s) && Spares(s, k, damage) && (damage || !s.corrupted) && HasKey(s.net, k)
    requires ControlPlane(s, t) && !Mutates(s, t)
    ensures Spares(t, k, false)
  {
    if GivesUp(s, t) || Writes(s, t) {
      FilesSpare(s, t, k);
    } else if Finalising(s, t) {
      LifecycleSpares(s, t, k);
    } else if Recovery(s, t) || Starting(s, t) {
      CapturingStepSpares(s, t, k, damage);
    } else {
      SurroundingsSpare(s, t, k);
    }
  }

  // ... and to the backup.

  lemma BackupWritten(s: State, t: State, k: Key)
    requires Inv(s) && Spares(s, k, true) && s.pc.Writing? && (Writes(s, t) || Crashes(s, t) || GivesUp(s, t))
    ensures t.disk.primary.Some? ==> BackupSpares(t.disk, k)
    ensures !t.pc.Writing?
  {
  }

  lemma BackupRecorded(s: State, t: State, k: Key)
    requires Inv(s) && Spares(s, k, true) && (Finalising(s, t) || (s.pc.CleanWriting? && (Crashes(s, t) || GivesUp(s, t))))
    ensures t.disk.primary.Some? ==> BackupSpares(t.disk, k)
    ensures !t.pc.Writing?
  {
  }

  lemma BackupUntouched(s: State, t: State, k: Key)
    requires Spares(s, k, true) && !s.pc.CleanWriting? && !s.pc.Writing?
    requires Restarts(s, t) || Crashes(s, t) || GivesUp(s, t) || CallsStart(s, t) || CallsRecovery(s, t)
    ensures t.disk.primary.Some? || t.pc.Writing? ==> BackupSpares(t.disk, k)
  {
  }

  lemma BackupWhileRecovering(s: State, t: State, k: Key)
    requires Inv(s) && Spares(s, k, true) && Recovery(s, t)
    ensures t.disk.primary.Some? || t.pc.Writing? ==> BackupSpares(t.disk, k)
  {
    RecoveryKeepsBackup(s, t);
  }

  lemma RecoveryKeepsBackup(s: State, t: State)
    requires Inv(s) && Recovery(s, t)
    ensures t.disk.backup == s.disk.backup && t.disk.lastClean == s.disk.lastClean
    ensures t.disk.primary.Some? || t.pc.Writing? ==> s.disk.primary.Some?
  {
  }

  lemma BackupWhileStarting(s: State, t: State, k: Key)
    requires Inv(s) && Spares(s, k, true) && Starting(s, t)
    ensures t.disk.primary.Some? || t.pc.Writing? ==> BackupSpares(t.disk, k)
  {
    StartingKeepsBackup(s, t);
  }

  lemma StartingKeepsBackup(s: State, t: State)
    requires Inv(s) && Starting(s, t)
    ensures t.disk.backup.None? || t.disk == s.disk
    ensures t.disk.backup.Some? && (t.disk.primary.Some? || t.pc.Writing?) ==> s.disk.primary.Some?
  {
  }

  lemma BackupStep(s: State, t: State, k: Key)
    requires Inv(s) && Spares(s, k, true) && Next(s, t)
    ensures t.disk.primary.Some? || t.pc.Writing? ==> BackupSpares(t.disk, k)
  {
    if Environment(s, t) || PrimaryDamaged(s, t) {
      BackupAround(s, t, k);
    } else if s.pc.Writing? && (Writes(s, t) || Crashes(s, t) || GivesUp(s, t)) {
      BackupWritten(s, t, k);
    } else if Finalising(s, t) || (s.pc.CleanWriting? && (Crashes(s, t) || GivesUp(s, t))) {
      BackupRecorded(s, t, k);
    } else if Starting(s, t) {
      BackupWhileStarting(s, t, k);
    } else if Recovery(s, t) {
      BackupWhileRecovering(s, t, k);
    } else {
      BackupUntouched(s, t, k);
    }
  }

  lemma BackupAround(s: State, t: State, k: Key)
    requires Spares(s, k, true) && (Environment(s, t) || PrimaryDamaged(s, t))
    ensures t.disk.primary.Some? || t.pc.Writing? ==> BackupSpares(t.disk, k)
  {
  }

  lemma MutationSpares(s: State, t: State, e: Entry)
    requires Mutates(s, t) && Spares(s, e.key, false) && e in s.net.entries && e.dev != TUN_NAME
    ensures e in t.net.entries && Spares(t, e.key, false)
  {
    CommandTouchesOnlyOwned(s.pc.j.owned, s.net, t.net);
  }

  lemma SpareStep(s: State, t: State, e: Entry, damage: bool)
    requires Inv(s) && Next(s, t) && (damage || !s.corrupted) && Spares(s, e.key, damage)
    requires e in s.net.entries && e.dev != TUN_NAME
    requires e !in t.net.entries ==> Mutates(s, t)
    ensures e in t.net.entries && Spares(t, e.key, damage)
  {
    if damage {
      BackupStep(s, t, e.key);
    }
    SpareForward(s, t, e, damage);
  }

  lemma SpareForward(s: State, t: State, e: Entry, damage: bool)
    requires Inv(s) && Next(s, t) && (damage || !s.corrupted) && Spares(s, e.key, damage)
    requires e in s.net.entries && e.dev != TUN_NAME
    requires e !in t.net.entries ==> Mutates(s, t)
    ensures e in t.net.entries && Spares(t, e.key, false)
  {
    if Mutates(s, t) {
      MutationSpares(s, t, e);
    } else if ControlPlane(s, t) {
      assert HasKey(s.net, e.key);
      ControlStepSpares(s, t, e.key, damage);
    } else if Crashes(s, t) {
      FilesSpare(s, t, e.key);
    } else {
      SurroundingsSpare(s, t, e.key);
    }
  }

  /** Whatever removes the entry between i and n is a recovery command. */
  ghost predicate OnlyRecoveryRemoves(run: seq<State>, i: nat, n: nat, e: Entry)
    requires n < |run|
  {
    forall m :: i <= m < n && e in run[m].net.entries && e !in run[m + 1].net.entries ==> Mutates(run[m], run[m + 1])
  }

  /** A route or rule that is spared survives every later start, stop, crash and
      recovery, and every damage to the primary if damage was reckoned with. */
  lemma {:induction false} SparedStateSurvives(run: seq<State>, i: nat, n: nat, e: Entry, damage: bool)
    requires IsRun(run) && i <= n < |run| && (damage || !run[n].corrupted)
    requires e in run[i].net.entries && e.dev != TUN_NAME && Spares(run[i], e.key, damage)
    requires OnlyRecoveryRemoves(run, i, n, e)
    ensures e in run[n].net.entries && Spares(run[n], e.key, damage)
    decreases n
  {
    if i < n {
      DamageIsPermanent(run, n - 1);
      SparedStateSurvives(run, i, n - 1, e, damage);
      Reachable(run, n - 1);
      assert StepAt(run, n - 1);
      SpareStep(run[n - 1], run[n], e, damage);
    }
  }

  /** What was there while no transaction was open is never lost, however often the
      primary is damaged. */
  lemma BaselineSurvivesEverything(run: seq<State>, i: nat, n: nat, e: Entry)
    requires IsRun(run) && i <= n < |run| && OnlyRecoveryRemoves(run, i, n, e)
    requires run[i].disk.primary.None? && (run[i].pc.Idle? || run[i].pc.Down?)
    requires e in run[i].net.entries && e.dev != TUN_NAME
    ensures e in run[n].net.entries
  {
    SparedStateSurvives(run, i, n, e, true);
  }

  /** Neither is what the baselines of both journal files show. */
  lemma RecordedBaselineSurvivesEverything(run: seq<State>, i: nat, n: nat, e: Entry)
    requires IsRun(run) && i <= n < |run| && OnlyRecoveryRemoves(run, i, n, e)
    requires run[i].pc.Idle? || run[i].pc.Down?
    requires Primary(run[i]).Some? ==> Shows(Primary(run[i]).value.before, e.key)
    requires Backup(run[i]).Some? ==> Shows(Backup(run[i]).value.before, e.key)
    requires e in run[i].net.entries && e.dev != TUN_NAME
    ensures e in run[n].net.entries
  {
    JournalsNeverClaimTheBaseline(run, i);
    SparedStateSurvives(run, i, n, e, true);
  }

  lemma DamageIsPermanent(run: seq<State>, i: nat)
    requires IsRun(run) && i + 1 < |run|
    ensures run[i].corrupted ==> run[i + 1].corrupted
  {
    assert StepAt(run, i);
  }

  // ------------------------------------------------------------ backup files

  /** Both files always belong to one operation, and an operation recorded as
      clean has nothing left on the host: refusing its backup strands nothing. */
  lemma BackupCoherence(run: seq<State>, i: nat)
    requires IsRun(run) && i < |run|
    ensures Primary(run[i]).Some? && Backup(run[i]).Some? ==> Primary(run[i]).value.op == Backup(run[i]).value.op
    ensures !run[i].corrupted ==> (run[i].disk.primary.Some? ==> Primary(run[i]).Some?) && (run[i].disk.backup.Some? ==> Backup(run[i]).Some?)
    ensures DecodeSlot(run[i].disk.lastClean).Some? && HelperState(run[i]) ==>
              var clean := DecodeSlot(run[i].disk.lastClean).value.op;
              && (Primary(run[i]).Some? ==> Primary(run[i]).value.op != clean)
              && (Backup(run[i]).Some? ==> Backup(run[i]).value.op != clean)
  {
    Reachable(run, i);
  }

  /** The snapshot that lets a recovery finish also passes the next preflight,
      and nothing the helper created outside the TUN is left. */
  lemma CleanStatePassesPreflight(run: seq<State>, i: nat, post: Snapshot)
    requires IsRun(run) && i + 1 < |run| && Verifies(run[i], run[i + 1])
    requires Captures(run[i].net, post)
    ensures ReservedFree(post)
    ensures OnlyTunEntries(run[i].net)
  {
    Reachable(run, i);
    var seen :| Captures(run[i].net, seen) && OwnedAbsent(seen, run[i].pc.j.owned);
    forall k ensures Shows(post, k) <==> Shows(seen, k) {}
    CleanImpliesRestartable(run[i].pc.j.before, post, run[i].pc.j.owned);
    VerifiedLeavesOnlyTunEntries(run[i], seen);
  }
}
