/** The inductive invariant of the tunnel machine. */
module TunnelInvariant {
  import opened Wrappers
  import opened RoutingOwnership
  import opened HostNetwork
  import opened TunnelJournal
  import opened TunnelMachine
  import AtomicFile

  /** Something on the host exists because the helper ran. */
  predicate HelperState(s: State) {
    s.helper.Some? || HelperCreated(s.net)
  }

  /** What is true of every journal the protocol ever writes to the primary. */
  ghost predicate Good(ops: set<string>, spent: set<Proc>, j: Journal) {
    && SoundOwnership(j.before, j.owned)
    && Open(j) && j.schema == SCHEMA && !Blank(j.op) && j.op in ops
    && j.pid >= 0
    && (j.pid > 0 ==> j.identity != "" && Proc(j.pid, j.identity) in spent)
    && (j.active.None? ==> j.pid == 0)
  }

  /** No operation of this id has been recorded as clean. */
  predicate Fresh(d: Disk, op: string) {
    match DecodeSlot(d.lastClean)
    case Some(c) => c.op != op
    case None => true
  }

  /** The same transaction, with frozen ownership once there is active evidence. */
  predicate Continues(d: Journal, j: Journal) {
    && d.op == j.op && d.before == j.before && d.active == j.active
    && d.pid == j.pid && d.identity == j.identity
    && (d.active.Some? ==> d.owned == j.owned)
  }

  /** `busy`: something of a helper exists. An operation recorded as clean has
      nothing left on the host. */
  ghost predicate GoodSlot(d: Disk, ops: set<string>, spent: set<Proc>, busy: bool, slot: Option<Content>) {
    match DecodeSlot(slot)
    case Some(j) => Good(ops, spent, j) && (Fresh(d, j.op) || !busy)
    case None => true
  }

  ghost predicate DiskInv(d: Disk, ops: set<string>, spent: set<Proc>, busy: bool, corrupted: bool) {
    && GoodSlot(d, ops, spent, busy, d.primary)
    && GoodSlot(d, ops, spent, busy, d.backup)
    && SameOperation(d)
    && (DecodeSlot(d.lastClean).Some? ==> DecodeSlot(d.lastClean).value.op in ops)
    && (!corrupted ==> Readable(d.primary) && Readable(d.backup))
  }

  predicate SameOperation(d: Disk) {
    DecodeSlot(d.primary).Some? && DecodeSlot(d.backup).Some? ==> DecodeSlot(d.primary).value.op == DecodeSlot(d.backup).value.op
  }

  predicate Readable(slot: Option<Content>) {
    slot.Some? ==> DecodeSlot(slot).Some?
  }

  ghost predicate HostInv(s: State) {
    && WellFormed(s.net)
    && (forall e | e in s.net.entries :: e.origin == Helper ==> HelperMayCreate(e))
    && s.live <= s.spent && UniquePids(s.live)
    && (s.helper.Some? ==> s.helper.value in s.live && s.helper.value.pid > 0 && s.helper.value.identity != "")
    && (s.cmd.Some? ==> s.cmd.value in s.spent && s.cmd.value.pid > 0 && s.cmd.value.identity != "")
  }

  ghost predicate OwnerInv(s: State) {
    && (s.helper.Some? && !s.pc.Down? && s.cmd != s.helper ==> Recorded(s.disk.primary, s.helper.value))
    && (s.cmd.Some? ==> s.pc.Idle? || s.pc.Awaiting? || s.pc.ActLoading? || s.pc.ActCapturing? || (s.pc.Writing? && s.pc.p.ToActivate?))
  }

  /** Nothing of the helper exists without a primary journal file. */
  ghost predicate WriteAhead(s: State) {
    && (HelperState(s) ==> s.disk.primary.Some? || s.unjournaled || InWindow(s.pc, s.disk))
    && (s.unjournaled ==> s.corrupted && s.disk.primary.None?)
  }

  /** The in-memory journal of a running recovery belongs to what is on disk. */
  ghost predicate InFlight(d: Disk, ops: set<string>, spent: set<Proc>, busy: bool, corrupted: bool, j: Journal) {
    && Good(ops, spent, j) && (Fresh(d, j.op) || !busy)
    && (DecodeSlot(d.primary).Some? ==> Continues(DecodeSlot(d.primary).value, j))
    && (DecodeSlot(d.backup).Some? ==> DecodeSlot(d.backup).value.op == j.op)
    && (j.fromBackup ==> corrupted && DecodeSlot(d.primary).None?)
  }

  predicate Dead(live: set<Proc>, j: Journal) {
    j.pid > 0 ==> Proc(j.pid, j.identity) !in live
  }

  ghost predicate Carries(s: State, j: Journal) {
    InFlight(s.disk, s.ops, s.spent, HelperState(s), s.corrupted, j)
  }

  /** Recovery owns the transaction: no helper, and the recorded owner is gone. */
  ghost predicate Exclusive(s: State, j: Journal) {
    Carries(s, j) && s.helper.None? && Dead(s.live, j)
  }

  /** A transaction that has not been activated: no backup, no active evidence. */
  predicate Unactivated(d: Disk) {
    && d.primary.Some? && d.backup.None?
    && (DecodeSlot(d.primary).Some? ==> DecodeSlot(d.primary).value.active.None?)
  }

  predicate OnlyTunEntries(net: Network) {
    forall e | e in net.entries :: e.origin == Helper ==> e.dev == TUN_NAME
  }

  predicate NoTunEntries(net: Network) {
    net.tun != Some(Helper) && forall e | e in net.entries :: e.origin == Helper ==> e.dev != TUN_NAME
  }

  predicate FreshPrimary(d: Disk) {
    DecodeSlot(d.primary).Some? ==> Fresh(d, DecodeSlot(d.primary).value.op)
  }

  ghost predicate PcInv(s: State) {
    match s.pc
    case Down => true
    case Idle => true
    case Loading(k) => !k.ForAbort?
    case Guarding(k, j) => Carries(s, j) && s.disk.primary.Some? && !k.ForAbort?
    case Capturing(k, j) => Exclusive(s, j) && s.disk.primary.Some? && !k.ForAbort?
    case Quarantining(k, j) => Exclusive(s, j) && s.disk.primary.Some? && !k.ForAbort?
    case Writing(p, j) => !j.fromBackup && WritingInv(s, p, j)
    case Mutating(k, j) => Exclusive(s, j) && !j.fromBackup && s.disk.primary.Some? && !k.ForAbort?
    case Verifying(k, j) => Exclusive(s, j) && !j.fromBackup && s.disk.primary.Some? && !k.ForAbort?
    case TunChecking(k, j) =>
      Exclusive(s, j) && !j.fromBackup && s.disk.primary.Some? && !k.ForAbort? && OnlyTunEntries(s.net)
    case CleanWriting(k, j) => !HelperState(s) && s.disk.primary.Some? && j.op in s.ops && Recordable(s.disk, j)
    case RemovingPrimary(k, j) => !HelperState(s)
    case RemovingBackup(k, j) => !HelperState(s) && s.disk.primary.None?
    case BeginTunChecking => s.disk.primary.None?
    case BeginCapturing => s.disk.primary.None? && NoTunEntries(s.net)
    case BeginDropping(before) => s.disk.primary.None? && !HelperState(s) && ReservedFree(before) && !s.unjournaled
    case Launching => Unactivated(s.disk) && FreshPrimary(s.disk) && !HelperState(s) && !s.unjournaled
    case Aborting => Unactivated(s.disk) && !HelperState(s)
    case Awaiting => Unactivated(s.disk)
    case ActLoading => Unactivated(s.disk)
    case ActCapturing(j) => Unactivated(s.disk) && Carries(s, j) && j.active.None? && !j.fromBackup
  }

  /** A last-clean record that decodes and names the operation of the backup. */
  predicate Recordable(d: Disk, j: Journal) {
    Decode(Encode(j)).Some? && (DecodeSlot(d.backup).Some? ==> DecodeSlot(d.backup).value.op == j.op)
  }

  ghost predicate WritingInv(s: State, p: Purpose, j: Journal) {
    match p
    case ToPrepare =>
      && s.disk.primary.None? && s.disk.backup.None? && !HelperState(s) && !s.unjournaled
      && Good(s.ops, s.spent, j) && j.phase.Prepared? && j.active.None? && Fresh(s.disk, j.op)
    case ToActivate =>
      && Unactivated(s.disk) && Good(s.ops, s.spent, j) && (Fresh(s.disk, j.op) || !HelperState(s)) && j.active.Some?
      && (DecodeSlot(s.disk.primary).Some? ==>
            DecodeSlot(s.disk.primary).value.op == j.op && DecodeSlot(s.disk.primary).value.before == j.before)
      && (s.helper.Some? ==> s.helper.value.pid == j.pid && s.helper.value.identity == j.identity)
    case ToRecover(k) =>
      Exclusive(s, j) && !k.ForAbort? && j.phase.Recovering? && (s.disk.primary.None? ==> s.corrupted) && !s.unjournaled
    case ToReportFailure => Exclusive(s, j) && s.disk.primary.Some?
  }

  ghost predicate Inv(s: State) {
    && DiskInv(s.disk, s.ops, s.spent, HelperState(s), s.corrupted)
    && HostInv(s) && OwnerInv(s) && WriteAhead(s) && PcInv(s)
  }

  lemma InitHolds(s: State)
    requires Init(s)
    ensures Inv(s)
  {
  }

  // --------------------------------------------------------- monotone parts

  lemma GoodGrows(ops: set<string>, spent: set<Proc>, ops': set<string>, spent': set<Proc>, j: Journal)
    requires Good(ops, spent, j) && ops <= ops' && spent <= spent'
    ensures Good(ops', spent', j)
  {
  }

  lemma DiskInvGrows(d: Disk, ops: set<string>, spent: set<Proc>, busy: bool, ops': set<string>, spent': set<Proc>, busy': bool, corrupted: bool)
    requires DiskInv(d, ops, spent, busy, corrupted) && ops <= ops' && spent <= spent' && (busy' ==> busy)
    ensures DiskInv(d, ops', spent', busy', corrupted)
  {
    if DecodeSlot(d.primary).Some? {
      GoodGrows(ops, spent, ops', spent', DecodeSlot(d.primary).value);
    }
    if DecodeSlot(d.backup).Some? {
      GoodGrows(ops, spent, ops', spent', DecodeSlot(d.backup).value);
    }
  }

  lemma InFlightGrows(d: Disk, ops: set<string>, spent: set<Proc>, busy: bool, spent': set<Proc>, busy': bool, corrupted: bool, j: Journal)
    requires InFlight(d, ops, spent, busy, corrupted, j) && spent <= spent' && (busy' ==> busy)
    ensures InFlight(d, ops, spent', busy', corrupted, j)
  {
    GoodGrows(ops, spent, ops, spent', j);
  }

  /** Only the host changes, and no helper state appears. */
  ghost predicate HostStep(s: State, t: State) {
    && t == s.(net := t.net, live := t.live, spent := t.spent, helper := t.helper)
    && s.spent <= t.spent
    && (HelperState(t) ==> HelperState(s))
    && (t.helper == s.helper || t.helper.None?)
    && (forall p :: p in s.spent && p !in s.live ==> p !in t.live)
    && (s.helper.None? && OnlyTunEntries(s.net) ==> OnlyTunEntries(t.net))
    && (s.helper.None? && NoTunEntries(s.net) ==> NoTunEntries(t.net))
  }

  lemma LocalJournalSurvives(s: State, t: State, j: Journal)
    requires HostStep(s, t)
    ensures Good(s.ops, s.spent, j) ==> Good(t.ops, t.spent, j)
    ensures Carries(s, j) ==> Carries(t, j)
    ensures Exclusive(s, j) ==> Exclusive(t, j)
  {
    if Good(s.ops, s.spent, j) {
      GoodGrows(s.ops, s.spent, t.ops, t.spent, j);
    }
    if Carries(s, j) {
      InFlightGrows(s.disk, s.ops, s.spent, HelperState(s), t.spent, HelperState(t), s.corrupted, j);
    }
  }

  lemma HostStepKeepsWriting(s: State, t: State)
    requires Inv(s) && HostStep(s, t) && s.pc.Writing?
    ensures PcInv(t)
  {
    LocalJournalSurvives(s, t, s.pc.j);
  }

  lemma HostStepKeepsPc(s: State, t: State)
    requires Inv(s) && HostStep(s, t)
    ensures PcInv(t)
  {
    if s.pc.Writing? {
      HostStepKeepsWriting(s, t);
    } else if s.pc.Guarding? || s.pc.Capturing? || s.pc.Quarantining? || s.pc.Mutating? || s.pc.Verifying? || s.pc.TunChecking? || s.pc.ActCapturing? {
      LocalJournalSurvives(s, t, s.pc.j);
    }
  }

  lemma HostStepKeeps(s: State, t: State)
    requires Inv(s) && HostStep(s, t) && HostInv(t) && OwnerInv(t)
    ensures Inv(t)
  {
    DiskInvGrows(s.disk, s.ops, s.spent, HelperState(s), t.ops, t.spent, HelperState(t), s.corrupted);
    HostStepKeepsPc(s, t);
  }

  // ------------------------------------------------------------ environment

  lemma NetworkMovesKeeps(s: State, t: State)
    requires Inv(s) && NetworkMoves(s, t)
    ensures Inv(t)
  {
    HostStepKeeps(s, t);
  }

  lemma ProcessesMoveKeeps(s: State, t: State)
    requires Inv(s) && ProcessesMove(s, t)
    ensures Inv(t)
  {
    HostStepKeeps(s, t);
  }

  lemma HelperExitsKeeps(s: State, t: State)
    requires Inv(s) && HelperExits(s, t)
    ensures Inv(t)
  {
    HostStepKeeps(s, t);
  }

  lemma ReapedKeeps(s: State, t: State)
    requires Inv(s) && Reaped(s, t)
    ensures Inv(t)
  {
    ReapedKeepsPc(s, t);
  }

  lemma ReapedKeepsPc(s: State, t: State)
    requires Inv(s) && Reaped(s, t)
    ensures PcInv(t)
  {
  }

  lemma EnvironmentKeeps(s: State, t: State)
    requires Inv(s) && Environment(s, t)
    ensures Inv(t)
  {
    if NetworkMoves(s, t) {
      NetworkMovesKeeps(s, t);
    } else if ProcessesMove(s, t) {
      ProcessesMoveKeeps(s, t);
    } else if HelperExits(s, t) {
      HelperExitsKeeps(s, t);
    } else {
      ReapedKeeps(s, t);
    }
  }

  lemma DamagedJournals(s: State, d: Disk, j: Journal)
    requires d == s.disk.(primary := Some(Malformed))
    ensures Carries(s, j) ==> InFlight(d, s.ops, s.spent, HelperState(s), true, j)
  {
  }

  lemma DamageKeepsWriting(s: State, t: State)
    requires Inv(s) && PrimaryDamaged(s, t) && s.pc.Writing?
    ensures PcInv(t)
  {
    DamagedJournals(s, t.disk, s.pc.j);
  }

  lemma DamageKeepsPc(s: State, t: State)
    requires Inv(s) && PrimaryDamaged(s, t)
    ensures PcInv(t)
  {
    if s.pc.Writing? {
      DamageKeepsWriting(s, t);
    } else if s.pc.Guarding? || s.pc.Capturing? || s.pc.Quarantining? || s.pc.Mutating? || s.pc.Verifying? || s.pc.TunChecking? || s.pc.ActCapturing? {
      DamagedJournals(s, t.disk, s.pc.j);
    }
  }

  lemma DamageKeeps(s: State, t: State)
    requires Inv(s) && PrimaryDamaged(s, t)
    ensures Inv(t)
  {
    DamageKeepsPc(s, t);
  }

  // ---------------------------------------------------------- control plane

  /** A journal that may replace the primary: of the same transaction, or the
      first of a new one. */
  ghost predicate MayReplace(s: State, j: Journal) {
    && Good(s.ops, s.spent, j) && (Fresh(s.disk, j.op) || !HelperState(s)) && !j.fromBackup
    && (DecodeSlot(s.disk.primary).Some? ==> DecodeSlot(s.disk.primary).value.op == j.op)
    && (s.disk.primary.None? && DecodeSlot(s.disk.backup).Some? ==> DecodeSlot(s.disk.backup).value.op == j.op)
  }

  lemma WriteOutcomeKeepsDisk(s: State, j: Journal, e: Disk)
    requires Inv(s) && MayReplace(s, j)
    requires e == s.disk.(primary := e.primary, backup := e.backup)
    requires AtomicFile.WriteOutcome(s.disk.primary, s.disk.backup, Encode(j), e.primary, e.backup)
    ensures DiskInv(e, s.ops, s.spent, HelperState(s), s.corrupted)
  {
    DecodeInvertsEncode(j);
    assert DecodeSlot(Some(Encode(j))) == Some(j);
  }

  lemma WritingMayReplace(s: State)
    requires Inv(s) && s.pc.Writing?
    ensures MayReplace(s, s.pc.j)
    ensures s.helper.Some? && Recorded(s.disk.primary, s.helper.value) ==> s.pc.p.ToActivate?
  {
  }

  /** The files after an interrupted operation hold only journals that were there
      before, or the one being written. */
  lemma InterruptedKeepsDisk(s: State, e: Disk)
    requires Inv(s) && Interrupted(s.pc, s.disk, e)
    ensures DiskInv(e, s.ops, s.spent, HelperState(s), s.corrupted)
    ensures s.disk.primary.Some? ==> e.primary.Some?
    ensures s.helper.Some? && Recorded(s.disk.primary, s.helper.value) ==> Recorded(e.primary, s.helper.value)
  {
    if s.pc.Writing? {
      WritingMayReplace(s);
      WriteOutcomeKeepsDisk(s, s.pc.j, e);
    }
  }

  lemma CrashKeeps(s: State, t: State)
    requires Inv(s) && (Crashes(s, t) || GivesUp(s, t))
    ensures Inv(t)
  {
    InterruptedKeepsDisk(s, t.disk);
  }

  lemma RestartKeeps(s: State, t: State)
    requires Inv(s) && Restarts(s, t)
    ensures Inv(t)
  {
  }

  lemma CallsKeep(s: State, t: State)
    requires Inv(s) && (CallsStart(s, t) || CallsRecovery(s, t))
    ensures Inv(t)
  {
  }

  lemma RecoveryWriteKeepsPc(s: State, t: State)
    requires Inv(s) && Writes(s, t) && s.pc.p.ToRecover?
    ensures PcInv(t)
  {
    DecodeInvertsEncode(s.pc.j);
  }

  lemma PrepareWriteKeepsPc(s: State, t: State)
    requires Inv(s) && Writes(s, t) && s.pc.p.ToPrepare?
    ensures PcInv(t)
  {
    DecodeInvertsEncode(s.pc.j);
  }

  lemma WritesKeep(s: State, t: State)
    requires Inv(s) && Writes(s, t)
    ensures Inv(t)
  {
    WritingMayReplace(s);
    WriteOutcomeKeepsDisk(s, s.pc.j, t.disk);
    if s.pc.p.ToRecover? {
      RecoveryWriteKeepsPc(s, t);
    } else if s.pc.p.ToPrepare? {
      PrepareWriteKeepsPc(s, t);
    }
  }

  lemma LoadsKeep(s: State, t: State)
    requires Inv(s) && Loads(s, t)
    ensures Inv(t)
  {
  }

  lemma GuardKeeps(s: State, t: State)
    requires Inv(s) && PassesGuard(s, t)
    ensures Inv(t)
  {
  }

  lemma CaptureKeeps(s: State, t: State)
    requires Inv(s) && CapturesStale(s, t)
    ensures Inv(t)
  {
    var snap :| Captures(s.net, snap) && Attributed(s.pc.j, snap, t.pc.j);
    AttributionIsGood(s.ops, s.spent, s.pc.j, snap, t.pc.j);
  }

  lemma AttributionIsGood(ops: set<string>, spent: set<Proc>, j: Journal, snap: Snapshot, out: Journal)
    requires Good(ops, spent, j) && Attributed(j, snap, out)
    ensures Good(ops, spent, out) && out == j.(owned := out.owned) && (j.active.Some? ==> out == j)
  {
    if j.active.None? {
      var d, m :| DeltaOf(j.before, snap, d) && MergeOf(j.owned, d, m) && out == j.(owned := m.(tunnel := TUN_NAME));
      MergeKeepsOwnershipSound(j.before, snap, j.owned, d, m);
    }
  }

  lemma QuarantineKeeps(s: State, t: State)
    requires Inv(s) && Quarantines(s, t)
    ensures Inv(t)
  {
  }

  lemma MutationKeeps(s: State, t: State)
    requires Inv(s) && Mutates(s, t)
    ensures Inv(t)
  {
    CommandTouchesOnlyOwned(s.pc.j.owned, s.net, t.net);
    HostStepKeeps(s, t);
  }

  lemma VerifiedLeavesOnlyTunEntries(s: State, post: Snapshot)
    requires Inv(s) && s.pc.Verifying? && Captures(s.net, post) && OwnedAbsent(post, s.pc.j.owned)
    ensures OnlyTunEntries(s.net)
  {
    forall e | e in s.net.entries && e.origin == Helper ensures e.dev == TUN_NAME {
      assert HasKey(s.net, e.key) && Shows(post, e.key);
    }
  }

  lemma VerifiesKeep(s: State, t: State)
    requires Inv(s) && Verifies(s, t)
    ensures Inv(t)
  {
    var post :| Captures(s.net, post) && OwnedAbsent(post, s.pc.j.owned);
    VerifiedLeavesOnlyTunEntries(s, post);
  }

  lemma FinishesMutatingKeeps(s: State, t: State)
    requires Inv(s) && FinishesMutating(s, t)
    ensures Inv(t)
  {
  }

  lemma ReportsFailureKeeps(s: State, t: State)
    requires Inv(s) && ReportsFailure(s, t)
    ensures Inv(t)
  {
  }

  lemma TunGoneKeeps(s: State, t: State)
    requires Inv(s) && FindsTunGone(s, t)
    ensures Inv(t)
  {
  }

  lemma WritesCleanKeeps(s: State, t: State)
    requires Inv(s) && WritesClean(s, t)
    ensures Inv(t)
  {
  }

  lemma RemovesPrimaryKeeps(s: State, t: State)
    requires Inv(s) && RemovesPrimary(s, t)
    ensures Inv(t)
  {
  }

  lemma RemovesBackupKeeps(s: State, t: State)
    requires Inv(s) && RemovesBackup(s, t)
    ensures Inv(t)
  {
  }

  lemma FinalisingKeeps(s: State, t: State)
    requires Inv(s) && Finalising(s, t)
    ensures Inv(t)
  {
    if WritesClean(s, t) {
      WritesCleanKeeps(s, t);
    } else if RemovesPrimary(s, t) {
      RemovesPrimaryKeeps(s, t);
    } else {
      RemovesBackupKeeps(s, t);
    }
  }

  lemma BeginTunCheckKeeps(s: State, t: State)
    requires Inv(s) && BeginFindsNoTun(s, t)
    ensures Inv(t)
  {
  }

  /** No operation starts on top of leftovers, journaled or not. */
  lemma PreflightProvesNothingLeft(s: State, before: Snapshot)
    requires Inv(s) && s.pc.BeginCapturing? && Captures(s.net, before) && ReservedFree(before)
    ensures !HelperState(s)
  {
    forall e | e in s.net.entries ensures e.origin != Helper {
      assert HasKey(s.net, e.key) && Shows(before, e.key);
    }
  }

  lemma PreflightKeeps(s: State, t: State)
    requires Inv(s) && BeginPreflights(s, t)
    ensures Inv(t)
  {
    PreflightProvesNothingLeft(s, t.pc.before);
  }

  lemma FreshJournalIsGood(ops: set<string>, spent: set<Proc>, op: string, before: Snapshot)
    requires ReservedFree(before) && !Blank(op)
    ensures Good(ops + {op}, spent, FreshJournal(op, before))
  {
    ReservedIsSound(before);
  }

  lemma DropBackupKeeps(s: State, t: State)
    requires Inv(s) && BeginDropsBackup(s, t)
    ensures Inv(t)
  {
    FreshJournalIsGood(s.ops, s.spent, t.pc.j.op, s.pc.before);
    DiskInvGrows(s.disk, s.ops, s.spent, HelperState(s), t.ops, t.spent, HelperState(t), s.corrupted);
  }

  lemma LaunchKeeps(s: State, t: State)
    requires Inv(s) && Launches(s, t)
    ensures Inv(t)
  {
    if DecodeSlot(s.disk.primary).Some? {
      GoodGrows(s.ops, s.spent, t.ops, t.spent, DecodeSlot(s.disk.primary).value);
    }
  }

  lemma FailedLaunchKeeps(s: State, t: State)
    requires Inv(s) && FailsToLaunch(s, t)
    ensures Inv(t)
  {
  }

  lemma AbortKeeps(s: State, t: State)
    requires Inv(s) && Aborts(s, t)
    ensures Inv(t)
  {
  }

  lemma ReadyKeeps(s: State, t: State)
    requires Inv(s) && BecomesReady(s, t)
    ensures Inv(t)
  {
  }

  lemma ActivationLoadKeeps(s: State, t: State)
    requires Inv(s) && LoadsForActivation(s, t)
    ensures Inv(t)
  {
  }

  lemma EvidenceIsGood(s: State, snap: Snapshot, j: Journal)
    requires Inv(s) && s.pc.ActCapturing? && Evidence(s.pc.j, s.cmd, snap, j)
    ensures Good(s.ops, s.spent, j) && !j.fromBackup && j.op == s.pc.j.op && j.before == s.pc.j.before && j.active.Some?
    ensures s.cmd.Some? ==> j.pid == s.cmd.value.pid && j.identity == s.cmd.value.identity
  {
    EvidenceExtends(s.ops, s.spent, s.pc.j, s.cmd, snap, j);
  }

  lemma EvidenceExtends(ops: set<string>, spent: set<Proc>, i: Journal, cmd: Option<Proc>, snap: Snapshot, j: Journal)
    requires Good(ops, spent, i) && Evidence(i, cmd, snap, j)
    requires cmd.Some? ==> cmd.value in spent && cmd.value.pid > 0 && cmd.value.identity != ""
    ensures Good(ops, spent, j) && j.fromBackup == i.fromBackup && j.op == i.op && j.before == i.before && j.active.Some?
    ensures cmd.Some? ==> j.pid == cmd.value.pid && j.identity == cmd.value.identity
  {
    var d, m :| DeltaOf(i.before, snap, d) && MergeOf(i.owned, d, m)
                && j == i.(phase := Active, active := Some(snap), owned := m.(tunnel := TUN_NAME),
                           pid := if cmd.Some? then cmd.value.pid else 0,
                           identity := if cmd.Some? then cmd.value.identity else i.identity);
    MergeKeepsOwnershipSound(i.before, snap, i.owned, d, m);
  }

  lemma ActivationCaptureKeeps(s: State, t: State)
    requires Inv(s) && CapturesActive(s, t)
    ensures Inv(t)
  {
    var snap :| Captures(s.net, snap) && Evidence(s.pc.j, s.cmd, snap, t.pc.j);
    EvidenceIsGood(s, snap, t.pc.j);
    ActivationCaptureKeepsPc(s, t);
  }

  lemma ActivationCaptureKeepsPc(s: State, t: State)
    requires Inv(s) && s.pc.ActCapturing? && t.pc.Writing? && t == s.(pc := Writing(ToActivate, t.pc.j))
    requires Good(s.ops, s.spent, t.pc.j) && !t.pc.j.fromBackup && t.pc.j.active.Some? && t.pc.j.op == s.pc.j.op && t.pc.j.before == s.pc.j.before
    requires s.cmd.Some? ==> t.pc.j.pid == s.cmd.value.pid && t.pc.j.identity == s.cmd.value.identity
    ensures PcInv(t)
  {
  }

  lemma RecoveryKeeps(s: State, t: State)
    requires Inv(s) && Recovery(s, t)
    ensures Inv(t)
  {
    if Loads(s, t) {
      LoadsKeep(s, t);
    } else if PassesGuard(s, t) {
      GuardKeeps(s, t);
    } else if CapturesStale(s, t) {
      CaptureKeeps(s, t);
    } else if Quarantines(s, t) {
      QuarantineKeeps(s, t);
    } else if Mutates(s, t) {
      MutationKeeps(s, t);
    } else if Verifies(s, t) {
      VerifiesKeep(s, t);
    } else if FinishesMutating(s, t) {
      FinishesMutatingKeeps(s, t);
    } else if ReportsFailure(s, t) {
      ReportsFailureKeeps(s, t);
    } else {
      TunGoneKeeps(s, t);
    }
  }

  lemma StartingKeeps(s: State, t: State)
    requires Inv(s) && Starting(s, t)
    ensures Inv(t)
  {
    if BeginFindsNoTun(s, t) {
      BeginTunCheckKeeps(s, t);
    } else if BeginPreflights(s, t) {
      PreflightKeeps(s, t);
    } else if BeginDropsBackup(s, t) {
      DropBackupKeeps(s, t);
    } else if Launches(s, t) {
      LaunchKeeps(s, t);
    } else if FailsToLaunch(s, t) {
      FailedLaunchKeeps(s, t);
    } else if Aborts(s, t) {
      AbortKeeps(s, t);
    } else if BecomesReady(s, t) {
      ReadyKeeps(s, t);
    } else if CapturesActive(s, t) {
      ActivationCaptureKeeps(s, t);
    } else {
      ActivationLoadKeeps(s, t);
    }
  }

  lemma NextKeeps(s: State, t: State)
    requires Inv(s) && Next(s, t)
    ensures Inv(t)
  {
    if Environment(s, t) {
      EnvironmentKeeps(s, t);
    } else if PrimaryDamaged(s, t) {
      DamageKeeps(s, t);
    } else if Crashes(s, t) || GivesUp(s, t) {
      CrashKeeps(s, t);
    } else if Restarts(s, t) {
      RestartKeeps(s, t);
    } else if CallsStart(s, t) || CallsRecovery(s, t) {
      CallsKeep(s, t);
    } else if Writes(s, t) {
      WritesKeep(s, t);
    } else if Recovery(s, t) {
      RecoveryKeeps(s, t);
    } else if Finalising(s, t) {
      FinalisingKeeps(s, t);
    } else {
      StartingKeeps(s, t);
    }
  }

  lemma {:induction false} Reachable(run: seq<State>, i: nat)
    requires IsRun(run) && i < |run|
    ensures Inv(run[i])
  {
    if i == 0 {
      InitHolds(run[0]);
    } else {
      Reachable(run, i - 1);
      assert StepAt(run, i - 1);
      NextKeeps(run[i - 1], run[i]);
    }
  }

  /** What can be loaded is what the protocol wrote. */
  lemma LoadedIsGood(s: State, j: Journal)
    requires Inv(s) && Load(s.disk) == Found(j) && Open(j)
    ensures Good(s.ops, s.spent, j)
  {
    LoadFailsClosed(s.disk);
  }
}
