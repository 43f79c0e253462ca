/** The network transaction as a step machine: one control plane, one helper, the
    journal files, the kernel's routing state, and every other process of the host.
    A crash is enabled between any two steps. */
module TunnelMachine {
  import opened Wrappers
  import opened RoutingOwnership
  import opened HostNetwork
  import opened TunnelJournal
  import AtomicFile

  /** Start times tell a reused PID from the process that had it before. */
  datatype Proc = Proc(pid: int, identity: string)

  /** Why RecoverStaleNetworkState or persistCleanJournal runs. */
  datatype Caller = ForBegin | ForFinish | ForAbort

  datatype Purpose = ToPrepare | ToActivate | ToRecover(k: Caller) | ToReportFailure

  /** The control plane's position; the journal is its in-memory copy. */
  datatype Pc =
    | Down
    | Idle
    | Loading(k: Caller)
    | Guarding(k: Caller, j: Journal)
    | Capturing(k: Caller, j: Journal)
    | Quarantining(k: Caller, j: Journal)
    | Writing(p: Purpose, j: Journal)
    | Mutating(k: Caller, j: Journal)
    | Verifying(k: Caller, j: Journal)
    | TunChecking(k: Caller, j: Journal)
    | CleanWriting(k: Caller, j: Journal)
    | RemovingPrimary(k: Caller, j: Journal)
    | RemovingBackup(k: Caller, j: Journal)
    | BeginTunChecking
    | BeginCapturing
    | BeginDropping(before: Snapshot)
    | Launching
    | Aborting
    | Awaiting
    | ActLoading
    | ActCapturing(j: Journal)

  datatype State = State(
    disk: Disk,
    net: Network,
    live: set<Proc>,       // the process table
    spent: set<Proc>,      // every process that has ever run
    helper: Option<Proc>,  // the running sing-box, managed or orphaned
    cmd: Option<Proc>,     // the control plane's handle on it
    ops: set<string>,      // operation ids already issued
    pc: Pc,
    corrupted: bool,       // a primary journal has been damaged from outside
    unjournaled: bool)     // a recovery was cut off between quarantine and rewrite

  ghost predicate Init(s: State) {
    && s.disk == Disk(None, None, None)
    && WellFormed(s.net) && !HelperCreated(s.net)
    && s.live <= s.spent && UniquePids(s.live)
    && s.helper == None && s.cmd == None && s.pc == Idle
    && !s.corrupted && !s.unjournaled
  }

  predicate UniquePids(live: set<Proc>) {
    forall p, q | p in live && q in live :: p.pid == q.pid ==> p == q
  }

  predicate Recorded(slot: Option<Content>, p: Proc) {
    match DecodeSlot(slot)
    case Some(j) => j.pid == p.pid && j.identity == p.identity
    case None => false
  }

  function AfterRecovery(k: Caller): Pc {
    if k.ForBegin? then BeginTunChecking else Idle
  }

  // ------------------------------------------------------------ environment

  /** Routes, rules and interfaces change under the control plane. */
  predicate NetworkMoves(s: State, t: State) {
    t == s.(net := t.net) && HostMove(s.helper.Some?, s.net, t.net)
  }

  /** Other processes come and go; a (PID, start time) pair never returns. */
  predicate ProcessesMove(s: State, t: State) {
    && t == s.(live := t.live, spent := t.spent)
    && s.spent <= t.spent && t.live <= t.spent && UniquePids(t.live)
    && (forall p | p in t.live :: p in s.live || p !in s.spent)
    && (s.helper.Some? ==> s.helper.value in t.live)
  }

  predicate HelperExits(s: State, t: State) {
    s.helper.Some? && t == s.(helper := None, live := s.live - {s.helper.value})
  }

  /** The goroutine in Wait clears the handle of a process that has exited. */
  predicate Reaped(s: State, t: State) {
    s.cmd.Some? && s.helper != s.cmd && t == s.(cmd := None)
  }

  /** Damage from outside. It is not considered while an orphaned helper runs. */
  predicate PrimaryDamaged(s: State, t: State) {
    && s.disk.primary.Some?
    && (s.helper.None? || (s.helper == s.cmd && !s.pc.Down?))
    && t == s.(disk := s.disk.(primary := Some(Malformed)), corrupted := true)
  }

  /** What an operation that does not complete may have done to the files. */
  predicate Interrupted(pc: Pc, d: Disk, e: Disk) {
    match pc
    case Writing(_, j) =>
      && e == d.(primary := e.primary, backup := e.backup)
      && AtomicFile.WriteOutcome(d.primary, d.backup, Encode(j), e.primary, e.backup)
    case CleanWriting(_, j) => e == d || e == d.(lastClean := Some(Encode(j)))
    case _ => e == d
  }

  /** The recovering journal exists only in memory: the damaged primary has been
      moved away and its replacement is not in place. */
  predicate InWindow(pc: Pc, d: Disk) {
    pc.Writing? && pc.p.ToRecover? && d.primary.None?
  }

  /** The control plane dies; its helper may be left running for a while. */
  predicate Crashes(s: State, t: State) {
    && !s.pc.Down?
    && Interrupted(s.pc, s.disk, t.disk)
    && t == s.(disk := t.disk, pc := Down, cmd := None, unjournaled := s.unjournaled || InWindow(s.pc, t.disk))
  }

  /** The next control plane starts. The helper dies with its parent, so a helper
      that is still there is one whose identity is already in the journal. */
  predicate Restarts(s: State, t: State) {
    && s.pc.Down? && t == s.(pc := Idle)
    && (s.helper.Some? ==> Recorded(s.disk.primary, s.helper.value))
  }

  // ---------------------------------------------------------- control plane

  /** Any call may return an error instead of completing. */
  predicate GivesUp(s: State, t: State) {
    && !s.pc.Down?
    && Interrupted(s.pc, s.disk, t.disk)
    && t == s.(disk := t.disk, pc := Idle, unjournaled := s.unjournaled || InWindow(s.pc, t.disk))
  }

  predicate CallsStart(s: State, t: State) {
    s.pc.Idle? && s.cmd.None? && t == s.(pc := Loading(ForBegin))
  }

  predicate CallsRecovery(s: State, t: State) {
    s.pc.Idle? && s.cmd.None? && t == s.(pc := Loading(ForFinish))
  }

  function LoadedPc(k: Caller, d: Disk): Pc {
    match Load(d)
    case Nothing => AfterRecovery(k)
    case Invalid => Idle
    case Found(j) => if Open(j) then Guarding(k, j) else CleanWriting(k, j)
  }

  predicate Loads(s: State, t: State) {
    s.pc.Loading? && t == s.(pc := LoadedPc(s.pc.k, s.disk))
  }

  predicate Alive(live: set<Proc>, pid: int) {
    exists p | p in live :: p.pid == pid
  }

  /** The recorded owner is provably not running. */
  predicate OwnerGone(live: set<Proc>, j: Journal) {
    || j.pid <= 0
    || !Alive(live, j.pid)
    || (j.identity != "" && exists p | p in live :: p.pid == j.pid && p.identity != j.identity)
  }

  predicate PassesGuard(s: State, t: State) {
    && s.pc.Guarding? && OwnerGone(s.live, s.pc.j)
    && t == s.(pc := Capturing(s.pc.k, s.pc.j))
  }

  /** Without active evidence the difference to the baseline is claimed as well. */
  ghost predicate Attributed(j: Journal, current: Snapshot, out: Journal) {
    if j.active.Some? then out == j
    else exists d, m :: DeltaOf(j.before, current, d) && MergeOf(j.owned, d, m)
                        && out == j.(owned := m.(tunnel := TUN_NAME))
  }

  ghost predicate CapturesStale(s: State, t: State) {
    && s.pc.Capturing? && t.pc.Quarantining?
    && (exists snap :: Captures(s.net, snap) && Attributed(s.pc.j, snap, t.pc.j))
    && t == s.(pc := Quarantining(s.pc.k, t.pc.j))
  }

  function Quarantined(j: Journal): Journal {
    j.(fromBackup := false, phase := Recovering)
  }

  predicate Quarantines(s: State, t: State) {
    && s.pc.Quarantining?
    && (s.pc.j.fromBackup ==> s.disk.primary.Some?)
    && t == s.(disk := if s.pc.j.fromBackup then s.disk.(primary := None) else s.disk,
               pc := Writing(ToRecover(s.pc.k), Quarantined(s.pc.j)))
  }

  function WrittenPc(p: Purpose, j: Journal): Pc {
    match p
    case ToPrepare => Launching
    case ToActivate => Idle
    case ToRecover(k) => Mutating(k, j)
    case ToReportFailure => Idle
  }

  predicate Writes(s: State, t: State) {
    && s.pc.Writing?
    && AtomicFile.WriteDone(s.disk.primary, s.disk.backup, Encode(s.pc.j), t.disk.primary, t.disk.backup)
    && t == s.(disk := s.disk.(primary := t.disk.primary, backup := t.disk.backup), pc := WrittenPc(s.pc.p, s.pc.j))
  }

  ghost predicate Mutates(s: State, t: State) {
    && s.pc.Mutating?
    && RecoveryCommand(s.pc.j.owned, s.net, t.net)
    && t == s.(net := t.net)
  }

  predicate FinishesMutating(s: State, t: State) {
    s.pc.Mutating? && t == s.(pc := Verifying(s.pc.k, s.pc.j))
  }

  predicate ReportsFailure(s: State, t: State) {
    (s.pc.Mutating? || s.pc.Verifying?) && t == s.(pc := Writing(ToReportFailure, s.pc.j))
  }

  ghost predicate Verifies(s: State, t: State) {
    && s.pc.Verifying?
    && (exists post :: Captures(s.net, post) && OwnedAbsent(post, s.pc.j.owned))
    && t == s.(pc := TunChecking(s.pc.k, s.pc.j))
  }

  function Finalised(j: Journal): Journal {
    j.(phase := CleanPhase, pid := 0, identity := "")
  }

  predicate FindsTunGone(s: State, t: State) {
    && s.pc.TunChecking? && s.net.tun.None?
    && t == s.(pc := CleanWriting(s.pc.k, Finalised(s.pc.j)))
  }

  predicate WritesClean(s: State, t: State) {
    && s.pc.CleanWriting?
    && t == s.(disk := s.disk.(lastClean := Some(Encode(s.pc.j))), pc := RemovingPrimary(s.pc.k, s.pc.j))
  }

  predicate RemovesPrimary(s: State, t: State) {
    && s.pc.RemovingPrimary?
    && t == s.(disk := s.disk.(primary := None), pc := RemovingBackup(s.pc.k, s.pc.j))
  }

  predicate RemovesBackup(s: State, t: State) {
    && s.pc.RemovingBackup?
    && t == s.(disk := s.disk.(backup := None), pc := AfterRecovery(s.pc.k))
  }

  predicate BeginFindsNoTun(s: State, t: State) {
    s.pc.BeginTunChecking? && s.net.tun.None? && t == s.(pc := BeginCapturing)
  }

  /** An empty namespace also proves that nothing of a lost journal is left. */
  ghost predicate BeginPreflights(s: State, t: State) {
    && s.pc.BeginCapturing? && t.pc.BeginDropping?
    && Captures(s.net, t.pc.before) && ReservedFree(t.pc.before)
    && t == s.(pc := t.pc, unjournaled := false)
  }

  function FreshJournal(op: string, before: Snapshot): Journal {
    Journal(SCHEMA, Prepared, op, 0, "", before, None, Reserved(), false)
  }

  predicate BeginDropsBackup(s: State, t: State) {
    && s.pc.BeginDropping? && t.pc.Writing?
    && !Blank(t.pc.j.op) && t.pc.j.op !in s.ops
    && t == s.(disk := s.disk.(backup := None), ops := s.ops + {t.pc.j.op},
               pc := Writing(ToPrepare, FreshJournal(t.pc.j.op, s.pc.before)))
  }

  predicate Launches(s: State, t: State) {
    && s.pc.Launching? && t.helper.Some?
    && t.helper.value.pid > 0 && t.helper.value.identity != "" && t.helper.value !in s.spent
    && UniquePids(t.live)
    && t == s.(helper := t.helper, cmd := t.helper, live := s.live + {t.helper.value},
               spent := s.spent + {t.helper.value}, pc := Awaiting)
  }

  predicate FailsToLaunch(s: State, t: State) {
    s.pc.Launching? && t == s.(pc := Aborting)
  }

  predicate Aborts(s: State, t: State) {
    && s.pc.Aborting? && s.cmd.None?
    && Load(s.disk).Found? && Load(s.disk).journal.phase.Prepared?
    && t == s.(pc := CleanWriting(ForAbort, Load(s.disk).journal.(phase := AbortedPhase)))
  }

  predicate BecomesReady(s: State, t: State) {
    s.pc.Awaiting? && t == s.(pc := ActLoading)
  }

  predicate LoadsForActivation(s: State, t: State) {
    && s.pc.ActLoading? && Load(s.disk).Found?
    && t == s.(pc := ActCapturing(Load(s.disk).journal))
  }

  /** Active evidence: the snapshot, the helper's identity and the merged delta. */
  ghost predicate Evidence(j: Journal, cmd: Option<Proc>, snap: Snapshot, out: Journal) {
    exists d, m :: DeltaOf(j.before, snap, d) && MergeOf(j.owned, d, m)
                   && out == j.(phase := Active, active := Some(snap), owned := m.(tunnel := TUN_NAME),
                                pid := if cmd.Some? then cmd.value.pid else 0,
                                identity := if cmd.Some? then cmd.value.identity else j.identity)
  }

  ghost predicate CapturesActive(s: State, t: State) {
    && s.pc.ActCapturing? && t.pc.Writing?
    && (exists snap :: Captures(s.net, snap) && Evidence(s.pc.j, s.cmd, snap, t.pc.j))
    && t == s.(pc := Writing(ToActivate, t.pc.j))
  }

  // --------------------------------------------------------------- the whole

  ghost predicate Environment(s: State, t: State) {
    || NetworkMoves(s, t) || ProcessesMove(s, t) || HelperExits(s, t) || Reaped(s, t)
  }

  ghost predicate Recovery(s: State, t: State) {
    || Loads(s, t) || PassesGuard(s, t) || CapturesStale(s, t) || Quarantines(s, t)
    || Mutates(s, t) || FinishesMutating(s, t) || ReportsFailure(s, t) || Verifies(s, t) || FindsTunGone(s, t)
  }

  ghost predicate Finalising(s: State, t: State) {
    || WritesClean(s, t) || RemovesPrimary(s, t) || RemovesBackup(s, t)
  }

  ghost predicate Starting(s: State, t: State) {
    || BeginFindsNoTun(s, t) || BeginPreflights(s, t) || BeginDropsBackup(s, t)
    || Launches(s, t) || FailsToLaunch(s, t) || Aborts(s, t)
    || BecomesReady(s, t) || LoadsForActivation(s, t) || CapturesActive(s, t)
  }

  ghost predicate ControlPlane(s: State, t: State) {
    || CallsStart(s, t) || CallsRecovery(s, t) || GivesUp(s, t) || Writes(s, t)
    || Recovery(s, t) || Finalising(s, t) || Starting(s, t)
  }

  ghost predicate Next(s: State, t: State) {
    || Environment(s, t) || PrimaryDamaged(s, t) || Crashes(s, t) || Restarts(s, t) || ControlPlane(s, t)
  }

  ghost predicate StepAt(run: seq<State>, i: nat)
    requires i + 1 < |run|
  {
    Next(run[i], run[i + 1])
  }

  /** A run: every state follows from the one before it. */
  ghost predicate IsRun(run: seq<State>) {
    && run != [] && Init(run[0])
    && forall i: nat {:trigger StepAt(run, i)} :: i + 1 < |run| ==> StepAt(run, i)
  }

  /** A run may go on with any step. */
  lemma Extend(run: seq<State>, t: State) returns (longer: seq<State>)
    requires IsRun(run) && Next(run[|run| - 1], t)
    ensures IsRun(longer) && longer == run + [t]
  {
    longer := run + [t];
    forall i: nat | i + 1 < |longer| ensures StepAt(longer, i) {
      if i + 1 < |run| {
        assert StepAt(run, i);
      }
    }
  }

  /** Only recovery commands and the rest of the host touch the network. */
  lemma NetworkChangesOnlyBy(s: State, t: State)
    requires Next(s, t) && t.net != s.net
    ensures NetworkMoves(s, t) || Mutates(s, t)
  {
  }

  /** Only writes put a readable journal into the primary. */
  lemma PrimaryChangesOnlyBy(s: State, t: State)
    requires Next(s, t) && DecodeSlot(t.disk.primary).Some? && t.disk.primary != s.disk.primary
    ensures s.pc.Writing? && AtomicFile.WriteDone(s.disk.primary, s.disk.backup, Encode(s.pc.j), t.disk.primary, t.disk.backup)
  {
    if Recovery(s, t) || Starting(s, t) || Finalising(s, t) {
      PrimaryOnlyRemoved(s, t);
    }
  }

  lemma PrimaryOnlyRemoved(s: State, t: State)
    requires Recovery(s, t) || Starting(s, t) || Finalising(s, t)
    ensures t.disk.primary == s.disk.primary || t.disk.primary.None?
  {
  }
}
