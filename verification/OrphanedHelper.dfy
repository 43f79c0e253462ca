/** What depends on the helper dying with its control plane: the runs in which the
    next control plane starts while a helper is still running. */
module OrphanedHelper {
  import opened Wrappers
  import opened RoutingOwnership
  import opened HostNetwork
  import opened TunnelJournal
  import opened TunnelMachine
  import opened TunnelInvariant
  import opened TunnelSafety
  import opened RecoveryRuns
  import opened TunnelCounterexamples
  import opened ForeignState
  import AtomicFile

  /** A restart without the condition of Restarts. */
  predicate StartsAnyway(s: State, t: State) {
    s.pc.Down? && t == s.(pc := Idle)
  }

  ghost predicate Steps(run: seq<State>) {
    run != [] && forall i: nat {:trigger StepAt(run, i)} :: i + 1 < |run| ==> StepAt(run, i)
  }

  /** After such a restart, ordinary steps lead to a network command of a recovery
      while the orphan still runs. */
  ghost predicate Collides(s: State, rest: seq<State>) {
    && Steps(rest) && StartsAnyway(s, rest[0])
    && |rest| > 1 && Mutates(rest[|rest| - 2], rest[|rest| - 1])
    && rest[|rest| - 2].helper == s.helper
  }

  predicate Names(j: Journal, p: Proc) {
    j.pid == p.pid && j.identity == p.identity
  }

  /** The loaded journal would let a recovery proceed beside this process. */
  predicate Unnamed(d: Disk, p: Proc) {
    Load(d).Found? && !Names(Load(d).journal, p)
  }

  // ------------------------------------------------ no helper without a journal

  lemma LossComesFromAnInterruption(s: State, t: State)
    requires Next(s, t) && t.unjournaled && !s.unjournaled
    ensures (Crashes(s, t) || GivesUp(s, t)) && InWindow(s.pc, t.disk)
  {
  }

  lemma HelperComesFromALaunch(s: State, t: State)
    requires Next(s, t) && t.helper.Some? && t.helper != s.helper
    ensures Launches(s, t)
  {
  }

  lemma NothingLostBesideAHelper(s: State, t: State)
    requires Inv(s) && Next(s, t) && (s.unjournaled ==> s.helper.None?)
    ensures t.unjournaled ==> t.helper.None?
  {
    if t.unjournaled && t.helper.Some? {
      if !s.unjournaled {
        LossComesFromAnInterruption(s, t);
      } else {
        HelperComesFromALaunch(s, t);
      }
    }
  }

  lemma {:induction false} LossMeansNoHelper(run: seq<State>, i: nat)
    requires IsRun(run) && i < |run|
    ensures run[i].unjournaled ==> run[i].helper.None?
  {
    if i > 0 {
      LossMeansNoHelper(run, i - 1);
      Reachable(run, i - 1);
      assert StepAt(run, i - 1);
      NothingLostBesideAHelper(run[i - 1], run[i]);
    }
  }

  /** While a helper runs there is a primary journal file. */
  lemma HelperMeansJournalFile(run: seq<State>, i: nat)
    requires IsRun(run) && i < |run| && run[i].helper.Some?
    ensures run[i].disk.primary.Some?
  {
    LossMeansNoHelper(run, i);
    Reachable(run, i);
  }

  // ------------------------------------------------------------ when it is safe

  /** The control plane gets no further than the guard while the helper lives. */
  predicate Held(d: Disk, h: Proc, t: State) {
    && t.disk == d && t.helper == Some(h) && t.cmd.None? && h in t.live && UniquePids(t.live) && h in t.spent
    && match t.pc
       case Guarding(_, j) => Names(j, h)
       case pc => Resting(pc)
  }

  predicate HeldOrGone(d: Disk, h: Proc, t: State) {
    Held(d, h, t) || (t.helper != Some(h) && h in t.spent)
  }

  lemma GoneStaysGone(h: Proc, s: State, t: State)
    requires Next(s, t) && s.helper != Some(h) && h in s.spent
    ensures t.helper != Some(h) && h in t.spent
  {
    SpentGrows(s, t);
    if t.helper == Some(h) {
      HelperComesFromALaunch(s, t);
    }
  }

  lemma SpentGrows(s: State, t: State)
    requires Next(s, t)
    ensures s.spent <= t.spent
  {
  }

  lemma HeldByTheGuard(h: Proc, s: State, t: State)
    requires s.pc.Guarding? && Names(s.pc.j, h) && h in s.live && UniquePids(s.live) && h.pid > 0
    ensures !PassesGuard(s, t)
  {
  }

  lemma HeldStep(d: Disk, h: Proc, s: State, t: State)
    requires Next(s, t) && Held(d, h, s) && h.pid > 0
    requires Load(d).Invalid? || (Load(d).Found? && Open(Load(d).journal) && Names(Load(d).journal, h))
    ensures HeldOrGone(d, h, t)
  {
    if Environment(s, t) {
      HeldAround(d, h, s, t);
    } else if s.pc.Guarding? {
      HeldByTheGuard(h, s, t);
      HeldWhileGuarding(d, h, s, t);
    } else {
      HeldAtRest(d, h, s, t);
    }
  }

  lemma HeldAround(d: Disk, h: Proc, s: State, t: State)
    requires Environment(s, t) && Held(d, h, s)
    ensures HeldOrGone(d, h, t)
  {
  }

  lemma HeldWhileGuarding(d: Disk, h: Proc, s: State, t: State)
    requires Next(s, t) && !Environment(s, t) && Held(d, h, s) && s.pc.Guarding? && !PassesGuard(s, t)
    ensures Held(d, h, t)
  {
    assert GivesUp(s, t) || Crashes(s, t);
  }

  lemma HeldAtRest(d: Disk, h: Proc, s: State, t: State)
    requires Next(s, t) && !Environment(s, t) && Held(d, h, s) && Resting(s.pc)
    requires Load(d).Invalid? || (Load(d).Found? && Open(Load(d).journal) && Names(Load(d).journal, h))
    ensures Held(d, h, t)
  {
    RestEnds(s, t);
  }

  lemma RestEnds(s: State, t: State)
    requires Next(s, t) && !Environment(s, t) && !PrimaryDamaged(s, t) && Resting(s.pc)
    ensures Crashes(s, t) || Restarts(s, t) || GivesUp(s, t) || CallsStart(s, t) || CallsRecovery(s, t) || Loads(s, t)
  {
  }

  lemma {:induction false} HeldThroughout(d: Disk, h: Proc, rest: seq<State>, i: nat)
    requires Steps(rest) && i < |rest| && Held(d, h, rest[0]) && h.pid > 0
    requires Load(d).Invalid? || (Load(d).Found? && Open(Load(d).journal) && Names(Load(d).journal, h))
    ensures HeldOrGone(d, h, rest[i])
  {
    if i > 0 {
      HeldThroughout(d, h, rest, i - 1);
      assert StepAt(rest, i - 1);
      if Held(d, h, rest[i - 1]) {
        HeldStep(d, h, rest[i - 1], rest[i]);
      } else {
        GoneStaysGone(h, rest[i - 1], rest[i]);
      }
    }
  }

  // ---------------------------------------------------------- when it is not

  lemma AddStep(rest: seq<State>, t: State) returns (more: seq<State>)
    requires Steps(rest) && Next(rest[|rest| - 1], t)
    ensures Steps(more) && more == rest + [t]
  {
    more := rest + [t];
    forall i: nat | i + 1 < |more| ensures StepAt(more, i) {
      if i + 1 < |rest| {
        assert StepAt(rest, i);
      }
    }
  }

  /** Every other process ends, and the guard finds no recorded owner. */
  lemma PassGuard(s: State, h: Proc) returns (rest: seq<State>)
    requires Inv(s) && s.pc.Down? && s.helper == Some(h) && Unnamed(s.disk, h) && Open(Load(s.disk).journal)
    ensures Steps(rest) && StartsAnyway(s, rest[0])
    ensures rest[|rest| - 1] == s.(live := {h}, pc := Capturing(ForFinish, Load(s.disk).journal))
  {
    var j := Load(s.disk).journal;
    LoadedIsGood(s, j);
    var t := s.(pc := Idle);
    rest := [t];
    var u := t.(live := {h});
    assert ProcessesMove(t, u);
    rest := AddStep(rest, u);
    t := u.(pc := Loading(ForFinish));
    assert CallsRecovery(u, t);
    rest := AddStep(rest, t);
    u := t.(pc := Guarding(ForFinish, j));
    assert Loads(t, u);
    rest := AddStep(rest, u);
    t := u.(pc := Capturing(ForFinish, j));
    assert PassesGuard(u, t);
    rest := AddStep(rest, t);
  }

  /** It claims, journals, and goes on to the commands. */
  lemma ReachCommands(before: seq<State>) returns (rest: seq<State>)
    requires Steps(before)
    requires var s := before[|before| - 1]; s.pc.Capturing? && s.disk.primary.Some?
    ensures Steps(rest) && before <= rest
    ensures var s := before[|before| - 1];
            var t := rest[|rest| - 1];
            t.pc.Mutating? && t.net == s.net && t.helper == s.helper && exists i :: WritesClaim(s.pc.j, s.net, i) && t.pc.j == i
  {
    var s := before[|before| - 1];
    var out := ClaimExists(s.pc.j, s.net);
    var i := Quarantined(out);
    var t := s.(pc := Quarantining(s.pc.k, out));
    assert CapturesStale(s, t);
    rest := AddStep(before, t);
    var u := t.(disk := if out.fromBackup then t.disk.(primary := None) else t.disk, pc := Writing(ToRecover(s.pc.k), i));
    assert Quarantines(t, u);
    rest := AddStep(rest, u);
    t := u.(disk := u.disk.(primary := Some(Encode(i)), backup := AtomicFile.Kept(u.disk.primary, u.disk.backup)),
            pc := Mutating(s.pc.k, i));
    assert Writes(u, t);
    rest := AddStep(rest, t);
    assert WritesClaim(s.pc.j, s.net, i);
  }

  lemma ClaimContainsNamespace(s: State, j: Journal, i: Journal)
    requires Good(s.ops, s.spent, j) && WritesClaim(j, s.net, i)
    ensures forall k :: IsReserved(k) ==> Owns(i.owned, k)
  {
    var out :| Claims(j, s.net, out) && i == Quarantined(out);
    var snap :| Captures(s.net, snap) && Attributed(j, snap, out);
    AttributionIsGood(s.ops, s.spent, j, snap, out);
  }

  lemma Collision(s: State, h: Proc) returns (rest: seq<State>)
    requires Inv(s) && s.pc.Down? && s.helper == Some(h) && Unnamed(s.disk, h) && Open(Load(s.disk).journal)
    ensures Collides(s, rest)
    ensures s.net.tun.Some? ==> rest[|rest| - 1].net == LinkDeleted(s.net)
  {
    var j := Load(s.disk).journal;
    var guarded := PassGuard(s, h);
    LoadFailsClosed(s.disk);
    rest := ReachCommands(guarded);
    var t := rest[|rest| - 1];
    LoadedIsGood(s, j);
    ClaimContainsNamespace(s, j, t.pc.j);
    var k := Table(V4, ROUTE_TABLE);
    var u := t.(net := if s.net.tun.Some? then LinkDeleted(s.net) else TableFlushed(s.net, k));
    assert Owns(t.pc.j.owned, k);
    assert Mutates(t, u);
    rest := AddStep(rest, u);
  }

  // ------------------------------------------------------------------- theorems

  /** A control plane that starts beside an orphaned helper can come to change the
      network under it exactly when the files load as a journal that does not name
      that helper. */
  lemma OrphanIsTouchedExactly(run: seq<State>)
    requires IsRun(run) && Last(run).pc.Down? && Last(run).helper.Some?
    ensures (exists rest :: Collides(Last(run), rest)) <==> Unnamed(Last(run).disk, Last(run).helper.value)
  {
    var s := Last(run);
    var h := s.helper.value;
    Reachable(run, |run| - 1);
    HelperMeansJournalFile(run, |run| - 1);
    LoadedIsOpen(s);
    if Unnamed(s.disk, h) {
      var rest := Collision(s, h);
      assert Collides(s, rest);
    } else {
      forall rest ensures !Collides(s, rest) {
        NoCollision(s, h, rest);
      }
    }
  }

  lemma LoadedIsOpen(s: State)
    requires Inv(s) && s.disk.primary.Some?
    ensures !Load(s.disk).Nothing? && (Load(s.disk).Found? ==> Open(Load(s.disk).journal))
  {
  }

  lemma NoCollision(s: State, h: Proc, rest: seq<State>)
    requires Inv(s) && s.pc.Down? && s.helper == Some(h)
    requires Load(s.disk).Invalid? || (Load(s.disk).Found? && Open(Load(s.disk).journal) && Names(Load(s.disk).journal, h))
    ensures !Collides(s, rest)
  {
    if Collides(s, rest) {
      assert Held(s.disk, h, rest[0]);
      HeldThroughout(s.disk, h, rest, |rest| - 2);
    }
  }

  /** The prepared journal names nobody: a control plane that dies after the launch
      and before the activation, and whose helper outlives it, is followed by one
      that deletes the interface under that helper. */
  lemma OrphanBeforeActivation() returns (run: seq<State>, rest: seq<State>)
    ensures IsRun(run) && Last(run).pc.Down? && Last(run).helper == Some(HELPER) && !Last(run).corrupted
    ensures Collides(Last(run), rest)
    ensures Last(run).net.tun == Some(Helper) && rest[|rest| - 1].net.tun.None?
  {
    run := Launched();
    var s := Last(run).(pc := Down, cmd := None);
    assert Crashes(Last(run), s);
    run := Extend(run, s);
    Reachable(run, |run| - 1);
    OpIsAnId();
    assert Load(s.disk) == Found(PREPARED);
    rest := Collision(s, HELPER);
  }
}
