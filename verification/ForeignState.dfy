/** Exactly which foreign routes and rules recoveries can never take away. */
module ForeignState {
  import opened Wrappers
  import opened RoutingOwnership
  import opened HostNetwork
  import opened TunnelJournal
  import opened TunnelMachine
  import opened TunnelInvariant
  import opened TunnelSafety
  import opened RecoveryRuns
  import AtomicFile

  /** A check on the journal files alone: the primary, and where damage is reckoned
      with also a backup that could answer for it, spares the key. */
  predicate FilesSpare(d: Disk, k: Key, damage: bool) {
    PrimarySpares(d, k) && (damage && d.primary.Some? ==> BackupSpares(d, k))
  }

  function Last(run: seq<State>): State
    requires run != []
  {
    run[|run| - 1]
  }

  /** A way for the run to go on in which nothing but recovery removes the entry. */
  ghost predicate Continuation(longer: seq<State>, run: seq<State>, e: Entry, damage: bool)
    requires run != []
  {
    && IsRun(longer) && run <= longer && OnlyRecoveryRemoves(longer, |run| - 1, |longer| - 1, e)
    && (damage || !Last(longer).corrupted)
  }

  ghost predicate NeverLost(run: seq<State>, e: Entry, damage: bool)
    requires run != []
  {
    forall longer :: Continuation(longer, run, e, damage) ==> e in Last(longer).net.entries
  }

  /** Between operations: a foreign entry survives every continuation if and only if
      the files spare its key. */
  lemma SparedExactly(run: seq<State>, e: Entry, damage: bool)
    requires IsRun(run) && (damage || !Last(run).corrupted)
    requires Last(run).pc.Idle? || Last(run).pc.Down?
    requires e in Last(run).net.entries && e.dev != TUN_NAME
    ensures NeverLost(run, e, damage) <==> FilesSpare(Last(run).disk, e.key, damage)
  {
    if FilesSpare(Last(run).disk, e.key, damage) {
      forall longer | Continuation(longer, run, e, damage) ensures e in Last(longer).net.entries {
        assert longer[|run| - 1] == run[|run| - 1];
        SparedStateSurvives(longer, |run| - 1, |longer| - 1, e, damage);
      }
    } else {
      var longer := Loss(run, e, damage);
      assert Continuation(longer, run, e, damage);
    }
  }

  // ------------------------------------------------------------ losing an entry

  /** The run has gone on without any change to the network. */
  ghost predicate Onward(longer: seq<State>, run: seq<State>)
    requires run != []
  {
    && IsRun(longer) && run <= longer
    && forall m :: |run| - 1 <= m < |longer| ==> longer[m].net == Last(run).net
  }

  lemma Further(longer: seq<State>, run: seq<State>, t: State) returns (next: seq<State>)
    requires run != [] && Onward(longer, run) && Next(Last(longer), t) && t.net == Last(run).net
    ensures Onward(next, run) && Last(next) == t
  {
    next := Extend(longer, t);
  }

  /** Everything on the host ends, and a control plane is there and idle. */
  lemma Settle(run: seq<State>) returns (longer: seq<State>)
    requires IsRun(run) && (Last(run).pc.Idle? || Last(run).pc.Down?)
    ensures Onward(longer, run)
    ensures Last(longer) == Last(run).(helper := None, cmd := None, live := {}, pc := Idle)
  {
    Reachable(run, |run| - 1);
    longer := run;
    var s := Last(run);
    if s.helper.Some? {
      s := s.(helper := None, live := s.live - {s.helper.value});
      assert HelperExits(Last(longer), s);
      longer := Further(longer, run, s);
    }
    if s.cmd.Some? {
      s := s.(cmd := None);
      assert Reaped(Last(longer), s);
      longer := Further(longer, run, s);
    }
    s := s.(live := {});
    assert ProcessesMove(Last(longer), s);
    longer := Further(longer, run, s);
    if s.pc.Down? {
      s := s.(pc := Idle);
      assert Restarts(Last(longer), s);
      longer := Further(longer, run, s);
    }
  }

  /** From there a recovery gets as far as looking at the network. */
  lemma BeginRecovery(longer: seq<State>, run: seq<State>, j: Journal) returns (next: seq<State>)
    requires run != [] && Onward(longer, run)
    requires var s := Last(longer); s.pc.Idle? && s.cmd.None? && s.live == {} && Load(s.disk) == Found(j) && Open(j)
    ensures Onward(next, run) && Last(next) == Last(longer).(pc := Capturing(ForFinish, j))
  {
    var s := Last(longer).(pc := Loading(ForFinish));
    assert CallsRecovery(Last(longer), s);
    next := Further(longer, run, s);
    s := s.(pc := Guarding(ForFinish, j));
    assert Loads(Last(next), s);
    next := Further(next, run, s);
    s := s.(pc := Capturing(ForFinish, j));
    assert PassesGuard(Last(next), s);
    next := Further(next, run, s);
  }

  lemma ClaimTakesTheUnspared(j: Journal, a: Network, out: Journal, k: Key)
    requires Claims(j, a, out) && HasKey(a, k) && !JournalSpares(j, k)
    ensures Owns(out.owned, k)
  {
    if j.active.None? {
      var snap :| Captures(a, snap) && Attributed(j, snap, out);
      var d, m :| DeltaOf(j.before, snap, d) && MergeOf(j.owned, d, m) && out == j.(owned := m.(tunnel := TUN_NAME));
      assert Shows(snap, k);
      assert Owns(m, k) <==> Owns(out.owned, k);
    }
  }

  /** It then claims what the journal does not spare and goes on to the commands. */
  lemma ClaimEntry(longer: seq<State>, run: seq<State>, k: Key) returns (next: seq<State>)
    requires run != [] && Onward(longer, run)
    requires var s := Last(longer); s.pc.Capturing? && HasKey(s.net, k) && !JournalSpares(s.pc.j, k) && s.disk.primary.Some?
    ensures Onward(next, run) && Last(next).pc.Mutating? && Owns(Last(next).pc.j.owned, k)
    ensures Last(next).corrupted == Last(longer).corrupted
  {
    var s := Last(longer);
    var out := ClaimExists(s.pc.j, s.net);
    ClaimTakesTheUnspared(s.pc.j, s.net, out, k);
    s := s.(pc := Quarantining(s.pc.k, out));
    assert CapturesStale(Last(longer), s);
    next := Further(longer, run, s);
    s := s.(disk := if out.fromBackup then s.disk.(primary := None) else s.disk, pc := Writing(ToRecover(s.pc.k), Quarantined(out)));
    assert Quarantines(Last(next), s);
    next := Further(next, run, s);
    s := s.(disk := s.disk.(primary := Some(Encode(s.pc.j)), backup := AtomicFile.Kept(s.disk.primary, s.disk.backup)),
            pc := WrittenPc(s.pc.p, s.pc.j));
    assert Writes(Last(next), s);
    next := Further(next, run, s);
  }

  /** One command then removes the entry. */
  lemma RemoveEntry(longer: seq<State>, run: seq<State>, e: Entry) returns (next: seq<State>)
    requires run != [] && Onward(longer, run) && Last(longer).pc.Mutating? && Owns(Last(longer).pc.j.owned, e.key)
    requires e in Last(run).net.entries
    ensures IsRun(next) && run <= next && OnlyRecoveryRemoves(next, |run| - 1, |next| - 1, e)
    ensures e !in Last(next).net.entries && Last(next).corrupted == Last(longer).corrupted
  {
    var s := Last(longer);
    var after := if e.key.Priority? then s.net.(entries := s.net.entries - {e}) else TableFlushed(s.net, e.key);
    assert RecoveryCommand(s.pc.j.owned, s.net, after) by {
      match e.key
      case Priority(f, p) => assert RuleDeleted(s.net, Priority(f, p), after);
      case Table(f, t) =>
    }
    var t := s.(net := after);
    assert Mutates(s, t);
    next := Extend(longer, t);
    assert forall m :: |run| - 1 <= m < |longer| ==> next[m].net == Last(run).net;
  }

  lemma Loss(run: seq<State>, e: Entry, damage: bool) returns (longer: seq<State>)
    requires IsRun(run) && (damage || !Last(run).corrupted)
    requires Last(run).pc.Idle? || Last(run).pc.Down?
    requires e in Last(run).net.entries && e.dev != TUN_NAME && !FilesSpare(Last(run).disk, e.key, damage)
    ensures Continuation(longer, run, e, damage) && e !in Last(longer).net.entries
  {
    var d := Last(run).disk;
    GoodFiles(run);
    longer := Settle(run);
    assert HasKey(Last(run).net, e.key);
    if !PrimarySpares(d, e.key) {
      longer := BeginRecovery(longer, run, DecodeSlot(d.primary).value);
    } else {
      var s := Last(longer).(disk := d.(primary := Some(Malformed)), corrupted := true);
      assert PrimaryDamaged(Last(longer), s);
      longer := Further(longer, run, s);
      longer := BeginRecovery(longer, run, DecodeSlot(d.backup).value.(fromBackup := true));
    }
    longer := ClaimEntry(longer, run, e.key);
    longer := RemoveEntry(longer, run, e);
  }

  /** Whatever decodes in the journal files of a run is an open transaction. */
  lemma GoodFiles(run: seq<State>)
    requires IsRun(run)
    ensures var d := Last(run).disk;
            && (DecodeSlot(d.primary).Some? ==> Open(DecodeSlot(d.primary).value) && Load(d) == Found(DecodeSlot(d.primary).value))
            && (DecodeSlot(d.backup).Some? ==> Open(DecodeSlot(d.backup).value))
  {
    Reachable(run, |run| - 1);
  }
}
