/** Two runs that show why the damage conditions of the safety results are needed. */
module TunnelCounterexamples {
  import opened Wrappers
  import opened RoutingOwnership
  import opened HostNetwork
  import opened TunnelJournal
  import opened TunnelMachine
  import opened TunnelInvariant

  const NO_LINES := Snapshot([], [], [], [], "", "")
  const HELPER := Proc(7, "100")
  const PREPARED := FreshJournal("op", NO_LINES)
  const ACTIVATED := PREPARED.(phase := Active, active := Some(NO_LINES), pid := 7, identity := "100")
  const LATE_RULE := Entry(0, Priority(V4, 4242), "", Foreign)

  const START := State(Disk(None, None, None), Network(None, {}, "", ""), {}, {}, None, None, {}, Idle, false, false)

  lemma OpIsAnId()
    ensures !Blank("op")
  {
    assert 'o' in "op";
  }

  lemma NothingIsNew(d: Owned)
    requires d == Owned(TUN_NAME, [], [], [], [], false, false)
    ensures DeltaOf(NO_LINES, NO_LINES, d) && MergeOf(Reserved(), d, Reserved())
  {
    ReservedOwnsExactlyTheNamespace();
  }

  /** A start up to the preflight. */
  lemma PreflightRun() returns (run: seq<State>)
    ensures IsRun(run)
    ensures run[|run| - 1] == START.(pc := BeginDropping(NO_LINES))
  {
    var s := START;
    run := [s];
    s := s.(pc := Loading(ForBegin));
    assert CallsStart(run[|run| - 1], s);
    run := Extend(run, s);
    s := s.(pc := BeginTunChecking);
    assert Loads(run[|run| - 1], s);
    run := Extend(run, s);
    s := s.(pc := BeginCapturing);
    assert BeginFindsNoTun(run[|run| - 1], s);
    run := Extend(run, s);
    assert Captures(s.net, NO_LINES);
    s := s.(pc := BeginDropping(NO_LINES));
    assert BeginPreflights(run[|run| - 1], s);
    run := Extend(run, s);
  }

  /** ... up to the durable prepared journal. */
  lemma PreparedRun() returns (run: seq<State>)
    ensures IsRun(run)
    ensures run[|run| - 1] == START.(disk := Disk(Some(Encode(PREPARED)), None, None), ops := {"op"}, pc := Launching)
  {
    run := PreflightRun();
    var s := run[|run| - 1];
    s := s.(pc := Writing(ToPrepare, PREPARED), ops := {"op"});
    OpIsAnId();
    assert BeginDropsBackup(run[|run| - 1], s);
    run := Extend(run, s);
    s := s.(pc := Launching, disk := Disk(Some(Encode(PREPARED)), None, None));
    assert Writes(run[|run| - 1], s);
    run := Extend(run, s);
  }

  /** ... the launched helper with its interface up. */
  lemma Launched() returns (run: seq<State>)
    ensures IsRun(run)
    ensures run[|run| - 1] == START.(disk := Disk(Some(Encode(PREPARED)), None, None), ops := {"op"},
                                     net := START.net.(tun := Some(Helper)), live := {HELPER}, spent := {HELPER},
                                     helper := Some(HELPER), cmd := Some(HELPER), pc := ActLoading)
  {
    run := PreparedRun();
    var s := run[|run| - 1];
    s := s.(pc := Awaiting, live := {HELPER}, spent := {HELPER}, helper := Some(HELPER), cmd := Some(HELPER));
    assert Launches(run[|run| - 1], s);
    run := Extend(run, s);
    s := s.(net := s.net.(tun := Some(Helper)));
    assert NetworkMoves(run[|run| - 1], s);
    run := Extend(run, s);
    s := s.(pc := ActLoading);
    assert BecomesReady(run[|run| - 1], s);
    run := Extend(run, s);
  }

  lemma EvidenceOfNothing(net: Network)
    requires net == START.net.(tun := net.tun)
    ensures Captures(net, NO_LINES) && Evidence(PREPARED, Some(HELPER), NO_LINES, ACTIVATED)
  {
    NothingIsNew(Owned(TUN_NAME, [], [], [], [], false, false));
  }

  /** ... and activated. */
  lemma Started() returns (run: seq<State>)
    ensures IsRun(run)
    ensures run[|run| - 1] == START.(disk := Disk(Some(Encode(ACTIVATED)), Some(Encode(PREPARED)), None), ops := {"op"},
                                     net := START.net.(tun := Some(Helper)), live := {HELPER}, spent := {HELPER},
                                     helper := Some(HELPER), cmd := Some(HELPER), pc := Idle)
  {
    run := Launched();
    var s := run[|run| - 1];
    OpIsAnId();
    s := s.(pc := ActCapturing(PREPARED));
    assert LoadsForActivation(run[|run| - 1], s);
    run := Extend(run, s);
    EvidenceOfNothing(s.net);
    s := s.(pc := Writing(ToActivate, ACTIVATED));
    assert CapturesActive(run[|run| - 1], s);
    run := Extend(run, s);
    s := s.(pc := Idle, disk := Disk(Some(Encode(ACTIVATED)), Some(Encode(PREPARED)), None));
    assert Writes(run[|run| - 1], s);
    run := Extend(run, s);
  }

  /** From a started tunnel on any network: crash, helper exit, damage, restart,
      and a recovery that falls back to the prepared journal. */
  lemma FallenBack(start: seq<State>) returns (run: seq<State>)
    requires IsRun(start)
    requires var s := start[|start| - 1];
             && s.disk == Disk(Some(Encode(ACTIVATED)), Some(Encode(PREPARED)), None)
             && s.helper == Some(HELPER) && s.pc.Idle?
    ensures IsRun(run) && start <= run
    ensures var s := start[|start| - 1];
            run[|run| - 1] == s.(disk := s.disk.(primary := Some(Malformed)), helper := None, cmd := None, live := s.live - {HELPER},
                                 corrupted := true, pc := Capturing(ForFinish, PREPARED.(fromBackup := true)))
  {
    run := Damaged(start);
    var s := run[|run| - 1];
    s := s.(pc := Loading(ForFinish));
    run := Extend(run, s);
    OpIsAnId();
    assert Load(s.disk) == Found(PREPARED.(fromBackup := true));
    s := s.(pc := Guarding(ForFinish, PREPARED.(fromBackup := true)));
    assert Loads(run[|run| - 1], s);
    run := Extend(run, s);
    s := s.(pc := Capturing(ForFinish, PREPARED.(fromBackup := true)));
    run := Extend(run, s);
  }

  /** The control plane dies, its helper exits, the primary is damaged, and the next
      control plane starts. */
  lemma Damaged(start: seq<State>) returns (run: seq<State>)
    requires IsRun(start)
    requires var s := start[|start| - 1]; s.disk.primary.Some? && s.helper == Some(HELPER) && s.pc.Idle?
    ensures IsRun(run) && start <= run
    ensures var s := start[|start| - 1];
            run[|run| - 1] == s.(disk := s.disk.(primary := Some(Malformed)), helper := None, cmd := None, live := s.live - {HELPER},
                                 corrupted := true, pc := Idle)
  {
    run := start;
    var s := run[|run| - 1];
    s := s.(pc := Down, cmd := None);
    assert Crashes(run[|run| - 1], s);
    run := Extend(run, s);
    s := s.(helper := None, live := s.live - {HELPER});
    assert HelperExits(run[|run| - 1], s);
    run := Extend(run, s);
    s := s.(disk := s.disk.(primary := Some(Malformed)), corrupted := true);
    run := Extend(run, s);
    s := s.(pc := Idle);
    run := Extend(run, s);
  }

  /** A second crash between quarantine and rewrite leaves the interface behind
      and a journal that loads as "nothing open". */
  lemma WindowLosesTheJournal() returns (run: seq<State>)
    ensures IsRun(run)
    ensures var s := run[|run| - 1];
            HelperState(s) && Load(s.disk).Nothing? && s.pc.Down? && s.unjournaled
  {
    run := Started();
    run := FallenBack(run);
    var s := run[|run| - 1];
    var j := PREPARED.(fromBackup := true);
    var d := Owned(TUN_NAME, [], [], [], [], false, false);
    NothingIsNew(d);
    assert Captures(s.net, NO_LINES) && Attributed(j, NO_LINES, j);
    s := s.(pc := Quarantining(ForFinish, j));
    assert CapturesStale(run[|run| - 1], s);
    run := Extend(run, s);
    s := s.(disk := s.disk.(primary := None), pc := Writing(ToRecover(ForFinish), Quarantined(j)));
    assert Quarantines(run[|run| - 1], s);
    run := Extend(run, s);
    s := s.(pc := Down, unjournaled := true);
    assert Crashes(run[|run| - 1], s);
    run := Extend(run, s);
  }

  const CLAIMED := Reserved().(priosV4 := [4242] + ReservedRange())

  lemma LateRuleIsClaimed(snap: Snapshot, d: Owned)
    requires snap == NO_LINES.(rulesV4 := [RuleLine(Some(4242), "")])
    requires d == Owned(TUN_NAME, [], [], [4242], [], false, false)
    ensures DeltaOf(NO_LINES, snap, d) && MergeOf(Reserved(), d, CLAIMED)
  {
    ReservedOwnsExactlyTheNamespace();
    assert forall k :: Shows(snap, k) <==> k == Priority(V4, 4242) by {
      assert snap.rulesV4[0] == RuleLine(Some(4242), "");
    }
    assert forall k :: Owns(CLAIMED, k) <==> Owns(Reserved(), k) || k == Priority(V4, 4242);
    assert forall k :: Owns(d, k) <==> k == Priority(V4, 4242);
    assert Canonical(CLAIMED);
  }

  /** Recovery from the fallback on a network that shows only the late rule. */
  lemma ClaimsTheLateRule(fallen: seq<State>) returns (run: seq<State>)
    requires IsRun(fallen)
    requires var s := fallen[|fallen| - 1];
             && s.pc == Capturing(ForFinish, PREPARED.(fromBackup := true)) && s.disk.primary.Some?
             && s.net == START.net.(tun := s.net.tun, entries := {LATE_RULE})
    ensures IsRun(run) && fallen <= run
    ensures var s := run[|run| - 1];
            s.pc.Mutating? && s.pc.j.owned == CLAIMED && s.net == fallen[|fallen| - 1].net
  {
    run := fallen;
    var s := run[|run| - 1];
    var j := PREPARED.(fromBackup := true);
    var claimed := j.(owned := CLAIMED);
    var snap := NO_LINES.(rulesV4 := [RuleLine(Some(4242), "")]);
    LateRuleIsSeen(s.net, snap);
    LateRuleIsAttributed(j, snap, claimed);
    s := s.(pc := Quarantining(ForFinish, claimed));
    assert CapturesStale(run[|run| - 1], s);
    run := Extend(run, s);
    run := Replaced(run, claimed);
  }

  lemma LateRuleIsSeen(net: Network, snap: Snapshot)
    requires net == START.net.(tun := net.tun, entries := {LATE_RULE}) && snap == NO_LINES.(rulesV4 := [RuleLine(Some(4242), "")])
    ensures Captures(net, snap)
  {
    assert Shows(snap, LATE_RULE.key) by { assert snap.rulesV4[0] == RuleLine(Some(4242), ""); }
  }

  lemma LateRuleIsAttributed(j: Journal, snap: Snapshot, claimed: Journal)
    requires j == PREPARED.(fromBackup := true) && claimed == j.(owned := CLAIMED) && snap == NO_LINES.(rulesV4 := [RuleLine(Some(4242), "")])
    ensures Attributed(j, snap, claimed)
  {
    LateRuleIsClaimed(snap, Owned(TUN_NAME, [], [], [4242], [], false, false));
  }

  /** The damaged primary is moved away and the recovering journal takes its place. */
  lemma Replaced(claimed: seq<State>, j: Journal) returns (run: seq<State>)
    requires IsRun(claimed)
    requires var s := claimed[|claimed| - 1]; s.pc == Quarantining(ForFinish, j) && j.fromBackup && s.disk.primary.Some?
    ensures IsRun(run) && claimed <= run
    ensures var s := run[|run| - 1]; s.pc == Mutating(ForFinish, Quarantined(j)) && s.net == claimed[|claimed| - 1].net
  {
    run := claimed;
    var s := run[|run| - 1];
    s := s.(disk := s.disk.(primary := None), pc := Writing(ToRecover(ForFinish), Quarantined(j)));
    assert Quarantines(run[|run| - 1], s);
    run := Extend(run, s);
    s := s.(disk := s.disk.(primary := Some(Encode(Quarantined(j)))), pc := Mutating(ForFinish, Quarantined(j)));
    assert Writes(run[|run| - 1], s);
    run := Extend(run, s);
  }

  /** After damage the fallback has no active evidence, so recovery claims and
      deletes a rule that appeared after the active snapshot. */
  lemma FallbackClaimsLaterRules() returns (run: seq<State>, i: nat)
    ensures IsRun(run) && i < |run|
    ensures LATE_RULE in run[i].net.entries && LATE_RULE !in run[|run| - 1].net.entries
    ensures var j := DecodeSlot(run[i].disk.primary);
            j.Some? && j.value.active.Some? && !Owns(j.value.owned, LATE_RULE.key)
    ensures |run| >= 2 && LATE_RULE in run[|run| - 2].net.entries && Mutates(run[|run| - 2], run[|run| - 1])
  {
    run := Started();
    var s := run[|run| - 1];
    s := s.(net := s.net.(entries := {LATE_RULE}));
    assert NetworkMoves(run[|run| - 1], s);
    run := Extend(run, s);
    i := |run| - 1;
    assert !Owns(Reserved(), LATE_RULE.key) by { ReservedOwnsExactlyTheNamespace(); }
    OpIsAnId();
    assert DecodeSlot(run[i].disk.primary) == Some(ACTIVATED);
    run := FallenBack(run);
    run := ClaimsTheLateRule(run);
    s := run[|run| - 1];
    s := s.(net := s.net.(entries := {}));
    assert RuleDeleted(run[|run| - 1].net, LATE_RULE.key, s.net) by { assert {LATE_RULE} - {LATE_RULE} == {}; }
    assert Owns(CLAIMED, LATE_RULE.key);
    assert Mutates(run[|run| - 1], s);
    run := Extend(run, s);
  }
}
