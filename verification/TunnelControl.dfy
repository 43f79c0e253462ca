/** The control plane's own code: RecoverStaleNetworkState, the start and stop of
    Agent Tunnel, and the commands they issue. Every atomic effect is one step of
    the tunnel machine, so each method is a piece of a run and inherits what runs
    keep; a crash is the end of such a run at any point. */
module TunnelControl {
  import opened Wrappers
  import opened RoutingOwnership
  import opened HostNetwork
  import opened TunnelJournal
  import opened TunnelMachine
  import opened TunnelInvariant
  import opened RecoveryConvergence
  import opened RecoveryRuns
  import opened RepeatedRecovery
  import AtomicFile

  /** What the rest of the host may have done between two steps. */
  ghost predicate Undisturbed(a: State, b: State) {
    && b.pc == a.pc && b.ops == a.ops
    && b.disk == a.disk.(primary := b.disk.primary)
    && (b.disk.primary == a.disk.primary || (a.disk.primary.Some? && b.disk.primary.Some?))
    && (b.cmd == a.cmd || b.cmd.None?) && b.unjournaled == a.unjournaled
  }

  class ControlPlane {
    var s: State
    ghost var trace: seq<State>
    /** From this state of the trace on every step has been a quiet one. */
    ghost var quietSince: nat
    /** The rules and tables that commands have been issued for. */
    ghost var commanded: set<Key>
    /** No interference, and no system call or command fails. */
    const calm: bool

    ghost predicate Valid()
      reads this
    {
      IsRun(trace) && trace[|trace| - 1] == s && quietSince < |trace| && QuietFrom(trace, quietSince)
    }

    /** A control plane on a host with any past. */
    constructor (ghost past: seq<State>, now: State, calm: bool)
      requires IsRun(past) && past[|past| - 1] == now
      ensures Valid() && s == now && trace == past && this.calm == calm
    {
      s := now;
      trace := past;
      quietSince := |past| - 1;
      commanded := {};
      this.calm := calm;
    }

    lemma Known()
      requires Valid()
      ensures Inv(s)
    {
      Reachable(trace, |trace| - 1);
    }

    method Step(t: State)
      requires Valid() && Next(s, t)
      modifies this
      ensures Valid() && s == t && trace == old(trace) + [t] && commanded == old(commanded)
      ensures quietSince == if Quiet(old(s), t) then old(quietSince) else |old(trace)|
    {
      ghost var longer := Extend(trace, t);
      if Quiet(s, t) {
        QuietGrows(trace, t, quietSince);
      } else {
        quietSince := |trace|;
      }
      trace := longer;
      s := t;
    }

    /** Any number of steps of other processes, and damage to the primary. */
    method Interfere()
      requires Valid()
      modifies this
      ensures Valid() && old(trace) <= trace
              && (calm ==> quietSince == old(quietSince) && s.live == old(s.live)) && commanded == old(commanded)
      ensures Undisturbed(old(s), s)
      ensures calm ==> s == old(s) && trace == old(trace)
    {
      var n: nat := *;
      while n > 0 && !calm
        invariant Valid() && old(trace) <= trace
                  && (calm ==> quietSince == old(quietSince) && s.live == old(s.live))
                  && Undisturbed(old(s), s) && commanded == old(commanded)
        invariant calm ==> s == old(s) && trace == old(trace)
      {
        if * {
          HostActs();
        } else if * {
          HelperEnds();
        } else {
          DamagePrimary();
        }
        n := n - 1;
      }
    }

    method HostActs()
      requires Valid()
      modifies this
      ensures Valid() && old(trace) <= trace && commanded == old(commanded)
      ensures s == old(s).(net := s.net, live := s.live, spent := s.spent)
    {
      Known();
      if * {
        assert NetworkMoves(s, s);
        var t :| NetworkMoves(s, t);
        assert NetworkMoves(s, t);
        Step(t);
      } else {
        assert ProcessesMove(s, s);
        var t :| ProcessesMove(s, t);
        assert ProcessesMove(s, t);
        Step(t);
      }
    }

    method HelperEnds()
      requires Valid()
      modifies this
      ensures Valid() && old(trace) <= trace && commanded == old(commanded)
      ensures Undisturbed(old(s), s)
    {
      if s.helper.Some? {
        var t := s.(helper := None, live := s.live - {s.helper.value});
        assert HelperExits(s, t);
        Step(t);
      } else if s.cmd.Some? {
        var t := s.(cmd := None);
        assert Reaped(s, t);
        Step(t);
      }
    }

    /** Possible at any time but while an orphaned helper runs. */
    method DamagePrimary()
      requires Valid()
      modifies this
      ensures Valid() && old(trace) <= trace && commanded == old(commanded)
      ensures s == old(s).(disk := old(s.disk).(primary := s.disk.primary), corrupted := s.corrupted)
      ensures s.disk.primary == old(s.disk.primary) || (old(s.disk.primary).Some? && s.disk.primary.Some?)
    {
      if s.disk.primary.Some? && (s.helper.None? || (s.helper == s.cmd && !s.pc.Down?)) {
        var t := s.(disk := s.disk.(primary := Some(Malformed)), corrupted := true);
        assert PrimaryDamaged(s, t);
        Step(t);
      }
    }

    /** Whether a system call or command fails. */
    method Fails() returns (failed: bool)
      ensures calm ==> !failed
    {
      failed := *;
      failed := failed && !calm;
    }

    /** A call returns an error before it has changed anything. */
    method GiveUp()
      requires Valid() && !s.pc.Down? && !s.pc.Writing?
      modifies this
      ensures Valid() && old(trace) <= trace
              && (calm ==> quietSince == old(quietSince) && s.live == old(s.live)) && s == old(s).(pc := Idle)
      ensures commanded == old(commanded)
    {
      var t := s.(pc := Idle);
      assert GivesUp(s, t);
      Step(t);
    }

    /** writeTunnelJournal: the outcome is one of atomicfile.Write's. */
    method WriteTunnelJournal() returns (ok: bool)
      requires Valid() && s.pc.Writing?
      modifies this
      ensures Valid() && old(trace) <= trace
              && (calm ==> quietSince == old(quietSince) && s.live == old(s.live)) && commanded == old(commanded)
      ensures calm ==> ok
      ensures ok ==> var j := old(s.pc.j); var p := old(s.pc.p);
                     s == old(s).(disk := old(s.disk).(primary := Some(Encode(j)), backup := AtomicFile.Kept(old(s.disk.primary), old(s.disk.backup))),
                                  pc := WrittenPc(p, j))
      ensures !ok ==> AtomicFile.WriteOutcome(old(s.disk.primary), old(s.disk.backup), Encode(old(s.pc.j)), s.disk.primary, s.disk.backup)
      ensures !ok ==> s.disk.lastClean == old(s.disk.lastClean) && s.net == old(s.net)
      ensures !ok ==> s.pc.Idle? && s.cmd == old(s.cmd) && s.ops == old(s.ops)
      ensures old(s.pc.p).ToActivate? ==> s.unjournaled == old(s.unjournaled)
    {
      var j := s.pc.j;
      var kept := AtomicFile.Kept(s.disk.primary, s.disk.backup);
      var written := s.disk.(primary := Some(Encode(j)), backup := kept);
      var failed := Fails();
      if failed {
        var left := written;
        if * {
          left := s.disk;
        } else if * {
          left := s.disk.(backup := kept);
        }
        var t := s.(disk := left, pc := Idle, unjournaled := s.unjournaled || InWindow(s.pc, left));
        assert GivesUp(s, t);
        Step(t);
        return false;
      }
      var t := s.(disk := written, pc := WrittenPc(s.pc.p, j));
      assert Writes(s, t);
      Step(t);
      return true;
    }

    method PersistCleanJournal() returns (ok: bool)
      requires Valid() && s.pc.CleanWriting?
      modifies this
      ensures Valid() && old(trace) <= trace
              && (calm ==> quietSince == old(quietSince) && s.live == old(s.live)) && s.ops == old(s.ops)
      ensures calm ==> ok && s.net == old(s.net)
      ensures ok ==> s.pc == AfterRecovery(old(s.pc.k)) && s.disk == Disk(None, None, Some(Encode(old(s.pc.j))))
      ensures !ok ==> s.pc.Idle?
      ensures s.cmd == old(s.cmd) || s.cmd.None?
      ensures ok ==> s.unjournaled == old(s.unjournaled)
    {
      Interfere();
      ok := WriteLastClean();
      if !ok {
        return;
      }
      ok := RemoveJournals();
    }

    method RemoveJournals() returns (ok: bool)
      requires Valid() && s.pc.RemovingPrimary?
      modifies this
      ensures Valid() && old(trace) <= trace
              && (calm ==> quietSince == old(quietSince) && s.live == old(s.live)) && s.ops == old(s.ops)
      ensures calm ==> ok && s.net == old(s.net)
      ensures ok ==> s.pc == AfterRecovery(old(s.pc.k)) && s.disk == Disk(None, None, old(s.disk.lastClean))
      ensures !ok ==> s.pc.Idle?
      ensures s.cmd == old(s.cmd) || s.cmd.None?
      ensures ok ==> s.unjournaled == old(s.unjournaled)
    {
      Interfere();
      ok := RemovePrimary();
      if !ok {
        return;
      }
      Interfere();
      ok := RemoveBackup();
    }

    method WriteLastClean() returns (ok: bool)
      requires Valid() && s.pc.CleanWriting?
      modifies this
      ensures Valid() && old(trace) <= trace
              && (calm ==> quietSince == old(quietSince) && s.live == old(s.live)) && (calm ==> ok)
      ensures ok ==> s == old(s).(disk := old(s.disk).(lastClean := Some(Encode(old(s.pc.j)))), pc := RemovingPrimary(old(s.pc.k), old(s.pc.j)))
      ensures !ok ==> s == old(s).(disk := s.disk, pc := Idle)
      ensures !ok ==> s.disk == old(s.disk) || s.disk == old(s.disk).(lastClean := Some(Encode(old(s.pc.j))))
    {
      var d := s.disk.(lastClean := Some(Encode(s.pc.j)));
      var failed := Fails();
      if failed {
        var kept: bool := *;
        var t := s.(disk := if kept then d else s.disk, pc := Idle);
        assert GivesUp(s, t);
        Step(t);
        return false;
      }
      var t := s.(disk := d, pc := RemovingPrimary(s.pc.k, s.pc.j));
      assert WritesClean(s, t);
      Step(t);
      return true;
    }

    method RemovePrimary() returns (ok: bool)
      requires Valid() && s.pc.RemovingPrimary?
      modifies this
      ensures Valid() && old(trace) <= trace
              && (calm ==> quietSince == old(quietSince) && s.live == old(s.live)) && (calm ==> ok)
      ensures ok ==> s == old(s).(disk := old(s.disk).(primary := None), pc := RemovingBackup(old(s.pc.k), old(s.pc.j)))
      ensures !ok ==> s == old(s).(pc := Idle)
    {
      var failed := Fails();
      if failed {
        GiveUp();
        return false;
      }
      var t := s.(disk := s.disk.(primary := None), pc := RemovingBackup(s.pc.k, s.pc.j));
      assert RemovesPrimary(s, t);
      Step(t);
      return true;
    }

    method RemoveBackup() returns (ok: bool)
      requires Valid() && s.pc.RemovingBackup?
      modifies this
      ensures Valid() && old(trace) <= trace
              && (calm ==> quietSince == old(quietSince) && s.live == old(s.live)) && (calm ==> ok)
      ensures ok ==> s == old(s).(disk := old(s.disk).(backup := None), pc := AfterRecovery(old(s.pc.k)))
      ensures !ok ==> s == old(s).(pc := Idle)
    {
      var failed := Fails();
      if failed {
        GiveUp();
        return false;
      }
      var t := s.(disk := s.disk.(backup := None), pc := AfterRecovery(s.pc.k));
      assert RemovesBackup(s, t);
      Step(t);
      return true;
    }

    // ------------------------------------------------------ recovery commands

    /** One network command for keys the running recovery owns. */
    method Command(after: Network, ghost keys: set<Key>)
      requires Valid() && s.pc.Mutating? && RecoveryCommand(s.pc.j.owned, s.net, after)
      requires forall e :: e in s.net.entries && e !in after.entries ==> e.dev == TUN_NAME || e.key in keys
      modifies this
      ensures Valid() && trace == old(trace) + [s]
              && (calm ==> quietSince == old(quietSince) && s.live == old(s.live))
              && s == old(s).(net := after) && commanded == old(commanded) + keys
    {
      var t := s.(net := after);
      assert Mutates(s, t);
      Step(t);
      commanded := commanded + keys;
    }

    method DeleteOneRule(k: Key)
      requires Valid() && s.pc.Mutating? && k.Priority? && Owns(s.pc.j.owned, k) && HasKey(s.net, k)
      modifies this
      ensures Valid() && trace == old(trace) + [s]
              && (calm ==> quietSince == old(quietSince) && s.live == old(s.live)) && commanded == old(commanded) + {k}
      ensures s == old(s).(net := old(s.net).(entries := s.net.entries)) && s.net.entries <= old(s.net.entries)
      ensures forall e :: e in old(s.net.entries) && e.key != k ==> e in s.net.entries
      ensures |At(s.net, k)| == |At(old(s.net), k)| - 1
    {
      var e :| e in s.net.entries && e.key == k;
      var after := s.net.(entries := s.net.entries - {e});
      assert At(after, k) == At(s.net, k) - {e};
      assert RuleDeleted(s.net, Priority(k.fam, k.prio), after);
      Command(after, {k});
    }

    method DeleteRulePriority(f: Family, p: int) returns (ok: bool)
      requires Valid() && s.pc.Mutating? && Owns(s.pc.j.owned, Priority(f, p))
      modifies this
      ensures Valid() && old(trace) <= trace
              && (calm ==> quietSince == old(quietSince) && s.live == old(s.live))
              && Undisturbed(old(s), s) && commanded <= old(commanded) + {Priority(f, p)}
      ensures calm ==> ok && s == old(s).(net := s.net) && Trimmed(old(s.net), s.net, Priority(f, p))
      ensures calm ==> TrimsSince(old(s.net), Priority(f, p), trace, |old(trace)|)
    {
      var k := Priority(f, p);
      Interfere();
      var failed := Fails();
      if failed {
        return false; // `ip rule show` failed
      }
      if !HasKey(s.net, k) {
        assert At(s.net, k) == {};
        return true;
      }
      ok := DeleteUpToEight(k);
    }

    method DeleteUpToEight(k: Key) returns (ok: bool)
      requires Valid() && s.pc.Mutating? && k.Priority? && Owns(s.pc.j.owned, k)
      modifies this
      ensures Valid() && old(trace) <= trace
              && (calm ==> quietSince == old(quietSince) && s.live == old(s.live))
              && Undisturbed(old(s), s) && commanded <= old(commanded) + {k}
      ensures calm ==> ok && s == old(s).(net := s.net) && Trimmed(old(s.net), s.net, k)
      ensures calm ==> TrimsSince(old(s.net), k, trace, |old(trace)|)
    {
      for i := 0 to ATTEMPTS
        invariant Valid() && old(trace) <= trace
                  && (calm ==> quietSince == old(quietSince) && s.live == old(s.live))
                  && Undisturbed(old(s), s) && commanded <= old(commanded) + {k}
        invariant calm ==> s == old(s).(net := s.net)
        invariant calm ==> s.net == old(s.net).(entries := s.net.entries) && s.net.entries <= old(s.net.entries)
        invariant calm ==> forall e :: e in old(s.net.entries) && e.key != k ==> e in s.net.entries
        invariant calm ==> |At(s.net, k)| == |At(old(s.net), k)| - i && TrimsSince(old(s.net), k, trace, |old(trace)|)
      {
        var more: bool;
        more, ok := DeleteAttempt(k);
        if !more {
          return;
        }
      }
      return true;
    }

    /** One attempt; `more` says that it deleted a rule. */
    method DeleteAttempt(k: Key) returns (more: bool, ok: bool)
      requires Valid() && s.pc.Mutating? && k.Priority? && Owns(s.pc.j.owned, k)
      modifies this
      ensures Valid() && old(trace) <= trace
              && (calm ==> quietSince == old(quietSince) && s.live == old(s.live))
              && Undisturbed(old(s), s) && commanded <= old(commanded) + {k}
      ensures calm ==> ok && (more <==> At(old(s.net), k) != {})
      ensures calm && !more ==> s == old(s) && trace == old(trace)
      ensures calm && more ==> trace == old(trace) + [s] && s == old(s).(net := old(s.net).(entries := s.net.entries)) && s.net.entries <= old(s.net.entries)
                               && (forall e :: e in old(s.net.entries) && e.key != k ==> e in s.net.entries)
                               && |At(s.net, k)| == |At(old(s.net), k)| - 1
    {
      Interfere();
      var failed := Fails();
      if failed {
        more := false;
        ok := *; // an unexplained error fails the call, one without any text does not
        return;
      }
      if !HasKey(s.net, k) {
        assert At(s.net, k) == {};
        return false, true; // "no such file"
      }
      DeleteOneRule(k);
      return true, true;
    }

    method FlushRouteTable(f: Family, table: string) returns (ok: bool)
      requires Valid() && s.pc.Mutating? && Owns(s.pc.j.owned, Table(f, table))
      modifies this
      ensures Valid() && old(trace) <= trace
              && (calm ==> quietSince == old(quietSince) && s.live == old(s.live))
              && Undisturbed(old(s), s) && commanded <= old(commanded) + {Table(f, table)}
      ensures calm ==> ok && s == old(s).(net := TableFlushed(old(s.net), Table(f, table)))
      ensures calm ==> trace == old(trace) || trace == old(trace) + [s]
    {
      var k := Table(f, table);
      Interfere();
      var failed := Fails();
      if failed {
        return false; // `ip route show` failed
      }
      if !HasKey(s.net, k) {
        assert TableFlushed(s.net, k).entries == s.net.entries;
        return true;
      }
      failed := Fails();
      if failed {
        ok := *; // errors that name a missing table count as success
        return;
      }
      Command(TableFlushed(s.net, k), {k});
      return true;
    }

    method DeleteTun() returns (ok: bool)
      requires Valid() && s.pc.Mutating?
      modifies this
      ensures Valid() && old(trace) <= trace
              && (calm ==> quietSince == old(quietSince) && s.live == old(s.live))
              && Undisturbed(old(s), s) && commanded == old(commanded)
      ensures calm ==> ok && s == old(s).(net := LinkDeleted(old(s.net)))
      ensures calm ==> trace == old(trace) || trace == old(trace) + [s]
    {
      Known();
      Interfere();
      if s.net.tun.Some? {
        var failed := Fails();
        if failed {
          return false;
        }
        Command(LinkDeleted(s.net), {});
      } else {
        assert calm ==> LinkDeleted(s.net).entries == s.net.entries;
      }
      return true;
    }

    /** One round of the loop over owned priorities. */
    method DeleteNext(f: Family, p: int, ghost owned: Owned, ghost start: Network, ghost gone: set<Key>) returns (ok: bool)
      requires Valid() && s.pc.Mutating? && WellFormed(start) && Owns(s.pc.j.owned, Priority(f, p))
      requires calm ==> Partway(start, gone, s.net)
      requires Priority(f, p) !in gone && AllOwned(owned, gone + {Priority(f, p)})
      modifies this
      ensures Valid() && old(trace) <= trace
              && (calm ==> quietSince == old(quietSince) && s.live == old(s.live))
              && Undisturbed(old(s), s) && commanded <= old(commanded) + {Priority(f, p)}
      ensures calm ==> ok && s == old(s).(net := s.net) && Partway(start, gone + {Priority(f, p)}, s.net)
      ensures calm ==> CutSince(start, owned, trace, |old(trace)|)
    {
      ghost var before, from := s.net, |trace|;
      ok := DeleteRulePriority(f, p);
      if calm {
        TrimmedGoesOn(start, gone, before, s.net, Priority(f, p));
        TrimsAreCuts(start, owned, gone, before, Priority(f, p), trace, from);
      }
    }

    method FlushNext(f: Family, table: string, ghost owned: Owned, ghost start: Network, ghost gone: set<Key>) returns (ok: bool)
      requires Valid() && s.pc.Mutating? && WellFormed(start) && Owns(s.pc.j.owned, Table(f, table))
      requires calm ==> Partway(start, gone, s.net)
      requires AllOwned(owned, gone + {Table(f, table)})
      modifies this
      ensures Valid() && old(trace) <= trace
              && (calm ==> quietSince == old(quietSince) && s.live == old(s.live))
              && Undisturbed(old(s), s) && commanded <= old(commanded) + {Table(f, table)}
      ensures calm ==> ok && s == old(s).(net := s.net) && Partway(start, gone + {Table(f, table)}, s.net)
      ensures calm ==> CutSince(start, owned, trace, |old(trace)|)
    {
      ghost var before := s.net;
      ok := FlushRouteTable(f, table);
      if calm {
        FlushedGoesOn(start, gone, before, Table(f, table));
        PartwayIsACut(start, owned, gone + {Table(f, table)}, s.net);
      }
    }

    method DeletePriorities(f: Family, prios: seq<int>, ghost owned: Owned, ghost start: Network, ghost done: set<Key>) returns (ok: bool)
      requires Valid() && s.pc.Mutating? && WellFormed(start)
      requires forall i :: 0 <= i < |prios| ==> Owns(s.pc.j.owned, Priority(f, prios[i]))
      requires forall i, j :: 0 <= i < j < |prios| ==> prios[i] != prios[j]
      requires calm ==> Partway(start, done, s.net)
      requires forall p :: Priority(f, p) !in done
      requires AllOwned(owned, done + PriorityKeys(f, prios))
      modifies this
      ensures Valid() && old(trace) <= trace
              && (calm ==> quietSince == old(quietSince) && s.live == old(s.live))
              && Undisturbed(old(s), s) && commanded <= old(commanded) + PriorityKeys(f, prios)
      ensures calm ==> ok && s == old(s).(net := s.net) && Partway(start, done + PriorityKeys(f, prios), s.net)
      ensures calm ==> CutSince(start, owned, trace, |old(trace)|)
    {
      ghost var gone := done;
      assert prios[..0] == [] && done + PriorityKeys(f, []) == done;
      for i := 0 to |prios|
        invariant Valid() && old(trace) <= trace
                  && (calm ==> quietSince == old(quietSince) && s.live == old(s.live))
                  && Undisturbed(old(s), s) && commanded <= old(commanded) + PriorityKeys(f, prios)
        invariant gone == done + PriorityKeys(f, prios[..i])
        invariant calm ==> s == old(s).(net := s.net) && Partway(start, gone, s.net) && CutSince(start, owned, trace, |old(trace)|)
      {
        NextPriority(f, prios, i, done);
        var deleted := DeleteNext(f, prios[i], owned, start, gone);
        if !deleted {
          return false;
        }
        gone := gone + {Priority(f, prios[i])};
      }
      assert prios[..|prios|] == prios;
      return true;
    }

    method FlushTables(f: Family, tables: seq<string>, ghost owned: Owned, ghost start: Network, ghost done: set<Key>) returns (ok: bool)
      requires Valid() && s.pc.Mutating? && forall i :: 0 <= i < |tables| ==> Owns(s.pc.j.owned, Table(f, tables[i]))
      requires calm ==> Partway(start, done, s.net)
      requires WellFormed(start) && AllOwned(owned, done + TableKeys(f, tables))
      modifies this
      ensures Valid() && old(trace) <= trace
              && (calm ==> quietSince == old(quietSince) && s.live == old(s.live))
              && Undisturbed(old(s), s) && commanded <= old(commanded) + TableKeys(f, tables)
      ensures calm ==> ok && s == old(s).(net := s.net) && Partway(start, done + TableKeys(f, tables), s.net)
      ensures calm ==> CutSince(start, owned, trace, |old(trace)|)
    {
      ghost var gone := done;
      assert tables[..0] == [] && done + TableKeys(f, []) == done;
      for i := 0 to |tables|
        invariant Valid() && old(trace) <= trace
                  && (calm ==> quietSince == old(quietSince) && s.live == old(s.live))
                  && Undisturbed(old(s), s) && commanded <= old(commanded) + TableKeys(f, tables)
        invariant gone == done + TableKeys(f, tables[..i])
        invariant calm ==> s == old(s).(net := s.net) && Partway(start, gone, s.net) && CutSince(start, owned, trace, |old(trace)|)
      {
        NextTable(f, tables, i, done);
        var flushed := FlushNext(f, tables[i], owned, start, gone);
        if !flushed {
          return false;
        }
        gone := gone + {Table(f, tables[i])};
      }
      assert tables[..|tables|] == tables;
      return true;
    }

    method DeleteOwnedRules(owned: Owned, ghost start: Network) returns (ok: bool)
      requires Valid() && s.pc.Mutating? && WellFormed(start)
      requires Canonical(owned) && forall k :: Owns(owned, k) ==> Owns(s.pc.j.owned, k)
      requires calm ==> Partway(start, {}, s.net)
      modifies this
      ensures Valid() && old(trace) <= trace
              && (calm ==> quietSince == old(quietSince) && s.live == old(s.live))
              && Undisturbed(old(s), s) && commanded <= old(commanded) + RuleKeys(owned)
      ensures calm ==> ok && s == old(s).(net := s.net) && Partway(start, RuleKeys(owned), s.net)
      ensures calm ==> CutSince(start, owned, trace, |old(trace)|)
    {
      OwnedKeysAt(owned);
      ok := DeletePriorities(V4, owned.priosV4, owned, start, {});
      if !ok {
        return;
      }
      ok := DeletePriorities(V6, owned.priosV6, owned, start, {} + PriorityKeys(V4, owned.priosV4));
      assert {} + PriorityKeys(V4, owned.priosV4) + PriorityKeys(V6, owned.priosV6) == RuleKeys(owned);
    }

    method FlushOwnedTables(owned: Owned, ghost start: Network) returns (ok: bool)
      requires Valid() && s.pc.Mutating? && WellFormed(start) && forall k :: Owns(owned, k) ==> Owns(s.pc.j.owned, k)
      requires calm ==> Partway(start, RuleKeys(owned), s.net)
      modifies this
      ensures Valid() && old(trace) <= trace
              && (calm ==> quietSince == old(quietSince) && s.live == old(s.live)) && Undisturbed(old(s), s)
      ensures commanded <= old(commanded) + TableKeys(V4, owned.tablesV4) + TableKeys(V6, owned.tablesV6)
      ensures calm ==> ok && s == old(s).(net := s.net) && Recovered(start, owned, s.net)
      ensures calm ==> CutSince(start, owned, trace, |old(trace)|)
    {
      OwnedKeysAt(owned);
      ok := FlushTables(V4, owned.tablesV4, owned, start, RuleKeys(owned));
      if !ok {
        return;
      }
      ok := FlushTables(V6, owned.tablesV6, owned, start, RuleKeys(owned) + TableKeys(V4, owned.tablesV4));
      if calm {
        PartwayEndsRecovered(start, owned, s.net);
      }
    }

    method RemoveOwned(owned: Owned, ghost start: Network) returns (ok: bool)
      requires Valid() && s.pc.Mutating? && WellFormed(start)
      requires Canonical(owned) && forall k :: Owns(owned, k) ==> Owns(s.pc.j.owned, k)
      requires calm ==> Partway(start, {}, s.net)
      modifies this
      ensures Valid() && old(trace) <= trace
              && (calm ==> quietSince == old(quietSince) && s.live == old(s.live)) && Undisturbed(old(s), s)
      ensures forall k :: k in commanded && k !in old(commanded) ==> Owns(owned, k)
      ensures calm ==> ok && s == old(s).(net := s.net) && Recovered(start, owned, s.net)
      ensures calm ==> CutSince(start, owned, trace, |old(trace)|)
    {
      ok := DeleteOwnedRules(owned, start);
      if !ok {
        return;
      }
      ok := FlushOwnedTables(owned, start);
    }

    /** recoverPlatformOwnedNetworkState: only owned keys are ever deleted; without
        failures and interference the result is exactly Recovered, and from every
        state on the way a second run ends in the same network, if one run can
        empty every priority. */
    method RecoverPlatformOwnedNetworkState(owned: Owned) returns (ok: bool)
      requires Valid() && s.pc.Mutating?
      requires Canonical(owned) && forall k :: Owns(owned, k) ==> Owns(s.pc.j.owned, k)
      modifies this
      ensures Valid() && old(trace) <= trace
              && (calm ==> quietSince == old(quietSince) && s.live == old(s.live)) && Undisturbed(old(s), s)
      ensures forall k :: k in commanded && k !in old(commanded) ==> Owns(owned, k)
      ensures calm ==> ok && s == old(s).(net := s.net) && Recovered(old(s.net), owned, s.net)
      ensures calm && WithinOneRun(old(s.net), owned) ==> RerunsEndIn(owned, trace, |old(trace)|, s.net)
    {
      NetworkIsWellFormed();
      ghost var start, from := s.net, |trace|;
      ok := DeleteTun();
      if !ok {
        return;
      }
      if calm {
        PartwayIsACut(start, owned, {}, s.net);
      }
      ok := RemoveOwned(owned, start);
      if calm && WithinOneRun(start, owned) {
        CutsConverge(start, owned, trace, from, s.net);
      }
    }

    lemma NetworkIsWellFormed()
      requires Valid()
      ensures WellFormed(s.net)
    {
      Known();
    }

    /** Root fallback: it reads the journal again and, whatever that says and
        whatever fails, issues commands only inside the reserved namespace. */
    method RunLinuxPrivilegedRecovery() returns (ok: bool)
      requires Valid() && s.pc.Mutating?
      modifies this
      ensures Valid() && old(trace) <= trace
              && (calm ==> quietSince == old(quietSince) && s.live == old(s.live)) && Undisturbed(old(s), s)
      ensures forall k :: k in commanded && k !in old(commanded) ==> IsReserved(k)
      ensures ok ==> AcceptedIn(trace, |old(trace)| - 1)
      ensures calm ==> (ok <==> HelperAccepts(old(s)))
      ensures calm && ok ==> s == old(s).(net := s.net) && Recovered(old(s.net), DecodeSlot(old(s.disk.primary)).value.owned, s.net)
    {
      Interfere();
      ghost var seen := |trace| - 1;
      var accepted := AcceptJournal();
      if accepted.None? {
        return false;
      }
      RecoveryOwnsTheNamespace();
      ok := RecoverPlatformOwnedNetworkState(accepted.value.owned);
      assert HelperAccepts(trace[seen]);
    }

    /** The root helper's checks of the journal. */
    method AcceptJournal() returns (accepted: Option<Journal>)
      requires Valid()
      ensures accepted.Some? ==> HelperAccepts(s) && accepted == DecodeSlot(s.disk.primary)
      ensures accepted.Some? ==> ReservedOnly(accepted.value.owned) && Canonical(accepted.value.owned)
      ensures calm ==> (accepted.Some? <==> HelperAccepts(s))
    {
      var unreadable := Fails();
      if unreadable || s.disk.primary.None? {
        return None;
      }
      var d := Decode(s.disk.primary.value);
      if d.None? || !d.value.phase.Recovering? {
        return None;
      }
      var j := d.value;
      if j.pid > 0 && Alive(s.live, j.pid) {
        return None;
      }
      PrimaryIsSound();
      var allowed := ValidateReservedTunnelOwnership(j.owned);
      AcceptedExactly(j.before, j.owned);
      return if allowed then Some(j) else None;
    }

    lemma PrimaryIsSound()
      requires Valid() && DecodeSlot(s.disk.primary).Some?
      ensures var j := DecodeSlot(s.disk.primary).value; SoundOwnership(j.before, j.owned)
    {
      Known();
    }

    lemma RecoveryOwnsTheNamespace()
      requires Valid() && s.pc.Mutating?
      ensures Canonical(s.pc.j.owned)
      ensures forall k :: IsReserved(k) ==> Owns(s.pc.j.owned, k)
    {
      Known();
    }

    // ---------------------------------------------------------------- recovery

    /** Best effort: the recovering journal gets the error, the call fails. */
    method ReportFailure()
      requires Valid() && (s.pc.Mutating? || s.pc.Verifying?)
      modifies this
      ensures Valid() && old(trace) <= trace
              && (calm ==> quietSince == old(quietSince) && s.live == old(s.live))
              && s.pc.Idle? && s.ops == old(s.ops) && commanded == old(commanded)
      ensures s.cmd == old(s.cmd) || s.cmd.None?
      ensures calm ==> s.net == old(s.net) && s.disk.primary == Some(Encode(old(s.pc.j)))
    {
      var t := s.(pc := Writing(ToReportFailure, s.pc.j));
      assert ReportsFailure(s, t);
      Step(t);
      Interfere();
      var written := WriteTunnelJournal();
    }

    /** Claims the difference to the baseline if there is no active evidence. */
    method ClaimCurrentDifference() returns (ok: bool)
      requires Valid() && s.pc.Capturing?
      modifies this
      ensures Valid() && old(trace) <= trace && (calm ==> quietSince == old(quietSince) && s.live == old(s.live))
      ensures calm ==> ok
      ensures ok ==> s.pc.Quarantining? && s == old(s).(pc := s.pc) && s.pc.k == old(s.pc.k)
                     && s.pc.j == old(s.pc.j).(owned := s.pc.j.owned)
                     && (old(s.pc.j.active).Some? ==> s.pc.j == old(s.pc.j))
      ensures ok ==> Claims(old(s.pc.j), old(s.net), s.pc.j)
      ensures !ok ==> s == old(s).(pc := Idle)
    {
      var k, j := s.pc.k, s.pc.j;
      var failed := Fails();
      if failed {
        GiveUp();
        return false;
      }
      var current := Capture(s.net);
      if j.active.None? {
        var d := DeriveOwnedNetworkDelta(j.before, current);
        var m := MergeOwnedNetworkDelta(j.owned, d);
        j := j.(owned := m.(tunnel := TUN_NAME));
      }
      assert Attributed(s.pc.j, current, j);
      var t := s.(pc := Quarantining(k, j));
      assert CapturesStale(s, t);
      Step(t);
      return true;
    }

    /** Moves a damaged primary away and makes the recovering journal durable. */
    method JournalRecovering() returns (ok: bool)
      requires Valid() && s.pc.Quarantining?
      modifies this
      ensures Valid() && old(trace) <= trace
              && (calm ==> quietSince == old(quietSince) && s.live == old(s.live))
              && s.ops == old(s.ops) && (s.cmd == old(s.cmd) || s.cmd.None?)
      ensures ok ==> s.pc == Mutating(old(s.pc.k), Quarantined(old(s.pc.j))) && s.disk.primary == Some(Encode(s.pc.j))
      ensures !ok ==> s.pc.Idle?
      ensures calm ==> ok && s.net == old(s.net)
      ensures ok ==> s.unjournaled == old(s.unjournaled)
    {
      ok := QuarantineInvalidPrimary();
      if !ok {
        return;
      }
      Interfere();
      ok := WriteTunnelJournal();
    }

    method ClaimAndJournal() returns (ok: bool)
      requires Valid() && s.pc.Capturing?
      modifies this
      ensures Valid() && old(trace) <= trace
              && (calm ==> quietSince == old(quietSince) && s.live == old(s.live))
              && s.ops == old(s.ops) && (s.cmd == old(s.cmd) || s.cmd.None?)
      ensures ok ==> s.pc.Mutating? && s.pc.k == old(s.pc.k) && s.pc.j == Quarantined(old(s.pc.j)).(owned := s.pc.j.owned)
                     && (old(s.pc.j.active).Some? ==> s.pc.j.owned == old(s.pc.j.owned))
      ensures ok ==> s.disk.primary == Some(Encode(s.pc.j))
      ensures ok ==> ClaimSeen(old(s.pc.j), s.pc.j, trace, |old(trace)| - 1)
      ensures !ok ==> s.pc.Idle?
      ensures calm ==> ok && s.net == old(s.net) && WritesClaim(old(s.pc.j), old(s.net), s.pc.j)
      ensures ok ==> s.unjournaled == old(s.unjournaled)
    {
      Interfere();
      ok := ClaimCurrentDifference();
      if !ok {
        return;
      }
      Interfere();
      ok := JournalRecovering();
    }

    method QuarantineInvalidPrimary() returns (ok: bool)
      requires Valid() && s.pc.Quarantining?
      modifies this
      ensures Valid() && old(trace) <= trace && (calm ==> quietSince == old(quietSince) && s.live == old(s.live))
      ensures calm ==> ok
      ensures ok ==> s == old(s).(disk := if old(s.pc.j).fromBackup then old(s.disk).(primary := None) else old(s.disk),
                                  pc := Writing(ToRecover(old(s.pc.k)), Quarantined(old(s.pc.j))))
      ensures !ok ==> s == old(s).(pc := Idle)
    {
      Known();
      var j := s.pc.j;
      var failed := Fails();
      if j.fromBackup && failed {
        GiveUp();
        return false;
      }
      var t := s.(disk := if j.fromBackup then s.disk.(primary := None) else s.disk, pc := Writing(ToRecover(s.pc.k), Quarantined(j)));
      assert Quarantines(s, t);
      Step(t);
      return true;
    }

    method MutateNetwork() returns (ok: bool)
      requires Valid() && s.pc.Mutating?
      modifies this
      ensures Valid() && old(trace) <= trace
              && (calm ==> quietSince == old(quietSince) && s.live == old(s.live))
              && s.ops == old(s.ops) && (s.cmd == old(s.cmd) || s.cmd.None?)
      ensures ok ==> s.pc == Verifying(old(s.pc.k), old(s.pc.j))
      ensures !ok ==> s.pc.Idle?
      ensures calm ==> ok && s.disk == old(s.disk) && Recovered(old(s.net), old(s.pc.j.owned), s.net)
      ensures ok ==> s.unjournaled == old(s.unjournaled)
    {
      RecoveryOwnsTheNamespace();
      ok := RecoverPlatformOwnedNetworkState(s.pc.j.owned);
      if !ok {
        if * {
          ok := RunLinuxPrivilegedRecovery(); // the failure was a missing permission
        }
      }
      if !ok {
        ReportFailure();
        return;
      }
      var t := s.(pc := Verifying(s.pc.k, s.pc.j));
      assert FinishesMutating(s, t);
      Step(t);
    }

    method VerifyAndFinish() returns (ok: bool)
      requires Valid() && s.pc.Verifying?
      modifies this
      ensures Valid() && old(trace) <= trace
              && (calm ==> quietSince == old(quietSince) && s.live == old(s.live))
              && s.ops == old(s.ops) && (s.cmd == old(s.cmd) || s.cmd.None?)
      ensures ok ==> s.pc == AfterRecovery(old(s.pc.k)) && s.disk == Disk(None, None, Some(Encode(Finalised(old(s.pc.j)))))
      ensures !ok ==> s.pc.Idle?
      ensures calm ==> s.net == old(s.net)
      ensures calm ==> (ok <==> old(s.net).tun.None? && forall k :: Owns(old(s.pc.j.owned), k) ==> !HasKey(old(s.net), k))
      ensures calm && !ok ==> s.disk.primary == old(s.disk.primary) || s.disk.primary == Some(Encode(old(s.pc.j)))
      ensures ok ==> s.unjournaled == old(s.unjournaled)
    {
      Interfere();
      ok := VerifyAbsence();
      if !ok {
        return;
      }
      Interfere();
      ok := CheckTunGone();
      if !ok {
        return;
      }
      ok := PersistCleanJournal();
    }

    method VerifyAbsence() returns (ok: bool)
      requires Valid() && s.pc.Verifying?
      modifies this
      ensures Valid() && old(trace) <= trace
              && (calm ==> quietSince == old(quietSince) && s.live == old(s.live))
              && s.ops == old(s.ops) && (s.cmd == old(s.cmd) || s.cmd.None?)
      ensures ok ==> s == old(s).(pc := TunChecking(old(s.pc.k), old(s.pc.j)))
      ensures ok ==> forall k :: Owns(old(s.pc.j.owned), k) ==> !HasKey(old(s.net), k)
      ensures !ok ==> s.pc.Idle?
      ensures calm ==> s.net == old(s.net)
      ensures calm ==> (ok <==> forall k :: Owns(old(s.pc.j.owned), k) ==> !HasKey(old(s.net), k))
      ensures calm && !ok ==> s.disk.primary == Some(Encode(old(s.pc.j)))
    {
      var failed := Fails();
      if failed {
        GiveUp();
        return false;
      }
      var post := Capture(s.net);
      var absent := VerifyOwnedDeltaAbsent(post, s.pc.j.owned);
      if !absent {
        ReportFailure();
        return false;
      }
      var t := s.(pc := TunChecking(s.pc.k, s.pc.j));
      assert Verifies(s, t);
      Step(t);
      return true;
    }

    method CheckTunGone() returns (ok: bool)
      requires Valid() && s.pc.TunChecking?
      modifies this
      ensures Valid() && old(trace) <= trace && (calm ==> quietSince == old(quietSince) && s.live == old(s.live))
      ensures ok <==> old(s.net).tun.None?
      ensures s == old(s).(pc := if ok then CleanWriting(old(s.pc.k), Finalised(old(s.pc.j))) else Idle)
    {
      if s.net.tun.Some? {
        GiveUp();
        return false;
      }
      var t := s.(pc := CleanWriting(s.pc.k, Finalised(s.pc.j)));
      assert FindsTunGone(s, t);
      Step(t);
      return true;
    }

    /** Whether the recorded helper may still be running. */
    method GuardLiveOwner() returns (ok: bool)
      requires Valid() && s.pc.Guarding?
      modifies this
      ensures Valid() && old(trace) <= trace && (calm ==> quietSince == old(quietSince) && s.live == old(s.live))
      ensures ok ==> s == old(s).(pc := Capturing(old(s.pc.k), old(s.pc.j)))
      ensures !ok ==> s == old(s).(pc := Idle)
      ensures calm ==> (ok <==> OwnerGone(old(s.live), old(s.pc.j)))
    {
      var j := s.pc.j;
      Known();
      if j.pid > 0 && Alive(s.live, j.pid) {
        var p :| p in s.live && p.pid == j.pid;
        var unreadable := Fails();
        if j.identity == "" || unreadable {
          GiveUp();
          return false;
        }
        if p.identity == j.identity {
          GiveUp();
          return false;
        }
      }
      var t := s.(pc := Capturing(s.pc.k, j));
      assert PassesGuard(s, t);
      Step(t);
      return true;
    }

    /** The destructive half: commands, verification, last-clean. */
    method MutateAndFinish() returns (ok: bool)
      requires Valid() && s.pc.Mutating?
      modifies this
      ensures Valid() && old(trace) <= trace
              && (calm ==> quietSince == old(quietSince) && s.live == old(s.live))
              && s.ops == old(s.ops) && (s.cmd == old(s.cmd) || s.cmd.None?)
      ensures ok ==> s.pc == AfterRecovery(old(s.pc.k)) && s.disk == Disk(None, None, Some(Encode(Finalised(old(s.pc.j)))))
      ensures !ok ==> s.pc.Idle?
      ensures calm ==> Recovered(old(s.net), old(s.pc.j.owned), s.net) && (ok <==> WithinOneRun(old(s.net), old(s.pc.j.owned)))
      ensures calm && !ok && old(s.disk.primary) == Some(Encode(old(s.pc.j))) ==> s.disk.primary == old(s.disk.primary)
      ensures ok ==> s.unjournaled == old(s.unjournaled)
    {
      ok := MutateNetwork();
      if !ok {
        return;
      }
      if calm {
        OneRunIsEnoughExactly(old(s.net), old(s.pc.j.owned), s.net);
      }
      ok := VerifyAndFinish();
    }

    /** From a loaded, open journal to a clean one. */
    method RecoverTransaction() returns (ok: bool)
      requires Valid() && s.pc.Guarding?
      modifies this
      ensures Valid() && old(trace) <= trace
              && (calm ==> quietSince == old(quietSince) && s.live == old(s.live))
              && s.ops == old(s.ops) && (s.cmd == old(s.cmd) || s.cmd.None?)
      ensures ok ==> s.pc == AfterRecovery(old(s.pc.k)) && s.disk.primary.None? && s.disk.backup.None?
      ensures ok ==> DecodeSlot(s.disk.lastClean).Some? && DecodeSlot(s.disk.lastClean).value.op == old(s.pc.j.op)
      ensures ok ==> s.unjournaled == old(s.unjournaled)
      ensures !ok ==> s.pc.Idle?
      ensures calm ==> if OwnerGone(old(s.live), old(s.pc.j)) then exists out :: CalmRecovery(old(s.pc.j), out, old(s.net), s.net, s.disk.primary, ok)
                       else !ok && s.net == old(s.net) && s.disk == old(s.disk)
    {
      Interfere();
      ok := GuardLiveOwner();
      if !ok {
        return;
      }
      ok := RecoverOwnerless();
    }

    method RecoverOwnerless() returns (ok: bool)
      requires Valid() && s.pc.Capturing?
      modifies this
      ensures Valid() && old(trace) <= trace
              && (calm ==> quietSince == old(quietSince) && s.live == old(s.live))
              && s.ops == old(s.ops) && (s.cmd == old(s.cmd) || s.cmd.None?)
      ensures ok ==> s.pc == AfterRecovery(old(s.pc.k)) && s.disk.primary.None? && s.disk.backup.None?
      ensures ok ==> DecodeSlot(s.disk.lastClean).Some? && DecodeSlot(s.disk.lastClean).value.op == old(s.pc.j.op)
      ensures ok ==> s.unjournaled == old(s.unjournaled)
      ensures !ok ==> s.pc.Idle?
      ensures calm ==> exists out :: CalmRecovery(old(s.pc.j), out, old(s.net), s.net, s.disk.primary, ok)
    {
      ok := ClaimAndJournal();
      if !ok {
        return;
      }
      RecoveryClaimsSoundly();
      ghost var i := s.pc.j;
      ok := MutateAndFinish();
      if calm {
        RecoveredFromClaim(old(s.pc.j), i, old(s.net), s.net, s.disk.primary, ok);
      }
    }

    /** RecoverStaleNetworkState. Success always means that no primary is left. An
        undisturbed call succeeds exactly when one run of the commands is enough for
        what the journal claims; if it fails after them, the claiming journal stays.
        An undisturbed recovery could have been cut off in any state on its way: unless
        that loses the journal, every way of finishing it ends in the same network. */
    method RecoverStaleNetworkState(k: Caller) returns (ok: bool)
      requires Valid() && s.pc == Loading(k)
      modifies this
      ensures Valid() && old(trace) <= trace
              && (calm ==> quietSince == old(quietSince) && s.live == old(s.live))
              && s.ops == old(s.ops) && (s.cmd == old(s.cmd) || s.cmd.None?)
      ensures ok ==> s.pc == AfterRecovery(k) && s.disk.primary.None?
      ensures !ok ==> s.pc.Idle?
      ensures calm ==> CalmCall(old(s), s, ok) && (ok <==> FitsIn(old(s), 1))
      ensures calm && ok ==> CutsConverged(old(s), trace, |old(trace)| - 1, s.net)
      ensures ok ==> s.unjournaled == old(s.unjournaled)
    {
      ok := LoadAndRecover(k);
      if calm && ok {
        CutsConvergedSince(old(trace), old(s));
      }
    }

    lemma CutsConvergedSince(past: seq<State>, was: State)
      requires Valid() && past != [] && past <= trace && past[|past| - 1] == was && quietSince < |past| && was.pc.Loading?
      requires s.disk.primary.None? && !s.pc.Writing? && s.unjournaled == was.unjournaled
      ensures CutsConverged(was, trace, |past| - 1, s.net)
    {
      var loaded := Load(was.disk);
      if loaded.Found? && Open(loaded.journal) {
        ClosedCutsAgree(trace, |past| - 1, was, s, loaded.journal);
      }
    }

    method LoadAndRecover(k: Caller) returns (ok: bool)
      requires Valid() && s.pc == Loading(k)
      modifies this
      ensures Valid() && old(trace) <= trace
              && (calm ==> quietSince == old(quietSince) && s.live == old(s.live))
              && s.ops == old(s.ops) && (s.cmd == old(s.cmd) || s.cmd.None?)
      ensures ok ==> s.pc == AfterRecovery(k) && s.disk.primary.None?
      ensures !ok ==> s.pc.Idle?
      ensures ok ==> s.unjournaled == old(s.unjournaled)
      ensures calm ==> CalmCall(old(s), s, ok) && (ok <==> FitsIn(old(s), 1))
    {
      ok := LoadAndProceed(k);
      if calm {
        OneCallSucceedsExactly(old(s), s, ok);
      }
    }

    method LoadAndProceed(k: Caller) returns (ok: bool)
      requires Valid() && s.pc == Loading(k)
      modifies this
      ensures Valid() && old(trace) <= trace
              && (calm ==> quietSince == old(quietSince) && s.live == old(s.live))
              && s.ops == old(s.ops) && (s.cmd == old(s.cmd) || s.cmd.None?)
      ensures ok ==> s.pc == AfterRecovery(k) && s.disk.primary.None?
      ensures !ok ==> s.pc.Idle?
      ensures ok ==> s.unjournaled == old(s.unjournaled)
      ensures calm ==> CalmCall(old(s), s, ok)
    {
      Interfere();
      var failed := Fails();
      if failed {
        GiveUp();
        return false;
      }
      var loaded := Load(s.disk);
      var t := s.(pc := LoadedPc(k, s.disk));
      assert Loads(s, t);
      Step(t);
      match loaded
      case Nothing =>
        return true;
      case Invalid =>
        return false;
      case Found(j) =>
        if Open(j) {
          ok := RecoverTransaction();
        } else {
          ok := PersistCleanJournal();
        }
    }

    // ----------------------------------------------------------- start and stop

    /** beginTunnelTransaction: on success the prepared journal is durable, claims
        exactly the reserved namespace, and nothing of an earlier helper is left. */
    method BeginTunnelTransaction(op: string) returns (ok: bool)
      requires Valid() && s.pc.Idle? && s.cmd.None? && !Blank(op) && op !in s.ops
      modifies this
      ensures Valid() && old(trace) <= trace && s.cmd.None?
      ensures ok ==> s.pc.Launching? && s.disk.backup.None? && !HelperState(s) && op in s.ops
      ensures ok ==> DecodeSlot(s.disk.primary).Some? && var j := DecodeSlot(s.disk.primary).value;
                     j == FreshJournal(op, j.before) && ReservedFree(j.before)
      ensures !ok ==> s.pc.Idle?
      ensures calm ==> (ok <==> CanBegin(old(s)))
    {
      ok := RecoverBeforeStart();
      if !ok {
        return;
      }
      ok := ProveNamespaceEmpty();
      if !ok {
        return;
      }
      ok := WritePreparedJournal(op);
    }

    method RecoverBeforeStart() returns (ok: bool)
      requires Valid() && s.pc.Idle? && s.cmd.None?
      modifies this
      ensures Valid() && old(trace) <= trace && s.cmd.None? && s.ops == old(s.ops)
      ensures if ok then s.pc.BeginTunChecking? else s.pc.Idle?
      ensures calm ==> (CanBegin(old(s)) <==> ok && NamespaceFree(s.net))
    {
      Known();
      var t := s.(pc := Loading(ForBegin));
      assert CallsStart(s, t);
      Step(t);
      ok := RecoverStaleNetworkState(ForBegin);
      if calm {
        CanBeginWhenLoading(old(s), t);
        BeginsExactly(t, s, ok);
      }
    }

    method ProveNamespaceEmpty() returns (ok: bool)
      requires Valid() && s.pc.BeginTunChecking? && s.cmd.None?
      modifies this
      ensures Valid() && old(trace) <= trace && s.ops == old(s.ops) && s.cmd.None?
      ensures ok ==> s.pc.BeginDropping?
      ensures !ok ==> s.pc.Idle?
      ensures calm ==> (ok <==> NamespaceFree(old(s.net)))
    {
      Interfere();
      if s.net.tun.Some? {
        GiveUp();
        return false;
      }
      var t := s.(pc := BeginCapturing);
      assert BeginFindsNoTun(s, t);
      Step(t);
      Interfere();
      ok := Preflight();
    }

    method Preflight() returns (ok: bool)
      requires Valid() && s.pc.BeginCapturing? && s.cmd.None?
      modifies this
      ensures Valid() && old(trace) <= trace && s.ops == old(s.ops) && s.cmd.None?
      ensures ok ==> s.pc.BeginDropping?
      ensures !ok ==> s.pc.Idle?
      ensures calm ==> (ok <==> forall k :: IsReserved(k) ==> !HasKey(old(s.net), k))
    {
      var failed := Fails();
      if failed {
        GiveUp();
        return false;
      }
      var before := Capture(s.net);
      var free := PreflightPlatformNetworkOwnership(before);
      if !free {
        GiveUp();
        return false;
      }
      var t := s.(pc := BeginDropping(before), unjournaled := false);
      assert BeginPreflights(s, t);
      Step(t);
      return true;
    }

    method WritePreparedJournal(op: string) returns (ok: bool)
      requires Valid() && s.pc.BeginDropping? && s.cmd.None? && !Blank(op) && op !in s.ops
      modifies this
      ensures Valid() && old(trace) <= trace && s.cmd.None?
      ensures ok ==> s.pc.Launching? && s.disk.backup.None? && !HelperState(s) && op in s.ops
      ensures ok ==> DecodeSlot(s.disk.primary) == Some(FreshJournal(op, old(s.pc.before))) && ReservedFree(old(s.pc.before))
      ensures ok ==> EmptiedIn(trace, |old(trace)|)
      ensures !ok ==> s.pc.Idle?
      ensures calm ==> ok
    {
      var before := s.pc.before;
      DroppingFacts();
      Interfere();
      var failed := Fails();
      if failed {
        GiveUp();
        return false;
      }
      var j := FreshJournal(op, before);
      var t := s.(disk := s.disk.(backup := None), ops := s.ops + {op}, pc := Writing(ToPrepare, j));
      assert BeginDropsBackup(s, t);
      Step(t);
      ghost var emptied := |trace| - 1;
      assert trace[emptied].disk.primary.None? && trace[emptied].disk.backup.None?;
      Interfere();
      ok := WriteTunnelJournal();
      if ok {
        DecodeInvertsEncode(j);
        LaunchingFacts();
      }
    }

    lemma DroppingFacts()
      requires Valid() && s.pc.BeginDropping?
      ensures s.disk.primary.None? && ReservedFree(s.pc.before)
    {
      Known();
    }

    lemma LaunchingFacts()
      requires Valid() && s.pc.Launching?
      ensures !HelperState(s) && !s.unjournaled
    {
      Known();
    }

    /** markTunnelActive: durable evidence with the helper's identity. */
    method MarkTunnelActive() returns (ok: bool)
      requires Valid() && s.pc.ActLoading?
      modifies this
      ensures Valid() && old(trace) <= trace && s.pc.Idle? && (s.cmd == old(s.cmd) || s.cmd.None?) && s.unjournaled == old(s.unjournaled)
      ensures ok ==> DecodeSlot(s.disk.primary).Some? && var j := DecodeSlot(s.disk.primary).value;
                     && j.phase.Active? && j.active.Some? && SoundOwnership(j.before, j.owned)
                     && (s.cmd.Some? ==> j.pid == s.cmd.value.pid && j.identity == s.cmd.value.identity)
    {
      Interfere();
      ok := LoadForActivation();
      if !ok {
        return;
      }
      Interfere();
      var failed := Fails();
      if failed || (s.cmd.Some? && s.cmd.value !in s.live) {
        GiveUp(); // no snapshot, or no identity of a process that has just exited
        return false;
      }
      ok := WriteActiveEvidence();
    }

    method LoadForActivation() returns (ok: bool)
      requires Valid() && s.pc.ActLoading?
      modifies this
      ensures Valid() && old(trace) <= trace && s == old(s).(pc := s.pc)
      ensures ok ==> Load(old(s.disk)).Found?
      ensures calm ==> (ok <==> Load(old(s.disk)).Found?)
      ensures if ok then s.pc == ActCapturing(Load(old(s.disk)).journal) else s.pc.Idle?
    {
      var unreadable := Fails();
      var loaded := Load(s.disk);
      if unreadable || !loaded.Found? {
        GiveUp();
        return false;
      }
      var t := s.(pc := ActCapturing(loaded.journal));
      assert LoadsForActivation(s, t);
      Step(t);
      return true;
    }

    method WriteActiveEvidence() returns (ok: bool)
      requires Valid() && s.pc.ActCapturing?
      modifies this
      ensures Valid() && old(trace) <= trace && s.pc.Idle? && (s.cmd == old(s.cmd) || s.cmd.None?) && s.unjournaled == old(s.unjournaled)
      ensures ok ==> DecodeSlot(s.disk.primary).Some? && var j := DecodeSlot(s.disk.primary).value;
                     && j.phase.Active? && j.active.Some? && SoundOwnership(j.before, j.owned)
                     && (s.cmd.Some? ==> j.pid == s.cmd.value.pid && j.identity == s.cmd.value.identity)
    {
      GatherEvidence();
      ghost var out := s.pc.j;
      Interfere();
      ok := WriteTunnelJournal();
      DecodeInvertsEncode(out);
    }

    /** The journal in memory becomes active evidence for the network as it is. */
    method GatherEvidence()
      requires Valid() && s.pc.ActCapturing?
      modifies this
      ensures Valid() && old(trace) <= trace && s.pc.Writing? && s == old(s).(pc := Writing(ToActivate, s.pc.j))
      ensures exists snap :: Captures(old(s.net), snap) && Evidence(old(s.pc.j), old(s.cmd), snap, s.pc.j)
      ensures var j := s.pc.j;
              && j.phase.Active? && j.active.Some? && SoundOwnership(j.before, j.owned) && j.schema == SCHEMA && !Blank(j.op)
              && (s.cmd.Some? ==> j.pid == s.cmd.value.pid && j.identity == s.cmd.value.identity)
    {
      var j := s.pc.j;
      var active := Capture(s.net);
      var d := DeriveOwnedNetworkDelta(j.before, active);
      var m := MergeOwnedNetworkDelta(j.owned, d);
      var out := j.(phase := Active, active := Some(active), owned := m.(tunnel := TUN_NAME),
                    pid := if s.cmd.Some? then s.cmd.value.pid else 0,
                    identity := if s.cmd.Some? then s.cmd.value.identity else j.identity);
      EvidenceFacts(active, out);
      var t := s.(pc := Writing(ToActivate, out));
      assert CapturesActive(s, t);
      Step(t);
    }

    lemma EvidenceFacts(active: Snapshot, out: Journal)
      requires Valid() && s.pc.ActCapturing? && Evidence(s.pc.j, s.cmd, active, out)
      ensures SoundOwnership(out.before, out.owned) && out.schema == SCHEMA && !Blank(out.op)
    {
      Known();
      EvidenceIsGood(s, active, out);
    }

    /** abortPreparedTunnelTransaction: nothing was launched for this journal. */
    method AbortPreparedTunnelTransaction()
      requires Valid() && s.pc.Launching?
      modifies this
      ensures Valid() && old(trace) <= trace && s.pc.Idle?
      ensures calm && old(s.cmd).None? && Load(old(s.disk)).Found? && Load(old(s.disk)).journal.phase.Prepared? ==>
                s.disk == Disk(None, None, Some(Encode(Load(old(s.disk)).journal.(phase := AbortedPhase)))) && s.net == old(s.net)
    {
      var t := s.(pc := Aborting);
      assert FailsToLaunch(s, t);
      Step(t);
      Interfere();
      RecordAbort();
    }

    method RecordAbort()
      requires Valid() && s.pc.Aborting?
      modifies this
      ensures Valid() && old(trace) <= trace && s.pc.Idle?
      ensures calm && old(s.cmd).None? && Load(old(s.disk)).Found? && Load(old(s.disk)).journal.phase.Prepared? ==>
                s.disk == Disk(None, None, Some(Encode(Load(old(s.disk)).journal.(phase := AbortedPhase)))) && s.net == old(s.net)
    {
      var unreadable := Fails();
      var loaded := Load(s.disk);
      if unreadable || !loaded.Found? || !loaded.journal.phase.Prepared? || s.cmd.Some? {
        GiveUp();
        return;
      }
      var t := s.(pc := CleanWriting(ForAbort, loaded.journal.(phase := AbortedPhase)));
      assert Aborts(s, t);
      Step(t);
      var persisted := PersistCleanJournal();
    }

    method FinishTunnelTransaction() returns (ok: bool)
      requires Valid() && s.pc.Idle?
      modifies this
      ensures Valid() && old(trace) <= trace && s.pc.Idle? && (s.cmd == old(s.cmd) || s.cmd.None?)
      ensures ok ==> s.disk.primary.None? && s.unjournaled == old(s.unjournaled)
    {
      Interfere();
      var unreadable := Fails();
      var loaded := Load(s.disk);
      if unreadable || loaded.Invalid? {
        return false;
      }
      if loaded.Nothing? {
        return true;
      }
      if s.cmd.Some? {
        return false;
      }
      var t := s.(pc := Loading(ForFinish));
      assert CallsRecovery(s, t);
      Step(t);
      ok := RecoverStaleNetworkState(ForFinish);
    }

    /** StopAndWait: success means that no managed process is left and that no
        primary journal is on disk, whether or not there was tunnel state. The
        waits are `polls` and `killPolls` rounds long. */
    method StopAndWait(polls: nat, killPolls: nat) returns (ok: bool)
      requires Valid() && s.pc.Idle?
      modifies this
      ensures Valid() && old(trace) <= trace && s.pc.Idle?
      ensures ok ==> s.cmd.None? && s.disk.primary.None? && s.unjournaled == old(s.unjournaled)
    {
      var unreadable := Fails();
      var hadTunnelState := s.cmd.Some? || unreadable || !Load(s.disk).Nothing?;
      var unstoppable := Fails();
      if s.cmd.Some? && unstoppable {
        return false; // the signal could not be sent
      }
      for i := 0 to polls
        invariant Valid() && old(trace) <= trace && s.pc.Idle?
        invariant s.unjournaled == old(s.unjournaled) && (!hadTunnelState ==> s.disk.primary.None?)
      {
        Interfere();
        if s.cmd.None? {
          if hadTunnelState {
            ok := FinishTunnelTransaction();
            return;
          }
          return true;
        }
      }
      KillHelper();
      for i := 0 to killPolls
        invariant Valid() && old(trace) <= trace && s.pc.Idle?
      {
        Interfere();
        if s.cmd.None? {
          if hadTunnelState {
            var finished := FinishTunnelTransaction();
          }
          return false; // the deadline has passed, whatever recovery reported
        }
      }
      return false;
    }

    method KillHelper()
      requires Valid() && s.pc.Idle?
      modifies this
      ensures Valid() && old(trace) <= trace && s.pc.Idle?
    {
      if s.helper.Some? && s.helper == s.cmd {
        var t := s.(helper := None, live := s.live - {s.helper.value});
        assert HelperExits(s, t);
        Step(t);
      }
    }

    /** StartAgentTunnel from its transaction on: success means durable active
        evidence; a start that fails after the launch is rolled back, and reports so
        only if nothing of the helper is left. */
    method StartAgentTunnel(op: string, polls: nat) returns (ok: bool, rolledBack: bool)
      requires Valid() && s.pc.Idle? && !Blank(op) && op !in s.ops
      modifies this
      ensures Valid() && old(trace) <= trace && s.pc.Idle?
      ensures ok ==> DecodeSlot(s.disk.primary).Some? && var j := DecodeSlot(s.disk.primary).value;
                     && j.phase.Active? && j.active.Some? && SoundOwnership(j.before, j.owned)
                     && (s.cmd.Some? ==> j.pid == s.cmd.value.pid && j.identity == s.cmd.value.identity)
      ensures rolledBack ==> !ok && s.cmd.None? && s.disk.primary.None? && s.net.tun.None? && !HelperState(s)
    {
      ok, rolledBack := false, false;
      if s.cmd.Some? {
        return;
      }
      var begun := BeginTunnelTransaction(op);
      if !begun {
        return;
      }
      LaunchingFacts();
      var launched := LaunchHelper();
      if !launched {
        AbortPreparedTunnelTransaction();
        return;
      }
      var ready := WaitAgentTunnelReady(polls);
      if ready {
        ok := MarkTunnelActive();
      }
      if !ok {
        rolledBack := RollbackFailedAgentTunnelStart(polls);
      }
    }

    method RollbackFailedAgentTunnelStart(polls: nat) returns (rolledBack: bool)
      requires Valid() && s.pc.Idle? && !s.unjournaled
      modifies this
      ensures Valid() && old(trace) <= trace && s.pc.Idle?
      ensures rolledBack ==> s.cmd.None? && s.disk.primary.None? && s.net.tun.None? && !HelperState(s)
    {
      var stopped := StopAndWait(polls, polls);
      if !stopped {
        return false;
      }
      Interfere();
      Known();
      return s.net.tun.None?;
    }

    /** Writes the configuration and starts sing-box; the OS picks its identity. */
    method LaunchHelper() returns (ok: bool)
      requires Valid() && s.pc.Launching?
      modifies this
      ensures Valid() && old(trace) <= trace
      ensures ok ==> s.pc.Awaiting? && s.unjournaled == old(s.unjournaled)
      ensures !ok ==> s == old(s)
    {
      var failed: bool := *;
      if failed {
        return false;
      }
      Known();
      var p := FreshProcess(s.spent, s.live);
      var t := s.(helper := Some(p), cmd := Some(p), live := s.live + {p}, spent := s.spent + {p}, pc := Awaiting);
      assert Launches(s, t);
      Step(t);
      return true;
    }

    method WaitAgentTunnelReady(polls: nat) returns (ready: bool)
      requires Valid() && s.pc.Awaiting?
      modifies this
      ensures Valid() && old(trace) <= trace
      ensures ready ==> s.pc.ActLoading? && s.cmd.Some? && s.net.tun.Some?
      ensures !ready ==> s.pc.Idle?
      ensures s.unjournaled == old(s.unjournaled)
    {
      for i := 0 to polls
        invariant Valid() && old(trace) <= trace && s.pc.Awaiting? && s.unjournaled == old(s.unjournaled)
      {
        Interfere();
        if s.cmd.None? {
          GiveUp();
          return false;
        }
        var listening: bool := *;
        if s.net.tun.Some? && listening {
          var t := s.(pc := ActLoading);
          assert BecomesReady(s, t);
          Step(t);
          return true;
        }
      }
      GiveUp();
      return false;
    }

    lemma RecoveryClaimsSoundly()
      requires Valid() && s.pc.Mutating?
      ensures Decode(Encode(Finalised(s.pc.j))).Some? && Decode(Encode(Finalised(s.pc.j))).value.op == s.pc.j.op
    {
      Known();
    }
  }

  /** The root helper finds a recovering journal inside the namespace, whose recorded
      process is gone. */
  ghost predicate HelperAccepts(t: State) {
    match DecodeSlot(t.disk.primary)
    case None => false
    case Some(j) => j.phase.Recovering? && ReservedOnly(j.owned) && !(j.pid > 0 && Alive(t.live, j.pid))
  }

  ghost predicate AcceptedIn(run: seq<State>, from: int) {
    exists m :: 0 <= m < |run| && from <= m && HelperAccepts(run[m])
  }

  /** At some point neither journal file was there. */
  ghost predicate EmptiedIn(run: seq<State>, from: int) {
    exists m :: 0 <= m < |run| && from <= m && run[m].disk.primary.None? && run[m].disk.backup.None?
  }

  /** Whether an undisturbed start gets to launch: a recovery that is due succeeds and
      frees the namespace; otherwise the namespace has to be free already. */
  ghost predicate CanBegin(s: State) {
    match Load(s.disk)
    case Nothing => NamespaceFree(s.net)
    case Invalid => false
    case Found(j) => if Open(j) then FitsIn(s, 1) else NamespaceFree(s.net)
  }

  lemma BeginsExactly(s: State, t: State, ok: bool)
    requires Inv(s) && CalmCall(s, t, ok)
    ensures CanBegin(s) <==> ok && NamespaceFree(t.net)
  {
    OneCallSucceedsExactly(s, t, ok);
    match Load(s.disk) {
      case Nothing =>
      case Invalid =>
      case Found(j) =>
        if Open(j) && ok {
          RecoveredIsFree(s, t, j);
        }
    }
  }

  lemma CanBeginWhenLoading(s: State, t: State)
    requires Inv(s) && CallsStart(s, t)
    ensures Inv(t) && (CanBegin(t) <==> CanBegin(s))
  {
    CallsKeep(s, t);
  }

  lemma RecoveredIsFree(s: State, t: State, j: Journal)
    requires Inv(s) && CalmCall(s, t, true) && Load(s.disk) == Found(j) && Open(j)
    ensures NamespaceFree(t.net)
  {
    var out :| CalmRecovery(j, out, s.net, t.net, t.disk.primary, true);
    LoadedIsGood(s, j);
    var snap :| Captures(s.net, snap) && Attributed(j, snap, out);
    AttributionIsGood(s.ops, s.spent, j, snap, out);
    OneRunIsEnoughExactly(s.net, out.owned, t.net);
    ContainsNamespace(out.before, out.owned);
  }

  lemma ContainsNamespace(before: Snapshot, owned: Owned)
    requires SoundOwnership(before, owned)
    ensures forall k :: IsReserved(k) ==> Owns(owned, k)
  {
  }

  /** The interface and every reserved key are unused. */
  ghost predicate NamespaceFree(net: Network) {
    net.tun.None? && forall k :: IsReserved(k) ==> !HasKey(net, k)
  }

  lemma RecoveredFromClaim(j: Journal, i: Journal, a: Network, b: Network, primary: Option<Content>, ok: bool)
    requires WritesClaim(j, a, i) && Recovered(a, i.owned, b) && (ok <==> WithinOneRun(a, i.owned))
    requires primary == if ok then None else Some(Encode(i))
    ensures exists out :: CalmRecovery(j, out, a, b, primary, ok)
  {
    var out :| Claims(j, a, out) && i == Quarantined(out);
    assert CalmRecovery(j, out, a, b, primary, ok);
  }

  /** A recovery that began with an open journal could have been cut off in any of
      these states. */
  ghost predicate CutsConverged(was: State, run: seq<State>, from: nat, net: Network) {
    Load(was.disk).Found? && Open(Load(was.disk).journal) ==> RerunsAgree(run, from, net)
  }

  /** The recovering journal holds what j claims on a network of the run. */
  ghost predicate ClaimSeen(j: Journal, i: Journal, run: seq<State>, from: int) {
    exists m :: 0 <= m < |run| && from <= m && WritesClaim(j, run[m].net, i)
  }

  lemma OneRunIsEnoughExactly(a: Network, owned: Owned, b: Network)
    requires Recovered(a, owned, b)
    ensures b.tun.None?
    ensures WithinOneRun(a, owned) <==> forall k :: Owns(owned, k) ==> !HasKey(b, k)
  {
    if WithinOneRun(a, owned) {
      RemovedEverywhere(a, owned, b);
    } else {
      var f, p :| Owns(owned, Priority(f, p)) && |At(a, Priority(f, p))| > ATTEMPTS;
      assert At(b, Priority(f, p)) != {};
      var e :| e in At(b, Priority(f, p));
      assert HasKey(b, Priority(f, p));
    }
  }

  lemma OwnedKeysAt(owned: Owned)
    ensures forall i :: 0 <= i < |owned.priosV4| ==> Owns(owned, Priority(V4, owned.priosV4[i]))
    ensures forall i :: 0 <= i < |owned.priosV6| ==> Owns(owned, Priority(V6, owned.priosV6[i]))
    ensures forall i :: 0 <= i < |owned.tablesV4| ==> Owns(owned, Table(V4, owned.tablesV4[i]))
    ensures forall i :: 0 <= i < |owned.tablesV6| ==> Owns(owned, Table(V6, owned.tablesV6[i]))
  {
  }

  /** Some process the OS may create: its PID is not in use and its (PID, start
      time) pair is new. */
  method FreshProcess(spent: set<Proc>, live: set<Proc>) returns (p: Proc)
    requires live <= spent && UniquePids(live)
    ensures p.pid > 0 && p.identity != "" && p !in spent && UniquePids(live + {p})
  {
    var pid := 1;
    var todo := spent;
    while todo != {}
      invariant pid > 0 && todo <= spent
      invariant forall q :: q in spent && q !in todo ==> q.pid < pid
      decreases todo
    {
      var q :| q in todo;
      todo := todo - {q};
      if q.pid >= pid {
        pid := q.pid + 1;
      }
    }
    p := Proc(pid, "1");
  }

  function PriorityKeys(f: Family, prios: seq<int>): set<Key> {
    set p | p in prios :: Priority(f, p)
  }

  function RuleKeys(owned: Owned): set<Key> {
    PriorityKeys(V4, owned.priosV4) + PriorityKeys(V6, owned.priosV6)
  }

  function TableKeys(f: Family, tables: seq<string>): set<Key> {
    set t | t in tables :: Table(f, t)
  }

  lemma NextPriority(f: Family, prios: seq<int>, i: nat, done: set<Key>)
    requires i < |prios| && (forall a, b :: 0 <= a < b < |prios| ==> prios[a] != prios[b]) && forall p :: Priority(f, p) !in done
    ensures Priority(f, prios[i]) !in done + PriorityKeys(f, prios[..i])
    ensures done + PriorityKeys(f, prios[..i]) + {Priority(f, prios[i])} == done + PriorityKeys(f, prios[..i + 1])
    ensures done + PriorityKeys(f, prios[..i + 1]) <= done + PriorityKeys(f, prios) && Priority(f, prios[i]) in PriorityKeys(f, prios)
  {
    assert prios[..i + 1] == prios[..i] + [prios[i]];
  }

  lemma NextTable(f: Family, tables: seq<string>, i: nat, done: set<Key>)
    requires i < |tables|
    ensures done + TableKeys(f, tables[..i]) + {Table(f, tables[i])} == done + TableKeys(f, tables[..i + 1])
    ensures done + TableKeys(f, tables[..i + 1]) <= done + TableKeys(f, tables) && Table(f, tables[i]) in TableKeys(f, tables)
  {
    assert tables[..i + 1] == tables[..i] + [tables[i]];
  }

  /** Progress of an undisturbed recovery: the TUN is gone, the keys in `done`
      have been dealt with, and nothing else has changed. */
  ghost predicate Partway(a: Network, done: set<Key>, b: Network) {
    && b == a.(tun := None, entries := b.entries) && b.entries <= a.entries
    && (forall e :: e in b.entries ==> e.dev != TUN_NAME && !(e.key.Table? && e.key in done))
    && (forall e :: e in a.entries && e.dev != TUN_NAME && e.key !in done ==> e in b.entries)
    && (forall k :: k in done && k.Priority? ==> |At(b, k)| == Left(|At(a, k)|))
  }

  lemma TrimmedGoesOn(a: Network, done: set<Key>, b: Network, c: Network, k: Key)
    requires WellFormed(a) && Partway(a, done, b) && Trimmed(b, c, k) && k.Priority? && k !in done
    ensures Partway(a, done + {k}, c)
  {
    assert At(b, k) == At(a, k);
    forall x | x in done && x.Priority? ensures At(c, x) == At(b, x) {}
  }

  lemma FlushedGoesOn(a: Network, done: set<Key>, b: Network, k: Key)
    requires Partway(a, done, b) && k.Table?
    ensures Partway(a, done + {k}, TableFlushed(b, k))
  {
    forall x | x in done && x.Priority? ensures At(TableFlushed(b, k), x) == At(b, x) {}
  }

  ghost predicate AllOwned(owned: Owned, keys: set<Key>) {
    forall k :: k in keys ==> Owns(owned, k)
  }

  ghost predicate TrimsSince(a: Network, k: Key, run: seq<State>, from: nat) {
    forall i :: from <= i < |run| ==> Trimming(a, run[i].net, k)
  }

  /** Stopping at any of these states is an interrupted recovery. */
  ghost predicate CutSince(a: Network, owned: Owned, run: seq<State>, from: nat) {
    forall i :: from <= i < |run| ==> CutOff(a, owned, run[i].net)
  }

  /** Running again from any of these states leads to `once`. */
  ghost predicate RerunsEndIn(owned: Owned, run: seq<State>, from: nat, once: Network) {
    forall i, again :: from <= i < |run| && Recovered(run[i].net, owned, again) ==> again == once
  }

  lemma CutsConverge(a: Network, owned: Owned, run: seq<State>, from: nat, once: Network)
    requires CutSince(a, owned, run, from) && Recovered(a, owned, once) && WithinOneRun(a, owned)
    ensures RerunsEndIn(owned, run, from, once)
  {
    forall i, again | from <= i < |run| && Recovered(run[i].net, owned, again) ensures again == once {
      RerunConverges(a, owned, run[i].net, once, again);
    }
  }

  lemma PartwayIsACut(a: Network, owned: Owned, done: set<Key>, b: Network)
    requires WellFormed(a) && Partway(a, done, b) && AllOwned(owned, done)
    ensures CutOff(a, owned, b)
  {
    forall f, p | Owns(owned, Priority(f, p)) ensures |At(b, Priority(f, p))| >= Left(|At(a, Priority(f, p))|) {
      if Priority(f, p) !in done {
        assert At(b, Priority(f, p)) == At(a, Priority(f, p));
      }
    }
  }

  lemma TrimmingIsACut(a: Network, owned: Owned, done: set<Key>, b: Network, k: Key, c: Network)
    requires WellFormed(a) && Partway(a, done, b) && AllOwned(owned, done + {k}) && k.Priority? && k !in done && Trimming(b, c, k)
    ensures CutOff(a, owned, c)
  {
    assert At(b, k) == At(a, k);
    PartwayIsACut(a, owned, done, b);
    forall x: Key | x != k ensures At(c, x) == At(b, x) {}
  }

  lemma TrimsAreCuts(a: Network, owned: Owned, done: set<Key>, b: Network, k: Key, run: seq<State>, from: nat)
    requires WellFormed(a) && Partway(a, done, b) && AllOwned(owned, done + {k}) && k.Priority? && k !in done
    requires TrimsSince(b, k, run, from)
    ensures CutSince(a, owned, run, from)
  {
    forall i | from <= i < |run| ensures CutOff(a, owned, run[i].net) {
      TrimmingIsACut(a, owned, done, b, k, run[i].net);
    }
  }

  lemma PartwayEndsRecovered(a: Network, owned: Owned, b: Network)
    requires Partway(a, RuleKeys(owned) + TableKeys(V4, owned.tablesV4) + TableKeys(V6, owned.tablesV6), b)
    ensures Recovered(a, owned, b)
  {
    var done := RuleKeys(owned) + TableKeys(V4, owned.tablesV4) + TableKeys(V6, owned.tablesV6);
    forall k ensures k in done <==> Owns(owned, k) {
      match k
      case Table(V4, t) =>
      case Table(V6, t) =>
      case Priority(V4, p) =>
      case Priority(V6, p) =>
    }
  }
}
