/** What one complete recovery does to the network when no command fails and
    nothing else changes it, and what repeating it achieves. */
module RecoveryConvergence {
  import opened Wrappers
  import opened RoutingOwnership
  import opened HostNetwork

  /** How many rules of one priority a recovery removes at most. */
  const ATTEMPTS := 8

  function Left(n: nat): nat {
    if n <= ATTEMPTS then 0 else n - ATTEMPTS
  }

  /** The rules at k lose up to ATTEMPTS members; nothing else changes. */
  ghost predicate Trimmed(a: Network, b: Network, k: Key) {
    && b == a.(entries := b.entries) && b.entries <= a.entries
    && (forall e :: e in a.entries && e.key != k ==> e in b.entries)
    && |At(b, k)| == Left(|At(a, k)|)
  }

  /** A trimming under way: some of those rules are gone. */
  ghost predicate Trimming(a: Network, b: Network, k: Key) {
    && b == a.(entries := b.entries) && b.entries <= a.entries
    && (forall e :: e in a.entries && e.key != k ==> e in b.entries)
    && |At(b, k)| >= Left(|At(a, k)|)
  }

  /** The result of a complete run of recoverPlatformOwnedNetworkState. */
  ghost predicate Recovered(a: Network, owned: Owned, b: Network) {
    && b == a.(tun := None, entries := b.entries) && b.entries <= a.entries
    && (forall e :: e in b.entries ==> e.dev != TUN_NAME && !(e.key.Table? && Owns(owned, e.key)))
    && (forall e :: e in a.entries && e.dev != TUN_NAME && !Owns(owned, e.key) ==> e in b.entries)
    && (forall f, p :: Owns(owned, Priority(f, p)) ==> |At(b, Priority(f, p))| == Left(|At(a, Priority(f, p))|))
  }

  /** A run cut off anywhere: some of those deletions have happened. */
  ghost predicate CutOff(a: Network, owned: Owned, mid: Network) {
    && mid == a.(tun := mid.tun, entries := mid.entries) && (mid.tun == a.tun || mid.tun == None)
    && mid.entries <= a.entries && WellFormed(mid)
    && (forall e :: e in a.entries && e.dev != TUN_NAME && !Owns(owned, e.key) ==> e in mid.entries)
    && (forall f, p :: Owns(owned, Priority(f, p)) ==> |At(mid, Priority(f, p))| >= Left(|At(a, Priority(f, p))|))
  }

  /** No owned priority holds more rules than one run removes. */
  ghost predicate WithinOneRun(a: Network, owned: Owned) {
    forall f, p :: Owns(owned, Priority(f, p)) ==> |At(a, Priority(f, p))| <= ATTEMPTS
  }

  lemma AtShrinks(a: Network, b: Network, k: Key)
    requires b.entries <= a.entries
    ensures |At(b, k)| <= |At(a, k)|
  {
    assert At(b, k) <= At(a, k);
    Subset(At(b, k), At(a, k));
  }

  lemma {:induction false} Subset<T>(x: set<T>, y: set<T>)
    requires x <= y
    ensures |x| <= |y| && (x != y ==> |x| < |y|)
  {
    assert y == x + (y - x);
  }

  lemma RemovedEverywhere(a: Network, owned: Owned, b: Network)
    requires Recovered(a, owned, b) && WithinOneRun(a, owned)
    ensures forall e :: e in b.entries ==> !Owns(owned, e.key)
  {
    forall e | e in b.entries ensures !Owns(owned, e.key) {
      if e.key.Priority? {
        assert e in At(b, Priority(e.key.fam, e.key.prio));
      }
    }
  }

  /** Interrupting a recovery anywhere and running it again ends in the network
      that the uninterrupted run ends in, if one run can empty every priority. */
  lemma RerunConverges(a: Network, owned: Owned, mid: Network, once: Network, again: Network)
    requires CutOff(a, owned, mid) && Recovered(a, owned, once) && Recovered(mid, owned, again)
    requires WithinOneRun(a, owned)
    ensures again == once
  {
    RemovedEverywhere(a, owned, once);
    forall f, p | Owns(owned, Priority(f, p)) ensures |At(mid, Priority(f, p))| <= ATTEMPTS {
      AtShrinks(a, mid, Priority(f, p));
    }
    RemovedEverywhere(mid, owned, again);
    forall e ensures e in once.entries <==> e in again.entries {
      assert e in once.entries ==> !Owns(owned, e.key) && e in mid.entries;
      assert e in again.entries ==> !Owns(owned, e.key) && e in a.entries;
    }
  }

  /** The condition is exact: a crash after the last command, followed by a
      re-run, gives the same network if and only if one run was enough. */
  lemma RerunIsIdempotentExactly(a: Network, owned: Owned, once: Network, again: Network)
    requires WellFormed(a) && Recovered(a, owned, once) && Recovered(once, owned, again)
    ensures CutOff(a, owned, once)
    ensures again == once <==> WithinOneRun(a, owned)
  {
    if WithinOneRun(a, owned) {
      RerunConverges(a, owned, once, once, again);
    } else {
      var f, p :| Owns(owned, Priority(f, p)) && |At(a, Priority(f, p))| > ATTEMPTS;
      assert |At(again, Priority(f, p))| < |At(once, Priority(f, p))|;
    }
  }

  /** Nine rules at an owned priority are enough to need a second run. */
  lemma NineRulesNeedTwoRuns(owned: Owned, f: Family, p: int) returns (a: Network, once: Network, again: Network)
    requires Owns(owned, Priority(f, p))
    ensures WellFormed(a) && |At(a, Priority(f, p))| == ATTEMPTS + 1
    ensures Recovered(a, owned, once) && Recovered(once, owned, again) && again != once
  {
    var k := Priority(f, p);
    var rules := set i: nat | i < ATTEMPTS + 1 :: Entry(i, k, "", Foreign);
    RuleCount(k, ATTEMPTS + 1);
    var last := Entry(0, k, "", Foreign);
    a, once, again := Network(None, rules, "", ""), Network(None, {last}, "", ""), Network(None, {}, "", "");
    assert At(a, k) == rules && At(once, k) == {last} && At(again, k) == {};
    forall x: Key | x != k ensures At(a, x) == {} && At(once, x) == {} && At(again, x) == {} {}
  }

  lemma {:induction false} RuleCount(k: Key, n: nat)
    ensures |set i: nat | i < n :: Entry(i, k, "", Foreign)| == n
  {
    if n > 0 {
      RuleCount(k, n - 1);
      assert (set i: nat | i < n :: Entry(i, k, "", Foreign)) == (set i: nat | i < n - 1 :: Entry(i, k, "", Foreign)) + {Entry(n - 1, k, "", Foreign)};
    }
  }

  ghost predicate RecoveredAt(owned: Owned, nets: seq<Network>, i: nat)
    requires i + 1 < |nets|
  {
    Recovered(nets[i], owned, nets[i + 1])
  }

  /** After n runs an owned priority holds eight rules fewer for each of them. */
  lemma {:induction false} EachRunRemovesEight(owned: Owned, nets: seq<Network>, n: nat, k: Key)
    requires n < |nets| && k.Priority? && Owns(owned, k)
    requires forall i: nat {:trigger RecoveredAt(owned, nets, i)} :: i + 1 < |nets| ==> RecoveredAt(owned, nets, i)
    ensures |At(nets[n], k)| == if |At(nets[0], k)| <= n * ATTEMPTS then 0 else |At(nets[0], k)| - n * ATTEMPTS
  {
    if n > 0 {
      EachRunRemovesEight(owned, nets, n - 1, k);
      assert RecoveredAt(owned, nets, n - 1);
      assert Owns(owned, Priority(k.fam, k.prio));
    }
  }

  /** Repeated runs reach a network that passes verification, and they do so
      exactly as soon as eight rules a run add up. */
  lemma RepeatedRunsReachClean(owned: Owned, nets: seq<Network>, n: nat, post: Snapshot)
    requires 0 < n < |nets| && Captures(nets[n], post)
    requires forall i: nat {:trigger RecoveredAt(owned, nets, i)} :: i + 1 < |nets| ==> RecoveredAt(owned, nets, i)
    ensures nets[n].tun.None?
    ensures OwnedAbsent(post, owned) <==>
            forall f, p :: Owns(owned, Priority(f, p)) ==> |At(nets[0], Priority(f, p))| <= n * ATTEMPTS
  {
    assert RecoveredAt(owned, nets, n - 1);
    forall f, p | Owns(owned, Priority(f, p))
      ensures Shows(post, Priority(f, p)) <==> |At(nets[0], Priority(f, p))| > n * ATTEMPTS
    {
      var k := Priority(f, p);
      EachRunRemovesEight(owned, nets, n, k);
      assert Shows(post, k) <==> HasKey(nets[n], k);
      if HasKey(nets[n], k) {
        var e :| e in nets[n].entries && e.key == k;
        assert e in At(nets[n], k);
      } else {
        assert At(nets[n], k) == {};
      }
    }
    forall f, t | Owns(owned, Table(f, t)) ensures !Shows(post, Table(f, t)) {
      assert Shows(post, Table(f, t)) <==> HasKey(nets[n], Table(f, t));
    }
    if forall f, p :: Owns(owned, Priority(f, p)) ==> |At(nets[0], Priority(f, p))| <= n * ATTEMPTS {
      forall k | Owns(owned, k) ensures !Shows(post, k) {
        match k
        case Table(f, t) =>
        case Priority(f, p) =>
      }
    }
  }
}
