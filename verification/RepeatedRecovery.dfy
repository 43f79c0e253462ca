/** What calling an undisturbed recovery again and again achieves. */
module RepeatedRecovery {
  import opened Wrappers
  import opened RoutingOwnership
  import opened HostNetwork
  import opened TunnelJournal
  import opened TunnelMachine
  import opened RecoveryConvergence
  import opened RecoveryRuns

  /** Recovery of journal j with the claims `out`: the commands run to their end, and
      if rules are left the claiming journal stays open. */
  ghost predicate CalmRecovery(j: Journal, out: Journal, a: Network, b: Network, primary: Option<Content>, ok: bool) {
    && Claims(j, a, out) && Recovered(a, out.owned, b)
    && (ok <==> WithinOneRun(a, out.owned))
    && primary == if ok then None else Some(Encode(Quarantined(out)))
  }

  /** One undisturbed call, from the state in which it loads the journal to the state
      in which it returns. */
  ghost predicate CalmCall(s: State, t: State, ok: bool) {
    && t.live == s.live
    && match Load(s.disk)
       case Nothing => ok && t.net == s.net
       case Invalid => !ok && t.net == s.net && t.disk == s.disk
       case Found(j) =>
         if !Open(j) then ok && t.net == s.net
         else if !OwnerGone(s.live, j) then !ok && t.net == s.net && t.disk == s.disk
         else exists out :: CalmRecovery(j, out, s.net, t.net, t.disk.primary, ok)
  }

  /** No priority the record claims holds more rules than n runs remove. */
  ghost predicate Fits(a: Network, owned: Owned, n: nat) {
    forall f, p :: Owns(owned, Priority(f, p)) ==> |At(a, Priority(f, p))| <= n * ATTEMPTS
  }

  /** What a caller can check beforehand: a readable journal, its owner gone, and for
      what it claims on this network at most 8n rules at any priority. */
  ghost predicate FitsIn(s: State, n: nat) {
    match Load(s.disk)
    case Nothing => true
    case Invalid => false
    case Found(j) => Open(j) ==> OwnerGone(s.live, j) && exists out :: Claims(j, s.net, out) && Fits(s.net, out.owned, n)
  }

  lemma OneCallSucceedsExactly(s: State, t: State, ok: bool)
    requires CalmCall(s, t, ok)
    ensures ok <==> FitsIn(s, 1)
  {
    if Load(s.disk).Found? {
      var j := Load(s.disk).journal;
      if Open(j) && OwnerGone(s.live, j) {
        var out :| CalmRecovery(j, out, s.net, t.net, t.disk.primary, ok);
        assert WithinOneRun(s.net, out.owned) <==> Fits(s.net, out.owned, 1);
        forall x | Claims(j, s.net, x) ensures x == out {
          ClaimsAreDetermined(j, s.net, x, out);
        }
      }
    }
  }

  /** The caller tries again; nothing has happened in between. */
  predicate NextCall(t: State, u: State) {
    u.pc.Loading? && u == t.(pc := u.pc)
  }

  /** A failed recovery can only be continued by claiming the same again. */
  lemma NextClaims(j: Journal, out: Journal, s: State, t: State, u: State, x: Journal)
    requires CalmRecovery(j, out, s.net, t.net, t.disk.primary, false) && NextCall(t, u) && Load(s.disk) == Found(j) && Open(j) && OwnerGone(s.live, j)
    ensures Load(u.disk) == Found(Quarantined(out)) && (t.live == s.live ==> OwnerGone(u.live, Quarantined(out)))
    ensures Claims(Quarantined(out), u.net, x) <==> x == Quarantined(out)
  {
    LoadFailsClosed(s.disk);
    ClaimIsDurable(j, s.net, out);
    var again := ClaimExists(Quarantined(out), u.net);
    RerunClaimsNothingNew(j, s.net, out, u.net, Quarantined(out), again);
    if Claims(Quarantined(out), u.net, x) {
      ClaimsAreDetermined(Quarantined(out), u.net, x, again);
    }
  }

  lemma FitsOneMore(a: Network, owned: Owned, b: Network, n: nat)
    requires Recovered(a, owned, b)
    ensures Fits(b, owned, n) <==> Fits(a, owned, n + 1)
  {
    forall f, p | Owns(owned, Priority(f, p))
      ensures |At(b, Priority(f, p))| <= n * ATTEMPTS <==> |At(a, Priority(f, p))| <= (n + 1) * ATTEMPTS
    {
    }
    if Fits(b, owned, n) {
      assert forall f, p :: Owns(owned, Priority(f, p)) ==> |At(b, Priority(f, p))| <= n * ATTEMPTS;
    }
  }

  lemma OneMoreCall(s: State, t: State, u: State, n: nat)
    requires CalmCall(s, t, false) && NextCall(t, u)
    ensures FitsIn(u, n) <==> FitsIn(s, n + 1)
  {
    if Load(s.disk).Found? {
      var j := Load(s.disk).journal;
      if OwnerGone(s.live, j) {
        var out :| CalmRecovery(j, out, s.net, t.net, t.disk.primary, false);
        var q := Quarantined(out);
        NextClaims(j, out, s, t, u, q);
        FitsOneMore(s.net, out.owned, u.net, n);
        ClaimedFits(j, s, out, n + 1);
        ClaimedFits(q, u, q, n);
      }
    }
  }

  lemma ClaimedFits(j: Journal, s: State, out: Journal, n: nat)
    requires Load(s.disk) == Found(j) && Open(j) && OwnerGone(s.live, j) && Claims(j, s.net, out)
    ensures FitsIn(s, n) <==> Fits(s.net, out.owned, n)
  {
    forall x | Claims(j, s.net, x) ensures x == out {
      ClaimsAreDetermined(j, s.net, x, out);
    }
  }

  ghost predicate CallAt(before: seq<State>, after: seq<State>, ok: bool, k: nat)
    requires |before| == |after| && k < |before|
  {
    && CalmCall(before[k], after[k], ok && k + 1 == |before|)
    && (k + 1 < |before| ==> NextCall(after[k], before[k + 1]))
  }

  /** Successive undisturbed calls: all but the last have failed, and the last ends
      as `ok` says. */
  ghost predicate Calls(before: seq<State>, after: seq<State>, ok: bool) {
    |before| == |after| > 0 && forall k: nat :: k < |before| ==> CallAt(before, after, ok, k)
  }

  lemma LaterCalls(before: seq<State>, after: seq<State>, ok: bool)
    requires Calls(before, after, ok) && |before| > 1
    ensures Calls(before[1..], after[1..], ok)
  {
    forall k: nat | k < |before[1..]| ensures CallAt(before[1..], after[1..], ok, k) {
      assert CallAt(before, after, ok, k + 1);
    }
  }

  /** The n-th successive call succeeds if and only if the journal is readable, its
      owner gone, and no priority it claims held more than 8n rules at first. */
  lemma {:induction false} RepeatedCallsSucceedExactly(before: seq<State>, after: seq<State>, ok: bool)
    requires Calls(before, after, ok)
    ensures ok <==> FitsIn(before[0], |before|)
    decreases |before|
  {
    assert CallAt(before, after, ok, 0);
    if |before| == 1 {
      OneCallSucceedsExactly(before[0], after[0], ok);
    } else {
      LaterCalls(before, after, ok);
      RepeatedCallsSucceedExactly(before[1..], after[1..], ok);
      OneMoreCall(before[0], after[0], before[1], |before| - 1);
    }
  }

  /** All of them recover for the claims of the first. */
  lemma {:induction false} CallsRecoverForTheFirstClaims(before: seq<State>, after: seq<State>, ok: bool, j: Journal) returns (out: Journal)
    requires Calls(before, after, ok) && Load(before[0].disk) == Found(j) && Open(j) && OwnerGone(before[0].live, j)
    ensures Claims(j, before[0].net, out)
    ensures forall k :: 0 <= k < |before| ==> Recovered(before[k].net, out.owned, after[k].net)
    decreases |before|
  {
    assert CallAt(before, after, ok, 0);
    out :| CalmRecovery(j, out, before[0].net, after[0].net, after[0].disk.primary, ok && 1 == |before|);
    if |before| > 1 {
      LaterCalls(before, after, ok);
      var q := Quarantined(out);
      NextClaims(j, out, before[0], after[0], before[1], q);
      var later := CallsRecoverForTheFirstClaims(before[1..], after[1..], ok, q);
      NextClaims(j, out, before[0], after[0], before[1], later);
      forall k | 0 <= k < |before| ensures Recovered(before[k].net, out.owned, after[k].net) {
        if k > 0 {
          assert Recovered(before[1..][k - 1].net, later.owned, after[1..][k - 1].net);
        }
      }
    }
  }

  /** The network before the first call and after each of them. */
  ghost function Nets(before: seq<State>, after: seq<State>): seq<Network>
    requires before != []
  {
    [before[0].net] + seq(|after|, i requires 0 <= i < |after| => after[i].net)
  }

  lemma NetsFollow(before: seq<State>, after: seq<State>, ok: bool, owned: Owned, i: nat)
    requires Calls(before, after, ok) && i < |before| && Recovered(before[i].net, owned, after[i].net)
    ensures RecoveredAt(owned, Nets(before, after), i)
  {
    if i > 0 {
      assert CallAt(before, after, ok, i - 1);
    }
  }

  /** After n calls a claimed priority holds eight rules fewer for each of them. */
  lemma EachCallRemovesEight(before: seq<State>, after: seq<State>, ok: bool, j: Journal, k: Key) returns (out: Journal)
    requires Calls(before, after, ok) && Load(before[0].disk) == Found(j) && Open(j) && OwnerGone(before[0].live, j) && k.Priority?
    ensures Claims(j, before[0].net, out)
    ensures Owns(out.owned, k) ==>
              var first, n := |At(before[0].net, k)|, |before|;
              |At(after[n - 1].net, k)| == if first <= n * ATTEMPTS then 0 else first - n * ATTEMPTS
  {
    out := CallsRecoverForTheFirstClaims(before, after, ok, j);
    if Owns(out.owned, k) {
      RulesLeft(before, after, ok, out.owned, k);
    }
  }

  lemma RulesLeft(before: seq<State>, after: seq<State>, ok: bool, owned: Owned, k: Key)
    requires Calls(before, after, ok) && k.Priority? && Owns(owned, k)
    requires forall i :: 0 <= i < |before| ==> Recovered(before[i].net, owned, after[i].net)
    ensures var first, n := |At(before[0].net, k)|, |before|;
            |At(after[n - 1].net, k)| == if first <= n * ATTEMPTS then 0 else first - n * ATTEMPTS
  {
    var nets := Nets(before, after);
    forall i: nat | i + 1 < |nets| ensures RecoveredAt(owned, nets, i) {
      NetsFollow(before, after, ok, owned, i);
    }
    EachRunRemovesEight(owned, nets, |before|, k);
  }
}
