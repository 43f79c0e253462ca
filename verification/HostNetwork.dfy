/** The kernel routing state Agent Tunnel shares with every other network
    manager, and the three commands recovery issues on it. */
module HostNetwork {
  import opened Wrappers
  import opened RoutingOwnership

  /** Who created an object. No program reads it; it is what the proofs talk about. */
  datatype Origin = Helper | Foreign

  /** A route or rule. `dev` is "" for a rule. */
  datatype Entry = Entry(id: nat, key: Key, dev: string, origin: Origin)

  datatype Network = Network(
    tun: Option<Origin>,
    entries: set<Entry>,
    dns: string,
    firewall: string)

  /** A route out of an interface disappears with that interface; a rule has none. */
  predicate WellFormed(net: Network) {
    forall e | e in net.entries :: e.dev == TUN_NAME ==> net.tun.Some? && e.key.Table?
  }

  predicate HasKey(net: Network, k: Key) {
    exists e | e in net.entries :: e.key == k
  }

  /** What sing-box is configured to create: rules from the reserved priorities,
      routes in the reserved table or out of its own interface. */
  predicate HelperMayCreate(e: Entry) {
    e.origin == Helper && (IsReserved(e.key) || e.dev == TUN_NAME)
  }

  predicate HelperCreated(net: Network) {
    net.tun == Some(Helper) || exists e | e in net.entries :: e.origin == Helper
  }

  /** Anything the rest of the host may do in one step, including the helper
      while it is alive. Removal is unrestricted. */
  predicate HostMove(helperAlive: bool, before: Network, after: Network) {
    && WellFormed(after)
    && (forall e | e in after.entries ::
          e in before.entries || e.origin == Foreign || (helperAlive && HelperMayCreate(e)))
    && (after.tun == Some(Helper) ==> before.tun == Some(Helper) || helperAlive)
  }

  /** A snapshot lists exactly the keys in use. */
  ghost predicate Captures(net: Network, s: Snapshot) {
    && (forall k :: Shows(s, k) <==> HasKey(net, k))
    && s.dns == net.dns && s.firewall == net.firewall
  }

  function At(net: Network, k: Key): set<Entry> {
    set e | e in net.entries && e.key == k
  }

  /** `ip link delete antigravity-tun` */
  function LinkDeleted(net: Network): Network {
    net.(tun := None, entries := set e | e in net.entries && e.dev != TUN_NAME)
  }

  /** `ip rule del priority p` removes one rule of that priority. */
  predicate RuleDeleted(net: Network, k: Key, after: Network) {
    exists e | e in net.entries :: e.key == k && after == net.(entries := net.entries - {e})
  }

  /** `ip route flush table t` */
  function TableFlushed(net: Network, k: Key): Network {
    net.(entries := set e | e in net.entries && e.key != k)
  }

  /** One network command that recovery may issue for an ownership record. */
  ghost predicate RecoveryCommand(owned: Owned, net: Network, after: Network) {
    || (net.tun.Some? && after == LinkDeleted(net))
    || (exists f, p :: Owns(owned, Priority(f, p)) && RuleDeleted(net, Priority(f, p), after))
    || (exists f, t :: Owns(owned, Table(f, t)) && after == TableFlushed(net, Table(f, t)))
  }

  /** A command takes away only TUN routes and owned keys. */
  lemma CommandTouchesOnlyOwned(owned: Owned, net: Network, after: Network)
    requires RecoveryCommand(owned, net, after)
    ensures after.entries <= net.entries && (after.tun == net.tun || after.tun == None)
    ensures forall e :: e in net.entries && e !in after.entries ==> Owns(owned, e.key) || e.dev == TUN_NAME
    ensures WellFormed(net) ==> WellFormed(after)
  {
  }

  /** A snapshot of any network exists: the one `ip` prints. */
  method Capture(net: Network) returns (s: Snapshot)
    ensures Captures(net, s)
  {
    s := Snapshot([], [], [], [], net.dns, net.firewall);
    var todo := net.entries;
    while todo != {}
      invariant todo <= net.entries
      invariant s.dns == net.dns && s.firewall == net.firewall
      invariant forall k :: Shows(s, k) <==> exists e :: e in net.entries && e !in todo && e.key == k
      decreases todo
    {
      var e :| e in todo;
      ghost var was := s;
      s := AddLine(s, e.key);
      todo := todo - {e};
      forall k ensures Shows(s, k) <==> exists x :: x in net.entries && x !in todo && x.key == k {
        if Shows(s, k) && !Shows(was, k) {
          assert e.key == k;
        }
        if exists x :: x in net.entries && x !in todo && x.key == k {
          var x :| x in net.entries && x !in todo && x.key == k;
          assert x == e || Shows(was, k);
        }
      }
    }
    forall k ensures Shows(s, k) <==> HasKey(net, k) {}
  }

  lemma {:induction false} SnapshotExists(net: Network) returns (s: Snapshot)
    ensures Captures(net, s)
    decreases net.entries
  {
    if net.entries == {} {
      s := Snapshot([], [], [], [], net.dns, net.firewall);
    } else {
      var e :| e in net.entries;
      var less := net.(entries := net.entries - {e});
      s := SnapshotExists(less);
      forall k ensures HasKey(net, k) <==> HasKey(less, k) || k == e.key {
        if HasKey(net, k) {
          var x :| x in net.entries && x.key == k;
          assert x == e || x in less.entries;
        }
      }
      s := AddLine(s, e.key);
    }
  }

  function AddLine(s: Snapshot, k: Key): (r: Snapshot)
    ensures forall x :: Shows(r, x) <==> Shows(s, x) || x == k
    ensures r.dns == s.dns && r.firewall == s.firewall
  {
    match k
    case Table(V4, t) => s.(routesV4 := s.routesV4 + [RouteLine(t, "")])
    case Table(V6, t) => s.(routesV6 := s.routesV6 + [RouteLine(t, "")])
    case Priority(V4, p) => s.(rulesV4 := s.rulesV4 + [RuleLine(Some(p), "")])
    case Priority(V6, p) => s.(rulesV6 := s.rulesV6 + [RuleLine(Some(p), "")])
  }
}
