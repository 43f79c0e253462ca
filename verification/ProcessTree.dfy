/** The Antigravity process tree: a breadth-first closure over parent links that
    need not be acyclic. */
module ProcessTree {
  import opened Ordering
  import opened Text

  datatype ProcessInfo = ProcessInfo(pid: int, ppid: int, name: string, exe: string, cmd: string, role: string, known: bool)

  datatype Report = Report(
    processes: seq<ProcessInfo>,
    unknown: seq<ProcessInfo>,
    rootPids: seq<int>,
    complete: bool,
    learned: seq<string>)

  /** How one process is judged: root or not, its label, and the hosts its
      command line mentions. */
  datatype Rules = Rules(isRoot: ProcessInfo -> bool, judge: ProcessInfo -> ProcessInfo, hosts: string -> seq<string>, common: string -> bool)

  ghost predicate KeepsIdentity(rules: Rules) {
    forall p :: rules.judge(p).pid == p.pid
  }

  // ------------------------------------------------------------ specification

  /** A chain of listed processes from a root, each the child of the one before. */
  ghost predicate Chain(all: seq<ProcessInfo>, rules: Rules, c: seq<ProcessInfo>) {
    && c != [] && rules.isRoot(c[0])
    && (forall i :: 0 <= i < |c| ==> c[i] in all)
    && (forall i :: 0 <= i < |c| - 1 ==> c[i + 1].ppid == c[i].pid)
  }

  ghost predicate Reached(all: seq<ProcessInfo>, rules: Rules, pid: int) {
    exists c: seq<ProcessInfo> :: Chain(all, rules, c) && c[|c| - 1].pid == pid
  }

  /** A set of PIDs that contains the roots and, with a PID, all its children. */
  ghost predicate Closed(all: seq<ProcessInfo>, rules: Rules, pids: set<int>) {
    && (forall p :: p in all && rules.isRoot(p) ==> p.pid in pids)
    && (forall p :: p in all && p.ppid in pids ==> p.pid in pids)
  }

  predicate HasPid(s: seq<ProcessInfo>, pid: int) {
    exists p | p in s :: p.pid == pid
  }

  ghost predicate ByPid(s: seq<ProcessInfo>) {
    forall i, j :: 0 <= i < j < |s| ==> s[i].pid < s[j].pid
  }

  function Unknown(s: seq<ProcessInfo>): seq<ProcessInfo> {
    if s == [] then []
    else if s[|s| - 1].known then Unknown(s[..|s| - 1])
    else Unknown(s[..|s| - 1]) + [s[|s| - 1]]
  }

  /** The backend host candidates in one command line. */
  predicate Learns(rules: Rules, p: ProcessInfo, host: string) {
    exists h | h in rules.hosts(p.cmd) :: !rules.common(h) && host == Lower(h)
  }

  lemma {:induction false} UnknownMembers(s: seq<ProcessInfo>, p: ProcessInfo)
    ensures p in Unknown(s) <==> p in s && !p.known
  {
    if s != [] {
      UnknownMembers(s[..|s| - 1], p);
      assert s == s[..|s| - 1] + [s[|s| - 1]];
    }
  }

  function RootPids(all: seq<ProcessInfo>, rules: Rules): multiset<int> {
    if all == [] then multiset{}
    else RootPids(all[..|all| - 1], rules) + (if rules.isRoot(all[|all| - 1]) then multiset{all[|all| - 1].pid} else multiset{})
  }

  ghost predicate Learned(rules: Rules, s: seq<ProcessInfo>, host: string) {
    exists i :: 0 <= i < |s| && Learns(rules, s[i], host)
  }

  /** The report holds exactly the processes reachable from the roots, each once
      and in PID order, and the unknown ones among them. */
  ghost predicate IsTree(all: seq<ProcessInfo>, rules: Rules, r: Report) {
    && r.complete
    && (forall pid :: HasPid(r.processes, pid) <==> Reached(all, rules, pid))
    && ByPid(r.processes)
    && (forall p :: p in r.processes ==> FromListing(all, rules, p.pid, p))
    && r.unknown == Unknown(r.processes)
    && multiset(r.rootPids) == RootPids(all, rules) && Sorted(r.rootPids)
    && Ascending(StringLess, r.learned)
    && (forall h :: h in r.learned <==> Learned(rules, r.processes, h))
  }

  ghost predicate Sorted(s: seq<int>) {
    forall i, j :: 0 <= i < j < |s| ==> s[i] <= s[j]
  }

  // ---------------------------------------------------------------- algorithm

  /** Progress of the closure: roots and children of selected processes are
      selected or waiting, and nothing else is. */
  ghost predicate Closing(all: seq<ProcessInfo>, rules: Rules, queue: seq<ProcessInfo>, selected: map<int, ProcessInfo>) {
    && (forall p :: p in queue ==> p in all)
    && (forall pid :: pid in selected ==> FromListing(all, rules, pid, selected[pid]))
    && (forall p :: p in all && rules.isRoot(p) ==> p.pid in selected || p in queue)
    && (forall p :: p in all && p.ppid in selected ==> p.pid in selected || p in queue)
    && (forall pids :: Closed(all, rules, pids) ==> Inside(queue, selected, pids))
  }

  ghost predicate Inside(queue: seq<ProcessInfo>, selected: map<int, ProcessInfo>, pids: set<int>) {
    (forall p :: p in queue ==> p.pid in pids) && selected.Keys <= pids
  }

  ghost predicate FromListing(all: seq<ProcessInfo>, rules: Rules, pid: int, p: ProcessInfo) {
    exists q :: q in all && q.pid == pid && p == rules.judge(q)
  }

  lemma OneMoreLearned(rules: Rules, s: seq<ProcessInfo>, p: ProcessInfo)
    ensures forall h :: Learned(rules, s + [p], h) <==> Learned(rules, s, h) || Learns(rules, p, h)
  {
    forall h ensures Learned(rules, s + [p], h) <==> Learned(rules, s, h) || Learns(rules, p, h) {
      if Learned(rules, s, h) {
        var i :| 0 <= i < |s| && Learns(rules, s[i], h);
        assert (s + [p])[i] == s[i];
      }
      if Learns(rules, p, h) {
        assert (s + [p])[|s|] == p;
      }
    }
  }

  method BuildAgentProcessTree(all: seq<ProcessInfo>, rules: Rules) returns (r: Report)
    requires KeepsIdentity(rules)
    ensures IsTree(all, rules, r)
  {
    var byParent, roots, rootPids := Index(all, rules);
    var selected := Close(all, rules, byParent, roots);
    ClosedMeansReached(all, rules, selected);
    r := Assemble(rules, selected, rootPids);
  }

  /** Children by parent PID, the roots, and their PIDs. */
  method Index(all: seq<ProcessInfo>, rules: Rules)
    returns (byParent: map<int, seq<ProcessInfo>>, roots: seq<ProcessInfo>, rootPids: seq<int>)
    ensures forall p :: p in roots <==> p in all && rules.isRoot(p)
    ensures ChildrenIn(all, byParent)
    ensures multiset(rootPids) == RootPids(all, rules)
  {
    byParent, roots, rootPids := map[], [], [];
    for i := 0 to |all|
      invariant forall p :: p in roots <==> p in all[..i] && rules.isRoot(p)
      invariant ChildrenIn(all[..i], byParent)
      invariant multiset(rootPids) == RootPids(all[..i], rules)
    {
      var p := all[i];
      assert all[..i + 1] == all[..i] + [p];
      assert all[..i + 1][..i] == all[..i];
      ChildAdded(all[..i], byParent, p);
      byParent := byParent[p.ppid := (if p.ppid in byParent then byParent[p.ppid] else []) + [p]];
      if rules.isRoot(p) {
        roots := roots + [p];
        rootPids := rootPids + [p.pid];
      }
    }
    assert all[..|all|] == all;
  }

  ghost predicate ChildrenIn(all: seq<ProcessInfo>, byParent: map<int, seq<ProcessInfo>>) {
    && (forall parent, p :: parent in byParent ==> (p in byParent[parent] <==> p in all && p.ppid == parent))
    && (forall p :: p in all ==> p.ppid in byParent)
  }

  lemma ChildAdded(all: seq<ProcessInfo>, byParent: map<int, seq<ProcessInfo>>, p: ProcessInfo)
    requires ChildrenIn(all, byParent)
    ensures ChildrenIn(all + [p], byParent[p.ppid := (if p.ppid in byParent then byParent[p.ppid] else []) + [p]])
  {
  }

  /** Sorts the selection by PID and collects helpers and hosts. */
  method Assemble(rules: Rules, selected: map<int, ProcessInfo>, rootPids: seq<int>) returns (r: Report)
    requires forall pid :: pid in selected ==> selected[pid].pid == pid
    ensures r.complete && ByPid(r.processes) && r.unknown == Unknown(r.processes)
    ensures forall p :: p in r.processes <==> p.pid in selected && p == selected[p.pid]
    ensures multiset(r.rootPids) == multiset(rootPids) && Sorted(r.rootPids)
    ensures Ascending(StringLess, r.learned)
    ensures forall h :: h in r.learned <==> Learned(rules, r.processes, h)
  {
    var pids := SortedKeys(IntLess, selected.Keys);
    assert forall i :: 0 <= i < |pids| ==> pids[i] in pids;
    var processes, unknown, learned := Collect(rules, selected, pids);
    PickedIsSorted(selected, pids);
    StringLessIsTotal();
    var hosts := SortedKeys(StringLess, learned);
    var sortedRoots := SortInts(rootPids);
    r := Report(processes, unknown, sortedRoots, true, hosts);
  }

  /** The loop over the sorted PIDs. */
  method Collect(rules: Rules, selected: map<int, ProcessInfo>, pids: seq<int>)
    returns (processes: seq<ProcessInfo>, unknown: seq<ProcessInfo>, learned: set<string>)
    requires forall i :: 0 <= i < |pids| ==> pids[i] in selected
    ensures processes == Picked(selected, pids) && unknown == Unknown(processes)
    ensures forall h :: h in learned <==> Learned(rules, processes, h)
  {
    processes, unknown, learned := [], [], {};
    for i := 0 to |pids|
      invariant processes == Picked(selected, pids[..i])
      invariant unknown == Unknown(processes)
      invariant forall h :: h in learned <==> Learned(rules, processes, h)
    {
      var p := selected[pids[i]];
      var found := LearnFrom(rules, p);
      OneMoreLearned(rules, processes, p);
      assert pids[..i + 1][..i] == pids[..i];
      UnknownOneMore(processes, p);
      processes := processes + [p];
      if !p.known {
        unknown := unknown + [p];
      }
      learned := learned + found;
    }
    assert pids[..|pids|] == pids;
  }

  lemma UnknownOneMore(s: seq<ProcessInfo>, p: ProcessInfo)
    ensures Unknown(s + [p]) == Unknown(s) + (if p.known then [] else [p])
  {
    assert (s + [p])[..|s|] == s;
  }

  function Picked(selected: map<int, ProcessInfo>, pids: seq<int>): (r: seq<ProcessInfo>)
    requires forall i :: 0 <= i < |pids| ==> pids[i] in selected
    ensures |r| == |pids| && forall i :: 0 <= i < |r| ==> r[i] == selected[pids[i]]
  {
    if pids == [] then [] else Picked(selected, pids[..|pids| - 1]) + [selected[pids[|pids| - 1]]]
  }

  lemma PickedIsSorted(selected: map<int, ProcessInfo>, pids: seq<int>)
    requires forall pid :: pid in selected ==> selected[pid].pid == pid
    requires Ascending(IntLess, pids) && forall pid :: pid in pids <==> pid in selected
    requires forall i :: 0 <= i < |pids| ==> pids[i] in selected
    ensures ByPid(Picked(selected, pids))
    ensures forall p :: p in Picked(selected, pids) <==> p.pid in selected && p == selected[p.pid]
  {
    var s := Picked(selected, pids);
    forall p ensures p in s <==> p.pid in selected && p == selected[p.pid] {
      if p.pid in selected && p == selected[p.pid] {
        var i :| 0 <= i < |pids| && pids[i] == p.pid;
        assert s[i] == p;
      }
    }
    forall i, j | 0 <= i < j < |s| ensures s[i].pid < s[j].pid {
      assert pids[i] in selected && pids[j] in selected;
      assert IntLess(pids[i], pids[j]);
    }
  }

  /** The queue loop. */
  method Close(all: seq<ProcessInfo>, rules: Rules, byParent: map<int, seq<ProcessInfo>>, roots: seq<ProcessInfo>)
    returns (selected: map<int, ProcessInfo>)
    requires forall p :: p in roots <==> p in all && rules.isRoot(p)
    requires ChildrenIn(all, byParent)
    ensures Closing(all, rules, [], selected)
  {
    selected := map[];
    var queue := roots;
    while queue != []
      invariant Closing(all, rules, queue, selected)
      decreases Pids(all) - selected.Keys, |queue|
    {
      var p := queue[0];
      assert p in queue && p.pid in Pids(all);
      if p.pid in selected {
        ClosingSkips(all, rules, queue, selected);
        queue := queue[1..];
      } else {
        var children := if p.pid in byParent then byParent[p.pid] else [];
        ClosingAdvances(all, rules, queue, selected, children);
        assert p.pid in Pids(all) - selected.Keys;
        selected := selected[p.pid := rules.judge(p)];
        queue := queue[1..] + children;
      }
    }
  }

  lemma ClosingSkips(all: seq<ProcessInfo>, rules: Rules, queue: seq<ProcessInfo>, selected: map<int, ProcessInfo>)
    requires Closing(all, rules, queue, selected) && queue != [] && queue[0].pid in selected
    ensures Closing(all, rules, queue[1..], selected)
  {
    assert forall p :: p in queue <==> p == queue[0] || p in queue[1..];
  }

  lemma ClosingAdvances(all: seq<ProcessInfo>, rules: Rules, queue: seq<ProcessInfo>, selected: map<int, ProcessInfo>, children: seq<ProcessInfo>)
    requires Closing(all, rules, queue, selected) && queue != []
    requires forall q :: q in children <==> q in all && q.ppid == queue[0].pid
    ensures Closing(all, rules, queue[1..] + children, selected[queue[0].pid := rules.judge(queue[0])])
  {
    var next := selected[queue[0].pid := rules.judge(queue[0])];
    assert queue[0] in queue;
    assert forall p :: p in queue <==> p == queue[0] || p in queue[1..];
    assert forall p :: p in queue[1..] + children <==> p in queue[1..] || p in children;
    forall pids | Closed(all, rules, pids) ensures Inside(queue[1..] + children, next, pids) {
      assert Inside(queue, selected, pids);
    }
    forall pid | pid in next ensures FromListing(all, rules, pid, next[pid]) {
      if pid != queue[0].pid {
        assert FromListing(all, rules, pid, selected[pid]);
      }
    }
  }

  function Pids(all: seq<ProcessInfo>): set<int> {
    set p | p in all :: p.pid
  }

  lemma {:induction false} ChainStaysInside(all: seq<ProcessInfo>, rules: Rules, pids: set<int>, c: seq<ProcessInfo>)
    requires Closed(all, rules, pids) && Chain(all, rules, c)
    ensures c[|c| - 1].pid in pids
    decreases |c|
  {
    assert c[|c| - 1] in all;
    if |c| > 1 {
      var d := c[..|c| - 1];
      assert forall i :: 0 <= i < |d| ==> d[i] == c[i];
      ChainStaysInside(all, rules, pids, d);
      assert c[|c| - 2 + 1].ppid == c[|c| - 2].pid;
    }
  }

  /** The PIDs at the ends of chains form a closed set. */
  lemma ReachedIsClosed(all: seq<ProcessInfo>, rules: Rules) returns (pids: set<int>)
    ensures Closed(all, rules, pids)
    ensures forall pid :: pid in pids ==> Reached(all, rules, pid)
  {
    pids := set pid | pid in Pids(all) && Reached(all, rules, pid);
    forall p | p in all && rules.isRoot(p) ensures p.pid in pids {
      assert Chain(all, rules, [p]) && [p][|[p]| - 1].pid == p.pid;
    }
    forall p | p in all && p.ppid in pids ensures p.pid in pids {
      ChainGrows(all, rules, p);
    }
  }

  lemma ChainGrows(all: seq<ProcessInfo>, rules: Rules, p: ProcessInfo)
    requires p in all && Reached(all, rules, p.ppid)
    ensures Reached(all, rules, p.pid)
  {
    var c: seq<ProcessInfo> :| Chain(all, rules, c) && c[|c| - 1].pid == p.ppid;
    var d := c + [p];
    assert Chain(all, rules, d) && d[|d| - 1].pid == p.pid;
  }

  lemma ClosedMeansReached(all: seq<ProcessInfo>, rules: Rules, selected: map<int, ProcessInfo>)
    requires Closing(all, rules, [], selected)
    ensures forall pid :: pid in selected <==> Reached(all, rules, pid)
    ensures forall pid :: pid in selected ==> FromListing(all, rules, pid, selected[pid])
  {
    assert Closed(all, rules, selected.Keys);
    var reached := ReachedIsClosed(all, rules);
    assert Inside([], selected, reached);
    forall pid | Reached(all, rules, pid) ensures pid in selected {
      var c: seq<ProcessInfo> :| Chain(all, rules, c) && c[|c| - 1].pid == pid;
      ChainStaysInside(all, rules, selected.Keys, c);
    }
  }

  /** The hosts of one command line, without duplicates. */
  method LearnFrom(rules: Rules, p: ProcessInfo) returns (hosts: set<string>)
    ensures forall h :: h in hosts <==> Learns(rules, p, h)
  {
    hosts := {};
    var found := rules.hosts(p.cmd);
    for i := 0 to |found|
      invariant forall h :: h in hosts <==> exists m :: 0 <= m < i && !rules.common(found[m]) && h == Lower(found[m])
    {
      if !rules.common(found[i]) && Lower(found[i]) !in hosts {
        hosts := hosts + {Lower(found[i])};
      }
    }
  }

  function InsertInt(s: seq<int>, x: int): seq<int> {
    if s == [] || x <= s[0] then [x] + s else [s[0]] + InsertInt(s[1..], x)
  }

  lemma {:induction false} InsertIntKeeps(s: seq<int>, x: int)
    ensures multiset(InsertInt(s, x)) == multiset(s) + multiset{x}
  {
    if s != [] && x > s[0] {
      InsertIntKeeps(s[1..], x);
      assert s == [s[0]] + s[1..];
    }
  }

  lemma {:induction false} InsertIntSorted(s: seq<int>, x: int)
    requires Sorted(s)
    ensures Sorted(InsertInt(s, x))
  {
    if s != [] && x > s[0] {
      InsertIntSorted(s[1..], x);
      var rest := InsertInt(s[1..], x);
      forall j | 0 <= j < |rest| ensures s[0] <= rest[j] {
        InsertIntKeeps(s[1..], x);
        assert rest[j] in multiset(rest);
      }
    }
  }

  method SortInts(s: seq<int>) returns (out: seq<int>)
    ensures Sorted(out) && multiset(out) == multiset(s)
  {
    out := [];
    for i := 0 to |s|
      invariant Sorted(out) && multiset(out) == multiset(s[..i])
    {
      InsertIntSorted(out, s[i]);
      InsertIntKeeps(out, s[i]);
      assert s[..i + 1] == s[..i] + [s[i]];
      out := InsertInt(out, s[i]);
    }
    assert s[..|s|] == s;
  }

  // ------------------------------------------------------- order independence

  predicate DistinctPids(all: seq<ProcessInfo>) {
    forall p, q | p in all && q in all :: p.pid == q.pid ==> p == q
  }

  lemma {:induction false} RootPidsConcat(a: seq<ProcessInfo>, b: seq<ProcessInfo>, rules: Rules)
    ensures RootPids(a + b, rules) == RootPids(a, rules) + RootPids(b, rules)
  {
    if b == [] {
      assert a + b == a;
    } else {
      var last := |b| - 1;
      assert (a + b)[..|a + b| - 1] == a + b[..last];
      RootPidsConcat(a, b[..last], rules);
    }
  }

  function Without(s: seq<ProcessInfo>, i: nat): seq<ProcessInfo>
    requires i < |s|
  {
    s[..i] + s[i + 1..]
  }

  lemma RootPidsWithout(s: seq<ProcessInfo>, i: nat, rules: Rules)
    requires i < |s|
    ensures RootPids(s, rules) == RootPids(Without(s, i), rules) + RootPids([s[i]], rules)
  {
    assert s == s[..i] + ([s[i]] + s[i + 1..]);
    RootPidsConcat(s[..i], [s[i]] + s[i + 1..], rules);
    RootPidsConcat([s[i]], s[i + 1..], rules);
    RootPidsConcat(s[..i], s[i + 1..], rules);
  }

  lemma MultisetWithout(s: seq<ProcessInfo>, i: nat)
    requires i < |s|
    ensures multiset(Without(s, i)) == multiset(s) - multiset{s[i]}
  {
    assert s == s[..i] + ([s[i]] + s[i + 1..]);
    assert multiset(s) == multiset(s[..i]) + multiset{s[i]} + multiset(s[i + 1..]);
  }

  lemma {:induction false} RootPidsIgnoreOrder(a: seq<ProcessInfo>, b: seq<ProcessInfo>, rules: Rules)
    requires multiset(a) == multiset(b)
    ensures RootPids(a, rules) == RootPids(b, rules)
    decreases |a|
  {
    if a == [] {
      assert |multiset(b)| == 0;
    } else {
      assert a[0] in multiset(b);
      var i :| 0 <= i < |b| && b[i] == a[0];
      MultisetWithout(a, 0);
      MultisetWithout(b, i);
      RootPidsIgnoreOrder(Without(a, 0), Without(b, i), rules);
      RootPidsWithout(a, 0, rules);
      RootPidsWithout(b, i, rules);
    }
  }

  lemma {:induction false} SortedDeterminesList(a: seq<int>, b: seq<int>)
    requires Sorted(a) && Sorted(b) && multiset(a) == multiset(b)
    ensures a == b
  {
    assert |a| == |multiset(a)| == |b|;
    if a != [] {
      LeastFirst(a, b);
      LeastFirst(b, a);
      assert a == [a[0]] + a[1..] && b == [b[0]] + b[1..];
      assert multiset(a) == multiset{a[0]} + multiset(a[1..]);
      assert multiset(b) == multiset{b[0]} + multiset(b[1..]);
      assert multiset(a[1..]) == multiset(a) - multiset{a[0]} && multiset(b[1..]) == multiset(b) - multiset{b[0]};
      SortedDeterminesList(a[1..], b[1..]);
    }
  }

  lemma LeastFirst(a: seq<int>, b: seq<int>)
    requires Sorted(b) && multiset(a) == multiset(b) && a != [] && b != []
    ensures b[0] <= a[0]
  {
    assert a[0] in multiset(a);
    var i :| 0 <= i < |b| && b[i] == a[0];
  }

  lemma {:induction false} PidOrderDeterminesList(a: seq<ProcessInfo>, b: seq<ProcessInfo>)
    requires ByPid(a) && ByPid(b) && forall p :: p in a <==> p in b
    ensures a == b
  {
    if a != [] && b != [] {
      assert a[0] in b && b[0] in a;
      assert a[0] == b[0];
      assert a == [a[0]] + a[1..] && b == [b[0]] + b[1..];
      forall p ensures p in a[1..] <==> p in b[1..] {
        assert p in a <==> p == a[0] || p in a[1..];
        assert p in b <==> p == b[0] || p in b[1..];
        assert a[0] !in a[1..] && b[0] !in b[1..];
      }
      PidOrderDeterminesList(a[1..], b[1..]);
    } else {
      NonEmptyHasMember(a);
      NonEmptyHasMember(b);
    }
  }

  /** Enumeration order does not matter: two listings of the same processes with
      distinct PIDs give the same report. */
  lemma ReportIgnoresOrder(a: seq<ProcessInfo>, b: seq<ProcessInfo>, rules: Rules, r: Report, q: Report)
    requires multiset(a) == multiset(b) && DistinctPids(a) && KeepsIdentity(rules)
    requires IsTree(a, rules, r) && IsTree(b, rules, q)
    ensures r == q
  {
    assert forall p :: p in a <==> p in multiset(a);
    assert forall p :: p in b <==> p in multiset(b);
    ReachedIgnoresOrder(a, b, rules);
    ReachedIgnoresOrder(b, a, rules);
    forall p | p in q.processes ensures FromListing(a, rules, p.pid, p) {
      assert FromListing(b, rules, p.pid, p);
    }
    forall p ensures p in r.processes <==> p in q.processes {
      if p in r.processes {
        SameProcess(a, rules, r, q, p);
      } else if p in q.processes {
        SameProcess(a, rules, q, r, p);
      }
    }
    PidOrderDeterminesList(r.processes, q.processes);
    RootPidsIgnoreOrder(a, b, rules);
    SortedDeterminesList(r.rootPids, q.rootPids);
    StringLessIsTotal();
    AscendingIsCanonical(StringLess, r.learned, q.learned);
  }

  lemma ReachedIgnoresOrder(a: seq<ProcessInfo>, b: seq<ProcessInfo>, rules: Rules)
    requires forall p :: p in a <==> p in b
    ensures forall pid :: Reached(a, rules, pid) ==> Reached(b, rules, pid)
  {
    forall pid | Reached(a, rules, pid) ensures Reached(b, rules, pid) {
      var c: seq<ProcessInfo> :| Chain(a, rules, c) && c[|c| - 1].pid == pid;
      assert Chain(b, rules, c);
    }
  }

  lemma SameProcess(a: seq<ProcessInfo>, rules: Rules, r: Report, q: Report, p: ProcessInfo)
    requires DistinctPids(a) && KeepsIdentity(rules)
    requires forall p :: p in r.processes ==> FromListing(a, rules, p.pid, p)
    requires forall p :: p in q.processes ==> FromListing(a, rules, p.pid, p)
    requires forall pid :: HasPid(r.processes, pid) <==> HasPid(q.processes, pid)
    requires p in r.processes
    ensures p in q.processes
  {
    assert HasPid(r.processes, p.pid);
    var p' :| p' in q.processes && p'.pid == p.pid;
    var x :| x in a && x.pid == p.pid && p == rules.judge(x);
    var y :| y in a && y.pid == p.pid && p' == rules.judge(y);
    assert x == y;
  }
}
