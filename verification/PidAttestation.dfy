/** Joining the helper's live connections with the operating system's sockets. */
module PidAttestation {
  import opened Ordering
  import opened Wrappers
  import opened Text

  const VPN_DIRECT := "vpn-direct"

  datatype Connection = Connection(source: string, process: string, outbound: string, network: string)

  /** What /proc shows when one connection is looked up: the inodes whose source
      matches, and the inodes each readable process holds. */
  datatype Lookup = Failed | Sockets(matching: set<string>, held: map<int, set<string>>)

  datatype Ownership = Unresolved | Exact | Ambiguous

  datatype Row = Row(conn: Connection, owners: seq<int>, ownership: Ownership)

  datatype Report = Report(
    available: bool,
    candidates: seq<int>,
    rows: seq<Row>,
    active: seq<int>,
    vpnDirect: seq<int>,
    unexpected: seq<int>,
    ambiguous: nat,
    unresolvedPaths: seq<string>)

  predicate LooksLikeAntigravity(path: string) {
    var p := Lower(ReplaceChar(path, '\\', '/'));
    Contains(p, "antigravity") || Contains(p, "language_server") || Contains(p, "language-server") || HasSuffix(p, "/agy") || HasSuffix(p, "/agy.exe")
  }

  /** A live row that claims to be the product's. */
  predicate Suspect(c: Connection) {
    LooksLikeAntigravity(c.process) && c.process != ""
  }

  // ------------------------------------------------------------ specification

  predicate Holds(l: Lookup, pid: int) {
    l.Sockets? && pid in l.held && exists inode | inode in l.matching :: inode in l.held[pid]
  }

  ghost predicate OwnersOf(candidates: seq<int>, l: Lookup, owners: seq<int>) {
    && Ascending(IntLess, owners)
    && forall pid :: pid in owners <==> pid in candidates && pid > 0 && Holds(l, pid)
  }

  function Judge(owners: seq<int>): Ownership {
    if |owners| == 0 then Unresolved else if |owners| == 1 then Exact else Ambiguous
  }

  ghost predicate IsRow(candidates: seq<int>, c: Connection, l: Lookup, row: Row) {
    row.conn == c && OwnersOf(candidates, l, row.owners) && row.ownership == Judge(row.owners)
  }

  predicate ExactOwner(row: Row, pid: int) {
    row.ownership.Exact? && row.owners == [pid]
  }

  function CountAmbiguous(rows: seq<Row>): nat {
    if rows == [] then 0
    else CountAmbiguous(rows[..|rows| - 1]) + (if rows[|rows| - 1].ownership.Ambiguous? then 1 else 0)
  }

  ghost predicate IsActive(rows: seq<Row>, pid: int) {
    exists i :: 0 <= i < |rows| && ExactOwner(rows[i], pid)
  }

  ghost predicate IsDirect(rows: seq<Row>, pid: int) {
    exists i :: 0 <= i < |rows| && ExactOwner(rows[i], pid) && rows[i].conn.outbound == VPN_DIRECT
  }

  ghost predicate IsUnexpected(rows: seq<Row>, pid: int) {
    exists i :: 0 <= i < |rows| && ExactOwner(rows[i], pid) && rows[i].conn.outbound != VPN_DIRECT
  }

  ghost predicate IsUnresolvedPath(rows: seq<Row>, path: string) {
    exists i :: 0 <= i < |rows| && rows[i].ownership.Unresolved? && Suspect(rows[i].conn) && rows[i].conn.process == path
  }

  ghost predicate RowsMatch(candidates: seq<int>, conns: seq<Connection>, lookups: seq<Lookup>, rows: seq<Row>)
    requires |lookups| == |conns|
  {
    |rows| <= |conns| && forall i :: 0 <= i < |rows| ==> IsRow(candidates, conns[i], lookups[i], rows[i])
  }

  /** Every row joined, and every summary list exactly what the rows say. */
  ghost predicate IsAttestation(candidates: seq<int>, conns: seq<Connection>, lookups: seq<Lookup>, r: Report)
    requires |lookups| == |conns|
  {
    && r.available
    && |r.rows| == |conns| && RowsMatch(r.candidates, conns, lookups, r.rows)
    && Ascending(IntLess, r.candidates) && (forall pid :: pid in r.candidates <==> pid in candidates && pid > 0)
    && Ascending(IntLess, r.active) && (forall pid :: pid in r.active <==> IsActive(r.rows, pid))
    && Ascending(IntLess, r.vpnDirect) && (forall pid :: pid in r.vpnDirect <==> IsDirect(r.rows, pid))
    && Ascending(IntLess, r.unexpected) && (forall pid :: pid in r.unexpected <==> IsUnexpected(r.rows, pid))
    && r.ambiguous == CountAmbiguous(r.rows)
    && Ascending(StringLess, r.unresolvedPaths) && (forall path :: path in r.unresolvedPaths <==> IsUnresolvedPath(r.rows, path))
  }

  // ---------------------------------------------------------------- algorithm

  /** sortedIntKeys: keys that are not positive are dropped. */
  method SortedPositiveKeys(keys: set<int>) returns (out: seq<int>)
    ensures Ascending(IntLess, out) && forall v :: v in out <==> v in keys && v > 0
  {
    IntLessIsTotal();
    out := SortedKeys(IntLess, set v | v in keys && v > 0);
  }

  method UniqueSortedPositiveInts(values: seq<int>) returns (out: seq<int>)
    ensures Ascending(IntLess, out) && forall v :: v in out <==> v in values && v > 0
  {
    var seen: set<int> := {};
    for i := 0 to |values|
      invariant forall v :: v in seen <==> v in values[..i] && v > 0
    {
      assert values[..i + 1] == values[..i] + [values[i]];
      if values[i] > 0 {
        seen := seen + {values[i]};
      }
    }
    assert values[..|values|] == values;
    out := SortedPositiveKeys(seen);
  }

  /** platformRuntimeConnectionOwners on Linux. */
  method ConnectionOwners(candidates: seq<int>, l: Lookup) returns (owners: seq<int>)
    requires l.Sockets?
    ensures OwnersOf(candidates, l, owners)
  {
    owners := [];
    if l.matching == {} {
      return;
    }
    var pids := UniqueSortedPositiveInts(candidates);
    for i := 0 to |pids|
      invariant Ascending(IntLess, owners)
      invariant forall j, m :: 0 <= j < |owners| && i <= m < |pids| ==> IntLess(owners[j], pids[m])
      invariant forall pid :: pid in owners ==> pid in pids[..i] && Holds(l, pid)
      invariant forall m :: 0 <= m < i && Holds(l, pids[m]) ==> pids[m] in owners
    {
      assert pids[..i + 1] == pids[..i] + [pids[i]];
      if Holds(l, pids[i]) {
        owners := owners + [pids[i]];
      }
    }
    assert pids[..|pids|] == pids;
    forall pid ensures pid in owners <==> pid in candidates && pid > 0 && Holds(l, pid) {
      assert pid in candidates && pid > 0 ==> pid in pids;
    }
  }

  method JoinRow(candidates: seq<int>, c: Connection, l: Lookup) returns (row: Row)
    ensures IsRow(candidates, c, l, row)
  {
    var owners: seq<int> := [];
    if l.Sockets? {
      owners := ConnectionOwners(candidates, l);
    }
    row := Row(c, owners, Judge(owners));
  }

  /** `conns` is None when the connection tracker cannot be read; `lookups` are the
      socket tables seen for each connection. */
  method AttestAgentPidRoutes(candidates: seq<int>, conns: Option<seq<Connection>>, lookups: seq<Lookup>) returns (r: Report)
    requires conns.Some? ==> |lookups| == |conns.value|
    ensures r.available <==> conns.Some? && exists pid :: pid in candidates && pid > 0
    ensures r.available ==> IsAttestation(candidates, conns.value, lookups, r)
    ensures !r.available ==> r.rows == [] && r.active == [] && r.unexpected == [] && r.ambiguous == 0 && r.unresolvedPaths == []
  {
    var pids := UniqueSortedPositiveInts(candidates);
    r := Report(false, pids, [], [], [], [], 0, []);
    if pids == [] {
      assert forall pid :: pid in candidates && pid > 0 ==> pid in pids;
      return;
    }
    var first := pids[0];
    assert first in pids;
    if conns.None? {
      return;
    }
    var rows, marks := JoinAll(pids, conns.value, lookups);
    r := Summarise(pids, rows, marks);
    ActiveArePositive(candidates, pids, conns.value, lookups, rows);
  }

  method JoinAll(pids: seq<int>, conns: seq<Connection>, lookups: seq<Lookup>) returns (rows: seq<Row>, marks: Marks)
    requires |lookups| == |conns|
    ensures |rows| == |conns| && RowsMatch(pids, conns, lookups, rows)
    ensures marks == AllMarks(rows)
  {
    rows, marks := [], Marks({}, {}, {}, {}, 0);
    for i := 0 to |conns|
      invariant |rows| == i && RowsMatch(pids, conns, lookups, rows)
      invariant marks == AllMarks(rows)
    {
      var row := JoinRow(pids, conns[i], lookups[i]);
      RowJoins(pids, conns, lookups, rows, row);
      MarksAdd(rows, row);
      marks := Mark(marks, row);
      rows := rows + [row];
    }
  }

  /** The switch on one row's ownership. */
  method Mark(before: Marks, row: Row) returns (marks: Marks)
    requires row.ownership == Judge(row.owners)
    ensures marks == Both(before, RowMarks(row))
  {
    var Marks(active, vpn, unexpected, unresolved, ambiguous) := before;
    if row.ownership.Exact? {
      var pid := row.owners[0];
      active := active + {pid};
      if row.conn.outbound == VPN_DIRECT {
        vpn := vpn + {pid};
      } else {
        unexpected := unexpected + {pid};
      }
    } else if row.ownership.Ambiguous? {
      ambiguous := ambiguous + 1;
    } else if Suspect(row.conn) {
      unresolved := unresolved + {row.conn.process};
    }
    marks := Marks(active, vpn, unexpected, unresolved, ambiguous);
  }

  method Summarise(pids: seq<int>, rows: seq<Row>, marks: Marks) returns (r: Report)
    requires marks == AllMarks(rows)
    ensures r.available && r.candidates == pids && r.rows == rows && r.ambiguous == CountAmbiguous(rows)
    ensures Ascending(IntLess, r.active) && forall pid :: pid in r.active <==> IsActive(rows, pid) && pid > 0
    ensures Ascending(IntLess, r.vpnDirect) && forall pid :: pid in r.vpnDirect <==> IsDirect(rows, pid) && pid > 0
    ensures Ascending(IntLess, r.unexpected) && forall pid :: pid in r.unexpected <==> IsUnexpected(rows, pid) && pid > 0
    ensures Ascending(StringLess, r.unresolvedPaths) && forall path :: path in r.unresolvedPaths <==> IsUnresolvedPath(rows, path)
  {
    var a := SortedPositiveKeys(marks.active);
    var v := SortedPositiveKeys(marks.vpn);
    var u := SortedPositiveKeys(marks.unexpected);
    StringLessIsTotal();
    var paths := SortedKeys(StringLess, marks.paths);
    r := Report(true, pids, rows, a, v, u, marks.ambiguous, paths);
    MarksSpeakForPaths(rows, "");
    forall pid ensures (pid in marks.active <==> IsActive(rows, pid)) && (pid in marks.vpn <==> IsDirect(rows, pid)) && (pid in marks.unexpected <==> IsUnexpected(rows, pid)) {
      MarksSpeakForPids(rows, pid);
    }
    forall path ensures path in marks.paths <==> IsUnresolvedPath(rows, path) {
      MarksSpeakForPaths(rows, path);
    }
  }

  /** What one row contributes to each summary. */
  datatype Marks = Marks(active: set<int>, vpn: set<int>, unexpected: set<int>, paths: set<string>, ambiguous: nat)

  function RowMarks(row: Row): Marks {
    var owner := if row.ownership.Exact? && |row.owners| == 1 then {row.owners[0]} else {};
    Marks(owner,
          if row.conn.outbound == VPN_DIRECT then owner else {},
          if row.conn.outbound != VPN_DIRECT then owner else {},
          if row.ownership.Unresolved? && Suspect(row.conn) then {row.conn.process} else {},
          if row.ownership.Ambiguous? then 1 else 0)
  }

  function AllMarks(rows: seq<Row>): Marks {
    if rows == [] then Marks({}, {}, {}, {}, 0)
    else Both(AllMarks(rows[..|rows| - 1]), RowMarks(rows[|rows| - 1]))
  }

  function Both(m: Marks, r: Marks): Marks {
    Marks(m.active + r.active, m.vpn + r.vpn, m.unexpected + r.unexpected, m.paths + r.paths, m.ambiguous + r.ambiguous)
  }

  lemma RowJoins(pids: seq<int>, conns: seq<Connection>, lookups: seq<Lookup>, rows: seq<Row>, row: Row)
    requires |lookups| == |conns| && |rows| < |conns|
    requires RowsMatch(pids, conns, lookups, rows) && IsRow(pids, conns[|rows|], lookups[|rows|], row)
    ensures RowsMatch(pids, conns, lookups, rows + [row])
  {
  }

  lemma MarksAdd(rows: seq<Row>, row: Row)
    ensures AllMarks(rows + [row]) == Both(AllMarks(rows), RowMarks(row))
  {
    var more := rows + [row];
    assert more[..|more| - 1] == rows && more[|more| - 1] == row;
  }

  lemma {:induction false} MarksSpeakForPids(rows: seq<Row>, pid: int)
    ensures pid in AllMarks(rows).active <==> IsActive(rows, pid)
    ensures pid in AllMarks(rows).vpn <==> IsDirect(rows, pid)
    ensures pid in AllMarks(rows).unexpected <==> IsUnexpected(rows, pid)
  {
    if rows != [] {
      var init, last := rows[..|rows| - 1], rows[|rows| - 1];
      MarksSpeakForPids(init, pid);
      assert rows == init + [last];
      OneMoreRow(init, last);
      assert pid in RowMarks(last).active <==> ExactOwner(last, pid);
    }
  }

  lemma {:induction false} MarksSpeakForPaths(rows: seq<Row>, path: string)
    ensures path in AllMarks(rows).paths <==> IsUnresolvedPath(rows, path)
    ensures AllMarks(rows).ambiguous == CountAmbiguous(rows)
  {
    if rows != [] {
      var init, last := rows[..|rows| - 1], rows[|rows| - 1];
      MarksSpeakForPaths(init, path);
      assert rows == init + [last];
      OneMoreRow(init, last);
    }
  }

  lemma OneMoreRow(rows: seq<Row>, row: Row)
    ensures forall pid :: IsActive(rows + [row], pid) <==> IsActive(rows, pid) || ExactOwner(row, pid)
    ensures forall pid :: IsDirect(rows + [row], pid) <==> IsDirect(rows, pid) || (ExactOwner(row, pid) && row.conn.outbound == VPN_DIRECT)
    ensures forall pid :: IsUnexpected(rows + [row], pid) <==> IsUnexpected(rows, pid) || (ExactOwner(row, pid) && row.conn.outbound != VPN_DIRECT)
    ensures forall path :: IsUnresolvedPath(rows + [row], path) <==>
              IsUnresolvedPath(rows, path) || (row.ownership.Unresolved? && Suspect(row.conn) && row.conn.process == path)
  {
    var more := rows + [row];
    assert more[|rows|] == row && forall i :: 0 <= i < |rows| ==> more[i] == rows[i];
    forall pid ensures IsActive(more, pid) <==> IsActive(rows, pid) || ExactOwner(row, pid) {
      if IsActive(rows, pid) {
        var i :| 0 <= i < |rows| && ExactOwner(rows[i], pid);
        assert ExactOwner(more[i], pid);
      }
    }
    forall pid ensures IsDirect(more, pid) <==> IsDirect(rows, pid) || (ExactOwner(row, pid) && row.conn.outbound == VPN_DIRECT) {
      if IsDirect(rows, pid) {
        var i :| 0 <= i < |rows| && ExactOwner(rows[i], pid) && rows[i].conn.outbound == VPN_DIRECT;
        assert ExactOwner(more[i], pid);
      }
    }
    forall pid ensures IsUnexpected(more, pid) <==> IsUnexpected(rows, pid) || (ExactOwner(row, pid) && row.conn.outbound != VPN_DIRECT) {
      if IsUnexpected(rows, pid) {
        var i :| 0 <= i < |rows| && ExactOwner(rows[i], pid) && rows[i].conn.outbound != VPN_DIRECT;
        assert ExactOwner(more[i], pid);
      }
    }
    forall path ensures IsUnresolvedPath(more, path) <==>
                        IsUnresolvedPath(rows, path) || (row.ownership.Unresolved? && Suspect(row.conn) && row.conn.process == path) {
      if IsUnresolvedPath(rows, path) {
        var i :| 0 <= i < |rows| && rows[i].ownership.Unresolved? && Suspect(rows[i].conn) && rows[i].conn.process == path;
        assert more[i] == rows[i];
      }
    }
  }

  /** Owners come from the positive candidates, so dropping non-positive keys
      drops nothing. */
  lemma ActiveArePositive(candidates: seq<int>, pids: seq<int>, conns: seq<Connection>, lookups: seq<Lookup>, rows: seq<Row>)
    requires |lookups| == |conns| && RowsMatch(pids, conns, lookups, rows)
    ensures forall pid :: IsActive(rows, pid) ==> pid > 0 && pid in pids
    ensures forall pid :: IsDirect(rows, pid) ==> IsActive(rows, pid)
    ensures forall pid :: IsUnexpected(rows, pid) ==> IsActive(rows, pid)
  {
    forall pid | IsActive(rows, pid) ensures pid > 0 && pid in pids {
      var i :| 0 <= i < |rows| && ExactOwner(rows[i], pid);
      assert IsRow(pids, conns[i], lookups[i], rows[i]);
      assert pid in rows[i].owners;
    }
  }

  lemma {:induction false} NoAmbiguousRows(rows: seq<Row>)
    ensures CountAmbiguous(rows) == 0 <==> forall i :: 0 <= i < |rows| ==> !rows[i].ownership.Ambiguous?
  {
    if rows != [] {
      NoAmbiguousRows(rows[..|rows| - 1]);
    }
  }
}
