/** The marked block in the hosts file, as text. */
module HostsText {
  import opened Wrappers
  import opened Text

  datatype Markers = Markers(start: string, end: string)

  const HOSTS_MARKERS := Markers("# >>> ANTIGRAVITI-PROXI >>>", "# <<< ANTIGRAVITI-PROXI <<<")

  /** What the proofs use of the two markers: each is one line that does not begin
      with white space, the end marker has a single blank between other characters,
      and it cannot begin inside a start marker. */
  predicate Usable(m: Markers) {
    && OneLine(m) && |m.start| > 2 && |m.end| > 2
    && !RegexSpace(m.start[0])
    && m.end[0] != ' ' && m.end[1] == ' ' && m.end[2] != ' '
    && m.start[2] != m.end[2] && forall d :: 0 < d < |m.start| ==> m.start[d] != m.end[0]
  }

  predicate OneLine(m: Markers) {
    m.start != [] && m.end != [] && '\n' !in m.start && '\n' !in m.end
  }

  lemma HostsMarkersAreUsable()
    ensures Usable(HOSTS_MARKERS)
  {
    MarkersAreLines();
    EndCannotBeginInStart();
  }

  lemma MarkersAreLines()
    ensures '\n' !in HOSTS_MARKERS.start && '\n' !in HOSTS_MARKERS.end
  {
  }

  lemma EndCannotBeginInStart()
    ensures forall d :: 0 < d < |HOSTS_MARKERS.start| ==> HOSTS_MARKERS.start[d] != HOSTS_MARKERS.end[0]
  {
  }

  // ---------------------------------------------------------------- searching

  /** strings.Index. */
  function Find(s: string, sub: string): (r: Option<nat>)
    requires sub != []
    ensures r.Some? ==> r.value + |sub| <= |s|
  {
    FindFrom(s, sub, 0)
  }

  function FindFrom(s: string, sub: string, i: nat): (r: Option<nat>)
    requires sub != []
    ensures r.Some? ==> i <= r.value && r.value + |sub| <= |s|
    decreases |s| - i
  {
    if i + |sub| > |s| then None
    else if OccursAt(s, sub, i) then Some(i)
    else FindFrom(s, sub, i + 1)
  }

  ghost predicate FirstAt(s: string, sub: string, r: Option<nat>) {
    match r
    case None => forall k :: !OccursAt(s, sub, k)
    case Some(i) => OccursAt(s, sub, i) && forall k :: 0 <= k < i ==> !OccursAt(s, sub, k)
  }

  lemma FindsTheFirst(s: string, sub: string)
    requires sub != []
    ensures FirstAt(s, sub, Find(s, sub))
  {
    FindsFrom(s, sub, 0);
  }

  lemma {:induction false} FindsFrom(s: string, sub: string, i: nat)
    requires sub != [] && forall k :: 0 <= k < i ==> !OccursAt(s, sub, k)
    ensures FirstAt(s, sub, FindFrom(s, sub, i))
    decreases |s| - i
  {
    if i + |sub| <= |s| && !OccursAt(s, sub, i) {
      FindsFrom(s, sub, i + 1);
    }
  }

  lemma FindIs(s: string, sub: string, i: nat)
    requires sub != [] && FirstAt(s, sub, Some(i))
    ensures Find(s, sub) == Some(i)
  {
    FindsTheFirst(s, sub);
  }

  lemma Mismatch(s: string, sub: string, k: int, d: nat)
    requires 0 <= k && k + |sub| <= |s| && d < |sub| && s[k + d] != sub[d]
    ensures !OccursAt(s, sub, k)
  {
    assert s[k..k + |sub|][d] == s[k + d];
  }

  /** Text without a line break is found in one line or the other. */
  lemma OccursInOneLine(a: string, b: string, sub: string, k: int)
    requires sub != [] && '\n' !in sub
    ensures OccursAt(a + "\n" + b, sub, k) <==> OccursAt(a, sub, k) || OccursAt(b, sub, k - |a| - 1)
  {
    var s := a + "\n" + b;
    if 0 <= k && k + |sub| <= |s| {
      if k + |sub| <= |a| {
        assert s[k..k + |sub|] == a[k..k + |sub|];
      } else if k > |a| {
        assert s[k..k + |sub|] == b[k - |a| - 1..k - |a| - 1 + |sub|];
      } else {
        assert s[|a|] == '\n' && sub[|a| - k] in sub;
        Mismatch(s, sub, k, |a| - k);
      }
    }
  }

  function Later(r: Option<nat>, offset: nat): Option<nat> {
    match r
    case None => None
    case Some(i) => Some(i + offset)
  }

  lemma FindByLine(a: string, b: string, sub: string, s: string)
    requires sub != [] && '\n' !in sub && s == a + "\n" + b
    ensures Find(s, sub) == if Find(a, sub).Some? then Find(a, sub) else Later(Find(b, sub), |a| + 1)
  {
    forall k ensures OccursAt(s, sub, k) <==> OccursAt(a, sub, k) || OccursAt(b, sub, k - |a| - 1) {
      OccursInOneLine(a, b, sub, k);
    }
    FindsTheFirst(a, sub);
    FindsTheFirst(b, sub);
    FindsTheFirst(s, sub);
    var first := if Find(a, sub).Some? then Find(a, sub) else Later(Find(b, sub), |a| + 1);
    if first.Some? {
      FindIs(s, sub, first.value);
    }
  }

  lemma FindPrefix(sub: string, rest: string)
    requires sub != []
    ensures Find(sub + rest, sub) == Some(0)
  {
  }

  // ----------------------------------------------------------------- removing

  /** `\s` in the regular expression. */
  predicate RegexSpace(c: char) {
    c == '\t' || c == '\n' || c == '\r' || c == ' ' || c as int == 12
  }

  function SkipSpace(s: string): (r: string)
    ensures |r| <= |s|
  {
    if s != [] && RegexSpace(s[0]) then SkipSpace(s[1..]) else s
  }

  datatype Extent = Extent(from: nat, to: nat)

  /** The leftmost match of start, anything, end. */
  function FirstBlock(m: Markers, s: string): (r: Option<Extent>)
    requires m.start != [] && m.end != []
    ensures r.Some? ==> r.value.from < r.value.to <= |s|
  {
    match Find(s, m.start)
    case None => None
    case Some(i) =>
      match Find(s[i + |m.start|..], m.end)
      case None => None
      case Some(j) => Some(Extent(i, i + |m.start| + j + |m.end|))
  }

  /** What replacing every match and the white space after it leaves. */
  function RemoveBlock(m: Markers, s: string): (r: string)
    requires m.start != [] && m.end != []
    ensures |r| <= |s|
    decreases |s|
  {
    match FirstBlock(m, s)
    case None => s
    case Some(x) => s[..x.from] + RemoveBlock(m, SkipSpace(s[x.to..]))
  }

  lemma Unfolds(m: Markers, s: string, x: Extent)
    requires m.start != [] && m.end != [] && FirstBlock(m, s) == Some(x)
    ensures RemoveBlock(m, s) == s[..x.from] + RemoveBlock(m, SkipSpace(s[x.to..]))
  {
  }

  lemma FirstBlockIs(m: Markers, n: string, i: nat, rest: string, j: nat)
    requires m.start != [] && m.end != [] && Find(n, m.start) == Some(i) && rest == n[i + |m.start|..] && Find(rest, m.end) == Some(j)
    ensures FirstBlock(m, n) == Some(Extent(i, i + |m.start| + j + |m.end|))
  {
  }

  /** strings.TrimRight with "\r\n". */
  function TrimNewlines(s: string): (r: string)
    ensures |r| <= |s|
  {
    if s != [] && (s[|s| - 1] == '\n' || s[|s| - 1] == '\r') then TrimNewlines(s[..|s| - 1]) else s
  }

  function Entry(ip: string, domain: string): string {
    ip + "    " + domain
  }

  function Body(m: Markers, line: string): string {
    line + "\n" + (m.end + "\n")
  }

  function Block(m: Markers, line: string): string {
    m.start + "\n" + Body(m, line)
  }

  /** The file without earlier blocks and without its last line breaks. */
  function Base(m: Markers, s: string): string
    requires m.start != [] && m.end != []
  {
    TrimNewlines(RemoveBlock(m, s))
  }

  function SetText(m: Markers, s: string, ip: string, domain: string): string
    requires m.start != [] && m.end != []
  {
    Base(m, s) + "\n" + Block(m, Entry(ip, domain))
  }

  // ------------------------------------------------------------- white space

  predicate IsWord(w: string) {
    w != [] && forall i :: 0 <= i < |w| ==> !IsSpace(w[i])
  }

  /** The blank inside an end marker has no place in an entry. */
  lemma EntryHasNoEnd(m: Markers, ip: string, domain: string, k: int)
    requires Usable(m) && IsWord(ip) && IsWord(domain)
    ensures !OccursAt(Entry(ip, domain), m.end, k)
  {
    var line := Entry(ip, domain);
    if 0 <= k && k + |m.end| <= |line| {
      var p := k + 1;
      if p < |ip| {
        assert line[p] == ip[p];
        Mismatch(line, m.end, k, 1);
      } else if p >= |ip| + 4 {
        assert line[p] == domain[p - |ip| - 4];
        Mismatch(line, m.end, k, 1);
      } else if p == |ip| {
        assert line[p + 1] == ' ';
        Mismatch(line, m.end, k, 2);
      } else {
        assert line[p - 1] == ' ';
        Mismatch(line, m.end, k, 0);
      }
    }
  }

  // ----------------------------------------------------------- set and remove

  lemma NoEndInStart(m: Markers, s: string, i: nat, k: int)
    requires Usable(m) && OccursAt(s, m.start, i) && i <= k < i + |m.start|
    ensures !OccursAt(s, m.end, k)
  {
    if k + |m.end| <= |s| {
      assert s[i..i + |m.start|][k - i] == s[k];
      if k == i {
        assert s[i..i + |m.start|][2] == s[i + 2];
        Mismatch(s, m.end, k, 2);
      } else {
        Mismatch(s, m.end, k, 0);
      }
    }
  }

  ghost predicate Endless(m: Markers, line: string) {
    forall k :: !OccursAt(line, m.end, k)
  }

  /** The first end marker closes the text, but for one line break. */
  ghost predicate Ends(m: Markers, t: string)
    requires m.end != []
  {
    Find(t, m.end).Some? && |t| == Find(t, m.end).value + |m.end| + 1 && t[|t| - 1] == '\n'
  }

  lemma EndsAfter(m: Markers, a: string, t: string)
    requires OneLine(m) && Endless(m, a) && Ends(m, t)
    ensures Ends(m, a + "\n" + t)
  {
    FindsTheFirst(a, m.end);
    FindByLine(a, t, m.end, a + "\n" + t);
  }

  lemma NothingAfterEnd(m: Markers, t: string)
    requires m.end != [] && Ends(m, t)
    ensures SkipSpace(t[Find(t, m.end).value + |m.end|..]) == ""
  {
    var rest := t[Find(t, m.end).value + |m.end|..];
    assert rest == "\n" && rest[1..] == "";
  }

  lemma StartIsEndless(m: Markers)
    requires Usable(m)
    ensures Endless(m, m.start)
  {
    assert OccursAt(m.start, m.start, 0);
    forall k ensures !OccursAt(m.start, m.end, k) {
      if 0 <= k < |m.start| {
        NoEndInStart(m, m.start, 0, k);
      }
    }
  }

  /** Text that is one block from its first character to its last. */
  ghost predicate Complete(m: Markers, b: string)
    requires m.start != [] && m.end != []
  {
    && b != [] && !RegexSpace(b[0]) && Find(b, m.start) == Some(0)
    && Ends(m, b) && Ends(m, b[|m.start|..])
  }

  lemma BlockIsComplete(m: Markers, line: string)
    requires Usable(m) && Endless(m, line)
    ensures Complete(m, Block(m, line))
  {
    FindPrefix(m.end, "\n");
    EndsAfter(m, line, m.end + "\n");
    BlockFromBody(m, Body(m, line), Block(m, line));
  }

  lemma BlockFromBody(m: Markers, body: string, b: string)
    requires Usable(m) && Ends(m, body) && b == m.start + "\n" + body
    ensures Complete(m, b)
  {
    StartIsEndless(m);
    EndsAfter(m, m.start, body);
    EndsAfter(m, "", body);
    assert "" + "\n" + body == "\n" + body == b[|m.start|..];
    assert b == m.start + ("\n" + body);
    FindPrefix(m.start, "\n" + body);
  }

  lemma BlockVanishes(m: Markers, b: string)
    requires OneLine(m) && Complete(m, b)
    ensures RemoveBlock(m, b) == ""
  {
    NothingAfterEnd(m, b[|m.start|..]);
  }

  lemma {:induction false} SkipsInto(x: string, b: string)
    requires b != [] && !RegexSpace(b[0])
    ensures var r := SkipSpace(x + "\n" + b);
            (SkipSpace(x) == [] ==> r == b) && (SkipSpace(x) != [] ==> r == SkipSpace(x) + "\n" + b)
  {
    var s := x + "\n" + b;
    if x == [] {
      assert s[1..] == b;
    } else {
      assert s[1..] == x[1..] + "\n" + b;
      if RegexSpace(x[0]) {
        SkipsInto(x[1..], b);
      }
    }
  }

  /** A block below text without a start marker is removed exactly; below text
      with one, the removal takes away part of that text. */
  lemma {:induction false} RemovalBelow(m: Markers, x: string, b: string, n: string)
    requires OneLine(m) && Complete(m, b) && n == x + "\n" + b
    ensures Find(x, m.start).None? ==> RemoveBlock(m, n) == x + "\n"
    ensures Find(x, m.start).Some? ==> |RemoveBlock(m, n)| < |x|
    decreases |x|, 1
  {
    FindByLine(x, b, m.start, n);
    if Find(x, m.start).None? {
      AppendedBlockGoes(m, x, b, n);
    } else {
      StrayStart(m, x, b, n);
    }
  }

  lemma MatchToTheEnd(m: Markers, n: string, i: nat, rest: string)
    requires m.start != [] && m.end != [] && Find(n, m.start) == Some(i) && rest == n[i + |m.start|..] && Ends(m, rest)
    ensures RemoveBlock(m, n) == n[..i]
  {
    NothingAfterEnd(m, rest);
  }

  lemma Beyond(x: string, b: string, k: nat, n: string)
    requires k <= |b| && n == x + "\n" + b
    ensures n[|x| + 1 + k..] == b[k..] && n[..|x| + 1] == x + "\n"
  {
  }

  lemma Within(x: string, b: string, k: nat, n: string)
    requires k <= |x| && n == x + "\n" + b
    ensures n[k..] == x[k..] + "\n" + b
  {
  }

  lemma AppendedBlockGoes(m: Markers, x: string, b: string, n: string)
    requires OneLine(m) && Complete(m, b) && n == x + "\n" + b && Find(n, m.start) == Some(|x| + 1)
    ensures RemoveBlock(m, n) == x + "\n"
  {
    var rest := b[|m.start|..];
    assert n[|x| + 1 + |m.start|..] == rest && n[..|x| + 1] == x + "\n" by {
      Beyond(x, b, |m.start|, n);
    }
    MatchToTheEnd(m, n, |x| + 1, rest);
  }

  lemma {:induction false} StrayStart(m: Markers, x: string, b: string, n: string)
    requires OneLine(m) && Complete(m, b) && n == x + "\n" + b
    requires Find(x, m.start).Some? && Find(n, m.start) == Find(x, m.start)
    ensures |RemoveBlock(m, n)| < |x|
    decreases |x|, 0
  {
    var i := Find(x, m.start).value;
    var x', rest := x[i + |m.start|..], n[i + |m.start|..];
    assert rest == x' + "\n" + b by {
      Within(x, b, i + |m.start|, n);
    }
    FindByLine(x', b, m.end, rest);
    if Find(x', m.end).Some? {
      StrayBlock(m, n, i, x', b, rest);
    } else {
      FindsTheFirst(x', m.end);
      EndsAfter(m, x', b);
      MatchToTheEnd(m, n, i, rest);
    }
  }

  lemma {:induction false} StrayBlock(m: Markers, n: string, i: nat, x: string, b: string, rest: string)
    requires OneLine(m) && Complete(m, b) && rest == x + "\n" + b
    requires Find(n, m.start) == Some(i) && rest == n[i + |m.start|..]
    requires Find(x, m.end).Some? && Find(rest, m.end) == Find(x, m.end)
    ensures |RemoveBlock(m, n)| < i + |m.start| + |x|
    decreases |x|, 3
  {
    var j := Find(x, m.end).value;
    var y, after := x[j + |m.end|..], rest[j + |m.end|..];
    assert after == y + "\n" + b by {
      Within(x, b, j + |m.end|, rest);
    }
    AfterStrayBlock(m, y, b, after);
    MatchInside(m, n, i, rest, j);
  }

  lemma MatchInside(m: Markers, n: string, i: nat, rest: string, j: nat)
    requires m.start != [] && m.end != [] && Find(n, m.start) == Some(i) && rest == n[i + |m.start|..] && Find(rest, m.end) == Some(j)
    ensures RemoveBlock(m, n) == n[..i] + RemoveBlock(m, SkipSpace(rest[j + |m.end|..]))
  {
    var x := Extent(i, i + |m.start| + j + |m.end|);
    FirstBlockIs(m, n, i, rest, j);
    Unfolds(m, n, x);
    assert n[x.to..] == rest[j + |m.end|..];
  }

  lemma {:induction false} AfterStrayBlock(m: Markers, x: string, b: string, n: string)
    requires OneLine(m) && Complete(m, b) && n == x + "\n" + b
    ensures |RemoveBlock(m, SkipSpace(n))| <= |x| + 1
    decreases |x|, 2
  {
    SkipsInto(x, b);
    if SkipSpace(x) == [] {
      BlockVanishes(m, b);
    } else {
      RemovalBelow(m, SkipSpace(x), b, SkipSpace(n));
    }
  }
}
