/** Setting, removing and expiring the emergency hosts override. */
module HostsOverride {
  import opened Wrappers
  import opened Text
  import opened HostsText

  /** Seconds: thirty minutes. */
  const TTL := 1800

  /** hosts-override.json; no expiry stands for the zero time. */
  datatype Metadata = Absent | Undecodable | Stored(domain: string, ip: string, expires: Option<int>)

  // ------------------------------------------------------------------- words

  function Word(s: string): (w: string)
    ensures |w| <= |s|
  {
    if s == [] || IsSpace(s[0]) then "" else [s[0]] + Word(s[1..])
  }

  /** strings.Fields. */
  function Fields(s: string): seq<string>
    decreases |s|
  {
    if s == [] then []
    else if IsSpace(s[0]) then Fields(s[1..])
    else
      var w := Word(s);
      assert |w| > 0;
      [w] + Fields(s[|w|..])
  }

  /** strings.Split with "\n". */
  function SplitLines(s: string): (lines: seq<string>)
    decreases |s|
  {
    match Find(s, "\n")
    case None => [s]
    case Some(i) => [s[..i]] + SplitLines(s[i + 1..])
  }

  predicate HasEntry(lines: seq<string>, ip: string, domain: string) {
    exists i :: 0 <= i < |lines| && Fields(lines[i]) == [ip, domain]
  }

  /** Between the first start marker and the first end marker of the file there is
      a line with exactly the recorded address and name. */
  predicate Owned(m: Markers, hosts: string, ip: string, domain: string)
    requires m.start != [] && m.end != []
  {
    var start, end := Find(hosts, m.start), Find(hosts, m.end);
    && start.Some? && end.Some? && start.value <= end.value
    && HasEntry(SplitLines(hosts[start.value..end.value]), ip, domain)
  }

  method HasOwnedHostsLine(m: Markers, hosts: string, ip: string, domain: string) returns (owned: bool)
    requires m.start != [] && m.end != []
    ensures owned <==> Owned(m, hosts, ip, domain)
  {
    var start, end := Find(hosts, m.start), Find(hosts, m.end);
    if start.None? || end.None? || end.value < start.value {
      return false;
    }
    var lines := SplitLines(hosts[start.value..end.value]);
    for i := 0 to |lines|
      invariant forall k :: 0 <= k < i ==> Fields(lines[k]) != [ip, domain]
    {
      var fields := Fields(lines[i]);
      if |fields| == 2 && fields[0] == ip && fields[1] == domain {
        assert fields == [ip, domain];
        return true;
      }
    }
    return false;
  }

  lemma {:induction false} WordStops(w: string, rest: string)
    requires (forall i :: 0 <= i < |w| ==> !IsSpace(w[i])) && (rest == [] || IsSpace(rest[0]))
    ensures Word(w + rest) == w
  {
    if w == [] {
      assert w + rest == rest;
    } else {
      assert (w + rest)[1..] == w[1..] + rest;
      WordStops(w[1..], rest);
      assert w == [w[0]] + w[1..];
    }
  }

  lemma FieldsOfWord(w: string)
    requires IsWord(w)
    ensures Fields(w) == [w]
  {
    WordStops(w, "");
    assert w + "" == w && w[|w|..] == "";
  }

  lemma FieldsSkip(s: string)
    requires s != [] && IsSpace(s[0])
    ensures Fields(s) == Fields(s[1..])
  {
  }

  lemma FieldsOfEntry(ip: string, domain: string)
    requires IsWord(ip) && IsWord(domain)
    ensures Fields(Entry(ip, domain)) == [ip, domain]
  {
    var gap := "    " + domain;
    assert Entry(ip, domain) == ip + gap;
    WordStops(ip, gap);
    assert (ip + gap)[|ip|..] == gap;
    FieldsAcross(domain, gap);
    assert (ip + gap)[0] == ip[0];
  }

  lemma FieldsAcross(domain: string, gap: string)
    requires IsWord(domain) && gap == "    " + domain
    ensures Fields(gap) == [domain]
  {
    FieldsSkip(gap);
    FieldsSkip(gap[1..]);
    FieldsSkip(gap[1..][1..]);
    FieldsSkip(gap[1..][1..][1..]);
    assert gap[1..][1..][1..][1..] == domain;
    FieldsOfWord(domain);
  }

  lemma FirstLine(a: string, rest: string, s: string)
    requires '\n' !in a && s == a + "\n" + rest
    ensures SplitLines(s) == [a] + SplitLines(rest)
  {
    forall k | 0 <= k < |a| ensures !OccursAt(s, "\n", k) {
      assert s[k] == a[k] && a[k] in a;
      Mismatch(s, "\n", k, 0);
    }
    assert s[|a|..|a| + 1] == "\n";
    FindIs(s, "\n", |a|);
    assert s[..|a|] == a && s[|a| + 1..] == rest;
  }

  // -------------------------------------------------------------- round trips

  lemma EntryIsEndless(m: Markers, ip: string, domain: string)
    requires Usable(m) && IsWord(ip) && IsWord(domain)
    ensures Endless(m, Entry(ip, domain))
  {
    forall k ensures !OccursAt(Entry(ip, domain), m.end, k) {
      EntryHasNoEnd(m, ip, domain, k);
    }
  }

  lemma SettingIsRemovable(m: Markers, s: string, ip: string, domain: string)
    requires Usable(m) && IsWord(ip) && IsWord(domain)
    ensures Find(Base(m, s), m.start).None? ==> RemoveBlock(m, SetText(m, s, ip, domain)) == Base(m, s) + "\n"
    ensures Find(Base(m, s), m.start).Some? ==> |RemoveBlock(m, SetText(m, s, ip, domain))| < |Base(m, s)|
  {
    EntryIsEndless(m, ip, domain);
    BlockIsComplete(m, Entry(ip, domain));
    RemovalBelow(m, Base(m, s), Block(m, Entry(ip, domain)), SetText(m, s, ip, domain));
  }

  /** Removing what was set gives the block-free text with one closing line break,
      exactly when no stray start marker was left in that text. */
  lemma RemovingUndoesSetting(m: Markers, s: string, ip: string, domain: string)
    requires Usable(m) && IsWord(ip) && IsWord(domain)
    ensures RemoveBlock(m, SetText(m, s, ip, domain)) == Base(m, s) + "\n" <==> Find(Base(m, s), m.start).None?
  {
    SettingIsRemovable(m, s, ip, domain);
  }

  lemma {:induction false} TrimAgain(s: string, c: char)
    requires c == '\n' || c == '\r'
    ensures TrimNewlines(s + [c]) == TrimNewlines(s)
  {
    assert (s + [c])[..|s|] == s;
  }

  lemma {:induction false} TrimmedStays(s: string)
    ensures TrimNewlines(TrimNewlines(s)) == TrimNewlines(s)
  {
    if s != [] && (s[|s| - 1] == '\n' || s[|s| - 1] == '\r') {
      TrimmedStays(s[..|s| - 1]);
    }
  }

  /** Setting twice is setting the second, under the same condition. */
  lemma LastSettingWins(m: Markers, s: string, ip1: string, domain1: string, ip2: string, domain2: string)
    requires Usable(m) && IsWord(ip1) && IsWord(domain1) && IsWord(ip2) && IsWord(domain2)
    ensures SetText(m, SetText(m, s, ip1, domain1), ip2, domain2) == SetText(m, s, ip2, domain2) <==> Find(Base(m, s), m.start).None?
  {
    SettingIsRemovable(m, s, ip1, domain1);
    var again := Base(m, SetText(m, s, ip1, domain1));
    if Find(Base(m, s), m.start).None? {
      TrimAgain(Base(m, s), '\n');
      TrimmedStays(RemoveBlock(m, s));
    } else {
      SameLength(again, Base(m, s), Block(m, Entry(ip2, domain2)));
    }
  }

  lemma SameLength(a: string, c: string, b: string)
    ensures a + "\n" + b == c + "\n" + b ==> |a| == |c|
  {
  }

  /** A file without a complete block is left alone, and no other. */
  lemma RemovalTouchesOnlyBlocks(m: Markers, s: string)
    requires m.start != [] && m.end != []
    ensures RemoveBlock(m, s) == s <==> FirstBlock(m, s).None?
  {
    if FirstBlock(m, s).Some? {
      Unfolds(m, s, FirstBlock(m, s).value);
    }
  }

  // ---------------------------------------------------------------- ownership

  lemma EntryLines(m: Markers, ip: string, domain: string, text: string)
    requires Usable(m) && IsWord(ip) && IsWord(domain)
    requires text == m.start + "\n" + (Entry(ip, domain) + "\n" + "")
    ensures HasEntry(SplitLines(text), ip, domain)
  {
    var line := Entry(ip, domain);
    FirstLine(m.start, line + "\n" + "", text);
    EntryIsALine(ip, domain);
    FirstLine(line, "", line + "\n" + "");
    FieldsOfEntry(ip, domain);
    assert SplitLines(text)[1] == line;
  }

  lemma EntryIsALine(ip: string, domain: string)
    requires IsWord(ip) && IsWord(domain)
    ensures '\n' !in Entry(ip, domain)
  {
    var line := Entry(ip, domain);
    forall k | 0 <= k < |line| ensures line[k] != '\n' {
      if k < |ip| {
        assert line[k] == ip[k];
      } else if k >= |ip| + 4 {
        assert line[k] == domain[k - |ip| - 4];
      }
    }
  }

  /** Right after setting, the override is recognised as owned exactly when no stray
      end marker stands above it, or what stands above already looked owned. */
  lemma OwnedAfterSetting(m: Markers, s: string, ip: string, domain: string)
    requires Usable(m) && IsWord(ip) && IsWord(domain)
    ensures Owned(m, SetText(m, s, ip, domain), ip, domain) <==>
              Find(Base(m, s), m.end).None? || Owned(m, Base(m, s), ip, domain)
  {
    EntryIsEndless(m, ip, domain);
    if Find(Base(m, s), m.end).None? {
      OwnedBelow(m, Base(m, s), ip, domain, SetText(m, s, ip, domain));
    } else {
      OwnedAbove(m, Base(m, s), ip, domain, SetText(m, s, ip, domain));
    }
  }

  /** No end marker in x: the entry is among the lines that are looked at. */
  lemma OwnedBelow(m: Markers, x: string, ip: string, domain: string, n: string)
    requires Usable(m) && IsWord(ip) && IsWord(domain) && Find(x, m.end).None?
    requires Endless(m, Entry(ip, domain)) && n == x + "\n" + Block(m, Entry(ip, domain))
    ensures Owned(m, n, ip, domain)
  {
    var line := Entry(ip, domain);
    var text := m.start + "\n" + (line + "\n" + "");
    var end := |x| + 1 + |text|;
    BlockMarkers(m, line, x, n);
    EntryLines(m, ip, domain, text);
    assert n[|x| + 1..end] == text by {
      BlockLines(m, line, x, n, text);
    }
    if Find(x, m.start).None? {
      OwnedBetween(m, n, ip, domain, |x| + 1, end);
    } else {
      var i := Find(x, m.start).value;
      assert n[i..end] == x[i..] + "\n" + text by {
        TailWith(x, n, i, end, text);
      }
      EntryFurtherDown(x[i..], text, n[i..end], ip, domain);
      OwnedBetween(m, n, ip, domain, i, end);
    }
  }

  lemma TailWith(x: string, n: string, i: nat, end: nat, text: string)
    requires i <= |x| < end <= |n| && n[..|x| + 1] == x + "\n" && n[|x| + 1..end] == text
    ensures n[i..end] == x[i..] + "\n" + text
  {
    assert n[i..end] == n[..|x| + 1][i..] + n[|x| + 1..end];
  }

  lemma EntryFurtherDown(a: string, b: string, n: string, ip: string, domain: string)
    requires n == a + "\n" + b && HasEntry(SplitLines(b), ip, domain)
    ensures HasEntry(SplitLines(n), ip, domain)
  {
    LinesJoin(a, b, n);
    var i :| 0 <= i < |SplitLines(b)| && Fields(SplitLines(b)[i]) == [ip, domain];
    assert SplitLines(n)[|SplitLines(a)| + i] == SplitLines(b)[i];
  }

  lemma {:induction false} LinesJoin(a: string, b: string, n: string)
    requires n == a + "\n" + b
    ensures SplitLines(n) == SplitLines(a) + SplitLines(b)
    decreases |a|
  {
    FindsTheFirst(a, "\n");
    match Find(a, "\n")
    case None =>
      NoBreak(a, |a|);
      FirstLine(a, b, n);
    case Some(i) =>
      var head, rest := a[..i], a[i + 1..];
      NoBreak(a, i);
      CutAtBreak(a, b, n, i, rest + "\n" + b);
      FirstLine(head, rest, a);
      FirstLine(head, rest + "\n" + b, n);
      LinesJoin(rest, b, rest + "\n" + b);
  }

  lemma CutAtBreak(a: string, b: string, n: string, i: nat, below: string)
    requires n == a + "\n" + b && OccursAt(a, "\n", i) && below == a[i + 1..] + "\n" + b
    ensures a == a[..i] + "\n" + a[i + 1..] && n == a[..i] + "\n" + below
  {
    assert a[i..i + 1] == "\n";
  }

  lemma NoBreak(a: string, i: nat)
    requires i <= |a| && forall k :: 0 <= k < i ==> !OccursAt(a, "\n", k)
    ensures '\n' !in a[..i] && a[..|a|] == a
  {
    forall k | 0 <= k < i ensures a[k] != '\n' {
      assert a[k..k + 1] == [a[k]] && !OccursAt(a, "\n", k);
    }
  }

  /** An end marker in x: what is looked at is what would be looked at in x. */
  lemma OwnedAbove(m: Markers, x: string, ip: string, domain: string, n: string)
    requires Usable(m) && Find(x, m.end).Some? && Endless(m, Entry(ip, domain)) && n == x + "\n" + Block(m, Entry(ip, domain))
    ensures Owned(m, n, ip, domain) <==> Owned(m, x, ip, domain)
  {
    BlockMarkers(m, Entry(ip, domain), x, n);
    var end := Find(x, m.end).value;
    if Find(x, m.start).None? {
      NotOwnedBefore(m, n, ip, domain, |x| + 1, end);
    } else if Find(x, m.start).value > end {
      NotOwnedBefore(m, n, ip, domain, Find(x, m.start).value, end);
    } else {
      var i := Find(x, m.start).value;
      assert n[i..end] == x[i..end];
      OwnedBetween(m, n, ip, domain, i, end);
    }
  }

  lemma NotOwnedBefore(m: Markers, n: string, ip: string, domain: string, start: nat, end: nat)
    requires m.start != [] && m.end != []
    requires Find(n, m.start) == Some(start) && Find(n, m.end) == Some(end) && start > end
    ensures !Owned(m, n, ip, domain)
  {
  }

  lemma OwnedBetween(m: Markers, n: string, ip: string, domain: string, start: nat, end: nat)
    requires m.start != [] && m.end != []
    requires Find(n, m.start) == Some(start) && Find(n, m.end) == Some(end) && start <= end
    ensures Owned(m, n, ip, domain) <==> HasEntry(SplitLines(n[start..end]), ip, domain)
  {
  }

  lemma BlockMarkers(m: Markers, line: string, x: string, n: string)
    requires Usable(m) && Endless(m, line) && n == x + "\n" + Block(m, line)
    ensures Find(n, m.start) == if Find(x, m.start).Some? then Find(x, m.start) else Some(|x| + 1)
    ensures Find(n, m.end) == if Find(x, m.end).Some? then Find(x, m.end) else Some(|x| + 1 + |m.start| + |line| + 2)
  {
    var b := Block(m, line);
    assert |b| == |m.start| + |line| + |m.end| + 3;
    BlockIsComplete(m, line);
    FindByLine(x, b, m.start, n);
    EndBelow(m, x, b, n);
  }

  lemma EndBelow(m: Markers, x: string, b: string, n: string)
    requires OneLine(m) && Ends(m, b) && n == x + "\n" + b
    ensures |b| > |m.end|
    ensures Find(n, m.end) == if Find(x, m.end).Some? then Find(x, m.end) else Some(|x| + 1 + (|b| - |m.end| - 1))
  {
    FindByLine(x, b, m.end, n);
  }

  lemma BlockLines(m: Markers, line: string, x: string, n: string, head: string)
    requires n == x + "\n" + Block(m, line) && head == m.start + "\n" + (line + "\n" + "")
    ensures |n| >= |x| + 1 + |head|
    ensures n[|x| + 1..|x| + 1 + |head|] == head
  {
    var b := Block(m, line);
    assert b == head + (m.end + "\n");
    Beyond(x, b, 0, n);
    assert n[|x| + 1..] == b && b[..|head|] == head;
    assert n[|x| + 1..|x| + 1 + |head|] == n[|x| + 1..][..|head|];
  }

  lemma OccursFurther(s: string, sub: string, from: nat, k: int)
    requires from <= |s| && k >= 0
    ensures OccursAt(s[from..], sub, k) <==> OccursAt(s, sub, from + k)
  {
    if from + k + |sub| <= |s| {
      assert s[from..][k..k + |sub|] == s[from + k..from + k + |sub|];
    }
  }

  lemma FindFurther(s: string, sub: string, from: nat, at: nat)
    requires sub != [] && Find(s, sub) == Some(at) && from <= at
    ensures Find(s[from..], sub) == Some(at - from)
  {
    FindsTheFirst(s, sub);
    forall k | 0 <= k <= at - from ensures OccursAt(s[from..], sub, k) <==> k == at - from {
      OccursFurther(s, sub, from, k);
    }
    FindIs(s[from..], sub, at - from);
  }

  lemma MarkersDoNotOverlap(m: Markers, s: string, start: nat, end: nat)
    requires Usable(m) && Find(s, m.start) == Some(start) && Find(s, m.end) == Some(end) && start <= end
    ensures start + |m.start| <= end
  {
    FindsTheFirst(s, m.start);
    FindsTheFirst(s, m.end);
    if end < start + |m.start| {
      NoEndInStart(m, s, start, end);
    }
  }

  lemma OwnedMarkers(m: Markers, hosts: string, ip: string, domain: string) returns (start: nat, end: nat)
    requires m.start != [] && m.end != [] && Owned(m, hosts, ip, domain)
    ensures Find(hosts, m.start) == Some(start) && Find(hosts, m.end) == Some(end) && start <= end
  {
    start, end := Find(hosts, m.start).value, Find(hosts, m.end).value;
  }

  /** When ownership is proven, what is removed first is the very block that held
      the owned line: from the first start marker to the first end marker. */
  lemma ExpiryRemovesTheProvenBlock(m: Markers, hosts: string, ip: string, domain: string)
    requires Usable(m) && Owned(m, hosts, ip, domain)
    ensures Find(hosts, m.start).Some? && Find(hosts, m.end).Some?
    ensures FirstBlock(m, hosts) == Some(Extent(Find(hosts, m.start).value, Find(hosts, m.end).value + |m.end|))
  {
    var start, end := OwnedMarkers(m, hosts, ip, domain);
    MarkersDoNotOverlap(m, hosts, start, end);
    FindFurther(hosts, m.end, start + |m.start|, end);
    FirstBlockIs(m, hosts, start, hosts[start + |m.start|..], end - start - |m.start|);
  }

  /** Nothing but that block and the white space after it goes, exactly when no
      further complete block follows. */
  lemma ExpiryRemovesOnlyTheProvenBlock(m: Markers, hosts: string, ip: string, domain: string)
    requires Usable(m) && Owned(m, hosts, ip, domain)
    ensures FirstBlock(m, hosts).Some?
    ensures var x := FirstBlock(m, hosts).value;
            RemoveBlock(m, hosts) == hosts[..x.from] + SkipSpace(hosts[x.to..])
            <==> FirstBlock(m, SkipSpace(hosts[x.to..])).None?
  {
    ExpiryRemovesTheProvenBlock(m, hosts, ip, domain);
    var x := FirstBlock(m, hosts).value;
    var rest := SkipSpace(hosts[x.to..]);
    Unfolds(m, hosts, x);
    RemovalTouchesOnlyBlocks(m, rest);
    assert (hosts[..x.from] + RemoveBlock(m, rest))[x.from..] == RemoveBlock(m, rest);
    assert (hosts[..x.from] + rest)[x.from..] == rest;
  }

  /** The input that shows it: below an owned block, a second block goes as well,
      whatever line it holds. */
  lemma SecondBlockGoesToo(m: Markers, ip: string, domain: string, line: string, first: string, second: string, hosts: string)
    requires Usable(m) && IsWord(ip) && IsWord(domain) && Endless(m, line)
    requires first == Block(m, Entry(ip, domain)) && second == Block(m, line) && hosts == first + second
    ensures Owned(m, hosts, ip, domain)
    ensures FirstBlock(m, hosts) == Some(Extent(0, |first| - 1))
    ensures RemoveBlock(m, hosts) == ""
  {
    BlockEndsItsLine(m, Entry(ip, domain));
    var a := WithoutBreak(first, second, hosts);
    FirstOfTwo(m, ip, domain, first, a, second, hosts);
    NothingBelow(m, line, a, second, hosts);
  }

  lemma BlockEndsItsLine(m: Markers, line: string)
    ensures Block(m, line) != [] && Block(m, line)[|Block(m, line)| - 1] == '\n'
  {
  }

  lemma WithoutBreak(first: string, b: string, n: string) returns (a: string)
    requires first != [] && first[|first| - 1] == '\n' && n == first + b
    ensures first == a + "\n" && n == a + "\n" + b
  {
    a := first[..|first| - 1];
  }

  lemma NothingBelow(m: Markers, line: string, a: string, b: string, n: string)
    requires Usable(m) && Endless(m, line) && b == Block(m, line) && n == a + "\n" + b && FirstBlock(m, n) == Some(Extent(0, |a|))
    ensures RemoveBlock(m, n) == ""
  {
    BlockIsComplete(m, line);
    BlockVanishes(m, b);
    Second(a, b, n);
    SecondBlockFollows(m, n, Extent(0, |a|), b);
  }

  lemma FirstOfTwo(m: Markers, ip: string, domain: string, first: string, a: string, b: string, n: string)
    requires Usable(m) && IsWord(ip) && IsWord(domain)
    requires first == Block(m, Entry(ip, domain)) && first == a + "\n" && n == a + "\n" + b
    ensures Owned(m, n, ip, domain) && FirstBlock(m, n) == Some(Extent(0, |first| - 1))
  {
    EntryIsEndless(m, ip, domain);
    OwnedOfTwo(m, ip, domain, first, a, b, n);
    ExpiryRemovesTheProvenBlock(m, n, ip, domain);
  }

  lemma Second(a: string, b: string, n: string)
    requires n == a + "\n" + b
    ensures n[|a|..] == "\n" + b
  {
  }

  lemma OwnedOfTwo(m: Markers, ip: string, domain: string, first: string, a: string, b: string, n: string)
    requires Usable(m) && IsWord(ip) && IsWord(domain) && Endless(m, Entry(ip, domain))
    requires first == Block(m, Entry(ip, domain)) && first == a + "\n" && n == a + "\n" + b
    ensures Owned(m, n, ip, domain) && Find(n, m.start) == Some(0) && Find(n, m.end) == Some(|a| - |m.end|)
  {
    var line := Entry(ip, domain);
    var text := m.start + "\n" + (line + "\n" + "");
    MarkersOfTwo(m, line, first, a, b, n);
    EntryLines(m, ip, domain, text);
    TextOfTwo(m, line, first, a, b, n, text);
    OwnedBetween(m, n, ip, domain, 0, |text|);
  }

  lemma TextOfTwo(m: Markers, line: string, first: string, a: string, b: string, n: string, text: string)
    requires first == Block(m, line) && first == a + "\n" && n == a + "\n" + b && text == m.start + "\n" + (line + "\n" + "")
    ensures |a| == |text| + |m.end| && n[0..|text|] == text
  {
    assert first == text + (m.end + "\n");
    assert first[..|text|] == text && n[..|first|] == first;
  }

  lemma MarkersOfTwo(m: Markers, line: string, first: string, a: string, b: string, n: string)
    requires Usable(m) && Endless(m, line) && first == Block(m, line) && first == a + "\n" && n == a + "\n" + b
    ensures Find(n, m.start) == Some(0) && Find(n, m.end) == Some(|m.start| + |line| + 2)
  {
    BlockIsComplete(m, line);
    assert first == a + "\n" + "";
    FindByLine(a, "", m.end, first);
    FindByLine(a, b, m.end, n);
    assert n == m.start + n[|m.start|..] by {
      assert n[..|m.start|] == first[..|m.start|] == m.start;
    }
    FindPrefix(m.start, n[|m.start|..]);
  }

  lemma SecondBlockFollows(m: Markers, n: string, x: Extent, b: string)
    requires m.start != [] && m.end != [] && FirstBlock(m, n) == Some(x) && x.from == 0
    requires n[x.to..] == "\n" + b && b != [] && !RegexSpace(b[0]) && RemoveBlock(m, b) == ""
    ensures RemoveBlock(m, n) == ""
  {
    var rest := n[x.to..];
    assert rest[1..] == b;
    assert SkipSpace(rest) == SkipSpace(b) == b;
    Unfolds(m, n, x);
  }

  // -------------------------------------------------------------------- expiry

  datatype Expiry = Kept | Removed(text: string) | Refused

  /** What an expiry at `now` does when every system call succeeds. */
  function Expire(m: Markers, hosts: Option<string>, metadata: Metadata, now: int): Expiry
    requires m.start != [] && m.end != []
  {
    match metadata
    case Absent => Kept
    case Undecodable => Refused
    case Stored(domain, ip, expires) =>
      if domain == "" || ip == "" || expires.None? then Refused
      else if now < expires.value then Kept
      else if hosts.None? || !Owned(m, hosts.value, ip, domain) then Refused
      else Removed(RemoveBlock(m, hosts.value))
  }

  /** An override that was set and then left alone is kept for thirty minutes. Then
      it is undone exactly when no stray marker stands above it, and refused exactly
      when a stray end marker above it hides the line. */
  lemma ExpiryUndoesSetting(m: Markers, s: string, ip: string, domain: string, set0: int, now: int)
    requires Usable(m) && IsWord(ip) && IsWord(domain)
    ensures var e := Expire(m, Some(SetText(m, s, ip, domain)), Stored(domain, ip, Some(set0 + TTL)), now);
            && (e.Kept? <==> now < set0 + TTL)
            && (now >= set0 + TTL ==> (e == Removed(Base(m, s) + "\n") <==> Find(Base(m, s), m.start).None? && Find(Base(m, s), m.end).None?))
            && (now >= set0 + TTL ==> (e.Refused? <==> Find(Base(m, s), m.end).Some? && !Owned(m, Base(m, s), ip, domain)))
  {
    OwnedAfterSetting(m, s, ip, domain);
    RemovingUndoesSetting(m, s, ip, domain);
  }

  /** Disabling an override does not delete its metadata: after thirty minutes the
      expiry that runs at startup refuses, unless what the removal left looks owned;
      that takes a stray start marker. */
  lemma DisabledOverrideIsRefusedLater(m: Markers, s: string, ip: string, domain: string, set0: int, now: int)
    requires Usable(m) && IsWord(ip) && IsWord(domain)
    ensures var left := RemoveBlock(m, SetText(m, s, ip, domain));
            var e := Expire(m, Some(left), Stored(domain, ip, Some(set0 + TTL)), now);
            && (e.Kept? <==> now < set0 + TTL)
            && (now >= set0 + TTL ==> (e.Refused? <==> !Owned(m, left, ip, domain)))
            && (Find(Base(m, s), m.start).None? ==> !Owned(m, left, ip, domain))
  {
    RemovingUndoesSetting(m, s, ip, domain);
    var x := Base(m, s);
    assert x + "\n" == x + "\n" + "";
    FindByLine(x, "", m.start, x + "\n");
  }

  /** The hosts file and the metadata file. Every system call may fail unless the
      machine is calm; a failed replacement leaves the old text or the new. */
  class HostsFiles {
    var hosts: Option<string>
    var metadata: Metadata
    const calm: bool

    method Fails() returns (failed: bool)
      ensures calm ==> !failed
    {
      failed := *;
      failed := failed && !calm;
    }

    method WriteHosts(text: string) returns (ok: bool)
      modifies this`hosts
      ensures calm ==> ok
      ensures ok ==> hosts == Some(text)
      ensures !ok ==> hosts == old(hosts) || hosts == Some(text)
    {
      var early := Fails();
      if early {
        return false;
      }
      hosts := Some(text);
      var late := Fails();
      return !late;
    }

    /** A reader that cannot read the file sees an error. */
    method SetHostsOverride(domain: string, ip: string, now: int) returns (ok: bool)
      modifies this
      ensures ok ==> old(hosts).Some? && hosts == Some(SetText(HOSTS_MARKERS, old(hosts).value, ip, domain))
      ensures ok ==> metadata == Stored(domain, ip, Some(now + TTL))
      ensures calm ==> (ok <==> old(hosts).Some?)
      ensures !ok ==> hosts == old(hosts) || (old(hosts).Some? && hosts == Some(SetText(HOSTS_MARKERS, old(hosts).value, ip, domain)))
      ensures !ok ==> metadata == old(metadata) || (metadata == Stored(domain, ip, Some(now + TTL)) && hosts != None)
    {
      HostsMarkersAreUsable();
      if hosts.None? {
        return false;
      }
      var backupFails := Fails();
      if backupFails {
        return false;
      }
      var raw := RemoveBlock(HOSTS_MARKERS, hosts.value);
      raw := TrimNewlines(raw) + "\n" + Block(HOSTS_MARKERS, Entry(ip, domain));
      var written := WriteHosts(raw);
      if !written {
        return false;
      }
      var metadataFails := Fails();
      if metadataFails {
        return false;
      }
      metadata := Stored(domain, ip, Some(now + TTL));
      var late := Fails();
      return !late;
    }

    method RemoveHostsOverride() returns (ok: bool)
      modifies this`hosts
      ensures ok ==> old(hosts).Some? && hosts == Some(RemoveBlock(HOSTS_MARKERS, old(hosts).value))
      ensures calm ==> (ok <==> old(hosts).Some?)
      ensures !ok ==> hosts == old(hosts) || (old(hosts).Some? && hosts == Some(RemoveBlock(HOSTS_MARKERS, old(hosts).value)))
    {
      if hosts.None? {
        return false;
      }
      ok := WriteHosts(RemoveBlock(HOSTS_MARKERS, hosts.value));
    }

    method ExpireHostsOverride(now: int) returns (removed: bool, failed: bool)
      modifies this
      ensures !(removed && failed)
      ensures var want := Expire(HOSTS_MARKERS, old(hosts), old(metadata), now);
              && (removed ==> want.Removed? && hosts == Some(want.text) && metadata.Absent?)
              && (!removed && !failed ==> want.Kept? && hosts == old(hosts) && metadata == old(metadata))
              && (failed && !want.Removed? ==> hosts == old(hosts) && metadata == old(metadata))
              && (failed && want.Removed? ==> (hosts == old(hosts) || hosts == Some(want.text)) && metadata == old(metadata))
              && (calm ==> (removed <==> want.Removed?) && (failed <==> want.Refused?))
    {
      HostsMarkersAreUsable();
      removed, failed := false, false;
      if metadata.Absent? {
        return;
      }
      if metadata.Undecodable? || metadata.domain == "" || metadata.ip == "" || metadata.expires.None? {
        failed := true;
        return;
      }
      if now < metadata.expires.value {
        return;
      }
      if hosts.None? {
        failed := true;
        return;
      }
      var owned := HasOwnedHostsLine(HOSTS_MARKERS, hosts.value, metadata.ip, metadata.domain);
      if !owned {
        failed := true;
        return;
      }
      var written := WriteHosts(RemoveBlock(HOSTS_MARKERS, hosts.value));
      if !written {
        failed := true;
        return;
      }
      var stuck := Fails();
      if stuck {
        failed := true;
        return;
      }
      metadata := Absent;
      removed := true;
    }
  }
}
