/** Strict total orders and the sorted, duplicate-free lists that the ownership
    merges and the attestation reports are built from. */
module Ordering {
  ghost predicate TotalOrder<T(!new)>(less: (T, T) -> bool) {
    && (forall x :: !less(x, x))
    && (forall x, y :: x != y ==> less(x, y) || less(y, x))
    && (forall x, y, z :: less(x, y) && less(y, z) ==> less(x, z))
  }

  /** Sorted and free of duplicates. */
  ghost predicate Ascending<T>(less: (T, T) -> bool, s: seq<T>) {
    forall i, j :: 0 <= i < j < |s| ==> less(s[i], s[j])
  }

  function Elements<T>(s: seq<T>): set<T> {
    set x | x in s
  }

  predicate IntLess(a: int, b: int) {
    a < b
  }

  /** The order of `sort.Strings`. */
  predicate StringLess(a: string, b: string) {
    if b == [] then false
    else if a == [] then true
    else if a[0] != b[0] then a[0] < b[0]
    else StringLess(a[1..], b[1..])
  }

  lemma IntLessIsTotal()
    ensures TotalOrder(IntLess)
  {
  }

  lemma StringLessIsTotal()
    ensures TotalOrder(StringLess)
  {
    forall x, y: string ensures x != y ==> StringLess(x, y) || StringLess(y, x) {
      StringLessConnected(x, y);
    }
    forall x: string ensures !StringLess(x, x) {
      StringLessIrreflexive(x);
    }
    forall x, y, z: string ensures StringLess(x, y) && StringLess(y, z) ==> StringLess(x, z) {
      StringLessTransitive(x, y, z);
    }
  }

  lemma {:induction false} StringLessIrreflexive(x: string)
    ensures !StringLess(x, x)
  {
    if x != [] {
      StringLessIrreflexive(x[1..]);
    }
  }

  lemma {:induction false} StringLessConnected(x: string, y: string)
    ensures x != y ==> StringLess(x, y) || StringLess(y, x)
  {
    if x != [] && y != [] && x[0] == y[0] {
      assert x == [x[0]] + x[1..] && y == [y[0]] + y[1..];
      StringLessConnected(x[1..], y[1..]);
    }
  }

  lemma {:induction false} StringLessTransitive(x: string, y: string, z: string)
    ensures StringLess(x, y) && StringLess(y, z) ==> StringLess(x, z)
  {
    if x != [] && y != [] && z != [] && x[0] == y[0] == z[0] {
      StringLessTransitive(x[1..], y[1..], z[1..]);
    }
  }

  /** An ascending list is determined by its elements, so comparing two such
      lists position by position decides equality of the sets they stand for. */
  lemma {:induction false} AscendingIsCanonical<T(!new)>(less: (T, T) -> bool, a: seq<T>, b: seq<T>)
    requires TotalOrder(less) && Ascending(less, a) && Ascending(less, b)
    requires forall x :: x in a <==> x in b
    ensures a == b
  {
    NonEmptyHasMember(a);
    NonEmptyHasMember(b);
    if a != [] {
      assert a[0] in b && b[0] in a;
      assert a[0] == b[0];
      forall x ensures x in a[1..] <==> x in b[1..] {
        assert x in a[1..] <==> x in a && x != a[0] by { SplitHead(less, a, x); }
        assert x in b[1..] <==> x in b && x != b[0] by { SplitHead(less, b, x); }
      }
      AscendingIsCanonical(less, a[1..], b[1..]);
      assert a == [a[0]] + a[1..] && b == [b[0]] + b[1..];
    }
  }

  lemma NonEmptyHasMember<T>(s: seq<T>)
    ensures s != [] ==> exists x :: x in s
  {
    if s != [] {
      assert s[0] in s;
    }
  }

  lemma SplitHead<T(!new)>(less: (T, T) -> bool, a: seq<T>, x: T)
    requires TotalOrder(less) && Ascending(less, a) && a != []
    ensures x in a[1..] <==> x in a && x != a[0]
  {
    if x in a[1..] {
      var i :| 0 <= i < |a[1..]| && a[1..][i] == x;
      assert less(a[0], a[i + 1]);
    }
  }

  /** Puts x into its place in an ascending list. */
  function Insert<T>(less: (T, T) -> bool, s: seq<T>, x: T): seq<T> {
    if s == [] || less(x, s[0]) then [x] + s else [s[0]] + Insert(less, s[1..], x)
  }

  lemma {:induction false} InsertAscending<T(!new)>(less: (T, T) -> bool, s: seq<T>, x: T)
    requires TotalOrder(less) && Ascending(less, s) && x !in s
    ensures Ascending(less, Insert(less, s, x))
    ensures forall y :: y in Insert(less, s, x) <==> y in s || y == x
    ensures |Insert(less, s, x)| == |s| + 1
  {
    if s == [] || less(x, s[0]) {
      forall y ensures y in [x] + s <==> y in s || y == x {}
    } else {
      InsertAscending(less, s[1..], x);
      var rest := Insert(less, s[1..], x);
      forall y ensures y in [s[0]] + rest <==> y in s || y == x {
        assert y in [s[0]] + rest <==> y == s[0] || y in rest;
        SplitHead(less, s, y);
      }
      forall i | 0 <= i < |rest| ensures less(s[0], rest[i]) {
        assert rest[i] in rest;
        SplitHead(less, s, rest[i]);
        if rest[i] != x {
          var k :| 0 <= k < |s[1..]| && s[1..][k] == rest[i];
          assert less(s[0], s[k + 1]);
        }
      }
    }
  }

  lemma {:induction false} SortedListExists<T(!new)>(less: (T, T) -> bool, keys: set<T>) returns (out: seq<T>)
    requires TotalOrder(less)
    ensures Ascending(less, out) && forall x :: x in out <==> x in keys
    decreases keys
  {
    if keys == {} {
      out := [];
    } else {
      var x :| x in keys;
      out := SortedListExists(less, keys - {x});
      InsertAscending(less, out, x);
      out := Insert(less, out, x);
    }
  }

  /** The keys of a set collected in arbitrary order and then sorted. */
  method SortedKeys<T(!new, ==)>(less: (T, T) -> bool, keys: set<T>) returns (out: seq<T>)
    requires TotalOrder(less)
    ensures Ascending(less, out)
    ensures forall x :: x in out <==> x in keys
    ensures |out| == |keys|
  {
    out := [];
    var todo := keys;
    while todo != {}
      invariant todo <= keys
      invariant Ascending(less, out)
      invariant forall x :: x in out <==> x in keys - todo
      invariant |out| == |keys - todo|
      decreases todo
    {
      var x :| x in todo;
      InsertAscending(less, out, x);
      out := Insert(less, out, x);
      assert keys - (todo - {x}) == (keys - todo) + {x};
      todo := todo - {x};
    }
    assert keys - todo == keys;
  }
}
