/** What sort.Slice and sort.Strings promise, and when that promise fixes the result. */
module Sorting {
  import opened Text

  /** What sort.Slice asks of its comparator: irreflexive, transitive, incomparability transitive. */
  ghost predicate WeakOrder<T(!new)>(less: (T, T) -> bool) {
    && (forall x :: !less(x, x))
    && (forall x, y, z :: less(x, y) && less(y, z) ==> less(x, z))
    && (forall x, y, z :: less(x, z) ==> less(x, y) || less(y, z))
  }

  predicate InOrder<T(!new)>(less: (T, T) -> bool, s: seq<T>) {
    forall i, j :: 0 <= i < j < |s| ==> !less(s[j], s[i])
  }

  predicate IsSorting<T(==,!new)>(less: (T, T) -> bool, s: seq<T>, r: seq<T>) {
    multiset(r) == multiset(s) && InOrder(less, r)
  }

  ghost function Insert<T(!new)>(less: (T, T) -> bool, x: T, s: seq<T>): seq<T> {
    if s == [] || !less(s[0], x) then [x] + s else [s[0]] + Insert(less, x, s[1..])
  }

  lemma {:induction false} InsertSorts<T(!new)>(less: (T, T) -> bool, x: T, s: seq<T>)
    requires WeakOrder(less) && InOrder(less, s)
    ensures IsSorting(less, [x] + s, Insert(less, x, s))
  {
    var r := Insert(less, x, s);
    if s == [] {
      assert r == [x];
    } else if !less(s[0], x) {
      forall i, j | 0 <= i < j < |r| ensures !less(r[j], r[i]) {
        if i == 0 && j > 1 {
          assert !less(r[j], r[1]);
        }
      }
    } else {
      InsertSorts(less, x, s[1..]);
      InsertDeeper(less, x, s, Insert(less, x, s[1..]));
    }
  }

  lemma InsertDeeper<T(!new)>(less: (T, T) -> bool, x: T, s: seq<T>, t: seq<T>)
    requires WeakOrder(less) && InOrder(less, s) && s != [] && less(s[0], x)
    requires IsSorting(less, [x] + s[1..], t)
    ensures IsSorting(less, [x] + s, [s[0]] + t)
  {
    assert [x] + s == [x] + [s[0]] + s[1..];
    forall y | y in t ensures !less(y, s[0]) {
      assert y in multiset([x] + s[1..]);
      if y != x {
        assert y in s[1..];
      }
    }
    hide WeakOrder;
  }

  lemma {:induction false} SortingExists<T(!new)>(less: (T, T) -> bool, s: seq<T>) returns (r: seq<T>)
    requires WeakOrder(less)
    ensures IsSorting(less, s, r)
  {
    if s == [] {
      r := [];
    } else {
      var t := SortingExists(less, s[1..]);
      InsertSorts(less, s[0], t);
      r := Insert(less, s[0], t);
      assert s == [s[0]] + s[1..];
    }
  }

  /** The library sort: some arrangement in order, not necessarily a stable one. */
  method SortSlice<T(==,!new)>(less: (T, T) -> bool, s: seq<T>) returns (r: seq<T>)
    requires WeakOrder(less)
    ensures IsSorting(less, s, r)
  {
    ghost var some := SortingExists(less, s);
    r :| IsSorting(less, s, r);
  }

  lemma HeadsAgree<T(!new)>(less: (T, T) -> bool, a: seq<T>, b: seq<T>)
    requires a != [] && b != []
    requires InOrder(less, a) && InOrder(less, b) && multiset(a) == multiset(b)
    requires forall x, y :: x in a && y in a && x != y ==> less(x, y) || less(y, x)
    ensures a[0] == b[0]
  {
    assert a[0] in multiset(b) && b[0] in multiset(a);
    var i :| 0 <= i < |b| && b[i] == a[0];
    var j :| 0 <= j < |a| && a[j] == b[0];
    assert i > 0 ==> !less(b[i], b[0]);
    assert j > 0 ==> !less(a[j], a[0]);
  }

  /** Two orderly arrangements of the same elements are equal when no two of them tie. */
  lemma {:induction false} CanonicalForm<T(!new)>(less: (T, T) -> bool, a: seq<T>, b: seq<T>)
    requires InOrder(less, a) && InOrder(less, b) && multiset(a) == multiset(b)
    requires forall x, y :: x in a && y in a && x != y ==> less(x, y) || less(y, x)
    ensures a == b
  {
    assert |a| == |multiset(a)| == |multiset(b)| == |b|;
    if a != [] {
      HeadsAgree(less, a, b);
      var x := a[0];
      assert a == [x] + a[1..] && b == [x] + b[1..];
      TailBag(a);
      TailBag(b);
      forall y | y in a[1..] ensures y in a {}
      CanonicalForm(less, a[1..], b[1..]);
    }
  }

  lemma TailBag<T>(s: seq<T>)
    requires s != []
    ensures multiset(s[1..]) == multiset(s) - multiset{s[0]}
  {
    assert s == [s[0]] + s[1..];
  }

  // ---------------------------------------------------------------- enumerations

  ghost predicate NoDuplicates<T>(s: seq<T>) {
    forall i, j :: 0 <= i < j < |s| ==> s[i] != s[j]
  }

  ghost function Elements<T>(s: seq<T>): set<T> { set x | x in s }

  /** s lists every element of S exactly once. */
  ghost predicate Enumerates<T>(s: seq<T>, S: set<T>) {
    NoDuplicates(s) && Elements(s) == S
  }

  lemma {:induction false} EnumerationSize<T>(s: seq<T>, S: set<T>)
    requires Enumerates(s, S)
    ensures |s| == |S|
  {
    if s == [] {
      assert S == {};
    } else {
      var last := s[|s| - 1];
      var rest := s[..|s| - 1];
      assert s == rest + [last];
      assert Elements(rest) == S - {last};
      EnumerationSize(rest, S - {last});
    }
  }

  lemma EnumerateOneMore<T>(s: seq<T>, S: set<T>, x: T)
    requires Enumerates(s, S) && x !in S
    ensures Enumerates(s + [x], S + {x})
  {
    var r := s + [x];
    forall i, j | 0 <= i < j < |r| ensures r[i] != r[j] {
      if j == |s| {
        assert r[i] in s;
      }
    }
    assert Elements(r) == S + {x};
  }

  lemma EnumerateUnion<T>(s: seq<T>, S: set<T>, t: seq<T>, U: set<T>)
    requires Enumerates(s, S) && Enumerates(t, U) && S !! U
    ensures Enumerates(s + t, S + U)
  {
    var r := s + t;
    forall i, j | 0 <= i < j < |r| ensures r[i] != r[j] {
      if i < |s| && j >= |s| {
        assert s[i] in S && t[j - |s|] in U;
      }
    }
    assert Elements(r) == S + U;
  }

  /** A rearrangement of an enumeration is an enumeration of the same set. */
  lemma RearrangedEnumeration<T>(s: seq<T>, r: seq<T>, S: set<T>)
    requires Enumerates(s, S) && multiset(r) == multiset(s)
    ensures Enumerates(r, S)
  {
    OccursOnce(s);
    forall x ensures x in r <==> x in s {
      assert x in multiset(r) <==> x in multiset(s);
    }
    forall i, j | 0 <= i < j < |r| ensures r[i] != r[j] {
      OccursTwice(r, i, j);
      assert r[i] in multiset(r);
    }
  }

  lemma OccursTwice<T>(r: seq<T>, i: nat, j: nat)
    requires i < j < |r|
    ensures r[i] == r[j] ==> multiset(r)[r[i]] >= 2
  {
    assert r == r[..j] + r[j..];
    assert r[i] in multiset(r[..j]) && r[j] in multiset(r[j..]);
  }

  lemma {:induction false} OccursOnce<T>(s: seq<T>)
    requires NoDuplicates(s)
    ensures forall x :: x in s ==> multiset(s)[x] == 1
  {
    if s != [] {
      var last := s[|s| - 1];
      var rest := s[..|s| - 1];
      assert s == rest + [last];
      OccursOnce(rest);
      assert last !in rest;
      forall x | x in s ensures multiset(s)[x] == 1 {
        assert multiset(s)[x] == multiset(rest)[x] + multiset([last])[x];
        assert x in rest || x == last;
      }
    }
  }

  ghost predicate Ascending(s: seq<string>) {
    forall i, j :: 0 <= i < j < |s| ==> Less(s[i], s[j])
  }

  /** The one ascending list of a set of strings. */
  ghost predicate SortedList(s: seq<string>, S: set<string>) {
    Ascending(s) && Elements(s) == S
  }

  lemma LessIsWeakOrder()
    ensures WeakOrder(Less)
  {
    forall x: string ensures !Less(x, x) { LessIrreflexive(x); }
    forall x: string, y: string, z: string | Less(x, y) && Less(y, z) ensures Less(x, z) {
      LessTransitive(x, y, z);
    }
    forall x: string, y: string, z: string | Less(x, z) ensures Less(x, y) || Less(y, z) {
      if x != y && !Less(x, y) {
        LessTotal(x, y);
        LessTransitive(y, x, z);
      }
    }
  }

  lemma AscendingHasNoDuplicates(s: seq<string>)
    requires Ascending(s)
    ensures NoDuplicates(s)
  {
    forall i, j | 0 <= i < j < |s| ensures s[i] != s[j] {
      LessIrreflexive(s[i]);
    }
  }

  /** A sorted list is determined by its elements. */
  lemma {:induction false} SortedListUnique(a: seq<string>, b: seq<string>, S: set<string>)
    requires SortedList(a, S) && SortedList(b, S)
    ensures a == b
  {
    if a == [] {
      assert forall i :: 0 <= i < |b| ==> b[i] in S;
    } else {
      assert a[0] in S && b != [];
      assert b[0] in S;
      var i :| 0 <= i < |b| && b[i] == a[0];
      var j :| 0 <= j < |a| && a[j] == b[0];
      assert a[0] == b[0] by {
        if i > 0 && j > 0 {
          assert Less(b[0], b[i]) && Less(a[0], a[j]);
          LessTransitive(a[0], b[0], a[0]);
          LessIrreflexive(a[0]);
        }
      }
      AscendingHasNoDuplicates(a);
      AscendingHasNoDuplicates(b);
      assert Elements(a[1..]) == S - {a[0]} by { assert a == [a[0]] + a[1..]; }
      assert Elements(b[1..]) == S - {b[0]} by { assert b == [b[0]] + b[1..]; }
      SortedListUnique(a[1..], b[1..], S - {a[0]});
      assert a == [a[0]] + a[1..] && b == [b[0]] + b[1..];
    }
  }

  /** sort.Strings on names without repeats, such as the keys collected from a Go map. */
  method SortStrings(s: seq<string>, ghost S: set<string>) returns (r: seq<string>)
    requires Enumerates(s, S)
    ensures SortedList(r, S)
  {
    LessIsWeakOrder();
    r := SortSlice(Less, s);
    RearrangedEnumeration(s, r, S);
    forall i, j | 0 <= i < j < |r| ensures Less(r[i], r[j]) {
      LessTotal(r[i], r[j]);
    }
  }

  lemma {:induction false} EnumerationExists<T>(S: set<T>) returns (s: seq<T>)
    ensures Enumerates(s, S)
  {
    if S == {} {
      s := [];
    } else {
      var x :| x in S;
      s := EnumerationExists(S - {x});
      EnumerateOneMore(s, S - {x}, x);
      s := s + [x];
      assert S - {x} + {x} == S;
    }
  }

  lemma SortedListExists(S: set<string>)
    ensures exists r :: SortedList(r, S)
  {
    var s := EnumerationExists(S);
    LessIsWeakOrder();
    var r := SortingExists(Less, s);
    RearrangedEnumeration(s, r, S);
    forall i, j | 0 <= i < j < |r| ensures Less(r[i], r[j]) {
      LessTotal(r[i], r[j]);
    }
    assert SortedList(r, S);
  }

  /** The names of a set in ascending order. */
  ghost function SortedOf(S: set<string>): (r: seq<string>)
    ensures SortedList(r, S)
  {
    SortedListExists(S);
    var r :| SortedList(r, S);
    r
  }
}
