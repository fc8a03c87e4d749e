/**
 Byte order on strings and sorting by a total preorder. Go strings and byte slices are both modelled
 as strings, one character per byte, compared lexicographically.
 */
module Ordering {

  predicate Before(a: string, b: string) {
    if b == "" then false
    else if a == "" then true
    else if a[0] != b[0] then a[0] < b[0]
    else Before(a[1..], b[1..])
  }

  lemma {:induction false} BeforeIrreflexive(a: string)
    ensures !Before(a, a)
    decreases |a|
  {
    if a != "" {
      BeforeIrreflexive(a[1..]);
    }
  }

  lemma {:induction false} BeforeTransitive(a: string, b: string, c: string)
    requires Before(a, b) && Before(b, c)
    ensures Before(a, c)
    decreases |a|
  {
    if a != "" && a[0] == b[0] == c[0] {
      BeforeTransitive(a[1..], b[1..], c[1..]);
    }
  }

  lemma {:induction false} BeforeTotal(a: string, b: string)
    ensures a == b || Before(a, b) || Before(b, a)
    decreases |a|
  {
    if a != "" && b != "" && a[0] == b[0] {
      BeforeTotal(a[1..], b[1..]);
      if a[1..] == b[1..] {
        assert a == [a[0]] + a[1..] && b == [b[0]] + b[1..];
      }
    }
  }

  lemma BeforeAsymmetric(a: string, b: string)
    requires Before(a, b)
    ensures !Before(b, a)
  {
    if Before(b, a) {
      BeforeTransitive(a, b, a);
      BeforeIrreflexive(a);
    }
  }

  // ---------------------------------------------------------------- sorting

  ghost predicate TotalPreorder<T(!new)>(leq: (T, T) -> bool) {
    && (forall x, y :: leq(x, y) || leq(y, x))
    && (forall x, y, z :: leq(x, y) && leq(y, z) ==> leq(x, z))
  }

  ghost predicate Sorted<T(!new)>(s: seq<T>, leq: (T, T) -> bool) {
    forall i, j :: 0 <= i < j < |s| ==> leq(s[i], s[j])
  }

  function Insert<T>(x: T, s: seq<T>, leq: (T, T) -> bool): seq<T> {
    if s == [] || leq(x, s[0]) then [x] + s else [s[0]] + Insert(x, s[1..], leq)
  }

  /** What the library sort leaves behind. Where elements can tie, any other order of them is as good. */
  function Sort<T>(s: seq<T>, leq: (T, T) -> bool): seq<T> {
    if s == [] then [] else Insert(s[0], Sort(s[1..], leq), leq)
  }

  lemma {:induction false} InsertElements<T>(x: T, s: seq<T>, leq: (T, T) -> bool)
    ensures multiset(Insert(x, s, leq)) == multiset{x} + multiset(s)
    decreases |s|
  {
    if s != [] && !leq(x, s[0]) {
      InsertElements(x, s[1..], leq);
      assert s == [s[0]] + s[1..];
    }
  }

  lemma ConsSorted<T(!new)>(x: T, s: seq<T>, leq: (T, T) -> bool)
    requires Sorted(s, leq) && forall i :: 0 <= i < |s| ==> leq(x, s[i])
    ensures Sorted([x] + s, leq)
  {
  }

  /** What is inserted is either x or was there. */
  lemma InsertedFrom<T>(x: T, s: seq<T>, leq: (T, T) -> bool, i: nat)
    requires i < |Insert(x, s, leq)|
    ensures Insert(x, s, leq)[i] == x || Insert(x, s, leq)[i] in s
  {
    InsertElements(x, s, leq);
    assert Insert(x, s, leq)[i] in multiset(Insert(x, s, leq));
  }

  lemma {:induction false} InsertSorts<T(!new)>(x: T, s: seq<T>, leq: (T, T) -> bool)
    requires TotalPreorder(leq) && Sorted(s, leq)
    ensures Sorted(Insert(x, s, leq), leq)
    decreases |s|
  {
    if s == [] || leq(x, s[0]) {
      forall i | 0 <= i < |s| ensures leq(x, s[i]) {
        assert i > 0 ==> leq(s[0], s[i]);
      }
      ConsSorted(x, s, leq);
    } else {
      var rest := Insert(x, s[1..], leq);
      InsertSorts(x, s[1..], leq);
      forall i | 0 <= i < |rest| ensures leq(s[0], rest[i]) {
        InsertedFrom(x, s[1..], leq, i);
      }
      ConsSorted(s[0], rest, leq);
    }
  }

  /** Sorting sorts, and keeps every element as often as it was there. */
  lemma {:induction false} SortSorts<T(!new)>(s: seq<T>, leq: (T, T) -> bool)
    requires TotalPreorder(leq)
    ensures Sorted(Sort(s, leq), leq)
    ensures multiset(Sort(s, leq)) == multiset(s)
    ensures |Sort(s, leq)| == |s|
    decreases |s|
  {
    if s != [] {
      SortSorts(s[1..], leq);
      InsertSorts(s[0], Sort(s[1..], leq), leq);
      InsertElements(s[0], Sort(s[1..], leq), leq);
      assert s == [s[0]] + s[1..];
    }
    assert |Sort(s, leq)| == |multiset(Sort(s, leq))|;
  }

  lemma SameElements<T>(a: seq<T>, b: seq<T>)
    requires multiset(a) == multiset(b)
    ensures |a| == |b|
    ensures forall x :: x in a <==> x in b
  {
    assert |a| == |multiset(a)|;
    forall x ensures x in a <==> x in b {
      assert x in a <==> x in multiset(a);
    }
  }

  lemma SameHead<T(!new)>(a: seq<T>, b: seq<T>, leq: (T, T) -> bool)
    requires Sorted(a, leq) && Sorted(b, leq) && a != [] && b != []
    requires a[0] in b && b[0] in a && (leq(a[0], b[0]) && leq(b[0], a[0]) ==> a[0] == b[0])
    ensures a[0] == b[0]
  {
    var i :| 0 <= i < |a| && a[i] == b[0];
    var j :| 0 <= j < |b| && b[j] == a[0];
  }

  lemma TailElements<T>(s: seq<T>)
    requires s != []
    ensures multiset(s[1..]) == multiset(s) - multiset{s[0]}
    ensures forall x :: x in s[1..] ==> x in s
  {
    assert s == [s[0]] + s[1..];
  }

  ghost predicate NoTies<T(!new)>(s: seq<T>, leq: (T, T) -> bool) {
    forall x, y :: x in s && y in s && leq(x, y) && leq(y, x) ==> x == y
  }

  lemma TailsAgree<T(!new)>(a: seq<T>, b: seq<T>, leq: (T, T) -> bool)
    requires Sorted(a, leq) && Sorted(b, leq) && multiset(a) == multiset(b) && NoTies(a, leq)
    requires a != [] && b != [] && a[0] == b[0]
    ensures Sorted(a[1..], leq) && Sorted(b[1..], leq) && multiset(a[1..]) == multiset(b[1..]) && NoTies(a[1..], leq)
  {
    TailElements(a);
    TailElements(b);
  }

  lemma SameHeads<T(!new)>(a: seq<T>, b: seq<T>, leq: (T, T) -> bool)
    requires Sorted(a, leq) && Sorted(b, leq) && multiset(a) == multiset(b) && NoTies(a, leq) && a != []
    ensures b != [] && a[0] == b[0]
  {
    SameElements(a, b);
    assert a[0] in b && b[0] in a;
    SameHead(a, b, leq);
  }

  /** Without ties there is only one sorted arrangement. */
  lemma {:induction false} SortedUnique<T(!new)>(a: seq<T>, b: seq<T>, leq: (T, T) -> bool)
    requires Sorted(a, leq) && Sorted(b, leq) && multiset(a) == multiset(b) && NoTies(a, leq)
    ensures a == b
    decreases |a|
  {
    if a == [] {
      SameElements(a, b);
    } else {
      SameHeads(a, b, leq);
      TailsAgree(a, b, leq);
      SortedUnique(a[1..], b[1..], leq);
      assert a == [a[0]] + a[1..] && b == [b[0]] + b[1..];
    }
  }

  predicate Distinct<T(==)>(s: seq<T>) { forall i, j :: 0 <= i < j < |s| ==> s[i] != s[j] }

  lemma {:induction false} DistinctCounts<T(!new)>(s: seq<T>)
    ensures Distinct(s) <==> forall x :: x in multiset(s) ==> multiset(s)[x] == 1
    decreases |s|
  {
    if s != [] {
      var t, x := s[..|s| - 1], s[|s| - 1];
      assert s == t + [x];
      DistinctCounts(t);
      assert multiset(s) == multiset(t) + multiset{x};
      if Distinct(s) {
        assert x !in t;
        assert forall i, j :: 0 <= i < j < |t| ==> t[i] == s[i] && t[j] == s[j];
      } else if Distinct(t) {
        var i, j :| 0 <= i < j < |s| && s[i] == s[j];
        assert j == |s| - 1 && s[i] == t[i];
        assert x in t;
        assert multiset(s)[x] >= 2;
      } else {
        var y :| y in multiset(t) && multiset(t)[y] != 1;
        assert multiset(s)[y] >= multiset(t)[y] > 1;
      }
    }
  }

  lemma DistinctPermutation<T(!new)>(a: seq<T>, b: seq<T>)
    requires multiset(a) == multiset(b) && Distinct(a)
    ensures Distinct(b)
  {
    DistinctCounts(a);
    DistinctCounts(b);
  }

  // ---------------------------------------------------------------- mapping

  function Mapped<T, U>(f: T -> U, s: seq<T>): (r: seq<U>)
    ensures |r| == |s|
  {
    seq(|s|, i requires 0 <= i < |s| => f(s[i]))
  }

  function Drop<T>(s: seq<T>, k: nat): seq<T>
    requires k < |s|
  {
    s[..k] + s[k + 1..]
  }

  lemma DropOne<T>(s: seq<T>, k: nat)
    requires k < |s|
    ensures multiset(s) == multiset(Drop(s, k)) + multiset{s[k]}
  {
    assert s == s[..k] + [s[k]] + s[k + 1..];
  }

  lemma MappedDrop<T, U>(f: T -> U, s: seq<T>, k: nat)
    requires k < |s|
    ensures Drop(Mapped(f, s), k) == Mapped(f, Drop(s, k))
  {
  }

  /** Mapping rearranged elements rearranges the results. */
  lemma {:induction false} MappedIgnoresOrder<T, U>(f: T -> U, a: seq<T>, b: seq<T>)
    requires multiset(a) == multiset(b)
    ensures multiset(Mapped(f, a)) == multiset(Mapped(f, b))
    decreases |a|
  {
    SameElements(a, b);
    if a != [] {
      assert a[0] in b;
      var k :| 0 <= k < |b| && b[k] == a[0];
      DropOne(a, 0);
      DropOne(b, k);
      assert multiset(Drop(a, 0)) == multiset(a) - multiset{a[0]};
      assert multiset(Drop(b, k)) == multiset(b) - multiset{b[k]};
      MappedIgnoresOrder(f, Drop(a, 0), Drop(b, k));
      MappedDrop(f, a, 0);
      MappedDrop(f, b, k);
      DropOne(Mapped(f, a), 0);
      DropOne(Mapped(f, b), k);
    }
  }
}
