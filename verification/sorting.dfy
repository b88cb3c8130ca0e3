/** Sorting by a strict order. When the elements are pairwise comparable the
    sorted arrangement of a finite set is unique, so it does not depend on the
    order in which the elements were gathered. */
module Sorting {

  ghost predicate StrictOrder<T(!new)>(less: (T, T) -> bool) {
    && (forall x :: !less(x, x))
    && (forall x, y, z :: less(x, y) && less(y, z) ==> less(x, z))
  }

  ghost predicate Comparable<T>(less: (T, T) -> bool, s: set<T>) {
    forall x, y :: x in s && y in s && x != y ==> less(x, y) || less(y, x)
  }

  ghost predicate StrictlySorted<T>(less: (T, T) -> bool, l: seq<T>) {
    forall i, j :: 0 <= i < j < |l| ==> less(l[i], l[j])
  }

  ghost function Elements<T>(l: seq<T>): set<T> {
    set x | x in l
  }

  function Insert<T>(less: (T, T) -> bool, x: T, l: seq<T>): seq<T> {
    if l == [] then [x]
    else if less(x, l[0]) then [x] + l
    else [l[0]] + Insert(less, x, l[1..])
  }

  /** A stand-in for the library sort: any sorted arrangement of `l`. */
  function Sort<T>(less: (T, T) -> bool, l: seq<T>): seq<T> {
    if l == [] then [] else Insert(less, l[0], Sort(less, l[1..]))
  }

  lemma {:induction false} InsertPermutes<T>(less: (T, T) -> bool, x: T, l: seq<T>)
    ensures multiset(Insert(less, x, l)) == multiset([x] + l)
  {
    if l != [] && !less(x, l[0]) {
      InsertPermutes(less, x, l[1..]);
      assert l == [l[0]] + l[1..];
    }
  }

  lemma {:induction false} SortPermutes<T>(less: (T, T) -> bool, l: seq<T>)
    ensures multiset(Sort(less, l)) == multiset(l)
  {
    if l != [] {
      SortPermutes(less, l[1..]);
      InsertPermutes(less, l[0], Sort(less, l[1..]));
      assert l == [l[0]] + l[1..];
    }
  }

  lemma SameMembers<T>(a: seq<T>, b: seq<T>)
    requires multiset(a) == multiset(b)
    ensures Elements(a) == Elements(b) && |a| == |b|
  {
    assert |multiset(a)| == |multiset(b)|;
    forall x ensures x in a <==> x in b {
      assert x in multiset(a) <==> x in multiset(b);
    }
  }

  lemma {:induction false} InsertSorted<T(!new)>(less: (T, T) -> bool, x: T, l: seq<T>)
    requires StrictOrder(less) && StrictlySorted(less, l)
    requires forall y :: y in l ==> less(x, y) || less(y, x)
    ensures StrictlySorted(less, Insert(less, x, l))
  {
    if l != [] && !less(x, l[0]) {
      InsertSorted(less, x, l[1..]);
      InsertPermutes(less, x, l[1..]);
      SameMembers(Insert(less, x, l[1..]), [x] + l[1..]);
      assert l[0] in l;
      forall y | y in Insert(less, x, l[1..]) ensures less(l[0], y) {
        assert y in Elements([x] + l[1..]);
        if y != x {
          var i :| 0 <= i < |l[1..]| && l[1..][i] == y;
          assert l[i + 1] == y;
        }
      }
    } else if l != [] {
      forall y | y in l ensures less(x, y) {
        var i :| 0 <= i < |l| && l[i] == y;
      }
    }
  }

  ghost predicate NoDuplicates<T>(l: seq<T>) {
    forall i, j :: 0 <= i < j < |l| ==> l[i] != l[j]
  }

  lemma OccursTwice<T>(l: seq<T>, i: nat, j: nat)
    requires i < j < |l| && l[i] == l[j]
    ensures multiset(l)[l[i]] >= 2
  {
    assert l == l[..j] + [l[j]] + l[j + 1..];
    assert l[i] in l[..j];
    assert multiset(l[..j])[l[i]] >= 1;
  }

  lemma {:induction false} OccursOnce<T>(l: seq<T>, x: T)
    requires NoDuplicates(l)
    ensures multiset(l)[x] <= 1
  {
    if l != [] {
      var n := |l| - 1;
      OccursOnce(l[..n], x);
      assert l == l[..n] + [l[n]];
      if l[n] == x {
        assert x !in l[..n];
        assert x !in multiset(l[..n]);
      }
    }
  }

  lemma {:induction false} SortSorted<T(!new)>(less: (T, T) -> bool, l: seq<T>)
    requires StrictOrder(less) && Comparable(less, Elements(l)) && NoDuplicates(l)
    ensures StrictlySorted(less, Sort(less, l))
    ensures Elements(Sort(less, l)) == Elements(l)
  {
    SortPermutes(less, l);
    SameMembers(Sort(less, l), l);
    if l != [] {
      SortSorted(less, l[1..]);
      forall y | y in Sort(less, l[1..]) ensures less(l[0], y) || less(y, l[0]) {
        assert y in Elements(l[1..]);
      }
      InsertSorted(less, l[0], Sort(less, l[1..]));
    }
  }

  lemma NoElements<T>(l: seq<T>)
    ensures l == [] <==> Elements(l) == {}
  {
    if l != [] {
      assert l[0] in Elements(l);
    }
  }

  /** Two strictly sorted lists with the same elements are the same list. */
  lemma {:induction false} SortedUnique<T(!new)>(less: (T, T) -> bool, a: seq<T>, b: seq<T>)
    requires StrictOrder(less)
    requires StrictlySorted(less, a) && StrictlySorted(less, b)
    requires Elements(a) == Elements(b)
    ensures a == b
  {
    NoElements(a);
    NoElements(b);
    if a != [] {
      assert a[0] in Elements(a);
      assert b[0] in Elements(b);
      var i :| 0 <= i < |b| && b[i] == a[0];
      var j :| 0 <= j < |a| && a[j] == b[0];
      assert i == 0 || j == 0;
      forall x ensures x in a[1..] <==> x in b[1..] {
        assert a == [a[0]] + a[1..] && b == [b[0]] + b[1..];
        assert x in Elements(a) <==> x in Elements(b);
        assert a[0] !in a[1..] && b[0] !in b[1..];
      }
      SortedUnique(less, a[1..], b[1..]);
      assert a == [a[0]] + a[1..] && b == [b[0]] + b[1..];
    }
  }

  ghost function Pick<T>(s: set<T>): T
    requires s != {}
  {
    var x :| x in s; x
  }

  /** The sorted arrangement of a finite set. */
  ghost function Arrange<T>(less: (T, T) -> bool, s: set<T>): seq<T> {
    if s == {} then [] else Insert(less, Pick(s), Arrange(less, s - {Pick(s)}))
  }

  lemma {:induction false} ArrangeSorted<T(!new)>(less: (T, T) -> bool, s: set<T>)
    requires StrictOrder(less) && Comparable(less, s)
    ensures StrictlySorted(less, Arrange(less, s)) && Elements(Arrange(less, s)) == s
  {
    if s != {} {
      var x := Pick(s);
      var rest := Arrange(less, s - {x});
      ArrangeSorted(less, s - {x});
      forall y | y in rest ensures less(x, y) || less(y, x) {
        assert y in Elements(rest);
      }
      InsertSorted(less, x, rest);
      InsertPermutes(less, x, rest);
      SameMembers(Insert(less, x, rest), [x] + rest);
      assert Elements([x] + rest) == {x} + Elements(rest);
    }
  }

  /** Sorting any duplicate-free listing of a set gives the set's arrangement. */
  lemma SortArranges<T(!new)>(less: (T, T) -> bool, l: seq<T>, s: set<T>)
    requires StrictOrder(less) && Comparable(less, s)
    requires NoDuplicates(l) && Elements(l) == s
    ensures Sort(less, l) == Arrange(less, s)
  {
    SortSorted(less, l);
    ArrangeSorted(less, s);
    SortedUnique(less, Sort(less, l), Arrange(less, s));
  }
}
