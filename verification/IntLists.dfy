// Sorted lists of integers: sort.Ints, and the one strictly increasing list
// that a finite set has.
module IntLists {

  function Elems<T>(l: seq<T>): set<T> {
    set x | x in l
  }

  predicate IsSorted(l: seq<int>) {
    forall i, j :: 0 <= i < j < |l| ==> l[i] <= l[j]
  }

  predicate NoDuplicates<T(==)>(l: seq<T>) {
    forall i, j :: 0 <= i < j < |l| ==> l[i] != l[j]
  }

  // Strictly increasing: sorted and free of duplicates.
  predicate Canonical(l: seq<int>) {
    forall i, j :: 0 <= i < j < |l| ==> l[i] < l[j]
  }

  predicate Disjoint(a: seq<int>, b: seq<int>) {
    forall c <- Elems(a) :: c !in Elems(b)
  }

  // Some member of a set that has one.
  ghost function AnyOf<T(!new)>(s: set<T>): (x: T)
    requires s != {}
    ensures x in s
  {
    Inhabited(s);
    var x :| x in s;
    x
  }

  lemma Inhabited<T(!new)>(s: set<T>)
    requires s != {}
    ensures exists x :: x in s
  {
    if forall x :: x !in s {
      EmptyIfNone(s);
    }
  }

  lemma EmptyIfNone<T(!new)>(s: set<T>)
    requires forall x :: x !in s
    ensures s == {}
  {
    var empty: set<T> := {};
    assert forall x :: x in s <==> x in empty;
  }

  // ---------- sort.Ints ----------

  function Insert(x: int, l: seq<int>): (r: seq<int>)
    requires IsSorted(l)
    ensures IsSorted(r) && |r| == |l| + 1
    ensures multiset(r) == multiset(l) + multiset{x}
    ensures r[0] == if l == [] || x <= l[0] then x else l[0]
  {
    if l == [] || x <= l[0] then
      [x] + l
    else
      assert l == [l[0]] + l[1..];
      [l[0]] + Insert(x, l[1..])
  }

  function SortInts(l: seq<int>): (r: seq<int>)
    ensures IsSorted(r)
    ensures multiset(r) == multiset(l)
  {
    if l == [] then
      []
    else
      assert l == [l[0]] + l[1..];
      Insert(l[0], SortInts(l[1..]))
  }

  lemma SortIntsElems(l: seq<int>)
    ensures Elems(SortInts(l)) == Elems(l)
    ensures |SortInts(l)| == |l|
  {
    var r := SortInts(l);
    assert forall x :: x in l <==> x in multiset(l);
    assert forall x :: x in r <==> x in multiset(r);
    assert |multiset(r)| == |r| && |multiset(l)| == |l|;
  }

  lemma {:induction false} SortIntsSorted(l: seq<int>)
    requires IsSorted(l)
    ensures SortInts(l) == l
  {
    if l != [] {
      SortIntsSorted(l[1..]);
    }
  }

  // ---------- Duplicates ----------

  lemma ElemsConcat<T>(a: seq<T>, b: seq<T>)
    ensures Elems(a + b) == Elems(a) + Elems(b)
  {
  }

  lemma {:induction false} ElemsSize<T>(l: seq<T>)
    ensures |Elems(l)| <= |l|
    ensures NoDuplicates(l) ==> |Elems(l)| == |l|
  {
    if l != [] {
      ElemsSize(l[1..]);
      assert Elems(l) == {l[0]} + Elems(l[1..]);
    }
  }

  lemma SortedDistinct(l: seq<int>)
    requires IsSorted(l) && |Elems(l)| == |l|
    ensures Canonical(l)
  {
    forall i, j | 0 <= i < j < |l|
      ensures l[i] != l[j]
    {
      var without := l[..i] + l[i + 1..];
      ElemsSize(without);
      assert l[j] == without[j - 1];
      assert l[i] == l[j] ==> Elems(without) == Elems(l);
    }
  }

  // ---------- Canonical lists ----------

  // Strictly increasing lists with the same members are equal.
  lemma {:induction false} CanonicalUnique(a: seq<int>, b: seq<int>)
    requires Canonical(a) && Canonical(b)
    requires Elems(a) == Elems(b)
    ensures a == b
  {
    CanonicalSize(a);
    CanonicalSize(b);
    if a != [] {
      assert a[0] in Elems(b);
      assert b[0] in Elems(a);
      ElemsTail(a);
      ElemsTail(b);
      CanonicalUnique(a[1..], b[1..]);
    }
  }

  lemma ElemsTail(a: seq<int>)
    requires Canonical(a) && a != []
    ensures Elems(a[1..]) == Elems(a) - {a[0]}
  {
    assert a == [a[0]] + a[1..];
  }

  lemma CanonicalSize(a: seq<int>)
    requires Canonical(a)
    ensures |Elems(a)| == |a|
  {
    ElemsSize(a);
  }

  ghost function Maximum(s: set<int>): (m: int)
    requires s != {}
    ensures m in s && forall x <- s :: x <= m
  {
    var x := AnyOf(s);
    if s == {x} then
      x
    else
      var m := Maximum(s - {x});
      assert forall y <- s :: y == x || y in s - {x};
      if x <= m then m else x
  }

  // The strictly increasing list of a set.
  ghost function SortedList(s: set<int>): (l: seq<int>)
    ensures Canonical(l) && Elems(l) == s && |l| == |s|
  {
    SortedListExists(s);
    var l :| Canonical(l) && Elems(l) == s;
    CanonicalSize(l);
    l
  }

  lemma {:induction false} SortedListExists(s: set<int>)
    ensures exists l :: Canonical(l) && Elems(l) == s
  {
    if s == {} {
      assert Canonical([]) && Elems<int>([]) == s;
    } else {
      var x := Maximum(s);
      SortedListExists(s - {x});
      var l :| Canonical(l) && Elems(l) == s - {x};
      AppendGreatest(l, x);
      assert Elems(l + [x]) == s;
    }
  }

  lemma AppendGreatest(l: seq<int>, x: int)
    requires Canonical(l) && forall y <- Elems(l) :: y < x
    ensures Canonical(l + [x]) && Elems(l + [x]) == Elems(l) + {x}
  {
    assert forall i | 0 <= i < |l| :: l[i] in Elems(l);
    ElemsConcat(l, [x]);
  }

  lemma SortedListOfElems(l: seq<int>)
    requires Canonical(l)
    ensures SortedList(Elems(l)) == l
  {
    CanonicalUnique(SortedList(Elems(l)), l);
  }

  // Sorting any duplicate-free enumeration of a set gives its sorted list.
  lemma SortEnumeration(l: seq<int>)
    requires NoDuplicates(l)
    ensures SortInts(l) == SortedList(Elems(l))
  {
    SortIntsElems(l);
    ElemsSize(l);
    SortedDistinct(SortInts(l));
    SortedListOfElems(SortInts(l));
  }

  lemma MembersSubset(a: set<int>, b: set<int>)
    requires forall x <- a :: x in b
    ensures |a| <= |b|
  {
    var u := a + (b - a);
    assert forall x :: x in u <==> x in b;
    assert u == b;
    assert |a + (b - a)| == |a| + |b - a|;
  }
}
