/** `[...xs].sort(cmp)`: a stable sort of a copy under a three-way comparator, as both list
    components use it. The sort is written as an insertion sort; for a comparator that is a
    consistent order, every stable sort produces this same output. */
module Sorting {
  import opened Seqs

  datatype Direction = Asc | Desc

  /** A list component's `(sortField, sortDirection)` state. */
  datatype SortState<F> = SortState(field: F, direction: Direction)

  /** `handleSort(field)`: the current field flips its direction; another field is selected
      ascending. */
  function NextSort<F(==)>(s: SortState<F>, clicked: F): (r: SortState<F>)
    ensures r.field == clicked
    ensures r.direction.Asc? <==> s.field != clicked || s.direction.Desc?
  {
    if clicked != s.field then SortState(clicked, Asc)
    else if s.direction == Asc then SortState(clicked, Desc)
    else SortState(clicked, Asc)
  }

  /** Clicking the current field twice gives the state back; clicking a new field twice sorts
      it descending. */
  lemma NextSortTwice<F>(s: SortState<F>, clicked: F)
    ensures s.field == clicked ==> NextSort(NextSort(s, clicked), clicked) == s
    ensures s.field != clicked ==> NextSort(NextSort(s, clicked), clicked) == SortState(clicked, Desc)
  {
  }

  /** Places `x` in front of the first element it does not compare greater than. */
  function Insert<T>(x: T, s: seq<T>, cmp: (T, T) -> int): (r: seq<T>)
    ensures |r| == |s| + 1
    ensures multiset(r) == multiset(s) + multiset{x}
    ensures r[0] == x || (s != [] && r[0] == s[0])
  {
    if s == [] then [x]
    else if cmp(x, s[0]) <= 0 then [x] + s
    else
      assert s == [s[0]] + s[1..];
      [s[0]] + Insert(x, s[1..], cmp)
  }

  /** The sorted copy: the input array itself is never changed, and the output is a permutation of it. */
  function SortBy<T>(s: seq<T>, cmp: (T, T) -> int): (r: seq<T>)
    ensures |r| == |s|
    ensures multiset(r) == multiset(s)
  {
    if s == [] then []
    else
      assert s == [s[0]] + s[1..];
      Insert(s[0], SortBy(s[1..], cmp), cmp)
  }

  /** Every element compares no greater than its successor. */
  predicate AdjacentSorted<T>(s: seq<T>, cmp: (T, T) -> int)
  {
    forall i :: 0 <= i < |s| - 1 ==> cmp(s[i], s[i + 1]) <= 0
  }

  /** Every element compares no greater than every later element. */
  predicate Sorted<T>(s: seq<T>, cmp: (T, T) -> int)
  {
    forall i, j :: 0 <= i < j < |s| ==> cmp(s[i], s[j]) <= 0
  }

  lemma {:induction false} InsertAdjacentSorted<T>(x: T, s: seq<T>, cmp: (T, T) -> int)
    requires forall a, b :: cmp(a, b) > 0 ==> cmp(b, a) < 0
    requires AdjacentSorted(s, cmp)
    ensures AdjacentSorted(Insert(x, s, cmp), cmp)
  {
    if s != [] && cmp(x, s[0]) > 0 {
      assert AdjacentSorted(s[1..], cmp) by {
        forall i | 0 <= i < |s[1..]| - 1 ensures cmp(s[1..][i], s[1..][i + 1]) <= 0 {
          assert s[1..][i] == s[i + 1] && s[1..][i + 1] == s[i + 2];
        }
      }
      InsertAdjacentSorted(x, s[1..], cmp);
      var r := Insert(x, s[1..], cmp);
      assert cmp(s[0], r[0]) <= 0;
      assert Insert(x, s, cmp) == [s[0]] + r;
    }
  }

  /** With a comparator whose sign flips when its arguments are swapped, every neighbour
      pair of the sorted copy is in order. */
  lemma {:induction false} SortByAdjacentSorted<T>(s: seq<T>, cmp: (T, T) -> int)
    requires forall a, b :: cmp(a, b) > 0 ==> cmp(b, a) < 0
    ensures AdjacentSorted(SortBy(s, cmp), cmp)
  {
    if s != [] {
      SortByAdjacentSorted(s[1..], cmp);
      InsertAdjacentSorted(s[0], SortBy(s[1..], cmp), cmp);
    }
  }

  /** When the comparator is also transitive on the elements, neighbour order is full order. */
  lemma AdjacentSortedIsSorted<T>(s: seq<T>, cmp: (T, T) -> int)
    requires AdjacentSorted(s, cmp)
    requires forall a, b, c :: a in s && b in s && c in s && cmp(a, b) <= 0 && cmp(b, c) <= 0 ==> cmp(a, c) <= 0
    ensures Sorted(s, cmp)
  {
    forall i, j | 0 <= i < j < |s| ensures cmp(s[i], s[j]) <= 0 {
      var k := i + 1;
      while k < j
        invariant i < k <= j
        invariant cmp(s[i], s[k]) <= 0
      {
        assert cmp(s[k], s[k + 1]) <= 0;
        k := k + 1;
      }
    }
  }

  lemma {:induction false} InsertFilter<T>(x: T, s: seq<T>, cmp: (T, T) -> int, q: T -> bool)
    requires forall b :: q(x) && q(b) ==> cmp(x, b) == 0
    ensures Filter(Insert(x, s, cmp), q) == Filter([x] + s, q)
  {
    if s != [] && cmp(x, s[0]) > 0 {
      InsertFilter(x, s[1..], cmp, q);
      assert Insert(x, s, cmp) == [s[0]] + Insert(x, s[1..], cmp);
      assert ([s[0]] + Insert(x, s[1..], cmp))[1..] == Insert(x, s[1..], cmp);
      assert ([x] + s)[1..] == s;
      assert ([x] + s[1..])[1..] == s[1..];
      assert s == [s[0]] + s[1..];
    }
  }

  /** Stability: the elements of any class whose members all compare equal leave the sort
      in the order they came in. */
  lemma {:induction false} SortByStable<T>(s: seq<T>, cmp: (T, T) -> int, q: T -> bool)
    requires forall a, b :: q(a) && q(b) ==> cmp(a, b) == 0
    ensures Filter(SortBy(s, cmp), q) == Filter(s, q)
  {
    if s != [] {
      SortByStable(s[1..], cmp, q);
      InsertFilter(s[0], SortBy(s[1..], cmp), cmp, q);
      assert ([s[0]] + SortBy(s[1..], cmp))[1..] == SortBy(s[1..], cmp);
    }
  }

  /** When every pair of elements compares equal the sorted copy is the input unchanged. */
  lemma {:induction false} SortByAllEqual<T>(s: seq<T>, cmp: (T, T) -> int)
    requires forall i, j :: 0 <= i < |s| && 0 <= j < |s| ==> cmp(s[i], s[j]) == 0
    ensures SortBy(s, cmp) == s
  {
    if s != [] {
      assert forall i, j :: 0 <= i < |s[1..]| && 0 <= j < |s[1..]| ==> s[1..][i] == s[i + 1] && s[1..][j] == s[j + 1];
      SortByAllEqual(s[1..], cmp);
      if |s| > 1 {
        assert cmp(s[0], s[1]) == 0;
      }
    }
  }
}
