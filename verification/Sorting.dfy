/** Comparators in the style of `std::cmp`, stable sorting, and why a sorted list of
    distinguishable elements does not depend on the order it started from. */
module Sorting {

  datatype Ordering = Less | Equal | Greater {
    function Reverse(): Ordering {
      match this case Less => Greater case Equal => Equal case Greater => Less
    }
    function Then(next: Ordering): Ordering { if this == Equal then next else this }
  }

  function Compare(a: int, b: int): Ordering {
    if a < b then Less else if a == b then Equal else Greater
  }

  /** Antisymmetric up to `Equal`, total by construction, and transitive. */
  ghost predicate IsTotalOrder<T(!new)>(cmp: (T, T) -> Ordering) {
    && (forall a, b :: cmp(a, b) == cmp(b, a).Reverse())
    && (forall a, b, c :: cmp(a, b) != Greater && cmp(b, c) != Greater ==> cmp(a, c) != Greater)
  }

  ghost predicate Sorted<T>(cmp: (T, T) -> Ordering, xs: seq<T>) {
    forall i, j :: 0 <= i < j < |xs| ==> cmp(xs[i], xs[j]) != Greater
  }

  /** Stable insertion: after every element that compares equal. */
  function Insert<T>(cmp: (T, T) -> Ordering, x: T, xs: seq<T>): seq<T> {
    if xs == [] then [x]
    else if cmp(x, xs[0]) == Less then [x] + xs
    else [xs[0]] + Insert(cmp, x, xs[1..])
  }

  function SortBy<T>(cmp: (T, T) -> Ordering, xs: seq<T>): seq<T> {
    if xs == [] then [] else Insert(cmp, xs[|xs| - 1], SortBy(cmp, xs[..|xs| - 1]))
  }

  lemma {:induction false} InsertIsPermutation<T>(cmp: (T, T) -> Ordering, x: T, xs: seq<T>)
    ensures multiset(Insert(cmp, x, xs)) == multiset(xs) + multiset{x}
    decreases |xs|
  {
    if xs != [] {
      assert xs == [xs[0]] + xs[1..];
      if cmp(x, xs[0]) != Less { InsertIsPermutation(cmp, x, xs[1..]); }
    }
  }

  lemma {:induction false} InsertKeepsSorted<T(!new)>(cmp: (T, T) -> Ordering, x: T, xs: seq<T>)
    requires IsTotalOrder(cmp) && Sorted(cmp, xs)
    ensures Sorted(cmp, Insert(cmp, x, xs))
    decreases |xs|
  {
    if xs != [] {
      if cmp(x, xs[0]) == Less {
        forall j | 0 <= j < |xs| ensures cmp(x, xs[j]) != Greater { if j > 0 { assert cmp(xs[0], xs[j]) != Greater; } }
      } else {
        var rest := Insert(cmp, x, xs[1..]);
        InsertKeepsSorted(cmp, x, xs[1..]);
        InsertIsPermutation(cmp, x, xs[1..]);
        forall j | 0 <= j < |rest| ensures cmp(xs[0], rest[j]) != Greater {
          assert rest[j] in multiset(rest);
          if rest[j] != x {
            assert rest[j] in xs[1..];
            var k :| 0 <= k < |xs[1..]| && xs[1..][k] == rest[j];
            assert xs[k + 1] == rest[j];
          }
        }
      }
    }
  }

  lemma {:induction false} SortByIsPermutation<T>(cmp: (T, T) -> Ordering, xs: seq<T>)
    ensures multiset(SortBy(cmp, xs)) == multiset(xs)
    decreases |xs|
  {
    if xs != [] {
      var front := xs[..|xs| - 1];
      SortByIsPermutation(cmp, front);
      InsertIsPermutation(cmp, xs[|xs| - 1], SortBy(cmp, front));
      assert xs == front + [xs[|xs| - 1]];
    }
  }

  lemma {:induction false} SortByIsSorted<T(!new)>(cmp: (T, T) -> Ordering, xs: seq<T>)
    requires IsTotalOrder(cmp)
    ensures Sorted(cmp, SortBy(cmp, xs))
    decreases |xs|
  {
    if xs != [] {
      SortByIsSorted(cmp, xs[..|xs| - 1]);
      InsertKeepsSorted(cmp, xs[|xs| - 1], SortBy(cmp, xs[..|xs| - 1]));
    }
  }

  /** Elements that compare equal are the same element. */
  ghost predicate Distinguishes<T>(cmp: (T, T) -> Ordering, xs: seq<T>) {
    forall a, b :: a in xs && b in xs && cmp(a, b) == Equal ==> a == b
  }

  lemma {:induction false} SortedListIsUnique<T(!new)>(cmp: (T, T) -> Ordering, xs: seq<T>, ys: seq<T>)
    requires IsTotalOrder(cmp) && Sorted(cmp, xs) && Sorted(cmp, ys)
    requires multiset(xs) == multiset(ys) && Distinguishes(cmp, xs)
    ensures xs == ys
    decreases |xs|
  {
    assert |multiset(xs)| == |xs| && |multiset(ys)| == |ys|;
    if xs != [] {
      assert xs[0] in multiset(ys) && ys[0] in multiset(xs);
      assert cmp(xs[0], ys[0]) != Greater by { FirstIsLeast(cmp, xs, ys[0]); }
      assert cmp(ys[0], xs[0]) != Greater by { FirstIsLeast(cmp, ys, xs[0]); }
      assert xs[0] == ys[0];
      assert xs == [xs[0]] + xs[1..] && ys == [ys[0]] + ys[1..];
      assert multiset(xs[1..]) == multiset(xs) - multiset{xs[0]};
      assert multiset(ys[1..]) == multiset(ys) - multiset{ys[0]};
      SortedListIsUnique(cmp, xs[1..], ys[1..]);
    }
  }

  lemma FirstIsLeast<T(!new)>(cmp: (T, T) -> Ordering, xs: seq<T>, x: T)
    requires IsTotalOrder(cmp) && Sorted(cmp, xs) && x in xs
    ensures cmp(xs[0], x) != Greater
  {
    var i :| 0 <= i < |xs| && xs[i] == x;
    if i == 0 { assert cmp(x, x) == cmp(x, x).Reverse(); }
  }

  /** Sorting forgets the original order when no two elements compare equal. */
  lemma {:induction false} SortIgnoresOrder<T(!new)>(cmp: (T, T) -> Ordering, xs: seq<T>, ys: seq<T>)
    requires IsTotalOrder(cmp) && multiset(xs) == multiset(ys) && Distinguishes(cmp, xs)
    ensures SortBy(cmp, xs) == SortBy(cmp, ys)
  {
    SortByIsPermutation(cmp, xs);
    SortByIsPermutation(cmp, ys);
    SortByIsSorted(cmp, xs);
    SortByIsSorted(cmp, ys);
    forall a | a in SortBy(cmp, xs) ensures a in xs { assert a in multiset(SortBy(cmp, xs)); }
    SortedListIsUnique(cmp, SortBy(cmp, xs), SortBy(cmp, ys));
  }

  /** `Iterator::max_by`: the last of the greatest elements. */
  function MaxBy<T>(cmp: (T, T) -> Ordering, xs: seq<T>): T
    requires xs != []
  {
    if |xs| == 1 then xs[0]
    else
      var best, last := MaxBy(cmp, xs[..|xs| - 1]), xs[|xs| - 1];
      if cmp(best, last) == Greater then best else last
  }

  lemma {:induction false} MaxByIsGreatest<T(!new)>(cmp: (T, T) -> Ordering, xs: seq<T>)
    requires IsTotalOrder(cmp) && xs != []
    ensures MaxBy(cmp, xs) in xs
    ensures forall x :: x in xs ==> cmp(x, MaxBy(cmp, xs)) != Greater
    decreases |xs|
  {
    var front, last := xs[..|xs| - 1], xs[|xs| - 1];
    assert xs == front + [last];
    assert cmp(last, last) == cmp(last, last).Reverse();
    if |xs| > 1 { MaxByIsGreatest(cmp, front); }
  }
}
