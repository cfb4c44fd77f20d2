/** `slices.SortFunc` as far as its callers may rely on it: some sorted permutation. */
module Sorting {

  ghost predicate TotalPreorder<T(!new)>(le: (T, T) -> bool) {
    && (forall x, y :: le(x, y) || le(y, x))
    && (forall x, y, z :: le(x, y) && le(y, z) ==> le(x, z))
  }

  ghost predicate SortedBy<T>(le: (T, T) -> bool, xs: seq<T>) {
    forall i, j :: 0 <= i < j < |xs| ==> le(xs[i], xs[j])
  }

  lemma SortedInsert<T>(le: (T, T) -> bool, xs: seq<T>, at: nat, x: T)
    requires SortedBy(le, xs) && at <= |xs|
    requires forall i :: 0 <= i < at ==> le(xs[i], x)
    requires forall j :: at <= j < |xs| ==> le(x, xs[j])
    ensures SortedBy(le, xs[..at] + [x] + xs[at..])
    ensures multiset(xs[..at] + [x] + xs[at..]) == multiset(xs) + multiset{x}
  {
    var ys := xs[..at] + [x] + xs[at..];
    forall i, j | 0 <= i < j < |ys| ensures le(ys[i], ys[j]) {
      assert ys[i] == if i < at then xs[i] else if i == at then x else xs[i - 1];
      assert ys[j] == if j < at then xs[j] else if j == at then x else xs[j - 1];
    }
    assert xs == xs[..at] + xs[at..];
  }

  method Insert<T(!new)>(le: (T, T) -> bool, xs: seq<T>, x: T) returns (ys: seq<T>)
    requires TotalPreorder(le) && SortedBy(le, xs)
    ensures SortedBy(le, ys) && multiset(ys) == multiset(xs) + multiset{x}
  {
    var at := |xs|;
    while 0 < at && !le(xs[at - 1], x)
      invariant 0 <= at <= |xs|
      invariant forall j :: at <= j < |xs| ==> le(x, xs[j])
    {
      at := at - 1;
    }
    SortedInsert(le, xs, at, x);
    ys := xs[..at] + [x] + xs[at..];
  }

  method Sort<T(!new)>(le: (T, T) -> bool, xs: seq<T>) returns (ys: seq<T>)
    requires TotalPreorder(le)
    ensures SortedBy(le, ys) && multiset(ys) == multiset(xs)
    ensures |ys| == |xs| && forall x :: x in ys <==> x in xs
  {
    ys := [];
    for n := 0 to |xs|
      invariant SortedBy(le, ys) && multiset(ys) == multiset(xs[..n])
    {
      assert xs[..n + 1] == xs[..n] + [xs[n]];
      ys := Insert(le, ys, xs[n]);
    }
    assert xs[..|xs|] == xs;
    SameElements(ys, xs);
  }

  lemma SameElements<T>(xs: seq<T>, ys: seq<T>)
    requires multiset(xs) == multiset(ys)
    ensures |xs| == |ys| && forall x :: x in xs <==> x in ys
  {
    assert |xs| == |multiset(xs)| == |multiset(ys)| == |ys|;
    forall x ensures x in xs <==> x in ys {
      assert x in xs <==> x in multiset(xs);
      assert x in ys <==> x in multiset(ys);
    }
  }

  ghost predicate Distinct<T>(xs: seq<T>) {
    forall i, j :: 0 <= i < j < |xs| ==> xs[i] != xs[j]
  }

  lemma {:induction false} DistinctMultiset<T>(xs: seq<T>)
    ensures Distinct(xs) <==> forall x :: multiset(xs)[x] <= 1
  {
    if xs != [] {
      var n := |xs| - 1;
      assert xs == xs[..n] + [xs[n]];
      DistinctMultiset(xs[..n]);
      if Distinct(xs) {
        assert xs[n] !in xs[..n];
        forall x ensures multiset(xs)[x] <= 1 {
          assert x == xs[n] ==> multiset(xs[..n])[x] == 0;
        }
      } else if Distinct(xs[..n]) {
        assert xs[n] in xs[..n];
        assert multiset(xs)[xs[n]] >= 2;
      } else {
        var x :| multiset(xs[..n])[x] > 1;
        assert multiset(xs)[x] > 1;
      }
    }
  }

  /** Reordering keeps elements distinct. */
  lemma DistinctPermutes<T>(xs: seq<T>, ys: seq<T>)
    requires multiset(xs) == multiset(ys) && Distinct(xs)
    ensures Distinct(ys)
  {
    DistinctMultiset(xs);
    DistinctMultiset(ys);
  }
}
