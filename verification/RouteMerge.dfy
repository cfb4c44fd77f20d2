/** Merging of route prefixes (tunnel_config.go:103-123). */
module RouteMerge {
  import opened Bits
  import opened Netip
  import opened Sorting

  const ORDER: (Prefix, Prefix) -> bool := (p: Prefix, q: Prefix) => p.AtMost(q)

  ghost predicate Sorted(ps: seq<Prefix>) {
    SortedBy(ORDER, ps)
  }

  /** The test of the loop body: the prefix is inside the one appended last. */
  predicate Skips(merged: seq<Prefix>, masked: Prefix) {
    merged != [] && merged[|merged| - 1].Overlaps(masked) && merged[|merged| - 1].bits <= masked.bits
  }

  /** What one turn of the loop makes of the prefixes merged so far. */
  function Merge1(merged: seq<Prefix>, prefix: Prefix): seq<Prefix> {
    if !prefix.IsValid() || Skips(merged, prefix.Masked()) then merged else merged + [prefix.Masked()]
  }

  function MergeSorted(sorted: seq<Prefix>): seq<Prefix> {
    if sorted == [] then [] else Merge1(MergeSorted(sorted[..|sorted| - 1]), sorted[|sorted| - 1])
  }

  method MergePrefixes(prefixes: seq<Prefix>) returns (merged: seq<Prefix>)
    ensures exists sorted :: Sorted(sorted) && multiset(sorted) == multiset(prefixes) && merged == MergeSorted(sorted)
    ensures forall a :: Covered(merged, a) <==> Covered(prefixes, a)
    ensures AllMasked(prefixes) ==> IsMaximalPart(prefixes, merged)
  {
    var sorted := Sort(ORDER, prefixes);
    merged := [];
    for n := 0 to |sorted|
      invariant merged == MergeSorted(sorted[..n])
    {
      assert sorted[..n + 1][..n] == sorted[..n];
      var prefix := sorted[n];
      if prefix.IsValid() {
        prefix := prefix.Masked();
        if |merged| > 0 && merged[|merged| - 1].Overlaps(prefix) && merged[|merged| - 1].bits <= prefix.bits {
        } else {
          merged := merged + [prefix];
        }
      }
    }
    assert sorted[..|sorted|] == sorted;
    forall a ensures Covered(merged, a) <==> Covered(prefixes, a) {
      MergeKeepsCoverage(sorted, a);
      CoveredPermutes(sorted, prefixes, a);
    }
    if AllMasked(prefixes) {
      MergeOfMasked(prefixes, sorted);
    }
  }

  lemma CoveredPermutes(ps: seq<Prefix>, qs: seq<Prefix>, a: Addr)
    requires multiset(ps) == multiset(qs)
    ensures Covered(ps, a) <==> Covered(qs, a)
  {
    forall i | 0 <= i < |ps| && ps[i].Contains(a) ensures Covered(qs, a) {
      assert ps[i] in multiset(qs);
    }
    forall i | 0 <= i < |qs| && qs[i].Contains(a) ensures Covered(ps, a) {
      assert qs[i] in multiset(ps);
    }
  }

  /** Merging keeps the covered addresses, whatever the prefixes are. */
  lemma {:induction false} MergeKeepsCoverage(sorted: seq<Prefix>, a: Addr)
    ensures Covered(MergeSorted(sorted), a) <==> Covered(sorted, a)
    decreases |sorted|
  {
    if sorted != [] {
      var init, p := sorted[..|sorted| - 1], sorted[|sorted| - 1];
      var merged := MergeSorted(init);
      assert sorted == init + [p];
      MergeKeepsCoverage(init, a);
      CoveredAppend(init, p, a);
      CoveredAppend(merged, p.Masked(), a);
      MaskedSame(p, a);
      if p.IsValid() && Skips(merged, p.Masked()) && p.Contains(a) {
        OverlapsMeansShared(merged[|merged| - 1], p.Masked());
        EnclosesContains(merged[|merged| - 1], p.Masked(), a);
      }
    }
  }

  /** Addresses between two addresses of a block are in the block. */
  lemma ContainsBetween(p: Prefix, a: Addr, b: Addr)
    requires p.IsValid() && p.addr.AtMost(a) && a.AtMost(b) && p.Contains(b)
    ensures p.Contains(a)
  {
    ContainsInterval(p, a);
    ContainsInterval(p, b);
  }

  lemma MaskedEncloses(p: Prefix, q: Prefix)
    requires p.IsValid()
    ensures p.Masked().Encloses(q) <==> p.Encloses(q)
    ensures q.IsValid() ==> (p.Encloses(q.Masked()) <==> p.Encloses(q))
    ensures p.Masked().Encloses(p)
  {
    MaskedSame(p, q.addr);
    MaskedSame(p, p.addr);
    if q.IsValid() {
      MaskedSame(q, q.addr);
      MaskedSame(q, q.Masked().addr);
      if p.Encloses(q) {
        EnclosesContains(p, q, q.Masked().addr);
      }
      if p.Encloses(q.Masked()) {
        EnclosesContains(p, q.Masked(), q.addr);
      }
    }
  }

  /** The loop skips a valid prefix exactly when the one appended last encloses it. */
  lemma SkipsMeansEnclosed(merged: seq<Prefix>, p: Prefix)
    requires p.IsValid()
    ensures Skips(merged, p.Masked()) <==> merged != [] && merged[|merged| - 1].Encloses(p)
  {
    if merged != [] {
      var last := merged[|merged| - 1];
      OverlapsMeansShared(last, p.Masked());
      if last.IsValid() {
        MaskedEncloses(last, p);
      }
    }
  }

  /** As long as the sorted prefixes stay inside the block of `sorted[r]`, the prefix appended
      last encloses it. */
  lemma {:induction false} LastEncloses(sorted: seq<Prefix>, r: nat, limit: Addr)
    requires Sorted(sorted) && r < |sorted| && sorted[r].Contains(limit)
    requires forall t :: r <= t < |sorted| ==> sorted[t].addr.AtMost(limit)
    ensures var merged := MergeSorted(sorted);
            merged != [] && merged[|merged| - 1].Encloses(sorted[r])
    decreases |sorted|
  {
    var init, z := sorted[..|sorted| - 1], sorted[|sorted| - 1];
    var before := MergeSorted(init);
    if z.IsValid() {
      SkipsMeansEnclosed(before, z);
      MaskedEncloses(z, z);
    }
    if r < |sorted| - 1 {
      LastEncloses(init, r, limit);
      if z.IsValid() && !Skips(before, z.Masked()) {
        ContainsBetween(sorted[r], z.addr, limit);
        var last := before[|before| - 1];
        EnclosesContains(last, sorted[r], z.addr);
        Laminar(z, last, z.addr);
        EnclosesTransitive(z, last, sorted[r]);
        MaskedEncloses(z, sorted[r]);
      }
    }
  }

  /** No prefix earlier in the sort order encloses the j-th one. */
  ghost predicate Kept(sorted: seq<Prefix>, j: nat)
    requires j < |sorted|
  {
    sorted[j].IsValid() && forall r :: 0 <= r < j ==> !sorted[r].Encloses(sorted[j])
  }

  /** The merge by definition: every prefix that no earlier one encloses, masked. */
  ghost function KeptList(sorted: seq<Prefix>): seq<Prefix> {
    if sorted == [] then [] else
      var n := |sorted| - 1;
      KeptList(sorted[..n]) + if Kept(sorted, n) then [sorted[n].Masked()] else []
  }

  lemma {:induction false} KeptListFrom(sorted: seq<Prefix>, k: nat) returns (j: nat)
    requires k < |KeptList(sorted)|
    ensures j < |sorted| && Kept(sorted, j) && KeptList(sorted)[k] == sorted[j].Masked()
    ensures |KeptList(sorted[..j])| == k
    decreases |sorted|
  {
    var n := |sorted| - 1;
    if k < |KeptList(sorted[..n])| {
      j := KeptListFrom(sorted[..n], k);
      assert sorted[..n][..j] == sorted[..j];
    } else {
      j := n;
    }
  }

  lemma {:induction false} KeptListHas(sorted: seq<Prefix>, j: nat) returns (k: nat)
    requires j < |sorted| && Kept(sorted, j)
    ensures k == |KeptList(sorted[..j])| < |KeptList(sorted)| && KeptList(sorted)[k] == sorted[j].Masked()
    decreases |sorted|
  {
    var n := |sorted| - 1;
    if j < n {
      k := KeptListHas(sorted[..n], j);
      assert sorted[..n][..j] == sorted[..j];
    } else {
      k := |KeptList(sorted[..n])|;
    }
  }

  /** The prefix appended last is one of those kept, so what it encloses is not kept. */
  lemma SkippedIsNotKept(sorted: seq<Prefix>, n: nat)
    requires n < |sorted| && sorted[n].IsValid() && MergeSorted(sorted[..n]) == KeptList(sorted[..n])
    requires Skips(MergeSorted(sorted[..n]), sorted[n].Masked())
    ensures !Kept(sorted, n)
  {
    var init, merged := sorted[..n], KeptList(sorted[..n]);
    SkipsMeansEnclosed(merged, sorted[n]);
    var j := KeptListFrom(init, |merged| - 1);
    MaskedEncloses(init[j], sorted[n]);
    assert sorted[j].Encloses(sorted[n]);
  }

  /** A prefix that an earlier one encloses is enclosed by the one appended last. */
  lemma AppendedIsKept(sorted: seq<Prefix>, n: nat)
    requires Sorted(sorted) && n < |sorted| && sorted[n].IsValid()
    requires !Skips(MergeSorted(sorted[..n]), sorted[n].Masked())
    ensures Kept(sorted, n)
  {
    var init, z := sorted[..n], sorted[n];
    SkipsMeansEnclosed(MergeSorted(init), z);
    forall r | 0 <= r < n ensures !sorted[r].Encloses(z) {
      if sorted[r].Encloses(z) {
        assert init[r] == sorted[r];
        LastEncloses(init, r, z.addr);
        EnclosesTransitive(MergeSorted(init)[|MergeSorted(init)| - 1], sorted[r], z);
      }
    }
  }

  /** Comparing with the prefix appended last is comparing with all earlier prefixes. */
  lemma {:induction false} MergeIsKept(sorted: seq<Prefix>)
    requires Sorted(sorted)
    ensures MergeSorted(sorted) == KeptList(sorted)
    decreases |sorted|
  {
    if sorted != [] {
      var n := |sorted| - 1;
      MergeIsKept(sorted[..n]);
      if sorted[n].IsValid() {
        if Skips(MergeSorted(sorted[..n]), sorted[n].Masked()) {
          SkippedIsNotKept(sorted, n);
        } else {
          AppendedIsKept(sorted, n);
        }
      }
    }
  }

  ghost predicate Disjoint(ps: seq<Prefix>) {
    forall i, j, a :: 0 <= i < j < |ps| && ps[i].Contains(a) ==> !ps[j].Contains(a)
  }

  /** The i-th sorted prefix comes before a strictly larger one that encloses it, and nothing
      up to the i-th encloses that larger one. Possible only when the larger is not masked. */
  ghost predicate Straddled(sorted: seq<Prefix>, i: nat, j: nat)
    requires i < j < |sorted|
  {
    && sorted[i].IsValid() && sorted[j].Encloses(sorted[i]) && sorted[j].bits < sorted[i].bits
    && forall r :: 0 <= r <= i ==> !sorted[r].Encloses(sorted[j])
  }

  /** The earliest prefix that encloses the j-th is kept. */
  lemma {:induction false} FirstEnclosing(sorted: seq<Prefix>, j: nat) returns (r: nat)
    requires j < |sorted| && sorted[j].IsValid()
    ensures r <= j && Kept(sorted, r) && sorted[r].Encloses(sorted[j])
    decreases j
  {
    r := j;
    if !Kept(sorted, j) {
      var e :| 0 <= e < j && sorted[e].Encloses(sorted[j]);
      r := FirstEnclosing(sorted, e);
      EnclosesTransitive(sorted[r], sorted[e], sorted[j]);
    }
  }

  lemma {:induction false} KeptCountMonotone(sorted: seq<Prefix>, i: nat, j: nat)
    requires i < j <= |sorted| && Kept(sorted, i)
    ensures |KeptList(sorted[..i])| < |KeptList(sorted[..j])|
  {
    var k := KeptListHas(sorted[..j], i);
    assert sorted[..j][..i] == sorted[..i];
  }

  /** Merging gives pairwise disjoint prefixes if and only if no sorted input is straddled. */
  lemma MergeDisjointIff(sorted: seq<Prefix>)
    requires Sorted(sorted)
    ensures Disjoint(MergeSorted(sorted)) <==> forall i, j :: 0 <= i < j < |sorted| ==> !Straddled(sorted, i, j)
  {
    MergeIsKept(sorted);
    forall i, j | 0 <= i < j < |sorted| && Straddled(sorted, i, j)
      ensures !Disjoint(MergeSorted(sorted))
    {
      StraddledOverlaps(sorted, i, j);
    }
    if !Disjoint(MergeSorted(sorted)) {
      var i, j := OverlapStraddles(sorted);
    }
  }

  lemma StraddledOverlaps(sorted: seq<Prefix>, i: nat, j: nat)
    requires i < j < |sorted| && Straddled(sorted, i, j)
    ensures !Disjoint(KeptList(sorted))
  {
    var small := FirstEnclosing(sorted, i);
    var large := FirstEnclosing(sorted, j);
    assert i < large;
    var m := KeptListHas(sorted, small);
    var n := KeptListHas(sorted, large);
    KeptCountMonotone(sorted, small, large);
    var a := sorted[i].addr;
    EnclosesContains(sorted[large], sorted[j], a);
    MaskedSame(sorted[small], a);
    MaskedSame(sorted[large], a);
    assert KeptList(sorted)[m].Contains(a) && KeptList(sorted)[n].Contains(a);
  }

  lemma OverlapStraddles(sorted: seq<Prefix>) returns (i: nat, j: nat)
    requires !Disjoint(KeptList(sorted))
    ensures i < j < |sorted| && Straddled(sorted, i, j)
  {
    var kept := KeptList(sorted);
    var m, n, a :| 0 <= m < n < |kept| && kept[m].Contains(a) && kept[n].Contains(a);
    i := KeptListFrom(sorted, m);
    j := KeptListFrom(sorted, n);
    if j <= i {
      if j < i {
        KeptCountMonotone(sorted, j, i);
      }
      assert false;
    }
    MaskedSame(sorted[i], a);
    MaskedSame(sorted[j], a);
    if sorted[i].bits <= sorted[j].bits {
      Laminar(sorted[i], sorted[j], a);
      assert false;
    }
    Laminar(sorted[j], sorted[i], a);
  }

  /** Every valid prefix of the list has its host bits clear. */
  ghost predicate AllMasked(ps: seq<Prefix>) {
    forall i :: 0 <= i < |ps| && ps[i].IsValid() ==> ps[i].Masked() == ps[i]
  }

  /** Among masked prefixes, the one outside sorts first. */
  lemma EncloserSortsFirst(p: Prefix, q: Prefix)
    requires p.Encloses(q) && p.Masked() == p && q.Masked() == q
    ensures p.AtMost(q) && (q.AtMost(p) ==> p == q)
  {
    ContainsInterval(p, q.addr);
    if p.addr.Value() == q.addr.Value() {
      SameAddr(p.addr, q.addr);
    }
  }

  /** For masked inputs nothing is straddled, so the output is pairwise disjoint. */
  lemma MaskedNeverStraddled(sorted: seq<Prefix>, i: nat, j: nat)
    requires Sorted(sorted) && AllMasked(sorted) && i < j < |sorted|
    ensures !Straddled(sorted, i, j)
  {
    if Straddled(sorted, i, j) {
      EncloserSortsFirst(sorted[j], sorted[i]);
      assert false;
    }
  }

  /** `p` is valid and no valid prefix of the list is a strictly larger block around it. */
  ghost predicate Maximal(ps: seq<Prefix>, p: Prefix) {
    p.IsValid() && forall i :: 0 <= i < |ps| && ps[i].Encloses(p) ==> ps[i] == p
  }

  ghost predicate StrictlyAscending(ps: seq<Prefix>) {
    forall i, j :: 0 <= i < j < |ps| ==> ps[i].addr.AtMost(ps[j].addr) && ps[i].addr != ps[j].addr
  }

  lemma {:induction false} KeptAscends(sorted: seq<Prefix>, m: nat, n: nat)
    requires Sorted(sorted) && AllMasked(sorted) && Disjoint(KeptList(sorted))
    requires m < n < |KeptList(sorted)|
    ensures KeptList(sorted)[m].addr.AtMost(KeptList(sorted)[n].addr)
    ensures KeptList(sorted)[m].addr != KeptList(sorted)[n].addr
  {
    var i := KeptListFrom(sorted, m);
    var j := KeptListFrom(sorted, n);
    if j < i {
      KeptCountMonotone(sorted, j, i);
      assert false;
    }
    assert i != j;
    assert KeptList(sorted)[m].Contains(sorted[i].addr);
    assert KeptList(sorted)[n].Contains(sorted[j].addr);
  }

  lemma KeptIsMaximal(sorted: seq<Prefix>, j: nat)
    requires Sorted(sorted) && AllMasked(sorted) && j < |sorted|
    ensures Kept(sorted, j) ==> Maximal(sorted, sorted[j])
  {
    forall i | 0 <= i < |sorted| && Kept(sorted, j) && sorted[i].Encloses(sorted[j])
      ensures sorted[i] == sorted[j]
    {
      EncloserSortsFirst(sorted[i], sorted[j]);
    }
  }

  /** The containment-maximal prefixes of the list, each once, in strictly ascending order and
      pairwise disjoint. */
  ghost predicate IsMaximalPart(ps: seq<Prefix>, merged: seq<Prefix>) {
    && (forall p :: p in merged <==> p in ps && Maximal(ps, p))
    && StrictlyAscending(merged) && Disjoint(merged)
  }

  /** For masked inputs the merge is exactly the containment-maximal prefixes, each once, in
      strictly ascending order and pairwise disjoint. */
  lemma MergeOfMasked(prefixes: seq<Prefix>, sorted: seq<Prefix>)
    requires Sorted(sorted) && multiset(sorted) == multiset(prefixes) && AllMasked(prefixes)
    ensures IsMaximalPart(prefixes, MergeSorted(sorted))
  {
    forall p ensures p in sorted <==> p in prefixes {
      assert p in sorted <==> p in multiset(sorted);
      assert p in prefixes <==> p in multiset(prefixes);
    }
    assert AllMasked(sorted) by {
      forall i | 0 <= i < |sorted| && sorted[i].IsValid() ensures sorted[i].Masked() == sorted[i] {
        assert sorted[i] in prefixes;
      }
    }
    forall p ensures Maximal(sorted, p) <==> Maximal(prefixes, p) {
      MaximalPermutes(sorted, prefixes, p);
    }
    MergeIsKept(sorted);
    forall i, j | 0 <= i < j < |sorted| ensures !Straddled(sorted, i, j) {
      MaskedNeverStraddled(sorted, i, j);
    }
    MergeDisjointIff(sorted);
    forall m, n | 0 <= m < n < |KeptList(sorted)|
      ensures KeptList(sorted)[m].addr.AtMost(KeptList(sorted)[n].addr)
      ensures KeptList(sorted)[m].addr != KeptList(sorted)[n].addr
    {
      KeptAscends(sorted, m, n);
    }
    forall p ensures p in KeptList(sorted) <==> p in sorted && Maximal(sorted, p) {
      if p in KeptList(sorted) {
        var k :| 0 <= k < |KeptList(sorted)| && KeptList(sorted)[k] == p;
        var j := KeptListFrom(sorted, k);
        KeptIsMaximal(sorted, j);
      }
      if p in sorted && Maximal(sorted, p) {
        var i :| 0 <= i < |sorted| && sorted[i] == p;
        var j := FirstEnclosing(sorted, i);
        var k := KeptListHas(sorted, j);
      }
    }
  }

  lemma MaximalPermutes(ps: seq<Prefix>, qs: seq<Prefix>, p: Prefix)
    requires forall r :: r in ps <==> r in qs
    ensures Maximal(ps, p) <==> Maximal(qs, p)
  {
    forall i | 0 <= i < |ps| ensures exists j :: 0 <= j < |qs| && qs[j] == ps[i] {
      assert ps[i] in qs;
    }
    forall i | 0 <= i < |qs| ensures exists j :: 0 <= j < |ps| && ps[j] == qs[i] {
      assert qs[i] in ps;
    }
  }

  /** Unmasked inputs can leave overlapping routes: 10.0.0.1/32 sorts before 10.0.0.2/30. */
  lemma UnmaskedMayOverlap()
    ensures var sorted := [Prefix(V4(0x0A000001), 32), Prefix(V4(0x0A000002), 30)];
            Sorted(sorted) && !Disjoint(MergeSorted(sorted))
  {
    var p, q := Prefix(V4(0x0A000001), 32), Prefix(V4(0x0A000002), 30);
    assert Shift(0x0A000002, 2) == Shift(0x0A000001, 2) by {
      assert Shift(0x0A000001, 2) == Shift(0x05000000, 1) == Shift(0x02800000, 0);
      assert Shift(0x0A000002, 2) == Shift(0x05000001, 1) == Shift(0x02800000, 0);
    }
    assert q.Encloses(p) && !p.Encloses(q);
    assert Straddled([p, q], 0, 1);
    MergeDisjointIff([p, q]);
  }
}
