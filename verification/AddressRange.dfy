/** Decomposition of an IPv4 address range into CIDR blocks (resource.go:141-171). */
module AddressRange {
  import opened Bits
  import opened Netip

  /** A sum or difference as uint32 arithmetic leaves it. */
  function Wrap(v: int): Uint32 {
    v % 0x1_0000_0000
  }

  /** The number of low zero bits of an address value. */
  function Alignment(first: nat): nat {
    if first == 0 then 32 else TrailingZeros(first)
  }

  /** The exponent of the block the greedy choice takes at `first`. */
  function Exponent(first: nat, last: nat): nat
    requires first <= last
  {
    var size := BitLength(last - first + 1) - 1;
    if Alignment(first) < size then Alignment(first) else size
  }

  lemma FitsSpace(k: nat)
    requires Pow2(k) <= 0x1_0000_0000
    ensures k <= 32
  {
    Pow2Width4();
    Pow2Reflects(k, 33);
  }

  lemma AlignmentAligned(first: nat, k: nat)
    requires k <= 32
    ensures Aligned(first, k) <==> k <= Alignment(first)
  {
    if first == 0 {
      ZeroAligned(k);
    } else {
      AlignedIffTrailingZeros(first, k);
    }
  }

  /** The block at `first` is aligned and inside the range. */
  lemma ExponentFits(first: nat, last: nat)
    requires first <= last < 0x1_0000_0000
    ensures Exponent(first, last) <= 32
    ensures Aligned(first, Exponent(first, last))
    ensures first + Pow2(Exponent(first, last)) - 1 <= last
  {
    var e, size := Exponent(first, last), BitLength(last - first + 1) - 1;
    Pow2Monotone(e, size);
    FitsSpace(size);
    AlignmentAligned(first, e);
  }

  /** No larger block at `first` is both aligned and inside the range. */
  lemma ExponentMaximal(first: nat, last: nat, k: nat)
    requires first <= last < 0x1_0000_0000
    requires Aligned(first, k) && first + Pow2(k) - 1 <= last
    ensures k <= Exponent(first, last)
  {
    FitsSpace(k);
    AlignmentAligned(first, k);
    Pow2Reflects(k, BitLength(last - first + 1));
  }

  predicate IsBlock(p: Prefix) {
    p.addr.V4? && p.IsValid() && Aligned(p.addr.v4, p.HostBits())
  }

  /** The first address value after a block; 2^32 for a block that ends the address space. */
  function End(p: Prefix): nat
    requires IsBlock(p)
  {
    p.addr.v4 + Pow2(p.HostBits())
  }

  lemma BlockInterval(p: Prefix, a: Addr)
    requires IsBlock(p)
    ensures p.Contains(a) <==> a.V4? && p.addr.v4 <= a.v4 < End(p)
  {
    ContainsInterval(p, a);
  }

  /** Blocks laid end to end from `first` up to, not including, `end`. */
  ghost predicate Tiles(ps: seq<Prefix>, first: nat, end: nat) {
    && 0 < |ps|
    && (forall i :: 0 <= i < |ps| ==> IsBlock(ps[i]))
    && ps[0].addr.v4 == first
    && (forall i, j :: 0 <= i < |ps| - 1 && j == i + 1 ==> ps[j].addr.v4 == End(ps[i]))
    && End(ps[|ps| - 1]) == end
  }

  /** No aligned block that starts where `p` does and stays up to `last` is larger than `p`. */
  ghost predicate Largest(p: Prefix, last: nat)
    requires IsBlock(p)
  {
    forall k: nat {:trigger Aligned(p.addr.v4, k)} ::
      Aligned(p.addr.v4, k) && p.addr.v4 + Pow2(k) - 1 <= last ==> k <= p.HostBits()
  }

  ghost predicate AllLargest(ps: seq<Prefix>, last: nat) {
    forall i :: 0 <= i < |ps| ==> IsBlock(ps[i]) && Largest(ps[i], last)
  }

  /** Tiles ascend: every block ends at or before the start of every later one. */
  lemma {:induction false} TilesAscend(ps: seq<Prefix>, first: nat, end: nat, i: nat, j: nat)
    requires Tiles(ps, first, end) && i < j < |ps|
    ensures End(ps[i]) <= ps[j].addr.v4
    decreases j
  {
    if i + 1 < j {
      TilesAscend(ps, first, end, i, j - 1);
      assert ps[j].addr.v4 == End(ps[j - 1]);
    }
  }

  /** Tiles miss no value: the block a value falls in is found by walking down from the end. */
  lemma {:induction false} TilesFind(ps: seq<Prefix>, first: nat, end: nat, v: nat, n: nat) returns (i: nat)
    requires Tiles(ps, first, end) && 0 < n <= |ps|
    requires first <= v < End(ps[n - 1])
    ensures i < n && ps[i].addr.v4 <= v < End(ps[i])
    decreases n
  {
    if ps[n - 1].addr.v4 <= v {
      i := n - 1;
    } else {
      assert ps[n - 1].addr.v4 == End(ps[n - 2]);
      i := TilesFind(ps, first, end, v, n - 1);
    }
  }

  /** Tiles cover exactly the range. */
  lemma TilesCover(ps: seq<Prefix>, first: nat, end: nat, a: Addr)
    requires Tiles(ps, first, end)
    ensures Covered(ps, a) <==> a.V4? && first <= a.v4 < end
  {
    forall i | 0 <= i < |ps| && ps[i].Contains(a)
      ensures a.V4? && first <= a.v4 < end
    {
      BlockInterval(ps[i], a);
      if 0 < i {
        TilesAscend(ps, first, end, 0, i);
      }
      if i < |ps| - 1 {
        TilesAscend(ps, first, end, i, |ps| - 1);
      }
    }
    if a.V4? && first <= a.v4 < end {
      var i := TilesFind(ps, first, end, a.v4, |ps|);
      BlockInterval(ps[i], a);
    }
  }

  /** No address is in two tiles. */
  lemma TilesDisjoint(ps: seq<Prefix>, first: nat, end: nat, i: nat, j: nat, a: Addr)
    requires Tiles(ps, first, end) && i < |ps| && j < |ps|
    requires ps[i].Contains(a) && ps[j].Contains(a)
    ensures i == j
  {
    BlockInterval(ps[i], a);
    BlockInterval(ps[j], a);
    if i != j {
      TilesAscend(ps, first, end, if i < j then i else j, if i < j then j else i);
    }
  }

  /** Appending the block that starts at the end of a tiling extends the tiling. */
  lemma TilesAppend(ps: seq<Prefix>, first: nat, next: nat, p: Prefix)
    requires IsBlock(p) && p.addr.v4 == next
    requires if ps == [] then next == first else Tiles(ps, first, next)
    ensures Tiles(ps + [p], first, End(p))
  {}

  /** The wrapped sums of the loop body decide and advance as unbounded ones would. */
  lemma WrappedStep(first: Uint32, last: Uint32, size: nat)
    requires 0 < size && first + size - 1 <= last
    ensures Wrap(first + Wrap(size) - 1) == first + size - 1
    ensures first + size <= last ==> Wrap(first + Wrap(size)) == first + size
  {}

  /** The choice of one block (resource.go:152-163), bounded by the alignment of `first` and
      by the remaining size of the range. */
  method GreedyBitLength(first: Uint32, last: Uint32) returns (bitLength: nat)
    requires first <= last
    ensures bitLength + Exponent(first, last) == 32
  {
    var alignment := 32;
    if first != 0 {
      alignment := TrailingZeros(first);
    }
    var count := last - first + 1;
    var size := BitLength(count);
    if count < Pow2(size) {
      size := size - 1;
    }
    ExponentFits(first, last);
    bitLength := 32 - (if alignment < size then alignment else size);
  }

  /** The chosen block fits in the range and no aligned block at `first` that fits is larger. */
  lemma GreedyIsLargest(first: Uint32, last: Uint32, p: Prefix)
    requires first <= last && p == Prefix(V4(first), 32 - Exponent(first, last))
    ensures IsBlock(p) && End(p) <= last + 1 && Largest(p, last)
  {
    ExponentFits(first, last);
    forall k: nat | Aligned(first, k) && first + Pow2(k) - 1 <= last
      ensures k <= p.HostBits()
    {
      ExponentMaximal(first, last, k);
    }
  }

  /** The block appended in one turn of the loop (resource.go:164). */
  method GreedyBlock(first: Uint32, last: Uint32) returns (block: Prefix)
    requires first <= last
    ensures IsBlock(block) && block.addr == V4(first) && End(block) <= last + 1 && Largest(block, last)
  {
    var bitLength := GreedyBitLength(first, last);
    block := PrefixFrom(V4(first), bitLength);
    GreedyIsLargest(first, last, block);
  }

  /** What the loop has appended when it is about to place a block at `next`. */
  ghost predicate TiledSoFar(ps: seq<Prefix>, first: nat, next: nat, last: nat) {
    (if ps == [] then next == first else Tiles(ps, first, next)) && AllLargest(ps, last)
  }

  lemma Append(ps: seq<Prefix>, first: nat, next: nat, last: nat, p: Prefix)
    requires TiledSoFar(ps, first, next, last) && IsBlock(p) && p.addr.v4 == next && Largest(p, last)
    ensures TiledSoFar(ps + [p], first, End(p), last) && Tiles(ps + [p], first, End(p))
  {
    TilesAppend(ps, first, next, p);
  }

  /** The wrapped test of the loop says whether the block ends the range, and the wrapped
      increment otherwise leads behind it. */
  lemma BlockStep(p: Prefix, first: Uint32, last: Uint32, blockSize: nat)
    requires IsBlock(p) && p.addr == V4(first) && End(p) <= last + 1 && blockSize == Wrap(Pow2(32 - p.bits))
    ensures Wrap(first + blockSize - 1) >= last <==> End(p) == last + 1
    ensures End(p) <= last ==> Wrap(first + blockSize) == End(p)
  {
    var size := Pow2(p.HostBits());
    assert p.HostBits() == 32 - p.bits && End(p) == first + size;
    WrappedStep(first, last, size);
  }

  /** `addressRangePrefixes` (resource.go:141-171), with its uint32 arithmetic: `blockSize`
      is 0 for the whole address space, and `first + blockSize` may wrap to 0. */
  method AddressRangePrefixes(start: Addr, end: Addr) returns (prefixes: seq<Prefix>)
    ensures if start.V4? && end.V4? && start.v4 <= end.v4
            then Tiles(prefixes, start.v4, end.v4 + 1) && AllLargest(prefixes, end.v4)
            else prefixes == []
  {
    if !start.V4? || !end.V4? {
      return [];
    }
    var first: Uint32, last: Uint32 := start.v4, end.v4;
    if first > last {
      return [];
    }
    prefixes := [];
    while true
      invariant first <= last
      invariant TiledSoFar(prefixes, start.v4, first, last)
      decreases last - first
    {
      var block := GreedyBlock(first, last);
      Append(prefixes, start.v4, first, last, block);
      prefixes := prefixes + [block];
      var blockSize := Wrap(Pow2(32 - block.bits));
      BlockStep(block, first, last, blockSize);
      if Wrap(first + blockSize - 1) >= last {
        break;
      }
      first := Wrap(first + blockSize);
    }
  }

  /** What laying blocks end to end means for callers of the decomposition. */
  lemma RangeIsTiled(ps: seq<Prefix>, first: nat, end: nat)
    requires Tiles(ps, first, end)
    ensures forall a :: Covered(ps, a) <==> a.V4? && first <= a.v4 < end
    ensures forall i, j :: 0 <= i < j < |ps| ==>
              ps[i].Masked() == ps[i] && ps[i].addr.Value() < ps[j].addr.Value() && !ps[i].Overlaps(ps[j])
  {
    forall a ensures Covered(ps, a) <==> a.V4? && first <= a.v4 < end {
      TilesCover(ps, first, end, a);
    }
    forall i, j | 0 <= i < j < |ps|
      ensures ps[i].Masked() == ps[i] && ps[i].addr.Value() < ps[j].addr.Value() && !ps[i].Overlaps(ps[j])
    {
      TilesAscend(ps, first, end, i, j);
      OverlapsMeansShared(ps[i], ps[j]);
      if ps[i].Overlaps(ps[j]) {
        var a :| ps[i].Contains(a) && ps[j].Contains(a);
        TilesDisjoint(ps, first, end, i, j, a);
      }
    }
  }

  /** The addresses of `p` all lie in the range. */
  ghost predicate Inside(p: Prefix, first: nat, last: nat) {
    p.IsValid() && forall a :: p.Contains(a) ==> a.V4? && first <= a.v4 <= last
  }

  lemma InsideBounds(p: Prefix, first: nat, last: nat)
    requires Inside(p, first, last)
    ensures p.addr.V4? && first <= Low(p) && Low(p) + Size(p) - 1 <= last
  {
    BaseBlock(p.addr.Value(), p.HostBits());
    var a := BlockHolds(p, Low(p));
    var b := BlockHolds(p, Low(p) + Size(p) - 1);
  }

  /** A prefix inside the range that reaches into a tile cannot stick out of it: it would have
      to start there, and be no larger, or to reach back into the previous tile. */
  lemma {:induction false} TileIsMaximal(ps: seq<Prefix>, first: nat, last: nat, p: Prefix, i: nat, a: Addr)
    requires Tiles(ps, first, last + 1) && AllLargest(ps, last) && i < |ps|
    requires Inside(p, first, last) && p.Contains(a) && ps[i].Contains(a)
    ensures ps[i].Encloses(p)
    decreases i
  {
    var t := ps[i];
    assert Largest(t, last);
    if t.bits <= p.bits {
      Laminar(t, p, a);
    } else {
      Laminar(p, t, a);
      InsideBounds(p, first, last);
      ContainsInterval(p, t.addr);
      if Low(p) == t.addr.v4 {
        BaseAligned(p.addr.v4, p.HostBits());
      } else {
        assert 0 < i by {
          assert ps[0].addr.v4 == first;
        }
        assert ps[i].addr.v4 == End(ps[i - 1]);
        var before := V4(t.addr.v4 - 1);
        ContainsInterval(p, before);
        BlockInterval(ps[i - 1], before);
        TileIsMaximal(ps, first, last, p, i - 1, before);
        EnclosesContains(ps[i - 1], p, t.addr);
        BlockInterval(ps[i - 1], t.addr);
      }
    }
  }

  lemma Pigeonhole(f: seq<nat>, m: nat)
    requires forall i :: 0 <= i < |f| ==> f[i] < m
    requires forall i, j :: 0 <= i < j < |f| ==> f[i] != f[j]
    ensures |f| <= m
    decreases m
  {
    if f != [] {
      assert f[0] < m;
      if m - 1 in f {
        var i :| 0 <= i < |f| && f[i] == m - 1;
        Pigeonhole(f[..i] + f[i + 1..], m - 1);
      } else {
        Pigeonhole(f, m - 1);
      }
    }
  }

  lemma TileStartCovered(ps: seq<Prefix>, first: nat, last: nat, cover: seq<Prefix>, i: nat) returns (j: nat)
    requires Tiles(ps, first, last + 1) && i < |ps|
    requires forall a :: Covered(cover, a) <==> a.V4? && first <= a.v4 <= last
    ensures j < |cover| && cover[j].Contains(ps[i].addr)
  {
    TilesCover(ps, first, last + 1, ps[i].addr);
    assert ps[i].Contains(ps[i].addr);
    assert Covered(cover, ps[i].addr);
    j :| 0 <= j < |cover| && cover[j].Contains(ps[i].addr);
  }

  /** The prefix of `cover` that holds the start of each tile. */
  lemma {:induction false} Assign(ps: seq<Prefix>, first: nat, last: nat, cover: seq<Prefix>, n: nat)
    returns (f: seq<nat>)
    requires Tiles(ps, first, last + 1) && n <= |ps|
    requires forall a :: Covered(cover, a) <==> a.V4? && first <= a.v4 <= last
    ensures |f| == n
    ensures forall i :: 0 <= i < n ==> f[i] < |cover| && cover[f[i]].Contains(ps[i].addr)
    decreases n
  {
    f := [];
    if 0 < n {
      f := Assign(ps, first, last, cover, n - 1);
      var j := TileStartCovered(ps, first, last, cover, n - 1);
      f := f + [j];
    }
  }

  /** Any list of prefixes with the same union is at least as long. */
  lemma TilingIsMinimal(ps: seq<Prefix>, first: nat, last: nat, cover: seq<Prefix>)
    requires Tiles(ps, first, last + 1) && AllLargest(ps, last)
    requires forall a :: Covered(cover, a) <==> a.V4? && first <= a.v4 <= last
    ensures |ps| <= |cover|
  {
    var f := Assign(ps, first, last, cover, |ps|);
    forall i, j | 0 <= i < j < |f| ensures f[i] != f[j] {
      if f[i] == f[j] {
        var p, a, b := cover[f[i]], ps[i].addr, ps[j].addr;
        assert ps[i].Contains(a) && ps[j].Contains(b);
        assert Inside(p, first, last) by {
          forall c | p.Contains(c) ensures c.V4? && first <= c.v4 <= last {
            assert Covered(cover, c);
          }
        }
        TileIsMaximal(ps, first, last, p, i, a);
        EnclosesContains(ps[i], p, b);
        TilesDisjoint(ps, first, last + 1, i, j, b);
      }
    }
    Pigeonhole(f, |cover|);
  }

  lemma TileEnd(ps: seq<Prefix>, first: nat, last: nat, i: nat)
    requires Tiles(ps, first, last + 1) && i < |ps|
    ensures End(ps[i]) <= last + 1
    ensures i + 1 < |ps| <==> End(ps[i]) < last + 1
    ensures i + 1 < |ps| ==> ps[i + 1].addr.v4 == End(ps[i])
  {
    if i + 1 < |ps| {
      TilesAscend(ps, first, last + 1, i, |ps| - 1);
    }
  }

  /** Once less than an aligned power of two is left, every further block at least halves it. */
  lemma {:induction false} DescendingBlocks(ps: seq<Prefix>, first: nat, last: nat, i: nat, k: nat)
    requires Tiles(ps, first, last + 1) && AllLargest(ps, last) && i <= |ps|
    requires i < |ps| ==> Aligned(ps[i].addr.v4, k) && last + 1 < ps[i].addr.v4 + Pow2(k)
    ensures |ps| - i <= k
    decreases |ps| - i
  {
    if i < |ps| {
      var start, h := ps[i].addr.v4, ps[i].HostBits();
      TileEnd(ps, first, last, i);
      Pow2Reflects(h, k);
      AlignedRefines(start, h + 1, k);
      AlignedStep(start, h);
      assert Largest(ps[i], last);
      DescendingBlocks(ps, first, last, i + 1, h);
    }
  }

  /** A block limited by its alignment is followed by one that is better aligned. */
  lemma AscendingStep(start: nat, h: nat, k: nat)
    requires Aligned(start, h) && !Aligned(start, h + 1) && Aligned(start, k)
    requires start + Pow2(h + 1) <= 0x1_0000_0000
    ensures k <= h <= 30 && Aligned(start + Pow2(h), h + 1)
  {
    if start == 0 {
      ZeroAligned(h + 1);
    }
    if h < k {
      AlignedRefines(start, h + 1, k);
    }
    Pow2Width4();
    Pow2Reflects(h + 1, 32);
    AlignedUp(start, h);
  }

  /** From the largest block on, at most one block of each smaller size follows; nothing follows
      a block of half the address space that does not start at zero. */
  lemma PeakBlock(ps: seq<Prefix>, first: nat, last: Uint32, i: nat)
    requires Tiles(ps, first, last + 1) && AllLargest(ps, last) && i < |ps|
    requires last + 1 < ps[i].addr.v4 + Pow2(ps[i].HostBits() + 1)
    ensures |ps| - i <= ps[i].HostBits() + 1
    ensures 31 <= ps[i].HostBits() && ps[i].addr.v4 != 0 ==> |ps| - i == 1
  {
    var start, h := ps[i].addr.v4, ps[i].HostBits();
    TileEnd(ps, first, last, i);
    AlignedStep(start, h);
    DescendingBlocks(ps, first, last, i + 1, h);
    if 31 <= h && start != 0 {
      AlignedAtLeast(start, h);
      Pow2Monotone(31, h);
      Pow2Width4();
    }
  }

  lemma {:induction false} AscendingBlocks(ps: seq<Prefix>, first: nat, last: Uint32, i: nat, k: nat)
    requires Tiles(ps, first, last + 1) && AllLargest(ps, last) && i < |ps|
    requires Aligned(ps[i].addr.v4, k) && k <= 31 && (k == 0 || ps[i].addr.v4 != 0)
    ensures |ps| - i <= 62 - k
    decreases |ps| - i
  {
    var start, h := ps[i].addr.v4, ps[i].HostBits();
    if last + 1 < start + Pow2(h + 1) {
      PeakBlock(ps, first, last, i);
    } else {
      assert Largest(ps[i], last);
      TileEnd(ps, first, last, i);
      AscendingStep(start, h, k);
      AscendingBlocks(ps, first, last, i + 1, h + 1);
    }
  }

  /** A range never needs more than 62 blocks. */
  lemma AtMost62(ps: seq<Prefix>, first: nat, last: Uint32)
    requires Tiles(ps, first, last + 1) && AllLargest(ps, last)
    ensures |ps| <= 62
  {
    AscendingBlocks(ps, first, last, 0, 0);
  }

  /** A largest block has the exponent that fits when the next one does not. */
  lemma HostBitsAre(p: Prefix, last: nat, h: nat)
    requires IsBlock(p) && Largest(p, last) && End(p) <= last + 1
    requires Aligned(p.addr.v4, h) && p.addr.v4 + Pow2(h) - 1 <= last
    requires Aligned(p.addr.v4, h + 1) ==> last < p.addr.v4 + Pow2(h + 1) - 1
    ensures p.HostBits() == h
  {
    if h < p.HostBits() {
      AlignedRefines(p.addr.v4, h + 1, p.HostBits());
      Pow2Monotone(h + 1, p.HostBits());
    }
  }

  lemma PowerAlignment(k: nat)
    ensures Aligned(Pow2(k), k) && !Aligned(Pow2(k), k + 1)
  {
    DifferenceAligned(k, k + 1);
    if Aligned(Pow2(k), k + 1) {
      AlignedAtLeast(Pow2(k), k + 1);
    }
  }

  lemma PowersInSpace(k: nat)
    requires k <= 31
    ensures 2 * Pow2(k) <= 0x1_0000_0000
    ensures k < 31 ==> 4 * Pow2(k) <= 0x1_0000_0000
  {
    Pow2Width4();
    Pow2Monotone(k, 31);
    if k < 31 {
      Pow2Monotone(k, 30);
    }
  }

  /** A block that starts at a power of two is as large as its start. */
  lemma RampUp(ps: seq<Prefix>, i: nat, k: nat)
    requires Tiles(ps, 1, 0xFFFF_FFFF) && AllLargest(ps, 0xFFFF_FFFE) && i < |ps|
    requires k <= 30 && ps[i].addr.v4 == Pow2(k)
    ensures i + 1 < |ps| && ps[i + 1].addr.v4 == Pow2(k + 1)
  {
    PowerAlignment(k);
    PowersInSpace(k);
    TileEnd(ps, 1, 0xFFFF_FFFE, i);
    HostBitsAre(ps[i], 0xFFFF_FFFE, k);
  }

  lemma RampDownStep(ps: seq<Prefix>, i: nat, m: nat)
    requires Tiles(ps, 1, 0xFFFF_FFFF) && AllLargest(ps, 0xFFFF_FFFE) && i < |ps|
    requires 1 <= m <= 31 && ps[i].addr.v4 + Pow2(m) == 0x1_0000_0000
    ensures ps[i].HostBits() == m - 1
  {
    var start := ps[i].addr.v4;
    assert Aligned(start, m) by {
      Pow2Width4();
      DifferenceAligned(m, 32);
    }
    AlignedRefines(start, m - 1, m);
    TileEnd(ps, 1, 0xFFFF_FFFE, i);
    HostBitsAre(ps[i], 0xFFFF_FFFE, m - 1);
  }

  lemma {:induction false} RampDown(ps: seq<Prefix>, i: nat, m: nat)
    requires Tiles(ps, 1, 0xFFFF_FFFF) && AllLargest(ps, 0xFFFF_FFFE) && i < |ps|
    requires 1 <= m <= 31 && ps[i].addr.v4 + Pow2(m) == 0x1_0000_0000
    ensures |ps| - i == m
    decreases m
  {
    RampDownStep(ps, i, m);
    TileEnd(ps, 1, 0xFFFF_FFFE, i);
    if 1 < m {
      Pow2Monotone(1, m - 1);
      RampDown(ps, i + 1, m - 1);
    }
  }

  lemma {:induction false} RampCount(ps: seq<Prefix>, i: nat, k: nat)
    requires Tiles(ps, 1, 0xFFFF_FFFF) && AllLargest(ps, 0xFFFF_FFFE) && i < |ps|
    requires k <= 31 && ps[i].addr.v4 == Pow2(k)
    ensures |ps| - i == 62 - k
    decreases 31 - k
  {
    if k == 31 {
      Pow2Width4();
      RampDown(ps, i, 31);
    } else {
      RampUp(ps, i, k);
      RampCount(ps, i + 1, k + 1);
    }
  }

  /** The bound is sharp: 0.0.0.1 to 255.255.255.254 takes 62 blocks. */
  lemma SixtyTwoReached(ps: seq<Prefix>)
    requires Tiles(ps, 1, 0xFFFF_FFFF) && AllLargest(ps, 0xFFFF_FFFE)
    ensures |ps| == 62
  {
    RampCount(ps, 0, 0);
  }
}
