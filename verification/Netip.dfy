/** Addresses and prefixes as `net/netip` defines them: a prefix is an address, not
    necessarily masked, and a bit count (section 3.1 of RFC 4632). Zones are not modelled. */
module Netip {
  import opened Bits

  type Uint32 = v: nat | v < 0x1_0000_0000
  type Uint128 = v: nat | v < 0x1_0000_0000_0000_0000_0000_0000_0000_0000

  datatype Addr = NoAddr | V4(v4: Uint32) | V6(v6: Uint128) {
    function Value(): nat {
      match this
      case NoAddr => 0
      case V4(v) => v
      case V6(v) => v
    }

    /** `Addr.BitLen`, zero for the zero address. */
    function Width(): nat {
      match this
      case NoAddr => 0
      case V4(_) => 32
      case V6(_) => 128
    }

    predicate IsUnspecified() {
      this == V4(0) || this == V6(0)
    }

    /** `Addr.Compare`: shorter families first, then by value. */
    predicate AtMost(that: Addr) {
      Width() < that.Width() || (Width() == that.Width() && Value() <= that.Value())
    }
  }

  datatype Prefix = Prefix(addr: Addr, bits: int) {
    predicate IsValid() {
      addr != NoAddr && 0 <= bits <= addr.Width()
    }

    function HostBits(): nat
      requires IsValid()
    {
      addr.Width() - bits
    }

    predicate IsSingleIP() {
      IsValid() && bits == addr.Width()
    }

    /** `Prefix.Contains`: same family, and equal once the host bits are shifted out. */
    predicate Contains(a: Addr) {
      IsValid() && a.Width() == addr.Width() &&
      Shift(addr.Value(), HostBits()) == Shift(a.Value(), HostBits())
    }

    /** `Prefix.Masked`: the zero prefix for an invalid one, else the host bits cleared. */
    function Masked(): (m: Prefix)
      ensures m.bits == if IsValid() then bits else -1
      ensures IsValid() ==> m.IsValid() && m.addr.Width() == addr.Width()
    {
      if !IsValid() then
        Prefix(NoAddr, -1)
      else
        var base := Base(addr.Value(), HostBits());
        Prefix(if addr.V4? then V4(base) else V6(base), bits)
    }

    /** `Prefix.Overlaps`: the coarser of the two masks makes the addresses equal. */
    predicate Overlaps(that: Prefix) {
      IsValid() && that.IsValid() && addr.Width() == that.addr.Width() &&
      var host := addr.Width() - (if bits < that.bits then bits else that.bits);
      Shift(addr.Value(), host) == Shift(that.addr.Value(), host)
    }

    /** Syntactic containment of `that` in this prefix. */
    predicate Encloses(that: Prefix) {
      that.IsValid() && Contains(that.addr) && bits <= that.bits
    }

    /** The sort order of `mergePrefixes`: by address, then by bit count. */
    predicate AtMost(that: Prefix) {
      addr.AtMost(that.addr) && (addr == that.addr ==> bits <= that.bits)
    }
  }

  /** `netip.PrefixFrom`: an impossible bit count gives an invalid prefix. */
  function PrefixFrom(addr: Addr, bits: int): Prefix {
    Prefix(addr, if addr != NoAddr && 0 <= bits <= addr.Width() then bits else -1)
  }

  /** The prefix that holds one address. */
  function Single(addr: Addr): Prefix {
    PrefixFrom(addr, addr.Width())
  }

  /** Some prefix of the list contains the address. */
  ghost predicate Covered(prefixes: seq<Prefix>, a: Addr) {
    exists i :: 0 <= i < |prefixes| && prefixes[i].Contains(a)
  }

  lemma CoveredAppend(ps: seq<Prefix>, p: Prefix, a: Addr)
    ensures Covered(ps + [p], a) <==> Covered(ps, a) || p.Contains(a)
  {
    forall i | 0 <= i < |ps| && ps[i].Contains(a) ensures Covered(ps + [p], a) {
      assert (ps + [p])[i] == ps[i];
    }
    if p.Contains(a) {
      assert (ps + [p])[|ps|] == p;
    }
  }

  lemma Pow2Width4()
    ensures Pow2(32) == 0x1_0000_0000
  {
    assert Pow2(8) == 256;
    Pow2Sum(8, 8);
    Pow2Sum(16, 16);
  }

  lemma Pow2Width6()
    ensures Pow2(128) == 0x1_0000_0000_0000_0000_0000_0000_0000_0000
  {
    Pow2Width4();
    Pow2Sum(32, 32);
    Pow2Sum(64, 64);
  }

  /** Equal families and equal values make equal addresses. */
  lemma SameAddr(a: Addr, b: Addr)
    requires a.Width() == b.Width() && a.Value() == b.Value()
    ensures a == b
  {}

  lemma EnclosesContains(p: Prefix, q: Prefix, a: Addr)
    requires p.Encloses(q) && q.Contains(a)
    ensures p.Contains(a)
  {
    ShiftCoarsens(q.addr.Value(), a.Value(), q.HostBits(), p.HostBits());
  }

  lemma EnclosesTransitive(p: Prefix, q: Prefix, r: Prefix)
    requires p.Encloses(q) && q.Encloses(r)
    ensures p.Encloses(r)
  {
    EnclosesContains(p, q, r.addr);
  }

  /** Two prefixes that share an address are nested; the one with fewer bits is outside. */
  lemma Laminar(p: Prefix, q: Prefix, a: Addr)
    requires p.Contains(a) && q.Contains(a)
    requires p.bits <= q.bits
    ensures p.Encloses(q)
  {
    ShiftCoarsens(q.addr.Value(), a.Value(), q.HostBits(), p.HostBits());
  }

  /** `Overlaps` means a shared address, and with the bit test of the source it means nesting. */
  lemma OverlapsMeansShared(p: Prefix, q: Prefix)
    ensures p.Overlaps(q) <==> exists a :: p.Contains(a) && q.Contains(a)
    ensures p.Overlaps(q) && p.bits <= q.bits <==> p.Encloses(q)
  {
    if p.Overlaps(q) {
      if p.bits <= q.bits {
        assert p.Contains(q.addr) && q.Contains(q.addr);
      } else {
        assert p.Contains(p.addr) && q.Contains(p.addr);
      }
    }
    forall a | p.Contains(a) && q.Contains(a)
      ensures p.Overlaps(q)
    {
      if p.bits <= q.bits {
        Laminar(p, q, a);
      } else {
        Laminar(q, p, a);
      }
    }
  }

  /** Masking changes neither the addresses a prefix contains nor what encloses it. */
  lemma MaskedSame(p: Prefix, a: Addr)
    ensures p.Masked().Contains(a) <==> p.Contains(a)
  {
    if p.IsValid() {
      BaseAligned(p.addr.Value(), p.HostBits());
      ShiftSame(p.Masked().addr.Value(), a.Value(), p.HostBits());
      ShiftSame(p.addr.Value(), a.Value(), p.HostBits());
    }
  }

  /** The first value of a prefix's block, and the number of values in it. */
  function Low(p: Prefix): nat
    requires p.IsValid()
  {
    Base(p.addr.Value(), p.HostBits())
  }

  function Size(p: Prefix): nat
    requires p.IsValid()
  {
    Pow2(p.HostBits())
  }

  /** The addresses of a valid prefix form the interval of its block. */
  lemma ContainsInterval(p: Prefix, a: Addr)
    requires p.IsValid()
    ensures p.Contains(a) <==> a.Width() == p.addr.Width() && Low(p) <= a.Value() < Low(p) + Size(p)
  {
    ShiftSame(p.addr.Value(), a.Value(), p.HostBits());
  }

  function AddrOf(width: nat, value: nat): (a: Addr)
    requires width == 32 || width == 128
    requires value < Pow2(width)
    ensures a.Width() == width && a.Value() == value
  {
    Pow2Width4();
    Pow2Width6();
    if width == 32 then V4(value) else V6(value)
  }

  lemma BlockHolds(p: Prefix, value: nat) returns (a: Addr)
    requires p.IsValid() && Low(p) <= value < Low(p) + Size(p)
    ensures p.Contains(a) && a.Value() == value
  {
    Pow2Width4();
    Pow2Width6();
    BaseInSpace(p.addr.Value(), p.HostBits(), p.addr.Width());
    a := AddrOf(p.addr.Width(), value);
    ContainsInterval(p, a);
  }

  /** A block has an address outside every block of a longer prefix. */
  lemma EscapesLonger(p: Prefix, q: Prefix) returns (a: Addr)
    requires p.IsValid() && q.IsValid() && q.addr.Width() == p.addr.Width()
    requires q.bits < p.bits
    ensures q.Contains(a) && !p.Contains(a)
  {
    Pow2Monotone(p.HostBits(), q.HostBits());
    a := BlockHolds(q, Low(q));
    var b := BlockHolds(q, Low(q) + Size(p));
    ContainsInterval(p, a);
    ContainsInterval(p, b);
    if p.Contains(a) {
      a := b;
    }
  }

  /** Syntactic enclosure of valid prefixes is inclusion of their address sets. */
  lemma EnclosesIsInclusion(p: Prefix, q: Prefix)
    requires q.IsValid()
    ensures p.Encloses(q) <==> forall a :: q.Contains(a) ==> p.Contains(a)
  {
    if p.Encloses(q) {
      forall a | q.Contains(a) ensures p.Contains(a) {
        EnclosesContains(p, q, a);
      }
    } else if p.Contains(q.addr) {
      var a := EscapesLonger(p, q);
    } else {
      assert q.Contains(q.addr);
    }
  }
}
