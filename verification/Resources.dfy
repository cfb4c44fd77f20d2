/** Published resources and the DNS host records folded into them (resource.go). */
module Resources {
  import opened Netip

  type Uint16 = v: nat | v < 0x1_0000

  datatype PortRange = PortRange(start: Uint16, end: Uint16) {
    predicate Contains(port: Uint16) {
      start <= port <= end
    }
  }

  const WHOLE_PORT_RANGE := PortRange(1, 65535)

  datatype ResourceEntry = ResourceEntry(domain: string, prefixes: seq<Prefix>, ports: PortRange)
  datatype Resource = Resource(id: string, name: string, entries: seq<ResourceEntry>)
  datatype DnsRecord = DnsRecord(resourceID: string, domain: string, address: Addr)
  datatype DnsHost = DnsHost(domain: string, addresses: seq<Addr>)

  // ---------------------------------------------------------------- domains

  /** Unicode White_Space, which `strings.TrimSpace` cuts. */
  predicate IsSpace(c: char) {
    || '\t' <= c <= '\r' || c == ' ' || c == '\U{85}' || c == '\U{A0}' || c == '\U{1680}'
    || '\U{2000}' <= c <= '\U{200A}' || c == '\U{2028}' || c == '\U{2029}' || c == '\U{202F}'
    || c == '\U{205F}' || c == '\U{3000}'
  }

  predicate IsDot(c: char) {
    c == '.'
  }

  function TrimLeft(s: string, cut: char -> bool): string {
    if s != [] && cut(s[0]) then TrimLeft(s[1..], cut) else s
  }

  function TrimRight(s: string, cut: char -> bool): string {
    if s != [] && cut(s[|s| - 1]) then TrimRight(s[..|s| - 1], cut) else s
  }

  function Trim(s: string, cut: char -> bool): string {
    TrimRight(TrimLeft(s, cut), cut)
  }

  function LowerChar(c: char): char {
    if 'A' <= c <= 'Z' then c + ' ' else c
  }

  function ToLower(s: string): string {
    seq(|s|, i requires 0 <= i < |s| => LowerChar(s[i]))
  }

  /** `canonicalResourceDomain` (resource.go:356-358). */
  function CanonicalDomain(domain: string): string {
    ToLower(Trim(Trim(domain, IsSpace), IsDot))
  }

  /** Neither end of the string is cut. */
  predicate NoEdge(s: string, cut: char -> bool) {
    s != [] ==> !cut(s[0]) && !cut(s[|s| - 1])
  }

  lemma {:induction false} TrimLeftEdge(s: string, cut: char -> bool)
    ensures TrimLeft(s, cut) != [] ==> !cut(TrimLeft(s, cut)[0])
    ensures |TrimLeft(s, cut)| <= |s|
    ensures |TrimLeft(s, cut)| == |s| ==> TrimLeft(s, cut) == s
  {
    if s != [] && cut(s[0]) {
      TrimLeftEdge(s[1..], cut);
    }
  }

  lemma {:induction false} TrimRightEdge(s: string, cut: char -> bool)
    ensures var t := TrimRight(s, cut);
            |t| <= |s| && t == s[..|t|] && (t != [] ==> !cut(t[|t| - 1]))
  {
    if s != [] && cut(s[|s| - 1]) {
      TrimRightEdge(s[..|s| - 1], cut);
    }
  }

  /** Trimming leaves no edge, and changes exactly the strings that have one. */
  lemma TrimFixed(s: string, cut: char -> bool)
    ensures NoEdge(Trim(s, cut), cut) && |Trim(s, cut)| <= |s|
    ensures Trim(s, cut) == s <==> NoEdge(s, cut)
  {
    TrimLeftEdge(s, cut);
    TrimRightEdge(TrimLeft(s, cut), cut);
  }

  predicate AllCut(s: string, cut: char -> bool) {
    forall k :: 0 <= k < |s| ==> cut(s[k])
  }

  lemma {:induction false} TrimLeftSlice(s: string, cut: char -> bool) returns (n: nat)
    ensures n <= |s| && TrimLeft(s, cut) == s[n..] && AllCut(s[..n], cut)
  {
    n := 0;
    if s != [] && cut(s[0]) {
      var m := TrimLeftSlice(s[1..], cut);
      n := m + 1;
      assert s[1..][m..] == s[n..];
      forall k | 0 <= k < n ensures cut(s[..n][k]) {
        assert k > 0 ==> s[..n][k] == s[1..][..m][k - 1];
      }
    }
  }

  lemma {:induction false} TrimRightSlice(s: string, cut: char -> bool) returns (n: nat)
    ensures n <= |s| && TrimRight(s, cut) == s[..n] && AllCut(s[n..], cut)
  {
    n := |s|;
    if s != [] && cut(s[|s| - 1]) {
      var init := s[..|s| - 1];
      n := TrimRightSlice(init, cut);
      assert init[..n] == s[..n];
      forall k | 0 <= k < |s| - n ensures cut(s[n..][k]) {
        assert k < |s| - n - 1 ==> s[n..][k] == init[n..][k];
      }
    }
  }

  /** What trimming leaves is what lies between two stretches that are cut. */
  lemma TrimSlice(s: string, cut: char -> bool) returns (m: nat, n: nat)
    ensures m <= n <= |s| && Trim(s, cut) == s[m..n] && AllCut(s[..m], cut) && AllCut(s[n..], cut)
  {
    m := TrimLeftSlice(s, cut);
    var k := TrimRightSlice(s[m..], cut);
    n := m + k;
    assert s[m..][..k] == s[m..n] && s[m..][k..] == s[n..];
  }

  lemma LowerMeans(s: string, i: nat)
    requires i < |s|
    ensures ToLower(s)[i] == if 65 <= s[i] as int <= 90 then (s[i] as int + 32) as char else s[i]
  {}

  /** `domain[m..n]` is what is left of a domain when spaces, then dots, are cut at both ends until
      something else stands there. */
  ghost predicate IsCore(domain: string, a: nat, m: nat, n: nat, b: nat) {
    && a <= m <= n <= b <= |domain|
    && AllCut(domain[..a], IsSpace) && AllCut(domain[b..], IsSpace)
    && (a < b ==> !IsSpace(domain[a]) && !IsSpace(domain[b - 1]))
    && AllCut(domain[a..m], IsDot) && AllCut(domain[n..b], IsDot)
    && (m < n ==> !IsDot(domain[m]) && !IsDot(domain[n - 1]))
  }

  /** Trimming leaves the part between two stretches that are cut, with nothing to cut at its ends. */
  lemma TrimMeans(s: string, cut: char -> bool) returns (m: nat, n: nat)
    ensures m <= n <= |s| && Trim(s, cut) == s[m..n] && AllCut(s[..m], cut) && AllCut(s[n..], cut)
    ensures m < n ==> !cut(s[m]) && !cut(s[n - 1])
  {
    m, n := TrimSlice(s, cut);
    TrimFixed(s, cut);
    if m < n {
      assert s[m..n][0] == s[m] && s[m..n][n - m - 1] == s[n - 1];
    }
  }

  lemma SliceOfSlice(s: string, a: nat, b: nat, k: nat, l: nat)
    requires a <= b <= |s| && k <= l <= b - a
    ensures s[a..b][k..l] == s[a + k..a + l]
  {
    forall i | 0 <= i < l - k ensures s[a..b][k..l][i] == s[a + k..a + l][i] {
      assert s[a..b][k..l][i] == s[a..b][k + i] == s[a + k + i];
    }
  }

  lemma TrimmedCore(domain: string) returns (a: nat, m: nat, n: nat, b: nat)
    ensures IsCore(domain, a, m, n, b) && Trim(Trim(domain, IsSpace), IsDot) == domain[m..n]
  {
    a, b := TrimMeans(domain, IsSpace);
    var k, l := TrimMeans(domain[a..b], IsDot);
    m, n := a + k, a + l;
    SliceOfSlice(domain, a, b, k, l);
    SliceOfSlice(domain, a, b, 0, k);
    SliceOfSlice(domain, a, b, l, b - a);
    assert domain[a..b][..k] == domain[a..b][0..k] && domain[a..b][l..] == domain[a..b][l..b - a];
    assert k < l ==> domain[a..b][k] == domain[m] && domain[a..b][l - 1] == domain[n - 1];
  }

  /** What canonicalising a domain means: its core, with A to Z lowered. */
  lemma CanonicalMeans(domain: string) returns (a: nat, m: nat, n: nat, b: nat)
    ensures IsCore(domain, a, m, n, b) && CanonicalDomain(domain) == ToLower(domain[m..n])
    ensures forall i :: 0 <= i < n - m ==>
              var c := domain[m..n][i] as int;
              CanonicalDomain(domain)[i] == if 65 <= c <= 90 then (c + 32) as char else c as char
  {
    a, m, n, b := TrimmedCore(domain);
    forall i | 0 <= i < n - m
      ensures var c := domain[m..n][i] as int;
              ToLower(domain[m..n])[i] == if 65 <= c <= 90 then (c + 32) as char else c as char
    {
      LowerMeans(domain[m..n], i);
    }
  }

  /** A space that only dots separate from the start or from the end. */
  ghost predicate SpaceBehindDots(s: string) {
    exists i :: 0 <= i < |s| && IsSpace(s[i]) && (AllCut(s[..i], IsDot) || AllCut(s[i + 1..], IsDot))
  }

  /** Cutting the dots uncovers exactly such a space. */
  lemma DotsUncover(s: string)
    ensures NoEdge(Trim(s, IsDot), IsSpace) <==> !SpaceBehindDots(s)
  {
    TrimFixed(s, IsDot);
    var m, n := TrimSlice(s, IsDot);
    var t := s[m..n];
    assert t != [] ==> t[0] == s[m] && t[|t| - 1] == s[n - 1];
    if t != [] && IsSpace(t[0]) {
      assert IsSpace(s[m]) && AllCut(s[..m], IsDot);
    }
    if t != [] && IsSpace(t[|t| - 1]) {
      assert s[n - 1 + 1..] == s[n..];
      assert IsSpace(s[n - 1]) && AllCut(s[n - 1 + 1..], IsDot);
    }
    if SpaceBehindDots(s) {
      var i :| 0 <= i < |s| && IsSpace(s[i]) && (AllCut(s[..i], IsDot) || AllCut(s[i + 1..], IsDot));
      forall k | 0 <= k < m ensures IsDot(s[k]) {
        assert s[..m][k] == s[k];
      }
      forall k | n <= k < |s| ensures IsDot(s[k]) {
        assert s[n..][k - n] == s[k];
      }
      assert m < i ==> s[..i][m] == s[m];
      assert i < n - 1 ==> s[i + 1..][n - 1 - (i + 1)] == s[n - 1];
    }
  }

  /** Canonicalising twice is canonicalising once if and only if the domain, its outer spaces
      trimmed, has no space that only dots separate from an end. */
  lemma CanonicalTwice(domain: string)
    ensures CanonicalDomain(CanonicalDomain(domain)) == CanonicalDomain(domain)
            <==> !SpaceBehindDots(Trim(domain, IsSpace))
  {
    DotsUncover(Trim(domain, IsSpace));
    var t := Trim(Trim(domain, IsSpace), IsDot);
    var c := ToLower(t);
    var u := Trim(c, IsSpace);
    TrimFixed(Trim(domain, IsSpace), IsDot);
    TrimFixed(c, IsSpace);
    TrimFixed(u, IsDot);
    assert NoEdge(c, IsSpace) <==> NoEdge(t, IsSpace);
    assert NoEdge(c, IsDot);
    if NoEdge(c, IsSpace) {
      assert Trim(u, IsDot) == c;
      assert ToLower(c) == c;
    } else {
      assert |u| < |c| by {
        TrimLeftEdge(c, IsSpace);
        TrimRightEdge(TrimLeft(c, IsSpace), IsSpace);
      }
      assert |ToLower(Trim(u, IsDot))| <= |u|;
    }
  }

  /** Domains that change once more: the dot covers a space. */
  lemma SpaceUncovered()
    ensures CanonicalDomain(". a") == " a" && CanonicalDomain(" . a") == " a" && CanonicalDomain(" a") == "a"
    ensures SpaceBehindDots(Trim(". a", IsSpace))
  {
    assert TrimLeft(" a", IsSpace) == "a" && TrimLeft(" . a", IsSpace) == ". a" && TrimLeft(". a", IsDot) == " a" by {
      assert " a"[1..] == "a" && " . a"[1..] == ". a" && ". a"[1..] == " a";
      assert TrimLeft("a", IsSpace) == "a" && TrimLeft(". a", IsSpace) == ". a" && TrimLeft(" a", IsDot) == " a";
    }
    assert Trim(" a", IsSpace) == "a" && Trim("a", IsDot) == "a" && ToLower("a") == "a";
    assert Trim(". a", IsSpace) == ". a" && Trim(". a", IsDot) == " a" && ToLower(" a") == " a";
    var s := ". a";
    assert IsSpace(s[1]) && AllCut(s[..1], IsDot);
  }
}
