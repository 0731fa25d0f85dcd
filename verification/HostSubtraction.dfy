/**
 Removing one host from a prefix: the greedy split of an address range into prefixes, and why the
 split around a host yields exactly the sibling blocks on the path from the prefix to the host.
 */
module HostSubtraction {
  import opened Bits
  import opened Prefixes

  // ------------------------------------------------- greedy range decomposition

  /** A block of 2^k addresses can start at `lo` inside a range of `size` addresses. */
  predicate Fits(lo: nat, size: nat, k: nat) {
    Aligned(lo, k) && Pow2(k) <= size
  }

  predicate IsLargestFit(lo: nat, size: nat, k: nat) {
    k <= 32 && Fits(lo, size, k) && forall j :: k < j <= 32 ==> !Fits(lo, size, j)
  }

  lemma LargestFitExists(lo: nat, size: nat)
    requires size > 0
    ensures exists k :: IsLargestFit(lo, size, k)
  {
    var k := 32;
    while !Fits(lo, size, k)
      invariant 0 <= k <= 32 && forall j :: k < j <= 32 ==> !Fits(lo, size, j)
      decreases k
    {
      k := k - 1;
    }
    assert IsLargestFit(lo, size, k);
  }

  /** The exponent of the largest block that can start at `lo` inside `size` addresses. */
  ghost function LargestFit(lo: nat, size: nat): (k: nat)
    requires size > 0
    ensures IsLargestFit(lo, size, k)
  {
    LargestFitExists(lo, size);
    var k :| IsLargestFit(lo, size, k); k
  }

  /** Splits [lo, hi) by always taking the largest block that starts at `lo` and still fits. */
  ghost function GreedyRoutes(lo: nat, hi: nat): (rs: seq<Route>)
    requires lo <= hi <= 0x1_0000_0000
    decreases hi - lo
  {
    if lo == hi then []
    else
      var k := LargestFit(lo, hi - lo);
      [Route(lo, 32 - k)] + GreedyRoutes(lo + Pow2(k), hi)
  }

  lemma {:induction false} GreedyTiles(lo: nat, hi: nat)
    requires lo <= hi <= 0x1_0000_0000
    ensures Tiles(GreedyRoutes(lo, hi), lo, hi)
    decreases hi - lo
  {
    if lo < hi {
      var k := LargestFit(lo, hi - lo);
      GreedyTiles(lo + Pow2(k), hi);
      var rs := GreedyRoutes(lo, hi);
      assert rs[1..] == GreedyRoutes(lo + Pow2(k), hi);
    }
  }

  /** `trailingZeroBits`: counts by shifting right until the low bit is set. */
  method TrailingZeroBits(value: Address) returns (bits: nat)
    ensures bits <= 32 && Aligned(value, bits)
    ensures value == 0 ==> bits == 32
    ensures value != 0 ==> bits < 32 && !Aligned(value, bits + 1)
  {
    if value == 0 {
      AlignedZero(32);
      return 32;
    }
    Pow2Of32();
    bits := 0;
    var rest := value;
    while rest % 2 == 0
      invariant bits < 32 && 0 < rest < Pow2(32 - bits)
      invariant forall k: nat :: Aligned(value, bits + k) <==> Aligned(rest, k)
      decreases rest
    {
      ghost var shifted := bits;
      bits := bits + 1;
      forall k: nat
        ensures Aligned(value, bits + k) <==> Aligned(rest / 2, k)
      {
        assert Aligned(value, shifted + (k + 1)) <==> Aligned(rest, k + 1);
      }
      rest := rest / 2;
    }
    assert bits + 0 == bits;
    assert Aligned(value, bits + 0) <==> Aligned(rest, 0);
    assert Aligned(value, bits + 1) <==> Aligned(rest, 1);
  }

  lemma TrailingZerosBound(lo: nat, size: nat, bits: nat)
    requires bits < 32 ==> !Aligned(lo, bits + 1)
    ensures forall j :: bits < j <= 32 ==> !Fits(lo, size, j)
  {
    forall j | bits < j <= 32
      ensures !Fits(lo, size, j)
    {
      if Aligned(lo, j) { AlignedWeaken(lo, bits + 1, j); }
    }
  }

  /** The inner loop of `ipv4RangeToRoutes`: halve the block until it fits. */
  method FittingHostBits(current: Address, remaining: nat) returns (hostBits: nat)
    requires remaining > 0
    ensures hostBits == LargestFit(current, remaining) && hostBits <= 32 && Pow2(hostBits) <= remaining
  {
    hostBits := TrailingZeroBits(current);
    TrailingZerosBound(current, remaining, hostBits);
    var blockSize := Pow2(hostBits);
    while blockSize > remaining
      invariant hostBits <= 32 && blockSize == Pow2(hostBits) && Aligned(current, hostBits)
      invariant forall j :: hostBits < j <= 32 ==> !Fits(current, remaining, j)
      decreases hostBits
    {
      AlignedWeaken(current, hostBits - 1, hostBits);
      blockSize := blockSize / 2;
      hostBits := hostBits - 1;
    }
    assert Fits(current, remaining, hostBits);
  }

  lemma GreedyStep(routes: seq<Route>, lo: nat, hi: nat, k: nat)
    requires lo < hi <= 0x1_0000_0000 && k == LargestFit(lo, hi - lo)
    ensures routes + GreedyRoutes(lo, hi)
         == routes + [Route(lo, 32 - k)] + GreedyRoutes(lo + Pow2(k), hi)
  {
  }

  lemma GreedyNothing(hi: nat)
    requires hi <= 0x1_0000_0000
    ensures GreedyRoutes(hi, hi) == []
  {
  }

  /** `ipv4RangeToRoutes`: the loops compute the greedy decomposition of [start, end]. */
  method Ipv4RangeToRoutes(start: Address, end: Address) returns (routes: seq<Route>)
    ensures start <= end ==> routes == GreedyRoutes(start, end + 1)
    ensures start > end ==> routes == []
  {
    hide Aligned, Pow2, Fits, IsLargestFit, GreedyRoutes;
    GreedyNothing(end + 1);
    routes := [];
    var current: nat := start;
    while current <= end
      invariant start <= end ==> start <= current <= end + 1
      invariant start <= end ==> routes + GreedyRoutes(current, end + 1) == GreedyRoutes(start, end + 1)
      invariant start > end ==> current == start && routes == []
      decreases end + 1 - current
    {
      var hostBits := FittingHostBits(current, end - current + 1);
      GreedyStep(routes, current, end + 1, hostBits);
      routes := routes + [Route(current, 32 - hostBits)];
      current := current + Pow2(hostBits);
    }
  }

  // ---------------------------------------------------------- host subtraction

  ghost function SubtractHost(r: Route, host: Address): (rs: seq<Route>) {
    MaskedEnds(r);
    if !Contains(r, host) then [Network(r)]
    else GreedyRoutes(First(r), host) + GreedyRoutes(host + 1, First(r) + Size(r))
  }

  /** `subtractIpv4HostFromRoute` on a route that parses, with the masks of the code. */
  method SubtractIpv4HostFromRoute(r: Route, host: Address) returns (routes: seq<Route>)
    ensures routes == SubtractHost(r, host)
  {
    hide AlignDown, Aligned, Pow2, And, Or, Not, Ipv4Mask;
    MaskedEnds(r);
    var networkStart := MaskedStart(r);
    var networkEnd := MaskedEnd(r);
    if host < networkStart || host > networkEnd {
      return [Route(networkStart, r.prefix)];
    }
    routes := [];
    if host > networkStart {
      routes := Ipv4RangeToRoutes(networkStart, host - 1);
    }
    if host < networkEnd {
      var upper := Ipv4RangeToRoutes(host + 1, networkEnd);
      routes := routes + upper;
    }
  }

  /** The block next to the host on one level of the tree: free of it, while the parent has it. */
  predicate SiblingOf(q: Route, host: int) {
    Canonical(q) && q.prefix > 0 && !Contains(q, host) && Contains(Parent(q), host)
  }

  lemma SiblingByEnds(q: Route, host: int, parentStart: nat)
    requires Canonical(q) && q.prefix > 0 && !Contains(q, host)
    requires Aligned(parentStart, HostBits(q) + 1)
    requires parentStart <= q.address < parentStart + Pow2(HostBits(q) + 1)
    requires parentStart <= host < parentStart + Pow2(HostBits(q) + 1)
    ensures SiblingOf(q, host)
  {
    AlignDownUnique(q.address, parentStart, HostBits(q) + 1);
  }

  /** All routes are siblings of the host with fewer than `m` host bits. */
  predicate AllSiblings(rs: seq<Route>, host: int, m: nat) {
    forall q :: q in rs ==> SiblingOf(q, host) && HostBits(q) < m
  }

  lemma AllSiblingsCons(q: Route, rs: seq<Route>, host: int, k: nat, m: nat)
    requires SiblingOf(q, host) && HostBits(q) < m && AllSiblings(rs, host, k) && k <= m
    ensures AllSiblings([q] + rs, host, m)
  {
    hide SiblingOf;
  }

  /** Below the host the greedy blocks are the set bits of the distance, largest first. */
  lemma {:induction false} LeftOfHost(lo: nat, host: Address, m: nat)
    requires m <= 32 && Aligned(lo, m) && lo <= host < lo + Pow2(m)
    ensures |GreedyRoutes(lo, host)| == PopCount(host - lo)
    ensures AllSiblings(GreedyRoutes(lo, host), host, m)
    decreases host - lo
  {
    hide Aligned, AlignDown, Pow2, SiblingOf, Fits;
    if lo < host {
      var k := LargestFit(lo, host - lo);
      LeftStep(lo, host, m, k);
      LeftOfHost(lo + Pow2(k), host, k);
      AllSiblingsCons(Route(lo, 32 - k), GreedyRoutes(lo + Pow2(k), host), host, k, m);
      PopCountHighBit(k, host - lo - Pow2(k));
    }
  }

  lemma LeftStep(lo: nat, host: Address, m: nat, k: nat)
    requires m <= 32 && Aligned(lo, m) && lo < host < lo + Pow2(m)
    requires k == LargestFit(lo, host - lo)
    ensures k < m && Aligned(lo + Pow2(k), k) && lo + Pow2(k) <= host < lo + 2 * Pow2(k)
    ensures SiblingOf(Route(lo, 32 - k), host)
  {
    if k >= m { Pow2Monotone(m, k); }
    AlignedWeaken(lo, k + 1, m);
    assert !Fits(lo, host - lo, k + 1);
    AlignedPow2(k, k);
    AlignedAdd(lo, Pow2(k), k);
    var q := Route(lo, 32 - k);
    assert Network(q) == q;
    SiblingByEnds(q, host, lo);
  }

  /** Above the host they are the set bits of the distance to the end, smallest first. */
  lemma {:induction false} RightOfHost(lo: nat, hi: nat, host: Address, j: nat, m: nat)
    requires m <= 32 && lo <= hi <= 0x1_0000_0000 && hi - lo < Pow2(m)
    requires Aligned(hi, m) && Aligned(lo, j) && lo - Pow2(j) <= host < lo
    ensures |GreedyRoutes(lo, hi)| == PopCount(hi - lo)
    ensures AllSiblings(GreedyRoutes(lo, hi), host, m)
    decreases hi - lo
  {
    hide Aligned, AlignDown, Pow2, SiblingOf;
    if lo < hi {
      var k := LargestFit(lo, hi - lo);
      RightLevel(lo, hi, j, m, k);
      RightStep(lo, host, j, k);
      RightOfHost(lo + Pow2(k), hi, host, k + 1, m);
      AllSiblingsCons(Route(lo, 32 - k), GreedyRoutes(lo + Pow2(k), hi), host, m, m);
      RightCount(lo, hi, m, k);
    }
  }

  lemma RightCount(lo: nat, hi: nat, m: nat, k: nat)
    requires k < m && Aligned(hi, m) && Aligned(lo + Pow2(k), k + 1) && lo + Pow2(k) <= hi
    ensures PopCount(hi - lo) == PopCount(hi - lo - Pow2(k)) + 1
  {
    AlignedWeaken(hi, k + 1, m);
    AlignedAdd(hi, lo + Pow2(k), k + 1);
    PopCountLowBit(k, hi - lo - Pow2(k));
  }

  /** Before an aligned end, the largest fit is the number of trailing zeros of the start. */
  lemma RightLevel(lo: nat, hi: nat, j: nat, m: nat, k: nat)
    requires m <= 32 && lo < hi && hi - lo < Pow2(m) && Aligned(hi, m) && Aligned(lo, j)
    requires k == LargestFit(lo, hi - lo)
    ensures j <= k < m && !Aligned(lo, k + 1) && lo + Pow2(k) <= hi
  {
    NotAlignedBefore(lo, hi, m);
    if j >= m { AlignedWeaken(lo, m, j); }
    AlignedWeaken(hi, j, m);
    AlignedGap(lo, hi, j);
    assert Fits(lo, hi - lo, j);
    if k >= m { Pow2Monotone(m, k); }
    if Aligned(lo, k + 1) {
      AlignedWeaken(hi, k + 1, m);
      AlignedGap(lo, hi, k + 1);
      assert Fits(lo, hi - lo, k + 1);
    }
  }

  lemma RightStep(lo: nat, host: Address, j: nat, k: nat)
    requires j <= k < 32 && lo < 0x1_0000_0000 && lo - Pow2(j) <= host < lo
    requires Aligned(lo, k) && !Aligned(lo, k + 1)
    ensures Aligned(lo + Pow2(k), k + 1) && lo + Pow2(k) - Pow2(k + 1) <= host
    ensures SiblingOf(Route(lo, 32 - k), host)
  {
    OddMultiple(lo, k);
    Pow2Monotone(j, k);
    var q := Route(lo, 32 - k);
    assert Network(q) == q;
    SiblingByEnds(q, host, lo - Pow2(k));
  }

  lemma NotAlignedBefore(lo: nat, hi: nat, m: nat)
    requires lo < hi && hi - lo < Pow2(m) && Aligned(hi, m)
    ensures !Aligned(lo, m)
  {
    if Aligned(lo, m) { AlignedGap(lo, hi, m); }
  }

  lemma CoversConcat(left: seq<Route>, right: seq<Route>)
    ensures forall a: int :: Covers(left + right, a) <==> Covers(left, a) || Covers(right, a)
  {
    forall a: int
      ensures Covers(left + right, a) <==> Covers(left, a) || Covers(right, a)
    {
      var both := left + right;
      if Covers(left, a) {
        var i :| 0 <= i < |left| && Contains(left[i], a);
        assert Contains(both[i], a);
      }
      if Covers(right, a) {
        var i :| 0 <= i < |right| && Contains(right[i], a);
        assert Contains(both[|left| + i], a);
      }
      if Covers(both, a) {
        var i :| 0 <= i < |both| && Contains(both[i], a);
        if i < |left| { assert Contains(left[i], a); } else { assert Contains(right[i - |left|], a); }
      }
    }
  }

  /** The lower and upper half around a contained host: tilings of siblings, counted by bits. */
  lemma LowerHalf(r: Route, host: Address)
    requires Contains(r, host)
    ensures var left := GreedyRoutes(First(r), host);
      && Tiles(left, First(r), host) && AllSiblings(left, host, HostBits(r))
      && |left| == PopCount(host - First(r))
  {
    hide Aligned, AlignDown, Pow2, Tiles, AllSiblings, GreedyRoutes, PopCount;
    LeftOfHost(First(r), host, HostBits(r));
    GreedyTiles(First(r), host);
  }

  lemma UpperHalf(r: Route, host: Address)
    requires Contains(r, host)
    ensures First(r) + Size(r) <= 0x1_0000_0000
    ensures var right := GreedyRoutes(host + 1, First(r) + Size(r));
      && Tiles(right, host + 1, First(r) + Size(r)) && AllSiblings(right, host, HostBits(r))
      && |right| == PopCount(Size(r) - 1 - (host - First(r)))
  {
    hide Aligned, AlignDown, Pow2, Tiles, AllSiblings, GreedyRoutes, PopCount;
    MaskedEnds(r);
    var hi, m := First(r) + Size(r), HostBits(r);
    AlignedPow2(m, m);
    AlignedAdd(First(r), Pow2(m), m);
    AlignedAny(host + 1);
    RightOfHost(host + 1, hi, host, 0, m);
    GreedyTiles(host + 1, hi);
  }

  lemma HalvesPartition(left: seq<Route>, right: seq<Route>, r: Route, host: Address)
    requires Tiles(left, First(r), host) && Tiles(right, host + 1, First(r) + Size(r))
    requires AllSiblings(left, host, HostBits(r)) && AllSiblings(right, host, HostBits(r))
    ensures PairwiseDisjoint(left + right)
    ensures forall a: int :: Covers(left + right, a) <==> Contains(r, a) && a != host
    ensures forall q :: q in left + right ==> SiblingOf(q, host) && Within(q, r)
  {
    hide AlignDown, Aligned, Pow2, Tiles, SiblingOf, Parent, Covers;
    TilesCover(left, First(r), host);
    TilesCover(right, host + 1, First(r) + Size(r));
    CoversConcat(left, right);
    TilesDisjoint(left, First(r), host, right, host + 1, First(r) + Size(r));
    forall q | q in left + right
      ensures SiblingOf(q, host) && Within(q, r)
    {
      SiblingWithin(left + right, q, r, host);
    }
  }

  /**
   Subtracting a contained host from a /p yields exactly 32-p canonical, pairwise disjoint routes;
   together they hold every address of the /p but the host.
   */
  lemma SubtractHostPartition(r: Route, host: Address)
    requires Contains(r, host)
    ensures |SubtractHost(r, host)| == 32 - r.prefix
    ensures PairwiseDisjoint(SubtractHost(r, host))
    ensures forall a: int :: Covers(SubtractHost(r, host), a) <==> Contains(r, a) && a != host
    ensures forall q :: q in SubtractHost(r, host) ==> SiblingOf(q, host) && Within(q, r)
  {
    hide AlignDown, Aligned, Pow2, Tiles, AllSiblings, SiblingOf, GreedyRoutes, PopCount;
    LowerHalf(r, host);
    UpperHalf(r, host);
    PopCountComplement(HostBits(r), host - First(r));
    HalvesPartition(GreedyRoutes(First(r), host), GreedyRoutes(host + 1, First(r) + Size(r)), r, host);
  }

  lemma SiblingWithin(all: seq<Route>, q: Route, r: Route, host: int)
    requires q in all && HostBits(q) < HostBits(r)
    requires forall a: int :: Covers(all, a) ==> Contains(r, a)
    ensures Within(q, r)
  {
    var i :| 0 <= i < |all| && all[i] == q;
    ContainsOwnAddress(q);
    assert Contains(all[i], q.address);
    assert Covers(all, q.address);
  }

  lemma TilesDisjoint(left: seq<Route>, a: nat, b: nat, right: seq<Route>, c: nat, d: nat)
    requires Tiles(left, a, b) && Tiles(right, c, d) && b <= c
    ensures PairwiseDisjoint(left + right)
  {
    TilesCover(left, a, b);
    TilesCover(right, c, d);
    var all := left + right;
    forall i, j | 0 <= i < j < |all|
      ensures Disjoint(all[i], all[j])
    {
      if i < |left| <= j {
        BlockInside(left, i, a, b);
        BlockInside(right, j - |left|, c, d);
      }
    }
  }

  lemma BlockInside(rs: seq<Route>, i: nat, lo: nat, hi: nat)
    requires i < |rs| && Tiles(rs, lo, hi)
    ensures lo <= First(rs[i]) && First(rs[i]) + Size(rs[i]) <= hi
  {
    TilesCover(rs, lo, hi);
    assert Contains(rs[i], First(rs[i])) && Contains(rs[i], First(rs[i]) + Size(rs[i]) - 1);
    assert Covers(rs, First(rs[i])) && Covers(rs, First(rs[i]) + Size(rs[i]) - 1);
  }

  /** ... and those routes are precisely the sibling blocks of the host inside the /p. */
  lemma SubtractHostComplete(r: Route, host: Address, q: Route)
    requires Contains(r, host)
    ensures q in SubtractHost(r, host) <==> SiblingOf(q, host) && q.prefix > r.prefix && Within(q, r)
  {
    SubtractHostPartition(r, host);
    var all := SubtractHost(r, host);
    if q in all {
      if q.prefix <= r.prefix {
        Nested(r, q, q.address);
        assert Contains(q, host);
      }
    } else if SiblingOf(q, host) && q.prefix > r.prefix && Within(q, r) {
      ContainsOwnAddress(q);
      assert Covers(all, q.address);
      var i :| 0 <= i < |all| && Contains(all[i], q.address);
      SiblingsMeet(q, all[i], host, q.address);
    }
  }

  lemma SiblingsMeet(q: Route, s: Route, host: int, a: int)
    requires SiblingOf(q, host) && SiblingOf(s, host) && Contains(q, a) && Contains(s, a)
    ensures q == s
  {
    if q.prefix > s.prefix { NestedParent(q, s, a); }
    else if s.prefix > q.prefix { NestedParent(s, q, a); }
    else { CanonicalEqual(q, s, a); }
  }
}
