/** IPv4 prefixes as blocks of addresses (prefix notation of section 3.1 of RFC 4632). */
module Prefixes {
  import opened Bits

  type Address = a: nat | a < 0x1_0000_0000
  type PrefixLength = p: nat | p <= 32

  /** A parsed route. Bits of `address` below the prefix may be set. */
  datatype Route = Route(address: Address, prefix: PrefixLength)

  // ------------------------------------------------- masks, as the code has them

  function Ipv4Mask(p: PrefixLength): (m: nat) {
    Pow2Of32();
    if p == 0 then 0 else Shl(32, 0xffff_ffff, 32 - p)
  }

  function MaskedStart(r: Route): nat {
    And(32, r.address, Ipv4Mask(r.prefix))
  }

  function MaskedEnd(r: Route): nat {
    Or(32, MaskedStart(r), Not(32, Ipv4Mask(r.prefix)))
  }

  // ------------------------------------------------------- blocks of addresses

  function HostBits(r: Route): (k: nat)
    ensures k <= 32
  {
    32 - r.prefix
  }

  function First(r: Route): (a: Address) {
    AlignDown(r.address, HostBits(r))
  }

  function Size(r: Route): (n: nat) {
    Pow2(HostBits(r))
  }

  predicate Contains(r: Route, a: int) {
    First(r) <= a < First(r) + Size(r)
  }

  /** No address bit below the prefix is set. */
  predicate Canonical(r: Route) {
    Aligned(r.address, HostBits(r))
  }

  function Network(r: Route): (n: Route)
    ensures Canonical(n) && n.prefix == r.prefix && First(n) == First(r)
    ensures Canonical(r) ==> n == r
  {
    var n := Route(First(r), r.prefix);
    AlignDownUnique(n.address, n.address, HostBits(n));
    assert Canonical(r) ==> n == r by {
      if Canonical(r) { AlignDownUnique(r.address, r.address, HostBits(r)); }
    }
    n
  }

  lemma NetworkSame(r: Route, a: int)
    ensures Contains(Network(r), a) <==> Contains(r, a)
  {
  }

  /** The mask expressions of the code compute the two ends of the block, at every prefix length. */
  lemma MaskedEnds(r: Route)
    ensures MaskedStart(r) == First(r)
    ensures MaskedEnd(r) == First(r) + Size(r) - 1
    ensures First(r) + Size(r) <= 0x1_0000_0000
  {
    Pow2Of32();
    hide Aligned, AlignDown, And, Or, Not, Shl, Pow2;
    var k := HostBits(r);
    ShiftedOnes(32, k);
    AndHighMask(32, k, r.address);
    NotHighMask(32, k);
    OrLowBits(32, k, First(r));
    AlignedPow2(32, k);
    AlignedGap(First(r), 0x1_0000_0000, k);
  }

  /** The larger of two blocks around an address contains the smaller. */
  lemma AlignDownNested(a: nat, i: nat, j: nat)
    requires i <= j
    ensures AlignDown(a, j) <= AlignDown(a, i)
    ensures AlignDown(a, i) + Pow2(i) <= AlignDown(a, j) + Pow2(j)
  {
    hide Aligned, AlignDown, Pow2;
    var x, y := AlignDown(a, i), AlignDown(a, j);
    AlignedWeaken(y, i, j);
    AlignedPow2(j, i);
    AlignedAdd(y, Pow2(j), i);
    if x < y { AlignedGap(x, y, i); }
    AlignedGap(x, y + Pow2(j), i);
  }

  /** Two prefixes that share an address are nested: the longer lies inside the shorter. */
  lemma Nested(inner: Route, outer: Route, a: int)
    requires Contains(inner, a) && Contains(outer, a) && inner.prefix >= outer.prefix
    ensures First(outer) <= First(inner)
    ensures First(inner) + Size(inner) <= First(outer) + Size(outer)
  {
    AlignDownUnique(a, First(inner), HostBits(inner));
    AlignDownUnique(a, First(outer), HostBits(outer));
    AlignDownNested(a, HostBits(inner), HostBits(outer));
  }

  predicate Disjoint(r: Route, s: Route) {
    First(r) + Size(r) <= First(s) || First(s) + Size(s) <= First(r)
  }

  /** The interval test used on both ends of the VPN; `ipv4RoutesOverlap`, `routeOverlapsIpv4Range`. */
  predicate RoutesOverlap(left: Route, right: Route) {
    MaskedStart(left) <= MaskedEnd(right) && MaskedStart(right) <= MaskedEnd(left)
  }

  /** The overlap test holds exactly when the two prefixes share an address. */
  lemma OverlapIffSharedAddress(left: Route, right: Route)
    ensures RoutesOverlap(left, right) <==> exists a: Address :: Contains(left, a) && Contains(right, a)
    ensures RoutesOverlap(left, right) <==> !Disjoint(left, right)
  {
    MaskedEnds(left);
    MaskedEnds(right);
    if RoutesOverlap(left, right) {
      var a: Address := if First(left) <= First(right) then First(right) else First(left);
      assert Contains(left, a) && Contains(right, a);
    }
  }

  /** `ipv4ContainedByRoute`: comparing masked addresses decides membership. */
  predicate ContainedByRoute(a: Address, r: Route) {
    And(32, a, Ipv4Mask(r.prefix)) == MaskedStart(r)
  }

  lemma ContainedIffContains(a: Address, r: Route)
    ensures ContainedByRoute(a, r) <==> Contains(r, a)
  {
    MaskedEnds(r);
    MaskedEnds(Route(a, r.prefix));
    if Contains(r, a) { AlignDownUnique(a, First(r), HostBits(r)); }
  }

  // --------------------------------------------------------------- block tree

  function Parent(r: Route): (p: Route)
    requires r.prefix > 0
    ensures Canonical(p) && p.prefix == r.prefix - 1
    ensures First(p) == AlignDown(r.address, HostBits(r) + 1)
  {
    Network(Route(r.address, r.prefix - 1))
  }

  lemma ParentContains(r: Route, a: int)
    requires r.prefix > 0 && Contains(r, a)
    ensures Contains(Parent(r), a)
  {
    hide Aligned, AlignDown, Pow2;
    AlignDownNested(r.address, HostBits(r), HostBits(r) + 1);
  }

  /** A strictly longer prefix that meets `outer` lies in it together with its parent. */
  lemma NestedParent(inner: Route, outer: Route, a: int)
    requires Contains(inner, a) && Contains(outer, a) && inner.prefix > outer.prefix
    ensures forall b: int :: Contains(Parent(inner), b) ==> Contains(outer, b)
  {
    ParentContains(inner, a);
    Nested(Parent(inner), outer, a);
  }

  lemma CanonicalEqual(q: Route, s: Route, a: int)
    requires Canonical(q) && Canonical(s) && q.prefix == s.prefix
    requires Contains(q, a) && Contains(s, a)
    ensures q == s
  {
    Nested(q, s, a);
    Nested(s, q, a);
    assert Network(q) == q && Network(s) == s;
  }

  predicate Within(q: Route, r: Route) {
    q.prefix >= r.prefix && Contains(r, q.address)
  }

  lemma ContainsOwnAddress(r: Route)
    ensures Contains(r, r.address)
  {
  }

  lemma WithinContains(q: Route, r: Route, a: int)
    requires Within(q, r) && Contains(q, a)
    ensures Contains(r, a)
  {
    ContainsOwnAddress(q);
    Nested(q, r, q.address);
  }

  // ------------------------------------------------------------------- tilings

  predicate Covers(rs: seq<Route>, a: int) {
    exists i :: 0 <= i < |rs| && Contains(rs[i], a)
  }

  predicate PairwiseDisjoint(rs: seq<Route>) {
    forall i, j :: 0 <= i < j < |rs| ==> Disjoint(rs[i], rs[j])
  }

  /** The routes are canonical blocks that follow one another from `lo` up to `hi`. */
  predicate Tiles(rs: seq<Route>, lo: nat, hi: nat) {
    if rs == [] then lo == hi
    else Canonical(rs[0]) && rs[0].address == lo && Tiles(rs[1..], lo + Size(rs[0]), hi)
  }

  lemma {:induction false} TilesCover(rs: seq<Route>, lo: nat, hi: nat)
    requires Tiles(rs, lo, hi)
    ensures lo <= hi
    ensures forall a: int :: Covers(rs, a) <==> lo <= a < hi
    ensures PairwiseDisjoint(rs)
    ensures forall i :: 0 <= i < |rs| ==> Canonical(rs[i])
  {
    if rs != [] {
      var next := lo + Size(rs[0]);
      TilesCover(rs[1..], next, hi);
      assert Network(rs[0]) == rs[0];
      forall a: int
        ensures Covers(rs, a) <==> lo <= a < hi
      {
        assert Covers(rs[1..], a) <==> next <= a < hi;
        if lo <= a < next { assert Contains(rs[0], a); }
        if next <= a < hi {
          var i :| 0 <= i < |rs[1..]| && Contains(rs[1..][i], a);
          assert Contains(rs[i + 1], a);
        }
        if Covers(rs, a) {
          var i :| 0 <= i < |rs| && Contains(rs[i], a);
          if i > 0 { assert Contains(rs[1..][i - 1], a); }
        }
      }
      forall i, j | 0 <= i < j < |rs|
        ensures Disjoint(rs[i], rs[j])
      {
        if i == 0 {
          assert Contains(rs[1..][j - 1], First(rs[j]));
          assert Covers(rs[1..], First(rs[j]));
        } else {
          assert Disjoint(rs[1..][i - 1], rs[1..][j - 1]);
        }
      }
      forall i | 0 <= i < |rs|
        ensures Canonical(rs[i])
      {
        if i > 0 { assert rs[i] == rs[1..][i - 1]; }
      }
    }
  }
}
