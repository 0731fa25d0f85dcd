/**
 The managed-route policy in terms of addresses: which addresses no managed route may reach, and which routes may be
 wider than a /16.
 */
module AddressPolicy {
  import opened Bits
  import opened Prefixes
  import opened ManagedPolicy

  /**
   Addresses set aside: 0/8, 127/8, 100.64/10, 169.254/16, 192.0.0/24, 192.0.2/24, 192.31.0/24, 192.31.196/24,
   192.52.193/24, 192.88.99/24, 192.175.48/24, 198.18/15, 198.51.100/24, 203.0.113/24, and all from 224.0.0.0.
   */
  predicate Special(a: int) {
    || 0x0000_0000 <= a <= 0x00ff_ffff
    || 0x7f00_0000 <= a <= 0x7fff_ffff
    || 0x6440_0000 <= a <= 0x647f_ffff
    || 0xa9fe_0000 <= a <= 0xa9fe_ffff
    || 0xc000_0000 <= a <= 0xc000_00ff
    || 0xc000_0200 <= a <= 0xc000_02ff
    || 0xc01f_0000 <= a <= 0xc01f_00ff
    || 0xc01f_c400 <= a <= 0xc01f_c4ff
    || 0xc034_c100 <= a <= 0xc034_c1ff
    || 0xc058_6300 <= a <= 0xc058_63ff
    || 0xc0af_3000 <= a <= 0xc0af_30ff
    || 0xc612_0000 <= a <= 0xc613_ffff
    || 0xc633_6400 <= a <= 0xc633_64ff
    || 0xcb00_7100 <= a <= 0xcb00_71ff
    || 0xe000_0000 <= a <= 0xffff_ffff
  }

  /** The private networks of section 3 of RFC 1918. */
  predicate Private(a: int) {
    || 0x0a00_0000 <= a <= 0x0aff_ffff
    || 0xac10_0000 <= a <= 0xac1f_ffff
    || 0xc0a8_0000 <= a <= 0xc0a8_ffff
  }

  // ------------------------------------------------------------------------ blocks

  lemma {:induction false} MultipleAligned(m: nat, k: nat)
    ensures Aligned(m * Pow2(k), k)
  {
    if k > 0 {
      assert m * Pow2(k) == 2 * (m * Pow2(k - 1));
      MultipleAligned(m, k - 1);
    }
  }

  lemma Powers()
    ensures Pow2(8) == 256 && Pow2(16) == 65536 && Pow2(17) == 131072 && Pow2(20) == 1048576 && Pow2(21) == 2097152
    ensures Pow2(22) == 4194304 && Pow2(24) == 16777216 && Pow2(25) == 33554432 && Pow2(28) == 268435456
  {
    assert Pow2(8) == 256;
    assert Pow2(16) == 256 * Pow2(8);
    assert Pow2(24) == 256 * Pow2(16);
  }

  /** A route whose address is a multiple of its size is the block from there. */
  lemma Block(r: Route, m: nat)
    requires r.address == m * Pow2(32 - r.prefix)
    ensures forall a: int :: Contains(r, a) <==> r.address <= a < r.address + Pow2(32 - r.prefix)
  {
    MultipleAligned(m, 32 - r.prefix);
    AlignDownUnique(r.address, r.address, 32 - r.prefix);
  }

  /** The bounds of a special range, as its two ends. */
  ghost predicate Ends(i: nat, lo: int, hi: int)
    requires i < |SPECIAL_RANGES|
  {
    forall a: int :: Contains(SPECIAL_RANGES[i], a) <==> lo <= a <= hi
  }

  lemma RangeEnds(i: nat, m: nat)
    requires i < |SPECIAL_RANGES| && SPECIAL_RANGES[i].address == m * Pow2(32 - SPECIAL_RANGES[i].prefix)
    ensures Ends(i, SPECIAL_RANGES[i].address, SPECIAL_RANGES[i].address + Pow2(32 - SPECIAL_RANGES[i].prefix) - 1)
  {
    hide Contains, Pow2;
    Block(SPECIAL_RANGES[i], m);
  }

  lemma LowEnds()
    ensures Ends(0, 0x0000_0000, 0x00ff_ffff) && Ends(1, 0x7f00_0000, 0x7fff_ffff)
    ensures Ends(2, 0x6440_0000, 0x647f_ffff) && Ends(3, 0xa9fe_0000, 0xa9fe_ffff)
    ensures Ends(14, 0xe000_0000, 0xefff_ffff) && Ends(15, 0xf000_0000, 0xffff_ffff)
    ensures Ends(11, 0xc612_0000, 0xc613_ffff)
  {
    hide Pow2, Ends;
    Powers();
    RangeEnds(0, 0);
    RangeEnds(1, 127);
    RangeEnds(2, 401);
    RangeEnds(3, 43518);
    RangeEnds(11, 25353);
    RangeEnds(14, 14);
    RangeEnds(15, 15);
  }

  lemma SmallEnds()
    ensures Ends(4, 0xc000_0000, 0xc000_00ff) && Ends(5, 0xc000_0200, 0xc000_02ff)
    ensures Ends(6, 0xc01f_0000, 0xc01f_00ff) && Ends(7, 0xc01f_c400, 0xc01f_c4ff)
    ensures Ends(8, 0xc034_c100, 0xc034_c1ff) && Ends(9, 0xc058_6300, 0xc058_63ff)
    ensures Ends(10, 0xc0af_3000, 0xc0af_30ff) && Ends(12, 0xc633_6400, 0xc633_64ff)
    ensures Ends(13, 0xcb00_7100, 0xcb00_71ff)
  {
    hide Pow2, Ends;
    Powers();
    RangeEnds(4, 12582912);
    RangeEnds(5, 12582914);
    RangeEnds(6, 12590848);
    RangeEnds(7, 12591044);
    RangeEnds(8, 12596417);
    RangeEnds(9, 12605539);
    RangeEnds(10, 12627760);
    RangeEnds(12, 12989284);
    RangeEnds(13, 13303921);
  }

  /** An address is special exactly if some range of the code contains it. */
  lemma SpecialBlocks(a: int)
    ensures Special(a) <==> exists i :: 0 <= i < |SPECIAL_RANGES| && Contains(SPECIAL_RANGES[i], a)
  {
    hide Contains;
    LowEnds();
    SmallEnds();
    assert Contains(SPECIAL_RANGES[0], a) <==> 0x0000_0000 <= a <= 0x00ff_ffff;
    assert Contains(SPECIAL_RANGES[1], a) <==> 0x7f00_0000 <= a <= 0x7fff_ffff;
    assert Contains(SPECIAL_RANGES[2], a) <==> 0x6440_0000 <= a <= 0x647f_ffff;
    assert Contains(SPECIAL_RANGES[3], a) <==> 0xa9fe_0000 <= a <= 0xa9fe_ffff;
    assert Contains(SPECIAL_RANGES[4], a) <==> 0xc000_0000 <= a <= 0xc000_00ff;
    assert Contains(SPECIAL_RANGES[5], a) <==> 0xc000_0200 <= a <= 0xc000_02ff;
    assert Contains(SPECIAL_RANGES[6], a) <==> 0xc01f_0000 <= a <= 0xc01f_00ff;
    assert Contains(SPECIAL_RANGES[7], a) <==> 0xc01f_c400 <= a <= 0xc01f_c4ff;
    assert Contains(SPECIAL_RANGES[8], a) <==> 0xc034_c100 <= a <= 0xc034_c1ff;
    assert Contains(SPECIAL_RANGES[9], a) <==> 0xc058_6300 <= a <= 0xc058_63ff;
    assert Contains(SPECIAL_RANGES[10], a) <==> 0xc0af_3000 <= a <= 0xc0af_30ff;
    assert Contains(SPECIAL_RANGES[11], a) <==> 0xc612_0000 <= a <= 0xc613_ffff;
    assert Contains(SPECIAL_RANGES[12], a) <==> 0xc633_6400 <= a <= 0xc633_64ff;
    assert Contains(SPECIAL_RANGES[13], a) <==> 0xcb00_7100 <= a <= 0xcb00_71ff;
    assert Contains(SPECIAL_RANGES[14], a) <==> 0xe000_0000 <= a <= 0xefff_ffff;
    assert Contains(SPECIAL_RANGES[15], a) <==> 0xf000_0000 <= a <= 0xffff_ffff;
  }

  lemma PrivateBlocks()
    ensures forall i, a: int :: 0 <= i < |PRIVATE_RANGES| && Contains(PRIVATE_RANGES[i], a) ==> Private(a)
    ensures forall a: int :: Private(a) ==> exists i :: 0 <= i < |PRIVATE_RANGES| && Contains(PRIVATE_RANGES[i], a)
  {
    hide Contains;
    Powers();
    Block(PRIVATE_RANGES[0], 10);
    Block(PRIVATE_RANGES[1], 2753);
    Block(PRIVATE_RANGES[2], 49320);
  }

  /** Twice a private network: the block it shares with its neighbour, and an address of the neighbour. */
  function Doubled(i: nat): Route
    requires i < 3
  {
    if i == 0 then Route(0x0a00_0000, 7) else if i == 1 then Route(0xac00_0000, 11) else Route(0xc0a8_0000, 15)
  }

  function Beside(i: nat): Address {
    if i == 0 then 0x0b00_0000 else if i == 1 then 0xac00_0000 else 0xc0a9_0000
  }

  lemma DoubledBlock(i: nat)
    requires i < 3
    ensures Contains(Doubled(i), Beside(i)) && Contains(Doubled(i), PRIVATE_RANGES[i].address) && !Private(Beside(i))
  {
    hide Contains, Pow2;
    Powers();
    Block(Doubled(i), if i == 0 then 5 else if i == 1 then 1376 else 24660);
  }

  /** A block wider than a private network and around it reaches an address that is not private. */
  lemma WiderLeaves(r: Route, i: nat)
    requires i < |PRIVATE_RANGES| && r.prefix < PRIVATE_RANGES[i].prefix && Contains(PRIVATE_RANGES[i], r.address)
    ensures exists a: Address :: Contains(r, a) && !Private(a)
  {
    hide Private;
    DoubledBlock(i);
    ContainsOwnAddress(r);
    ContainsOwnAddress(PRIVATE_RANGES[i]);
    Nested(PRIVATE_RANGES[i], r, r.address);
    Nested(Doubled(i), r, PRIVATE_RANGES[i].address);
    assert Contains(r, Beside(i));
  }

  // ------------------------------------------------------------------------ main result

  /**
   A route may be managed exactly if it is not everything, no bit below its prefix is set, it reaches no special
   address, and it is a /16 or narrower or reaches private addresses only.
   */
  lemma AllowedIff(r: Route)
    ensures Allowed(r) <==>
      && r.prefix >= 1 && r.address == First(r)
      && (forall a: Address :: Contains(r, a) ==> !Special(a))
      && (r.prefix >= 16 || forall a: Address :: Contains(r, a) ==> Private(a))
  {
    hide RoutesOverlap, ContainedByRoute, Special, Private, Contains, First;
    CanonicalIff(r);
    SpecialIff(r);
    if r.prefix < 16 { PrivateIff(r); }
  }

  lemma CanonicalIff(r: Route)
    ensures Canonical(r) <==> r.address == First(r)
  {
    if Canonical(r) { AlignDownUnique(r.address, r.address, HostBits(r)); }
  }

  lemma SpecialIff(r: Route)
    ensures (forall i :: 0 <= i < |SPECIAL_RANGES| ==> !RoutesOverlap(r, SPECIAL_RANGES[i]))
       <==> forall a: Address :: Contains(r, a) ==> !Special(a)
  {
    hide RoutesOverlap, Special, Contains;
    forall a: Address
      ensures Special(a) <==> exists i :: 0 <= i < |SPECIAL_RANGES| && Contains(SPECIAL_RANGES[i], a)
    {
      SpecialBlocks(a);
    }
    forall i | 0 <= i < |SPECIAL_RANGES|
      ensures RoutesOverlap(r, SPECIAL_RANGES[i]) <==> exists a: Address :: Contains(r, a) && Contains(SPECIAL_RANGES[i], a)
    {
      OverlapIffSharedAddress(r, SPECIAL_RANGES[i]);
    }
  }

  lemma PrivateIff(r: Route)
    requires r.prefix < 16
    ensures (exists i :: 0 <= i < |PRIVATE_RANGES| && WithinRange(r, PRIVATE_RANGES[i]))
       <==> forall a: Address :: Contains(r, a) ==> Private(a)
  {
    hide ContainedByRoute, Private, Contains;
    PrivateBlocks();
    ContainsOwnAddress(r);
    if i :| 0 <= i < |PRIVATE_RANGES| && WithinRange(r, PRIVATE_RANGES[i]) {
      ContainedIffContains(r.address, PRIVATE_RANGES[i]);
      forall a: Address | Contains(r, a)
        ensures Private(a)
      {
        WithinContains(r, PRIVATE_RANGES[i], a);
      }
    }
    if forall a: Address :: Contains(r, a) ==> Private(a) {
      var i :| 0 <= i < |PRIVATE_RANGES| && Contains(PRIVATE_RANGES[i], r.address);
      ContainedIffContains(r.address, PRIVATE_RANGES[i]);
      if r.prefix < PRIVATE_RANGES[i].prefix { WiderLeaves(r, i); }
    }
  }
}
