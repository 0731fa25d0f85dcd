/**
 Keeping protected hosts inside the VPN: the fold of host subtraction over many routes and hosts.
 Whatever the order of the hosts, one route is split into its maximal blocks free of them.
 */
module RouteSplitting {
  import opened Prefixes
  import opened HostSubtraction

  // ------------------------------------------------------- the fold on one route

  ghost function SubtractFromAll(pieces: seq<Route>, host: Address): seq<Route> {
    if pieces == [] then []
    else SubtractHost(pieces[0], host) + SubtractFromAll(pieces[1..], host)
  }

  ghost function SplitPieces(pieces: seq<Route>, hosts: seq<Address>): seq<Route>
    decreases hosts
  {
    if hosts == [] then pieces
    else SplitPieces(SubtractFromAll(pieces, hosts[0]), hosts[1..])
  }

  lemma {:induction false} SubtractFromAllMember(pieces: seq<Route>, host: Address, q: Route)
    ensures q in SubtractFromAll(pieces, host) <==>
            exists s :: s in pieces && q in SubtractHost(s, host)
  {
    hide SubtractHost;
    if pieces != [] {
      SubtractFromAllMember(pieces[1..], host, q);
      assert pieces == [pieces[0]] + pieces[1..];
    }
  }

  function Hosts(hosts: seq<Address>): set<Address> {
    set h | h in hosts
  }

  // ------------------------------------------- reference: maximal blocks free of hosts

  predicate Free(q: Route, hosts: set<Address>) {
    forall h :: h in hosts ==> !Contains(q, h)
  }

  /** A block of `r` without protected hosts whose parent would leave `r` or meet one. */
  predicate MaximalFree(q: Route, r: Route, hosts: set<Address>) {
    && Canonical(q) && Within(q, r) && Free(q, hosts)
    && (q.prefix == r.prefix || !Free(Parent(q), hosts))
  }

  ghost predicate IsSplitOf(pieces: seq<Route>, r: Route, hosts: set<Address>) {
    forall q :: q in pieces <==> MaximalFree(q, r, hosts)
  }

  lemma SplitByNothing(r: Route)
    ensures IsSplitOf([Network(r)], r, {})
  {
    hide First, Size, Canonical;
    forall q
      ensures q in [Network(r)] <==> MaximalFree(q, r, {})
    {
      if MaximalFree(q, r, {}) {
        ContainsOwnAddress(q);
        NetworkSame(r, q.address);
        CanonicalEqual(q, Network(r), q.address);
      }
      ContainsOwnAddress(Network(r));
      NetworkSame(r, Network(r).address);
    }
  }

  /** Every free block lies in a maximal one. */
  lemma {:induction false} MaximalAncestor(q: Route, r: Route, hosts: set<Address>) returns (s: Route)
    requires Canonical(q) && Within(q, r) && Free(q, hosts)
    ensures MaximalFree(s, r, hosts)
    ensures s.prefix <= q.prefix && Contains(s, q.address)
    ensures q.prefix > r.prefix && Free(Parent(q), hosts) ==> s.prefix < q.prefix
    decreases q.prefix
  {
    hide First, Size, Canonical;
    ContainsOwnAddress(q);
    if q.prefix == r.prefix || !Free(Parent(q), hosts) {
      s := q;
    } else {
      var p := Parent(q);
      ParentContains(q, q.address);
      ContainsOwnAddress(p);
      NestedParent(q, r, q.address);
      s := MaximalAncestor(p, r, hosts);
      Nested(p, s, p.address);
      InsideContains(p, s, q.address);
    }
  }

  lemma InsideContains(inner: Route, outer: Route, a: int)
    requires First(outer) <= First(inner) && First(inner) + Size(inner) <= First(outer) + Size(outer)
    requires Contains(inner, a)
    ensures Contains(outer, a)
  {
  }

  /** Subtracting one more host refines the split for that host. */
  lemma SplitByOneMore(pieces: seq<Route>, r: Route, hosts: set<Address>, h: Address)
    requires IsSplitOf(pieces, r, hosts)
    ensures IsSplitOf(SubtractFromAll(pieces, h), r, hosts + {h})
  {
    forall q
      ensures q in SubtractFromAll(pieces, h) <==> MaximalFree(q, r, hosts + {h})
    {
      SubtractFromAllMember(pieces, h, q);
      if q in SubtractFromAll(pieces, h) {
        var s :| s in pieces && q in SubtractHost(s, h);
        PieceIsMaximal(q, s, r, hosts, h);
      }
      if MaximalFree(q, r, hosts + {h}) {
        var s := MaximalIsPiece(q, r, hosts, h);
        assert s in pieces;
      }
    }
  }

  lemma PieceIsMaximal(q: Route, s: Route, r: Route, hosts: set<Address>, h: Address)
    requires MaximalFree(s, r, hosts) && q in SubtractHost(s, h)
    ensures MaximalFree(q, r, hosts + {h})
  {
    hide First, Size, Canonical;
    if Contains(s, h) {
      SubtractHostComplete(s, h, q);
      ContainsOwnAddress(q);
      WithinContains(s, r, q.address);
      forall h' | h' in hosts
        ensures !Contains(q, h')
      {
        if Contains(q, h') { WithinContains(q, s, h'); }
      }
      assert !Free(Parent(q), hosts + {h});
    } else {
      SubtractMissing(s, h);
    }
  }

  lemma SubtractMissing(s: Route, h: Address)
    requires !Contains(s, h)
    ensures SubtractHost(s, h) == [Network(s)]
  {
  }

  lemma MaximalIsPiece(q: Route, r: Route, hosts: set<Address>, h: Address) returns (s: Route)
    requires MaximalFree(q, r, hosts + {h})
    ensures MaximalFree(s, r, hosts) && q in SubtractHost(s, h)
  {
    hide First, Size, Canonical;
    assert Free(q, hosts);
    if q.prefix == r.prefix || !Free(Parent(q), hosts) {
      s := q;
      SubtractMissing(s, h);
    } else {
      s := MaximalAncestor(q, r, hosts);
      ContainsOwnAddress(q);
      NestedParent(q, s, q.address);
      SubtractHostComplete(s, h, q);
    }
  }

  lemma {:induction false} SplitRefines(pieces: seq<Route>, r: Route, done: set<Address>, hosts: seq<Address>)
    requires IsSplitOf(pieces, r, done)
    ensures IsSplitOf(SplitPieces(pieces, hosts), r, done + Hosts(hosts))
    decreases hosts
  {
    if hosts == [] {
      assert done + Hosts(hosts) == done;
    } else {
      SplitByOneMore(pieces, r, done, hosts[0]);
      SplitRefines(SubtractFromAll(pieces, hosts[0]), r, done + {hosts[0]}, hosts[1..]);
      assert hosts == [hosts[0]] + hosts[1..];
      assert done + {hosts[0]} + Hosts(hosts[1..]) == done + Hosts(hosts);
    }
  }

  /** Splitting starts from the network of the route: host bits below the prefix do not matter. */
  lemma SplitOfNetwork(r: Route, hosts: seq<Address>)
    requires hosts != []
    ensures SplitPieces([r], hosts) == SplitPieces([Network(r)], hosts)
  {
    NetworkSame(r, hosts[0]);
    assert SubtractFromAll([r][1..], hosts[0]) == [] == SubtractFromAll([Network(r)][1..], hosts[0]);
    assert SubtractFromAll([r], hosts[0]) == SubtractFromAll([Network(r)], hosts[0]);
  }

  /**
   The pieces of one route are exactly its maximal blocks free of the protected hosts: a
   description that mentions neither the order of the hosts nor the steps of the fold.
   */
  lemma SplitIsMaximalBlocks(r: Route, hosts: seq<Address>)
    requires hosts != []
    ensures IsSplitOf(SplitPieces([r], hosts), r, Hosts(hosts))
  {
    SplitOfNetwork(r, hosts);
    SplitByNothing(r);
    SplitRefines([Network(r)], r, {}, hosts);
    assert {} + Hosts(hosts) == Hosts(hosts);
  }

  /** Such a set of blocks holds every address of the route but the protected ones. */
  lemma MaximalBlocksCover(pieces: seq<Route>, r: Route, hosts: set<Address>, a: Address)
    requires IsSplitOf(pieces, r, hosts)
    ensures Covers(pieces, a) <==> Contains(r, a) && a !in hosts
  {
    hide First, Size, Canonical;
    if Covers(pieces, a) {
      var i :| 0 <= i < |pieces| && Contains(pieces[i], a);
      assert MaximalFree(pieces[i], r, hosts);
      WithinContains(pieces[i], r, a);
    }
    if Contains(r, a) && a !in hosts {
      var q := Route(a, 32);
      SingleAddress(a);
      var s := MaximalAncestor(q, r, hosts);
      assert s in pieces;
      var i :| 0 <= i < |pieces| && pieces[i] == s;
    }
  }

  lemma SingleAddress(a: Address)
    ensures Canonical(Route(a, 32))
    ensures forall b: int :: Contains(Route(a, 32), b) <==> b == a
  {
  }

  // -------------------------------------------------------- disjointness and count

  predicate Inside(inner: Route, outer: Route) {
    First(outer) <= First(inner) && First(inner) + Size(inner) <= First(outer) + Size(outer)
  }

  lemma SubtractInside(r: Route, h: Address)
    ensures PairwiseDisjoint(SubtractHost(r, h))
    ensures forall q :: q in SubtractHost(r, h) ==> Inside(q, r) && q.prefix >= r.prefix
    ensures |SubtractHost(r, h)| == if Contains(r, h) then 32 - r.prefix else 1
  {
    hide First, Size, Canonical, SubtractHost;
    if Contains(r, h) {
      SubtractHostPartition(r, h);
      forall q | q in SubtractHost(r, h)
        ensures Inside(q, r) && q.prefix >= r.prefix
      {
        ContainsOwnAddress(q);
        Nested(q, r, q.address);
      }
    } else {
      SubtractMissing(r, h);
      ContainsOwnAddress(r);
      NetworkSame(r, r.address);
      Nested(Network(r), r, r.address);
    }
  }

  lemma {:induction false} SubtractFromAllInside(pieces: seq<Route>, h: Address, q: Route)
    requires q in SubtractFromAll(pieces, h)
    ensures exists s :: s in pieces && Inside(q, s) && q.prefix >= s.prefix
  {
    SubtractFromAllMember(pieces, h, q);
    var s :| s in pieces && q in SubtractHost(s, h);
    SubtractInside(s, h);
  }

  lemma {:induction false} SubtractFromAllDisjoint(pieces: seq<Route>, h: Address)
    requires PairwiseDisjoint(pieces)
    ensures PairwiseDisjoint(SubtractFromAll(pieces, h))
  {
    hide SubtractHost, First, Size;
    if pieces != [] {
      var head, tail := SubtractHost(pieces[0], h), SubtractFromAll(pieces[1..], h);
      SubtractInside(pieces[0], h);
      SubtractFromAllDisjoint(pieces[1..], h);
      forall q, t | q in head && t in tail
        ensures Disjoint(q, t)
      {
        SubtractFromAllInside(pieces[1..], h, t);
        var s :| s in pieces[1..] && Inside(t, s);
        var j :| 0 <= j < |pieces[1..]| && pieces[1..][j] == s;
        assert Disjoint(pieces[0], pieces[j + 1]);
        InsideDisjoint(q, pieces[0], t, s);
      }
      DisjointConcat(head, tail);
    }
  }

  lemma InsideDisjoint(q: Route, r: Route, t: Route, s: Route)
    requires Inside(q, r) && Inside(t, s) && Disjoint(r, s)
    ensures Disjoint(q, t)
  {
  }

  lemma DisjointConcat(head: seq<Route>, tail: seq<Route>)
    requires PairwiseDisjoint(head) && PairwiseDisjoint(tail)
    requires forall q, t :: q in head && t in tail ==> Disjoint(q, t)
    ensures PairwiseDisjoint(head + tail)
  {
    hide Disjoint;
    var all := head + tail;
    forall i, j | 0 <= i < j < |all|
      ensures Disjoint(all[i], all[j])
    {
      if i < |head| <= j { assert all[i] in head && all[j] in tail; }
    }
  }

  /** Disjoint pieces hold a host at most once, so one subtraction adds at most 31-p pieces. */
  lemma {:induction false} SubtractFromAllCount(pieces: seq<Route>, h: Address, p: PrefixLength)
    requires PairwiseDisjoint(pieces) && p <= 31
    requires forall q :: q in pieces ==> q.prefix >= p
    ensures |SubtractFromAll(pieces, h)| <= |pieces| + (31 - p)
    ensures !Covers(pieces, h) ==> |SubtractFromAll(pieces, h)| == |pieces|
    ensures forall q :: q in SubtractFromAll(pieces, h) ==> q.prefix >= p
  {
    hide SubtractHost, First, Size;
    if pieces != [] {
      var rest := pieces[1..];
      SubtractInside(pieces[0], h);
      assert forall q :: q in rest ==> q in pieces;
      assert forall i, j :: 0 <= i < j < |rest| ==> rest[i] == pieces[i + 1] && rest[j] == pieces[j + 1];
      SubtractFromAllCount(rest, h, p);
      if Covers(rest, h) {
        var i :| 0 <= i < |rest| && Contains(rest[i], h);
        assert Contains(pieces[i + 1], h);
        assert Disjoint(pieces[0], pieces[i + 1]);
        DisjointContains(pieces[0], pieces[i + 1], h);
      }
      if Contains(pieces[0], h) { assert Covers(pieces, h); }
    }
  }

  lemma DisjointContains(r: Route, s: Route, a: int)
    requires Disjoint(r, s) && Contains(s, a)
    ensures !Contains(r, a)
  {
  }

  lemma {:induction false} SplitCount(pieces: seq<Route>, hosts: seq<Address>, p: PrefixLength)
    requires PairwiseDisjoint(pieces) && p <= 31
    requires forall q :: q in pieces ==> q.prefix >= p
    ensures PairwiseDisjoint(SplitPieces(pieces, hosts))
    ensures |SplitPieces(pieces, hosts)| <= |pieces| + |hosts| * (31 - p)
    decreases hosts
  {
    if hosts != [] {
      SubtractFromAllDisjoint(pieces, hosts[0]);
      SubtractFromAllCount(pieces, hosts[0], p);
      SplitCount(SubtractFromAll(pieces, hosts[0]), hosts[1..], p);
      assert |hosts| * (31 - p) == (|hosts| - 1) * (31 - p) + (31 - p);
    }
  }

  /**
   The pieces of one /p route stay pairwise disjoint, are at most 1 + k*(31-p) in number for k hosts
   (p <= 31), and hold exactly the addresses of the route that are not protected.
   */
  lemma SplitOneRoute(r: Route, hosts: seq<Address>)
    ensures PairwiseDisjoint(SplitPieces([r], hosts))
    ensures r.prefix <= 31 ==> |SplitPieces([r], hosts)| <= 1 + |hosts| * (31 - r.prefix)
    ensures forall a: Address :: Covers(SplitPieces([r], hosts), a) <==> Contains(r, a) && a !in hosts
  {
    SplitDisjoint([r], hosts);
    if r.prefix <= 31 { SplitCount([r], hosts, r.prefix); }
    forall a: Address
      ensures Covers(SplitPieces([r], hosts), a) <==> Contains(r, a) && a !in hosts
    {
      if hosts == [] {
        assert [r][0] == r;
      } else {
        SplitIsMaximalBlocks(r, hosts);
        MaximalBlocksCover(SplitPieces([r], hosts), r, Hosts(hosts), a);
      }
    }
  }

  lemma {:induction false} SplitDisjoint(pieces: seq<Route>, hosts: seq<Address>)
    requires PairwiseDisjoint(pieces)
    ensures PairwiseDisjoint(SplitPieces(pieces, hosts))
    decreases hosts
  {
    if hosts != [] {
      SubtractFromAllDisjoint(pieces, hosts[0]);
      SplitDisjoint(SubtractFromAll(pieces, hosts[0]), hosts[1..]);
    }
  }

  lemma DisjointDistinct(pieces: seq<Route>)
    requires PairwiseDisjoint(pieces)
    ensures forall q :: q in multiset(pieces) ==> multiset(pieces)[q] == 1
  {
    hide PairwiseDisjoint;
    forall q | q in pieces
      ensures multiset(pieces)[q] == 1
    {
      var i :| 0 <= i < |pieces| && pieces[i] == q;
      DisjointOnce(pieces, i);
      OnceInMultiset(pieces, i);
    }
  }

  lemma DisjointOnce(pieces: seq<Route>, i: nat)
    requires PairwiseDisjoint(pieces) && i < |pieces|
    ensures pieces[i] !in pieces[..i] && pieces[i] !in pieces[i + 1..]
  {
    ContainsOwnAddress(pieces[i]);
  }

  lemma OnceInMultiset(pieces: seq<Route>, i: nat)
    requires i < |pieces| && pieces[i] !in pieces[..i] && pieces[i] !in pieces[i + 1..]
    ensures multiset(pieces)[pieces[i]] == 1
  {
    assert pieces == pieces[..i] + [pieces[i]] + pieces[i + 1..];
  }

  /** The order in which the hosts are subtracted only permutes the pieces. */
  lemma SplitOrderIrrelevant(r: Route, hosts: seq<Address>, hosts': seq<Address>)
    requires hosts != [] && Hosts(hosts) == Hosts(hosts')
    ensures multiset(SplitPieces([r], hosts)) == multiset(SplitPieces([r], hosts'))
  {
    hide SplitPieces, MaximalFree, PairwiseDisjoint;
    var all := Hosts(hosts);
    assert hosts[0] in all;
    assert hosts' != [];
    var left, right := SplitPieces([r], hosts), SplitPieces([r], hosts');
    SplitIsMaximalBlocks(r, hosts);
    SplitIsMaximalBlocks(r, hosts');
    SplitOneRoute(r, hosts);
    SplitOneRoute(r, hosts');
    DisjointDistinct(left);
    DisjointDistinct(right);
    forall q
      ensures multiset(left)[q] == multiset(right)[q]
    {
      assert q in left <==> MaximalFree(q, r, all);
      assert q in right <==> MaximalFree(q, r, all);
      assert q in left <==> q in multiset(left);
      assert q in right <==> q in multiset(right);
    }
  }
}
