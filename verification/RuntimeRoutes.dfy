/**
 Normalisation of a managed route list against the running connection: split around protected hosts,
 drop what a local rule already owns, sort. The worker compares installed and desired lists in this
 form, so it has to be a fixed point of itself.
 */
module RuntimeRoutes {
  import opened Options
  import opened Prefixes
  import opened HostSubtraction
  import opened RouteSplitting
  import opened RouteTexts
  import opened ManagedPolicy

  datatype RouteMode = AllSites | OnlyForwardSites | AllExceptSites

  // -------------------------------------------------------------------- sorting

  predicate Before(a: Route, b: Route) {
    a.address < b.address || (a.address == b.address && a.prefix < b.prefix)
  }

  predicate Ascending(s: seq<Route>) {
    forall i, j :: 0 <= i < j < |s| ==> Before(s[i], s[j])
  }

  function Insert(x: Route, s: seq<Route>): (r: seq<Route>)
    ensures |r| == |s| + 1 && forall y :: y in r <==> y == x || y in s
    ensures Ascending(s) && x !in s ==> Ascending(r)
  {
    if s == [] || Before(x, s[0]) then [x] + s
    else
      assert s == [s[0]] + s[1..];
      var rest := Insert(x, s[1..]);
      assert Ascending(s) && x !in s ==> Ascending([s[0]] + rest) by {
        if Ascending(s) && x !in s { AscendingCons(s[0], rest); }
      }
      [s[0]] + rest
  }

  lemma AscendingCons(x: Route, s: seq<Route>)
    requires Ascending(s) && forall y :: y in s ==> Before(x, y)
    ensures Ascending([x] + s)
  {
  }

  function Sort(s: seq<Route>): (r: seq<Route>)
    ensures |r| == |s| && forall y :: y in r <==> y in s
    ensures NoDuplicates(s) ==> Ascending(r)
  {
    if s == [] then []
    else
      assert s == [s[0]] + s[1..];
      assert NoDuplicates(s) ==> NoDuplicates(s[1..]) && s[0] !in s[1..];
      Insert(s[0], Sort(s[1..]))
  }

  lemma {:induction false} SortAscending(s: seq<Route>)
    requires Ascending(s)
    ensures Sort(s) == s && NoDuplicates(s)
  {
    if s != [] {
      assert s == [s[0]] + s[1..];
      SortAscending(s[1..]);
    }
  }

  // -------------------------------------------------------------- normalisation

  function Without(rs: seq<Route>, owned: seq<Route>): (r: seq<Route>)
    ensures |r| <= |rs| && forall q :: q in r <==> q in rs && q !in owned
  {
    if rs == [] then []
    else
      var n := |rs| - 1;
      assert rs == rs[..n] + [rs[n]];
      var r := Without(rs[..n], owned);
      if rs[n] in owned then r else r + [rs[n]]
  }

  lemma {:induction false} WithoutKeeps(rs: seq<Route>, owned: seq<Route>)
    ensures NoDuplicates(rs) ==> NoDuplicates(Without(rs, owned))
    ensures (forall q :: q in rs ==> q !in owned) ==> Without(rs, owned) == rs
  {
    if rs != [] {
      var n := |rs| - 1;
      assert rs == rs[..n] + [rs[n]];
      WithoutKeeps(rs[..n], owned);
    }
  }

  /** The routes the local rules own on this connection. */
  ghost function LocalRoutes(local: seq<RouteText>, hosts: seq<Option<Address>>): seq<Route> {
    SupportedRoutes(Split(local, hosts))
  }

  ghost function Normalize(mode: RouteMode, managed: seq<RouteText>, local: seq<RouteText>,
                           hosts: seq<Option<Address>>): Option<seq<Route>>
  {
    match Validated(managed)
    case None => None
    case Some(bounded) =>
      if mode != AllExceptSites then (if bounded == [] then Some([]) else None)
      else
        var pieces := Split(Texts(bounded), hosts);
        match Validated(Texts(SupportedRoutes(pieces)))
        case None => None
        case Some(routes) =>
          if exists t :: t in pieces && !Supported(t) then None
          else Some(Sort(Without(routes, LocalRoutes(local, hosts))))
  }

  /** `normalizedManagedRoutesForRuntime`; `local` are the routable entries of the local rules. */
  method NormalizedManagedRoutesForRuntime(mode: RouteMode, managed: seq<RouteText>,
                                           local: seq<RouteText>, hosts: seq<Option<Address>>)
    returns (routes: seq<Route>, valid: bool)
    ensures valid <==> Normalize(mode, managed, local, hosts).Some?
    ensures routes == if valid then Normalize(mode, managed, local, hosts).value else []
  {
    hide Validated, Split, Supported, Sort, Without, SupportedRoutes;
    var bounded := ValidatedManagedRoutes(managed);
    if bounded.None? {
      return [], false;
    }
    if mode != AllExceptSites {
      return [], bounded.value == [];
    }
    var pieces := SplitRoutesKeepingHostsInVpn(Texts(bounded.value), hosts);
    var normalized, unsupported := NormalizedSupportedIpv4Routes(pieces);
    var revalidated := ValidatedManagedRoutes(Texts(normalized));
    if revalidated.None? || unsupported != [] {
      return [], false;
    }
    var localPieces := SplitRoutesKeepingHostsInVpn(local, hosts);
    var localRoutes, _ := NormalizedSupportedIpv4Routes(localPieces);
    routes := DropOwned(revalidated.value, localRoutes);
    routes := Sort(routes);
    valid := true;
  }

  method DropOwned(rs: seq<Route>, owned: seq<Route>) returns (kept: seq<Route>)
    ensures kept == Without(rs, owned)
  {
    kept := [];
    for i := 0 to |rs|
      invariant kept == Without(rs[..i], owned)
    {
      assert rs[..i + 1][..i] == rs[..i];
      if rs[i] !in owned {
        kept := kept + [rs[i]];
      }
    }
    assert rs[..|rs|] == rs;
  }

  // --------------------------------------------------- what the pieces look like

  /** Splitting canonical routes yields printed canonical routes, each once and inside an original. */
  lemma SplitPlain(bounded: seq<Route>, hosts: seq<Option<Address>>) returns (rs: seq<Route>)
    requires NoDuplicates(bounded) && forall r :: r in bounded ==> Canonical(r)
    ensures Split(Texts(bounded), hosts) == Texts(rs)
    ensures NoDuplicates(rs)
    ensures forall q :: q in rs ==> Canonical(q) && exists r :: r in bounded && Within(q, r)
  {
    hide SplitEach, Contains, Canonical;
    var ts := Split(Texts(bounded), hosts);
    if ProtectedAddresses(hosts) == [] {
      rs := bounded;
      forall q | q in rs
        ensures exists r :: r in bounded && Within(q, r)
      {
        ContainsOwnAddress(q);
      }
    } else {
      forall t | t in ts
        ensures t.Plain? && Canonical(t.route) && exists r :: r in bounded && Within(t.route, r)
      {
        PieceOrigin(bounded, ProtectedAddresses(hosts), t);
      }
      rs := seq(|ts|, i requires 0 <= i < |ts| => assert ts[i] in ts; ts[i].route);
      TextsOf(rs, ts);
      forall q | q in rs
        ensures Canonical(q) && exists r :: r in bounded && Within(q, r)
      {
        var i :| 0 <= i < |rs| && rs[i] == q;
        assert ts[i] in ts;
      }
    }
  }

  lemma PieceOrigin(bounded: seq<Route>, hosts: seq<Address>, t: RouteText)
    requires hosts != [] && t in SplitEach(Texts(bounded), hosts)
    ensures t.Plain? && Canonical(t.route) && exists r :: r in bounded && Within(t.route, r)
  {
    hide SplitTexts, SplitPieces, Contains, Canonical;
    SplitEachMember(Texts(bounded), hosts, t);
    var s :| s in Texts(bounded) && t in SplitTexts([s], hosts);
    SplitOfOneText(s, hosts);
    SplitIsMaximalBlocks(s.route, hosts);
    assert MaximalFree(t.route, s.route, Hosts(hosts));
  }

  lemma {:induction false} SupportedOfTexts(rs: seq<Route>)
    requires NoDuplicates(rs) && forall q :: q in rs ==> Canonical(q)
    ensures SupportedRoutes(Texts(rs)) == rs
  {
    hide Canonical;
    if rs != [] {
      var n := |rs| - 1;
      assert rs == rs[..n] + [rs[n]];
      SupportedOfTexts(rs[..n]);
      assert Texts(rs)[..n] == Texts(rs[..n]);
      assert rs[n] !in rs[..n];
    }
  }

  lemma ValidatedOfTexts(rs: seq<Route>)
    requires NoDuplicates(rs) && forall q :: q in rs ==> Allowed(q)
    ensures Validated(Texts(rs)) == if |rs| <= MAXIMUM_ROUTES then Some(rs) else None
  {
    hide SupportedRoutes;
    SupportedOfTexts(rs) by { AllowedAreCanonical(rs); }
    hide Allowed;
  }

  lemma AllowedAreCanonical(rs: seq<Route>)
    requires forall q :: q in rs ==> Allowed(q)
    ensures forall q :: q in rs ==> Canonical(q)
  {
  }

  lemma ValidatedAreAllowed(managed: seq<RouteText>)
    requires Validated(managed).Some?
    ensures NoDuplicates(Validated(managed).value)
    ensures forall r :: r in Validated(managed).value ==> Allowed(r)
    ensures forall a: int :: Covers(Validated(managed).value, a) <==> TextCovers(managed, a)
  {
    hide Allowed, Contains, SupportedRoutes;
    forall a: int
      ensures Covers(Validated(managed).value, a) <==> TextCovers(managed, a)
    {
      if TextCovers(managed, a) {
        var t :| t in managed && Reaches(t, a);
        AllowedIsSupported(t);
        assert t.route in Validated(managed).value;
        var i :| 0 <= i < |Validated(managed).value| && Validated(managed).value[i] == t.route;
      }
      if Covers(Validated(managed).value, a) {
        var i :| 0 <= i < |Validated(managed).value| && Contains(Validated(managed).value[i], a);
        assert Validated(managed).value[i] in Validated(managed).value;
        var t :| t in managed && Supported(t) && t.route == Validated(managed).value[i];
        assert Reaches(t, a);
      }
    }
  }

  /** Every piece of a valid batch is allowed, so only the number of pieces can spoil the result. */
  lemma NormalizeUnfolded(managed: seq<RouteText>, local: seq<RouteText>, hosts: seq<Option<Address>>)
    returns (pieces: seq<Route>)
    requires Validated(managed).Some?
    ensures NoDuplicates(pieces) && forall q :: q in pieces ==> Allowed(q)
    ensures Split(Texts(Validated(managed).value), hosts) == Texts(pieces)
    ensures Normalize(AllExceptSites, managed, local, hosts)
         == if |pieces| <= MAXIMUM_ROUTES
            then Some(Sort(Without(pieces, LocalRoutes(local, hosts)))) else None
  {
    hide Split, Allowed, Sort, Without, LocalRoutes, SupportedRoutes, Canonical;
    var bounded := Validated(managed).value;
    ValidatedAreAllowed(managed);
    AllowedAreCanonical(bounded);
    pieces := SplitPlain(bounded, hosts);
    forall q | q in pieces
      ensures Allowed(q)
    {
      var r :| r in bounded && Within(q, r);
      AllowedInside(q, r);
    }
    SupportedOfTexts(pieces);
    ValidatedOfTexts(pieces);
    assert forall t :: t in Texts(pieces) ==> Supported(t);
  }

  // --------------------------------------------------------------- main results

  /** A list normalises exactly when it validates and its split stays within the route budget. */
  lemma NormalizeValidIff(managed: seq<RouteText>, local: seq<RouteText>, hosts: seq<Option<Address>>)
    ensures Normalize(AllExceptSites, managed, local, hosts).Some?
       <==> Validated(managed).Some? && |Split(Texts(Validated(managed).value), hosts)| <= MAXIMUM_ROUTES
  {
    hide Split, Validated;
    if Validated(managed).Some? {
      var pieces := NormalizeUnfolded(managed, local, hosts);
    }
  }

  /**
   A normalised list is ascending, allowed, within the budget and owns no local route. It covers no
   protected host, and together with the local routes it covers the managed routes without the
   protected hosts and nothing else.
   */
  lemma NormalizeSound(managed: seq<RouteText>, local: seq<RouteText>, hosts: seq<Option<Address>>)
    requires Normalize(AllExceptSites, managed, local, hosts).Some?
    ensures var result, owned := Normalize(AllExceptSites, managed, local, hosts).value, LocalRoutes(local, hosts);
      && Ascending(result) && |result| <= MAXIMUM_ROUTES
      && (forall q :: q in result ==> Allowed(q) && q !in owned)
      && (forall a: Address :: Covers(result, a) ==> Some(a) !in hosts)
      && (forall a: Address :: (Covers(result, a) || Covers(owned, a))
            <==> ((TextCovers(managed, a) && Some(a) !in hosts) || Covers(owned, a)))
  {
    hide Split, Allowed, Contains, LocalRoutes, Validated;
    NormalizeValidIff(managed, local, hosts);
    var pieces := NormalizeUnfolded(managed, local, hosts);
    var bounded := Validated(managed).value;
    var owned := LocalRoutes(local, hosts);
    var result := Sort(Without(pieces, owned));
    WithoutKeeps(pieces, owned);
    ValidatedAreAllowed(managed);
    forall a: Address
      ensures Covers(result, a) ==> Some(a) !in hosts
      ensures Covers(pieces, a) <==> TextCovers(managed, a) && Some(a) !in hosts
      ensures Covers(result, a) || Covers(owned, a) <==> Covers(pieces, a) || Covers(owned, a)
    {
      SplitCoverage(Texts(bounded), hosts, a);
      TextsCover(bounded, a);
      TextsCover(pieces, a);
      CoversWithout(pieces, owned, result, a);
    }
  }

  lemma CoversWithout(pieces: seq<Route>, owned: seq<Route>, result: seq<Route>, a: int)
    requires forall q :: q in result <==> q in pieces && q !in owned
    ensures Covers(result, a) ==> Covers(pieces, a)
    ensures Covers(result, a) || Covers(owned, a) <==> Covers(pieces, a) || Covers(owned, a)
  {
    hide Contains;
    CoversMember(result, a);
    CoversMember(pieces, a);
    CoversMember(owned, a);
  }

  lemma CoversMember(rs: seq<Route>, a: int)
    ensures Covers(rs, a) <==> exists q :: q in rs && Contains(q, a)
  {
    hide Contains;
    if q :| q in rs && Contains(q, a) {
      var i :| 0 <= i < |rs| && rs[i] == q;
    }
  }

  // ---------------------------------------------------------------- fixed points

  lemma {:induction false} SplitUntouchedPiece(q: Route, hosts: seq<Address>)
    requires Canonical(q) && forall h :: h in hosts ==> !Contains(q, h)
    ensures SplitPieces([q], hosts) == [q]
    decreases hosts
  {
    hide SubtractHost, Contains, Canonical;
    if hosts != [] {
      SubtractMissing(q, hosts[0]);
      assert [q][1..] == [];
      assert SubtractFromAll([q], hosts[0]) == [q];
      SplitUntouchedPiece(q, hosts[1..]);
    }
  }

  lemma {:induction false} SplitUntouchedEach(rs: seq<Route>, hosts: seq<Address>)
    requires hosts != [] && forall q :: q in rs ==> Canonical(q)
    requires forall q, h :: q in rs && h in hosts ==> !Contains(q, h)
    ensures SplitEach(Texts(rs), hosts) == Texts(rs)
  {
    hide SplitTexts, SplitPieces, Contains, Canonical;
    if rs != [] {
      SplitUntouchedPiece(rs[0], hosts);
      SplitOfOneText(Plain(rs[0]), hosts);
      SplitUntouchedEach(rs[1..], hosts);
      assert Texts(rs)[1..] == Texts(rs[1..]);
      assert Texts(rs) == [Plain(rs[0])] + Texts(rs[1..]);
    }
  }

  /**
   Publishing an installed list returns that very list exactly when no protected host lies in an
   installed route and no installed route is a local one.
   */
  lemma NormalizeFixpointIff(installed: seq<Route>, local: seq<RouteText>, hosts: seq<Option<Address>>)
    requires Ascending(installed) && |installed| <= MAXIMUM_ROUTES
    requires forall q :: q in installed ==> Allowed(q)
    ensures Normalize(AllExceptSites, Texts(installed), local, hosts) == Some(installed)
       <==> && (forall h: Address :: Some(h) in hosts ==> !Covers(installed, h))
            && (forall q :: q in installed ==> q !in LocalRoutes(local, hosts))
  {
    hide Split, Allowed, Contains, LocalRoutes, Covers, Canonical;
    SortAscending(installed);
    ValidatedOfTexts(installed);
    if Normalize(AllExceptSites, Texts(installed), local, hosts) == Some(installed) {
      NormalizeSound(Texts(installed), local, hosts);
    }
    if (forall h: Address :: Some(h) in hosts ==> !Covers(installed, h))
       && (forall q :: q in installed ==> q !in LocalRoutes(local, hosts))
    {
      AllowedAreCanonical(installed);
      SplitUntouched(installed, hosts);
      var pieces := NormalizeUnfolded(Texts(installed), local, hosts);
      TextsInjective(pieces, installed);
      WithoutKeeps(installed, LocalRoutes(local, hosts));
    }
  }

  lemma SplitUntouched(rs: seq<Route>, hosts: seq<Option<Address>>)
    requires NoDuplicates(rs) && forall q :: q in rs ==> Canonical(q)
    requires forall h: Address :: Some(h) in hosts ==> !Covers(rs, h)
    ensures Split(Texts(rs), hosts) == Texts(rs)
  {
    hide SplitEach, Covers, Canonical;
    if ProtectedAddresses(hosts) != [] {
      forall q, h | q in rs && h in ProtectedAddresses(hosts)
        ensures !Contains(q, h)
      {
        CoversMember(rs, h);
      }
      SplitUntouchedEach(rs, ProtectedAddresses(hosts));
    }
  }

  lemma TextsInjective(rs: seq<Route>, rs': seq<Route>)
    requires Texts(rs) == Texts(rs')
    ensures rs == rs'
  {
    assert |rs| == |Texts(rs)| == |rs'|;
    forall i | 0 <= i < |rs|
      ensures rs[i] == rs'[i]
    {
      assert Texts(rs)[i] == Plain(rs[i]) && Texts(rs')[i] == Plain(rs'[i]);
    }
  }

  /** Normalising a normalised list changes nothing. */
  lemma NormalizeIdempotent(mode: RouteMode, managed: seq<RouteText>, local: seq<RouteText>, hosts: seq<Option<Address>>)
    requires Normalize(mode, managed, local, hosts).Some?
    ensures Normalize(mode, Texts(Normalize(mode, managed, local, hosts).value), local, hosts)
         == Normalize(mode, managed, local, hosts)
  {
    hide Allowed, LocalRoutes, Covers, Split;
    var result := Normalize(mode, managed, local, hosts).value;
    if mode == AllExceptSites {
      NormalizeSound(managed, local, hosts);
      NormalizeFixpointIff(result, local, hosts);
    } else {
      ValidatedOfTexts([]);
    }
  }
}
