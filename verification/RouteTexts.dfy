/**
 Lists of route texts, as the worker handles them. A text either does not parse, or parses to a
 route; `Plain` is the spelling the worker prints, `Alias` is any other spelling of the same route.
 */
module RouteTexts {
  import opened Options
  import opened Bits
  import opened Prefixes
  import opened HostSubtraction
  import opened RouteSplitting

  datatype RouteText =
    | Plain(route: Route)
    | Alias(route: Route, policySpelling: bool, spelling: string)
    | Unparsed(text: string)

  function Texts(rs: seq<Route>): (ts: seq<RouteText>)
    ensures |ts| == |rs| && forall i :: 0 <= i < |rs| ==> ts[i] == Plain(rs[i])
  {
    seq(|rs|, i requires 0 <= i < |rs| => Plain(rs[i]))
  }

  predicate Reaches(t: RouteText, a: int) {
    !t.Unparsed? && Contains(t.route, a)
  }

  predicate TextCovers(ts: seq<RouteText>, a: int) {
    exists t :: t in ts && Reaches(t, a)
  }

  /** `QStringList::removeDuplicates`: keeps the first of equal elements. */
  function RemoveDuplicates<T(==,!new)>(s: seq<T>): (r: seq<T>)
    ensures forall x :: x in r <==> x in s
    ensures |r| <= |s|
    ensures NoDuplicates(r)
    ensures NoDuplicates(s) ==> r == s
  {
    if s == [] then []
    else
      var r := RemoveDuplicates(s[..|s| - 1]);
      assert s == s[..|s| - 1] + [s[|s| - 1]];
      if s[|s| - 1] in r then r else r + [s[|s| - 1]]
  }

  predicate NoDuplicates<T(==)>(s: seq<T>) {
    forall i, j :: 0 <= i < j < |s| ==> s[i] != s[j]
  }

  // ------------------------------------------- splitting around protected hosts

  /** The IPv4 literals among the protected hosts, each once; other host names do not count. */
  function ProtectedAddresses(hosts: seq<Option<Address>>): (r: seq<Address>)
    ensures forall h :: h in r <==> Some(h) in hosts
    ensures NoDuplicates(r)
  {
    if hosts == [] then []
    else
      var n := |hosts| - 1;
      var r := ProtectedAddresses(hosts[..n]);
      assert hosts == hosts[..n] + [hosts[n]];
      if hosts[n].Some? && hosts[n].value !in r then r + [hosts[n].value] else r
  }

  ghost function SubtractText(t: RouteText, host: Address): seq<RouteText> {
    if t.Unparsed? then [t] else Texts(SubtractHost(t.route, host))
  }

  ghost function SubtractTexts(ts: seq<RouteText>, host: Address): seq<RouteText> {
    if ts == [] then [] else SubtractText(ts[0], host) + SubtractTexts(ts[1..], host)
  }

  ghost function SplitTexts(ts: seq<RouteText>, hosts: seq<Address>): seq<RouteText>
    decreases hosts
  {
    if hosts == [] then ts else SplitTexts(SubtractTexts(ts, hosts[0]), hosts[1..])
  }

  ghost function SplitEach(routes: seq<RouteText>, hosts: seq<Address>): seq<RouteText> {
    if routes == [] then [] else SplitTexts([routes[0]], hosts) + SplitEach(routes[1..], hosts)
  }

  ghost function Split(routes: seq<RouteText>, hosts: seq<Option<Address>>): seq<RouteText> {
    if ProtectedAddresses(hosts) == [] then routes
    else RemoveDuplicates(SplitEach(routes, ProtectedAddresses(hosts)))
  }

  lemma TextsOf(rs: seq<Route>, ts: seq<RouteText>)
    requires |ts| == |rs| && forall i :: 0 <= i < |rs| ==> ts[i] == Plain(rs[i])
    ensures ts == Texts(rs)
  {
  }

  method CollectProtectedAddresses(hosts: seq<Option<Address>>) returns (addresses: seq<Address>)
    ensures addresses == ProtectedAddresses(hosts)
  {
    addresses := [];
    for i := 0 to |hosts|
      invariant addresses == ProtectedAddresses(hosts[..i])
    {
      assert hosts[..i + 1][..i] == hosts[..i];
      if hosts[i].Some? && hosts[i].value !in addresses {
        addresses := addresses + [hosts[i].value];
      }
    }
    assert hosts[..|hosts|] == hosts;
  }

  /** `splitRoutesKeepingHostsInVpn`: loops over the routes, the hosts and the pieces so far. */
  method SplitRoutesKeepingHostsInVpn(routes: seq<RouteText>, hosts: seq<Option<Address>>)
    returns (result: seq<RouteText>)
    ensures result == Split(routes, hosts)
  {
    hide SplitTexts, SplitEach, ProtectedAddresses, RemoveDuplicates;
    var addresses := CollectProtectedAddresses(hosts);
    if addresses == [] {
      return routes;
    }
    result := [];
    assert routes[0..] == routes;
    for i := 0 to |routes|
      invariant result + SplitEach(routes[i..], addresses) == SplitEach(routes, addresses)
    {
      var pieces := SplitOneText(routes[i], addresses);
      SplitEachStep(result, routes, i, addresses);
      result := result + pieces;
    }
    SplitEachNothing(routes, addresses);
    assert result + [] == result;
    result := RemoveDuplicates(result);
  }

  lemma SplitEachStep(done: seq<RouteText>, routes: seq<RouteText>, i: nat, hosts: seq<Address>)
    requires i < |routes|
    ensures done + SplitEach(routes[i..], hosts)
         == done + SplitTexts([routes[i]], hosts) + SplitEach(routes[i + 1..], hosts)
  {
    hide SplitTexts;
    assert routes[i..][1..] == routes[i + 1..];
  }

  lemma SplitEachNothing(routes: seq<RouteText>, hosts: seq<Address>)
    ensures SplitEach(routes[|routes|..], hosts) == []
  {
  }

  method SplitOneText(route: RouteText, hosts: seq<Address>) returns (pieces: seq<RouteText>)
    ensures pieces == SplitTexts([route], hosts)
  {
    hide SubtractTexts;
    pieces := [route];
    assert hosts[0..] == hosts;
    for j := 0 to |hosts|
      invariant SplitTexts(pieces, hosts[j..]) == SplitTexts([route], hosts)
    {
      assert hosts[j..][1..] == hosts[j + 1..];
      pieces := SubtractFromPieces(pieces, hosts[j]);
    }
  }

  method SubtractFromPieces(pieces: seq<RouteText>, host: Address) returns (next: seq<RouteText>)
    ensures next == SubtractTexts(pieces, host)
  {
    hide SubtractHost, SubtractTexts;
    next := [];
    assert pieces[0..] == pieces;
    for k := 0 to |pieces|
      invariant next + SubtractTexts(pieces[k..], host) == SubtractTexts(pieces, host)
    {
      SubtractTextsStep(next, pieces, k, host);
      if pieces[k].Unparsed? {
        next := next + [pieces[k]];
      } else {
        var parts := SubtractIpv4HostFromRoute(pieces[k].route, host);
        next := next + Texts(parts);
      }
    }
    SubtractTextsNothing(pieces, host);
  }

  lemma SubtractTextsStep(done: seq<RouteText>, ts: seq<RouteText>, k: nat, host: Address)
    requires k < |ts|
    ensures done + SubtractTexts(ts[k..], host)
         == done + SubtractText(ts[k], host) + SubtractTexts(ts[k + 1..], host)
  {
    hide SubtractText;
    assert ts[k..][1..] == ts[k + 1..];
  }

  lemma SubtractTextsNothing(ts: seq<RouteText>, host: Address)
    ensures SubtractTexts(ts[|ts|..], host) == []
  {
  }

  // ------------------------------------------------------- what the split covers

  lemma {:induction false} SubtractTextsOfRoutes(rs: seq<Route>, h: Address)
    ensures SubtractTexts(Texts(rs), h) == Texts(SubtractFromAll(rs, h))
  {
    hide SubtractHost;
    if rs != [] {
      assert Texts(rs)[1..] == Texts(rs[1..]);
      SubtractTextsOfRoutes(rs[1..], h);
      TextsOf(SubtractFromAll(rs, h), SubtractTexts(Texts(rs), h));
    }
  }

  lemma {:induction false} SplitTextsOfRoutes(rs: seq<Route>, hosts: seq<Address>)
    ensures SplitTexts(Texts(rs), hosts) == Texts(SplitPieces(rs, hosts))
    decreases hosts
  {
    if hosts != [] {
      SubtractTextsOfRoutes(rs, hosts[0]);
      SplitTextsOfRoutes(SubtractFromAll(rs, hosts[0]), hosts[1..]);
    }
  }

  /** One text is split into the printed pieces of its route, or kept if it does not parse. */
  lemma {:induction false} SplitOfOneText(t: RouteText, hosts: seq<Address>)
    requires hosts != []
    ensures t.Unparsed? ==> SplitTexts([t], hosts) == [t]
    ensures !t.Unparsed? ==> SplitTexts([t], hosts) == Texts(SplitPieces([t.route], hosts))
    decreases |hosts|
  {
    hide SubtractHost;
    assert [t][1..] == [];
    assert SubtractTexts([t], hosts[0]) == SubtractText(t, hosts[0]);
    if t.Unparsed? {
      if |hosts| > 1 { SplitOfOneText(t, hosts[1..]); }
    } else {
      assert [t.route][1..] == [];
      assert SubtractFromAll([t.route], hosts[0]) == SubtractHost(t.route, hosts[0]);
      SplitTextsOfRoutes(SubtractHost(t.route, hosts[0]), hosts[1..]);
    }
  }

  lemma {:induction false} SplitEachMember(routes: seq<RouteText>, hosts: seq<Address>, t: RouteText)
    ensures t in SplitEach(routes, hosts) <==> exists s :: s in routes && t in SplitTexts([s], hosts)
  {
    hide SplitTexts;
    if routes != [] {
      SplitEachMember(routes[1..], hosts, t);
      assert routes == [routes[0]] + routes[1..];
    }
  }

  lemma TextsCover(rs: seq<Route>, a: int)
    ensures TextCovers(Texts(rs), a) <==> Covers(rs, a)
  {
    hide Contains;
    if Covers(rs, a) {
      var i :| 0 <= i < |rs| && Contains(rs[i], a);
      assert Texts(rs)[i] in Texts(rs) && Reaches(Texts(rs)[i], a);
    }
  }

  lemma OneTextCovers(t: RouteText, hosts: seq<Address>, a: Address)
    requires hosts != []
    ensures TextCovers(SplitTexts([t], hosts), a) <==> Reaches(t, a) && a !in hosts
  {
    hide Contains;
    SplitOfOneText(t, hosts);
    if !t.Unparsed? {
      SplitOneRoute(t.route, hosts);
      TextsCover(SplitPieces([t.route], hosts), a);
    }
  }

  /** The split covers exactly the addresses of the routes that are not protected. */
  lemma SplitCoverage(routes: seq<RouteText>, hosts: seq<Option<Address>>, a: Address)
    ensures TextCovers(Split(routes, hosts), a) <==> TextCovers(routes, a) && Some(a) !in hosts
  {
    hide Contains, SplitTexts;
    var addresses := ProtectedAddresses(hosts);
    if addresses != [] {
      var all := SplitEach(routes, addresses);
      if TextCovers(all, a) {
        var t :| t in all && Reaches(t, a);
        SplitEachMember(routes, addresses, t);
        var s :| s in routes && t in SplitTexts([s], addresses);
        assert TextCovers(SplitTexts([s], addresses), a);
        OneTextCovers(s, addresses, a);
      }
      if TextCovers(routes, a) && a !in addresses {
        var s :| s in routes && Reaches(s, a);
        OneTextCovers(s, addresses, a);
        var t :| t in SplitTexts([s], addresses) && Reaches(t, a);
        SplitEachMember(routes, addresses, t);
      }
      assert TextCovers(Split(routes, hosts), a) <==> TextCovers(all, a);
    }
  }

  /** Texts that are not IPv4 routes pass through untouched, and none appear. */
  lemma SplitKeepsUnparsed(routes: seq<RouteText>, hosts: seq<Option<Address>>, t: RouteText)
    requires t.Unparsed?
    ensures t in Split(routes, hosts) <==> t in routes
  {
    hide SplitTexts;
    var addresses := ProtectedAddresses(hosts);
    if addresses != [] {
      SplitEachMember(routes, addresses, t);
      forall s | s in routes
        ensures t in SplitTexts([s], addresses) <==> t == s
      {
        SplitOfOneText(s, addresses);
      }
    }
  }

  // ------------------------------------------------ canonical IPv4 routes of a list

  predicate Supported(t: RouteText) {
    !t.Unparsed? && Canonical(t.route)
  }

  /** The canonical routes among the texts, each once, in order of first appearance. */
  function SupportedRoutes(ts: seq<RouteText>): (rs: seq<Route>)
    ensures forall r :: r in rs <==> exists t :: t in ts && Supported(t) && t.route == r
    ensures NoDuplicates(rs) && |rs| <= |ts|
  {
    if ts == [] then []
    else
      var n := |ts| - 1;
      var rs := SupportedRoutes(ts[..n]);
      assert ts == ts[..n] + [ts[n]];
      if Supported(ts[n]) && ts[n].route !in rs then rs + [ts[n].route] else rs
  }

  lemma CanonicalIffMasked(r: Route)
    ensures Canonical(r) <==> MaskedStart(r) == r.address
  {
    MaskedEnds(r);
    hide MaskedStart;
    if Canonical(r) { AlignDownUnique(r.address, r.address, HostBits(r)); }
  }

  /** `normalizedSupportedIpv4Routes`. */
  method NormalizedSupportedIpv4Routes(routes: seq<RouteText>)
    returns (normalized: seq<Route>, unsupported: seq<RouteText>)
    ensures normalized == SupportedRoutes(routes)
    ensures unsupported == [] <==> forall t :: t in routes ==> Supported(t)
  {
    hide Canonical, MaskedStart;
    normalized, unsupported := [], [];
    for i := 0 to |routes|
      invariant normalized == SupportedRoutes(routes[..i])
      invariant unsupported == [] <==> forall t :: t in routes[..i] ==> Supported(t)
    {
      assert routes[..i + 1] == routes[..i] + [routes[i]];
      var t := routes[i];
      if !t.Unparsed? { CanonicalIffMasked(t.route); }
      if t.Unparsed? || MaskedStart(t.route) != t.route.address {
        unsupported := unsupported + [t];
      } else if t.route !in normalized {
        normalized := normalized + [t.route];
      }
    }
    assert routes[..|routes|] == routes;
  }
}
