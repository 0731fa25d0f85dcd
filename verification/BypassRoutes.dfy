/** Routes that bypass a full tunnel: VPN endpoints and server exceptions outside the forward routes. */
module BypassRoutes {
  import opened Options
  import opened Prefixes
  import opened RouteTexts
  import opened ManagedPolicy

  /** `ipv4RoutesOverlap` on texts: a text that does not parse overlaps nothing. */
  predicate TextsOverlap(left: RouteText, right: RouteText) {
    !left.Unparsed? && !right.Unparsed? && RoutesOverlap(left.route, right.route)
  }

  ghost predicate SharesAddress(left: RouteText, right: RouteText) {
    exists a: Address :: Reaches(left, a) && Reaches(right, a)
  }

  ghost predicate Touches(t: RouteText, forward: seq<RouteText>) {
    exists f :: f in forward && SharesAddress(t, f)
  }

  /** All addresses of `t` belong to one forward route. */
  ghost predicate Swallowed(t: RouteText, forward: seq<RouteText>) {
    exists f :: f in forward && !f.Unparsed? && !t.Unparsed? && Within(Network(t.route), f.route)
  }

  lemma OverlapMeansShared(left: RouteText, right: RouteText)
    ensures TextsOverlap(left, right) <==> SharesAddress(left, right)
  {
    hide RoutesOverlap, Contains;
    if !left.Unparsed? && !right.Unparsed? {
      OverlapIffSharedAddress(left.route, right.route);
      if TextsOverlap(left, right) {
        var a: Address :| Contains(left.route, a) && Contains(right.route, a);
        assert Reaches(left, a) && Reaches(right, a);
      }
    }
  }

  method OverlapsAny(t: RouteText, forward: seq<RouteText>) returns (found: bool)
    ensures found <==> Touches(t, forward)
  {
    hide TextsOverlap, SharesAddress;
    for i := 0 to |forward|
      invariant forall j :: 0 <= j < i ==> !SharesAddress(t, forward[j])
    {
      OverlapMeansShared(t, forward[i]);
      if TextsOverlap(t, forward[i]) {
        return true;
      }
    }
    return false;
  }

  /** A prefix at least as long as a forward route that meets it lies inside it, and conversely. */
  lemma ContainmentTest(t: RouteText, f: RouteText)
    requires !t.Unparsed? && !f.Unparsed?
    ensures t.route.prefix >= f.route.prefix && TextsOverlap(t, f) <==> Within(Network(t.route), f.route)
  {
    hide First, Size, Contains, RoutesOverlap;
    var r, n := t.route, Network(t.route);
    OverlapIffSharedAddress(r, f.route);
    ContainsOwnAddress(n);
    assert Contains(r, n.address) by { NetworkSame(r, n.address); }
    if r.prefix >= f.route.prefix && TextsOverlap(t, f) {
      var a: Address :| Contains(r, a) && Contains(f.route, a);
      Nested(r, f.route, a);
      FirstInside(n, r, f.route);
    }
  }

  lemma FirstInside(n: Route, r: Route, f: Route)
    requires n == Network(r) && First(f) <= First(r) && First(r) + Size(r) <= First(f) + Size(f)
    ensures Contains(f, n.address)
  {
  }

  method SafelyContained(t: RouteText, forward: seq<RouteText>) returns (safe: bool)
    requires !t.Unparsed? && Touches(t, forward)
    ensures safe <==> Swallowed(t, forward)
  {
    hide TextsOverlap, Within, RoutesOverlap;
    ghost var touched :| touched in forward && SharesAddress(t, touched);
    OverlapMeansShared(t, touched);
    TouchedParses(t, touched);
    ContainmentTest(t, touched);
    if t.route.prefix == 32 {
      return true;
    }
    for i := 0 to |forward|
      invariant forall j :: 0 <= j < i && !forward[j].Unparsed? ==> !Within(Network(t.route), forward[j].route)
    {
      if !forward[i].Unparsed? {
        ContainmentTest(t, forward[i]);
        if t.route.prefix >= forward[i].route.prefix && TextsOverlap(t, forward[i]) {
          return true;
        }
      }
    }
    return false;
  }

  lemma TouchedParses(t: RouteText, f: RouteText)
    requires TextsOverlap(t, f)
    ensures !t.Unparsed? && !f.Unparsed?
  {
  }

  /** Whether the address written in a route belongs to a forward route. */
  predicate Internal(t: RouteText, forward: seq<RouteText>) {
    !t.Unparsed? && exists f :: f in forward && Reaches(f, t.route.address)
  }

  method IsInternal(t: RouteText, forward: seq<RouteText>) returns (internal: bool)
    requires !t.Unparsed?
    ensures internal <==> Internal(t, forward)
  {
    hide ContainedByRoute, Contains;
    for i := 0 to |forward|
      invariant forall j :: 0 <= j < i ==> !Reaches(forward[j], t.route.address)
    {
      if !forward[i].Unparsed? {
        ContainedIffContains(t.route.address, forward[i].route);
        if ContainedByRoute(t.route.address, forward[i].route) {
          assert forward[i] in forward && Reaches(forward[i], t.route.address);
          return true;
        }
      }
    }
    return false;
  }

  predicate IsHost(t: RouteText) {
    t.Plain? && t.route.prefix == 32
  }

  /** The server routes that touch no forward route, in order. */
  ghost function Untouching(server: seq<RouteText>, forward: seq<RouteText>): (r: seq<RouteText>)
    ensures forall t :: t in r <==> t in server && !Touches(t, forward)
  {
    if server == [] then []
    else
      var n := |server| - 1;
      assert server == server[..n] + [server[n]];
      var r := Untouching(server[..n], forward);
      if Touches(server[n], forward) then r else r + [server[n]]
  }

  /** The texts that parse and whose address is outside the forward routes, in order. */
  ghost function UnderlayOf(texts: seq<RouteText>, forward: seq<RouteText>): (r: seq<RouteText>)
    ensures forall t :: t in r <==> t in texts && !t.Unparsed? && !Internal(t, forward)
  {
    if texts == [] then []
    else
      var n := |texts| - 1;
      assert texts == texts[..n] + [texts[n]];
      var r := UnderlayOf(texts[..n], forward);
      if texts[n].Unparsed? || Internal(texts[n], forward) then r else r + [texts[n]]
  }

  ghost function BypassTexts(endpoints: seq<RouteText>, server: seq<RouteText>, forward: seq<RouteText>)
    : seq<RouteText>
  {
    UnderlayOf(endpoints + Untouching(server, forward), forward)
  }

  /**
   `allExceptBypassRoutes`; `endpoints` are the literal endpoint hosts of the profile. The batch is
   valid exactly when every server route that touches a forward route lies inside one, and what
   remains passes the route policy. A valid result shares no address with a forward route, keeps
   every server route that touches none, and holds nothing but such routes and endpoint hosts; its
   critical routes are exactly the endpoint hosts outside the forward routes.
   */
  method AllExceptBypassRoutes(endpoints: seq<RouteText>, endpointsValid: bool,
                               server: seq<RouteText>, forward: seq<RouteText>)
    returns (valid: bool, routes: seq<Route>, critical: seq<Route>)
    requires forall e :: e in endpoints ==> IsHost(e)
    ensures valid <==> && endpointsValid
                       && (forall t :: t in server && Touches(t, forward) ==> Swallowed(t, forward))
                       && Validated(BypassTexts(endpoints, server, forward)).Some?
    ensures !valid ==> routes == []
    ensures valid ==> forall q, f, a: int :: q in routes && f in forward && Contains(q, a) ==> !Reaches(f, a)
    ensures valid ==> forall t :: t in server && !t.Unparsed? && !Touches(t, forward) ==> t.route in routes
    ensures valid ==> forall q :: q in routes ==>
                        || Plain(q) in endpoints
                        || exists t :: t in server && !t.Unparsed? && t.route == q && !Touches(t, forward)
    ensures valid ==> forall r :: r in critical <==> Plain(r) in endpoints && !Internal(Plain(r), forward)
    ensures valid ==> forall r :: r in critical ==> r in routes
  {
    hide Touches, Swallowed, Internal, Validated, Untouching, UnderlayOf, IsHost;
    var kept, routesValid := DropSwallowed(server, forward);
    var underlay := Underlay(endpoints + kept, forward);
    var criticalTexts := CriticalOf(underlay, endpoints);
    var validated := ValidatedManagedRoutes(underlay);
    valid := routesValid && endpointsValid && validated.Some?;
    routes := if valid then validated.value else [];
    critical := [];
    if validated.Some? {
      critical := KeepIn(criticalTexts, validated.value);
      if valid { BypassIsSafe(endpoints, server, forward, routes); }
    }
  }

  /** The first loop: collect untouching server routes, stop at one that leaks. */
  method DropSwallowed(server: seq<RouteText>, forward: seq<RouteText>)
    returns (kept: seq<RouteText>, safe: bool)
    ensures safe <==> forall t :: t in server && Touches(t, forward) ==> Swallowed(t, forward)
    ensures safe ==> kept == Untouching(server, forward)
  {
    hide Touches, Swallowed;
    kept := [];
    for i := 0 to |server|
      invariant kept == Untouching(server[..i], forward)
      invariant forall t :: t in server[..i] && Touches(t, forward) ==> Swallowed(t, forward)
    {
      assert server[..i + 1] == server[..i] + [server[i]];
      var overlaps := OverlapsAny(server[i], forward);
      if !overlaps {
        kept := kept + [server[i]];
      } else {
        TouchesParses(server[i], forward);
        var contained := SafelyContained(server[i], forward);
        if !contained {
          assert server[i] in server;
          return kept, false;
        }
      }
    }
    assert server[..|server|] == server;
    safe := true;
  }

  lemma TouchesParses(t: RouteText, forward: seq<RouteText>)
    requires Touches(t, forward)
    ensures !t.Unparsed?
  {
  }

  lemma ValidatedMembers(ts: seq<RouteText>)
    requires Validated(ts).Some?
    ensures forall t :: t in ts ==> !t.Unparsed? && t.route in Validated(ts).value
    ensures forall r :: r in Validated(ts).value ==> exists t :: t in ts && !t.Unparsed? && t.route == r
  {
    hide Allowed;
    forall t | t in ts
      ensures !t.Unparsed? && t.route in Validated(ts).value
    {
      AllowedIsSupported(t);
    }
  }

  lemma BypassIsSafe(endpoints: seq<RouteText>, server: seq<RouteText>, forward: seq<RouteText>,
                     routes: seq<Route>)
    requires forall e :: e in endpoints ==> IsHost(e)
    requires Validated(BypassTexts(endpoints, server, forward)) == Some(routes)
    ensures forall q, f, a: int :: q in routes && f in forward && Contains(q, a) ==> !Reaches(f, a)
    ensures forall t :: t in server && !t.Unparsed? && !Touches(t, forward) ==> t.route in routes
    ensures forall q :: q in routes ==>
              || Plain(q) in endpoints
              || exists t :: t in server && !t.Unparsed? && t.route == q && !Touches(t, forward)
    ensures forall r :: Plain(r) in endpoints && !Internal(Plain(r), forward) ==> r in routes
  {
    hide Validated, Internal, Contains, Untouching, UnderlayOf, Touches;
    var texts := BypassTexts(endpoints, server, forward);
    ValidatedMembers(texts);
    forall q, f, a: int | q in routes && f in forward && Contains(q, a)
      ensures !Reaches(f, a)
    {
      var t :| t in texts && !t.Unparsed? && t.route == q;
      KeptSharesNothing(t, f, a, endpoints, server, forward);
    }
    forall t | t in server && !t.Unparsed? && !Touches(t, forward)
      ensures t.route in routes
    {
      UntouchingIsExternal(t, forward);
      assert t in endpoints + Untouching(server, forward);
    }
    forall q | q in routes
      ensures Plain(q) in endpoints
           || exists t :: t in server && !t.Unparsed? && t.route == q && !Touches(t, forward)
    {
      var t :| t in texts && !t.Unparsed? && t.route == q;
      assert t in endpoints + Untouching(server, forward);
      if t in endpoints { assert IsHost(t); }
    }
    forall r | Plain(r) in endpoints && !Internal(Plain(r), forward)
      ensures r in routes
    {
      assert Plain(r) in endpoints + Untouching(server, forward);
      assert Plain(r) in texts;
    }
  }

  lemma UntouchingIsExternal(t: RouteText, forward: seq<RouteText>)
    requires !t.Unparsed? && !Touches(t, forward)
    ensures !Internal(t, forward)
  {
    hide Contains;
    ContainsOwnAddress(t.route);
    assert Reaches(t, t.route.address);
    assert forall f :: f in forward && Reaches(f, t.route.address) ==> SharesAddress(t, f);
  }

  lemma KeptSharesNothing(t: RouteText, f: RouteText, a: int, endpoints: seq<RouteText>,
                          server: seq<RouteText>, forward: seq<RouteText>)
    requires forall e :: e in endpoints ==> IsHost(e)
    requires t in BypassTexts(endpoints, server, forward) && f in forward && Reaches(t, a)
    ensures !Reaches(f, a)
  {
    hide Untouching, UnderlayOf, Contains;
    assert t in endpoints + Untouching(server, forward);
    if t in endpoints {
      assert IsHost(t);
      HostHasOneAddress(t.route, a);
    } else {
      AddressOf(t.route, a);
      assert !SharesAddress(t, f);
    }
  }

  lemma HostHasOneAddress(r: Route, a: int)
    requires r.prefix == 32 && Contains(r, a)
    ensures a == r.address
  {
  }

  lemma AddressOf(r: Route, a: int)
    requires Contains(r, a)
    ensures 0 <= a < 0x1_0000_0000
  {
    MaskedEnds(r);
  }

  method Underlay(texts: seq<RouteText>, forward: seq<RouteText>) returns (kept: seq<RouteText>)
    ensures kept == UnderlayOf(texts, forward)
  {
    hide Internal;
    kept := [];
    for i := 0 to |texts|
      invariant kept == UnderlayOf(texts[..i], forward)
    {
      assert texts[..i + 1] == texts[..i] + [texts[i]];
      if !texts[i].Unparsed? {
        var internal := IsInternal(texts[i], forward);
        if !internal {
          kept := kept + [texts[i]];
        }
      }
    }
    assert texts[..|texts|] == texts;
  }

  method CriticalOf(kept: seq<RouteText>, endpoints: seq<RouteText>) returns (critical: seq<Route>)
    requires forall e :: e in endpoints ==> IsHost(e)
    ensures forall r :: r in critical <==> Plain(r) in kept && Plain(r) in endpoints
  {
    critical := [];
    for i := 0 to |kept|
      invariant forall r :: r in critical <==> Plain(r) in kept[..i] && Plain(r) in endpoints
    {
      assert kept[..i + 1] == kept[..i] + [kept[i]];
      if kept[i] in endpoints {
        critical := critical + [kept[i].route];
      }
    }
    assert kept[..|kept|] == kept;
  }

  method KeepIn(routes: seq<Route>, allowed: seq<Route>) returns (kept: seq<Route>)
    ensures forall r :: r in kept <==> r in routes && r in allowed
  {
    kept := [];
    for i := 0 to |routes|
      invariant forall r :: r in kept <==> r in routes[..i] && r in allowed
    {
      assert routes[..i + 1] == routes[..i] + [routes[i]];
      if routes[i] in allowed && routes[i] !in kept {
        kept := kept + [routes[i]];
      }
    }
    assert routes[..|routes|] == routes;
  }
}
