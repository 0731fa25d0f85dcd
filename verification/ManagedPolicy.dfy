/** Which routes a server may manage, and the all-or-nothing validation of a batch of them. */
module ManagedPolicy {
  import opened Options
  import opened Prefixes
  import opened RouteTexts

  const MAXIMUM_ROUTES := 4096
  const MINIMUM_PUBLIC_PREFIX := 16

  /** Special-purpose ranges a managed route must not touch. */
  const SPECIAL_RANGES: seq<Route> := [
    Route(0x0000_0000, 8), Route(0x7f00_0000, 8), Route(0x6440_0000, 10), Route(0xa9fe_0000, 16),
    Route(0xc000_0000, 24), Route(0xc000_0200, 24), Route(0xc01f_0000, 24), Route(0xc01f_c400, 24),
    Route(0xc034_c100, 24), Route(0xc058_6300, 24), Route(0xc0af_3000, 24), Route(0xc612_0000, 15),
    Route(0xc633_6400, 24), Route(0xcb00_7100, 24), Route(0xe000_0000, 4), Route(0xf000_0000, 4)]

  /** RFC 1918 roots, exempt from the minimum prefix length. */
  const PRIVATE_RANGES: seq<Route> := [
    Route(0x0a00_0000, 8), Route(0xac10_0000, 12), Route(0xc0a8_0000, 16)]

  predicate WithinRange(r: Route, range: Route) {
    r.prefix >= range.prefix && ContainedByRoute(r.address, range)
  }

  /** `isAllowedManagedIpv4Route`. The tests for null, loopback, broadcast, link-local and multicast
      hosts are implied by the special ranges. */
  predicate Allowed(r: Route) {
    && r.prefix != 0
    && Canonical(r)
    && (forall i :: 0 <= i < |SPECIAL_RANGES| ==> !RoutesOverlap(r, SPECIAL_RANGES[i]))
    && (|| (exists i :: 0 <= i < |PRIVATE_RANGES| && WithinRange(r, PRIVATE_RANGES[i]))
        || r.prefix >= MINIMUM_PUBLIC_PREFIX)
  }

  /** Spellings the policy parser accepts: the printed one, and aliases such as an explicit /32. */
  predicate AllowedText(t: RouteText) {
    (t.Plain? || (t.Alias? && t.policySpelling)) && Allowed(t.route)
  }

  function Validated(ts: seq<RouteText>): Option<seq<Route>> {
    if |ts| <= MAXIMUM_ROUTES && forall t :: t in ts ==> AllowedText(t)
    then Some(SupportedRoutes(ts))
    else None
  }

  /** `validatedManagedRoutes`. */
  method ValidatedManagedRoutes(values: seq<RouteText>) returns (routes: Option<seq<Route>>)
    ensures routes == Validated(values)
  {
    hide Allowed, Canonical;
    if |values| > MAXIMUM_ROUTES {
      return None;
    }
    var accepted: seq<Route> := [];
    for i := 0 to |values|
      invariant forall t :: t in values[..i] ==> AllowedText(t)
      invariant accepted == SupportedRoutes(values[..i])
    {
      assert values[..i + 1] == values[..i] + [values[i]];
      if !AllowedText(values[i]) {
        return None;
      }
      AllowedIsSupported(values[i]);
      if values[i].route !in accepted {
        accepted := accepted + [values[i].route];
      }
    }
    assert values[..|values|] == values;
    return Some(accepted);
  }

  lemma AllowedIsSupported(t: RouteText)
    requires AllowedText(t)
    ensures Supported(t)
  {
  }

  /** Every canonical route inside an allowed route is allowed. */
  lemma AllowedInside(q: Route, r: Route)
    requires Allowed(r) && Canonical(q) && Within(q, r)
    ensures Allowed(q)
  {
    hide Canonical, First, Size, RoutesOverlap, ContainedByRoute;
    forall i | 0 <= i < |SPECIAL_RANGES|
      ensures !RoutesOverlap(q, SPECIAL_RANGES[i])
    {
      if RoutesOverlap(q, SPECIAL_RANGES[i]) { OverlapInside(q, r, SPECIAL_RANGES[i]); }
    }
    if i :| 0 <= i < |PRIVATE_RANGES| && WithinRange(r, PRIVATE_RANGES[i]) {
      RangeInside(q, r, PRIVATE_RANGES[i]);
      assert WithinRange(q, PRIVATE_RANGES[i]);
    }
  }

  lemma OverlapInside(q: Route, r: Route, range: Route)
    requires Within(q, r) && RoutesOverlap(q, range)
    ensures RoutesOverlap(r, range)
  {
    hide RoutesOverlap, Contains;
    OverlapIffSharedAddress(q, range);
    OverlapIffSharedAddress(r, range);
    var a: Address :| Contains(q, a) && Contains(range, a);
    WithinContains(q, r, a);
  }

  lemma RangeInside(q: Route, r: Route, range: Route)
    requires Within(q, r) && WithinRange(r, range)
    ensures WithinRange(q, range)
  {
    hide Contains, ContainedByRoute;
    ContainedIffContains(r.address, range);
    ContainedIffContains(q.address, range);
    WithinContains(r, range, q.address);
  }
}
