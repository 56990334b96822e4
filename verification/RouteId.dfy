/** Route ids, environment ids and Durable Object names (src/route-id.ts). */
module RouteId {
  const ENVIRONMENT_ID_MAX_LENGTH := 128
  const DEFAULT_ROUTE_OBJECT_NAME := "dev-router:default"
  const ROUTER_INDEX_OBJECT_NAME := "dev-router:index"

  predicate IsLetterOrDigit(c: char) {
    'A' <= c <= 'Z' || 'a' <= c <= 'z' || '0' <= c <= '9'
  }

  predicate IsRouteIdChar(c: char) {
    IsLetterOrDigit(c) || c == '.' || c == '_' || c == '~' || c == '-'
  }

  /** A non-empty public path prefix that is not a reserved namespace. */
  predicate IsValidRouteId(routeId: string) {
    && |routeId| > 0
    && routeId != "_router" && routeId != "dashboard"
    && forall i :: 0 <= i < |routeId| ==> IsRouteIdChar(routeId[i])
  }

  /** Valid ids, plus the empty id of the root catch-all. */
  predicate IsAllowedRouteId(routeId: string) {
    routeId == "" || IsValidRouteId(routeId)
  }

  predicate IsEnvironmentIdChar(c: char) {
    IsRouteIdChar(c) || c == ':' || c == '@' || c == '+'
  }

  predicate IsAllowedEnvironmentId(value: string) {
    && 0 < |value| <= ENVIRONMENT_ID_MAX_LENGTH
    && forall i :: 0 <= i < |value| ==> IsEnvironmentIdChar(value[i])
  }

  function DurableObjectNameForRoute(routeId: string): string {
    if routeId == "" then DEFAULT_ROUTE_OBJECT_NAME else routeId
  }

  /** Two allowed routes never share a Durable Object, and none of them is the router index. */
  lemma ObjectNamesAreDistinct(left: string, right: string)
    requires IsAllowedRouteId(left) && IsAllowedRouteId(right)
    ensures DurableObjectNameForRoute(left) == DurableObjectNameForRoute(right) <==> left == right
    ensures DurableObjectNameForRoute(left) != ROUTER_INDEX_OBJECT_NAME
  {
    assert !IsRouteIdChar(DEFAULT_ROUTE_OBJECT_NAME[10]);
    assert !IsRouteIdChar(ROUTER_INDEX_OBJECT_NAME[10]);
  }
}
