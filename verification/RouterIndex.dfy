/** The router-wide index of routes that may have subscribers (src/router-index.ts). */
module RouterIndexModule {
  import opened Wrappers
  import RouteId

  /** No other route is added or removed. */
  ghost predicate SameElsewhere(before: map<string, int>, after: map<string, int>, routeId: string) {
    forall other :: other != routeId ==> (other in before <==> other in after)
  }

  class RouterIndex {
    var routes: map<string, int>      // route id to the time it was last added

    constructor ()
      ensures routes == map[]
    {
      routes := map[];
    }

    /** Ids that no route may have are ignored. */
    method AddRoute(routeId: string, now: int)
      modifies this
      ensures routes == if RouteId.IsAllowedRouteId(routeId) then old(routes)[routeId := now] else old(routes)
    {
      if !RouteId.IsAllowedRouteId(routeId) {
        return;
      }
      routes := routes[routeId := now];
    }

    method RemoveRoute(routeId: string)
      modifies this
      ensures routes == old(routes) - {routeId}
    {
      routes := routes - {routeId};
    }

    /** Whether the named route, and the root catch-all, are indexed. */
    method IndexedPublicRoutePresence(namedRouteId: Option<string>) returns (named: bool, root: bool)
      ensures named <==>
        namedRouteId.Some? && RouteId.IsValidRouteId(namedRouteId.value) && namedRouteId.value in routes
      ensures root <==> "" in routes
    {
      if namedRouteId.Some? && RouteId.IsValidRouteId(namedRouteId.value) {
        var ids := set id | id in routes && (id == namedRouteId.value || id == "");
        return namedRouteId.value in ids, "" in ids;
      }
      return false, "" in routes;
    }
  }
}
