/** The route descriptors of `getRoutes`: the system routes it supplies to the
    route-tree builder and the options it hands over. The builder itself
    (`getRoutesCore`) is not part of this model. */
module Routes {
  import opened Values

  /** The `type` of a route node. */
  datatype RouteType = TypeLayout | TypeRoute | TypeApi | TypeRedirect | TypeRewrite

  /** What a node's `loadRoute` loads. */
  datatype Loader =
    | DefaultNavigator          // `DefaultNavigator` of views/Navigator
    | SitemapView               // `Sitemap` and `getNavOptions` of views/Sitemap
    | UnmatchedView             // `Unmatched` of views/Unmatched
    | RedirectModule(source: string)  // `getRedirectModule(route)` of getRoutesRedirects
    | ContextModule(key: string)      // a route file of the app

  datatype DynamicSegment = DynamicSegment(name: string, deep: bool, notFound: bool)

  datatype RouteNode = RouteNode(
    nodeType: RouteType,
    loadRoute: Loader,
    contextKey: string,
    route: string,
    generated: bool,
    internal: bool,
    dynamic: Option<seq<DynamicSegment>>,
    children: seq<RouteNode>,
    initialRouteName: Option<string>)

  datatype SystemRouteError = UnknownSystemRoute(route: string, routeType: RouteType)

  const SitemapContextKey: string := "expo-router/build/views/Sitemap.js"
  const UnmatchedContextKey: string := "expo-router/build/views/Unmatched.js"

  /** The `getSystemRoute` callback: the descriptor of a route the builder
      needs but the app does not define, or an "Unknown system route" error. */
  function GetSystemRoute(route: string, routeType: RouteType, defaults: Option<RouteNode>): (r: Result<RouteNode, SystemRouteError>)
    ensures r.Ok? <==> || (route == "" && routeType == TypeLayout)
                       || (route == "_sitemap" && routeType == TypeRoute)
                       || (route == NOT_FOUND_NAME && routeType == TypeRoute)
                       || ((routeType == TypeRedirect || routeType == TypeRewrite) && defaults.Some?)
    ensures r.Err? ==> r.error == UnknownSystemRoute(route, routeType)
    ensures r.Ok? && (routeType == TypeLayout || routeType == TypeRoute) ==>
              && r.value.generated && r.value.children == []
              && r.value.route == route && r.value.nodeType == routeType
              && r.value.initialRouteName.None?
    ensures r.Ok? && routeType == TypeLayout ==>
              && r.value.contextKey == DEFAULT_ROOT_LAYOUT_CONTEXT_KEY + ".js"
              && r.value.dynamic.None? && !r.value.internal && r.value.loadRoute == DefaultNavigator
    ensures r.Ok? && route == "_sitemap" && routeType == TypeRoute ==>
              && r.value.internal && r.value.dynamic.None?
              && r.value.contextKey == SitemapContextKey && r.value.loadRoute == SitemapView
    ensures r.Ok? && route == NOT_FOUND_NAME && routeType == TypeRoute ==>
              && r.value.internal && r.value.dynamic == Some([DynamicSegment(NOT_FOUND_NAME, true, true)])
              && r.value.contextKey == UnmatchedContextKey && r.value.loadRoute == UnmatchedView
    ensures r.Ok? && (routeType == TypeRedirect || routeType == TypeRewrite) ==>
              && r.value.loadRoute == RedirectModule(route)
              && r.value.(loadRoute := defaults.value.loadRoute) == defaults.value
  {
    if route == "" && routeType == TypeLayout then
      Ok(RouteNode(TypeLayout, DefaultNavigator, DEFAULT_ROOT_LAYOUT_CONTEXT_KEY + ".js", "", true, false, None, [], None))
    else if route == "_sitemap" && routeType == TypeRoute then
      Ok(RouteNode(TypeRoute, SitemapView, SitemapContextKey, "_sitemap", true, true, None, [], None))
    else if route == NOT_FOUND_NAME && routeType == TypeRoute then
      Ok(RouteNode(TypeRoute, UnmatchedView, UnmatchedContextKey, NOT_FOUND_NAME, true, true,
                   Some([DynamicSegment(NOT_FOUND_NAME, true, true)]), [], None))
    else if (routeType == TypeRedirect || routeType == TypeRewrite) && defaults.Some? then
      Ok(defaults.value.(loadRoute := RedirectModule(route)))
    else
      Err(UnknownSystemRoute(route, routeType))
  }

  /** A value of the options object handed to the route-tree builder. */
  datatype OptionValue = Flag(on: bool) | Text(s: string) | SystemRouteHook | OtherOption(ref: nat)

  type Options = map<string, OptionValue>

  /** The options `getRoutes` gives the builder: its `getSystemRoute` hook,
      with the caller's options spread over it. */
  function RoutesOptions(options: Options): (r: Options)
    ensures forall k :: k in options ==> k in r && r[k] == options[k]
    ensures forall k :: k in r ==> k in options || k == "getSystemRoute"
    ensures "getSystemRoute" in r
    ensures "getSystemRoute" !in options ==> r["getSystemRoute"] == SystemRouteHook
  {
    map["getSystemRoute" := SystemRouteHook] + options
  }

  /** The options `getExactRoutes` makes `getRoutes` hand over. */
  function ExactRoutesOptions(options: Options): (r: Options)
  {
    RoutesOptions(options["skipGenerated" := Flag(true)])
  }

  /** `getExactRoutes` always asks the builder to skip generated routes,
      whatever the caller passed, and keeps every other option. */
  lemma ExactRoutesSkipGenerated(options: Options)
    ensures "skipGenerated" in ExactRoutesOptions(options)
    ensures ExactRoutesOptions(options)["skipGenerated"] == Flag(true)
    ensures forall k :: k in options && k != "skipGenerated" ==> ExactRoutesOptions(options)[k] == options[k]
    ensures ExactRoutesOptions(options).Keys == RoutesOptions(options).Keys + {"skipGenerated"}
  {
    var given := options["skipGenerated" := Flag(true)];
    assert RoutesOptions(given)["skipGenerated"] == given["skipGenerated"];
  }
}
