/** URL information of a focused navigation state (`getRouteInfoFromFocusedState`).

    The navigation state is walked along `routes[0]` at every level below the
    root slot route, collecting the route names as path segments and merging
    the route params; the pathname is then built from the segments, dropping
    groups and filling dynamic segments from the params. */
module RouteInfo {
  import opened Values
  import opened Strings

  /** A route's params object. `values` holds its ordinary keys; `screen` and
      `nested` are its `screen` and `params` keys, which describe the part of
      the focus that was not rendered as nested state. */
  datatype Params = Params(values: ParamMap, screen: Option<Value>, nested: Option<Params>)

  datatype Route = Route(name: string, params: Option<Params>, state: Option<State>)

  datatype State = State(routes: seq<Route>)

  datatype UrlObject = UrlObject(
    globalHref: string,
    pathname: string,
    params: ParamMap,
    segments: seq<string>,
    isIndex: Option<bool>)

  datatype RouteInfoError =
    | MissingRoute                  // a state whose `routes` is empty: `routes[0]` is undefined
    | UnexpectedRoot(name: string)  // "Expected the first route to be __root, but got ..."

  /** `defaultRouteInfo`. */
  const DefaultRouteInfo: UrlObject := UrlObject("", "/", map[], [], None)

  /** The keys that `Object.assign` copies out of a params object. */
  function Entries(p: Option<Params>): ParamMap {
    match p
    case None => map[]
    case Some(ps) =>
      var plain := ps.values - {"screen", "params"};
      var withScreen := if ps.screen.Some? then plain["screen" := ps.screen.value] else plain;
      if ps.nested.Some? then withScreen["params" := Obj] else withScreen
  }

  /** The focused routes below `s`: `routes[0]` of every level, outermost first. */
  function Focused(s: Option<State>): (r: Result<seq<Route>, RouteInfoError>)
    ensures r.Err? ==> r.error == MissingRoute
    ensures s.None? ==> r == Ok([])
    decreases s
  {
    match s
    case None => Ok([])
    case Some(st) =>
      if |st.routes| == 0 then Err(MissingRoute)
      else
        match Focused(st.routes[0].state)
        case Err(e) => Err(e)
        case Ok(rest) => Ok([st.routes[0]] + rest)
  }

  /** The path segments of one route name: a leading `/` is dropped, the rest split on `/`. */
  function NameSegments(name: string): seq<string> {
    Split(if StartsWith(name, "/") then name[1..] else name, '/')
  }

  /** The segments of a chain of focused routes, outermost first. */
  function ChainSegments(rs: seq<Route>): seq<string>
    decreases |rs|
  {
    if rs == [] then [] else ChainSegments(rs[..|rs| - 1]) + NameSegments(rs[|rs| - 1].name)
  }

  /** The params of a chain of focused routes, each level assigned over the ones above. */
  function MergedParams(rs: seq<Route>): ParamMap
    decreases |rs|
  {
    if rs == [] then map[] else MergedParams(rs[..|rs| - 1]) + Entries(rs[|rs| - 1].params)
  }

  /** The string `screen` values along the `params.params...` chain of a params
      object, as long as each level has a `screen` key. */
  function ScreenTrail(p: Option<Params>): seq<string>
    decreases p
  {
    match p
    case None => []
    case Some(ps) =>
      if ps.screen.None? then []
      else (if ps.screen.value.Str? then [ps.screen.value.s] else []) + ScreenTrail(ps.nested)
  }

  /** The string `screen` of a params object, if any. */
  function OwnScreen(p: Option<Params>): seq<string> {
    if p.Some? && p.value.screen.Some? && p.value.screen.value.Str? then [p.value.screen.value.s] else []
  }

  /** Drops one trailing `index` segment. */
  function TrimIndex(s: seq<string>): (r: seq<string>)
    ensures |s| - 1 <= |r| <= |s| && r == s[..|r|]
    ensures |r| < |s| <==> |s| > 0 && s[|s| - 1] == "index"
  {
    if |s| > 0 && s[|s| - 1] == "index" then s[..|s| - 1] else s
  }

  predicate IsGroup(segment: string) {
    StartsWith(segment, "(") && EndsWith(segment, ")")
  }

  predicate IsCatchAll(segment: string) {
    StartsWith(segment, "[...") && EndsWith(segment, "]")
  }

  predicate IsDynamic(segment: string) {
    StartsWith(segment, "[") && EndsWith(segment, "]")
  }

  /** The param name of a catch-all segment `[...name]`, a trailing `?` dropped. */
  function CatchAllName(segment: string): string {
    var name := SliceToLast(segment, 4);
    if EndsWith(name, "?") then name[..|name| - 1] else name
  }

  /** The param name of a dynamic segment `[name]`. */
  function DynamicName(segment: string): string {
    SliceToLast(segment, 1)
  }

  /** A segment with no special meaning: it stands for itself in the pathname. */
  predicate IsStatic(segment: string) {
    !IsGroup(segment) && segment != NOT_FOUND_NAME && !IsDynamic(segment)
  }

  /** What one non-group segment contributes to the pathname (the flatMap callback). */
  function Contribution(segment: string, params: ParamMap): seq<string> {
    if segment == NOT_FOUND_NAME then
      if "not-found" !in params then []
      else
        match params["not-found"]
        case List(items) => items
        case Str(s) => [s]
        case Obj => [ObjectText]
    else if IsCatchAll(segment) then
      var name := CatchAllName(segment);
      if name !in params then []
      else
        match params[name]
        case List(items) => items
        case Str(s) => if s == "" then [] else [s]
        case Obj => [ObjectText]
    else if IsDynamic(segment) then
      var name := DynamicName(segment);
      if name !in params then []
      else
        match params[name]
        case List(items) => [Join(items, ',')]   // an array stringifies with commas
        case Str(s) => if s == "" then [] else [s]
        case Obj => [ObjectText]
    else [segment]
  }

  /** The pathname parts of a segment list: groups dropped, the rest contributed in order. */
  function Parts(segments: seq<string>, params: ParamMap): seq<string>
    decreases |segments|
  {
    if segments == [] then []
    else (if IsGroup(segments[0]) then [] else Contribution(segments[0], params))
         + Parts(segments[1..], params)
  }

  function Pathname(segments: seq<string>, params: ParamMap): (r: string)
    ensures |r| >= 1 && r[0] == '/'
    ensures segments == [] ==> r == "/"
  {
    "/" + Join(Parts(segments, params), '/')
  }

  /** The URL information of a focused state, defined from its chain of focused routes. */
  function RouteInfoOf(focused: State): (r: Result<UrlObject, RouteInfoError>)
    ensures r.Err? && r.error.UnexpectedRoot? <==> |focused.routes| > 0 && focused.routes[0].name != INTERNAL_SLOT_NAME
    ensures r.Ok? <==> |focused.routes| > 0 && focused.routes[0].name == INTERNAL_SLOT_NAME
                       && Focused(focused.routes[0].state).Ok?
    ensures r.Ok? ==> "screen" !in r.value.params && "params" !in r.value.params
    ensures r.Ok? ==> |r.value.pathname| >= 1 && r.value.pathname[0] == '/' && r.value.globalHref == "" && r.value.isIndex.None?
  {
    if |focused.routes| == 0 then Err(MissingRoute)
    else
      var root := focused.routes[0];
      if root.name != INTERNAL_SLOT_NAME then Err(UnexpectedRoot(root.name))
      else
        match Focused(root.state)
        case Err(e) => Err(e)
        case Ok(chain) =>
          var last := if chain == [] then root else chain[|chain| - 1];
          Ok(InfoFrom(ChainSegments(chain), MergedParams(chain), last))
  }

  /** The URL information once the walk has produced the segments and params
      of the focused chain and stopped at route `last`. */
  function InfoFrom(walked: seq<string>, merged: ParamMap, last: Route): UrlObject {
    var segments := TrimIndex(walked + ScreenTrail(last.params) + OwnScreen(last.params));
    var params := merged - {"screen", "params"};
    UrlObject("", Pathname(segments, params), params, segments, None)
  }

  function Prepend(prefix: seq<Route>, r: Result<seq<Route>, RouteInfoError>): Result<seq<Route>, RouteInfoError> {
    match r
    case Ok(rest) => Ok(prefix + rest)
    case Err(e) => Err(e)
  }

  lemma PrependNothing(r: Result<seq<Route>, RouteInfoError>)
    ensures Prepend([], r) == r
  {
    if r.Ok? {
      assert [] + r.value == r.value;
    }
  }

  lemma PrependTwice(prefix: seq<Route>, route: Route, r: Result<seq<Route>, RouteInfoError>)
    ensures Prepend(prefix, Prepend([route], r)) == Prepend(prefix + [route], r)
  {
    if r.Ok? {
      assert prefix + ([route] + r.value) == (prefix + [route]) + r.value;
    }
  }

  /** `getRouteInfoFromFocusedState`. */
  method GetRouteInfoFromFocusedState(focusedState: State) returns (r: Result<UrlObject, RouteInfoError>)
    ensures r == RouteInfoOf(focusedState)
  {
    if |focusedState.routes| == 0 {
      return Err(MissingRoute);
    }
    var route := focusedState.routes[0];
    if route.name != INTERNAL_SLOT_NAME {
      return Err(UnexpectedRoot(route.name));
    }
    ghost var root := route;
    var state := route.state;
    var segments: seq<string> := [];
    var params: ParamMap := map[];
    ghost var visited: seq<Route> := [];
    PrependNothing(Focused(state));

    while state.Some?
      invariant Focused(root.state) == Prepend(visited, Focused(state))
      invariant segments == ChainSegments(visited)
      invariant params == MergedParams(visited)
      invariant route == if visited == [] then root else visited[|visited| - 1]
      decreases state
    {
      var st := state.value;
      if |st.routes| == 0 {
        return Err(MissingRoute);
      }
      route := st.routes[0];
      params := params + Entries(route.params);
      var routeName := route.name;
      if StartsWith(routeName, "/") {
        routeName := routeName[1..];
      }
      segments := segments + Split(routeName, '/');
      WalkStep(visited, route);
      assert Focused(state) == Prepend([route], Focused(route.state));
      PrependTwice(visited, route, Focused(route.state));
      visited := visited + [route];
      state := route.state;
    }
    assert visited + [] == visited;
    assert Focused(root.state) == Ok(visited);

    var info := CompleteRouteInfo(segments, params, route);
    r := Ok(info);
    WalkDone(focusedState, visited);
  }

  /** One more focused route extends the segments and the params of the chain. */
  lemma WalkStep(visited: seq<Route>, route: Route)
    ensures ChainSegments(visited + [route]) == ChainSegments(visited) + NameSegments(route.name)
    ensures MergedParams(visited + [route]) == MergedParams(visited) + Entries(route.params)
  {
    assert (visited + [route])[..|visited|] == visited;
  }

  /** Once the walk has gone down the whole chain, the URL information is
      built from what it collected and from the route it stopped at. */
  lemma WalkDone(focused: State, chain: seq<Route>)
    requires |focused.routes| > 0 && focused.routes[0].name == INTERNAL_SLOT_NAME
    requires Focused(focused.routes[0].state) == Ok(chain)
    ensures RouteInfoOf(focused)
            == Ok(InfoFrom(ChainSegments(chain), MergedParams(chain),
                           if chain == [] then focused.routes[0] else chain[|chain| - 1]))
  {
  }

  /** The part of `getRouteInfoFromFocusedState` after the walk over the focused
      states: the unrendered `screen` chain, the `index` trim, the removal of
      the `screen` and `params` keys and the pathname. */
  method CompleteRouteInfo(walked: seq<string>, merged: ParamMap, route: Route) returns (info: UrlObject)
    ensures info == InfoFrom(walked, merged, route)
  {
    var segments := walked;
    var params := merged;
    var lastRouteParams := route.params;
    while lastRouteParams.Some? && lastRouteParams.value.screen.Some?
      invariant segments + ScreenTrail(lastRouteParams) == walked + ScreenTrail(route.params)
      decreases lastRouteParams
    {
      var screen := lastRouteParams.value.screen.value;
      if screen.Str? {
        segments := segments + [screen.s];
      }
      lastRouteParams := lastRouteParams.value.nested;
    }
    assert ScreenTrail(lastRouteParams) == [];
    assert segments == walked + ScreenTrail(route.params);

    if route.params.Some? && route.params.value.screen.Some? && route.params.value.screen.value.Str? {
      segments := segments + [route.params.value.screen.value.s];
    }
    ghost var full := segments;
    assert full == walked + ScreenTrail(route.params) + OwnScreen(route.params);
    if |segments| > 0 && segments[|segments| - 1] == "index" {
      segments := segments[..|segments| - 1];
    }
    assert segments == TrimIndex(full);

    params := params - {"screen"};
    params := params - {"params"};
    assert params == merged - {"screen", "params"};
    var pathname := Pathname(segments, params);
    info := UrlObject("", pathname, params, segments, None);
  }

  // ---------------------------------------------------------------------------
  // The pathname pipeline

  /** Pathname parts distribute over concatenation of segment lists. */
  lemma {:induction false} PartsAppend(a: seq<string>, b: seq<string>, params: ParamMap)
    ensures Parts(a + b, params) == Parts(a, params) + Parts(b, params)
    decreases |a|
  {
    if a != [] {
      assert (a + b)[0] == a[0];
      assert (a + b)[1..] == a[1..] + b;
      PartsAppend(a[1..], b, params);
    } else {
      assert a + b == b;
    }
  }

  /** A group segment never contributes to the pathname, wherever it stands. */
  lemma GroupSegmentInvisible(before: seq<string>, group: string, after: seq<string>, params: ParamMap)
    requires IsGroup(group)
    ensures Pathname(before + [group] + after, params) == Pathname(before + after, params)
  {
    PartsAppend(before + [group], after, params);
    PartsAppend(before, [group], params);
    PartsAppend(before, after, params);
    assert [group][1..] == [];
    assert Parts([group], params) == [];
    assert Parts(before + [group], params) == Parts(before, params);
    assert Parts(before + [group] + after, params) == Parts(before + after, params);
  }

  /** A `+not-found`, `[...name]` or `[name]` segment whose param is missing
      contributes nothing to the pathname. */
  lemma MissingParamInvisible(before: seq<string>, segment: string, after: seq<string>, params: ParamMap)
    requires || (segment == NOT_FOUND_NAME && "not-found" !in params)
             || (IsCatchAll(segment) && CatchAllName(segment) !in params)
             || (IsDynamic(segment) && !IsCatchAll(segment) && DynamicName(segment) !in params)
    ensures Pathname(before + [segment] + after, params) == Pathname(before + after, params)
  {
    PartsAppend(before + [segment], after, params);
    PartsAppend(before, [segment], params);
    PartsAppend(before, after, params);
    assert Contribution(segment, params) == [] by {
      assert NOT_FOUND_NAME[0] == '+';
      if IsCatchAll(segment) {
        assert segment[..1] == "[";
      }
    }
    assert [segment][1..] == [];
    assert Parts([segment], params) == [];
    assert Parts(before + [segment], params) == Parts(before, params);
    assert Parts(before + [segment] + after, params) == Parts(before + after, params);
  }

  /** An array value of a catch-all param contributes all its elements, in order. */
  lemma CatchAllArray(segment: string, params: ParamMap, items: seq<string>)
    requires IsCatchAll(segment) && !IsGroup(segment)
    requires CatchAllName(segment) in params && params[CatchAllName(segment)] == List(items)
    ensures Parts([segment], params) == items
  {
    assert segment != NOT_FOUND_NAME by {
      assert segment[0] == '[';
      assert NOT_FOUND_NAME[0] == '+';
    }
  }

  lemma {:induction false} StaticParts(segments: seq<string>, params: ParamMap)
    requires forall i :: 0 <= i < |segments| ==> IsStatic(segments[i])
    ensures Parts(segments, params) == segments
    decreases |segments|
  {
    if segments != [] {
      var head := segments[0];
      var tail := segments[1..];
      StaticContribution(head, params);
      assert forall i :: 0 <= i < |tail| ==> IsStatic(tail[i]) by {
        forall i | 0 <= i < |tail| ensures IsStatic(tail[i]) {
          assert tail[i] == segments[i + 1];
        }
      }
      StaticParts(tail, params);
      assert Parts(segments, params) == Contribution(head, params) + Parts(tail, params);
      assert segments == [head] + tail;
    }
  }

  lemma StaticContribution(segment: string, params: ParamMap)
    requires IsStatic(segment)
    ensures Contribution(segment, params) == [segment]
  {
    CatchAllIsDynamic(segment);
  }

  lemma CatchAllIsDynamic(segment: string)
    ensures IsCatchAll(segment) ==> IsDynamic(segment)
  {
    if IsCatchAll(segment) {
      assert segment[..1] == segment[..4][..1];
    }
  }

  /** Static segments appear in the pathname unchanged and in their order. */
  lemma StaticPathname(segments: seq<string>, params: ParamMap)
    requires forall i :: 0 <= i < |segments| ==> IsStatic(segments[i])
    ensures Pathname(segments, params) == "/" + Join(segments, '/')
  {
    StaticParts(segments, params);
  }

  // ---------------------------------------------------------------------------
  // The walk over the focused routes

  /** A leading `/` of a route name is stripped before the name is split:
      joining the segments again gives the name without it. */
  lemma NameSegmentsJoin(name: string)
    ensures Join(NameSegments(name), '/') == if StartsWith(name, "/") then name[1..] else name
  {
    JoinSplit(if StartsWith(name, "/") then name[1..] else name, '/');
  }

  /** A key of the merged params holds the value of the deepest route that sets it. */
  lemma {:induction false} MergedParamsDeepestWins(rs: seq<Route>, j: nat, k: string)
    requires j < |rs| && k in Entries(rs[j].params)
    requires forall i :: j < i < |rs| ==> k !in Entries(rs[i].params)
    ensures k in MergedParams(rs) && MergedParams(rs)[k] == Entries(rs[j].params)[k]
    decreases |rs|
  {
    var n := |rs| - 1;
    if j < n {
      assert k !in Entries(rs[n].params);
      var front := rs[..n];
      assert front[j] == rs[j];
      forall i | j < i < |front| ensures k !in Entries(front[i].params) {
        assert front[i] == rs[i];
      }
      MergedParamsDeepestWins(front, j, k);
    }
  }

  /** A key that no focused route sets is absent from the merged params. */
  lemma {:induction false} MergedParamsOnlyFromRoutes(rs: seq<Route>, k: string)
    requires forall i :: 0 <= i < |rs| ==> k !in Entries(rs[i].params)
    ensures k !in MergedParams(rs)
    decreases |rs|
  {
    if rs != [] {
      var front := rs[..|rs| - 1];
      forall i | 0 <= i < |front| ensures k !in Entries(front[i].params) {
        assert front[i] == rs[i];
      }
      MergedParamsOnlyFromRoutes(front, k);
    }
  }

  /** A string `screen` in the deepest route's params is pushed twice: once by
      the walk over the nested `params` chain, which goes on through the
      screens below it, and once more on its own, after them; only the last
      one can be popped as `index`. */
  lemma ScreenPushedTwice(focused: State, chain: seq<Route>, values: ParamMap, screen: string, nested: Option<Params>)
    requires |focused.routes| > 0 && focused.routes[0].name == INTERNAL_SLOT_NAME
    requires Focused(focused.routes[0].state) == Ok(chain) && chain != []
    requires chain[|chain| - 1].params == Some(Params(values, Some(Str(screen)), nested))
    ensures RouteInfoOf(focused).Ok?
    ensures RouteInfoOf(focused).value.segments
            == TrimIndex(ChainSegments(chain) + [screen] + ScreenTrail(nested) + [screen])
    ensures nested.None? && screen != "index" ==>
              RouteInfoOf(focused).value.segments == ChainSegments(chain) + [screen, screen]
  {
    WalkDone(focused, chain);
    LeafScreenSegments(ChainSegments(chain), MergedParams(chain), chain[|chain| - 1], values, screen, nested);
    if nested.None? && screen != "index" {
      TrimTwice(ChainSegments(chain), screen);
    }
  }

  lemma LeafScreenSegments(walked: seq<string>, merged: ParamMap, last: Route, values: ParamMap, screen: string, nested: Option<Params>)
    requires last.params == Some(Params(values, Some(Str(screen)), nested))
    ensures InfoFrom(walked, merged, last).segments == TrimIndex(walked + [screen] + ScreenTrail(nested) + [screen])
  {
    InfoFromSegments(walked, merged, last);
    LeafScreenTrail(last.params, values, screen, nested);
    SeqAssoc(walked, ScreenTrail(last.params), OwnScreen(last.params));
    SeqAssoc(walked, [screen] + ScreenTrail(nested), [screen]);
    SeqAssoc(walked, [screen], ScreenTrail(nested));
  }

  lemma EmptyPrefix(a: seq<string>)
    ensures [] + a == a
  {
  }

  lemma SeqAssoc(a: seq<string>, b: seq<string>, c: seq<string>)
    ensures a + b + c == a + (b + c)
  {
  }

  /** What the deepest route's `screen` chain adds to the segments. */
  lemma LeafScreenTrail(p: Option<Params>, values: ParamMap, screen: string, nested: Option<Params>)
    requires p == Some(Params(values, Some(Str(screen)), nested))
    ensures ScreenTrail(p) + OwnScreen(p) == [screen] + ScreenTrail(nested) + [screen]
  {
  }

  lemma TrimTwice(walked: seq<string>, screen: string)
    requires screen != "index"
    ensures TrimIndex(walked + [screen] + ScreenTrail(None) + [screen]) == walked + [screen, screen]
  {
    var raw := walked + [screen] + [] + [screen];
    assert raw[|raw| - 1] == screen;
    assert raw == walked + [screen, screen];
  }

  lemma InfoFromSegments(walked: seq<string>, merged: ParamMap, last: Route)
    ensures InfoFrom(walked, merged, last).segments == TrimIndex(walked + ScreenTrail(last.params) + OwnScreen(last.params))
  {
  }

  /** Below a root slot route with no nested state nothing is walked: the
      segments come only from the root's own `screen` chain, and the params
      stay empty. Without a `screen` in its params this is `defaultRouteInfo`. */
  lemma BareSlotIsDefault(p: Option<Params>)
    ensures var info := RouteInfoOf(State([Route(INTERNAL_SLOT_NAME, p, None)]));
            && info.Ok?
            && info.value.segments == TrimIndex(ScreenTrail(p) + OwnScreen(p))
            && info.value.params == map[]
    ensures p.None? || p.value.screen.None? ==>
              RouteInfoOf(State([Route(INTERNAL_SLOT_NAME, p, None)])) == Ok(DefaultRouteInfo)
  {
    var root := Route(INTERNAL_SLOT_NAME, p, None);
    WalkDone(State([root]), []);
    BareSlotInfo(p);
  }

  lemma BareSlotInfo(p: Option<Params>)
    ensures var info := InfoFrom([], map[], Route(INTERNAL_SLOT_NAME, p, None));
            && info.segments == TrimIndex(ScreenTrail(p) + OwnScreen(p))
            && info.params == map[]
    ensures p.None? || p.value.screen.None? ==> InfoFrom([], map[], Route(INTERNAL_SLOT_NAME, p, None)) == DefaultRouteInfo
  {
    var none: ParamMap := map[];
    InfoFromSegments([], none, Route(INTERNAL_SLOT_NAME, p, None));
    SeqAssoc([], ScreenTrail(p), OwnScreen(p));
    EmptyPrefix(ScreenTrail(p) + OwnScreen(p));
    assert none - {"screen", "params"} == none;
    if p.None? || p.value.screen.None? {
      assert ScreenTrail(p) + OwnScreen(p) == [];
      assert Pathname([], none) == "/";
    }
  }
}
