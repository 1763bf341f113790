/** The screens of a layout (`useScreens`): ordering the route's children by
    the `<Screen />` elements the layout declares, the `getId` each screen
    gets, singular screen ids, and the merged screen options.

    User callbacks (`options`, `listeners`, `getId`, `dangerouslySingular`
    functions) are known here by a reference number only; where the model
    needs what they return, the caller supplies it as a function. */
module Screens {
  import opened Values
  import opened Strings
  import opened Routes
  import opened Sorting

  /** The `redirect` prop: absent, a boolean, or a target route (unsupported). */
  datatype Redirect = NoRedirect | RedirectFlag(on: bool) | RedirectTo(target: string)

  /** The `dangerouslySingular` prop. */
  datatype Singular = NoSingular | SingularFlag(on: bool) | SingularKey(key: string) | SingularFn(fn: nat)

  /** A prop value the screen only forwards (`initialParams`, `listeners`). */
  datatype Forwarded = Absent | Given(ref: nat)

  /** One screen option value; the generated-route overrides are named. */
  datatype ScreenOption = UserOption(ref: nat) | HiddenTabBarItemStyle | NullTabBarButton | HiddenDrawerItemStyle

  type OptionMap = map<string, ScreenOption>

  /** The `options` prop, or a module's `getNavOptions`: absent, an object, or a callback. */
  datatype OptionsProp = NoOptions | StaticOptions(values: OptionMap) | OptionsCallback(fn: nat)

  /** The props of one `<Screen />` element. */
  datatype ScreenProps = ScreenProps(
    name: Option<string>,
    redirect: Redirect,
    initialParams: Forwarded,
    listeners: Forwarded,
    options: OptionsProp,
    getId: Option<nat>,
    singular: Singular)

  /** The `getId` function a sorted screen is given. */
  datatype GetId =
    | NoGetId
    | UserGetId(fn: nat)                        // the screen's own `getId`
    | ConstantId(id: string)                    // `() => singular`
    | SingularCallback(fn: nat, name: string)   // `(o) => singular(name, o.params || {})`
    | SingularFromName(name: string)            // `(o) => getSingularId(name, o)`

  datatype Props = EmptyProps | Props(initialParams: Forwarded, listeners: Forwarded, options: OptionsProp, getId: GetId)

  datatype SortedScreen = SortedScreen(route: RouteNode, props: Props)

  datatype SortError = RedirectTargetUnsupported(target: string)

  datatype SingularIdError = NotAnArray(param: string)   // `.join` called on a value that is not an array

  // ---------------------------------------------------------------------------
  // Singular ids

  /** One `/`-separated segment of a route name, with its dynamic part filled from the params. */
  function SingularSegment(segment: string, params: Option<ParamMap>): Result<string, SingularIdError> {
    if StartsWith(segment, "[...") then
      var key := SliceToLast(segment, 4);
      if params.None? || key !in params.value then Ok(segment)
      else
        match params.value[key]
        case List(items) => var joined := Join(items, '/'); Ok(if joined == "" then segment else joined)
        case _ => Err(NotAnArray(key))
    else if StartsWith(segment, "[") then
      var key := SliceToLast(segment, 1);
      if params.None? || key !in params.value then Ok(segment)
      else
        match params.value[key]
        case Str(s) => Ok(if s == "" then segment else s)
        case List(items) => Ok(Join(items, ','))   // an array stringifies with commas
        case Obj => Ok(ObjectText)
    else Ok(segment)
  }

  /** The segments mapped one by one, stopping at the first that throws. */
  function SingularSegments(segments: seq<string>, params: Option<ParamMap>): (r: Result<seq<string>, SingularIdError>)
    ensures r.Ok? ==> |r.value| == |segments|
    ensures r.Ok? ==> forall i :: 0 <= i < |segments| ==> SingularSegment(segments[i], params) == Ok(r.value[i])
    ensures r.Ok? <==> forall i :: 0 <= i < |segments| ==> SingularSegment(segments[i], params).Ok?
    decreases |segments|
  {
    if segments == [] then Ok([])
    else
      match SingularSegment(segments[0], params)
      case Err(e) => Err(e)
      case Ok(first) =>
        match SingularSegments(segments[1..], params)
        case Err(e) => Err(e)
        case Ok(rest) => Ok([first] + rest)
  }

  /** `getSingularId(name, { params })`. */
  function GetSingularId(name: string, params: Option<ParamMap>): Result<string, SingularIdError> {
    match SingularSegments(Split(name, '/'), params)
    case Err(e) => Err(e)
    case Ok(pieces) => Ok(Join(pieces, '/'))
  }

  /** With no params, or empty params, the singular id is the name itself. */
  lemma SingularIdWithoutParams(name: string, params: Option<ParamMap>)
    requires params.None? || params.value == map[]
    ensures GetSingularId(name, params) == Ok(name)
  {
    var segments := Split(name, '/');
    var r := SingularSegments(segments, params);
    assert r.Ok? && r.value == segments by {
      assert r.Ok?;
      assert forall i :: 0 <= i < |segments| ==> r.value[i] == segments[i];
    }
    JoinSplit(name, '/');
  }

  /** A `[key]` segment takes a non-empty string value of `params[key]`. */
  lemma SingularDynamicFilled(key: string, params: ParamMap, value: string)
    requires !StartsWith(key, "...")
    requires key in params && params[key] == Str(value) && value != ""
    ensures SingularSegment("[" + key + "]", Some(params)) == Ok(value)
  {
    var segment := "[" + key + "]";
    assert StartsWith(segment, "[") by { assert segment[..1] == "["; }
    assert !StartsWith(segment, "[...") by {
      if |segment| >= 4 {
        if |key| >= 3 {
          assert segment[1..4] == key[..3];
        } else {
          assert segment[..4][|key| + 1] == ']';
        }
      }
    }
    assert SliceToLast(segment, 1) == key;
  }

  /** A `[...key]` segment takes its array value joined with `/`, when that is not empty. */
  lemma SingularCatchAllFilled(key: string, params: ParamMap, items: seq<string>)
    requires key in params && params[key] == List(items) && Join(items, '/') != ""
    ensures SingularSegment("[..." + key + "]", Some(params)) == Ok(Join(items, '/'))
  {
    var segment := "[..." + key + "]";
    assert StartsWith(segment, "[...") by { assert segment[..4] == "[..."; }
    assert SliceToLast(segment, 4) == key;
  }

  /** A segment that is not dynamic, or whose param has no value, is kept
      verbatim; so is a catch-all whose array joins to the empty string. */
  lemma SingularSegmentKept(segment: string, params: ParamMap)
    requires || !StartsWith(segment, "[")
             || (StartsWith(segment, "[...") && SliceToLast(segment, 4) !in params)
             || (StartsWith(segment, "[...") && SliceToLast(segment, 4) in params
                 && params[SliceToLast(segment, 4)].List? && Join(params[SliceToLast(segment, 4)].items, '/') == "")
             || (!StartsWith(segment, "[...") && SliceToLast(segment, 1) !in params)
             || (!StartsWith(segment, "[...") && SliceToLast(segment, 1) in params && params[SliceToLast(segment, 1)] == Str(""))
    ensures SingularSegment(segment, Some(params)) == Ok(segment)
  {
    if StartsWith(segment, "[...") {
      assert StartsWith(segment, "[") by { assert segment[..1] == segment[..4][..1]; }
    }
  }

  // ---------------------------------------------------------------------------
  // getId

  predicate SingularTruthy(singular: Singular) {
    match singular
    case NoSingular => false
    case SingularFlag(on) => on
    case SingularKey(key) => key != ""
    case SingularFn(_) => true
  }

  /** The `getId` of a matched screen: its own `getId` if it has one, else the
      one its `dangerouslySingular` prop stands for. A function or `true`
      needs a non-empty name, otherwise the screen gets no `getId`. */
  function ResolveGetId(name: Option<string>, getId: Option<nat>, singular: Singular): GetId {
    if getId.Some? then UserGetId(getId.value)
    else if !SingularTruthy(singular) then NoGetId
    else
      match singular
      case SingularKey(key) => ConstantId(key)
      case SingularFn(fn) => if name.Some? && name.value != "" then SingularCallback(fn, name.value) else NoGetId
      case SingularFlag(_) => if name.Some? && name.value != "" then SingularFromName(name.value) else NoGetId
      case NoSingular => NoGetId
  }

  /** The id a `getId` gives for a route's params. `userGetId(fn, params)` and
      `userSingular(fn, name, params)` stand for calling the user's functions. */
  function CallGetId(g: GetId, params: Option<ParamMap>,
                     userGetId: (nat, Option<ParamMap>) -> Option<string>,
                     userSingular: (nat, string, ParamMap) -> Option<string>): Result<Option<string>, SingularIdError> {
    match g
    case NoGetId => Ok(None)
    case UserGetId(fn) => Ok(userGetId(fn, params))
    case ConstantId(id) => Ok(Some(id))
    case SingularCallback(fn, name) => Ok(userSingular(fn, name, if params.Some? then params.value else map[]))
    case SingularFromName(name) =>
      match GetSingularId(name, params)
      case Ok(id) => Ok(Some(id))
      case Err(e) => Err(e)
  }

  /** An explicit `getId` is kept, whatever `dangerouslySingular` says. */
  lemma ExplicitGetIdWins(name: Option<string>, fn: nat, singular: Singular, params: Option<ParamMap>,
                          userGetId: (nat, Option<ParamMap>) -> Option<string>,
                          userSingular: (nat, string, ParamMap) -> Option<string>)
    ensures ResolveGetId(name, Some(fn), singular) == UserGetId(fn)
    ensures CallGetId(ResolveGetId(name, Some(fn), singular), params, userGetId, userSingular) == Ok(userGetId(fn, params))
  {
  }

  /** Without `getId`: a string gives that constant id, a function is called
      with the name and the params (an empty object when there are none), and
      `true` gives the singular id of the name; a falsy value gives no `getId`. */
  lemma SingularGetId(name: string, singular: Singular, params: Option<ParamMap>,
                      userGetId: (nat, Option<ParamMap>) -> Option<string>,
                      userSingular: (nat, string, ParamMap) -> Option<string>)
    requires name != ""
    ensures !SingularTruthy(singular) ==> ResolveGetId(Some(name), None, singular) == NoGetId
    ensures singular.SingularKey? && singular.key != "" ==>
              CallGetId(ResolveGetId(Some(name), None, singular), params, userGetId, userSingular) == Ok(Some(singular.key))
    ensures singular.SingularFn? ==>
              CallGetId(ResolveGetId(Some(name), None, singular), params, userGetId, userSingular)
                == Ok(userSingular(singular.fn, name, if params.None? then map[] else params.value))
    ensures singular == SingularFlag(true) ==>
              && ResolveGetId(Some(name), None, singular) == SingularFromName(name)
              && (GetSingularId(name, params).Ok? ==>
                    CallGetId(ResolveGetId(Some(name), None, singular), params, userGetId, userSingular)
                      == Ok(Some(GetSingularId(name, params).value)))
  {
  }

  // ---------------------------------------------------------------------------
  // Sorting the children

  predicate RedirectTruthy(redirect: Redirect) {
    match redirect
    case NoRedirect => false
    case RedirectFlag(on) => on
    case RedirectTo(target) => target != ""
  }

  /** `entries.findIndex((child) => child.route === name)`. */
  function FindRoute(entries: seq<RouteNode>, name: Option<string>): (i: int)
    ensures -1 <= i < |entries|
    ensures i >= 0 ==> name == Some(entries[i].route) && forall j :: 0 <= j < i ==> name != Some(entries[j].route)
    ensures i == -1 ==> forall j :: 0 <= j < |entries| ==> name != Some(entries[j].route)
    decreases |entries|
  {
    if entries == [] then -1
    else if name == Some(entries[0].route) then 0
    else
      var i := FindRoute(entries[1..], name);
      if i == -1 then -1 else i + 1
  }

  function RemoveAt(s: seq<RouteNode>, i: nat): (r: seq<RouteNode>)
    requires i < |s|
    ensures multiset(r) + multiset{s[i]} == multiset(s)
    ensures |r| == |s| - 1
  {
    assert s == s[..i] + [s[i]] + s[i + 1..];
    s[..i] + s[i + 1..]
  }

  /** What one order entry does: the screen it yields, if any, and the children left. */
  function MatchEntry(entries: seq<RouteNode>, e: ScreenProps): (r: Result<(Option<SortedScreen>, seq<RouteNode>), SortError>)
    ensures entries == [] ==> r == Ok((None, entries))
    ensures FindRoute(entries, e.name) == -1 ==> r == Ok((None, entries))
    ensures r.Err? ==> e.redirect.RedirectTo? && e.redirect.target != "" && FindRoute(entries, e.name) >= 0
    ensures r.Ok? && r.value.0.Some? ==>
              && FindRoute(entries, e.name) >= 0 && !RedirectTruthy(e.redirect)
              && r.value.0.value.route == entries[FindRoute(entries, e.name)]
              && r.value.0.value.props.Props?
    ensures r.Ok? && r.value.1 != entries ==>
              && FindRoute(entries, e.name) >= 0
              && r.value.1 == RemoveAt(entries, FindRoute(entries, e.name))
  {
    if entries == [] then Ok((None, entries))
    else
      var matchIndex := FindRoute(entries, e.name);
      if matchIndex == -1 then Ok((None, entries))
      else
        var rest := RemoveAt(entries, matchIndex);
        if RedirectTruthy(e.redirect) then
          if e.redirect.RedirectTo? then Err(RedirectTargetUnsupported(e.redirect.target))
          else Ok((None, rest))
        else
          var getId := ResolveGetId(e.name, e.getId, e.singular);
          Ok((Some(SortedScreen(entries[matchIndex], Props(e.initialParams, e.listeners, e.options, getId))), rest))
  }

  /** The screens the order entries yield, in order, and the children none of them consumed. */
  function MatchOrder(entries: seq<RouteNode>, order: seq<ScreenProps>): Result<(seq<SortedScreen>, seq<RouteNode>), SortError>
    decreases |order|
  {
    if order == [] then Ok(([], entries))
    else
      match MatchEntry(entries, order[0])
      case Err(e) => Err(e)
      case Ok((yielded, rest)) =>
        match MatchOrder(rest, order[1..])
        case Err(e) => Err(e)
        case Ok((screens, left)) => Ok((OptionToSeq(yielded) + screens, left))
  }

  function OptionToSeq(o: Option<SortedScreen>): seq<SortedScreen> {
    if o.Some? then [o.value] else []
  }

  function WithoutProps(routes: seq<RouteNode>): (r: seq<SortedScreen>)
    ensures |r| == |routes|
    ensures forall i :: 0 <= i < |routes| ==> r[i] == SortedScreen(routes[i], EmptyProps)
  {
    seq(|routes|, i requires 0 <= i < |routes| => SortedScreen(routes[i], EmptyProps))
  }

  function RoutesOf(screens: seq<SortedScreen>): (r: seq<RouteNode>)
    ensures |r| == |screens|
    ensures forall i :: 0 <= i < |screens| ==> r[i] == screens[i].route
  {
    seq(|screens|, i requires 0 <= i < |screens| => screens[i].route)
  }

  /** The screens of a layout, defined from the order entries' matches. */
  function SortedChildren(children: seq<RouteNode>, order: seq<ScreenProps>, compare: (RouteNode, RouteNode) -> int): Result<seq<SortedScreen>, SortError> {
    if order == [] then Ok(WithoutProps(SortBy(children, compare)))
    else
      match MatchOrder(children, order)
      case Err(e) => Err(e)
      case Ok((screens, left)) => Ok(screens + WithoutProps(SortBy(left, compare)))
  }

  function Extend(prefix: seq<SortedScreen>, r: Result<(seq<SortedScreen>, seq<RouteNode>), SortError>): Result<(seq<SortedScreen>, seq<RouteNode>), SortError> {
    match r
    case Err(e) => Err(e)
    case Ok((screens, left)) => Ok((prefix + screens, left))
  }

  /** `getSortedChildren(children, order, initialRouteName)`, with `compare`
      standing for `sortRoutesWithInitial(initialRouteName)`. */
  method GetSortedChildren(children: seq<RouteNode>, order: seq<ScreenProps>, compare: (RouteNode, RouteNode) -> int)
    returns (r: Result<seq<SortedScreen>, SortError>)
    ensures r == SortedChildren(children, order, compare)
    ensures order == [] ==> r.Ok? && RoutesOf(r.value) == SortBy(children, compare)
                            && forall i :: 0 <= i < |r.value| ==> r.value[i].props == EmptyProps
  {
    if |order| == 0 {
      var sorted := SortBy(children, compare);
      r := Ok(WithoutProps(sorted));
      assert RoutesOf(r.value) == sorted;
      return;
    }
    var entries := children;
    var ordered: seq<SortedScreen> := [];
    var i := 0;
    assert order[0..] == order;
    assert MatchOrder(children, order) == Extend([], MatchOrder(children, order)) by {
      ExtendNothing(MatchOrder(children, order));
    }
    while i < |order|
      invariant 0 <= i <= |order|
      invariant MatchOrder(children, order) == Extend(ordered, MatchOrder(entries, order[i..]))
    {
      var e := order[i];
      ghost var before := entries;
      ghost var orderedBefore := ordered;
      ghost var yielded: Option<SortedScreen> := None;
      if |entries| > 0 {
        var matchIndex := FindRoute(entries, e.name);
        if matchIndex != -1 {
          MatchEntryFound(entries, e, matchIndex);
          var found := entries[matchIndex];
          entries := entries[..matchIndex] + entries[matchIndex + 1..];
          if RedirectTruthy(e.redirect) {
            if e.redirect.RedirectTo? {
              assert order[i..][0] == e;
              MatchOrderFails(before, order[i..], ordered);
              SortedChildrenFails(children, order, compare);
              return Err(RedirectTargetUnsupported(e.redirect.target));
            }
          } else {
            var getId := ResolveGetId(e.name, e.getId, e.singular);
            yielded := Some(SortedScreen(found, Props(e.initialParams, e.listeners, e.options, getId)));
            ordered := ordered + [SortedScreen(found, Props(e.initialParams, e.listeners, e.options, getId))];
          }
        }
      }
      assert order[i..][0] == e;
      MatchOrderStep(before, order[i..], orderedBefore, yielded, entries);
      assert ordered == orderedBefore + OptionToSeq(yielded);
      assert order[i..][1..] == order[i + 1..];
      i := i + 1;
    }
    assert order[i..] == [];
    SortedChildrenDone(children, order, compare, ordered, entries);
    var rest := SortBy(entries, compare);
    ordered := ordered + WithoutProps(rest);
    r := Ok(ordered);
  }

  /** Once every order entry has been matched, the screens are those it
      yielded followed by the sorted leftovers. */
  lemma SortedChildrenDone(children: seq<RouteNode>, order: seq<ScreenProps>, compare: (RouteNode, RouteNode) -> int,
                           ordered: seq<SortedScreen>, entries: seq<RouteNode>)
    requires order != [] && MatchOrder(children, order) == Extend(ordered, MatchOrder(entries, []))
    ensures SortedChildren(children, order, compare) == Ok(ordered + WithoutProps(SortBy(entries, compare)))
  {
    assert ordered + [] == ordered;
  }

  /** An order entry that throws makes the whole sort throw. */
  lemma SortedChildrenFails(children: seq<RouteNode>, order: seq<ScreenProps>, compare: (RouteNode, RouteNode) -> int)
    requires order != [] && MatchOrder(children, order).Err?
    ensures SortedChildren(children, order, compare) == Err(MatchOrder(children, order).error)
  {
  }

  lemma ExtendNothing(r: Result<(seq<SortedScreen>, seq<RouteNode>), SortError>)
    ensures Extend([], r) == r
  {
    if r.Ok? {
      assert [] + r.value.0 == r.value.0;
    }
  }

  lemma ExtendTwice(prefix: seq<SortedScreen>, more: seq<SortedScreen>, r: Result<(seq<SortedScreen>, seq<RouteNode>), SortError>)
    ensures Extend(prefix, Extend(more, r)) == Extend(prefix + more, r)
  {
    if r.Ok? {
      assert prefix + (more + r.value.0) == (prefix + more) + r.value.0;
    }
  }

  /** One step of the loop: the entry at the head of `tail` yields `yielded` and leaves `rest`. */
  lemma MatchOrderStep(before: seq<RouteNode>, tail: seq<ScreenProps>, prefix: seq<SortedScreen>,
                       yielded: Option<SortedScreen>, rest: seq<RouteNode>)
    requires tail != [] && MatchEntry(before, tail[0]) == Ok((yielded, rest))
    ensures Extend(prefix, MatchOrder(before, tail)) == Extend(prefix + OptionToSeq(yielded), MatchOrder(rest, tail[1..]))
  {
    ExtendTwice(prefix, OptionToSeq(yielded), MatchOrder(rest, tail[1..]));
  }

  /** What one order entry does to a non-empty list of children with a match,
      spelled out for the loop of `GetSortedChildren`. */
  lemma MatchEntryFound(entries: seq<RouteNode>, e: ScreenProps, m: int)
    requires entries != [] && m == FindRoute(entries, e.name) && m != -1
    ensures RedirectTruthy(e.redirect) && e.redirect.RedirectTo? ==>
              MatchEntry(entries, e) == Err(RedirectTargetUnsupported(e.redirect.target))
    ensures RedirectTruthy(e.redirect) && !e.redirect.RedirectTo? ==>
              MatchEntry(entries, e) == Ok((None, entries[..m] + entries[m + 1..]))
    ensures !RedirectTruthy(e.redirect) ==>
              MatchEntry(entries, e)
                == Ok((Some(SortedScreen(entries[m], Props(e.initialParams, e.listeners, e.options, ResolveGetId(e.name, e.getId, e.singular)))),
                       entries[..m] + entries[m + 1..]))
  {
  }

  /** An entry at the head of `tail` that throws makes the whole match throw. */
  lemma MatchOrderFails(before: seq<RouteNode>, tail: seq<ScreenProps>, prefix: seq<SortedScreen>)
    requires tail != [] && MatchEntry(before, tail[0]).Err?
    ensures Extend(prefix, MatchOrder(before, tail)) == Err(MatchEntry(before, tail[0]).error)
  {
  }

  // ---------------------------------------------------------------------------
  // What the ordering keeps

  /** Some order entry with a truthy `redirect` names this route. */
  predicate RedirectedBy(order: seq<ScreenProps>, route: string) {
    exists j :: 0 <= j < |order| && order[j].name == Some(route) && RedirectTruthy(order[j].redirect)
  }

  /** How often `c` occurs among the yielded screens and the children left. */
  function Kept(r: (seq<SortedScreen>, seq<RouteNode>), c: RouteNode): nat {
    multiset(RoutesOf(r.0))[c] + multiset(r.1)[c]
  }

  lemma KeptExtend(prefix: seq<SortedScreen>, r: (seq<SortedScreen>, seq<RouteNode>), c: RouteNode)
    ensures Kept((prefix + r.0, r.1), c) == multiset(RoutesOf(prefix))[c] + Kept(r, c)
  {
    assert RoutesOf(prefix + r.0) == RoutesOf(prefix) + RoutesOf(r.0);
  }

  /** No child is yielded by the order entries more often than it occurs, and a
      child is lost only when a `redirect` entry names it. */
  lemma {:induction false} MatchOrderKeepsChildren(entries: seq<RouteNode>, order: seq<ScreenProps>, c: RouteNode)
    requires MatchOrder(entries, order).Ok?
    ensures Kept(MatchOrder(entries, order).value, c) <= multiset(entries)[c]
    ensures !RedirectedBy(order, c.route) ==> Kept(MatchOrder(entries, order).value, c) == multiset(entries)[c]
    decreases |order|
  {
    if order != [] {
      var step := MatchEntry(entries, order[0]).value;
      MatchEntryKeeps(entries, order[0], c);
      MatchOrderKeepsChildren(step.1, order[1..], c);
      var tail := MatchOrder(step.1, order[1..]).value;
      assert MatchOrder(entries, order).value == (OptionToSeq(step.0) + tail.0, tail.1);
      KeptExtend(OptionToSeq(step.0), tail, c);
      if !RedirectedBy(order, c.route) {
        assert !RedirectedBy(order[1..], c.route);
      }
    } else {
      assert RoutesOf([]) == [];
    }
  }

  /** One order entry neither duplicates a child nor loses one, unless it is
      a `redirect` entry naming that child. */
  lemma MatchEntryKeeps(entries: seq<RouteNode>, e: ScreenProps, c: RouteNode)
    requires MatchEntry(entries, e).Ok?
    ensures multiset(RoutesOf(OptionToSeq(MatchEntry(entries, e).value.0)))[c] + multiset(MatchEntry(entries, e).value.1)[c]
              <= multiset(entries)[c]
    ensures !(e.name == Some(c.route) && RedirectTruthy(e.redirect)) ==>
              multiset(RoutesOf(OptionToSeq(MatchEntry(entries, e).value.0)))[c] + multiset(MatchEntry(entries, e).value.1)[c]
                == multiset(entries)[c]
  {
    var (yielded, rest) := MatchEntry(entries, e).value;
    if yielded.Some? {
      assert RoutesOf(OptionToSeq(yielded)) == [yielded.value.route];
    } else {
      assert RoutesOf(OptionToSeq(yielded)) == [];
      if rest != entries {
        var i := FindRoute(entries, e.name);
        assert multiset(rest) + multiset{entries[i]} == multiset(entries);
      }
    }
  }

  /** Every child occurs in the layout's screens at most as often as among the
      children, and exactly as often unless a `redirect` entry names it. */
  lemma SortedChildrenKeepsChildren(children: seq<RouteNode>, order: seq<ScreenProps>, compare: (RouteNode, RouteNode) -> int, c: RouteNode)
    requires SortedChildren(children, order, compare).Ok?
    ensures multiset(RoutesOf(SortedChildren(children, order, compare).value))[c] <= multiset(children)[c]
    ensures !RedirectedBy(order, c.route) ==>
              multiset(RoutesOf(SortedChildren(children, order, compare).value))[c] == multiset(children)[c]
  {
    if order == [] {
      RoutesWithLeftovers([], children, compare);
      assert [] + WithoutProps(SortBy(children, compare)) == WithoutProps(SortBy(children, compare));
    } else {
      var (screens, left) := MatchOrder(children, order).value;
      MatchOrderKeepsChildren(children, order, c);
      RoutesWithLeftovers(screens, left, compare);
    }
  }

  /** The routes of the matched screens followed by the sorted leftovers are
      the matched routes and the leftovers, as a multiset. */
  lemma RoutesWithLeftovers(screens: seq<SortedScreen>, left: seq<RouteNode>, compare: (RouteNode, RouteNode) -> int)
    ensures multiset(RoutesOf(screens + WithoutProps(SortBy(left, compare)))) == multiset(RoutesOf(screens)) + multiset(left)
  {
    var sorted := SortBy(left, compare);
    RoutesOfAppend(screens, WithoutProps(sorted));
    RoutesOfWithoutProps(sorted);
  }

  lemma RoutesOfAppend(a: seq<SortedScreen>, b: seq<SortedScreen>)
    ensures RoutesOf(a + b) == RoutesOf(a) + RoutesOf(b)
  {
  }

  lemma RoutesOfWithoutProps(routes: seq<RouteNode>)
    ensures RoutesOf(WithoutProps(routes)) == routes
  {
  }

  /** `a` is a subsequence of `b`. */
  predicate Subsequence(a: seq<Option<string>>, b: seq<Option<string>>)
    decreases |b|
  {
    if a == [] then true
    else if b == [] then false
    else (a[0] == b[0] && Subsequence(a[1..], b[1..])) || Subsequence(a, b[1..])
  }

  function NamesOf(screens: seq<SortedScreen>): (r: seq<Option<string>>)
    ensures |r| == |screens|
  {
    seq(|screens|, i requires 0 <= i < |screens| => Some(screens[i].route.route))
  }

  function OrderNames(order: seq<ScreenProps>): (r: seq<Option<string>>)
    ensures |r| == |order|
  {
    seq(|order|, i requires 0 <= i < |order| => order[i].name)
  }

  /** The screens the order entries yield carry their props and follow the
      order list: their names are a subsequence of the entries' names. */
  lemma {:induction false} MatchOrderFollowsOrder(entries: seq<RouteNode>, order: seq<ScreenProps>)
    requires MatchOrder(entries, order).Ok?
    ensures Subsequence(NamesOf(MatchOrder(entries, order).value.0), OrderNames(order))
    ensures forall i :: 0 <= i < |MatchOrder(entries, order).value.0| ==> MatchOrder(entries, order).value.0[i].props.Props?
    ensures |MatchOrder(entries, order).value.0| <= |order|
    decreases |order|
  {
    if order != [] {
      var (yielded, rest) := MatchEntry(entries, order[0]).value;
      MatchOrderFollowsOrder(rest, order[1..]);
      var screens := MatchOrder(rest, order[1..]).value.0;
      assert MatchOrder(entries, order).value.0 == OptionToSeq(yielded) + screens;
      SubsequenceStep(yielded, screens, order);
    }
  }

  /** The screen an entry yields, if any, carries that entry's name. */
  lemma SubsequenceStep(yielded: Option<SortedScreen>, screens: seq<SortedScreen>, order: seq<ScreenProps>)
    requires order != [] && Subsequence(NamesOf(screens), OrderNames(order[1..]))
    requires yielded.Some? ==> order[0].name == Some(yielded.value.route.route)
    ensures Subsequence(NamesOf(OptionToSeq(yielded) + screens), OrderNames(order))
  {
    var all := OptionToSeq(yielded) + screens;
    assert OrderNames(order)[1..] == OrderNames(order[1..]);
    if yielded.Some? {
      assert NamesOf(all)[0] == OrderNames(order)[0];
      assert NamesOf(all)[1..] == NamesOf(screens);
    } else {
      assert all == screens;
    }
  }

  /** The layout's screens are the matched entries, in order-list order and
      with their props, followed by the children left over, sorted and with
      empty props. */
  lemma SortedChildrenShape(children: seq<RouteNode>, order: seq<ScreenProps>, compare: (RouteNode, RouteNode) -> int)
    requires order != [] && MatchOrder(children, order).Ok?
    ensures var (screens, left) := MatchOrder(children, order).value;
            && SortedChildren(children, order, compare) == Ok(screens + WithoutProps(SortBy(left, compare)))
            && Subsequence(NamesOf(screens), OrderNames(order))
            && (forall i :: 0 <= i < |screens| ==> screens[i].props.Props?)
            && multiset(left) <= multiset(children)
            && (Antisymmetric(compare) ==> Sorted(SortBy(left, compare), compare))
  {
    MatchOrderFollowsOrder(children, order);
    var left := MatchOrder(children, order).value.1;
    forall c ensures multiset(left)[c] <= multiset(children)[c] {
      MatchOrderKeepsChildren(children, order, c);
    }
    if Antisymmetric(compare) {
      SortBySorted(left, compare);
    }
  }

  /** With no order the screens are all the children, sorted, with empty
      props; an antisymmetric comparator leaves no two neighbours out of order. */
  lemma EmptyOrderSorted(children: seq<RouteNode>, compare: (RouteNode, RouteNode) -> int)
    ensures SortedChildren(children, [], compare).Ok?
    ensures var out := SortedChildren(children, [], compare).value;
            && RoutesOf(out) == SortBy(children, compare)
            && multiset(RoutesOf(out)) == multiset(children)
            && (forall i :: 0 <= i < |out| ==> out[i].props == EmptyProps)
            && (Antisymmetric(compare) ==> Sorted(RoutesOf(out), compare))
  {
    var out := SortedChildren(children, [], compare).value;
    assert RoutesOf(out) == SortBy(children, compare);
    if Antisymmetric(compare) {
      SortBySorted(children, compare);
    }
  }

  /** An order entry that arrives when every child is consumed, or that names
      no remaining child, yields nothing and consumes nothing. */
  lemma {:induction false} UnmatchedEntryDropped(entries: seq<RouteNode>, e: ScreenProps, order: seq<ScreenProps>)
    requires entries == [] || forall j :: 0 <= j < |entries| ==> e.name != Some(entries[j].route)
    ensures MatchOrder(entries, [e] + order) == MatchOrder(entries, order)
  {
    var full := [e] + order;
    assert full[0] == e && full[1..] == order;
    assert MatchEntry(entries, e) == Ok((None, entries));
    MatchOrderStep(entries, full, [], None, entries);
    assert [] + OptionToSeq(None) == [];
    ExtendNothing(MatchOrder(entries, full));
    ExtendNothing(MatchOrder(entries, order));
  }

  /** A string `redirect` on an entry that matches a remaining child throws;
      a `true` one removes the child without yielding a screen. */
  lemma RedirectEntry(entries: seq<RouteNode>, e: ScreenProps, order: seq<ScreenProps>)
    requires FindRoute(entries, e.name) >= 0 && RedirectTruthy(e.redirect)
    ensures e.redirect.RedirectTo? ==> MatchOrder(entries, [e] + order).Err?
    ensures e.redirect.RedirectFlag? ==>
              MatchOrder(entries, [e] + order) == MatchOrder(RemoveAt(entries, FindRoute(entries, e.name)), order)
  {
    assert ([e] + order)[1..] == order;
    var rest := RemoveAt(entries, FindRoute(entries, e.name));
    if e.redirect.RedirectFlag? && MatchOrder(rest, order).Ok? {
      assert OptionToSeq(None) + MatchOrder(rest, order).value.0 == MatchOrder(rest, order).value.0;
    }
  }

  // ---------------------------------------------------------------------------
  // Screen options

  function ResolveOptions(o: OptionsProp, call: nat -> OptionMap): OptionMap {
    match o
    case NoOptions => map[]
    case StaticOptions(values) => values
    case OptionsCallback(fn) => call(fn)
  }

  const GeneratedOverrides: OptionMap := map[
    "tabBarItemStyle" := HiddenTabBarItemStyle,
    "tabBarButton" := NullTabBarButton,
    "drawerItemStyle" := HiddenDrawerItemStyle]

  /** The options `screenOptionsFactory(route, options)` computes for one
      screen: `navOptions` is the `getNavOptions` of the route's module (read
      only for generated routes) and `call(fn)` is what callback `fn` returns
      for the screen's arguments. */
  function ScreenOptions(route: RouteNode, navOptions: OptionsProp, options: OptionsProp, call: nat -> OptionMap): (r: OptionMap)
    ensures var dynamic := ResolveOptions(options, call);
            forall k :: k in dynamic && !(route.generated && k in GeneratedOverrides) ==> k in r && r[k] == dynamic[k]
    ensures var base := ResolveOptions(navOptions, call);
            var dynamic := ResolveOptions(options, call);
            route.generated ==> forall k :: k in base && k !in dynamic && k !in GeneratedOverrides ==> k in r && r[k] == base[k]
    ensures route.generated ==> forall k :: k in GeneratedOverrides ==> k in r && r[k] == GeneratedOverrides[k]
    ensures !route.generated ==> r == ResolveOptions(options, call)
    ensures forall k :: k in r ==> || k in ResolveOptions(options, call)
                                   || (route.generated && (k in ResolveOptions(navOptions, call) || k in GeneratedOverrides))
  {
    var base := if route.generated then ResolveOptions(navOptions, call) else map[];
    var output := base + ResolveOptions(options, call);
    if route.generated then output + GeneratedOverrides else output
  }

  /** Only a generated route reads its module's `getNavOptions`: for any other
      route the options depend on the screen's own `options` alone. */
  lemma NavOptionsOnlyForGenerated(route: RouteNode, nav1: OptionsProp, nav2: OptionsProp, options: OptionsProp, call: nat -> OptionMap)
    requires !route.generated
    ensures ScreenOptions(route, nav1, options, call) == ScreenOptions(route, nav2, options, call)
  {
  }

  /** For a generated route the three overrides win over both the module's
      options and the screen's own. */
  lemma GeneratedOverridesWin(route: RouteNode, navOptions: OptionsProp, options: OptionsProp, call: nat -> OptionMap)
    requires route.generated
    ensures var r := ScreenOptions(route, navOptions, options, call);
            && r["tabBarItemStyle"] == HiddenTabBarItemStyle
            && r["tabBarButton"] == NullTabBarButton
            && r["drawerItemStyle"] == HiddenDrawerItemStyle
  {
    assert "tabBarItemStyle" in GeneratedOverrides && "tabBarButton" in GeneratedOverrides
           && "drawerItemStyle" in GeneratedOverrides;
  }
}
