# expo-router core, modelled in Dafny

This project models the route and path logic of expo-router, the file-based
router for React Native and the web, and proves properties of it. It covers
five pieces:

- **Route info** (`route_info.dfy`, module `RouteInfo`). `getRouteInfoFromFocusedState`
  walks the focused navigation state along `routes[0]`. It collects the path
  segments and the merged params, adds the `screen` chain of a state that was
  not fully rendered, and drops a trailing `index`. It then builds the
  pathname:
  - group segments `(x)` are skipped;
  - `[name]`, `[...name]` and `+not-found` are filled from the params;
  - static segments are kept.

  The function is an imperative method, proved equal to the functional
  definition `RouteInfoOf`. The properties are proved about that definition.
- **System routes** (`routes.dfy`, module `Routes`): the `getSystemRoute`
  decision table of `getRoutes`, and the options `getRoutes` and
  `getExactRoutes` hand to the route-tree builder.
- **Layout screens** (`screens.dfy`, module `Screens`), shared by
  `src/useScreens.tsx` and its compiled twin `build/useScreens.js`:
  - `getSortedChildren` matches a layout's `<Screen />` order against the
    route's children, then appends the leftover children, sorted (an
    imperative method proved against `SortedChildren`);
  - the `getId`/`dangerouslySingular` precedence;
  - `getSingularId`;
  - the option merge of `screenOptionsFactory`.

  `sorting.dfy` (module `Sorting`) gives `Array.prototype.sort` with a
  comparator as a stable insertion sort.
- **Layout children** (`layout_children.dfy`, module `LayoutChildren`):
  `useFilterScreenChildren`. Its recursive `flattenChild` is a class whose
  fields are the accumulators the closure captures. The uniqueness check on
  screen names raises an error outside production.
- **Router store** (`router_store.dfy`, module `RouterStore`):
  - the redirect list `useStore` builds;
  - `applyRedirects`;
  - `getRouteInfo`, with its empty result when there is no state and its cache
    keyed by state object.

`strings.dfy` and `values.dfy` hold the JavaScript string operations and
values the modules share.

Functions that are not shown become parameters:
- `sortRoutesWithInitial`, which is the `compare` argument;
- `cleanPath`, `routePatternToRegex` with `regex.test`, and `convertRedirect`,
  which are the fields of `RouterStore.Helpers`;
- `shouldLinkExternally`;
- `getRouteInfoFromState`, which is the `compute` argument;
- the user's `options`, `getId` and `dangerouslySingular` callbacks.

`Linking.openURL` is recorded as the list `Store.openedUrls`.
`Platform.OS === 'web'` and `process.env.NODE_ENV === 'production'` are
boolean parameters.

The constants module is not part of this model. `INTERNAL_SLOT_NAME` is
`"__root"`, the value `withLayoutContext.tsx:157` writes out for the
root. `NOT_FOUND_NAME` is `"+not-found"` and
`DEFAULT_ROOT_LAYOUT_CONTEXT_KEY` is `"expo-router/build/views/Navigator"`;
both are taken as the package defines them.

JavaScript behaviour the model spells out:
- An array param put into a `[name]` segment stringifies with commas.
- Any other object stringifies as `[object Object]`.
- `getSingularId` throws on a `[...name]` param that is present but not an
  array, because it calls `.join` on it. `SingularIdError` models this.
- An empty string is falsy: an empty `redirect` is not a redirect, and an
  empty `dangerouslySingular` string does not set `getId`.
- The name list checked for uniqueness holds `false` for a screen without a
  `name`. This is `None` in `LayoutChildren.ScreenNames`.

## Model

| member | source | states |
|---|---|---|
| RouteInfo.GetRouteInfoFromFocusedState | packages/expo-router/src/routeInfo.ts:18-115 | The imperative walk returns exactly `RouteInfoOf` of the focused state. This covers the error cases and the quirks: only `routes[0]` is followed, and a string `screen` is pushed twice. |
| RouteInfo.CompleteRouteInfo | packages/expo-router/src/routeInfo.ts:49-114 | The `screen` loop, the extra push, the `index` pop, the key deletions and the pathname match `InfoFrom`. |
| RouteInfo.RouteInfoOf | packages/expo-router/src/routeInfo.ts:21-24 | It fails with "unexpected root" exactly when the first route is not `__root`. It succeeds exactly when the root is `__root` and every focused level has a route. A result never has `screen` or `params` keys, and its pathname starts with `/`. |
| RouteInfo.Focused | packages/expo-router/src/routeInfo.ts:31-43 | The walk fails only on a level with no routes. An absent state gives the empty chain. |
| RouteInfo.TrimIndex | packages/expo-router/src/routeInfo.ts:61-63 | At most one segment is removed, always the last. One is removed exactly when the last segment is `index`. |
| RouteInfo.Pathname | packages/expo-router/src/routeInfo.ts:68-70 | The pathname always begins with `/`. An empty segment list gives `/`. |
| RouteInfo.PartsAppend | packages/expo-router/src/routeInfo.ts:70-107 | The pathname parts of two segment lists put together are the parts of each, in order. |
| RouteInfo.GroupSegmentInvisible | packages/expo-router/src/routeInfo.ts:71-73 | A `(group)` segment anywhere in the list leaves the pathname unchanged. |
| RouteInfo.MissingParamInvisible | packages/expo-router/src/routeInfo.ts:75-102 | A `+not-found`, `[...name]` (with `?` stripped) or `[name]` segment whose param is missing leaves the pathname unchanged. |
| RouteInfo.CatchAllArray | packages/expo-router/src/routeInfo.ts:85-96 | A catch-all segment with an array param contributes all of its elements, in order. |
| RouteInfo.StaticParts | packages/expo-router/src/routeInfo.ts:103-105 | A list of static segments contributes itself, unchanged and in order. |
| RouteInfo.StaticPathname | packages/expo-router/src/routeInfo.ts:68-107 | For static segments the pathname is `/` followed by the segments joined with `/`. |
| RouteInfo.NameSegmentsJoin | packages/expo-router/src/routeInfo.ts:36-41 | The segments of a route name, joined again, give the name without its leading `/`. |
| RouteInfo.MergedParamsDeepestWins | packages/expo-router/src/routeInfo.ts:34 | A merged param holds the value of the deepest focused route that sets it. |
| RouteInfo.MergedParamsOnlyFromRoutes | packages/expo-router/src/routeInfo.ts:29-34 | A key that no focused route sets is absent from the merged params. |
| RouteInfo.ScreenPushedTwice | packages/expo-router/src/routeInfo.ts:49-63 | Take any focused chain whose deepest route has a string `screen` and nested params `nested`. Its segments are the chain's segments, then the screen, then the screens of `nested`, then the screen again, with a final `index` trimmed. Without nested params and with a screen other than `index`, they end in the screen twice. |
| RouteInfo.BareSlotIsDefault | packages/expo-router/src/routeInfo.ts:26-66 | A `__root` route with no nested state always succeeds. Its params are empty, and its segments come only from the root's own `screen` chain. When the root's params have no `screen`, the result is exactly `defaultRouteInfo` (routeInfo.ts:11-16). |
| Routes.GetSystemRoute | packages/expo-router/src/getRoutes.ts:21-73 | A descriptor exists exactly for `('', layout)`, `('_sitemap', route)`, `(+not-found, route)` and a redirect or rewrite with defaults. Every other input fails as an unknown system route. Each descriptor has the source's fields: generated, internal, context key, `dynamic`, no children. A redirect or rewrite is the defaults with only `loadRoute` replaced. |
| Routes.RoutesOptions | packages/expo-router/src/getRoutes.ts:20-75 | The builder gets the `getSystemRoute` hook. Every caller option is passed through, and a caller option of the same name overrides the hook. |
| Routes.ExactRoutesSkipGenerated | packages/expo-router/src/getRoutes.ts:78-86 | `getExactRoutes` always passes `skipGenerated: true`, overriding the caller's value, and keeps every other option. |
| Screens.SingularSegments | packages/expo-router/src/useScreens.tsx:200-211 | Every segment is mapped on its own. The mapping succeeds exactly when no segment throws. |
| Screens.SingularIdWithoutParams | packages/expo-router/src/useScreens.tsx:196-212 | With absent or empty params, the singular id is the name itself. |
| Screens.SingularCatchAllFilled | packages/expo-router/src/useScreens.tsx:203-204 | `[...key]` is replaced by `params[key]` joined with `/` when that join is not empty. |
| Screens.SingularDynamicFilled | packages/expo-router/build/useScreens.js:113-114 | `[key]` is replaced by a non-empty string `params[key]`. |
| Screens.SingularSegmentKept | packages/expo-router/build/useScreens.js:106-121 | These segments are kept verbatim: a static segment; a dynamic segment whose param is missing or the empty string; a catch-all whose param is missing; and a catch-all whose array joins to the empty string, such as `[]`. |
| Screens.ExplicitGetIdWins | packages/expo-router/src/useScreens.tsx:99-107 | An explicit `getId` is kept and called, whatever `dangerouslySingular` says. |
| Screens.SingularGetId | packages/expo-router/build/useScreens.js:50-61 | Without `getId`: a string gives a constant id, and a function is called with the name and the params (`{}` when absent). `true` gives `getSingularId` of the name. A falsy value gives no `getId`. |
| Screens.FindRoute | packages/expo-router/src/useScreens.tsx:79 | Returns the first child named by the entry, or -1 exactly when no child has that name. |
| Screens.RemoveAt | packages/expo-router/src/useScreens.tsx:88-89 | The splice removes exactly the matched child. |
| Screens.MatchEntry | packages/expo-router/build/useScreens.js:24-66 | An entry that matches nothing consumes and yields nothing. It throws only on a string `redirect` that matches. A yielded screen is the first matching child, with props, and only when there is no redirect. Anything consumed is exactly the first matching child. |
| Screens.GetSortedChildren | packages/expo-router/build/useScreens.js:15-72 | The imperative splice-and-push loop returns exactly `SortedChildren`. With an empty order it returns the children sorted, with empty props. |
| Screens.EmptyOrderSorted | packages/expo-router/src/useScreens.tsx:55-59 | With an empty order: all children, sorted by the comparator, as a permutation, each with empty props. |
| Screens.SortedChildrenShape | packages/expo-router/src/useScreens.tsx:62-134 | Matched entries come first, in order-list order and with props. The leftover children follow, sorted, with empty props. The leftover children are a sub-multiset of the children. |
| Screens.MatchOrderFollowsOrder | packages/expo-router/src/useScreens.tsx:62-129 | The names of the yielded screens are a subsequence of the order's names. Every yielded screen has props, and there are no more of them than entries. |
| Screens.MatchEntryKeeps | packages/expo-router/build/useScreens.js:35-43 | One entry never duplicates a child. It loses a child only when it is a `redirect` entry naming that child. |
| Screens.MatchOrderKeepsChildren | packages/expo-router/src/useScreens.tsx:79-97 | Across the whole order, no child is yielded or left more often than it occurs. Every child that no `redirect` entry names is kept exactly as often as it occurs. |
| Screens.SortedChildrenKeepsChildren | packages/expo-router/src/useScreens.tsx:79-134 | Every child appears in the output at most as often as among the children. A child not named by a `redirect` entry appears exactly that often. |
| Screens.UnmatchedEntryDropped | packages/expo-router/src/useScreens.tsx:73-85 | An entry arriving after all children are consumed, or naming no remaining child, is dropped without effect. |
| Screens.RedirectEntry | packages/expo-router/src/useScreens.tsx:92-97 | A string `redirect` that matches throws. A `true` one removes the child and yields nothing. |
| Screens.ScreenOptions | packages/expo-router/src/useScreens.tsx:158-177 | Dynamic options override static ones key by key, and static ones are read only for generated routes. For generated routes the three overrides always win. No key comes from elsewhere. |
| Screens.NavOptionsOnlyForGenerated | packages/expo-router/build/useScreens.js:86 | For a route that is not generated, the module's `getNavOptions` has no effect on the options. |
| Screens.GeneratedOverridesWin | packages/expo-router/build/useScreens.js:94-99 | For a generated route, `tabBarItemStyle`, `tabBarButton` and `drawerItemStyle` are the hiding overrides, whatever the options say. |
| Sorting.SortBy | packages/expo-router/src/useScreens.tsx:133 | The sort is a permutation of its input. |
| Sorting.SortBySorted | packages/expo-router/src/useScreens.tsx:57 | With an antisymmetric comparator, no two neighbours of the sorted list are out of order. |
| LayoutChildren.Collector.constructor | packages/expo-router/src/layouts/withLayoutContext.tsx:35-38 | The accumulators start empty. |
| LayoutChildren.Collector.FlattenChild | packages/expo-router/src/layouts/withLayoutContext.tsx:40-72 | `flattenChild` appends to the accumulators exactly what `FlattenOne` defines, and nothing else changes. |
| LayoutChildren.Collector.FlattenChildren | packages/expo-router/src/layouts/withLayoutContext.tsx:52-56 | Walking a list of children appends, child by child, what `FlattenAll` defines. |
| LayoutChildren.UseFilterScreenChildren | packages/expo-router/src/layouts/withLayoutContext.tsx:23-89 | It fails exactly when not in production and two screens share a name, and the error carries the names. Otherwise it returns the collected screens, protected names and custom children. |
| LayoutChildren.Collect | packages/expo-router/src/layouts/withLayoutContext.tsx:35-74 | Starting from empty accumulators and flattening every child with exclusion off collects exactly what `FlattenAll` defines. |
| LayoutChildren.SizeDiffers | packages/expo-router/src/layouts/withLayoutContext.tsx:82 | The development check fires exactly when some screen name repeats. |
| LayoutChildren.ElementsSize | packages/expo-router/src/layouts/withLayoutContext.tsx:79-84 | `new Set(names).size !== names.length` holds exactly when some name repeats. |
| LayoutChildren.NoFalseGuardKeepsAll | packages/expo-router/src/layouts/withLayoutContext.tsx:41-47 | With no false guard, every screen is collected in encounter order and no name is protected. |
| LayoutChildren.ExcludedScreensHidden | packages/expo-router/src/layouts/withLayoutContext.tsx:42-44 | Under exclusion, with no true guard below, no screen is collected and every screen's name is protected. |
| LayoutChildren.FalseGuardHides | packages/expo-router/src/layouts/withLayoutContext.tsx:54-56 | A false-guard `<Protected>` whose subtree has no true guard hides its screens and protects exactly their names. |
| LayoutChildren.TrueGuardResets | packages/expo-router/src/layouts/withLayoutContext.tsx:50-52 | Whatever the enclosing exclusion, a true-guard `<Protected>` walks its children with exclusion off. The result sits between what the children before and after it collect under the enclosing exclusion. |
| LayoutChildren.TrueInsideFalse | packages/expo-router/src/layouts/withLayoutContext.tsx:50-56 | A true guard directly inside a false guard lifts the exclusion. Its children are collected as if they were not guarded at all. |
| LayoutChildren.TrueGuardTransparent | packages/expo-router/src/layouts/withLayoutContext.tsx:50-53 | Outside any exclusion, a true-guard `<Protected>` collects exactly what its children would collect in its place. |
| LayoutChildren.FlattenAllAppend | packages/expo-router/src/layouts/withLayoutContext.tsx:74 | Walking two lists one after the other collects both walks' results, in order. |
| LayoutChildren.CollectedFromTree | packages/expo-router/src/layouts/withLayoutContext.tsx:40-63 | Collected screens are screens of the tree, never more often than they occur. Every protected name is a screen name of the tree. |
| LayoutChildren.NoCustomChildren | packages/expo-router/src/layouts/withLayoutContext.tsx:61-63 | Outside a custom navigator, no custom children are collected. |
| RouterStore.BuildRedirects | packages/expo-router/src/global-state/router-store.tsx:190-199 | There is one rule per configured redirect or rewrite, in order. Each rule has the pattern of its source and the external flag of its destination. |
| RouterStore.RedirectsThenRewrites | packages/expo-router/src/global-state/router-store.tsx:190-192 | The configured redirects come first, then the rewrites, each in config order. |
| RouterStore.FirstMatch | packages/expo-router/src/global-state/router-store.tsx:126 | Returns the first rule whose pattern matches, or -1 exactly when none does. |
| RouterStore.FirstMatchWins | packages/expo-router/src/global-state/router-store.tsx:126 | Rules after the first match are never consulted. |
| RouterStore.ExternalRedirectHref | packages/expo-router/src/global-state/router-store.tsx:133-140 | When the first matching rule is external, the result and the opened URL are both its destination. Off the web, a `//` destination gets `https:` first, giving an `https://` URL. |
| RouterStore.ApplyRedirects | packages/expo-router/src/global-state/router-store.tsx:120-144 | A non-string URL is returned unchanged. With no match, the original URL is returned, not the cleaned one. An external match returns and opens its href. Whatever is opened is also the result. |
| RouterStore.InternalRedirect | packages/expo-router/src/global-state/router-store.tsx:143 | An internal match applies the rules again to `convertRedirect(url, rule)`. |
| RouterStore.NoRulesIdentity | packages/expo-router/src/global-state/router-store.tsx:128-130 | With no rules, every URL is returned as it is and nothing is opened. |
| RouterStore.FuelMonotone | packages/expo-router/src/global-state/router-store.tsx:120-144 | More fuel never changes an outcome that was reached, so the fuel bound only cuts off cycles. |
| RouterStore.Store.constructor | packages/expo-router/src/global-state/router-store.tsx:40-44 | The store starts with no state, no redirects and an empty cache. The `redirects` getter then yields `[]`. |
| RouterStore.Store.SetState | packages/expo-router/src/global-state/router-store.tsx:101-103 | Only the state changes. |
| RouterStore.Store.Install | packages/expo-router/src/global-state/router-store.tsx:201-209 | The store gets the rules built from the config and the initial state. The `redirects` getter then yields exactly those rules. The cache survives. |
| RouterStore.Store.GetRouteInfo | packages/expo-router/src/global-state/router-store.tsx:59-91 | With no state it returns an empty pathname, no params or segments, and `isIndex` true. On a hit it returns the cached info. On a miss it computes, caches and returns. A cache that agrees with the computation keeps agreeing, and the result is then the computed info. |
| RouterStore.Store.ApplyRedirectsTo | packages/expo-router/src/global-state/router-store.tsx:120-144 | The recursive method returns `ApplyRedirects` over the store's rules. It records an opened URL exactly when the outcome opens one. |
| RouterStore.RepeatedRouteInfo | packages/expo-router/src/global-state/router-store.tsx:72-90 | Two `getRouteInfo` calls on an unchanged state return the same info, and the state is then cached. |

## Left out

- React rendering: `useSortedScreens`, `routeToScreen`, `withLayoutContext`'s component body, `forwardRef`, `useMemo`, the stale key and the `screenListeners` walk. `useSortedScreens` returning `[]` for a node without children is part of this.
- `console.warn` and `console.log`: for every child that is an element, they have no effect on results.
- `useStore` beyond the redirect list and the store assignment, namely route and linking construction, `Constants`, and the initial URL's state. The functions these call are not part of this model.
- `onReady`, `assertIsReady`, `shouldShowTutorial` and the other store getters: splash screens, animation frames and the navigation ref are outside the model.
- `getRoutesCore`, the route-tree builder `getRoutes` calls, is not part of this model. Only the options and the hook handed to it are modelled.
- `loadRoute()` and `getNavOptions` are abstract: option values are opaque map entries, and a callback's result is given by the `call` parameter.
- The `protectedScreens` argument that `withLayoutContext` passes to `useSortedScreens`: that function takes only the order, so the set filters nothing.
- Sorting.SortBy: it stands for the engine's in-place `sort`. The result is modelled as a new sequence, so the aliasing of `children` being sorted in place is not captured. The engine's order for an inconsistent comparator is not modelled either.
- Sorting.SortBySorted: this proves only that neighbours are in order, under antisymmetry, not full pairwise order under a total preorder.
- Screens.GetSortedChildren: the order is applied in one pass that stops at the first throwing entry, as `map` followed by `filter` would. A thrown error is a result value.
- RouterStore.ApplyRedirects: the source recurses without bound, and the model takes a `fuel` argument. `Diverged` stands for a redirect cycle the source never leaves.
- Param values that are `undefined` or `null` while their key is present, and a `params` that is not an object, are treated as absent.
- `redirect` and `dangerouslySingular` values of types other than those the declarations allow are not modelled.
- Whether a child counts as a `<Screen />` or a `<Protected>` (`isScreen`/`isProtectedReactElement`, which depend on the context key) is decided when the element tree is built.
- Empty children are not modelled. `Children.forEach` skips only a `children` value that is itself `null` or `undefined`. A `null`, `undefined` or boolean child inside a list, as `{cond && <Screen />}` produces, reaches `flattenChild` as `null`. Unless the screen and protected checks (not part of this model) throw first, `child.props` at withLayoutContext.tsx:65 then throws.
- The route info cache is keyed by state identity, as a `WeakMap` is. Mutating a state object after it has been cached is not modelled.
