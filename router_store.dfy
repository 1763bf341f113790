/** The router's global store (`store` over `storeRef.current`): the list of
    redirect rules built from the app config, applying those rules to a URL,
    and the route info of the current navigation state with its cache.

    Pattern compilation and matching, `cleanPath`, `convertRedirect` and
    `shouldLinkExternally` are not part of this model; they are parameters.
    A navigation state object is known by its identity only, and the
    function that turns a state into route info is a parameter too. */
module RouterStore {
  import opened Values
  import opened Strings
  import opened RouteInfo

  /** A compiled route pattern, known by an identity only. */
  type Pattern = nat

  /** The identity of a navigation state object. */
  type StateRef = nat

  /** One entry of `redirects` or `rewrites` in the router config. */
  datatype RedirectConfig = RedirectConfig(source: string, destination: string)

  /** The router config's `redirects` and `rewrites`, either of which may be
      absent. */
  datatype RouterConfig = RouterConfig(redirects: Option<seq<RedirectConfig>>, rewrites: Option<seq<RedirectConfig>>)

  /** One rule of the store: the pattern of its source, its config, and
      whether its destination is opened outside the app. */
  datatype Rule = Rule(regex: Pattern, config: RedirectConfig, external: bool)

  /** The helpers `applyRedirects` calls. */
  datatype Helpers = Helpers(
    clean: string -> string,                      // `cleanPath`
    test: (Pattern, string) -> bool,              // `regex.test`
    convert: (string, RedirectConfig) -> string,  // `convertRedirect`
    isWeb: bool)                                  // `Platform.OS === 'web'`

  function OrEmpty(list: Option<seq<RedirectConfig>>): seq<RedirectConfig> {
    if list.Some? then list.value else []
  }

  /** The configs the store's rules come from: redirects first, then rewrites. */
  function ConfiguredRules(config: Option<RouterConfig>): seq<RedirectConfig> {
    if config.None? then [] else OrEmpty(config.value.redirects) + OrEmpty(config.value.rewrites)
  }

  /** The `redirects` list `useStore` builds. */
  function BuildRedirects(config: Option<RouterConfig>, toRegex: string -> Pattern, linkExternally: string -> bool): (r: seq<Rule>)
    ensures |r| == |ConfiguredRules(config)|
    ensures forall i :: 0 <= i < |r| ==> r[i].config == ConfiguredRules(config)[i]
    ensures forall i :: 0 <= i < |r| ==> r[i].regex == toRegex(r[i].config.source)
    ensures forall i :: 0 <= i < |r| ==> r[i].external == linkExternally(r[i].config.destination)
  {
    var configs := ConfiguredRules(config);
    seq(|configs|, i requires 0 <= i < |configs| =>
      Rule(toRegex(configs[i].source), configs[i], linkExternally(configs[i].destination)))
  }

  /** The redirects come in config order: those from `redirects`, then those
      from `rewrites`. */
  lemma RedirectsThenRewrites(redirects: seq<RedirectConfig>, rewrites: seq<RedirectConfig>,
                              toRegex: string -> Pattern, linkExternally: string -> bool)
    ensures var r := BuildRedirects(Some(RouterConfig(Some(redirects), Some(rewrites))), toRegex, linkExternally);
            && |r| == |redirects| + |rewrites|
            && (forall i :: 0 <= i < |redirects| ==> r[i].config == redirects[i])
            && (forall i :: 0 <= i < |rewrites| ==> r[|redirects| + i].config == rewrites[i])
  {
    var all := redirects + rewrites;
    assert forall i :: 0 <= i < |rewrites| ==> all[|redirects| + i] == rewrites[i];
  }

  /** The index of the first rule whose pattern matches `url`, or -1. */
  function FirstMatch(rules: seq<Rule>, url: string, test: (Pattern, string) -> bool): (i: int)
    ensures -1 <= i < |rules|
    ensures i >= 0 ==> test(rules[i].regex, url) && forall j :: 0 <= j < i ==> !test(rules[j].regex, url)
    ensures i == -1 ==> forall j :: 0 <= j < |rules| ==> !test(rules[j].regex, url)
    decreases |rules|
  {
    if rules == [] then -1
    else if test(rules[0].regex, url) then 0
    else
      var i := FirstMatch(rules[1..], url, test);
      if i == -1 then -1 else i + 1
  }

  /** An external destination, with `https:` put before a protocol-relative
      one off the web. */
  function ExternalHref(destination: string, isWeb: bool): string {
    if StartsWith(destination, "//") && !isWeb then "https:" + destination else destination
  }

  /** What `applyRedirects(url)` returns, and the URL it opens through
      `Linking.openURL`, if any. `Diverged` means `fuel` internal redirects in
      a row were not enough: the rules redirect in a cycle or a very long
      chain. */
  datatype Outcome = Redirected(url: Option<string>, openedUrl: Option<string>) | Diverged

  /** `applyRedirects(url)` over `rules`, for a URL that is a string
      (`Some`) or not (`None`). */
  function ApplyRedirects(rules: seq<Rule>, url: Option<string>, h: Helpers, fuel: nat): (r: Outcome)
    ensures url.None? ==> r == Redirected(url, None)
    ensures url.Some? && FirstMatch(rules, h.clean(url.value), h.test) == -1 ==> r == Redirected(url, None)
    ensures url.Some? && FirstMatch(rules, h.clean(url.value), h.test) >= 0
            && rules[FirstMatch(rules, h.clean(url.value), h.test)].external ==>
              var href := ExternalHref(rules[FirstMatch(rules, h.clean(url.value), h.test)].config.destination, h.isWeb);
              r == Redirected(Some(href), Some(href))
    ensures r.Redirected? && r.openedUrl.Some? ==> r.url == r.openedUrl
    decreases fuel
  {
    if url.None? then Redirected(url, None)
    else
      var i := FirstMatch(rules, h.clean(url.value), h.test);
      if i == -1 then Redirected(url, None)
      else if rules[i].external then
        var href := ExternalHref(rules[i].config.destination, h.isWeb);
        Redirected(Some(href), Some(href))
      else if fuel == 0 then Diverged
      else ApplyRedirects(rules, Some(h.convert(url.value, rules[i].config)), h, fuel - 1)
  }

  /** An internal redirect applies the rules again to the converted URL. */
  lemma InternalRedirect(rules: seq<Rule>, url: string, h: Helpers, fuel: nat)
    requires FirstMatch(rules, h.clean(url), h.test) >= 0
    requires !rules[FirstMatch(rules, h.clean(url), h.test)].external
    ensures ApplyRedirects(rules, Some(url), h, fuel + 1)
            == ApplyRedirects(rules, Some(h.convert(url, rules[FirstMatch(rules, h.clean(url), h.test)].config)), h, fuel)
  {
  }

  /** The first matching rule decides: rules after it are never consulted. */
  lemma {:induction false} FirstMatchWins(rules: seq<Rule>, later: seq<Rule>, url: string, test: (Pattern, string) -> bool)
    requires FirstMatch(rules, url, test) >= 0
    ensures FirstMatch(rules + later, url, test) == FirstMatch(rules, url, test)
    decreases |rules|
  {
    assert (rules + later)[0] == rules[0];
    if !test(rules[0].regex, url) {
      assert (rules + later)[1..] == rules[1..] + later;
      FirstMatchWins(rules[1..], later, url, test);
    }
  }

  /** An external match opens its destination and returns it; off the web a
      protocol-relative destination gets `https:` first, on the web or for
      any other destination it is used as it is. */
  lemma ExternalRedirectHref(rules: seq<Rule>, url: string, h: Helpers, fuel: nat)
    requires FirstMatch(rules, h.clean(url), h.test) >= 0
    requires rules[FirstMatch(rules, h.clean(url), h.test)].external
    ensures var d := rules[FirstMatch(rules, h.clean(url), h.test)].config.destination;
            StartsWith(d, "//") && !h.isWeb ==>
              && ApplyRedirects(rules, Some(url), h, fuel) == Redirected(Some("https:" + d), Some("https:" + d))
              && StartsWith("https:" + d, "https://")
    ensures var d := rules[FirstMatch(rules, h.clean(url), h.test)].config.destination;
            !StartsWith(d, "//") || h.isWeb ==>
              ApplyRedirects(rules, Some(url), h, fuel) == Redirected(Some(d), Some(d))
  {
    var d := rules[FirstMatch(rules, h.clean(url), h.test)].config.destination;
    if StartsWith(d, "//") {
      assert ("https:" + d)[..8] == "https:" + d[..2];
    }
  }

  /** More fuel does not change an outcome that was reached. */
  lemma {:induction false} FuelMonotone(rules: seq<Rule>, url: Option<string>, h: Helpers, fuel: nat, more: nat)
    requires ApplyRedirects(rules, url, h, fuel).Redirected?
    requires fuel <= more
    ensures ApplyRedirects(rules, url, h, more) == ApplyRedirects(rules, url, h, fuel)
    decreases fuel
  {
    if url.Some? {
      var i := FirstMatch(rules, h.clean(url.value), h.test);
      if i != -1 && !rules[i].external {
        FuelMonotone(rules, Some(h.convert(url.value, rules[i].config)), h, fuel - 1, more - 1);
      }
    }
  }

  /** With no rules every URL is returned as it is and nothing is opened. */
  lemma NoRulesIdentity(url: Option<string>, h: Helpers, fuel: nat)
    ensures ApplyRedirects([], url, h, fuel) == Redirected(url, None)
  {
  }

  /** `routeInfoCache`'s entries agree with the function that fills it. */
  ghost predicate CacheAgrees(cache: map<StateRef, UrlObject>, compute: StateRef -> UrlObject) {
    forall s :: s in cache ==> cache[s] == compute(s)
  }

  /** The route info of the store when it has no state. */
  const EmptyRouteInfo: UrlObject := UrlObject("", "", map[], [], Some(true))

  /** `storeRef.current` together with `routeInfoCache` and the URLs handed to
      `Linking.openURL`. */
  class Store {
    var state: Option<StateRef>
    var redirects: Option<seq<Rule>>
    var cache: map<StateRef, UrlObject>
    var openedUrls: seq<string>

    /** `storeRef.current = {}` with an empty cache. */
    constructor()
      ensures state.None? && redirects.None? && cache == map[] && openedUrls == []
      ensures Redirects() == []
    {
      state := None;
      redirects := None;
      cache := map[];
      openedUrls := [];
    }

    /** The `redirects` getter. */
    function Redirects(): (r: seq<Rule>)
      reads this
      ensures redirects.None? ==> r == []
      ensures redirects.Some? ==> r == redirects.value
    {
      if redirects.Some? then redirects.value else []
    }

    /** `setState(state)`. */
    method SetState(s: StateRef)
      modifies this
      ensures state == Some(s)
      ensures redirects == old(redirects) && cache == old(cache) && openedUrls == old(openedUrls)
    {
      state := Some(s);
    }

    /** The assignment to `storeRef.current` in `useStore`: the rules built
      from the config and the initial state. The cache is module-wide and
      survives it. */
    method Install(config: Option<RouterConfig>, toRegex: string -> Pattern, linkExternally: string -> bool,
                   initialState: Option<StateRef>)
      modifies this
      ensures redirects == Some(BuildRedirects(config, toRegex, linkExternally))
      ensures Redirects() == BuildRedirects(config, toRegex, linkExternally)
      ensures state == initialState
      ensures cache == old(cache) && openedUrls == old(openedUrls)
    {
      redirects := Some(BuildRedirects(config, toRegex, linkExternally));
      state := initialState;
    }

    /** `getRouteInfo()`, where `compute` stands for `getRouteInfoFromState`
        with the store's linking config. */
    method GetRouteInfo(compute: StateRef -> UrlObject) returns (info: UrlObject)
      modifies this
      ensures state == old(state) && redirects == old(redirects) && openedUrls == old(openedUrls)
      ensures state.None? ==> info == EmptyRouteInfo && cache == old(cache)
      ensures state.Some? && state.value in old(cache) ==> info == old(cache)[state.value] && cache == old(cache)
      ensures state.Some? && state.value !in old(cache) ==>
                info == compute(state.value) && cache == old(cache)[state.value := info]
      ensures CacheAgrees(old(cache), compute) ==> CacheAgrees(cache, compute)
      ensures CacheAgrees(old(cache), compute) && state.Some? ==> info == compute(state.value)
    {
      if state.None? {
        return EmptyRouteInfo;
      }
      var s := state.value;
      if s in cache {
        info := cache[s];
      } else {
        info := compute(s);
        cache := cache[s := info];
      }
    }

    /** `applyRedirects(url)`: the outcome over the store's rules, with the
        URL it opens, if any, added to `openedUrls`. */
    method ApplyRedirectsTo(url: Option<string>, h: Helpers, fuel: nat) returns (r: Outcome)
      modifies this
      ensures r == ApplyRedirects(Redirects(), url, h, fuel)
      ensures state == old(state) && redirects == old(redirects) && cache == old(cache)
      ensures r.Redirected? && r.openedUrl.Some? ==> openedUrls == old(openedUrls) + [r.openedUrl.value]
      ensures !(r.Redirected? && r.openedUrl.Some?) ==> openedUrls == old(openedUrls)
      decreases fuel
    {
      if url.None? {
        return Redirected(url, None);
      }
      var rules := Redirects();
      var nextUrl := h.clean(url.value);
      var i := FirstMatch(rules, nextUrl, h.test);
      if i == -1 {
        return Redirected(url, None);
      }
      var rule := rules[i];
      if rule.external {
        var href := ExternalHref(rule.config.destination, h.isWeb);
        openedUrls := openedUrls + [href];
        return Redirected(Some(href), Some(href));
      }
      if fuel == 0 {
        return Diverged;
      }
      r := ApplyRedirectsTo(Some(h.convert(url.value, rule.config)), h, fuel - 1);
    }
  }

  /** Two `getRouteInfo()` calls on the same state give the same route info,
      the second one from the cache. */
  method RepeatedRouteInfo(store: Store, compute: StateRef -> UrlObject) returns (first: UrlObject, second: UrlObject)
    modifies store
    ensures first == second
    ensures old(store.state).Some? ==> old(store.state).value in store.cache
  {
    first := store.GetRouteInfo(compute);
    second := store.GetRouteInfo(compute);
  }
}
