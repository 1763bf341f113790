/** The children of a layout (`useFilterScreenChildren`): the `<Screen />`
    elements it declares, the names hidden behind a `<Protected guard={false}>`,
    and, for a custom navigator, every other child.

    React children are modelled as a tree of elements. Which elements count
    as a `<Screen />` (which depends on the layout's context key) is decided
    by the caller when building the tree. */
module LayoutChildren {
  import opened Values
  import opened Screens

  /** One React child. */
  datatype Element =
    | ScreenElement(props: ScreenProps)
    | ProtectedElement(guard: bool, children: seq<Element>)
    | OtherElement(ref: nat)

  /** What the walk collects: screens in encounter order, the names of the
      excluded screens, and the custom children. */
  datatype Collected = Collected(screens: seq<ScreenProps>, protectedNames: set<Option<string>>, custom: seq<Element>)

  const Nothing := Collected([], {}, [])

  function Concat(a: Collected, b: Collected): Collected {
    Collected(a.screens + b.screens, a.protectedNames + b.protectedNames, a.custom + b.custom)
  }

  lemma ConcatAssoc(a: Collected, b: Collected, c: Collected)
    ensures Concat(Concat(a, b), c) == Concat(a, Concat(b, c))
  {
    assert (a.screens + b.screens) + c.screens == a.screens + (b.screens + c.screens);
    assert (a.custom + b.custom) + c.custom == a.custom + (b.custom + c.custom);
  }

  lemma ConcatNothing(c: Collected)
    ensures Concat(Nothing, c) == c
  {
    assert [] + c.screens == c.screens && [] + c.custom == c.custom;
  }

  /** What `flattenChild(child, exclude)` adds to the accumulators. */
  function FlattenOne(child: Element, exclude: bool, isCustomNavigator: bool): Collected
    decreases child
  {
    match child
    case ScreenElement(props) =>
      if exclude then Collected([], {props.name}, []) else Collected([props], {}, [])
    case ProtectedElement(guard, children) =>
      FlattenAll(children, !guard, isCustomNavigator)
    case OtherElement(_) =>
      if isCustomNavigator then Collected([], {}, [child]) else Nothing
  }

  /** What `flattenChild` adds for each of `children` in turn. */
  function FlattenAll(children: seq<Element>, exclude: bool, isCustomNavigator: bool): Collected
    decreases children
  {
    if children == [] then Nothing
    else Concat(FlattenAll(children[..|children| - 1], exclude, isCustomNavigator),
                FlattenOne(children[|children| - 1], exclude, isCustomNavigator))
  }

  /** The accumulators `flattenChild` closes over. */
  class Collector {
    var screens: seq<ScreenProps>
    var protectedScreens: set<Option<string>>
    var customChildren: seq<Element>
    const isCustomNavigator: bool

    function Current(): Collected
      reads this
    {
      Collected(screens, protectedScreens, customChildren)
    }

    constructor(isCustomNavigator: bool)
      ensures Current() == Nothing && this.isCustomNavigator == isCustomNavigator
    {
      screens := [];
      protectedScreens := {};
      customChildren := [];
      this.isCustomNavigator := isCustomNavigator;
    }

    /** `flattenChild(child, exclude)`. */
    method FlattenChild(child: Element, exclude: bool)
      modifies this
      ensures Current() == Concat(old(Current()), FlattenOne(child, exclude, isCustomNavigator))
      decreases child
    {
      match child {
        case ScreenElement(props) =>
          if exclude {
            protectedScreens := protectedScreens + {props.name};
          } else {
            screens := screens + [props];
          }
        case ProtectedElement(guard, children) =>
          FlattenChildren(children, !guard);
        case OtherElement(_) =>
          if isCustomNavigator {
            customChildren := customChildren + [child];
          }
      }
    }

    /** `Children.forEach(children, (c) => flattenChild(c, exclude))`. */
    method FlattenChildren(children: seq<Element>, exclude: bool)
      modifies this
      ensures Current() == Concat(old(Current()), FlattenAll(children, exclude, isCustomNavigator))
      decreases children
    {
      var i := 0;
      while i < |children|
        invariant 0 <= i <= |children|
        invariant Current() == Concat(old(Current()), FlattenAll(children[..i], exclude, isCustomNavigator))
      {
        ghost var done := FlattenAll(children[..i], exclude, isCustomNavigator);
        FlattenChild(children[i], exclude);
        assert children[..i + 1][..i] == children[..i];
        assert FlattenAll(children[..i + 1], exclude, isCustomNavigator)
               == Concat(done, FlattenOne(children[i], exclude, isCustomNavigator));
        ConcatAssoc(old(Current()), done, FlattenOne(children[i], exclude, isCustomNavigator));
        i := i + 1;
      }
      assert children[..i] == children;
    }
  }

  /** What `useFilterScreenChildren` returns. */
  datatype Filtered = Filtered(screens: seq<ScreenProps>, protectedScreens: set<Option<string>>, children: seq<Element>)

  /** `Screen names must be unique`, with the names it lists. */
  datatype FilterError = DuplicateNames(names: seq<Option<string>>)

  /** The names the uniqueness check compares; a screen without a name gives
      `false`, here `None`. */
  function ScreenNames(screens: seq<ScreenProps>): (r: seq<Option<string>>)
    ensures |r| == |screens|
    ensures forall i :: 0 <= i < |screens| ==> r[i] == screens[i].name
  {
    seq(|screens|, i requires 0 <= i < |screens| => screens[i].name)
  }

  /** `new Set(names)`. */
  function Elements(names: seq<Option<string>>): set<Option<string>>
    decreases |names|
  {
    if names == [] then {} else Elements(names[..|names| - 1]) + {names[|names| - 1]}
  }

  /** The set holds exactly the names of the list. */
  lemma {:induction false} ElementsMembers(names: seq<Option<string>>)
    ensures forall x :: x in Elements(names) <==> x in names
    decreases |names|
  {
    if names != [] {
      var init := names[..|names| - 1];
      ElementsMembers(init);
      assert names == init + [names[|names| - 1]];
    }
  }

  predicate Distinct(names: seq<Option<string>>) {
    forall i, j :: 0 <= i < j < |names| ==> names[i] != names[j]
  }

  /** A set built from a list has as many members as the list has elements
      exactly when no element repeats. */
  lemma {:induction false} ElementsSize(names: seq<Option<string>>)
    ensures |Elements(names)| <= |names|
    ensures |Elements(names)| == |names| <==> Distinct(names)
    decreases |names|
  {
    if names != [] {
      var init := names[..|names| - 1];
      var last := names[|names| - 1];
      assert names == init + [last];
      ElementsSize(init);
      ElementsMembers(init);
      if last in init {
        RepeatedNotDistinct(init, last);
      } else {
        DistinctSnoc(init, last);
      }
    }
  }

  lemma RepeatedNotDistinct(init: seq<Option<string>>, last: Option<string>)
    requires last in init
    ensures !Distinct(init + [last])
  {
    var j :| 0 <= j < |init| && init[j] == last;
    assert (init + [last])[j] == (init + [last])[|init|];
  }

  lemma DistinctSnoc(init: seq<Option<string>>, last: Option<string>)
    requires last !in init
    ensures Distinct(init + [last]) <==> Distinct(init)
  {
    var names := init + [last];
    if Distinct(init) {
      forall i, j | 0 <= i < j < |names| ensures names[i] != names[j] {
        assert names[i] == init[i];
        if j < |init| {
          assert names[j] == init[j];
        }
      }
    }
    if Distinct(names) {
      forall i, j | 0 <= i < j < |init| ensures init[i] != init[j] {
        assert names[i] == init[i] && names[j] == init[j];
      }
    }
  }

  /** The walk of the memoised callback: fresh accumulators, every child
      flattened with exclusion off. */
  method Collect(children: seq<Element>, isCustomNavigator: bool) returns (c: Collected)
    ensures c == FlattenAll(children, false, isCustomNavigator)
  {
    var collector := new Collector(isCustomNavigator);
    collector.FlattenChildren(children, false);
    ConcatNothing(FlattenAll(children, false, isCustomNavigator));
    c := collector.Current();
  }

  /** `new Set(names).size !== names.length`: some name repeats. */
  function SizeDiffers(names: seq<Option<string>>): (r: bool)
    ensures r <==> !Distinct(names)
  {
    ElementsSize(names);
    |Elements(names)| != |names|
  }

  /** `useFilterScreenChildren(children, { isCustomNavigator })`, with
      `production` standing for `process.env.NODE_ENV === 'production'`. */
  method UseFilterScreenChildren(children: seq<Element>, isCustomNavigator: bool, production: bool)
    returns (r: Result<Filtered, FilterError>)
    ensures var c := FlattenAll(children, false, isCustomNavigator);
            r.Err? <==> !production && !Distinct(ScreenNames(c.screens))
    ensures var c := FlattenAll(children, false, isCustomNavigator);
            r.Ok? ==> r.value == Filtered(c.screens, c.protectedNames, c.custom)
    ensures var c := FlattenAll(children, false, isCustomNavigator);
            r.Err? ==> r.error == DuplicateNames(ScreenNames(c.screens))
  {
    var c := Collect(children, isCustomNavigator);
    var screens := c.screens;
    var filtered := Filtered(screens, c.protectedNames, c.custom);
    if !production {
      var names := ScreenNames(screens);
      if SizeDiffers(names) {
        return Err(DuplicateNames(names));
      }
    }
    r := Ok(filtered);
  }

  // ---------------------------------------------------------------------------
  // Properties of the walk

  /** Walking two lists of children one after the other collects what the
      two walks collect, in that order. */
  lemma {:induction false} FlattenAllAppend(a: seq<Element>, b: seq<Element>, exclude: bool, isCustomNavigator: bool)
    ensures FlattenAll(a + b, exclude, isCustomNavigator)
            == Concat(FlattenAll(a, exclude, isCustomNavigator), FlattenAll(b, exclude, isCustomNavigator))
    decreases |b|
  {
    if b == [] {
      assert a + b == a;
      ConcatUnit(FlattenAll(a, exclude, isCustomNavigator));
    } else {
      var init := b[..|b| - 1];
      var last := FlattenOne(b[|b| - 1], exclude, isCustomNavigator);
      assert (a + b)[..|a + b| - 1] == a + init;
      assert (a + b)[|a + b| - 1] == b[|b| - 1];
      FlattenAllAppend(a, init, exclude, isCustomNavigator);
      assert FlattenAll(a + b, exclude, isCustomNavigator)
             == Concat(FlattenAll(a + init, exclude, isCustomNavigator), last);
      assert FlattenAll(b, exclude, isCustomNavigator) == Concat(FlattenAll(init, exclude, isCustomNavigator), last);
      ConcatAssoc(FlattenAll(a, exclude, isCustomNavigator), FlattenAll(init, exclude, isCustomNavigator), last);
    }
  }

  lemma ConcatUnit(c: Collected)
    ensures Concat(c, Nothing) == c
  {
    assert c.screens + [] == c.screens && c.custom + [] == c.custom;
  }

  /** A `<Protected guard={true}>` resets exclusion: whatever the enclosing
      `exclude`, its children are walked with exclusion off, between what the
      children before and after it collect. */
  lemma TrueGuardResets(before: seq<Element>, inner: seq<Element>, after: seq<Element>, exclude: bool, isCustomNavigator: bool)
    ensures FlattenAll(before + [ProtectedElement(true, inner)] + after, exclude, isCustomNavigator)
            == Concat(Concat(FlattenAll(before, exclude, isCustomNavigator), FlattenAll(inner, false, isCustomNavigator)),
                      FlattenAll(after, exclude, isCustomNavigator))
  {
    var p := [ProtectedElement(true, inner)];
    FlattenAllAppend(before + p, after, exclude, isCustomNavigator);
    FlattenAllAppend(before, p, exclude, isCustomNavigator);
    assert p[..0] == [];
    ConcatNothing(FlattenOne(ProtectedElement(true, inner), exclude, isCustomNavigator));
  }

  /** A `<Protected guard={true}>` directly inside a `<Protected guard={false}>`
      lifts the exclusion again: its children are collected as if unguarded. */
  lemma TrueInsideFalse(inner: seq<Element>, exclude: bool, isCustomNavigator: bool)
    ensures FlattenOne(ProtectedElement(false, [ProtectedElement(true, inner)]), exclude, isCustomNavigator)
            == FlattenAll(inner, false, isCustomNavigator)
  {
    TrueGuardResets([], inner, [], true, isCustomNavigator);
    assert [] + [ProtectedElement(true, inner)] + [] == [ProtectedElement(true, inner)];
    ConcatNothing(FlattenAll(inner, false, isCustomNavigator));
    ConcatUnit(FlattenAll(inner, false, isCustomNavigator));
  }

  /** Outside any exclusion a `<Protected guard={true}>` is transparent: its
      children are walked as if they stood in its place. */
  lemma TrueGuardTransparent(before: seq<Element>, inner: seq<Element>, after: seq<Element>, isCustomNavigator: bool)
    ensures FlattenAll(before + [ProtectedElement(true, inner)] + after, false, isCustomNavigator)
            == FlattenAll(before + inner + after, false, isCustomNavigator)
  {
    TrueGuardResets(before, inner, after, false, isCustomNavigator);
    FlattenAllAppend(before + inner, after, false, isCustomNavigator);
    FlattenAllAppend(before, inner, false, isCustomNavigator);
  }

  /** Every `<Screen />` in the tree, in document order, guards ignored. */
  function TreeScreens(children: seq<Element>): seq<ScreenProps>
    decreases children
  {
    if children == [] then []
    else TreeScreens(children[..|children| - 1]) + ElementScreens(children[|children| - 1])
  }

  function ElementScreens(e: Element): seq<ScreenProps>
    decreases e
  {
    match e
    case ScreenElement(props) => [props]
    case ProtectedElement(_, children) => TreeScreens(children)
    case OtherElement(_) => []
  }

  /** Whether some `<Protected>` in the tree has the given guard. */
  predicate HasGuard(children: seq<Element>, guard: bool)
    decreases children
  {
    children != [] && (HasGuard(children[..|children| - 1], guard) || ElementHasGuard(children[|children| - 1], guard))
  }

  predicate ElementHasGuard(e: Element, guard: bool)
    decreases e
  {
    match e
    case ProtectedElement(g, children) => g == guard || HasGuard(children, guard)
    case _ => false
  }

  /** With no `<Protected guard={false}>` anywhere, every screen is collected,
      in encounter order, and no name is protected. */
  lemma {:induction false} NoFalseGuardKeepsAll(children: seq<Element>, isCustomNavigator: bool)
    requires !HasGuard(children, false)
    ensures FlattenAll(children, false, isCustomNavigator).screens == TreeScreens(children)
    ensures FlattenAll(children, false, isCustomNavigator).protectedNames == {}
    decreases children
  {
    if children != [] {
      var init := children[..|children| - 1];
      var last := children[|children| - 1];
      NoFalseGuardKeepsAll(init, isCustomNavigator);
      if last.ProtectedElement? {
        NoFalseGuardKeepsAll(last.children, isCustomNavigator);
      }
    }
  }

  /** The names of the screens of a list. */
  function NameSet(screens: seq<ScreenProps>): set<Option<string>> {
    Elements(ScreenNames(screens))
  }

  /** Under exclusion, with no `<Protected guard={true}>` to lift it, no
      screen is collected and every screen's name is protected. */
  lemma {:induction false} ExcludedScreensHidden(children: seq<Element>, isCustomNavigator: bool)
    requires !HasGuard(children, true)
    ensures FlattenAll(children, true, isCustomNavigator).screens == []
    ensures FlattenAll(children, true, isCustomNavigator).protectedNames == NameSet(TreeScreens(children))
    decreases children
  {
    if children == [] {
      assert NameSet([]) == {};
    } else {
      var init := children[..|children| - 1];
      var last := children[|children| - 1];
      assert !HasGuard(init, true) && !ElementHasGuard(last, true);
      ExcludedScreensHidden(init, isCustomNavigator);
      ExcludedElementHidden(last, isCustomNavigator);
      var a := FlattenAll(init, true, isCustomNavigator);
      var b := FlattenOne(last, true, isCustomNavigator);
      assert FlattenAll(children, true, isCustomNavigator) == Concat(a, b);
      assert TreeScreens(children) == TreeScreens(init) + ElementScreens(last);
      NameSetAppend(TreeScreens(init), ElementScreens(last));
    }
  }

  lemma {:induction false} ExcludedElementHidden(e: Element, isCustomNavigator: bool)
    requires !ElementHasGuard(e, true)
    ensures FlattenOne(e, true, isCustomNavigator).screens == []
    ensures FlattenOne(e, true, isCustomNavigator).protectedNames == NameSet(ElementScreens(e))
    decreases e
  {
    match e
    case ScreenElement(props) =>
      assert ScreenNames([props]) == [props.name];
      assert Elements([props.name]) == Elements([]) + {props.name};
    case ProtectedElement(_, children) =>
      ExcludedScreensHidden(children, isCustomNavigator);
    case OtherElement(_) =>
      assert NameSet([]) == {};
  }

  lemma NameSetAppend(a: seq<ScreenProps>, b: seq<ScreenProps>)
    ensures NameSet(a + b) == NameSet(a) + NameSet(b)
  {
    assert ScreenNames(a + b) == ScreenNames(a) + ScreenNames(b);
    ElementsAppend(ScreenNames(a), ScreenNames(b));
  }

  lemma ElementsAppend(a: seq<Option<string>>, b: seq<Option<string>>)
    ensures Elements(a + b) == Elements(a) + Elements(b)
  {
    ElementsMembers(a + b);
    ElementsMembers(a);
    ElementsMembers(b);
  }

  /** A `<Protected guard={false}>` whose subtree lifts no exclusion hides
      all of its screens and protects their names. */
  lemma FalseGuardHides(inner: seq<Element>, exclude: bool, isCustomNavigator: bool)
    requires !HasGuard(inner, true)
    ensures FlattenOne(ProtectedElement(false, inner), exclude, isCustomNavigator).screens == []
    ensures FlattenOne(ProtectedElement(false, inner), exclude, isCustomNavigator).protectedNames
            == NameSet(TreeScreens(inner))
  {
    ExcludedScreensHidden(inner, isCustomNavigator);
  }

  /** Every screen collected is a screen of the tree, and every protected name
      is the name of a screen of the tree. */
  lemma {:induction false} CollectedFromTree(children: seq<Element>, exclude: bool, isCustomNavigator: bool)
    ensures multiset(FlattenAll(children, exclude, isCustomNavigator).screens) <= multiset(TreeScreens(children))
    ensures FlattenAll(children, exclude, isCustomNavigator).protectedNames <= NameSet(TreeScreens(children))
    decreases children
  {
    if children == [] {
      assert NameSet([]) == {};
    } else {
      var init := children[..|children| - 1];
      var last := children[|children| - 1];
      CollectedFromTree(init, exclude, isCustomNavigator);
      CollectedFromElement(last, exclude, isCustomNavigator);
      var a := FlattenAll(init, exclude, isCustomNavigator);
      var b := FlattenOne(last, exclude, isCustomNavigator);
      assert FlattenAll(children, exclude, isCustomNavigator) == Concat(a, b);
      assert TreeScreens(children) == TreeScreens(init) + ElementScreens(last);
      assert multiset(a.screens + b.screens) == multiset(a.screens) + multiset(b.screens);
      NameSetAppend(TreeScreens(init), ElementScreens(last));
    }
  }

  lemma {:induction false} CollectedFromElement(e: Element, exclude: bool, isCustomNavigator: bool)
    ensures multiset(FlattenOne(e, exclude, isCustomNavigator).screens) <= multiset(ElementScreens(e))
    ensures FlattenOne(e, exclude, isCustomNavigator).protectedNames <= NameSet(ElementScreens(e))
    decreases e
  {
    match e
    case ScreenElement(props) =>
      assert ScreenNames([props]) == [props.name];
      assert Elements([props.name]) == Elements([]) + {props.name};
    case ProtectedElement(guard, children) =>
      CollectedFromTree(children, !guard, isCustomNavigator);
    case OtherElement(_) =>
      assert NameSet([]) == {};
  }

  /** Outside a custom navigator, other children are dropped. */
  lemma {:induction false} NoCustomChildren(children: seq<Element>, exclude: bool)
    ensures FlattenAll(children, exclude, false).custom == []
    decreases children
  {
    if children != [] {
      NoCustomChildren(children[..|children| - 1], exclude);
      var last := children[|children| - 1];
      if last.ProtectedElement? {
        NoCustomChildren(last.children, !last.guard);
      }
    }
  }
}
