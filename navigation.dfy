/**
 * `CUINavigationItem` and `CUINavigation` (`CBQNavigationItem` and
 * `CBQNavigation` in the JavaScript tree): the navbar configuration. An item
 * is checked in place and changes nothing; the navigation replaces its brand
 * and its two side lists by validated item instances.
 */
module Navigation {
  import opened Js
  import opened Wrappers
  import opened Errors
  import opened Tools

  /** The class name `cast` tests with `instanceof`. */
  function ItemClass(tree: Tree): string {
    if tree.TypeScript? then "CUINavigationItem" else "CBQNavigationItem"
  }

  predicate IsItem(tree: Tree, v: Value) {
    v.Inst? && v.cls == ItemClass(tree)
  }

  const ItemPrefix := "Navigation item field \""
  const NavPrefix := "Navigation property \""
  const Suffix := "\""

  /** The declared item fields; the JavaScript item has no `icon`. */
  function ItemKeys(tree: Tree): seq<string> {
    if tree.TypeScript? then ["title", "icon", "url", "items", "render"] else ["title", "url", "items", "render"]
  }

  function ItemDefaults(tree: Tree): (d: Props)
    ensures d.Keys == set k | k in ItemKeys(tree)
  {
    map k | k in ItemKeys(tree) :: Undefined
  }

  /** `new CUINavigationItem(source)`: `safeAssign` in TypeScript, `Object.assign` in JavaScript. */
  function ConstructItem(tree: Tree, source: Value): (p: Props)
    ensures tree.TypeScript? ==> p.Keys == ItemDefaults(tree).Keys
  {
    if tree.TypeScript? then SafeAssigned(ItemDefaults(tree), [source]) else ObjectAssign(ItemDefaults(tree), source)
  }

  /** The type assertions of the item's `_validateAndCoerce`, in order. */
  function ItemChecks(tree: Tree): seq<Check> {
    [TypeIs("title", ["string"])]
    + (if tree.TypeScript? then [TypeIs("icon", ["string"])] else [])
    + [TypeIs("url", ["string"]), TypeIs("items", ["array"]), TypeIs("render", ["function"])]
  }

  function MissingTitleMessage(tree: Tree): string {
    if tree.TypeScript? then "Navigation item must be provided through either a title or a render function"
    else "Navigation item must be provided either a title or a render function"
  }

  /** The item's `_validateAndCoerce()`: the type assertions, then a title or a render function is required. */
  function ValidateItem(tree: Tree, p: Props): (o: Outcome<Error>)
    ensures o.Fail? ==> o.error.TypeError?
  {
    var checked := RunChecks(p, ItemPrefix, Suffix, ItemChecks(tree));
    if checked.Fail? then checked
    else if !Truthy(Prop(p, "title")) && !Truthy(Prop(p, "render")) then Fail(TypeError(MissingTitleMessage(tree)))
    else Pass
  }

  /** The properties `cast(item)` ends up with, whatever identity it gets. */
  function CastProps(tree: Tree, item: Value): Props {
    if IsItem(tree, item) then item.props else ConstructItem(tree, item)
  }

  /** `CUINavigationItem.cast(item)`: an item is returned as it is, anything else is wrapped in a new one. */
  function Cast(tree: Tree, item: Value, next: nat): (r: Made)
    ensures IsItem(tree, r.value) && r.value.props == CastProps(tree, item)
  {
    if IsItem(tree, item) then Made(item, next) else Made(Inst(ItemClass(tree), next, ConstructItem(tree, item)), next + 1)
  }

  /** Whether an entry, once cast, validates. This does not depend on the identity it gets. */
  predicate ItemOk(tree: Tree, item: Value) {
    ValidateItem(tree, CastProps(tree, item)).Pass?
  }

  /** `cast(item)._validateAndCoerce()` */
  function CastAndValidate(tree: Tree, item: Value, next: nat): (r: Result<Made, Error>)
    ensures r.Success? <==> ItemOk(tree, item)
    ensures r.Failure? ==> r.error == ValidateItem(tree, CastProps(tree, item)).error
    ensures r.Success? ==> IsItem(tree, r.value.value) && r.value.value.props == CastProps(tree, item)
  {
    var c := Cast(tree, item, next);
    var o := ValidateItem(tree, c.value.props);
    if o.Fail? then Failure(o.error) else Success(c)
  }

  /** The error an entry's failure is rethrown as. */
  function ItemError(index: nat, side: string, e: Error): (r: Error)
    ensures r.TypeError?
  {
    TypeError("Invalid item " + NatToString(index) + " on the " + side + " side of navbar: " + e.Message())
  }

  /** The `.map` over a side list, as far as its first `k` entries. */
  function MapPrefix(tree: Tree, side: string, items: seq<Value>, k: nat, next: nat): (r: Result<Listed, Error>)
    requires k <= |items|
    ensures r.Failure? ==> r.error.TypeError?
    ensures r.Success? ==> |r.value.values| == k
  {
    if k == 0 then Success(Listed([], next))
    else
      var done :- MapPrefix(tree, side, items, k - 1, next);
      var c := CastAndValidate(tree, items[k - 1], done.next);
      if c.Failure? then Failure(ItemError(k - 1, side, c.error))
      else Success(Listed(done.values + [c.value.value], c.value.next))
  }

  /** One side: a falsy list is left alone, otherwise it is replaced by the mapped list. */
  function SideStep(tree: Tree, p: Props, side: string, next: nat): (r: Result<Progress, Error>)
    ensures r.Failure? ==> r.error.TypeError?
  {
    var list := Prop(p, side);
    if !Truthy(list) then Success(Progress(p, next))
    else if !list.Arr? then Failure(TypeError("this[side].map is not a function"))
    else
      var m :- MapPrefix(tree, side, list.items, |list.items|, next);
      Success(Progress(p[side := Arr(m.next, m.values)], m.next + 1))
  }

  const Sides: seq<string> := ["left", "right"]

  /** The `forEach` over the sides, stopping at the first throw with the sides done so far kept. */
  function SideSteps(tree: Tree, p: Props, sides: seq<string>, next: nat): (r: (Outcome<Error>, Props, nat))
    ensures r.0.Fail? ==> r.0.error.TypeError?
    decreases |sides|
  {
    if sides == [] then (Pass, p, next)
    else
      var s := SideStep(tree, p, sides[0], next);
      if s.Failure? then (Fail(s.error), p, next)
      else SideSteps(tree, s.value.props, sides[1..], s.value.next)
  }

  const NavChecks: seq<Check> := [
    Provided("brand"), TypeIs("brand", ["object"]), TypeIs("left", ["array"]), TypeIs("right", ["array"])
  ]

  /** The navigation's `_validateAndCoerce()`: whether it throws, the properties it leaves and the counter after it. */
  function Validate(tree: Tree, p: Props, next: nat): (r: (Outcome<Error>, Props, nat))
    ensures r.0.Fail? ==> r.0.error.TypeError?
  {
    var o := RunChecks(p, NavPrefix, Suffix, NavChecks);
    if o.Fail? then (o, p, next)
    else
      var b := Cast(tree, Prop(p, "brand"), next);
      var v := ValidateItem(tree, b.value.props);
      if v.Fail? then (v, p, b.next)
      else SideSteps(tree, p["brand" := b.value], Sides, b.next)
  }

  function NavDefaults(): Props {
    map["brand" := Undefined, "left" := Undefined, "right" := Undefined]
  }

  function Construct(tree: Tree, source: Value): (p: Props)
    ensures tree.TypeScript? ==> p.Keys == NavDefaults().Keys
  {
    if tree.TypeScript? then SafeAssigned(NavDefaults(), [source]) else ObjectAssign(NavDefaults(), source)
  }

  /** The `.map` with its `try`/`catch`, as a loop. */
  method MapItems(tree: Tree, side: string, items: seq<Value>, next: nat) returns (r: Result<Listed, Error>)
    ensures r == MapPrefix(tree, side, items, |items|, next)
  {
    var values := [];
    var n := next;
    var i := 0;
    while i < |items|
      invariant 0 <= i <= |items|
      invariant MapPrefix(tree, side, items, i, next) == Success(Listed(values, n))
    {
      var c := CastAndValidate(tree, items[i], n);
      if c.Failure? {
        r := Failure(ItemError(i, side, c.error));
        MapPrefixStaysFailed(tree, side, items, i + 1, |items|, next);
        return;
      }
      values := values + [c.value.value];
      n := c.value.next;
      i := i + 1;
    }
    return Success(Listed(values, n));
  }

  /** One round of the `forEach`: the side's list, if truthy, mapped and put back. */
  method MapSide(tree: Tree, p: Props, side: string, next: nat) returns (r: Result<Progress, Error>)
    ensures r == SideStep(tree, p, side, next)
  {
    var list := Prop(p, side);
    if !Truthy(list) {
      return Success(Progress(p, next));
    }
    if !list.Arr? {
      return Failure(TypeError("this[side].map is not a function"));
    }
    var m := MapItems(tree, side, list.items, next);
    if m.Failure? {
      return Failure(m.error);
    }
    r := Success(Progress(p[side := Arr(m.value.next, m.value.values)], m.value.next + 1));
  }

  /** Once an entry has failed, the `.map` over any longer prefix fails with the same error. */
  lemma {:induction false} MapPrefixStaysFailed(tree: Tree, side: string, items: seq<Value>, k: nat, m: nat, next: nat)
    requires k <= m <= |items|
    requires MapPrefix(tree, side, items, k, next).Failure?
    ensures MapPrefix(tree, side, items, m, next) == MapPrefix(tree, side, items, k, next)
    decreases m
  {
    if m > k {
      MapPrefixStaysFailed(tree, side, items, k, m - 1, next);
    }
  }

  class Navigation {
    var props: Props

    constructor (tree: Tree, source: Value)
      ensures props == Construct(tree, source)
    {
      props := Construct(tree, source);
    }

    /** `_validateAndCoerce()`: the assertions, the brand, then each side in turn. */
    method ValidateAndCoerce(tree: Tree, next: nat) returns (o: Outcome<Error>, after: nat)
      modifies this
      ensures (o, props, after) == Validate(tree, old(props), next)
    {
      after := next;
      o := RunChecks(props, NavPrefix, Suffix, NavChecks);
      if o.Fail? {
        return;
      }
      var b := Cast(tree, Prop(props, "brand"), after);
      after := b.next;
      o := ValidateItem(tree, b.value.props);
      if o.Fail? {
        return;
      }
      props := props["brand" := b.value];
      ghost var start := props;
      ghost var first := after;
      var i := 0;
      while i < |Sides|
        invariant 0 <= i <= |Sides|
        invariant SideSteps(tree, start, Sides, first) == SideSteps(tree, props, Sides[i..], after)
      {
        var s := MapSide(tree, props, Sides[i], after);
        if s.Failure? {
          o := Fail(s.error);
          return;
        }
        props := s.value.props;
        after := s.value.next;
        i := i + 1;
      }
    }
  }

  // ---------------------------------------------------------------------------
  // What validation promises

  /** Each declared item field is absent or of its type. */
  predicate ItemTyped(tree: Tree, p: Props) {
    && (Prop(p, "title").Undefined? || Prop(p, "title").Str?)
    && (tree.TypeScript? ==> Prop(p, "icon").Undefined? || Prop(p, "icon").Str?)
    && (Prop(p, "url").Undefined? || Prop(p, "url").Str?)
    && (Prop(p, "items").Undefined? || Prop(p, "items").Arr?)
    && (Prop(p, "render").Undefined? || Prop(p, "render").Func?)
  }

  /** A type assertion for one of `"string"`, `"array"` or `"function"` passes exactly on that kind of value or `undefined`. */
  lemma TypeCheckExactly(p: Props, key: string, t: string)
    requires t in {"string", "array", "function"}
    ensures RunCheck(p, ItemPrefix, Suffix, TypeIs(key, [t])).Pass? <==>
              Prop(p, key).Undefined? || (t == "string" && Prop(p, key).Str?)
              || (t == "array" && Prop(p, key).Arr?) || (t == "function" && Prop(p, key).Func?)
  {
  }

  lemma ItemChecksExactly(tree: Tree, p: Props)
    ensures RunChecks(p, ItemPrefix, Suffix, ItemChecks(tree)).Pass? <==> ItemTyped(tree, p)
  {
    var title, icon := TypeIs("title", ["string"]), TypeIs("icon", ["string"]);
    var url, items, render := TypeIs("url", ["string"]), TypeIs("items", ["array"]), TypeIs("render", ["function"]);
    TypeIsKind(p, ItemPrefix, Suffix, "title", "string");
    TypeIsKind(p, ItemPrefix, Suffix, "icon", "string");
    TypeIsKind(p, ItemPrefix, Suffix, "url", "string");
    TypeIsKind(p, ItemPrefix, Suffix, "items", "array");
    TypeIsKind(p, ItemPrefix, Suffix, "render", "function");
    RunChecksCons(p, ItemPrefix, Suffix, render, []);
    RunChecksCons(p, ItemPrefix, Suffix, items, [render]);
    RunChecksCons(p, ItemPrefix, Suffix, url, [items, render]);
    var mid := if tree.TypeScript? then [icon, url, items, render] else [url, items, render];
    if tree.TypeScript? {
      RunChecksCons(p, ItemPrefix, Suffix, icon, [url, items, render]);
    }
    RunChecksCons(p, ItemPrefix, Suffix, title, mid);
    assert ItemChecks(tree) == [title] + mid;
  }

  /**
   * An item passes exactly when each declared field is of its type or absent
   * and it has a title or a render function.
   */
  lemma ValidateItemExactly(tree: Tree, p: Props)
    ensures ValidateItem(tree, p).Pass? <==> ItemTyped(tree, p) && (Truthy(Prop(p, "title")) || Truthy(Prop(p, "render")))
  {
    ItemChecksExactly(tree, p);
  }

  /** Casting is idempotent: an item cast again is the same object. */
  lemma CastIdempotent(tree: Tree, item: Value, next: nat, later: nat)
    ensures var c := Cast(tree, item, next).value;
            Cast(tree, c, later) == Made(c, later)
  {
  }

  /** `v` is what casting `item` gives: an item with the entry's properties, the entry itself if it was one. */
  predicate Coerced(tree: Tree, item: Value, v: Value) {
    IsItem(tree, v) && v.props == CastProps(tree, item) && (IsItem(tree, item) ==> v == item)
  }

  /** The `.map` succeeds exactly when every entry validates once cast. */
  lemma {:induction false} MapPrefixPasses(tree: Tree, side: string, items: seq<Value>, k: nat, next: nat)
    requires k <= |items|
    ensures MapPrefix(tree, side, items, k, next).Success? <==> forall i :: 0 <= i < k ==> ItemOk(tree, items[i])
  {
    if k > 0 {
      MapPrefixPasses(tree, side, items, k - 1, next);
    }
  }

  /** A successful `.map` gives, entry for entry and in order, the cast entries. */
  lemma {:induction false} MapPrefixValues(tree: Tree, side: string, items: seq<Value>, k: nat, next: nat)
    requires k <= |items|
    requires MapPrefix(tree, side, items, k, next).Success?
    ensures var vs := MapPrefix(tree, side, items, k, next).value.values;
            forall i :: 0 <= i < k ==> Coerced(tree, items[i], vs[i])
  {
    if k > 0 {
      MapPrefixValues(tree, side, items, k - 1, next);
      var d := MapPrefix(tree, side, items, k - 1, next).value;
      var c := CastAndValidate(tree, items[k - 1], d.next);
      assert MapPrefix(tree, side, items, k, next).value.values == d.values + [c.value.value];
    }
  }

  /** Entry `i` is the first that does not validate, and `e` is its error rethrown with the index and the side. */
  predicate FirstFailure(tree: Tree, side: string, items: seq<Value>, i: nat, e: Error)
    requires i < |items|
  {
    && (forall j :: 0 <= j < i ==> ItemOk(tree, items[j]))
    && !ItemOk(tree, items[i])
    && e == ItemError(i, side, ValidateItem(tree, CastProps(tree, items[i])).error)
  }

  /** A failing `.map` reports its first failing entry. */
  lemma {:induction false} MapPrefixFailure(tree: Tree, side: string, items: seq<Value>, k: nat, next: nat)
    requires k <= |items|
    requires MapPrefix(tree, side, items, k, next).Failure?
    ensures exists i :: 0 <= i < k && FirstFailure(tree, side, items, i, MapPrefix(tree, side, items, k, next).error)
  {
    if MapPrefix(tree, side, items, k - 1, next).Failure? {
      MapPrefixFailure(tree, side, items, k - 1, next);
      MapPrefixStaysFailed(tree, side, items, k - 1, k, next);
    } else {
      FailsAtLast(tree, side, items, k, next);
    }
  }

  /** A `.map` whose prefix before the last entry succeeded fails at that entry. */
  lemma FailsAtLast(tree: Tree, side: string, items: seq<Value>, k: nat, next: nat)
    requires 0 < k <= |items|
    requires MapPrefix(tree, side, items, k - 1, next).Success? && MapPrefix(tree, side, items, k, next).Failure?
    ensures FirstFailure(tree, side, items, k - 1, MapPrefix(tree, side, items, k, next).error)
  {
    var done := MapPrefix(tree, side, items, k - 1, next);
    MapPrefixPasses(tree, side, items, k - 1, next);
    var c := CastAndValidate(tree, items[k - 1], done.value.next);
    assert c.Failure?;
    assert MapPrefix(tree, side, items, k, next).error == ItemError(k - 1, side, c.error);
  }

  /** A side list after a successful step is absent or falsy as before, or an array of validated items. */
  predicate SideValidated(tree: Tree, v: Value) {
    !Truthy(v) || (v.Arr? && forall i :: 0 <= i < |v.items| ==> IsItem(tree, v.items[i]) && ItemOk(tree, v.items[i]))
  }

  lemma SideStepShape(tree: Tree, p: Props, side: string, next: nat)
    requires SideStep(tree, p, side, next).Success?
    ensures var q := SideStep(tree, p, side, next).value.props;
            && SideValidated(tree, Prop(q, side))
            && (forall k :: k != side ==> Prop(q, k) == Prop(p, k))
  {
    var list := Prop(p, side);
    if Truthy(list) {
      MapPrefixPasses(tree, side, list.items, |list.items|, next);
      MapPrefixValues(tree, side, list.items, |list.items|, next);
    }
  }

  /** The loop over the two sides, unrolled. */
  lemma SidesUnrolled(tree: Tree, p: Props, next: nat)
    ensures var l := SideStep(tree, p, "left", next);
            SideSteps(tree, p, Sides, next) ==
              if l.Failure? then (Fail(l.error), p, next)
              else
                var r := SideStep(tree, l.value.props, "right", l.value.next);
                if r.Failure? then (Fail(r.error), l.value.props, l.value.next)
                else (Pass, r.value.props, r.value.next)
  {
    assert Sides[1..] == ["right"];
    assert Sides[1..][1..] == [];
  }

  /**
   * A navigation that passes has a validated item as its brand, and each side
   * is absent or an array of validated items.
   */
  lemma ValidatedShape(tree: Tree, p: Props, next: nat)
    requires Validate(tree, p, next).0.Pass?
    ensures var q := Validate(tree, p, next).1;
            && IsItem(tree, Prop(q, "brand")) && ValidateItem(tree, Prop(q, "brand").props).Pass?
            && SideValidated(tree, Prop(q, "left")) && SideValidated(tree, Prop(q, "right"))
  {
    var b := Cast(tree, Prop(p, "brand"), next);
    var p1 := p["brand" := b.value];
    SidesUnrolled(tree, p1, b.next);
    var l := SideStep(tree, p1, "left", b.next).value;
    SideStepShape(tree, p1, "left", b.next);
    SideStepShape(tree, l.props, "right", l.next);
  }

  /** Without a brand the navigation is rejected before anything is cast. */
  lemma BrandRequired(tree: Tree, p: Props, next: nat)
    requires Prop(p, "brand").Undefined?
    ensures Validate(tree, p, next) == (Fail(TypeError("Navigation property \"brand\" must be provided")), p, next)
  {
    assert KeyId(NavPrefix, "brand", Suffix) + " must be provided" == "Navigation property \"brand\" must be provided";
    assert RunCheck(p, NavPrefix, Suffix, NavChecks[0]) == Fail(TypeError("Navigation property \"brand\" must be provided"));
  }

  /** A brand with neither a title nor a render function is rejected with the item's own message. */
  lemma UntitledBrandRejected(tree: Tree, p: Props, next: nat)
    requires RunChecks(p, NavPrefix, Suffix, NavChecks).Pass?
    requires IsItem(tree, Prop(p, "brand"))
    requires RunChecks(Prop(p, "brand").props, ItemPrefix, Suffix, ItemChecks(tree)).Pass?
    requires !Truthy(Prop(Prop(p, "brand").props, "title")) && !Truthy(Prop(Prop(p, "brand").props, "render"))
    ensures Validate(tree, p, next).0 == Fail(TypeError(MissingTitleMessage(tree)))
  {
  }
}
