/**
 * `CUITweaks`: presentation and cookie settings. In the TypeScript tree
 * validation also rebuilds the two asset lists so that every entry is a
 * function of the context; the JavaScript tree checks one flag only.
 *
 * Objects the library creates get their identities from a counter `next`,
 * handed out in creation order; the counter after the call is returned.
 */
module Tweaks {
  import opened Js
  import opened Wrappers
  import opened Errors
  import opened Tools

  const Prefix := "tweak \""
  const Suffix := "\""

  const AssetKeys: seq<string> := ["globalCSS", "globalJS"]

  /** How many objects the TypeScript defaults create: two lists of two closures each. */
  const DefaultObjects := 6

  /**
   * The declared defaults of the TypeScript class. The two asset lists hold
   * closures made by `minimizeInProduction` for the vendor files and a plain
   * path for the site's own file.
   */
  function Defaults(next: nat): (d: Props)
    ensures Prop(d, "showValidationErrorSummary") == Bool(true) && Prop(d, "csrfEnabled") == Bool(true)
    ensures Prop(d, "csrfFieldName") == Str("__cui_csrf__") && Prop(d, "csrfCookieName") == Str("CUI_csrf")
    ensures Prop(d, "flashCookieName") == Str("CUI_flash") && Prop(d, "flashMaxAge") == Num(60000)
  {
    map[
      "showValidationErrorSummary" := Bool(true),
      "globalCSS" := Arr(next + 2, [
        Func(next, InProduction("/css/bootstrap.css")),
        Func(next + 1, InProduction("/css/fontawesome.css")),
        Str("/css/styles.css")]),
      "globalJS" := Arr(next + 5, [
        Func(next + 3, InProduction("/js/jquery-3.4.1.slim.js")),
        Func(next + 4, InProduction("/js/bootstrap.js")),
        Str("/js/scripts.js")]),
      "csrfEnabled" := Bool(true),
      "csrfFieldName" := Str("__cui_csrf__"),
      "csrfCookieName" := Str("CUI_csrf"),
      "flashCookieName" := Str("CUI_flash"),
      "flashMaxAge" := Num(1000 * 60)
    ]
  }

  /** The JavaScript class declares one default. */
  function DefaultsJs(): Props {
    map["showValidationErrorSummary" := Bool(true)]
  }

  /** `new CUITweaks(source)`; the TypeScript defaults take identities from `next` on. */
  function Construct(tree: Tree, source: Value, next: nat): (p: Props)
    ensures tree.TypeScript? ==> p.Keys == Defaults(next).Keys
  {
    if tree.TypeScript? then SafeAssigned(Defaults(next), [source]) else ObjectAssign(DefaultsJs(), source)
  }

  // ---------------------------------------------------------------------------
  // Asset lists

  /** The `.map` callback: a function is kept, anything else is wrapped as `() => item`. */
  function WrapItem(item: Value, id: nat): (r: Value)
    ensures r.Func?
    ensures TypeOf(item) == "function" ==> r == item
  {
    if TypeOf(item) == "function" then item else Func(id, Constant(item))
  }

  /** The mapped list; the wrapper made for entry `i` gets identity `next + i`. */
  function Wrapped(items: seq<Value>, next: nat): (r: seq<Value>)
    ensures |r| == |items|
    ensures forall i :: 0 <= i < |items| ==> r[i] == WrapItem(items[i], next + i)
  {
    seq(|items|, i requires 0 <= i < |items| => WrapItem(items[i], next + i))
  }

  /** `items.map(...)` as a loop. */
  method WrapAll(items: seq<Value>, next: nat) returns (r: seq<Value>)
    ensures r == Wrapped(items, next)
  {
    r := [];
    for i := 0 to |items|
      invariant r == Wrapped(items[..i], next)
    {
      r := r + [WrapItem(items[i], next + i)];
    }
    assert items[..|items|] == items;
  }

  /**
   * One round of the loop over the asset keys: the list must be an array,
   * is mapped, and the new array replaces it. A missing list passes the type
   * check and then fails at `.map`.
   */
  function WrapKey(p: Props, key: string, next: nat): (r: Result<Progress, Error>)
    ensures r.Failure? ==> r.error.TypeError?
    ensures r.Success? ==> Prop(p, key).Arr? && r.value.next == next + |Prop(p, key).items| + 1
    ensures r.Success? ==> r.value.props == p[key := Arr(next + |Prop(p, key).items|, Wrapped(Prop(p, key).items, next))]
  {
    var o := RunCheck(p, Prefix, Suffix, TypeIs(key, ["array"]));
    if o.Fail? then Failure(o.error)
    else if Prop(p, key).Undefined? then Failure(TypeError("Cannot read properties of undefined (reading 'map')"))
    else
      var items := Prop(p, key).items;
      Success(Progress(p[key := Arr(next + |items|, Wrapped(items, next))], next + |items| + 1))
  }

  /** The loop over `keys`, stopping at the first throw with the keys done so far kept. */
  function WrapKeys(p: Props, keys: seq<string>, next: nat): (r: (Outcome<Error>, Props, nat))
    ensures r.0.Fail? ==> r.0.error.TypeError?
    decreases |keys|
  {
    if keys == [] then (Pass, p, next)
    else
      var w := WrapKey(p, keys[0], next);
      if w.Failure? then (Fail(w.error), p, next)
      else
        WrapKeys(w.value.props, keys[1..], w.value.next)
  }

  /** The checks after the lists. `csrfCookieName` is not among them. */
  const LateChecks: seq<Check> := [
    Provided("csrfEnabled"), TypeIs("csrfEnabled", ["boolean"]),
    Provided("csrfFieldName"), TypeIs("csrfFieldName", ["string"]),
    Provided("flashCookieName"), TypeIs("flashCookieName", ["string"]),
    Provided("flashMaxAge"), TypeIs("flashMaxAge", ["number"])
  ]

  /** `_validateAndCoerce()`: whether it throws, the properties it leaves and the counter after it. */
  function Validate(tree: Tree, p: Props, next: nat): (r: (Outcome<Error>, Props, nat))
    ensures r.0.Fail? ==> r.0.error.TypeError?
  {
    var o := RunCheck(p, Prefix, Suffix, TypeIs("showValidationErrorSummary", ["boolean"]));
    if o.Fail? || tree.JavaScript? then (o, p, next)
    else
      var w := WrapKeys(p, AssetKeys, next);
      if w.0.Fail? then w
      else (RunChecks(w.1, Prefix, Suffix, LateChecks), w.1, w.2)
  }

  class Tweaks {
    var props: Props

    constructor (tree: Tree, source: Value, next: nat)
      ensures props == Construct(tree, source, next)
    {
      props := Construct(tree, source, next);
    }

    /** `_validateAndCoerce()`, with the loop over the two asset keys. */
    method ValidateAndCoerce(tree: Tree, next: nat) returns (o: Outcome<Error>, after: nat)
      modifies this
      ensures (o, props, after) == Validate(tree, old(props), next)
    {
      after := next;
      o := RunCheck(props, Prefix, Suffix, TypeIs("showValidationErrorSummary", ["boolean"]));
      if o.Fail? || tree.JavaScript? {
        return;
      }
      ghost var start := props;
      var i := 0;
      while i < |AssetKeys|
        invariant 0 <= i <= |AssetKeys|
        invariant WrapKeys(start, AssetKeys, next) == WrapKeys(props, AssetKeys[i..], after)
      {
        var key := AssetKeys[i];
        o := RunCheck(props, Prefix, Suffix, TypeIs(key, ["array"]));
        if o.Fail? {
          return;
        }
        if Prop(props, key).Undefined? {
          o := Fail(TypeError("Cannot read properties of undefined (reading 'map')"));
          return;
        }
        var items := Prop(props, key).items;
        var mapped := WrapAll(items, after);
        props := props[key := Arr(after + |items|, mapped)];
        after := after + |items| + 1;
        i := i + 1;
      }
      o := RunChecks(props, Prefix, Suffix, LateChecks);
    }
  }

  // ---------------------------------------------------------------------------
  // What validation promises

  /** Each mapped entry, called, gives what `getOrCall` on the original entry gives. */
  lemma WrappedCallsAgree(env: Env, items: seq<Value>, next: nat, args: seq<Value>)
    ensures forall i :: 0 <= i < |items| ==> Call(env, Wrapped(items, next)[i], args) == GetOrCall(env, items[i], args)
  {
  }

  /** The lists that validation writes consist only of functions, in the original order and number. */
  lemma WrapKeyShape(p: Props, key: string, next: nat)
    requires WrapKey(p, key, next).Success?
    ensures var q := WrapKey(p, key, next).value.props;
            && Prop(q, key).Arr? && |Prop(q, key).items| == |Prop(p, key).items|
            && (forall i :: 0 <= i < |Prop(q, key).items| ==> Prop(q, key).items[i].Func?)
            && (forall k :: k != key ==> Prop(q, k) == Prop(p, k))
  {
  }

  /** The loop over the two asset keys, unrolled. */
  lemma WrapAssets(p: Props, next: nat)
    ensures var w1 := WrapKey(p, "globalCSS", next);
            WrapKeys(p, AssetKeys, next) ==
              if w1.Failure? then (Fail(w1.error), p, next)
              else
                var w2 := WrapKey(w1.value.props, "globalJS", w1.value.next);
                if w2.Failure? then (Fail(w2.error), w1.value.props, w1.value.next)
                else (Pass, w2.value.props, w2.value.next)
  {
    assert AssetKeys[1..] == ["globalJS"];
    assert AssetKeys[1..][1..] == [];
  }

  /** The late checks pass exactly when the CSRF and flash settings are present and of their kinds. */
  lemma LateChecksExactly(q: Props)
    ensures RunChecks(q, Prefix, Suffix, LateChecks).Pass? <==>
              Prop(q, "csrfEnabled").Bool? && Prop(q, "csrfFieldName").Str?
              && Prop(q, "flashCookieName").Str? && Prop(q, "flashMaxAge").Num?
  {
    var d := [Provided("flashMaxAge"), TypeIs("flashMaxAge", ["number"])];
    var c := [Provided("flashCookieName"), TypeIs("flashCookieName", ["string"])] + d;
    var b := [Provided("csrfFieldName"), TypeIs("csrfFieldName", ["string"])] + c;
    assert LateChecks == [Provided("csrfEnabled"), TypeIs("csrfEnabled", ["boolean"])] + b;
    RunChecksProvidedTyped(q, Prefix, Suffix, "csrfEnabled", "boolean", b);
    RunChecksProvidedTyped(q, Prefix, Suffix, "csrfFieldName", "string", c);
    RunChecksProvidedTyped(q, Prefix, Suffix, "flashCookieName", "string", d);
    RunChecksProvidedTyped(q, Prefix, Suffix, "flashMaxAge", "number", []);
    assert d == d + [];
    TypeIsKind(q, Prefix, Suffix, "csrfEnabled", "boolean");
    TypeIsKind(q, Prefix, Suffix, "csrfFieldName", "string");
    TypeIsKind(q, Prefix, Suffix, "flashCookieName", "string");
    TypeIsKind(q, Prefix, Suffix, "flashMaxAge", "number");
  }

  /** What passing the late checks says about the CSRF and flash settings. */
  lemma LateChecksShape(q: Props)
    requires RunChecks(q, Prefix, Suffix, LateChecks).Pass?
    ensures Prop(q, "csrfEnabled").Bool? && Prop(q, "csrfFieldName").Str?
    ensures Prop(q, "flashCookieName").Str? && Prop(q, "flashMaxAge").Num?
  {
    LateChecksExactly(q);
  }

  /** The four keys the late checks look at hold their declared default values in `q`. */
  predicate LateKeysOf(q: Props, next: nat) {
    && Prop(q, "csrfEnabled") == Prop(Defaults(next), "csrfEnabled")
    && Prop(q, "csrfFieldName") == Prop(Defaults(next), "csrfFieldName")
    && Prop(q, "flashCookieName") == Prop(Defaults(next), "flashCookieName")
    && Prop(q, "flashMaxAge") == Prop(Defaults(next), "flashMaxAge")
  }

  /** The late checks pass on anything that agrees with the defaults on the keys they read. */
  lemma LateChecksPassOnDefaults(q: Props, next: nat)
    requires LateKeysOf(q, next)
    ensures RunChecks(q, Prefix, Suffix, LateChecks).Pass?
  {
    LateChecksExactly(q);
  }

  /**
   * Tweaks that pass have function-only asset lists and a boolean
   * `csrfEnabled`, string field and cookie names and a numeric maximum age.
   */
  lemma ValidatedShape(p: Props, next: nat)
    requires Validate(TypeScript, p, next).0.Pass?
    ensures var q := Validate(TypeScript, p, next).1;
            && (forall k :: k in AssetKeys ==> Prop(q, k).Arr? && forall i :: 0 <= i < |Prop(q, k).items| ==> Prop(q, k).items[i].Func?)
            && Prop(q, "csrfEnabled").Bool? && Prop(q, "csrfFieldName").Str?
            && Prop(q, "flashCookieName").Str? && Prop(q, "flashMaxAge").Num?
  {
    WrapAssets(p, next);
    var w1 := WrapKey(p, "globalCSS", next).value;
    var w2 := WrapKey(w1.props, "globalJS", w1.next).value;
    WrapKeyShape(p, "globalCSS", next);
    WrapKeyShape(w1.props, "globalJS", w1.next);
    LateChecksShape(w2.props);
  }

  /** The loop leaves every key outside `keys` as it was. */
  lemma {:induction false} WrapKeysFrame(p: Props, keys: seq<string>, next: nat)
    ensures forall k :: k !in keys ==> Prop(WrapKeys(p, keys, next).1, k) == Prop(p, k)
    decreases |keys|
  {
    if keys != [] && WrapKey(p, keys[0], next).Success? {
      var w := WrapKey(p, keys[0], next).value;
      WrapKeyShape(p, keys[0], next);
      WrapKeysFrame(w.props, keys[1..], w.next);
      assert forall k :: k !in keys ==> k !in keys[1..] && k != keys[0];
    }
  }

  /** The TypeScript run of `Validate` passes when each of its three steps does. */
  lemma ValidateTsPasses(p: Props, next: nat)
    requires RunCheck(p, Prefix, Suffix, TypeIs("showValidationErrorSummary", ["boolean"])).Pass?
    requires WrapKeys(p, AssetKeys, next).0.Pass?
    requires RunChecks(WrapKeys(p, AssetKeys, next).1, Prefix, Suffix, LateChecks).Pass?
    ensures Validate(TypeScript, p, next).0.Pass?
  {
  }

  /** The declared defaults with `csrfCookieName` set to `v`. */
  function DefaultsWithCookie(next: nat, v: Value): (d: Props)
    ensures Prop(d, "csrfCookieName") == v
    ensures forall k :: k != "csrfCookieName" ==> Prop(d, k) == Prop(Defaults(next), k)
  {
    Defaults(next)["csrfCookieName" := v]
  }

  lemma SummaryFlagWithCookie(next: nat, v: Value)
    ensures RunCheck(DefaultsWithCookie(next, v), Prefix, Suffix, TypeIs("showValidationErrorSummary", ["boolean"])).Pass?
  {
  }

  lemma AssetsWithCookie(next: nat, after: nat, v: Value)
    ensures WrapKeys(DefaultsWithCookie(next, v), AssetKeys, after).0.Pass?
  {
    WrapAssets(DefaultsWithCookie(next, v), after);
  }

  lemma LateKeysWithCookie(next: nat, after: nat, v: Value)
    ensures LateKeysOf(WrapKeys(DefaultsWithCookie(next, v), AssetKeys, after).1, next)
  {
    WrapKeysFrame(DefaultsWithCookie(next, v), AssetKeys, after);
  }

  /** The cookie name for the CSRF token is never checked: any value passes. */
  lemma CsrfCookieNameUnchecked(next: nat, after: nat, v: Value)
    ensures Validate(TypeScript, DefaultsWithCookie(next, v), after).0.Pass?
  {
    var d := DefaultsWithCookie(next, v);
    SummaryFlagWithCookie(next, v);
    AssetsWithCookie(next, after, v);
    LateKeysWithCookie(next, after, v);
    LateChecksPassOnDefaults(WrapKeys(d, AssetKeys, after).1, next);
    ValidateTsPasses(d, after);
  }

  /** The declared defaults pass validation in the TypeScript tree. */
  lemma DefaultsValid(next: nat, after: nat)
    ensures Validate(TypeScript, Defaults(next), after).0.Pass?
  {
    assert DefaultsWithCookie(next, Str("CUI_csrf")) == Defaults(next);
    CsrfCookieNameUnchecked(next, after, Str("CUI_csrf"));
  }
}
