/**
 * `CUIOptions`: the router's whole configuration. The constructor lays the
 * source over fourteen keys that start out `undefined`; `_validateAndCoerce`
 * then checks and fills them in a fixed order, replacing each nested setting
 * by a validated instance of its class. The first throw ends the run, and the
 * router constructor lets it escape, so a failed run leaves nothing in use.
 *
 * Objects the library creates take identities from a counter `next`, as in
 * the nested settings' own models.
 */
module Options {
  import opened Js
  import opened Wrappers
  import opened Errors
  import opened Tools
  import Fields
  import Tweaks
  import Actions
  import Navigation
  import Routes

  const Keys: seq<string> := [
    "name", "mode", "recordId", "fields", "actions", "navigation", "tweaks",
    "views", "texts", "icons", "routes", "onError", "debugLog", "isProduction"
  ]

  function Defaults(): (d: Props)
    ensures d.Keys == set k | k in Keys
    ensures forall k :: k in d ==> d[k] == Undefined
  {
    map k | k in Keys :: Undefined
  }

  /** `new CUIOptions(source)`: `safeAssign` in the TypeScript tree, `Object.assign` in the JavaScript one. */
  function Construct(tree: Tree, source: Value): (p: Props)
    ensures tree.TypeScript? ==> p.Keys == Defaults().Keys
    ensures tree.JavaScript? ==> p.Keys == Defaults().Keys + OwnProps(source).Keys
  {
    if tree.TypeScript? then SafeAssigned(Defaults(), [source]) else ObjectAssign(Defaults(), source)
  }

  const Prefix := "Option \""
  const Suffix := "\""

  /** `CUI_MODES`, in declaration order. */
  const Modes: seq<string> := ["detail_list", "simple_list", "single_record"]

  /**
   * What validation reads from outside the options: whether `NODE_ENV` is
   * `"production"`, and what the constructors of the view, text and icon
   * classes, which this model leaves uninterpreted, lay down for a source.
   */
  datatype Host = Host(production: bool, construct: (string, Value) -> Props)

  // ---------------------------------------------------------------------------
  // Name, mode, fields and record id

  const NameChecks: seq<Check> := [Provided("name"), TypeIs("name", ["string"])]

  const ModeAndFieldsChecks: seq<Check> := [
    TypeIs("mode", ["string"]), MemberOf("mode", Modes), Provided("fields"), TypeIs("fields", ["array"])
  ]

  const RecordIdCheck: Check := TypeIs("recordId", ["string", "function"])

  const NoFieldsMessage := "\"fields\" must have at least one field supplied"

  function DefaultMode(p: Props): Props {
    if !Truthy(Prop(p, "mode")) then p["mode" := Str("detail_list")] else p
  }

  function DefaultRecordId(p: Props): Props {
    if Prop(p, "recordId").Undefined? then p["recordId" := Str("id")] else p
  }

  /** A string `recordId` becomes the getter `ob => (ob ? ob[key] : null)`; a function is kept. */
  function RecordGetter(p: Props, next: nat): (r: Progress)
    ensures !Prop(p, "recordId").Str? ==> r == Progress(p, next)
  {
    if Prop(p, "recordId").Str? then Progress(p["recordId" := Func(next, KeyGetter(Prop(p, "recordId").s))], next + 1)
    else Progress(p, next)
  }

  /** The steps before the field list is mapped. */
  function Head(p: Props, next: nat): (r: Result<Progress, Error>)
    ensures r.Failure? ==> r.error.TypeError?
  {
    var o1 := RunChecks(p, Prefix, Suffix, NameChecks);
    if o1.Fail? then Failure(o1.error)
    else
      var p1 := DefaultMode(p);
      var o2 := RunChecks(p1, Prefix, Suffix, ModeAndFieldsChecks);
      if o2.Fail? then Failure(o2.error)
      else
        var p2 := DefaultRecordId(p1);
        var o3 := RunCheck(p2, Prefix, Suffix, RecordIdCheck);
        if o3.Fail? then Failure(o3.error)
        else
          var g := RecordGetter(p2, next);
          var fields := Prop(g.props, "fields");
          if fields.Arr? && |fields.items| < 1 then Failure(TypeError(NoFieldsMessage))
          else Success(g)
  }

  // ---------------------------------------------------------------------------
  // The field list

  /** The error a field's own throw is rethrown as. */
  function FieldError(index: nat, e: Error): (r: Error)
    ensures r.TypeError?
  {
    TypeError("Invalid field #" + NatToString(index) + ": " + e.Message())
  }

  /** What a field validation gives: whether it throws, and the properties it leaves. */
  type Run = Value -> (Outcome<Error>, Props)

  /** `new CUIField(item)._validateAndCoerce()` in one tree. */
  function FieldRun(tree: Tree): Run {
    item => Fields.Validate(tree, Fields.Construct(tree, item))
  }

  /** Whether an entry becomes a field: it passes the object assertion, and the `CUIField` made from it validates. */
  predicate FieldOk(run: Run, item: Value) {
    (item.Undefined? || TypeName(item) == "object") && run(item).0.Pass?
  }

  /**
   * One call of the `.map` callback: the assertion outside the `try`, whose
   * throw escapes as it is, then the new field's validation, whose throw is
   * rethrown naming the index.
   */
  function FieldAt(run: Run, item: Value, index: nat, next: nat): (r: Result<Made, Error>)
    ensures r.Success? <==> FieldOk(run, item)
    ensures r.Failure? ==> r.error.TypeError?
    ensures r.Failure? && (item.Undefined? || TypeName(item) == "object") ==> r.error == FieldError(index, run(item).0.error)
    ensures r.Success? ==> r.value == Made(Inst("CUIField", next, run(item).1), next + 1)
  {
    var t := AssertType(item, "Field #" + NatToString(index), ["object"]);
    if t.Fail? then Failure(t.error)
    else
      var v := run(item);
      if v.0.Fail? then Failure(FieldError(index, v.0.error))
      else Success(Made(Inst("CUIField", next, v.1), next + 1))
  }

  /** The `.map` over the field list, as far as its first `k` entries. */
  function MapFields(run: Run, items: seq<Value>, k: nat, next: nat): (r: Result<Listed, Error>)
    requires k <= |items|
    ensures r.Failure? ==> r.error.TypeError?
    ensures r.Success? ==> |r.value.values| == k
  {
    if k == 0 then Success(Listed([], next))
    else
      var done :- MapFields(run, items, k - 1, next);
      var f :- FieldAt(run, items[k - 1], k - 1, done.next);
      Success(Listed(done.values + [f.value], f.next))
  }

  function FieldsStep(tree: Tree, p: Props, next: nat): (r: Result<Progress, Error>)
    requires Prop(p, "fields").Arr?
    ensures r.Failure? ==> r.error.TypeError?
    ensures r.Success? ==> forall k :: k != "fields" ==> Prop(r.value.props, k) == Prop(p, k)
  {
    var items := Prop(p, "fields").items;
    var m :- MapFields(FieldRun(tree), items, |items|, next);
    Success(Progress(p["fields" := Arr(m.next, m.values)], m.next + 1))
  }

  // ---------------------------------------------------------------------------
  // The nested settings

  predicate IsInstance(cls: string, v: Value) {
    v.Inst? && v.cls == cls
  }

  /**
   * `cast(Ctr, ob)`: an instance of the class is returned as it is; anything
   * else goes to the constructor, which lays down `built` after making `used`
   * objects of its own.
   */
  function CastTo(cls: string, ob: Value, built: Props, used: nat, next: nat): (r: Made)
    ensures IsInstance(cls, r.value)
    ensures IsInstance(cls, ob) ==> r == Made(ob, next)
    ensures !IsInstance(cls, ob) ==> r.value.props == built && r.next == next + used + 1
  {
    if IsInstance(cls, ob) then Made(ob, next) else Made(Inst(cls, next + used, built), next + used + 1)
  }

  /** `cast(CUITweaks, v)`, then its validation: the validated instance and the counter after it, or the throw. */
  function CastTweaks(tree: Tree, v: Value, next: nat): (r: Result<Made, Error>)
    ensures r.Failure? ==> r.error.TypeError?
    ensures r.Success? ==> IsInstance("CUITweaks", r.value.value)
  {
    var c := CastTo("CUITweaks", v, Tweaks.Construct(tree, v, next), if tree.TypeScript? then Tweaks.DefaultObjects else 0, next);
    var w := Tweaks.Validate(tree, c.value.props, c.next);
    if w.0.Fail? then Failure(w.0.error)
    else Success(Made(Inst("CUITweaks", c.value.id, w.1), w.2))
  }

  /** `this.tweaks = cast(CUITweaks, this.tweaks)`, then its validation. */
  function TweaksStep(tree: Tree, p: Props, next: nat): (r: Result<Progress, Error>)
    ensures r.Failure? ==> r.error.TypeError?
    ensures r.Success? ==> forall k :: k != "tweaks" ==> Prop(r.value.props, k) == Prop(p, k)
    ensures r.Success? ==> IsInstance("CUITweaks", Prop(r.value.props, "tweaks"))
  {
    var m :- CastTweaks(tree, Prop(p, "tweaks"), next);
    Success(Progress(p["tweaks" := m.value], m.next))
  }

  /** `this.actions = cast(CUIActions, this.actions)`, then its validation against the mode. */
  function ActionsStep(tree: Tree, p: Props, next: nat): (r: Result<Progress, Error>)
    ensures r.Failure? ==> r.error.TypeError?
    ensures r.Success? ==> forall k :: k != "actions" ==> Prop(r.value.props, k) == Prop(p, k)
    ensures r.Success? ==> IsInstance("CUIActions", Prop(r.value.props, "actions"))
    ensures r.Success? ==> Actions.Validate(Prop(r.value.props, "actions").props, Prop(p, "mode")).Pass?
  {
    var v := Prop(p, "actions");
    var c := CastTo("CUIActions", v, Actions.Construct(tree, v), 0, next);
    var o := Actions.Validate(c.value.props, Prop(p, "mode"));
    if o.Fail? then Failure(o.error) else Success(Progress(p["actions" := c.value], c.next))
  }

  /** The navigation class each tree's navigation module exports. */
  function NavClass(tree: Tree): string {
    if tree.TypeScript? then "CUINavigation" else "CBQNavigation"
  }

  /** A truthy navigation must be an object; it is always replaced by a new, validated navigation. */
  function NavigationStep(tree: Tree, p: Props, next: nat): (r: Result<Progress, Error>)
    ensures r.Failure? ==> r.error.TypeError?
    ensures r.Success? ==> forall k :: k != "navigation" ==> Prop(r.value.props, k) == Prop(p, k)
    ensures r.Success? && !Truthy(Prop(p, "navigation")) ==> r.value.props == p
    ensures r.Success? && Truthy(Prop(p, "navigation")) ==>
              TypeName(Prop(p, "navigation")) == "object" && IsInstance(NavClass(tree), Prop(r.value.props, "navigation"))
  {
    var v := Prop(p, "navigation");
    if !Truthy(v) then Success(Progress(p, next))
    else
      var o := RunCheck(p, Prefix, Suffix, TypeIs("navigation", ["object"]));
      if o.Fail? then Failure(o.error)
      else
        var w := Navigation.Validate(tree, Navigation.Construct(tree, v), next + 1);
        if w.0.Fail? then Failure(w.0.error)
        else Success(Progress(p["navigation" := Inst(NavClass(tree), next, w.1)], w.2))
  }

  /**
   * The same step as the JavaScript options file writes it: it asks the
   * navigation module for `CUINavigation`, which that module does not export,
   * so `new` is applied to `undefined`.
   */
  function NavigationStepAsWritten(tree: Tree, p: Props, next: nat): (r: Result<Progress, Error>)
    ensures tree.TypeScript? || !Truthy(Prop(p, "navigation")) ==> r == NavigationStep(tree, p, next)
    ensures tree.JavaScript? && Truthy(Prop(p, "navigation")) ==> r.Failure?
  {
    if tree.JavaScript? && Truthy(Prop(p, "navigation")) then
      var o := RunCheck(p, Prefix, Suffix, TypeIs("navigation", ["object"]));
      if o.Fail? then Failure(o.error) else Failure(TypeError("CUINavigation is not a constructor"))
    else NavigationStep(tree, p, next)
  }

  /** The views, texts, icons and routes casts, in that order. */
  function CastsStep(tree: Tree, host: Host, p: Props, next: nat): (r: Progress)
    ensures IsInstance("CUIViews", Prop(r.props, "views")) && IsInstance("CUITexts", Prop(r.props, "texts"))
    ensures IsInstance("CUIIcons", Prop(r.props, "icons")) && IsInstance("CUIRoutes", Prop(r.props, "routes"))
    ensures forall k :: k !in {"views", "texts", "icons", "routes"} ==> Prop(r.props, k) == Prop(p, k)
  {
    var views := Prop(p, "views");
    var a := CastTo("CUIViews", views, host.construct("CUIViews", views), 0, next);
    var texts := Prop(p, "texts");
    var b := CastTo("CUITexts", texts, host.construct("CUITexts", texts), 0, a.next);
    var icons := Prop(p, "icons");
    var c := CastTo("CUIIcons", icons, host.construct("CUIIcons", icons), 0, b.next);
    var routes := Prop(p, "routes");
    var d := CastTo("CUIRoutes", routes, Routes.Construct(tree, routes, c.next), Routes.Closures, c.next);
    Progress(p["views" := a.value]["texts" := b.value]["icons" := c.value]["routes" := d.value], d.next)
  }

  // ---------------------------------------------------------------------------
  // Callbacks and the production flag

  /** An `onError` left `undefined` becomes the logger; anything else, `null` included, is kept. */
  function DefaultOnError(p: Props, next: nat): Progress {
    if Prop(p, "onError").Undefined? then Progress(p["onError" := Func(next, ErrorLogger)], next + 1)
    else Progress(p, next)
  }

  /** `debugLog === true` becomes a console logger, a falsy one a no-op; any other value is kept. */
  function DefaultDebugLog(p: Props, next: nat): Progress {
    var d := Prop(p, "debugLog");
    if StrictEquals(d, Bool(true)) then Progress(p["debugLog" := Func(next, MessageLogger)], next + 1)
    else if !Truthy(d) then Progress(p["debugLog" := Func(next, NoOp)], next + 1)
    else Progress(p, next)
  }

  function DefaultIsProduction(host: Host, p: Props): Props {
    if Prop(p, "isProduction").Undefined? then p["isProduction" := Bool(host.production)] else p
  }

  function Tail(host: Host, p: Props, next: nat): (r: Result<Progress, Error>)
    ensures r.Failure? ==> r.error.TypeError?
    ensures r.Success? ==> forall k :: k !in {"onError", "debugLog", "isProduction"} ==> Prop(r.value.props, k) == Prop(p, k)
    ensures r.Success? ==> !Prop(r.value.props, "onError").Undefined? && Truthy(Prop(r.value.props, "debugLog"))
                           && Prop(r.value.props, "isProduction").Bool?
  {
    var e := DefaultOnError(p, next);
    var d := DefaultDebugLog(e.props, e.next);
    var q := DefaultIsProduction(host, d.props);
    var o := RunCheck(q, Prefix, Suffix, TypeIs("isProduction", ["boolean"]));
    if o.Fail? then Failure(o.error) else Success(Progress(q, d.next))
  }

  /** The casts and the last steps, as the run continues from the casts. */
  function FromCasts(tree: Tree, host: Host, p: Props, next: nat): (r: Result<Progress, Error>)
    ensures r.Failure? ==> r.error.TypeError?
    ensures r.Success? ==> forall k :: k !in {"views", "texts", "icons", "routes", "onError", "debugLog", "isProduction"} ==>
              Prop(r.value.props, k) == Prop(p, k)
  {
    var c := CastsStep(tree, host, p, next);
    Tail(host, c.props, c.next)
  }

  /** The run from the navigation step on. */
  function FromNavigation(tree: Tree, host: Host, p: Props, next: nat): (r: Result<Progress, Error>)
    ensures r.Failure? ==> r.error.TypeError?
    ensures r.Success? ==> forall k :: k !in {"navigation", "views", "texts", "icons", "routes", "onError", "debugLog", "isProduction"} ==>
              Prop(r.value.props, k) == Prop(p, k)
  {
    var n :- NavigationStep(tree, p, next);
    FromCasts(tree, host, n.props, n.next)
  }

  /** The run from the actions cast on. */
  function FromActions(tree: Tree, host: Host, p: Props, next: nat): (r: Result<Progress, Error>)
    ensures r.Failure? ==> r.error.TypeError?
    ensures r.Success? ==> forall k :: k !in {"actions", "navigation", "views", "texts", "icons", "routes", "onError", "debugLog", "isProduction"} ==>
              Prop(r.value.props, k) == Prop(p, k)
  {
    var a :- ActionsStep(tree, p, next);
    FromNavigation(tree, host, a.props, a.next)
  }

  /** The run from the tweaks cast on. */
  function FromTweaks(tree: Tree, host: Host, p: Props, next: nat): (r: Result<Progress, Error>)
    ensures r.Failure? ==> r.error.TypeError?
    ensures r.Success? ==> forall k :: k !in {"tweaks", "actions", "navigation", "views", "texts", "icons", "routes", "onError", "debugLog", "isProduction"} ==>
              Prop(r.value.props, k) == Prop(p, k)
  {
    var t :- TweaksStep(tree, p, next);
    FromActions(tree, host, t.props, t.next)
  }

  /** The run from the field list on. */
  function FromFields(tree: Tree, host: Host, p: Props, next: nat): (r: Result<Progress, Error>)
    requires Prop(p, "fields").Arr?
    ensures r.Failure? ==> r.error.TypeError?
    ensures r.Success? ==> forall k :: k !in {"fields", "tweaks", "actions", "navigation", "views", "texts", "icons", "routes", "onError", "debugLog", "isProduction"} ==>
              Prop(r.value.props, k) == Prop(p, k)
  {
    var f :- FieldsStep(tree, p, next);
    FromTweaks(tree, host, f.props, f.next)
  }

  /** `_validateAndCoerce()`: the options it leaves and the counter after it, or the first throw. */
  function Validate(tree: Tree, host: Host, p: Props, next: nat): (r: Result<Progress, Error>)
    ensures r.Failure? ==> r.error.TypeError?
  {
    var h :- Head(p, next);
    HeadShape(p, next);
    FromFields(tree, host, h.props, h.next)
  }

  // ---------------------------------------------------------------------------
  // The class

  /** One call of the `.map` callback: the assertion, then a new `CUIField` validated in place. */
  method MakeField(tree: Tree, item: Value, index: nat, next: nat) returns (r: Result<Made, Error>)
    ensures r == FieldAt(FieldRun(tree), item, index, next)
  {
    var t := AssertType(item, "Field #" + NatToString(index), ["object"]);
    if t.Fail? {
      return Failure(t.error);
    }
    var field: Fields.Field;
    if tree.TypeScript? {
      field := new Fields.Field.FromSafeAssign(item);
    } else {
      field := new Fields.Field.FromObjectAssign(item);
    }
    assert field.props == Fields.Construct(tree, item);
    var o := field.ValidateAndCoerce(tree);
    if o.Fail? {
      return Failure(FieldError(index, o.error));
    }
    r := Success(Made(field.AsValue(next), next + 1));
  }

  /** The `.map` callback on entry `i`, after the entries before it became `done`. */
  method MapFieldAt(tree: Tree, items: seq<Value>, i: nat, next: nat, done: Listed) returns (r: Result<Listed, Error>)
    requires i < |items|
    requires MapFields(FieldRun(tree), items, i, next) == Success(done)
    ensures r == MapFields(FieldRun(tree), items, i + 1, next)
    ensures r.Failure? ==> r == MapFields(FieldRun(tree), items, |items|, next)
  {
    var f := MakeField(tree, items[i], i, done.next);
    MapFieldsNext(FieldRun(tree), items, i, next, done);
    if f.Failure? {
      MapFieldsStaysFailed(FieldRun(tree), items, i + 1, |items|, next);
      return Failure(f.error);
    }
    r := Success(Listed(done.values + [f.value.value], f.value.next));
  }

  /** The `.map` over the field list, as a loop. */
  method MapFieldList(tree: Tree, items: seq<Value>, next: nat) returns (r: Result<Listed, Error>)
    ensures r == MapFields(FieldRun(tree), items, |items|, next)
  {
    r := Success(Listed([], next));
    var i := 0;
    while i < |items| && r.Success?
      invariant 0 <= i <= |items|
      invariant r.Success? ==> MapFields(FieldRun(tree), items, i, next) == r
      invariant r.Failure? ==> MapFields(FieldRun(tree), items, |items|, next) == r
    {
      r := MapFieldAt(tree, items, i, next, r.value);
      i := i + 1;
    }
  }

  class Options {
    var props: Props

    constructor (tree: Tree, source: Value)
      ensures props == Construct(tree, source)
    {
      props := Construct(tree, source);
    }

    /** `get hasList()` */
    predicate HasList()
      reads this
    {
      ListAvailable(props)
    }

    /** `get isSingleRecordMode()` */
    predicate IsSingleRecordMode()
      reads this
    {
      SingleRecord(props)
    }

    /** The steps before the field list: name, mode, fields and record id. */
    method CheckHead(next: nat) returns (o: Outcome<Error>, after: nat)
      modifies this
      ensures var r := Head(old(props), next);
              && (o.Pass? <==> r.Success?)
              && (r.Failure? ==> o == Fail(r.error))
              && (r.Success? ==> props == r.value.props && after == r.value.next)
    {
      after := next;
      o := RunChecks(props, Prefix, Suffix, NameChecks);
      if o.Fail? {
        return;
      }
      if !Truthy(Prop(props, "mode")) {
        props := props["mode" := Str("detail_list")];
      }
      o := RunChecks(props, Prefix, Suffix, ModeAndFieldsChecks);
      if o.Fail? {
        return;
      }
      if Prop(props, "recordId").Undefined? {
        props := props["recordId" := Str("id")];
      }
      o := RunCheck(props, Prefix, Suffix, RecordIdCheck);
      if o.Fail? {
        return;
      }
      if Prop(props, "recordId").Str? {
        props := props["recordId" := Func(after, KeyGetter(Prop(props, "recordId").s))];
        after := after + 1;
      }
      var fields := Prop(props, "fields");
      if fields.Arr? && |fields.items| < 1 {
        o := Fail(TypeError(NoFieldsMessage));
      }
    }

    /** A truthy navigation is checked, then replaced by a new navigation validated in place. */
    method CheckNavigation(tree: Tree, next: nat) returns (o: Outcome<Error>, after: nat)
      modifies this
      ensures var r := NavigationStep(tree, old(props), next);
              && (o.Pass? <==> r.Success?)
              && (r.Failure? ==> o == Fail(r.error))
              && (r.Success? ==> props == r.value.props && after == r.value.next)
    {
      after := next;
      o := Pass;
      if Truthy(Prop(props, "navigation")) {
        o := RunCheck(props, Prefix, Suffix, TypeIs("navigation", ["object"]));
        if o.Fail? {
          return;
        }
        var nav := new Navigation.Navigation(tree, Prop(props, "navigation"));
        var no, n2 := nav.ValidateAndCoerce(tree, next + 1);
        if no.Fail? {
          o := no;
          return;
        }
        props := props["navigation" := Inst(NavClass(tree), next, nav.props)];
        after := n2;
      }
    }

    /** The callback defaults, then the production flag and its check. */
    method CheckTail(host: Host, next: nat) returns (o: Outcome<Error>, after: nat)
      modifies this
      ensures var r := Tail(host, old(props), next);
              && (o.Pass? <==> r.Success?)
              && (r.Failure? ==> o == Fail(r.error))
              && (r.Success? ==> props == r.value.props && after == r.value.next)
    {
      after := next;
      if Prop(props, "onError").Undefined? {
        props := props["onError" := Func(after, ErrorLogger)];
        after := after + 1;
      }
      if StrictEquals(Prop(props, "debugLog"), Bool(true)) {
        props := props["debugLog" := Func(after, MessageLogger)];
        after := after + 1;
      } else if !Truthy(Prop(props, "debugLog")) {
        props := props["debugLog" := Func(after, NoOp)];
        after := after + 1;
      }
      if Prop(props, "isProduction").Undefined? {
        props := props["isProduction" := Bool(host.production)];
      }
      o := RunCheck(props, Prefix, Suffix, TypeIs("isProduction", ["boolean"]));
    }

    /** `_validateAndCoerce()`, each step rewriting the options in place. */
    method ValidateAndCoerce(tree: Tree, host: Host, next: nat) returns (o: Outcome<Error>, after: nat)
      modifies this
      ensures var r := Validate(tree, host, old(props), next);
              && (o.Pass? <==> r.Success?)
              && (r.Failure? ==> o == Fail(r.error))
              && (r.Success? ==> props == r.value.props && after == r.value.next)
    {
      ghost var start := props;
      o, after := CheckHead(next);
      if o.Fail? {
        return;
      }
      HeadShape(start, next);
      o, after := CheckFromFields(tree, host, after);
    }

    /** The field list, the tweaks and the actions, then the rest of the run. */
    method CheckFromFields(tree: Tree, host: Host, next: nat) returns (o: Outcome<Error>, after: nat)
      requires Prop(props, "fields").Arr?
      modifies this
      ensures var r := FromFields(tree, host, old(props), next);
              && (o.Pass? <==> r.Success?)
              && (r.Failure? ==> o == Fail(r.error))
              && (r.Success? ==> props == r.value.props && after == r.value.next)
    {
      after := next;
      var f := MapFieldsInto(tree, props, after);
      if f.Failure? {
        o := Fail(f.error);
        return;
      }
      props, after := f.value.props, f.value.next;
      var t := TweaksStep(tree, props, after);
      if t.Failure? {
        o := Fail(t.error);
        return;
      }
      props, after := t.value.props, t.value.next;
      var a := ActionsStep(tree, props, after);
      if a.Failure? {
        o := Fail(a.error);
        return;
      }
      props, after := a.value.props, a.value.next;
      o, after := CheckFromNavigation(tree, host, after);
    }

    /** The navigation, the casts and the last steps. */
    method CheckFromNavigation(tree: Tree, host: Host, next: nat) returns (o: Outcome<Error>, after: nat)
      modifies this
      ensures var r := FromNavigation(tree, host, old(props), next);
              && (o.Pass? <==> r.Success?)
              && (r.Failure? ==> o == Fail(r.error))
              && (r.Success? ==> props == r.value.props && after == r.value.next)
    {
      o, after := CheckNavigation(tree, next);
      if o.Fail? {
        return;
      }
      var c := CastsStep(tree, host, props, after);
      props, after := c.props, c.next;
      o, after := CheckTail(host, after);
    }
  }

  /** `this.fields = this.fields.map(...)`, the mapped list replacing the original. */
  method MapFieldsInto(tree: Tree, p: Props, next: nat) returns (r: Result<Progress, Error>)
    requires Prop(p, "fields").Arr?
    ensures r == FieldsStep(tree, p, next)
  {
    var items := Prop(p, "fields").items;
    var m := MapFieldList(tree, items, next);
    if m.Failure? {
      return Failure(m.error);
    }
    r := Success(Progress(p["fields" := Arr(m.value.next, m.value.values)], m.value.next + 1));
    assert FieldsStep(tree, p, next).Success?;
    assert FieldsStep(tree, p, next).value.next == r.value.next;
    assert FieldsStep(tree, p, next).value.props == r.value.props;
  }

  // ---------------------------------------------------------------------------
  // What validation promises

  /** Once an entry has failed, the `.map` over any longer prefix fails with the same error. */
  lemma {:induction false} MapFieldsStaysFailed(run: Run, items: seq<Value>, k: nat, m: nat, next: nat)
    requires k <= m <= |items|
    requires MapFields(run, items, k, next).Failure?
    ensures MapFields(run, items, m, next) == MapFields(run, items, k, next)
    decreases m
  {
    if m > k {
      MapFieldsStaysFailed(run, items, k, m - 1, next);
    }
  }

  /** One more entry of the `.map`, after a prefix that succeeded. */
  lemma MapFieldsNext(run: Run, items: seq<Value>, k: nat, next: nat, done: Listed)
    requires k < |items|
    requires MapFields(run, items, k, next) == Success(done)
    ensures var f := FieldAt(run, items[k], k, done.next);
            MapFields(run, items, k + 1, next)
              == if f.Failure? then Failure(f.error) else Success(Listed(done.values + [f.value.value], f.value.next))
  {
  }

  /** The name checks pass exactly on a string name. */
  lemma NameChecksExactly(p: Props)
    ensures RunChecks(p, Prefix, Suffix, NameChecks).Pass? <==> Prop(p, "name").Str?
  {
    RunChecksProvidedTyped(p, Prefix, Suffix, "name", "string", []);
    assert NameChecks == NameChecks + [];
    TypeIsKind(p, Prefix, Suffix, "name", "string");
  }

  /** The mode and field-list checks pass exactly on a string mode `in` the modes and an array of fields. */
  lemma ModeAndFieldsExactly(p: Props)
    ensures RunChecks(p, Prefix, Suffix, ModeAndFieldsChecks).Pass? <==>
              && (Prop(p, "mode").Undefined? || Prop(p, "mode").Str?)
              && (ToStr(Prop(p, "mode")) in Modes || ToStr(Prop(p, "mode")) in PrototypeKeys)
              && Prop(p, "fields").Arr?
  {
    var fields := [Provided("fields"), TypeIs("fields", ["array"])];
    RunChecksProvidedTyped(p, Prefix, Suffix, "fields", "array", []);
    assert fields == fields + [];
    RunChecksPassCons(p, Prefix, Suffix, MemberOf("mode", Modes), fields);
    RunChecksPassCons(p, Prefix, Suffix, TypeIs("mode", ["string"]), [MemberOf("mode", Modes)] + fields);
    assert ModeAndFieldsChecks == [TypeIs("mode", ["string"])] + ([MemberOf("mode", Modes)] + fields);
    TypeIsKind(p, Prefix, Suffix, "mode", "string");
    TypeIsKind(p, Prefix, Suffix, "fields", "array");
    MemberOfKind(p, Prefix, Suffix, "mode", Modes);
  }

  /** The record id check passes on `undefined`, a string or a function. */
  lemma RecordIdKind(p: Props)
    ensures RunCheck(p, Prefix, Suffix, RecordIdCheck).Pass? <==>
              Prop(p, "recordId").Undefined? || Prop(p, "recordId").Str? || Prop(p, "recordId").Func?
  {
  }

  /** Past the first steps the field list is a non-empty array. */
  lemma HeadShape(p: Props, next: nat)
    requires Head(p, next).Success?
    ensures Prop(Head(p, next).value.props, "fields").Arr?
    ensures |Prop(Head(p, next).value.props, "fields").items| >= 1
  {
    ModeAndFieldsExactly(DefaultMode(p));
  }

  /**
   * What the first steps leave: a string name, a mode that is a known mode
   * (or a name `in` finds on the prototype), `detail_list` when none was given,
   * the field list as it was, and a record id that is a function: the given
   * one, or a getter for the given key or for `"id"`. Nothing else changes.
   */
  lemma HeadExactly(p: Props, next: nat)
    requires Head(p, next).Success?
    ensures var q := Head(p, next).value.props;
            && Prop(q, "name").Str?
            && Prop(q, "mode").Str? && (Prop(q, "mode").s in Modes || Prop(q, "mode").s in PrototypeKeys)
            && Prop(q, "mode") == (if Truthy(Prop(p, "mode")) then Prop(p, "mode") else Str("detail_list"))
            && Prop(q, "fields") == Prop(p, "fields")
            && (Prop(p, "recordId").Undefined? ==> Prop(q, "recordId") == Func(next, KeyGetter("id")))
            && (Prop(p, "recordId").Str? ==> Prop(q, "recordId") == Func(next, KeyGetter(Prop(p, "recordId").s)))
            && (Prop(p, "recordId").Func? ==> Prop(q, "recordId") == Prop(p, "recordId"))
            && Prop(q, "recordId").Func?
            && forall k :: k != "mode" && k != "recordId" ==> Prop(q, k) == Prop(p, k)
  {
    NameChecksExactly(p);
    var p1 := DefaultMode(p);
    ModeAndFieldsExactly(p1);
    RecordIdKind(DefaultRecordId(p1));
  }

  /** Options without a name are rejected first, whatever else they hold. */
  lemma NameRequired(tree: Tree, host: Host, p: Props, next: nat)
    requires Prop(p, "name").Undefined?
    ensures Validate(tree, host, p, next) == Failure(TypeError("Option \"name\" must be provided"))
  {
    HeadNameRequired(p, next);
    HeadFailureEndsRun(tree, host, p, next);
  }

  lemma HeadNameRequired(p: Props, next: nat)
    requires Prop(p, "name").Undefined?
    ensures Head(p, next) == Failure(TypeError("Option \"name\" must be provided"))
  {
    RunChecksCons(p, Prefix, Suffix, Provided("name"), [TypeIs("name", ["string"])]);
    assert NameChecks == [Provided("name")] + [TypeIs("name", ["string"])];
    assert KeyId(Prefix, "name", Suffix) + " must be provided" == "Option \"name\" must be provided";
  }

  /** An empty field list is rejected once the steps before it pass. */
  lemma EmptyFieldsRejected(tree: Tree, host: Host, p: Props, next: nat, id: nat)
    requires Prop(p, "name").Str?
    requires !Truthy(Prop(p, "mode")) || Prop(p, "mode") in [Str("detail_list"), Str("simple_list"), Str("single_record")]
    requires Prop(p, "fields") == Arr(id, [])
    requires Prop(p, "recordId").Undefined? || Prop(p, "recordId").Str? || Prop(p, "recordId").Func?
    ensures Validate(tree, host, p, next) == Failure(TypeError(NoFieldsMessage))
  {
    HeadEmptyFields(p, next, id);
    HeadFailureEndsRun(tree, host, p, next);
  }

  lemma HeadEmptyFields(p: Props, next: nat, id: nat)
    requires Prop(p, "name").Str?
    requires !Truthy(Prop(p, "mode")) || Prop(p, "mode") in [Str("detail_list"), Str("simple_list"), Str("single_record")]
    requires Prop(p, "fields") == Arr(id, [])
    requires Prop(p, "recordId").Undefined? || Prop(p, "recordId").Str? || Prop(p, "recordId").Func?
    ensures Head(p, next) == Failure(TypeError(NoFieldsMessage))
  {
    NameChecksExactly(p);
    var p1 := DefaultMode(p);
    assert Prop(p1, "mode").Str? && Prop(p1, "mode").s in Modes;
    ModeAndFieldsExactly(p1);
    RecordIdKind(DefaultRecordId(p1));
  }

  /** The `.map` succeeds exactly when every entry becomes a valid field. */
  lemma {:induction false} MapFieldsPasses(run: Run, items: seq<Value>, k: nat, next: nat)
    requires k <= |items|
    ensures MapFields(run, items, k, next).Success? <==> forall i :: 0 <= i < k ==> FieldOk(run, items[i])
  {
    if k > 0 {
      MapFieldsPasses(run, items, k - 1, next);
      var prev := MapFields(run, items, k - 1, next);
      if prev.Success? {
        var f := FieldAt(run, items[k - 1], k - 1, prev.value.next);
        assert MapFields(run, items, k, next).Success? <==> f.Success?;
      }
      assert (forall i :: 0 <= i < k ==> FieldOk(run, items[i])) <==>
             (forall i :: 0 <= i < k - 1 ==> FieldOk(run, items[i])) && FieldOk(run, items[k - 1]);
    }
  }

  /** A successful `.map` gives, entry for entry and in order, a `CUIField` holding that entry's validated properties. */
  lemma {:induction false} MapFieldsValues(run: Run, items: seq<Value>, k: nat, next: nat)
    requires k <= |items|
    requires MapFields(run, items, k, next).Success?
    ensures var vs := MapFields(run, items, k, next).value.values;
            forall i :: 0 <= i < k ==> IsInstance("CUIField", vs[i]) && vs[i].props == run(items[i]).1
  {
    if k > 0 {
      MapFieldsValues(run, items, k - 1, next);
      var d := MapFields(run, items, k - 1, next).value;
      var f := FieldAt(run, items[k - 1], k - 1, d.next);
      assert MapFields(run, items, k, next).value.values == d.values + [f.value.value];
    }
  }

  /**
   * Entry `i` is the first that does not become a field, and `e` is what the
   * callback throws for it: the failed object assertion, or the field's error
   * rethrown with the index.
   */
  predicate FirstFailure(run: Run, items: seq<Value>, i: nat, e: Error)
    requires i < |items|
  {
    && (forall j :: 0 <= j < i ==> FieldOk(run, items[j]))
    && !FieldOk(run, items[i])
    && e == if items[i].Undefined? || TypeName(items[i]) == "object"
            then FieldError(i, run(items[i]).0.error)
            else AssertType(items[i], "Field #" + NatToString(i), ["object"]).error
  }

  /** A failing `.map` reports its first failing entry. */
  lemma {:induction false} MapFieldsFailure(run: Run, items: seq<Value>, k: nat, next: nat)
    requires k <= |items|
    requires MapFields(run, items, k, next).Failure?
    ensures exists i :: 0 <= i < k && FirstFailure(run, items, i, MapFields(run, items, k, next).error)
  {
    var done := MapFields(run, items, k - 1, next);
    if done.Failure? {
      MapFieldsFailure(run, items, k - 1, next);
      MapFieldsStaysFailed(run, items, k - 1, k, next);
    } else {
      FailsAtLast(run, items, k, next);
    }
  }

  /** A `.map` whose prefix before the last entry succeeded fails at that entry. */
  lemma FailsAtLast(run: Run, items: seq<Value>, k: nat, next: nat)
    requires 0 < k <= |items|
    requires MapFields(run, items, k - 1, next).Success? && MapFields(run, items, k, next).Failure?
    ensures FirstFailure(run, items, k - 1, MapFields(run, items, k, next).error)
  {
    var done := MapFields(run, items, k - 1, next).value;
    MapFieldsPasses(run, items, k - 1, next);
    var f := FieldAt(run, items[k - 1], k - 1, done.next);
    assert f.Failure?;
    assert MapFields(run, items, k, next).error == f.error;
  }

  /**
   * After a successful field step the list is an array of `CUIField`
   * instances, one per entry and in order, each of which validates again to
   * itself.
   */
  lemma FieldsStepShape(tree: Tree, p: Props, next: nat)
    requires Prop(p, "fields").Arr?
    requires FieldsStep(tree, p, next).Success?
    ensures var fs := Prop(FieldsStep(tree, p, next).value.props, "fields");
            var items := Prop(p, "fields").items;
            && fs.Arr? && |fs.items| == |items|
            && forall i :: 0 <= i < |items| ==>
                 IsInstance("CUIField", fs.items[i])
                 && fs.items[i].props == Fields.Validate(tree, Fields.Construct(tree, items[i])).1
                 && Fields.Validate(tree, fs.items[i].props) == (Pass, fs.items[i].props)
    ensures var fs := Prop(FieldsStep(tree, p, next).value.props, "fields");
            forall f :: f in fs.items ==> IsInstance("CUIField", f) && Fields.Validate(tree, f.props) == (Pass, f.props)
  {
    var items := Prop(p, "fields").items;
    var run := FieldRun(tree);
    MapFieldsPasses(run, items, |items|, next);
    MapFieldsValues(run, items, |items|, next);
    forall i | 0 <= i < |items|
      ensures run(items[i]) == Fields.Validate(tree, Fields.Construct(tree, items[i]))
      ensures Fields.Validate(tree, run(items[i]).1) == (Pass, run(items[i]).1)
    {
      assert FieldOk(run, items[i]);
      Fields.ValidateIdempotent(tree, Fields.Construct(tree, items[i]));
    }
  }

  /**
   * The last steps: an `onError` left `undefined` becomes the logger and any
   * other value stays; `debugLog === true` becomes the console logger, a falsy
   * one the no-op, any other stays; an unset production flag comes from the
   * host, and the flag must end up a boolean.
   */
  lemma TailExactly(host: Host, p: Props, next: nat)
    ensures var r := Tail(host, p, next);
            var onError := if Prop(p, "onError").Undefined? then Func(next, ErrorLogger) else Prop(p, "onError");
            var n := if Prop(p, "onError").Undefined? then next + 1 else next;
            var debugLog := if StrictEquals(Prop(p, "debugLog"), Bool(true)) then Func(n, MessageLogger)
                            else if !Truthy(Prop(p, "debugLog")) then Func(n, NoOp) else Prop(p, "debugLog");
            var flag := if Prop(p, "isProduction").Undefined? then Bool(host.production) else Prop(p, "isProduction");
            && (r.Success? <==> flag.Bool?)
            && (r.Success? ==> Prop(r.value.props, "onError") == onError && Prop(r.value.props, "debugLog") == debugLog
                                && Prop(r.value.props, "isProduction") == flag)
  {
  }

  /** Whether the options can list records: `actions.getList` is truthy. */
  predicate ListAvailable(p: Props) {
    Truthy(Get(Prop(p, "actions"), "getList"))
  }

  /** Whether the options run in single-record mode. */
  predicate SingleRecord(p: Props) {
    StrictEquals(Prop(p, "mode"), Str("single_record"))
  }

  /** The run from the casts on leaves instances of the four classes, an error handler, a truthy debug logger and a boolean flag. */
  lemma CastsLeave(tree: Tree, host: Host, p: Props, next: nat)
    requires FromCasts(tree, host, p, next).Success?
    ensures var q := FromCasts(tree, host, p, next).value.props;
            && IsInstance("CUIViews", Prop(q, "views")) && IsInstance("CUITexts", Prop(q, "texts"))
            && IsInstance("CUIIcons", Prop(q, "icons")) && IsInstance("CUIRoutes", Prop(q, "routes"))
            && !Prop(q, "onError").Undefined? && Truthy(Prop(q, "debugLog")) && Prop(q, "isProduction").Bool?
  {
    var c := CastsStep(tree, host, p, next);
    TailExactly(host, c.props, c.next);
  }

  /** The run from the navigation step on leaves a navigation that is falsy or a validated instance. */
  lemma NavigationLeaves(tree: Tree, host: Host, p: Props, next: nat)
    requires FromNavigation(tree, host, p, next).Success?
    ensures var q := FromNavigation(tree, host, p, next).value.props;
            !Truthy(Prop(q, "navigation")) || IsInstance(NavClass(tree), Prop(q, "navigation"))
  {
    var n := NavigationStep(tree, p, next).value;
    assert Prop(FromCasts(tree, host, n.props, n.next).value.props, "navigation") == Prop(n.props, "navigation");
  }

  /** The run from the actions cast on leaves actions that validate against the mode. */
  lemma ActionsLeave(tree: Tree, host: Host, p: Props, next: nat)
    requires FromActions(tree, host, p, next).Success?
    ensures var q := FromActions(tree, host, p, next).value.props;
            IsInstance("CUIActions", Prop(q, "actions")) && Actions.Validate(Prop(q, "actions").props, Prop(q, "mode")).Pass?
  {
    var a := ActionsStep(tree, p, next).value;
    var q := FromNavigation(tree, host, a.props, a.next).value.props;
    assert Prop(q, "actions") == Prop(a.props, "actions");
    assert Prop(q, "mode") == Prop(a.props, "mode") == Prop(p, "mode");
  }

  /** The run from the tweaks cast on leaves a tweaks instance. */
  lemma TweaksLeave(tree: Tree, host: Host, p: Props, next: nat)
    requires FromTweaks(tree, host, p, next).Success?
    ensures IsInstance("CUITweaks", Prop(FromTweaks(tree, host, p, next).value.props, "tweaks"))
  {
    var t := TweaksStep(tree, p, next).value;
    assert Prop(FromActions(tree, host, t.props, t.next).value.props, "tweaks") == Prop(t.props, "tweaks");
  }

  /** The run from the field list on leaves one validated `CUIField` per entry. */
  lemma FieldsLeave(tree: Tree, host: Host, p: Props, next: nat)
    requires Prop(p, "fields").Arr?
    requires FromFields(tree, host, p, next).Success?
    ensures var fs := Prop(FromFields(tree, host, p, next).value.props, "fields");
            && fs.Arr? && |fs.items| == |Prop(p, "fields").items|
            && forall f :: f in fs.items ==> IsInstance("CUIField", f) && Fields.Validate(tree, f.props) == (Pass, f.props)
  {
    var f := FieldsStep(tree, p, next).value;
    FieldsStepShape(tree, p, next);
    assert Prop(FromTweaks(tree, host, f.props, f.next).value.props, "fields") == Prop(f.props, "fields");
  }

  /** When the first steps throw, the run ends with their error. */
  lemma HeadFailureEndsRun(tree: Tree, host: Host, p: Props, next: nat)
    requires Head(p, next).Failure?
    ensures Validate(tree, host, p, next) == Failure(Head(p, next).error)
  {
  }

  /**
   * What a successful run leaves of the first steps: a string name, a mode
   * that is a known mode (or a name `in` finds on the prototype),
   * `detail_list` when none was given, and a record id that is a function.
   */
  lemma ValidatedHead(tree: Tree, host: Host, p: Props, next: nat)
    requires Validate(tree, host, p, next).Success?
    ensures Head(p, next).Success?
    ensures var q := Validate(tree, host, p, next).value.props;
            var h := Head(p, next).value.props;
            && Prop(q, "name") == Prop(h, "name") && Prop(q, "mode") == Prop(h, "mode") && Prop(q, "recordId") == Prop(h, "recordId")
            && Prop(q, "name").Str?
            && Prop(q, "mode").Str? && (Prop(q, "mode").s in Modes || Prop(q, "mode").s in PrototypeKeys)
            && Prop(q, "mode") == (if Truthy(Prop(p, "mode")) then Prop(p, "mode") else Str("detail_list"))
            && Prop(q, "recordId").Func?
  {
    var h := Head(p, next).value;
    HeadShape(p, next);
    HeadExactly(p, next);
    var q := FromFields(tree, host, h.props, h.next).value.props;
    assert Prop(q, "name") == Prop(h.props, "name");
    assert Prop(q, "mode") == Prop(h.props, "mode");
    assert Prop(q, "recordId") == Prop(h.props, "recordId");
  }

  /**
   * What a successful run leaves of the rest: a non-empty list of validated
   * fields, validated tweaks and actions, a navigation that is absent or
   * validated, instances for views, texts, icons and routes, an error
   * handler that is set, a truthy debug logger and a boolean production flag.
   */
  lemma ValidatedShape(tree: Tree, host: Host, p: Props, next: nat)
    requires Validate(tree, host, p, next).Success?
    ensures var q := Validate(tree, host, p, next).value.props;
            && Prop(q, "fields").Arr? && |Prop(q, "fields").items| >= 1
            && (forall f :: f in Prop(q, "fields").items ==> IsInstance("CUIField", f) && Fields.Validate(tree, f.props) == (Pass, f.props))
            && IsInstance("CUITweaks", Prop(q, "tweaks"))
            && IsInstance("CUIActions", Prop(q, "actions")) && Actions.Validate(Prop(q, "actions").props, Prop(q, "mode")).Pass?
            && (!Truthy(Prop(q, "navigation")) || IsInstance(NavClass(tree), Prop(q, "navigation")))
            && IsInstance("CUIViews", Prop(q, "views")) && IsInstance("CUITexts", Prop(q, "texts"))
            && IsInstance("CUIIcons", Prop(q, "icons")) && IsInstance("CUIRoutes", Prop(q, "routes"))
            && !Prop(q, "onError").Undefined? && Truthy(Prop(q, "debugLog")) && Prop(q, "isProduction").Bool?
  {
    var h := Head(p, next).value;
    HeadShape(p, next);
    FieldsLeave(tree, host, h.props, h.next);
    var f := FieldsStep(tree, h.props, h.next).value;
    TweaksLeave(tree, host, f.props, f.next);
    var t := TweaksStep(tree, f.props, f.next).value;
    ActionsLeave(tree, host, t.props, t.next);
    var a := ActionsStep(tree, t.props, t.next).value;
    NavigationLeaves(tree, host, a.props, a.next);
    var n := NavigationStep(tree, a.props, a.next).value;
    CastsLeave(tree, host, n.props, n.next);
  }

  /** A successful run leaves the mode the first steps chose. */
  lemma ValidatedMode(tree: Tree, host: Host, p: Props, next: nat)
    requires Validate(tree, host, p, next).Success?
    ensures Prop(Validate(tree, host, p, next).value.props, "mode")
              == if Truthy(Prop(p, "mode")) then Prop(p, "mode") else Str("detail_list")
  {
    ValidatedHead(tree, host, p, next);
  }

  /** A successful run leaves actions that validate against the mode. */
  lemma ValidatedActions(tree: Tree, host: Host, p: Props, next: nat)
    requires Validate(tree, host, p, next).Success?
    ensures var q := Validate(tree, host, p, next).value.props;
            IsInstance("CUIActions", Prop(q, "actions")) && Actions.Validate(Prop(q, "actions").props, Prop(q, "mode")).Pass?
  {
    var h := Head(p, next).value;
    HeadShape(p, next);
    var f := FieldsStep(tree, h.props, h.next).value;
    var t := TweaksStep(tree, f.props, f.next).value;
    ActionsLeave(tree, host, t.props, t.next);
  }

  /** As written, the JavaScript step throws for every navigation that passes its object check. */
  lemma NavigationAsWrittenThrows(p: Props, next: nat)
    requires Truthy(Prop(p, "navigation")) && TypeName(Prop(p, "navigation")) == "object"
    ensures NavigationStepAsWritten(JavaScript, p, next) == Failure(TypeError("CUINavigation is not a constructor"))
  {
    assert RunCheck(p, Prefix, Suffix, TypeIs("navigation", ["object"])).Pass?;
  }

  /**
   * Every navigation the corrected step accepts in the JavaScript tree is
   * rejected by the step as written.
   */
  lemma NavigationAsWrittenRejects(p: Props, next: nat)
    requires Truthy(Prop(p, "navigation")) && NavigationStep(JavaScript, p, next).Success?
    ensures IsInstance("CBQNavigation", Prop(NavigationStep(JavaScript, p, next).value.props, "navigation"))
    ensures NavigationStepAsWritten(JavaScript, p, next) == Failure(TypeError("CUINavigation is not a constructor"))
  {
    NavigationAsWrittenThrows(p, next);
  }

  /**
   * The getters on validated options: in single-record mode `getSingle` is a
   * function; in the other modes `hasList` holds. A mode left unset is never
   * single-record.
   */
  lemma ModeGetters(tree: Tree, host: Host, p: Props, next: nat)
    requires Validate(tree, host, p, next).Success?
    ensures var q := Validate(tree, host, p, next).value.props;
            && (SingleRecord(q) ==> Get(Prop(q, "actions"), "getSingle").Func?)
            && (!SingleRecord(q) ==> ListAvailable(q))
            && (!Truthy(Prop(p, "mode")) ==> !SingleRecord(q))
  {
    ValidatedMode(tree, host, p, next);
    ValidatedActions(tree, host, p, next);
    GettersOf(p, Validate(tree, host, p, next).value.props);
  }

  /** The getters of options `q` whose mode was defaulted from `p` and whose actions validate. */
  lemma GettersOf(p: Props, q: Props)
    requires Prop(q, "mode") == if Truthy(Prop(p, "mode")) then Prop(p, "mode") else Str("detail_list")
    requires IsInstance("CUIActions", Prop(q, "actions")) && Actions.Validate(Prop(q, "actions").props, Prop(q, "mode")).Pass?
    ensures SingleRecord(q) ==> Get(Prop(q, "actions"), "getSingle").Func?
    ensures !SingleRecord(q) ==> ListAvailable(q)
    ensures !Truthy(Prop(p, "mode")) ==> !SingleRecord(q)
  {
    ActionsGetters(Prop(q, "actions"), Prop(q, "mode"));
  }

  /** Validated actions offer `getSingle` in single-record mode and `getList` in the others. */
  lemma ActionsGetters(actions: Value, mode: Value)
    requires IsInstance("CUIActions", actions) && Actions.Validate(actions.props, mode).Pass?
    ensures StrictEquals(mode, Str("single_record")) ==> Get(actions, "getSingle").Func?
    ensures !StrictEquals(mode, Str("single_record")) ==> Truthy(Get(actions, "getList"))
  {
    Actions.ValidateExactly(actions.props, mode);
    if !Actions.IsSingleRecordMode(mode) {
      Actions.ListModesCanList(actions.props, mode);
    }
  }

  /**
   * The record id getter on validated options: a key given as a string, or
   * `"id"` when none was given, reads that key of a truthy record and gives
   * `null` for a falsy one.
   */
  lemma RecordIdGetter(env: Env, tree: Tree, host: Host, p: Props, next: nat, record: Value)
    requires Validate(tree, host, p, next).Success?
    requires Prop(p, "recordId").Undefined? || Prop(p, "recordId").Str?
    ensures var key := if Prop(p, "recordId").Str? then Prop(p, "recordId").s else "id";
            var getter := Prop(Validate(tree, host, p, next).value.props, "recordId");
            Call(env, getter, [record]) == Success(if Truthy(record) then Get(record, key) else Null)
  {
    ValidatedHead(tree, host, p, next);
    HeadExactly(p, next);
  }
}
