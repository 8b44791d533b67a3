/**
 * `CUIField`: one column of the record schema. The constructor lays the
 * declared defaults under the source's keys; `_validateAndCoerce` then checks
 * the keys in a fixed order, filling in `type`, `title` and `label` on the way.
 */
module Fields {
  import opened Js
  import opened Wrappers
  import opened Errors
  import opened Tools
  import Deslugify

  /** The declared keys of a field, each an own property of every instance. */
  const Keys: seq<string> := [
    "type", "name", "title", "label", "helpText", "listView", "editView", "detailView",
    "allowList", "allowDetail", "allowEdit", "allowEditNew", "allowEditExisting",
    "defaultValue", "nullOption", "values", "validate", "validateCreate", "validateEdit"
  ]

  const AllowFlags: seq<string> := ["allowList", "allowDetail", "allowEdit", "allowEditNew", "allowEditExisting"]

  /** `CUI_FIELD_TYPES`, in declaration order. */
  const FieldTypes: seq<string> := ["string", "secret", "text", "select", "boolean"]

  /** The declared defaults: every flag shows the field, everything else is `undefined`. */
  function Defaults(): (d: Props)
    ensures d.Keys == set k | k in Keys
    ensures forall k :: k in AllowFlags ==> d[k] == Bool(true)
    ensures forall k :: k in d && k !in AllowFlags ==> d[k] == Undefined
  {
    map k | k in Keys :: if k in AllowFlags then Bool(true) else Undefined
  }

  /** The properties `new CUIField(source)` lays down in each tree. */
  function Construct(tree: Tree, source: Value): (p: Props)
    ensures tree.TypeScript? ==> p.Keys == Defaults().Keys
    ensures tree.JavaScript? ==> p.Keys == Defaults().Keys + OwnProps(source).Keys
  {
    if tree.TypeScript? then SafeAssigned(Defaults(), [source]) else ObjectAssign(Defaults(), source)
  }

  const Prefix := "Field key \""
  const Suffix := "\""

  /**
   * `deslugify` as each tree means it. The typed tree's words are one space
   * apart, as its doc comment promises, not the two its code leaves
   * (see `Deslugify.DeslugifyDoublesSpace`).
   */
  function DeslugifyIn(tree: Tree, s: string): string {
    if tree.TypeScript? then Deslugify.DeslugifySpaced(s) else DeslugifyPlain(s)
  }

  // ---------------------------------------------------------------------------
  // The checks of `_validateAndCoerce`, as a function of the properties

  function DefaultType(p: Props): (r: Props)
    ensures r.Keys <= p.Keys + {"type"}
    ensures forall k :: k != "type" ==> Prop(r, k) == Prop(p, k)
    ensures Truthy(Prop(p, "type")) ==> r == p
  {
    if !Truthy(Prop(p, "type")) then p["type" := Str("string")] else p
  }

  /** The checks on `type`, `values` and `name`, before any title is derived. */
  function TypeAndNameChecks(p: Props): (cs: seq<Check>)
    ensures MemberOf("type", FieldTypes) in cs && Provided("name") in cs && TypeIs("name", ["string"]) in cs
    ensures StrictEquals(Prop(p, "type"), Str("select")) ==> TypeIs("values", ["array", "function"]) in cs
    ensures forall c :: c in cs ==> c.key == "type" || c.key == "values" || c.key == "name"
  {
    [MemberOf("type", FieldTypes)]
    + (if StrictEquals(Prop(p, "type"), Str("select")) then [TypeIs("values", ["array", "function"])] else [])
    + [Provided("name"), TypeIs("name", ["string"])]
  }

  /** The checks after the label: the help text, the view hooks and the flags. */
  const RestChecks: seq<Check> := [
    TypeIs("label", ["string"]), TypeIs("helpText", ["string"]),
    TypeIs("listView", ["function"]), TypeIs("editView", ["function"]),
    TypeIs("allowList", ["boolean"]), TypeIs("allowDetail", ["boolean"]), TypeIs("allowEdit", ["boolean"]),
    TypeIs("allowEditNew", ["boolean"]), TypeIs("allowEditExisting", ["boolean"])
  ]

  /** The title derived from the name when none is given; capitalising an empty name throws. */
  function DerivedTitle(tree: Tree, name: string): (r: Result<string, Error>)
    ensures r.Failure? ==> r.error.TypeError?
    ensures r.Success? ==> r.value != []
  {
    Capitalize(DeslugifyIn(tree, name))
  }

  function DefaultTitle(tree: Tree, p: Props): (r: Result<Props, Error>)
    requires Prop(p, "name").Str?
    ensures r.Failure? ==> r.error.TypeError? && Prop(p, "title").Undefined?
    ensures r.Success? ==> r.value.Keys <= p.Keys + {"title"}
    ensures r.Success? ==> forall k :: k != "title" ==> Prop(r.value, k) == Prop(p, k)
    ensures r.Success? && !Prop(p, "title").Undefined? ==> r.value == p
    ensures r.Success? && Prop(p, "title").Undefined? ==>
              DerivedTitle(tree, Prop(p, "name").s).Success? && r.value == p["title" := Str(DerivedTitle(tree, Prop(p, "name").s).value)]
  {
    if Prop(p, "title").Undefined? then
      var t :- DerivedTitle(tree, Prop(p, "name").s);
      Success(p["title" := Str(t)])
    else Success(p)
  }

  function DefaultLabel(p: Props): (r: Props)
    ensures r.Keys <= p.Keys + {"label"}
    ensures forall k :: k != "label" ==> Prop(r, k) == Prop(p, k)
    ensures !Prop(p, "label").Undefined? ==> r == p
  {
    if Prop(p, "label").Undefined? then p["label" := Prop(p, "title")] else p
  }

  /**
   * `_validateAndCoerce` on the properties `p`: whether it throws, and the
   * properties it leaves behind (a throw keeps the defaults filled in so far).
   */
  function Validate(tree: Tree, p: Props): (r: (Outcome<Error>, Props))
    ensures r.0.Fail? ==> r.0.error.TypeError?
  {
    var p1 := DefaultType(p);
    var o1 := RunChecks(p1, Prefix, Suffix, TypeAndNameChecks(p1));
    if o1.Fail? then (o1, p1)
    else
      NamedAfterChecks(p1);
      var t := DefaultTitle(tree, p1);
      if t.Failure? then (Fail(t.error), p1)
      else
        var p2 := t.value;
        var o2 := RunCheck(p2, Prefix, Suffix, TypeIs("title", ["string"]));
        if o2.Fail? then (o2, p2)
        else
          var p3 := DefaultLabel(p2);
          (RunChecks(p3, Prefix, Suffix, RestChecks), p3)
  }

  /** Passing the first checks leaves a string name. */
  lemma NamedAfterChecks(p: Props)
    requires RunChecks(p, Prefix, Suffix, TypeAndNameChecks(p)).Pass?
    ensures Prop(p, "name").Str?
  {
    RunChecksPass(p, Prefix, Suffix, TypeAndNameChecks(p));
    assert RunCheck(p, Prefix, Suffix, Provided("name")).Pass?;
    assert RunCheck(p, Prefix, Suffix, TypeIs("name", ["string"])).Pass?;
  }

  // ---------------------------------------------------------------------------
  // The class

  class Field {
    var props: Props

    /** `new CUIField(source)` in the TypeScript tree: `safeAssign` copies only declared, defined keys. */
    constructor FromSafeAssign(source: Value)
      ensures props == SafeAssigned(Defaults(), [source])
    {
      var copied := SafeAssign(Defaults(), [source]);
      props := copied;
    }

    /** `new CUIField(source)` in the JavaScript tree: `Object.assign` copies every own key of the source. */
    constructor FromObjectAssign(source: Value)
      ensures props == ObjectAssign(Defaults(), source)
    {
      props := ObjectAssign(Defaults(), source);
    }

    /** The instance as a value other objects hold. */
    function AsValue(id: nat): Value
      reads this
    {
      Inst("CUIField", id, props)
    }

    /** `_validateAndCoerce()`: the checks in source order, each throw ending the run. */
    method ValidateAndCoerce(tree: Tree) returns (o: Outcome<Error>)
      modifies this
      ensures (o, props) == Validate(tree, old(props))
    {
      ValidateSteps(tree, props);
      if !Truthy(Prop(props, "type")) {
        props := props["type" := Str("string")];
      }
      o := RunChecks(props, Prefix, Suffix, TypeAndNameChecks(props));
      if o.Fail? {
        return;
      }
      if Prop(props, "title").Undefined? {
        var title := DerivedTitle(tree, Prop(props, "name").s);
        if title.Failure? {
          o := Fail(title.error);
          return;
        }
        props := props["title" := Str(title.value)];
      }
      o := RunCheck(props, Prefix, Suffix, TypeIs("title", ["string"]));
      if o.Fail? {
        return;
      }
      if Prop(props, "label").Undefined? {
        props := props["label" := Prop(props, "title")];
      }
      o := RunChecks(props, Prefix, Suffix, RestChecks);
    }
  }


  // ---------------------------------------------------------------------------
  // What validation promises

  /** The properties a validation run that got past the first checks leaves, step by step. */
  lemma ValidateSteps(tree: Tree, p: Props)
    ensures var p1 := DefaultType(p);
            var q := Validate(tree, p);
            if RunChecks(p1, Prefix, Suffix, TypeAndNameChecks(p1)).Fail? then q == (RunChecks(p1, Prefix, Suffix, TypeAndNameChecks(p1)), p1)
            else
              Prop(p1, "name").Str? &&
              var t := DefaultTitle(tree, p1);
              if t.Failure? then q == (Fail(t.error), p1)
              else if RunCheck(t.value, Prefix, Suffix, TypeIs("title", ["string"])).Fail? then
                q == (RunCheck(t.value, Prefix, Suffix, TypeIs("title", ["string"])), t.value)
              else q == (RunChecks(DefaultLabel(t.value), Prefix, Suffix, RestChecks), DefaultLabel(t.value))
  {
    var p1 := DefaultType(p);
    if RunChecks(p1, Prefix, Suffix, TypeAndNameChecks(p1)).Pass? {
      NamedAfterChecks(p1);
    }
  }

  /** What passing the first checks says about `type`, `values` and `name`. */
  lemma FirstChecksShape(p: Props)
    requires RunChecks(p, Prefix, Suffix, TypeAndNameChecks(p)).Pass?
    ensures ToStr(Prop(p, "type")) in FieldTypes || ToStr(Prop(p, "type")) in PrototypeKeys
    ensures Prop(p, "name").Str?
    ensures StrictEquals(Prop(p, "type"), Str("select")) ==> Prop(p, "values").Undefined? || Prop(p, "values").Arr? || Prop(p, "values").Func?
  {
    RunChecksPass(p, Prefix, Suffix, TypeAndNameChecks(p));
    assert RunCheck(p, Prefix, Suffix, MemberOf("type", FieldTypes)).Pass?;
    NamedAfterChecks(p);
    if StrictEquals(Prop(p, "type"), Str("select")) {
      assert RunCheck(p, Prefix, Suffix, TypeIs("values", ["array", "function"])).Pass?;
    }
  }

  /** What passing the last checks says about the label and the flags. */
  lemma RestChecksShape(p: Props)
    requires RunChecks(p, Prefix, Suffix, RestChecks).Pass?
    ensures Prop(p, "label").Undefined? || Prop(p, "label").Str?
    ensures forall k :: k in AllowFlags ==> Prop(p, k).Undefined? || Prop(p, k).Bool?
  {
    RunChecksPass(p, Prefix, Suffix, RestChecks);
    assert RunCheck(p, Prefix, Suffix, TypeIs("label", ["string"])).Pass?;
    forall k | k in AllowFlags
      ensures Prop(p, k).Undefined? || Prop(p, k).Bool?
    {
      assert TypeIs(k, ["boolean"]) in RestChecks;
      assert RunCheck(p, Prefix, Suffix, TypeIs(k, ["boolean"])).Pass?;
    }
  }

  /**
   * A field that passes has a known type (or a name `in` finds on the
   * prototype), a string name, title and label, `values` usable for a select,
   * and flags that are booleans.
   */
  lemma ValidatedShape(tree: Tree, p: Props)
    requires Validate(tree, p).0.Pass?
    ensures var q := Validate(tree, p).1;
            && Truthy(Prop(q, "type"))
            && (ToStr(Prop(q, "type")) in FieldTypes || ToStr(Prop(q, "type")) in PrototypeKeys)
            && Prop(q, "name").Str? && Prop(q, "title").Str? && Prop(q, "label").Str?
            && (StrictEquals(Prop(q, "type"), Str("select")) ==> Prop(q, "values").Undefined? || Prop(q, "values").Arr? || Prop(q, "values").Func?)
            && forall k :: k in AllowFlags ==> Prop(q, k).Undefined? || Prop(q, k).Bool?
  {
    var p1 := DefaultType(p);
    NamedAfterChecks(p1);
    var p2 := DefaultTitle(tree, p1).value;
    Stages(p1, p2, DefaultLabel(p2));
    Shaped(p1, DefaultLabel(p2));
  }

  /** What the title and label defaults keep and add between the first and the last checks. */
  lemma Stages(p1: Props, p2: Props, q: Props)
    requires forall k :: k != "title" ==> Prop(p2, k) == Prop(p1, k)
    requires forall k :: k != "label" ==> Prop(q, k) == Prop(p2, k)
    requires RunCheck(p2, Prefix, Suffix, TypeIs("title", ["string"])).Pass? && !Prop(p2, "title").Undefined?
    requires !Prop(q, "label").Undefined? || Prop(q, "label") == Prop(p2, "title")
    ensures Prop(q, "type") == Prop(p1, "type") && Prop(q, "name") == Prop(p1, "name") && Prop(q, "values") == Prop(p1, "values")
    ensures Prop(q, "title").Str? && !Prop(q, "label").Undefined?
  {
    assert Prop(p2, "title").Str?;
    assert Prop(q, "title") == Prop(p2, "title");
  }

  /** The shape a passing run leaves, from the first checks on `p1` and the last ones on `q`. */
  lemma Shaped(p1: Props, q: Props)
    requires RunChecks(p1, Prefix, Suffix, TypeAndNameChecks(p1)).Pass? && Truthy(Prop(p1, "type"))
    requires Prop(q, "type") == Prop(p1, "type") && Prop(q, "name") == Prop(p1, "name") && Prop(q, "values") == Prop(p1, "values")
    requires Prop(q, "title").Str? && !Prop(q, "label").Undefined?
    requires RunChecks(q, Prefix, Suffix, RestChecks).Pass?
    ensures && Truthy(Prop(q, "type"))
            && (ToStr(Prop(q, "type")) in FieldTypes || ToStr(Prop(q, "type")) in PrototypeKeys)
            && Prop(q, "name").Str? && Prop(q, "title").Str? && Prop(q, "label").Str?
            && (StrictEquals(Prop(q, "type"), Str("select")) ==> Prop(q, "values").Undefined? || Prop(q, "values").Arr? || Prop(q, "values").Func?)
            && forall k :: k in AllowFlags ==> Prop(q, k).Undefined? || Prop(q, k).Bool?
  {
    FirstChecksShape(p1);
    RestChecksShape(q);
  }

  /**
   * A missing title becomes the capitalised, deslugified name, and a missing
   * label becomes the title; given ones are kept.
   */
  lemma TitleAndLabelDefaults(tree: Tree, p: Props)
    requires Validate(tree, p).0.Pass?
    ensures Prop(p, "name").Str?
    ensures Prop(p, "title").Undefined? ==>
              DerivedTitle(tree, Prop(p, "name").s).Success?
              && Prop(Validate(tree, p).1, "title") == Str(DerivedTitle(tree, Prop(p, "name").s).value)
    ensures !Prop(p, "title").Undefined? ==> Prop(Validate(tree, p).1, "title") == Prop(p, "title")
    ensures Prop(p, "label").Undefined? ==> Prop(Validate(tree, p).1, "label") == Prop(Validate(tree, p).1, "title")
    ensures !Prop(p, "label").Undefined? ==> Prop(Validate(tree, p).1, "label") == Prop(p, "label")
  {
    ValidateSteps(tree, p);
    var p1 := DefaultType(p);
    var p2 := DefaultTitle(tree, p1).value;
    assert Prop(p1, "name") == Prop(p, "name") && Prop(p1, "title") == Prop(p, "title") && Prop(p1, "label") == Prop(p, "label");
    assert Prop(p2, "label") == Prop(p, "label");
  }

  /** Validation writes no key but `type`, `title` and `label`, and each only when it was unset. */
  lemma ValidateFrame(tree: Tree, p: Props)
    ensures var q := Validate(tree, p).1;
            && q.Keys <= p.Keys + {"type", "title", "label"}
            && (forall k :: k != "type" && k != "title" && k != "label" ==> Prop(q, k) == Prop(p, k))
            && (Truthy(Prop(p, "type")) ==> Prop(q, "type") == Prop(p, "type"))
            && (!Prop(p, "title").Undefined? ==> Prop(q, "title") == Prop(p, "title"))
            && (!Prop(p, "label").Undefined? ==> Prop(q, "label") == Prop(p, "label"))
  {
    ValidateSteps(tree, p);
    var p1 := DefaultType(p);
    if RunChecks(p1, Prefix, Suffix, TypeAndNameChecks(p1)).Pass? {
      var t := DefaultTitle(tree, p1);
      if t.Success? {
        assert Prop(t.value, "label") == Prop(p, "label");
        assert Prop(t.value, "type") == Prop(p1, "type");
      }
    }
  }

  /** Validating a validated field passes again and changes nothing. */
  lemma ValidateIdempotent(tree: Tree, p: Props)
    requires Validate(tree, p).0.Pass?
    ensures Validate(tree, Validate(tree, p).1) == (Pass, Validate(tree, p).1)
  {
    ValidateSteps(tree, p);
    ValidatedShape(tree, p);
    var p1 := DefaultType(p);
    var p2 := DefaultTitle(tree, p1).value;
    var q := DefaultLabel(p2);
    assert RunChecks(q, Prefix, Suffix, RestChecks).Pass?;
    SecondRun(tree, p1, q);
  }

  /** The second run over `q`, which agrees with `p1` on the keys the first checks read. */
  lemma SecondRun(tree: Tree, p1: Props, q: Props)
    requires RunChecks(p1, Prefix, Suffix, TypeAndNameChecks(p1)).Pass?
    requires Prop(q, "type") == Prop(p1, "type") && Prop(q, "name") == Prop(p1, "name") && Prop(q, "values") == Prop(p1, "values")
    requires Truthy(Prop(q, "type")) && Prop(q, "title").Str? && Prop(q, "label").Str?
    requires RunChecks(q, Prefix, Suffix, RestChecks).Pass?
    ensures Validate(tree, q) == (Pass, q)
  {
    ValidateSteps(tree, q);
    assert DefaultType(q) == q;
    FirstChecksAgain(p1, q);
    TypeIsKind(q, Prefix, Suffix, "title", "string");
    assert DefaultTitle(tree, q) == Success(q);
    assert DefaultLabel(q) == q;
  }

  /** The first checks read only `type`, `values` and `name`. */
  lemma FirstChecksAgain(p1: Props, q: Props)
    requires RunChecks(p1, Prefix, Suffix, TypeAndNameChecks(p1)).Pass?
    requires Prop(q, "type") == Prop(p1, "type") && Prop(q, "name") == Prop(p1, "name") && Prop(q, "values") == Prop(p1, "values")
    ensures RunChecks(q, Prefix, Suffix, TypeAndNameChecks(q)).Pass?
  {
    assert TypeAndNameChecks(q) == TypeAndNameChecks(p1);
    RunChecksFrame(q, p1, Prefix, Suffix, TypeAndNameChecks(q));
  }

  /** A field without a name is always rejected. */
  lemma NamelessFieldRejected(tree: Tree, p: Props)
    requires Prop(p, "name").Undefined?
    ensures Validate(tree, p).0.Fail?
  {
    ValidateSteps(tree, p);
  }

  lemma DeslugifyEmpty(tree: Tree)
    ensures DeslugifyIn(tree, "") == ""
  {
    assert Deslugify.ReplaceWords("", 0, true) == "";
  }

  /**
   * An empty name with no title throws: it deslugifies to the empty string,
   * whose first character `capitalize` cannot read.
   */
  lemma EmptyNameNeedsTitle(tree: Tree, p: Props)
    requires Prop(p, "name") == Str("") && Prop(p, "title").Undefined?
    ensures Validate(tree, p).0.Fail?
  {
    ValidateSteps(tree, p);
    DeslugifyEmpty(tree);
  }
}
