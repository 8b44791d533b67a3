/**
 * `CUIActions`: the user's CRUD callbacks. Validation only runs assertions,
 * chosen by the router mode, and changes nothing.
 */
module Actions {
  import opened Js
  import opened Wrappers
  import opened Errors
  import opened Tools

  /** The declared callbacks, all `undefined` until the source supplies them. */
  const Keys: seq<string> := ["getList", "getSingle", "create", "update", "delete"]

  function Defaults(): (d: Props)
    ensures d.Keys == set k | k in Keys
    ensures forall k :: k in d ==> d[k] == Undefined
  {
    map k | k in Keys :: Undefined
  }

  /** `new CUIActions(source)`: `safeAssign` in the TypeScript tree, `Object.assign` in the JavaScript one. */
  function Construct(tree: Tree, source: Value): (p: Props)
    ensures tree.TypeScript? ==> p.Keys == Defaults().Keys
    ensures tree.JavaScript? ==> p.Keys == Defaults().Keys + OwnProps(source).Keys
  {
    if tree.TypeScript? then SafeAssigned(Defaults(), [source]) else ObjectAssign(Defaults(), source)
  }

  const Prefix := "\""
  const Suffix := "\" action"

  predicate IsSingleRecordMode(mode: Value) {
    StrictEquals(mode, Str("single_record"))
  }

  /** The asserter calls `_validateAndCoerce(mode)` makes, in order. */
  function Checks(p: Props, mode: Value): seq<Check> {
    (if IsSingleRecordMode(mode) then [Provided("getSingle")]
     else [Provided("getList")] + (if Truthy(Prop(p, "update")) then [Provided("getSingle")] else []))
    + [TypeIs("getList", ["function"]), TypeIs("getSingle", ["function"])]
  }

  /** `_validateAndCoerce(mode)`: throws or passes, and leaves the callbacks as they are. */
  function Validate(p: Props, mode: Value): Outcome<Error> {
    RunChecks(p, Prefix, Suffix, Checks(p, mode))
  }

  /**
   * The actions pass exactly when the callbacks the mode needs are there and
   * the two readers are functions: `getSingle` for a single record, otherwise
   * `getList`, and `getSingle` as well once `update` is given.
   */
  lemma ValidateExactly(p: Props, mode: Value)
    ensures Validate(p, mode).Pass? <==>
              (if IsSingleRecordMode(mode) then !Prop(p, "getSingle").Undefined?
               else !Prop(p, "getList").Undefined? && (Truthy(Prop(p, "update")) ==> !Prop(p, "getSingle").Undefined?))
              && (Prop(p, "getList").Undefined? || Prop(p, "getList").Func?)
              && (Prop(p, "getSingle").Undefined? || Prop(p, "getSingle").Func?)
  {
    var types := [TypeIs("getList", ["function"]), TypeIs("getSingle", ["function"])];
    var first := if IsSingleRecordMode(mode) then [Provided("getSingle")]
                 else [Provided("getList")] + (if Truthy(Prop(p, "update")) then [Provided("getSingle")] else []);
    RunChecksAppend(p, Prefix, Suffix, first, types);
    assert types == [types[0]] + [types[1]];
    RunChecksAppend(p, Prefix, Suffix, [types[0]], [types[1]]);
    if !IsSingleRecordMode(mode) {
      RunChecksAppend(p, Prefix, Suffix, [Provided("getList")], if Truthy(Prop(p, "update")) then [Provided("getSingle")] else []);
    }
  }

  /** In the list modes, actions that pass can always list: `getList` is a function. */
  lemma ListModesCanList(p: Props, mode: Value)
    requires !IsSingleRecordMode(mode) && Validate(p, mode).Pass?
    ensures Prop(p, "getList").Func?
  {
    ValidateExactly(p, mode);
  }

  /** Whatever fails, the error is a `TypeError` naming the action. */
  lemma ValidateFailsWithTypeError(p: Props, mode: Value)
    requires Validate(p, mode).Fail?
    ensures Validate(p, mode).error.TypeError?
    ensures exists c :: c in Checks(p, mode) && Validate(p, mode) == RunCheck(p, Prefix, Suffix, c)
  {
    RunChecksPass(p, Prefix, Suffix, Checks(p, mode));
  }
}
