/**
 * The route handlers: each takes the request's context and yields a response
 * (a view's output or a redirect) or an error. The create and edit actions
 * first coerce and validate the submitted record against the field schema.
 *
 * User callbacks (actions, validators, views, texts, a select field's values
 * function) are called through `Call`, which leaves them to the environment;
 * they receive the context as its handle. The payload object passed to
 * `create`/`update` is a new object whose identity is a parameter.
 */
module Handlers {
  import opened Js
  import opened Wrappers
  import opened Errors
  import opened Tools
  import opened Http
  import opened Context
  import opened Responses
  import Validation
  import Options
  import Routes

  // ---------------------------------------------------------------------------
  // Reading a field

  function FieldName(field: Value): string {
    ToStr(Get(field, "name"))
  }

  function FieldTitle(field: Value): string {
    ToStr(Get(field, "title"))
  }

  /** `field.type === t` */
  predicate IsType(field: Value, t: string) {
    StrictEquals(Get(field, "type"), Str(t))
  }

  /** The field is not edited in this mode: `allowEdit`, then `allowEditNew` (create) or `allowEditExisting` (edit). */
  predicate Skipped(field: Value, isCreate: bool) {
    || !Truthy(Get(field, "allowEdit"))
    || (isCreate && !Truthy(Get(field, "allowEditNew")))
    || (!isCreate && !Truthy(Get(field, "allowEditExisting")))
  }

  // ---------------------------------------------------------------------------
  // Select fields

  /** The `some` callback: the option is the value, or has it as its `value`. */
  predicate Matches(option: Value, v: Value) {
    StrictEquals(option, v) || (Truthy(option) && StrictEquals(Get(option, "value"), v))
  }

  /** A select field with a truthy `nullOption` turns a falsy submission into `null`. */
  function Nulled(field: Value, value: Value): (v: Value)
    ensures Truthy(Get(field, "nullOption")) && !Truthy(value) ==> v == Null
    ensures !(Truthy(Get(field, "nullOption")) && !Truthy(value)) ==> v == value
  {
    if Truthy(Get(field, "nullOption")) && !Truthy(value) then Null else value
  }

  /**
   * `values.some(...)`, then the throw: the value must match an option. A
   * non-array has no `some` and the call throws a TypeError instead.
   */
  function Member(field: Value, receiver: string, values: Value, v: Value): (r: Result<Value, Error>)
    ensures !values.Arr? ==> r.Failure? && r.error.TypeError?
    ensures values.Arr? ==> (r.Success? <==> exists o :: o in values.items && Matches(o, v))
    ensures r.Success? ==> r.value == v
    ensures values.Arr? && r.Failure? ==>
              r.error == NewCUIError("Invalid " + FieldName(field) + " value: \"" + ToStr(v) + "\".", None)
  {
    if !values.Arr? then Failure(TypeError(receiver + ".some is not a function"))
    else if exists o :: o in values.items && Matches(o, v) then Success(v)
    else Failure(NewCUIError("Invalid " + FieldName(field) + " value: \"" + ToStr(v) + "\".", None))
  }

  /**
   * A select field's submission in the TypeScript tree: `null` through the null
   * option, or, when `values` is set, a member of `getOrCall(field.values, ctx)`.
   */
  function SelectValue(env: Env, ctx: Context, field: Value, value: Value): (r: Result<Value, Error>)
    ensures r.Success? ==> r.value == Nulled(field, value)
    ensures Nulled(field, value).Null? || !Truthy(Get(field, "values")) ==> r == Success(Nulled(field, value))
    ensures !Nulled(field, value).Null? && Truthy(Get(field, "values")) ==>
              match GetOrCall(env, Get(field, "values"), [ctx.Handle()])
              case Failure(e) => r == Failure(e)
              case Success(values) => r == Member(field, "values", values, Nulled(field, value))
  {
    var v := Nulled(field, value);
    if v.Null? || !Truthy(Get(field, "values")) then Success(v)
    else
      var values :- GetOrCall(env, Get(field, "values"), [ctx.Handle()]);
      Member(field, "values", values, v)
  }

  /** The same in the JavaScript tree, as written: `field.values` is used as the list itself. */
  function SelectValueAsWritten(field: Value, value: Value): (r: Result<Value, Error>)
    ensures r.Success? ==> r.value == Nulled(field, value)
  {
    var v := Nulled(field, value);
    if v.Null? || !Truthy(Get(field, "values")) then Success(v)
    else Member(field, "field.values", Get(field, "values"), v)
  }

  /** Where `values` is a list (or unset), the two trees agree. */
  lemma SelectAgreesOnLists(env: Env, ctx: Context, field: Value, value: Value)
    requires !Truthy(Get(field, "values")) || Get(field, "values").Arr?
    ensures SelectValue(env, ctx, field, value).Success? == SelectValueAsWritten(field, value).Success?
    ensures SelectValue(env, ctx, field, value).Success? ==> SelectValue(env, ctx, field, value) == SelectValueAsWritten(field, value)
  {
  }

  /**
   * A `values` function, which the JavaScript field validation accepts, makes
   * every non-null submission throw a TypeError as written; the TypeScript tree
   * calls it and accepts a value its list contains.
   */
  lemma ValuesFunctionBreaksSelect(env: Env, ctx: Context, field: Value, value: Value, list: seq<Value>, listId: nat)
    requires Get(field, "values").Func? && !Nulled(field, value).Null?
    requires Call(env, Get(field, "values"), [ctx.Handle()]) == Success(Arr(listId, list))
    requires Nulled(field, value) in list
    ensures SelectValueAsWritten(field, value).Failure? && SelectValueAsWritten(field, value).error.TypeError?
    ensures SelectValue(env, ctx, field, value) == Success(Nulled(field, value))
  {
    var v := Nulled(field, value);
    assert Matches(v, v);
  }

  // ---------------------------------------------------------------------------
  // Validators

  /** A validator function's result: a non-empty string is one message, an array one per element, anything else none. */
  function Normalised(errors: Value): (ms: seq<Value>)
    ensures Truthy(errors) && errors.Str? ==> ms == [errors]
    ensures errors.Arr? ==> ms == errors.items
    ensures !errors.Arr? && !(Truthy(errors) && errors.Str?) ==> ms == []
  {
    if Truthy(errors) && TypeOf(errors) == "string" then [errors]
    else if errors.Arr? then errors.items
    else []
  }

  /**
   * The messages of one validator slot: none when the slot is falsy; a function
   * is called with the context, the value and the body; any other setting goes
   * to validate.js `single`, whose result counts only when it is an array.
   */
  function SlotMessages(env: Env, ctx: Context, field: Value, slot: string, value: Value): (r: Result<seq<Value>, Error>)
    ensures !Truthy(Get(field, slot)) ==> r == Success([])
    ensures Truthy(Get(field, slot)) && TypeOf(Get(field, slot)) == "function" ==>
              match Call(env, Get(field, slot), [ctx.Handle(), value, ctx.body])
              case Failure(e) => r == Failure(e)
              case Success(errors) => r == Success(Normalised(errors))
    ensures Truthy(Get(field, slot)) && TypeOf(Get(field, slot)) != "function" ==>
              r == Success(if env.single(value, Get(field, slot)).Arr? then env.single(value, Get(field, slot)).items else [])
  {
    var validate := Get(field, slot);
    if !Truthy(validate) then Success([])
    else if TypeOf(validate) == "function" then
      var errors :- Call(env, validate, [ctx.Handle(), value, ctx.body]);
      Success(Normalised(errors))
    else
      var errors := env.single(value, validate);
      Success(if errors.Arr? then errors.items else [])
  }

  /** One fault per message, each about this field and value. */
  function FaultsFor(field: Value, messages: seq<Value>, value: Value): (fs: seq<Fault>)
    ensures |fs| == |messages|
    ensures forall i :: 0 <= i < |fs| ==> fs[i] == Fault(messages[i], FieldName(field), FieldTitle(field), value)
  {
    seq(|messages|, i requires 0 <= i < |messages| => Fault(messages[i], FieldName(field), FieldTitle(field), value))
  }

  /** `doValidate(field, prop, value)`: run one slot, then push one fault per message. */
  method DoValidate(env: Env, ctx: Context, field: Value, slot: string, value: Value, faults: seq<Fault>)
    returns (r: Result<seq<Fault>, Error>)
    ensures match SlotMessages(env, ctx, field, slot, value)
            case Failure(e) => r == Failure(e)
            case Success(ms) => r == Success(faults + FaultsFor(field, ms, value))
  {
    var messages :- SlotMessages(env, ctx, field, slot, value);
    var pushed := faults;
    var i := 0;
    while i < |messages|
      invariant 0 <= i <= |messages|
      invariant pushed == faults + FaultsFor(field, messages[..i], value)
    {
      pushed := pushed + [Fault(messages[i], FieldName(field), FieldTitle(field), value)];
      i := i + 1;
      assert FaultsFor(field, messages[..i], value) == FaultsFor(field, messages[..i - 1], value) + [Fault(messages[i - 1], FieldName(field), FieldTitle(field), value)];
    }
    assert messages[..i] == messages;
    r := Success(pushed);
  }

  // ---------------------------------------------------------------------------
  // coerceAndValidateEditPayload

  /** What one field contributes: nothing, or its coerced value and its faults. */
  datatype Coerced = Skip | Keep(value: Value, faults: seq<Fault>)

  /** The slot run after `validate`: `validateCreate` or `validateEdit`. */
  function ModeSlot(isCreate: bool): string {
    if isCreate then "validateCreate" else "validateEdit"
  }

  /** The value a field contributes: read from the body (which must exist), checked if a select, made boolean if a checkbox. */
  function FieldValue(env: Env, ctx: Context, field: Value): (r: Result<Value, Error>)
    ensures ctx.body.Undefined? || ctx.body.Null? ==> r.Failure? && r.error.TypeError?
    ensures r.Success? && IsType(field, "boolean") ==> r.value == Bool(Truthy(Get(ctx.body, FieldName(field))))
    ensures r.Success? && IsType(field, "select") ==> r.value == Nulled(field, Get(ctx.body, FieldName(field)))
    ensures !IsType(field, "select") && !ctx.body.Undefined? && !ctx.body.Null? ==>
              r == Success(if IsType(field, "boolean") then Bool(Truthy(Get(ctx.body, FieldName(field)))) else Get(ctx.body, FieldName(field)))
  {
    var raw :- Index(ctx.body, FieldName(field));
    var selected :- if IsType(field, "select") then SelectValue(env, ctx, field, raw) else Success(raw);
    Success(if IsType(field, "boolean") then Bool(Truthy(selected)) else selected)
  }

  /** The faults of a field's value: those of `validate`, then those of the mode's slot. */
  function FieldFaults(env: Env, ctx: Context, isCreate: bool, field: Value, value: Value): (r: Result<seq<Fault>, Error>)
    ensures r.Success? <==>
              SlotMessages(env, ctx, field, "validate", value).Success? && SlotMessages(env, ctx, field, ModeSlot(isCreate), value).Success?
    ensures r.Success? ==>
              r.value == FaultsFor(field, SlotMessages(env, ctx, field, "validate", value).value, value)
                         + FaultsFor(field, SlotMessages(env, ctx, field, ModeSlot(isCreate), value).value, value)
  {
    var first :- SlotMessages(env, ctx, field, "validate", value);
    var second :- SlotMessages(env, ctx, field, ModeSlot(isCreate), value);
    Success(FaultsFor(field, first, value) + FaultsFor(field, second, value))
  }

  /** One field, as the loop body treats it. */
  function CoerceField(env: Env, ctx: Context, isCreate: bool, field: Value): (r: Result<Coerced, Error>)
    ensures Skipped(field, isCreate) <==> r == Success(Skip)
    ensures !Skipped(field, isCreate) && FieldValue(env, ctx, field).Failure? ==> r == Failure(FieldValue(env, ctx, field).error)
    ensures !Skipped(field, isCreate) && FieldValue(env, ctx, field).Success? ==>
              var value := FieldValue(env, ctx, field).value;
              && (FieldFaults(env, ctx, isCreate, field, value).Failure? ==> r == Failure(FieldFaults(env, ctx, isCreate, field, value).error))
              && (FieldFaults(env, ctx, isCreate, field, value).Success? ==> r == Success(Keep(value, FieldFaults(env, ctx, isCreate, field, value).value)))
  {
    if Skipped(field, isCreate) then Success(Skip)
    else
      var value :- FieldValue(env, ctx, field);
      var faults :- FieldFaults(env, ctx, isCreate, field, value);
      Success(Keep(value, faults))
  }

  /** The payload and the faults so far. */
  datatype Acc = Acc(payload: Payload, faults: seq<Fault>)

  function Apply(acc: Acc, field: Value, c: Coerced): Acc {
    match c
    case Skip => acc
    case Keep(value, faults) => Acc(acc.payload[FieldName(field) := value], acc.faults + faults)
  }

  /** What the loop body does with one field. */
  type Step = Value -> Result<Coerced, Error>

  function FieldStep(env: Env, ctx: Context, isCreate: bool): Step {
    field => CoerceField(env, ctx, isCreate, field)
  }

  /** The loop body skips exactly the fields that are not edited in this mode. */
  lemma FieldStepSkips(env: Env, ctx: Context, isCreate: bool)
    ensures forall f :: FieldStep(env, ctx, isCreate)(f) == Success(Skip) <==> Skipped(f, isCreate)
  {
  }

  /** The loop over the first `n` fields; the first throw ends it. */
  function CoerceFields(step: Step, fields: seq<Value>, n: nat): Result<Acc, Error>
    requires n <= |fields|
  {
    if n == 0 then Success(Acc(map[], []))
    else
      var acc :- CoerceFields(step, fields, n - 1);
      var c :- step(fields[n - 1]);
      Success(Apply(acc, fields[n - 1], c))
  }

  const NotIterable := "ctx.fields is not iterable"

  /**
   * `coerceAndValidateEditPayload(ctx, isCreate)`: the payload when no field
   * found a fault, otherwise a validation error carrying every fault and the
   * payload of every field processed.
   */
  function CoerceAndValidate(env: Env, ctx: Context, isCreate: bool): (r: Result<Payload, Error>)
    ensures !ctx.Fields().Arr? ==> r == Failure(TypeError(NotIterable))
    ensures ctx.Fields().Arr? ==>
              var fold := CoerceFields(FieldStep(env, ctx, isCreate), ctx.Fields().items, |ctx.Fields().items|);
              && (fold.Failure? ==> r == Failure(fold.error))
              && (fold.Success? && fold.value.faults == [] ==> r == Success(fold.value.payload))
              && (fold.Success? && fold.value.faults != [] ==>
                    var fs := fold.value.faults;
                    && r.Failure?
                    && (r.error.ValidationError? <==> !(|fs| == 1 && fs[0].fieldTitle == []))
                    && (r.error.ValidationError? ==>
                          && r.error.faults == fs && r.error.payload == fold.value.payload
                          && r.error.Code() == Some(400))
                    && (!r.error.ValidationError? ==> r.error.TypeError?))
  {
    if !ctx.Fields().Arr? then Failure(TypeError(NotIterable))
    else
      var fields := ctx.Fields().items;
      var acc :- CoerceFields(FieldStep(env, ctx, isCreate), fields, |fields|);
      if |acc.faults| > 0 then
        var e :- Validation.NewValidationError(Validation.List(acc.faults), acc.payload);
        Failure(e)
      else Success(acc.payload)
  }

  /** One field of the loop, as statements; it agrees with `CoerceField`. */
  method CoerceOne(env: Env, ctx: Context, isCreate: bool, field: Value, acc: Acc) returns (r: Result<Acc, Error>)
    ensures match CoerceField(env, ctx, isCreate, field)
            case Failure(e) => r == Failure(e)
            case Success(c) => r == Success(Apply(acc, field, c))
  {
    if Skipped(field, isCreate) {
      return Success(acc);
    }
    var value :- FieldValue(env, ctx, field);
    var faults :- ValidateBoth(env, ctx, isCreate, field, value, acc.faults);
    r := Success(Acc(acc.payload[FieldName(field) := value], faults));
  }

  /** The two `doValidate` calls of one field: `validate`, then the mode's slot. */
  method ValidateBoth(env: Env, ctx: Context, isCreate: bool, field: Value, value: Value, faults: seq<Fault>)
    returns (r: Result<seq<Fault>, Error>)
    ensures match FieldFaults(env, ctx, isCreate, field, value)
            case Failure(e) => r == Failure(e)
            case Success(fs) => r == Success(faults + fs)
  {
    var first :- DoValidate(env, ctx, field, "validate", value, faults);
    r := DoValidate(env, ctx, field, ModeSlot(isCreate), value, first);
    if r.Success? {
      var a := FaultsFor(field, SlotMessages(env, ctx, field, "validate", value).value, value);
      var b := FaultsFor(field, SlotMessages(env, ctx, field, ModeSlot(isCreate), value).value, value);
      assert r.value == (faults + a) + b == faults + (a + b);
    }
  }

  /** One more field after a prefix of the loop that did not throw. */
  lemma CoerceFieldsNext(step: Step, fields: seq<Value>, i: nat, acc: Acc)
    requires i < |fields| && CoerceFields(step, fields, i) == Success(acc)
    ensures CoerceFields(step, fields, i + 1) ==
              match step(fields[i])
              case Failure(e) => Failure(e)
              case Success(c) => Success(Apply(acc, fields[i], c))
  {
  }

  /** Once a field throws, the loop stays failed with that error. */
  lemma {:induction false} CoerceFieldsStaysFailed(step: Step, fields: seq<Value>, k: nat, n: nat)
    requires k <= n <= |fields|
    requires CoerceFields(step, fields, k).Failure?
    ensures CoerceFields(step, fields, n) == CoerceFields(step, fields, k)
    decreases n - k
  {
    if k < n {
      CoerceFieldsStaysFailed(step, fields, k + 1, n);
    }
  }

  /** The loop over the fields in schema order. */
  method CoerceAndValidateEditPayload(env: Env, ctx: Context, isCreate: bool) returns (r: Result<Payload, Error>)
    ensures r == CoerceAndValidate(env, ctx, isCreate)
  {
    if !ctx.Fields().Arr? {
      return Failure(TypeError(NotIterable));
    }
    var step := CoerceLoop(env, ctx, isCreate, ctx.Fields().items);
    var acc :- step;
    if |acc.faults| > 0 {
      var e :- Validation.NewValidationError(Validation.List(acc.faults), acc.payload);
      return Failure(e);
    }
    r := Success(acc.payload);
  }

  /** The `for` loop itself: each field in turn, until one throws. */
  method CoerceLoop(env: Env, ctx: Context, isCreate: bool, fields: seq<Value>) returns (step: Result<Acc, Error>)
    ensures step == CoerceFields(FieldStep(env, ctx, isCreate), fields, |fields|)
  {
    var acc := Acc(map[], []);
    var i := 0;
    while i < |fields|
      invariant 0 <= i <= |fields|
      invariant CoerceFields(FieldStep(env, ctx, isCreate), fields, i) == Success(acc)
    {
      CoerceFieldsNext(FieldStep(env, ctx, isCreate), fields, i, acc);
      step := CoerceOne(env, ctx, isCreate, fields[i], acc);
      if step.Failure? {
        CoerceFieldsStaysFailed(FieldStep(env, ctx, isCreate), fields, i + 1, |fields|);
        return;
      }
      acc := step.value;
      i := i + 1;
    }
    step := Success(acc);
  }

  // ---------------------------------------------------------------------------
  // Properties of the coercion

  /** The names of the fields among the first `n` that are edited in this mode. */
  function EditedNames(fields: seq<Value>, n: nat, isCreate: bool): set<string>
    requires n <= |fields|
  {
    set i | 0 <= i < n && !Skipped(fields[i], isCreate) :: FieldName(fields[i])
  }

  /**
   * The payload has a key for exactly the fields edited in this mode: skipped
   * fields never enter it. `FieldStepSkips` gives the requirement on `step`
   * for the loop body.
   */
  lemma {:induction false} PayloadKeys(step: Step, isCreate: bool, fields: seq<Value>, n: nat)
    requires n <= |fields|
    requires forall f :: step(f) == Success(Skip) <==> Skipped(f, isCreate)
    requires CoerceFields(step, fields, n).Success?
    ensures CoerceFields(step, fields, n).value.payload.Keys == EditedNames(fields, n, isCreate)
  {
    if n > 0 {
      PayloadKeys(step, isCreate, fields, n - 1);
      var f := fields[n - 1];
      if Skipped(f, isCreate) {
        assert EditedNames(fields, n, isCreate) == EditedNames(fields, n - 1, isCreate);
      } else {
        assert EditedNames(fields, n, isCreate) == EditedNames(fields, n - 1, isCreate) + {FieldName(f)};
      }
    }
  }

  /** Later fields only append faults: the faults of the first `m` fields are a prefix of those of the first `n`. */
  lemma {:induction false} FaultsInFieldOrder(step: Step, fields: seq<Value>, m: nat, n: nat)
    requires m <= n <= |fields|
    requires CoerceFields(step, fields, n).Success?
    ensures CoerceFields(step, fields, m).Success?
    ensures CoerceFields(step, fields, m).value.faults <= CoerceFields(step, fields, n).value.faults
    decreases n - m
  {
    if m < n {
      FaultsInFieldOrder(step, fields, m, n - 1);
    }
  }

  /** A field edited in this mode whose name no later field shares holds its own coerced value in the payload. */
  lemma {:induction false} PayloadValue(step: Step, isCreate: bool, fields: seq<Value>, n: nat, i: nat)
    requires i < n <= |fields|
    requires forall f :: step(f) == Success(Skip) <==> Skipped(f, isCreate)
    requires CoerceFields(step, fields, n).Success?
    requires !Skipped(fields[i], isCreate)
    requires forall j :: i < j < n ==> FieldName(fields[j]) != FieldName(fields[i])
    ensures CoerceFields(step, fields, i + 1).Success?
    ensures FieldName(fields[i]) in CoerceFields(step, fields, n).value.payload
    ensures step(fields[i]).Success?
    ensures CoerceFields(step, fields, n).value.payload[FieldName(fields[i])] == step(fields[i]).value.value
    decreases n
  {
    if n > i + 1 {
      PayloadValue(step, isCreate, fields, n - 1, i);
    }
  }

  // ---------------------------------------------------------------------------
  // resultToFlash

  /**
   * `resultToFlash(ctx, makeMessage, result)`: no flash for a falsy result or
   * `true`; a string is the message; anything else is formatted by `makeMessage`.
   */
  function ResultToFlash(env: Env, ctx: Context, makeMessage: Value, result: Value): (r: Result<Option<Flash>, Error>)
    ensures !Truthy(result) || result == Bool(true) ==> r == Success(None)
    ensures Truthy(result) && result.Str? ==> r == Success(Some(Message(result)))
    ensures Truthy(result) && !result.Str? && result != Bool(true) ==>
              match Call(env, makeMessage, [ctx.Handle(), result])
              case Failure(e) => r == Failure(e)
              case Success(m) => r == Success(Some(Message(m)))
  {
    if !Truthy(result) || StrictEquals(result, Bool(true)) then Success(None)
    else
      var message :- if TypeOf(result) == "string" then Success(result) else Call(env, makeMessage, [ctx.Handle(), result]);
      Success(Some(Message(message)))
  }

  // ---------------------------------------------------------------------------
  // The handlers

  /** Single-record mode: the options' mode in the TypeScript tree, a `singleRecordMode` tweak in the JavaScript one. */
  predicate SingleRecordMode(tree: Tree, ctx: Context) {
    if tree.TypeScript? then Options.SingleRecord(ctx.options) else Truthy(Get(ctx.Tweaks(), "singleRecordMode"))
  }

  /** `ctx.url(route)` for a route value. */
  function UrlOf(env: Env, ctx: Context, route: Value): string {
    Url(env, ctx, route, Undefined)
  }

  /** `ctx.routes[name]` */
  function Route(ctx: Context, name: string): Value {
    Get(ctx.Routes(), name)
  }

  /** `indexPage`: the single record or the list, which must be truthy, rendered by the matching view. */
  function IndexPage(env: Env, tree: Tree, ctx: Context): (r: Result<Response, Error>)
    ensures var data := if SingleRecordMode(tree, ctx) then Call(env, Get(ctx.Actions(), "getSingle"), [ctx.Handle(), Null])
                        else Call(env, Get(ctx.Actions(), "getList"), [ctx.Handle()]);
            && (data.Failure? ==> r == Failure(data.error))
            && (data.Success? && !Truthy(data.value) ==> r == Failure(NewCUIError("Invalid data", None)))
            && (data.Success? && Truthy(data.value) ==>
                  var view := Get(ctx.Views(), if SingleRecordMode(tree, ctx) then "detailPage" else "listPage");
                  match Call(env, view, [ctx.Handle(), data.value])
                  case Failure(e) => r == Failure(e)
                  case Success(html) => r == Success(Other(html)))
  {
    var single := SingleRecordMode(tree, ctx);
    var data :- if single then Call(env, Get(ctx.Actions(), "getSingle"), [ctx.Handle(), Null])
                else Call(env, Get(ctx.Actions(), "getList"), [ctx.Handle()]);
    if !Truthy(data) then Failure(NewCUIError("Invalid data", None))
    else
      var html :- Call(env, Get(ctx.Views(), if single then "detailPage" else "listPage"), [ctx.Handle(), data]);
      Success(Other(html))
  }

  /** `createPage`: the edit view with no record. */
  function CreatePage(env: Env, ctx: Context): (r: Result<Response, Error>)
    ensures match Call(env, Get(ctx.Views(), "editPage"), [ctx.Handle(), Null])
            case Failure(e) => r == Failure(e)
            case Success(html) => r == Success(Other(html))
  {
    var html :- Call(env, Get(ctx.Views(), "editPage"), [ctx.Handle(), Null]);
    Success(Other(html))
  }

  /**
   * `editPage` and `detailPage`: the record the id names, rendered by `view`;
   * a falsy record is a 404 with the not-found text as its message.
   */
  function ShowRecord(env: Env, ctx: Context, view: string): (r: Result<Response, Error>)
    ensures var data := Call(env, Get(ctx.Actions(), "getSingle"), [ctx.Handle(), ctx.idParam]);
            && (data.Failure? ==> r == Failure(data.error))
            && (data.Success? && !Truthy(data.value) ==>
                  match Call(env, Get(ctx.Texts(), "errorNotFound"), [ctx.Handle(), ctx.idParam])
                  case Failure(e) => r == Failure(e)
                  case Success(message) => r == Failure(NewCUIError(ToStr(message), Some(404))))
            && (data.Success? && Truthy(data.value) ==>
                  match Call(env, Get(ctx.Views(), view), [ctx.Handle(), data.value])
                  case Failure(e) => r == Failure(e)
                  case Success(html) => r == Success(Other(html)))
  {
    var data :- Call(env, Get(ctx.Actions(), "getSingle"), [ctx.Handle(), ctx.idParam]);
    if !Truthy(data) then
      var message :- Call(env, Get(ctx.Texts(), "errorNotFound"), [ctx.Handle(), ctx.idParam]);
      Failure(NewCUIError(ToStr(message), Some(404)))
    else
      var html :- Call(env, Get(ctx.Views(), view), [ctx.Handle(), data]);
      Success(Other(html))
  }

  function EditPage(env: Env, ctx: Context): Result<Response, Error> {
    ShowRecord(env, ctx, "editPage")
  }

  function DetailPage(env: Env, ctx: Context): Result<Response, Error> {
    ShowRecord(env, ctx, "detailPage")
  }

  /** The first step of `createAction`: coerce, validate, then `actions.create(ctx, payload)`. */
  function CreateAttempt(env: Env, ctx: Context, payloadId: nat): Result<Value, Error> {
    var payload :- CoerceAndValidate(env, ctx, true);
    Call(env, Get(ctx.Actions(), "create"), [ctx.Handle(), Obj(payloadId, payload)])
  }

  /**
   * `createAction`: unsupported creation throws at once; success redirects to
   * the index with the created-record flash; a validation error redirects back
   * to the create page carrying it; any other error is rethrown.
   */
  function CreateAction(env: Env, ctx: Context, payloadId: nat): (r: Result<Response, Error>)
    ensures AssertActionSupported(ctx.Actions(), "create").Fail? ==> r == Failure(ActionNotSupported("create"))
    ensures AssertActionSupported(ctx.Actions(), "create").Pass? ==>
              match CreateAttempt(env, ctx, payloadId)
              case Success(result) =>
                (match ResultToFlash(env, ctx, Get(ctx.Texts(), "flashMessageRecordCreated"), result)
                 case Failure(e) => r == Failure(e)
                 case Success(flash) => r == Success(Redirect(UrlOf(env, ctx, Route(ctx, "indexPage")), flash)))
              case Failure(e) =>
                if e.ValidationError? then r == Success(Redirect(UrlOf(env, ctx, Route(ctx, "createPage")), Some(Invalid(e))))
                else r == Failure(e)
  {
    if AssertActionSupported(ctx.Actions(), "create").Fail? then Failure(ActionNotSupported("create"))
    else match CreateAttempt(env, ctx, payloadId)
      case Success(result) =>
        var flash :- ResultToFlash(env, ctx, Get(ctx.Texts(), "flashMessageRecordCreated"), result);
        Success(Redirect(UrlOf(env, ctx, Route(ctx, "indexPage")), flash))
      case Failure(e) =>
        if e.ValidationError? then Success(Redirect(UrlOf(env, ctx, Route(ctx, "createPage")), Some(Invalid(e))))
        else Failure(e)
  }

  /** The first step of `editAction`: coerce, validate, then `update`, with the id except in single-record mode. */
  function EditAttempt(env: Env, tree: Tree, ctx: Context, payloadId: nat): Result<Value, Error> {
    var payload :- CoerceAndValidate(env, ctx, false);
    if SingleRecordMode(tree, ctx) then Call(env, Get(ctx.Actions(), "update"), [ctx.Handle(), Obj(payloadId, payload)])
    else Call(env, Get(ctx.Actions(), "update"), [ctx.Handle(), ctx.idParam, Obj(payloadId, payload)])
  }

  /** After an update: the record's detail page when the edit came from it, otherwise the index. */
  function UpdatedTarget(env: Env, ctx: Context): (r: Result<Value, Error>)
    ensures ctx.routeName != "detailEditAction" ==> r == Success(Route(ctx, "indexPage"))
    ensures ctx.routeName == "detailEditAction" ==> r == Call(env, Route(ctx, "detailPage"), [ctx.idParam])
  {
    if ctx.routeName == "detailEditAction" then Call(env, Route(ctx, "detailPage"), [ctx.idParam])
    else Success(Route(ctx, "indexPage"))
  }

  /** After a validation error: back to the form the edit came from. */
  function InvalidTarget(env: Env, tree: Tree, ctx: Context): (r: Result<Value, Error>)
    ensures SingleRecordMode(tree, ctx) ==> r == Success(Route(ctx, "singleRecordModeEditPage"))
    ensures !SingleRecordMode(tree, ctx) && ctx.routeName == "detailEditAction" ==>
              r == Call(env, Route(ctx, "detailEditPage"), [ctx.idParam])
    ensures !SingleRecordMode(tree, ctx) && ctx.routeName != "detailEditAction" ==>
              r == Call(env, Route(ctx, "editPage"), [ctx.idParam])
  {
    if SingleRecordMode(tree, ctx) then Success(Route(ctx, "singleRecordModeEditPage"))
    else if ctx.routeName == "detailEditAction" then Call(env, Route(ctx, "detailEditPage"), [ctx.idParam])
    else Call(env, Route(ctx, "editPage"), [ctx.idParam])
  }

  /**
   * `editAction`: unsupported update throws at once; success redirects to the
   * updated target with the updated-record flash; a validation error redirects
   * to the form carrying it; any other error is rethrown.
   */
  function EditAction(env: Env, tree: Tree, ctx: Context, payloadId: nat): (r: Result<Response, Error>)
    ensures AssertActionSupported(ctx.Actions(), "update").Fail? ==> r == Failure(ActionNotSupported("update"))
    ensures AssertActionSupported(ctx.Actions(), "update").Pass? ==>
              match EditAttempt(env, tree, ctx, payloadId)
              case Success(result) =>
                && (UpdatedTarget(env, ctx).Failure? ==> r == Failure(UpdatedTarget(env, ctx).error))
                && (UpdatedTarget(env, ctx).Success? ==>
                      match ResultToFlash(env, ctx, Get(ctx.Texts(), "flashMessageRecordUpdated"), result)
                      case Failure(e) => r == Failure(e)
                      case Success(flash) => r == Success(Redirect(UrlOf(env, ctx, UpdatedTarget(env, ctx).value), flash)))
              case Failure(e) =>
                && (!e.ValidationError? ==> r == Failure(e))
                && (e.ValidationError? && InvalidTarget(env, tree, ctx).Failure? ==> r == Failure(InvalidTarget(env, tree, ctx).error))
                && (e.ValidationError? && InvalidTarget(env, tree, ctx).Success? ==>
                      r == Success(Redirect(UrlOf(env, ctx, InvalidTarget(env, tree, ctx).value), Some(Invalid(e)))))
  {
    if AssertActionSupported(ctx.Actions(), "update").Fail? then Failure(ActionNotSupported("update"))
    else match EditAttempt(env, tree, ctx, payloadId)
      case Success(result) =>
        var target :- UpdatedTarget(env, ctx);
        var flash :- ResultToFlash(env, ctx, Get(ctx.Texts(), "flashMessageRecordUpdated"), result);
        Success(Redirect(UrlOf(env, ctx, target), flash))
      case Failure(e) =>
        if e.ValidationError? then
          var target :- InvalidTarget(env, tree, ctx);
          Success(Redirect(UrlOf(env, ctx, target), Some(Invalid(e))))
        else Failure(e)
  }

  /** `deleteAction`: unsupported deletion throws at once; otherwise delete, then redirect to the index with the deleted-record flash. */
  function DeleteAction(env: Env, ctx: Context): (r: Result<Response, Error>)
    ensures AssertActionSupported(ctx.Actions(), "delete").Fail? ==> r == Failure(ActionNotSupported("delete"))
    ensures AssertActionSupported(ctx.Actions(), "delete").Pass? ==>
              match Call(env, Get(ctx.Actions(), "delete"), [ctx.Handle(), ctx.idParam])
              case Failure(e) => r == Failure(e)
              case Success(result) =>
                (match ResultToFlash(env, ctx, Get(ctx.Texts(), "flashMessageRecordDeleted"), result)
                 case Failure(e) => r == Failure(e)
                 case Success(flash) => r == Success(Redirect(UrlOf(env, ctx, Route(ctx, "indexPage")), flash)))
  {
    if AssertActionSupported(ctx.Actions(), "delete").Fail? then Failure(ActionNotSupported("delete"))
    else
      var result :- Call(env, Get(ctx.Actions(), "delete"), [ctx.Handle(), ctx.idParam]);
      var flash :- ResultToFlash(env, ctx, Get(ctx.Texts(), "flashMessageRecordDeleted"), result);
      Success(Redirect(UrlOf(env, ctx, Route(ctx, "indexPage")), flash))
  }

  // ---------------------------------------------------------------------------
  // Properties of the routing

  /** A validation error from creating never escapes: it becomes a redirect to the create page. */
  lemma CreateValidationRedirects(env: Env, ctx: Context, payloadId: nat)
    requires AssertActionSupported(ctx.Actions(), "create").Pass?
    requires CoerceAndValidate(env, ctx, true).Failure? && CoerceAndValidate(env, ctx, true).error.ValidationError?
    ensures CreateAction(env, ctx, payloadId) ==
              Success(Redirect(UrlOf(env, ctx, Route(ctx, "createPage")), Some(Invalid(CoerceAndValidate(env, ctx, true).error))))
  {
  }

  /**
   * With the default TypeScript routes, a successful edit from the detail page
   * returns to that record's detail page and any other edit to the index, and a
   * rejected edit goes back to the form it came from.
   */
  lemma DefaultRouteTargets(env: Env, ctx: Context, next: nat, routesId: nat)
    requires ctx.Routes() == Inst("CUIRoutes", routesId, Routes.Defaults(TypeScript, next))
    ensures UpdatedTarget(env, ctx) ==
              if ctx.routeName == "detailEditAction" then Success(Str("/detail/" + env.encodeUri(ToStr(ctx.idParam))))
              else Success(Str("/"))
    ensures !SingleRecordMode(TypeScript, ctx) ==>
              InvalidTarget(env, TypeScript, ctx) ==
                if ctx.routeName == "detailEditAction" then Success(Str("/detail/" + env.encodeUri(ToStr(ctx.idParam)) + "/edit"))
                else Success(Str("/edit/" + env.encodeUri(ToStr(ctx.idParam))))
    ensures SingleRecordMode(TypeScript, ctx) ==> InvalidTarget(env, TypeScript, ctx) == Success(Str("/edit"))
  {
    Routes.DefaultEditRoutes(env, TypeScript, next, ctx.idParam);
    Routes.DefaultDetailRoutes(env, TypeScript, next, ctx.idParam);
  }
}
