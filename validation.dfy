/**
 * `CUIValidationFault.fullMessage` and the `CUIValidationError` constructor:
 * the summary message, the list of faults and their grouping by field name.
 */
module Validation {
  import opened Js
  import opened Wrappers
  import opened Errors
  import Tools

  /** `fault.fullMessage`: the capitalised field title, a space, then the message. */
  function FullMessage(f: Fault): (r: Result<string, Error>)
    ensures r.Success? <==> f.fieldTitle != []
    ensures r.Success? ==> r.value == Tools.Capitalize(f.fieldTitle).value + " " + ToStr(f.message)
    ensures r.Success? ==> r.value[0] == ToUpper(f.fieldTitle[0])
  {
    var title :- Tools.Capitalize(f.fieldTitle);
    Success(title + " " + ToStr(f.message))
  }

  // ---------------------------------------------------------------------------
  // byFieldName

  /** The faults about field `name`, in their original order. */
  function FaultsNamed(faults: seq<Fault>, name: string): (r: seq<Fault>)
    ensures |r| <= |faults|
  {
    if faults == [] then []
    else (if faults[0].fieldName == name then [faults[0]] else []) + FaultsNamed(faults[1..], name)
  }

  /** `FaultsNamed` keeps exactly the faults about `name`. */
  lemma {:induction false} FaultsNamedMembers(faults: seq<Fault>, name: string)
    ensures forall f :: f in FaultsNamed(faults, name) <==> f in faults && f.fieldName == name
  {
    if faults != [] {
      FaultsNamedMembers(faults[1..], name);
      assert faults == [faults[0]] + faults[1..];
    }
  }

  /** The names of the fields the faults are about. */
  function FieldNames(faults: seq<Fault>): (r: set<string>)
    ensures forall n :: n in r <==> exists i :: 0 <= i < |faults| && faults[i].fieldName == n
  {
    set i | 0 <= i < |faults| :: faults[i].fieldName
  }

  /**
   * The `reduce` that builds `byFieldName`, as a lookup without inherited
   * properties: the first fault for a name starts its list, later ones are pushed.
   */
  function GroupFrom(lookup: map<string, seq<Fault>>, faults: seq<Fault>): map<string, seq<Fault>>
    decreases |faults|
  {
    if faults == [] then lookup
    else
      var name := faults[0].fieldName;
      var list := if name in lookup then lookup[name] else [];
      GroupFrom(lookup[name := list + [faults[0]]], faults[1..])
  }

  function ByFieldName(faults: seq<Fault>): map<string, seq<Fault>> {
    GroupFrom(map[], faults)
  }

  lemma {:induction false} GroupFromKeys(lookup: map<string, seq<Fault>>, faults: seq<Fault>)
    ensures GroupFrom(lookup, faults).Keys == lookup.Keys + FieldNames(faults)
    decreases |faults|
  {
    if faults != [] {
      var name := faults[0].fieldName;
      var list := if name in lookup then lookup[name] else [];
      GroupFromKeys(lookup[name := list + [faults[0]]], faults[1..]);
      assert FieldNames(faults) == {name} + FieldNames(faults[1..]) by {
        assert forall i :: 1 <= i < |faults| ==> faults[i].fieldName == faults[1..][i - 1].fieldName;
      }
    }
  }

  lemma {:induction false} GroupFromValue(lookup: map<string, seq<Fault>>, faults: seq<Fault>, n: string)
    requires n in GroupFrom(lookup, faults)
    ensures GroupFrom(lookup, faults)[n] == (if n in lookup then lookup[n] else []) + FaultsNamed(faults, n)
    decreases |faults|
  {
    if faults != [] {
      var name := faults[0].fieldName;
      var list := if name in lookup then lookup[name] else [];
      var next := lookup[name := list + [faults[0]]];
      var named := FaultsNamed(faults[1..], n);
      assert GroupFrom(lookup, faults) == GroupFrom(next, faults[1..]);
      GroupFromValue(next, faults[1..], n);
      if n == name {
        assert next[n] == list + [faults[0]];
        assert FaultsNamed(faults, n) == [faults[0]] + named;
        assert (list + [faults[0]]) + named == list + ([faults[0]] + named);
      } else {
        assert (n in next <==> n in lookup) && (n in lookup ==> next[n] == lookup[n]);
        assert FaultsNamed(faults, n) == named;
      }
    } else {
      assert FaultsNamed(faults, n) == [];
    }
  }

  /**
   * `byFieldName` lists exactly the fields that have faults, and under each the
   * faults about that field, in order; a field without faults has no entry.
   */
  lemma ByFieldNameGroups(faults: seq<Fault>)
    ensures ByFieldName(faults).Keys == FieldNames(faults)
    ensures forall n :: n in ByFieldName(faults) ==> ByFieldName(faults)[n] == FaultsNamed(faults, n) != []
  {
    GroupFromKeys(map[], faults);
    forall n | n in ByFieldName(faults) ensures ByFieldName(faults)[n] == FaultsNamed(faults, n) != [] {
      GroupFromValue(map[], faults, n);
      var i :| 0 <= i < |faults| && faults[i].fieldName == n;
      FaultsNamedMembers(faults, n);
      assert faults[i] in FaultsNamed(faults, n);
    }
  }

  /** Each fault occurs in its field's group as often as in the list. */
  lemma {:induction false} FaultsNamedCounts(faults: seq<Fault>, f: Fault)
    ensures multiset(FaultsNamed(faults, f.fieldName))[f] == multiset(faults)[f]
  {
    if faults != [] {
      FaultsNamedCounts(faults[1..], f);
      assert faults == [faults[0]] + faults[1..];
    }
  }

  /**
   * The grouping loses nothing: every fault sits in the group of its field as
   * many times as it occurs in `faults`, and in no other group. Flattening the
   * groups therefore gives back `faults` up to order.
   */
  lemma ByFieldNameLossless(faults: seq<Fault>, f: Fault)
    ensures f in faults ==> f.fieldName in ByFieldName(faults)
    ensures f.fieldName in ByFieldName(faults) ==> multiset(ByFieldName(faults)[f.fieldName])[f] == multiset(faults)[f]
    ensures forall n :: n in ByFieldName(faults) && n != f.fieldName ==> f !in ByFieldName(faults)[n]
  {
    ByFieldNameGroups(faults);
    FaultsNamedCounts(faults, f);
    FaultsNamedMembers(faults, f.fieldName);
    forall n | n in ByFieldName(faults) && n != f.fieldName
      ensures f !in ByFieldName(faults)[n]
    {
      FaultsNamedMembers(faults, n);
    }
  }

  /**
   * The `reduce` as written: the accumulator is a plain object, so a field named
   * after an `Object.prototype` member reads that inherited member (a function or
   * the prototype itself), which is truthy and has no `push`.
   */
  function GroupFromAsWritten(lookup: map<string, seq<Fault>>, faults: seq<Fault>): (r: Result<map<string, seq<Fault>>, Error>)
    decreases |faults|
  {
    if faults == [] then Success(lookup)
    else
      var name := faults[0].fieldName;
      if name in Tools.PrototypeKeys then Failure(TypeError("lookup[fault.field.name].push is not a function"))
      else
        var list := if name in lookup then lookup[name] else [];
        GroupFromAsWritten(lookup[name := list + [faults[0]]], faults[1..])
  }

  function ByFieldNameAsWritten(faults: seq<Fault>): Result<map<string, seq<Fault>>, Error> {
    GroupFromAsWritten(map[], faults)
  }

  lemma {:induction false} GroupFromAsWrittenAgrees(lookup: map<string, seq<Fault>>, faults: seq<Fault>)
    ensures GroupFromAsWritten(lookup, faults).Failure?
            <==> exists i :: 0 <= i < |faults| && faults[i].fieldName in Tools.PrototypeKeys
    ensures GroupFromAsWritten(lookup, faults).Success? ==> GroupFromAsWritten(lookup, faults).value == GroupFrom(lookup, faults)
    decreases |faults|
  {
    if faults != [] {
      var name := faults[0].fieldName;
      var list := if name in lookup then lookup[name] else [];
      GroupFromAsWrittenAgrees(lookup[name := list + [faults[0]]], faults[1..]);
      if exists i :: 0 <= i < |faults[1..]| && faults[1..][i].fieldName in Tools.PrototypeKeys {
        var i :| 0 <= i < |faults[1..]| && faults[1..][i].fieldName in Tools.PrototypeKeys;
        assert faults[i + 1].fieldName in Tools.PrototypeKeys;
      }
      if exists i :: 0 <= i < |faults| && faults[i].fieldName in Tools.PrototypeKeys {
        var i :| 0 <= i < |faults| && faults[i].fieldName in Tools.PrototypeKeys;
        if i > 0 {
          assert faults[1..][i - 1].fieldName in Tools.PrototypeKeys;
        }
      }
    }
  }

  /**
   * The grouping as written fails exactly when some field is named after an
   * inherited `Object.prototype` member, and otherwise agrees with `ByFieldName`.
   */
  lemma ByFieldNameAsWrittenFails(faults: seq<Fault>)
    ensures ByFieldNameAsWritten(faults).Failure? <==> exists i :: 0 <= i < |faults| && faults[i].fieldName in Tools.PrototypeKeys
    ensures ByFieldNameAsWritten(faults).Success? ==> ByFieldNameAsWritten(faults).value == ByFieldName(faults)
  {
    GroupFromAsWrittenAgrees(map[], faults);
  }

  /** A single fault on a field called "constructor" makes the constructor throw. */
  lemma ConstructorFieldBreaksGrouping(message: Value, title: string, value: Value)
    ensures ByFieldNameAsWritten([Fault(message, "constructor", title, value)]).Failure?
    ensures ByFieldName([Fault(message, "constructor", title, value)]) == map["constructor" := [Fault(message, "constructor", title, value)]]
  {
    var f := Fault(message, "constructor", title, value);
    assert [f][1..] == [];
    var m := map["constructor" := [f]];
    assert [] + [f] == [f];
    assert ByFieldName([f]) == GroupFrom(m, []) == m;
  }

  // ---------------------------------------------------------------------------
  // The constructor

  /** What the `faults` argument can be: missing, a bare message string, or a list. */
  datatype FaultsArg = Missing | Text(text: string) | List(list: seq<Fault>)

  /**
   * `new CUIValidationError(faults, payload)`: code 400. Nothing (or an empty
   * list or string) gives a generic message, a string becomes the message with no
   * faults, one fault is quoted in full, several are counted. Quoting the single
   * fault throws when its field title is empty.
   */
  function NewValidationError(faults: FaultsArg, payload: Payload): (r: Result<Error, Error>)
    ensures r.Failure? <==> faults.List? && |faults.list| == 1 && faults.list[0].fieldTitle == []
    ensures r.Failure? ==> r.error.TypeError?
    ensures r.Success? ==> r.value.ValidationError? && r.value.Code() == Some(400) && r.value.payload == payload
    ensures r.Success? ==> r.value.faults == (if faults.List? then faults.list else [])
    ensures r.Success? ==> r.value.byFieldName == ByFieldName(r.value.faults)
    ensures r.Success? ==>
              r.value.message ==
                if faults.Missing? || (faults.List? && faults.list == []) || (faults.Text? && faults.text == []) then "Validation error"
                else if faults.Text? then faults.text
                else if |faults.list| == 1 then "Validation error: " + FullMessage(faults.list[0]).value
                else IntToString(|faults.list|) + " validation errors"
  {
    match faults
    case Missing => Success(ValidationError("Validation error", [], map[], payload))
    case Text(t) =>
      Success(ValidationError(if t == [] then "Validation error" else t, [], map[], payload))
    case List(fs) =>
      if fs == [] then Success(ValidationError("Validation error", [], map[], payload))
      else if |fs| == 1 then
        var full :- FullMessage(fs[0]);
        Success(ValidationError("Validation error: " + full, fs, ByFieldName(fs), payload))
      else Success(ValidationError(IntToString(|fs|) + " validation errors", fs, ByFieldName(fs), payload))
  }
}
