/**
 * The small helpers of the library's tools file that the request pipeline and
 * the configuration validators depend on.
 */
module Tools {
  import opened Js
  import opened Wrappers
  import opened Errors

  /** Which of the two parallel source trees a behaviour is taken from, where they differ. */
  datatype Tree = TypeScript | JavaScript

  // ---------------------------------------------------------------------------
  // capitalize / uncapitalize / deslugify (the older, character-replacing one)

  /** `capitalize(str)`: `str[0]` of an empty string is `undefined`, whose `toUpperCase` throws. */
  function Capitalize(s: string): (r: Result<string, Error>)
    ensures r.Success? <==> s != []
    ensures r.Success? ==> |r.value| == |s| && r.value[0] == ToUpper(s[0]) && r.value[1..] == s[1..]
    ensures r.Failure? ==> r.error.TypeError?
  {
    if s == [] then Failure(TypeError("Cannot read properties of undefined (reading 'toUpperCase')"))
    else Success([ToUpper(s[0])] + s[1..])
  }

  /** `uncapitalize(str)`, the mirror image of `capitalize`. */
  function Uncapitalize(s: string): (r: Result<string, Error>)
    ensures r.Success? <==> s != []
    ensures r.Success? ==> |r.value| == |s| && r.value[0] == ToLower(s[0]) && r.value[1..] == s[1..]
    ensures r.Failure? ==> r.error.TypeError?
  {
    if s == [] then Failure(TypeError("Cannot read properties of undefined (reading 'toLowerCase')"))
    else Success([ToLower(s[0])] + s[1..])
  }

  /** Capitalising twice is capitalising once. */
  lemma CapitalizeIdempotent(s: string)
    requires s != []
    ensures Capitalize(Capitalize(s).value) == Capitalize(s)
  {
    var c := Capitalize(s).value;
    assert [ToUpper(c[0])] + c[1..] == c;
  }

  /** A word that starts lower-case comes back unchanged from capitalize then uncapitalize. */
  lemma UncapitalizeUndoesCapitalize(s: string)
    requires s != [] && IsLower(s[0])
    ensures Uncapitalize(Capitalize(s).value) == Success(s)
  {
    var c := Capitalize(s).value;
    assert [ToLower(c[0])] + c[1..] == s;
  }

  predicate IsSlugSeparator(c: char) {
    c == '_' || c == '-'
  }

  /** `deslugify(str)` of the older tree: every `_` and `-` becomes a space. */
  function DeslugifyPlain(s: string): (r: string)
    ensures |r| == |s|
    ensures forall i :: 0 <= i < |s| ==> r[i] == (if IsSlugSeparator(s[i]) then ' ' else s[i])
  {
    if s == [] then [] else [if IsSlugSeparator(s[0]) then ' ' else s[0]] + DeslugifyPlain(s[1..])
  }

  /** Deslugifying leaves no separator behind, so a second pass changes nothing. */
  lemma DeslugifyPlainIdempotent(s: string)
    ensures forall i :: 0 <= i < |s| ==> !IsSlugSeparator(DeslugifyPlain(s)[i])
    ensures DeslugifyPlain(DeslugifyPlain(s)) == DeslugifyPlain(s)
  {
  }

  // ---------------------------------------------------------------------------
  // ensureLeadingChar / getOrCall

  /**
   * `ensureLeadingChar(leadingChar, str)`: non-strings are returned as they are;
   * a string gets the prefix unless its first character already equals it.
   */
  function EnsureLeadingChar(lead: string, v: Value): (r: Value)
    ensures !v.Str? ==> r == v
    ensures v.Str? ==> r.Str? && (r.s == v.s || r.s == lead + v.s)
    ensures v.Str? && |lead| == 1 ==> |r.s| >= 1 && r.s[0] == lead[0]
    ensures v.Str? && v.s != [] && [v.s[0]] == lead ==> r == v
  {
    if v.Str? && (v.s == [] || [v.s[0]] != lead) then Str(lead + v.s) else v
  }

  /** With a one-character prefix (the only kind the library passes) the function is idempotent. */
  lemma {:induction false} EnsureLeadingCharIdempotent(lead: string, v: Value)
    requires |lead| == 1
    ensures EnsureLeadingChar(lead, EnsureLeadingChar(lead, v)) == EnsureLeadingChar(lead, v)
  {
    var r := EnsureLeadingChar(lead, v);
    if v.Str? {
      assert [r.s[0]] == lead;
    }
  }

  /**
   * What lies outside the library: user callbacks (`invoke`, which may throw),
   * `encodeURI`, `querystring.encode` and validate.js `single`.
   */
  datatype Env = Env(
    invoke: (Value, seq<Value>) -> Result<Value, Error>,
    encodeUri: string -> string,
    qsEncode: Value -> string,
    single: (Value, Value) -> Value)

  function Arg(args: seq<Value>, i: nat): Value {
    if i < |args| then args[i] else Undefined
  }

  /**
   * `f(...args)`. Calling a non-function throws; user code is left to `invoke`;
   * the closures the library builds are interpreted here. The production
   * closure reads `ctx.options.isProduction` from its first argument.
   */
  function Call(env: Env, f: Value, args: seq<Value>): (r: Result<Value, Error>)
    ensures !f.Func? ==> r.Failure? && r.error.TypeError?
    ensures f.Func? && f.code.Source? ==> r == env.invoke(f, args)
    ensures f.Func? && f.code.KeyGetter? ==> r == Success(if Truthy(Arg(args, 0)) then Get(Arg(args, 0), f.code.key) else Null)
    ensures f.Func? && f.code.Constant? ==> r == Success(f.code.item)
  {
    if !f.Func? then Failure(TypeError(ToStr(f) + " is not a function"))
    else
      var a := Arg(args, 0);
      match f.code
      case Source(_) => env.invoke(f, args)
      case KeyGetter(key) => Success(if Truthy(a) then Get(a, key) else Null)
      case Constant(item) => Success(item)
      case InProduction(name) => Success(Str(MinInProd(name, Truthy(Get(Get(a, "options"), "isProduction")))))
      case RoutePath(prefix, suffix) => Success(Str(prefix + env.encodeUri(ToStr(a)) + suffix))
      case _ => Success(Undefined)
  }

  /** `v[key]` read as an expression: reading a property of `undefined` or `null` throws. */
  function Index(v: Value, key: string): (r: Result<Value, Error>)
    ensures r.Failure? <==> v.Undefined? || v.Null?
    ensures r.Failure? ==> r.error.TypeError?
    ensures r.Success? ==> r.value == Get(v, key)
  {
    if v.Undefined? || v.Null? then
      Failure(TypeError("Cannot read properties of " + ToStr(v) + " (reading '" + key + "')"))
    else Success(Get(v, key))
  }

  /** `getOrCall(val, ...args)`: a function is called with the arguments; anything else is the answer itself. */
  function GetOrCall(env: Env, val: Value, args: seq<Value>): (r: Result<Value, Error>)
    ensures TypeOf(val) != "function" ==> r == Success(val)
    ensures TypeOf(val) == "function" ==> r == Call(env, val, args)
  {
    if TypeOf(val) == "function" then Call(env, val, args) else Success(val)
  }

  // ---------------------------------------------------------------------------
  // The assert helpers. Each throws a TypeError whose message names the identifier.

  /** `assertEqual(value, expected, identifier)` */
  function AssertEqual(value: Value, expected: Value, identifier: string): (o: Outcome<Error>)
    ensures o.Pass? <==> StrictEquals(value, expected)
    ensures o.Fail? ==> o.error == TypeError("Expected " + identifier + " to be \"" + ToStr(expected)
                                             + "\", instead got \"" + ToStr(value) + "\"")
  {
    if StrictEquals(value, expected) then Pass
    else Fail(TypeError("Expected " + identifier + " to be \"" + ToStr(expected) + "\", instead got \"" + ToStr(value) + "\""))
  }

  /** `assertProvided(value, identifier)`: only `undefined` fails; `null` is provided. */
  function AssertProvided(value: Value, identifier: string): (o: Outcome<Error>)
    ensures o.Pass? <==> !value.Undefined?
    ensures o.Fail? ==> o.error == TypeError(identifier + " must be provided")
  {
    if value.Undefined? then Fail(TypeError(identifier + " must be provided")) else Pass
  }

  /** The type name `assertType` compares: arrays are `"array"`, everything else its `typeof`. */
  function TypeName(v: Value): (t: string)
    ensures v.Arr? <==> t == "array"
  {
    if v.Arr? then "array" else TypeOf(v)
  }

  /** `assertType(value, identifier, ...types)`: `undefined` always passes. */
  function AssertType(value: Value, identifier: string, types: seq<string>): (o: Outcome<Error>)
    ensures o.Pass? <==> value.Undefined? || TypeName(value) in types
    ensures o.Fail? ==> o.error == TypeError(identifier + " must be " + Join(types, " or ")
                                             + ". Instead, we were given \"" + TypeName(value) + "\"")
  {
    if value.Undefined? || TypeName(value) in types then Pass
    else Fail(TypeError(identifier + " must be " + Join(types, " or ") + ". Instead, we were given \"" + TypeName(value) + "\""))
  }

  /** The property names every plain object inherits from `Object.prototype`. */
  const PrototypeKeys: set<string> := {
    "constructor", "toString", "toLocaleString", "valueOf", "hasOwnProperty",
    "isPrototypeOf", "propertyIsEnumerable", "__proto__", "__defineGetter__",
    "__defineSetter__", "__lookupGetter__", "__lookupSetter__"
  }

  function Quote(k: string): string {
    "\"" + k + "\""
  }

  function QuoteAll(keys: seq<string>): (q: seq<string>)
    ensures |q| == |keys|
    ensures forall i :: 0 <= i < |keys| ==> q[i] == Quote(keys[i])
  {
    if keys == [] then [] else [Quote(keys[0])] + QuoteAll(keys[1..])
  }

  /** The list of allowed keys in the message of `assertMember`. */
  function MemberList(keys: seq<string>): string {
    var q := QuoteAll(keys);
    if |q| == 0 then "undefined"
    else if |q| == 1 then q[0]
    else "one of " + Join(q[..|q| - 1], ", ") + " or " + q[|q| - 1]
  }

  /**
   * `assertMember(value, hash, identifier)`. The hash is given by its own keys in
   * insertion order. The check is the `in` operator, so a key inherited from
   * `Object.prototype` passes as well.
   */
  function AssertMember(value: Value, keys: seq<string>, identifier: string): (o: Outcome<Error>)
    ensures o.Pass? <==> ToStr(value) in keys || ToStr(value) in PrototypeKeys
    ensures o.Fail? ==> o.error == TypeError(identifier + " must be " + MemberList(keys)
                                             + ". Instead, we were given \"" + ToStr(value) + "\"")
  {
    if ToStr(value) in keys || ToStr(value) in PrototypeKeys then Pass
    else Fail(TypeError(identifier + " must be " + MemberList(keys) + ". Instead, we were given \"" + ToStr(value) + "\""))
  }

  /** An inherited name such as "toString" is accepted as a member of any hash. */
  lemma MemberAcceptsInheritedKeys(keys: seq<string>, identifier: string)
    requires "toString" !in keys
    ensures AssertMember(Str("toString"), keys, identifier) == Pass
    ensures AssertMember(Str("stringy"), keys, identifier).Fail? <==> "stringy" !in keys
  {
  }

  /** The identifier `makeObjectAsserters` builds for a key. */
  function KeyId(prefix: string, key: string, suffix: string): string {
    prefix + key + suffix
  }

  /** One call on the asserters `makeObjectAsserters(object, prefix, suffix)` returns. */
  datatype Check =
    | Provided(key: string)
    | TypeIs(key: string, types: seq<string>)
    | MemberOf(key: string, keys: seq<string>)

  /** The asserter call `c` on the object, its identifier being `prefix + key + suffix`. */
  function RunCheck(target: Props, prefix: string, suffix: string, c: Check): (o: Outcome<Error>)
    ensures o.Fail? ==> o.error.TypeError?
    ensures c.Provided? ==> (o.Pass? <==> !Prop(target, c.key).Undefined?)
    ensures c.TypeIs? ==> (o.Pass? <==> Prop(target, c.key).Undefined? || TypeName(Prop(target, c.key)) in c.types)
    ensures c.MemberOf? ==> (o.Pass? <==> ToStr(Prop(target, c.key)) in c.keys || ToStr(Prop(target, c.key)) in PrototypeKeys)
  {
    var id := KeyId(prefix, c.key, suffix);
    match c
    case Provided(k) => AssertProvided(Prop(target, k), id)
    case TypeIs(k, ts) => AssertType(Prop(target, k), id, ts)
    case MemberOf(k, keys) => AssertMember(Prop(target, k), keys, id)
  }

  /** What a one-kind type assertion accepts: `undefined`, or a value of that kind. */
  lemma TypeIsKind(target: Props, prefix: string, suffix: string, key: string, ty: string)
    ensures var pass, v := RunCheck(target, prefix, suffix, TypeIs(key, [ty])).Pass?, Prop(target, key);
            && (ty == "string" ==> (pass <==> v.Undefined? || v.Str?))
            && (ty == "boolean" ==> (pass <==> v.Undefined? || v.Bool?))
            && (ty == "number" ==> (pass <==> v.Undefined? || v.Num?))
            && (ty == "array" ==> (pass <==> v.Undefined? || v.Arr?))
            && (ty == "function" ==> (pass <==> v.Undefined? || v.Func?))
  {
  }

  /** Asserter calls made one after the other: the first that throws is the one seen. */
  function RunChecks(target: Props, prefix: string, suffix: string, cs: seq<Check>): (o: Outcome<Error>)
    ensures o.Fail? ==> o.error.TypeError?
  {
    if cs == [] then Pass
    else
      var first := RunCheck(target, prefix, suffix, cs[0]);
      if first.Fail? then first else RunChecks(target, prefix, suffix, cs[1..])
  }

  /** A run of checks is its first check, then, if that passed, the rest. */
  lemma RunChecksCons(target: Props, prefix: string, suffix: string, c: Check, cs: seq<Check>)
    ensures RunChecks(target, prefix, suffix, [c] + cs) ==
              if RunCheck(target, prefix, suffix, c).Fail? then RunCheck(target, prefix, suffix, c) else RunChecks(target, prefix, suffix, cs)
  {
    assert ([c] + cs)[0] == c && ([c] + cs)[1..] == cs;
  }

  /** A run of checks passes when its first check and then the rest pass. */
  lemma RunChecksPassCons(target: Props, prefix: string, suffix: string, c: Check, cs: seq<Check>)
    ensures RunChecks(target, prefix, suffix, [c] + cs).Pass? <==>
              RunCheck(target, prefix, suffix, c).Pass? && RunChecks(target, prefix, suffix, cs).Pass?
  {
    RunChecksCons(target, prefix, suffix, c, cs);
  }

  /** A presence check followed by a type check of the same key, then the rest. */
  lemma RunChecksProvidedTyped(target: Props, prefix: string, suffix: string, key: string, ty: string, rest: seq<Check>)
    ensures RunChecks(target, prefix, suffix, [Provided(key), TypeIs(key, [ty])] + rest).Pass? <==>
              && !Prop(target, key).Undefined?
              && RunCheck(target, prefix, suffix, TypeIs(key, [ty])).Pass?
              && RunChecks(target, prefix, suffix, rest).Pass?
  {
    RunChecksPassCons(target, prefix, suffix, TypeIs(key, [ty]), rest);
    RunChecksPassCons(target, prefix, suffix, Provided(key), [TypeIs(key, [ty])] + rest);
    assert [Provided(key), TypeIs(key, [ty])] + rest == [Provided(key)] + ([TypeIs(key, [ty])] + rest);
    ProvidedKind(target, prefix, suffix, key);
  }

  /** What a membership assertion accepts: a key of the list, or one every object inherits. */
  lemma MemberOfKind(target: Props, prefix: string, suffix: string, key: string, keys: seq<string>)
    ensures RunCheck(target, prefix, suffix, MemberOf(key, keys)).Pass? <==>
              ToStr(Prop(target, key)) in keys || ToStr(Prop(target, key)) in PrototypeKeys
  {
  }

  /** What a presence assertion accepts: anything but `undefined`. */
  lemma ProvidedKind(target: Props, prefix: string, suffix: string, key: string)
    ensures RunCheck(target, prefix, suffix, Provided(key)).Pass? <==> !Prop(target, key).Undefined?
  {
  }

  /** The run passes exactly when every check passes, and a failure is one of the checks' own. */
  lemma {:induction false} RunChecksPass(target: Props, prefix: string, suffix: string, cs: seq<Check>)
    ensures RunChecks(target, prefix, suffix, cs).Pass? <==> forall c :: c in cs ==> RunCheck(target, prefix, suffix, c).Pass?
    ensures RunChecks(target, prefix, suffix, cs).Fail? ==>
              exists i :: 0 <= i < |cs| && RunChecks(target, prefix, suffix, cs) == RunCheck(target, prefix, suffix, cs[i])
  {
    if cs != [] {
      RunChecksPass(target, prefix, suffix, cs[1..]);
      assert forall c :: c in cs ==> c == cs[0] || c in cs[1..];
      var rest := RunChecks(target, prefix, suffix, cs[1..]);
      if RunCheck(target, prefix, suffix, cs[0]).Pass? && rest.Fail? {
        var i :| 0 <= i < |cs[1..]| && rest == RunCheck(target, prefix, suffix, cs[1..][i]);
        assert cs[1..][i] == cs[i + 1];
      }
    }
  }

  /** Running two lists of checks in a row is running the first, then, if it passed, the second. */
  lemma {:induction false} RunChecksAppend(target: Props, prefix: string, suffix: string, a: seq<Check>, b: seq<Check>)
    ensures RunChecks(target, prefix, suffix, a + b) ==
              if RunChecks(target, prefix, suffix, a).Fail? then RunChecks(target, prefix, suffix, a) else RunChecks(target, prefix, suffix, b)
  {
    if a != [] {
      assert (a + b)[1..] == a[1..] + b;
      RunChecksAppend(target, prefix, suffix, a[1..], b);
    } else {
      assert a + b == b;
    }
  }

  /** The checks read only the keys they name. */
  lemma {:induction false} RunChecksFrame(p: Props, q: Props, prefix: string, suffix: string, cs: seq<Check>)
    requires forall c :: c in cs ==> Prop(p, c.key) == Prop(q, c.key)
    ensures RunChecks(p, prefix, suffix, cs) == RunChecks(q, prefix, suffix, cs)
  {
    if cs != [] {
      assert RunCheck(p, prefix, suffix, cs[0]) == RunCheck(q, prefix, suffix, cs[0]);
      RunChecksFrame(p, q, prefix, suffix, cs[1..]);
    }
  }

  // ---------------------------------------------------------------------------
  // minInProd (also written out as minimizeInProduction)

  /** `name.lastIndexOf(c)`, `-1` when absent. */
  function LastIndexOf(s: string, c: char): (i: int)
    ensures -1 <= i < |s|
    ensures i >= 0 ==> s[i] == c
    ensures i < 0 <==> c !in s
    ensures forall j :: i < j < |s| ==> s[j] != c
  {
    if s == [] then -1
    else if s[|s| - 1] == c then |s| - 1
    else LastIndexOf(s[..|s| - 1], c)
  }

  /** `s.substring(0, end)`: a negative end counts as 0. */
  function SubstringTo(s: string, end: int): string
    requires end < |s|
  {
    if end <= 0 then [] else s[..end]
  }

  /** `s.slice(start)`: a negative start counts from the end. */
  function SliceFrom(s: string, start: int): string
    requires start < |s|
  {
    if start >= 0 then s[start..]
    else if |s| + start <= 0 then s
    else s[|s| + start..]
  }

  /**
   * `minInProd(name)` as written: in production, the name up to its last dot,
   * then ".min", then the rest from the dot on. With no dot the index is -1,
   * so the head is empty and the tail is the last character.
   */
  function MinInProdAsWritten(name: string, isProduction: bool): string {
    var dot := LastIndexOf(name, '.');
    if isProduction then SubstringTo(name, dot) + ".min" + SliceFrom(name, dot) else name
  }

  /** A dotless name is mangled: "abc" becomes ".minc" in production. */
  lemma MinInProdAsWrittenMangles()
    ensures MinInProdAsWritten("abc", true) == ".minc"
  {
    assert LastIndexOf("abc", '.') == -1 by {
      assert LastIndexOf("a", '.') == -1;
      assert "abc"[..2] == "ab" && "ab"[..1] == "a";
    }
  }

  /** The evidently intended `minInProd`: ".min" goes before the extension, or at the end when there is none. */
  function MinInProd(name: string, isProduction: bool): (r: string)
    ensures !isProduction ==> r == name
    ensures isProduction ==> exists k :: 0 <= k <= |name| && r == name[..k] + ".min" + name[k..]
  {
    var dot := LastIndexOf(name, '.');
    if !isProduction then name
    else if dot < 0 then
      assert name == name[..|name|] + name[|name|..];
      name + ".min"
    else name[..dot] + ".min" + name[dot..]
  }

  /** The fix only changes dotless names: for any name with a dot both agree. */
  lemma {:induction false} MinInProdAgreesWithDot(name: string, isProduction: bool)
    requires '.' in name
    ensures MinInProd(name, isProduction) == MinInProdAsWritten(name, isProduction)
    ensures isProduction ==> |MinInProd(name, isProduction)| == |name| + 4
  {
    var j :| 0 <= j < |name| && name[j] == '.';
    assert LastIndexOf(name, '.') >= j;
  }

  /** The corrected version keeps every character of the name, whether or not it has a dot. */
  lemma MinInProdDotless(name: string)
    requires '.' !in name
    ensures MinInProd(name, true) == name + ".min"
  {

  }

  // ---------------------------------------------------------------------------
  // safeAssign / Object.assign / enumize

  /** Whether `source` has its own `key` holding something other than `undefined`. */
  predicate Defines(source: Value, key: string) {
    key in OwnProps(source) && !OwnProps(source)[key].Undefined?
  }

  /** The value `key` ends up with after assigning `sources` in order over `current`. */
  function LastDefined(sources: seq<Value>, key: string, current: Value): Value
    decreases |sources|
  {
    if sources == [] then current
    else if Defines(sources[|sources| - 1], key) then OwnProps(sources[|sources| - 1])[key]
    else LastDefined(sources[..|sources| - 1], key, current)
  }

  /** A key no source defines keeps its value. */
  lemma {:induction false} LastDefinedUntouched(sources: seq<Value>, key: string, current: Value)
    requires forall i :: 0 <= i < |sources| ==> !Defines(sources[i], key)
    ensures LastDefined(sources, key, current) == current
    decreases |sources|
  {
    if sources != [] {
      LastDefinedUntouched(sources[..|sources| - 1], key, current);
    }
  }

  /** The target as `safeAssign` leaves it: each own key holds the last defined value a source gives it. */
  function SafeAssigned(target: Props, sources: seq<Value>): (r: Props)
    ensures r.Keys == target.Keys
  {
    map k | k in target :: LastDefined(sources, k, target[k])
  }

  /**
   * With a single source, the constructors' case: a key of the target takes the
   * source's value when the source defines it, and keeps its own otherwise; no
   * key of the source that the target lacks is copied.
   */
  lemma SafeAssignedOne(target: Props, source: Value)
    ensures SafeAssigned(target, [source]).Keys == target.Keys
    ensures forall k :: k in target ==> SafeAssigned(target, [source])[k] == (if Defines(source, k) then OwnProps(source)[k] else target[k])
  {
    forall k | k in target
      ensures LastDefined([source], k, target[k]) == (if Defines(source, k) then OwnProps(source)[k] else target[k])
    {
      assert [source][..0] == [];
    }
  }

  /**
   * `safeAssign(target, ...sources)`: a key is copied only when it is an own
   * property of both the source and the target and its value is defined. The
   * target gains no key.
   */
  method SafeAssign(target: Props, sources: seq<Value>) returns (r: Props)
    ensures r == SafeAssigned(target, sources)
  {
    r := target;
    var i := 0;
    while i < |sources|
      invariant 0 <= i <= |sources|
      invariant r.Keys == target.Keys
      invariant forall k :: k in r ==> r[k] == LastDefined(sources[..i], k, target[k])
    {
      var source := sources[i];
      var before := r;
      var pending := OwnProps(source).Keys;
      while pending != {}
        invariant pending <= OwnProps(source).Keys
        invariant r.Keys == target.Keys
        invariant forall k :: k in r ==> r[k] == (if k !in pending && Defines(source, k) then OwnProps(source)[k] else before[k])
        decreases pending
      {
        var key :| key in pending;
        if key in r && Defines(source, key) {
          r := r[key := OwnProps(source)[key]];
        }
        pending := pending - {key};
      }
      assert sources[..i + 1][..i] == sources[..i];
      i := i + 1;
    }
    assert sources[..|sources|] == sources;
  }

  /** `Object.assign(target, source)`: every own property of the source is copied, `undefined` values included. */
  function ObjectAssign(target: Props, source: Value): (r: Props)
    ensures r.Keys == target.Keys + OwnProps(source).Keys
    ensures forall k :: k in r ==> r[k] == (if k in OwnProps(source) then OwnProps(source)[k] else target[k])
  {
    target + OwnProps(source)
  }

  /** The properties after a step that may create objects, and the identity counter after it. */
  datatype Progress = Progress(props: Props, next: nat)

  /** A value made by the library, and the identity counter after making it. */
  datatype Made = Made(value: Value, next: nat)

  /** Values made one after another, and the counter after them. */
  datatype Listed = Listed(values: seq<Value>, next: nat)

  /** `enumize(values)`: an object mapping each value's string form to itself. */
  method Enumize(items: seq<Value>) returns (r: Props)
    ensures forall k :: k in r <==> exists i :: 0 <= i < |items| && ToStr(items[i]) == k
    ensures forall k :: k in r ==> r[k] == Str(k)
  {
    r := map[];
    for i := 0 to |items|
      invariant forall k :: k in r <==> exists j :: 0 <= j < i && ToStr(items[j]) == k
      invariant forall k :: k in r ==> r[k] == Str(k)
    {
      r := r[ToStr(items[i]) := Str(ToStr(items[i]))];
    }
  }
}
