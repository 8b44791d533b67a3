/**
 * The JavaScript values that flow through the request pipeline: configuration
 * objects, request bodies, callback results. Arrays, objects and functions
 * carry an identity so that strict equality compares references, as `===` does.
 * Numbers are integers only.
 */
module Js {

  datatype Value =
    | Undefined
    | Null
    | Bool(b: bool)
    | Num(n: int)
    | Str(s: string)
    | Arr(id: nat, items: seq<Value>)
    | Obj(id: nat, props: map<string, Value>)
      /** An instance of one of the library's own classes, named by `cls`. */
    | Inst(cls: string, id: nat, props: map<string, Value>)
    | Func(id: nat, code: Code)

  /**
   * What a function value does when called. User code, and library code this
   * model leaves uninterpreted (views, texts), is `Source`; the closures the
   * library builds for itself while normalising its options are named.
   */
  datatype Code =
    | Source(text: string)
      /** `ob => (ob ? ob[key] : null)`, the getter a string `recordId` becomes */
    | KeyGetter(key: string)
      /** `() => item`, the wrapper a plain asset path becomes */
    | Constant(item: Value)
      /** the closure `minimizeInProduction(name)` returns */
    | InProduction(name: string)
      /** `id => prefix + encodeURI(id) + suffix`, a default route builder */
    | RoutePath(prefix: string, suffix: string)
      /** the default `onError`, `console.error(err)` */
    | ErrorLogger
      /** the `debugLog` that `true` becomes, `console.log(msg)` */
    | MessageLogger
      /** the `debugLog` a falsy value becomes, `() => {}` */
    | NoOp

  /** `!!v` */
  predicate Truthy(v: Value) {
    match v
    case Undefined => false
    case Null => false
    case Bool(b) => b
    case Num(n) => n != 0
    case Str(s) => s != ""
    case _ => true
  }

  /** `typeof v` */
  function TypeOf(v: Value): (t: string)
    ensures t in {"undefined", "object", "boolean", "number", "string", "function"}
  {
    match v
    case Undefined => "undefined"
    case Null => "object"
    case Bool(_) => "boolean"
    case Num(_) => "number"
    case Str(_) => "string"
    case Arr(_, _) => "object"
    case Obj(_, _) => "object"
    case Inst(_, _, _) => "object"
    case Func(_, _) => "function"
  }

  /** `v === w`: primitives by value, arrays, objects and functions by reference. */
  predicate StrictEquals(v: Value, w: Value) {
    match (v, w)
    case (Undefined, Undefined) => true
    case (Null, Null) => true
    case (Bool(a), Bool(b)) => a == b
    case (Num(a), Num(b)) => a == b
    case (Str(a), Str(b)) => a == b
    case (Arr(a, _), Arr(b, _)) => a == b
    case (Obj(a, _), Obj(b, _)) => a == b
    case (Inst(_, a, _), Inst(_, b, _)) => a == b
    case (Func(a, _), Func(b, _)) => a == b
    case _ => false
  }

  /** `v[key]` for an own property of an object; every other read gives `undefined`. */
  function Get(v: Value, key: string): Value {
    if (v.Obj? || v.Inst?) && key in v.props then v.props[key] else Undefined
  }

  /** The own properties of an object under construction or being rewritten in place. */
  type Props = map<string, Value>

  /** `this[key]` on a property bag; a missing key reads as `undefined`. */
  function Prop(p: Props, key: string): Value {
    if key in p then p[key] else Undefined
  }

  /** The own enumerable properties `for…in` with `hasOwnProperty` and `Object.assign` see on a source. */
  function OwnProps(v: Value): Props {
    if v.Obj? || v.Inst? then v.props else map[]
  }

  // ---------------------------------------------------------------------------
  // String conversion, `String(v)` and template-literal interpolation

  function DigitChar(d: nat): char
    requires d < 10
  {
    "0123456789"[d]
  }

  function NatToString(n: nat): (s: string)
    ensures |s| >= 1
  {
    if n < 10 then [DigitChar(n)] else NatToString(n / 10) + [DigitChar(n % 10)]
  }

  function IntToString(n: int): string {
    if n < 0 then "-" + NatToString(-n) else NatToString(n)
  }

  /** `xs.join(sep)` */
  function Join(xs: seq<string>, sep: string): string {
    if xs == [] then ""
    else if |xs| == 1 then xs[0]
    else xs[0] + sep + Join(xs[1..], sep)
  }

  /** `String(v)`. Arrays join their elements with commas, `null` and `undefined` elements becoming empty. */
  function ToStr(v: Value): string {
    match v
    case Undefined => "undefined"
    case Null => "null"
    case Bool(b) => if b then "true" else "false"
    case Num(n) => IntToString(n)
    case Str(s) => s
    case Arr(_, items) =>
      Join(seq(|items|, i requires 0 <= i < |items| =>
        if items[i].Undefined? || items[i].Null? then "" else ToStr(items[i])), ",")
    case Obj(_, _) => "[object Object]"
    case Inst(_, _, _) => "[object Object]"
    case Func(_, code) => CodeText(code)
  }

  /** The source text `String(f)` gives for a function. */
  function CodeText(code: Code): string {
    match code
    case Source(text) => text
    case KeyGetter(_) => "ob => (ob ? ob[key] : null)"
    case Constant(_) => "() => item"
    case InProduction(_) => "ctx => ctx.options.isProduction ? cleanName + '.min' + extension : name"
    case RoutePath(_, _) => "id => prefix + encodeURI(id) + suffix"
    case ErrorLogger => "(ctx, err) => { console.error(err); }"
    case MessageLogger => "msg => console.log(msg)"
    case NoOp => "() => {}"
  }

  // ---------------------------------------------------------------------------
  // Substrings

  predicate StartsWith(t: string, p: string) {
    |p| <= |t| && t[..|p|] == p
  }

  /** `w` occurs in `t` at index `i`. */
  predicate OccursAt(t: string, w: string, i: int) {
    0 <= i && i + |w| <= |t| && t[i..i + |w|] == w
  }

  predicate Occurs(t: string, w: string) {
    exists i :: 0 <= i <= |t| && OccursAt(t, w, i)
  }

  // ---------------------------------------------------------------------------
  // Characters. Case mapping covers ASCII letters only.

  predicate IsUpper(c: char) {
    'A' <= c <= 'Z'
  }

  predicate IsLower(c: char) {
    'a' <= c <= 'z'
  }

  function ToUpper(c: char): (u: char)
    ensures IsLower(c) ==> IsUpper(u)
    ensures !IsLower(c) ==> u == c
  {
    if IsLower(c) then (c as int - 'a' as int + 'A' as int) as char else c
  }

  function ToLower(c: char): (l: char)
    ensures IsUpper(c) ==> IsLower(l)
    ensures !IsUpper(c) ==> l == c
  {
    if IsUpper(c) then (c as int - 'A' as int + 'a' as int) as char else c
  }

  function LowerString(s: string): (r: string)
    ensures |r| == |s|
    ensures forall i :: 0 <= i < |s| ==> r[i] == ToLower(s[i])
  {
    if s == [] then [] else [ToLower(s[0])] + LowerString(s[1..])
  }
}
