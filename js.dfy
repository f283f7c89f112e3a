/** The slice of JavaScript semantics the cooking screens rely on when they
    display an endpoint's parsed JSON: truthiness, `||`, property reads and
    `?.map(...)`. Every endpoint response is stored unvalidated, so the
    screens see an arbitrary JSON value. */
module Js {

  /** A value produced by `res.json()`, plus `undefined` (what a missing
      property reads as). JSON numbers are finite, so NaN is not a case. */
  datatype JsValue =
    | Undefined
    | Null
    | Bool(b: bool)
    | Num(n: real)
    | Str(s: string)
    | Arr(items: seq<JsValue>)
    | Obj(fields: map<string, JsValue>)

  datatype Option<+T> = None | Some(value: T)

  /** The outcome of rendering an expression: a value, or a TypeError thrown
      during render (reading a property of null/undefined, calling `.map` on
      something that is not an array). */
  datatype Outcome<+T> = Rendered(value: T) | Thrown

  /** `null` and `undefined`: the only values `?.` short-circuits on and the
      only values whose properties cannot be read. */
  predicate IsNullish(v: JsValue) {
    v.Undefined? || v.Null?
  }

  /** JavaScript truthiness: false, 0, "" , null and undefined are falsy;
      arrays and objects, even empty ones, are truthy. */
  predicate Truthy(v: JsValue)
    ensures Truthy(v) ==> !IsNullish(v)
    ensures v.Arr? || v.Obj? ==> Truthy(v)
  {
    match v
    case Undefined => false
    case Null => false
    case Bool(b) => b
    case Num(n) => n != 0.0
    case Str(s) => s != ""
    case Arr(_) => true
    case Obj(_) => true
  }

  /** `a || b`: the left operand when it is truthy, otherwise the right one. */
  function Or(a: JsValue, b: JsValue): (r: JsValue)
    ensures r == a || r == b
    ensures Truthy(r) <==> Truthy(a) || Truthy(b)
    ensures Truthy(a) ==> r == a
    ensures !Truthy(a) ==> r == b
  {
    if Truthy(a) then a else b
  }

  /** `v.key` on a value that is not null or undefined (reading a property
      of those throws, which callers model as `Thrown`). Only a parsed JSON
      object has own properties; the keys the screens read (`steps`, `days`,
      `meals`, `title`, ...) are not inherited by any JSON value, so every
      other value reads them as undefined. */
  function Get(v: JsValue, key: string): (r: JsValue)
    requires !IsNullish(v)
    ensures v.Obj? && key in v.fields ==> r == v.fields[key]
    ensures !v.Obj? || key !in v.fields ==> r == Undefined
  {
    if v.Obj? && key in v.fields then v.fields[key] else Undefined
  }

  /** `Array.prototype.map` with a callback that may throw: the elements are
      mapped left to right and the first throw aborts the whole map. */
  function MapOrThrow<A, B>(xs: seq<A>, f: A -> Outcome<B>): (r: Outcome<seq<B>>)
    ensures r.Rendered? <==> forall i :: 0 <= i < |xs| ==> f(xs[i]).Rendered?
    ensures r.Rendered? ==> |r.value| == |xs|
    ensures r.Rendered? ==> forall i :: 0 <= i < |xs| ==> r.value[i] == f(xs[i]).value
    decreases |xs|
  {
    if xs == [] then Rendered([])
    else
      match f(xs[0])
      case Thrown => Thrown
      case Rendered(y) =>
        match MapOrThrow(xs[1..], f)
        case Thrown => Thrown
        case Rendered(ys) => Rendered([y] + ys)
  }

  /** `v?.map(f)`: `undefined` (nothing is rendered) when `v` is nullish,
      a TypeError when `v` is any other non-array (its `.map` is not a
      function), and the mapped array otherwise. */
  function OptionalMap<B>(v: JsValue, f: JsValue -> Outcome<B>): (r: Outcome<Option<seq<B>>>)
    ensures IsNullish(v) ==> r == Rendered(None)
    ensures !IsNullish(v) && !v.Arr? ==> r == Thrown
    ensures v.Arr? ==> (r.Rendered? <==> forall i :: 0 <= i < |v.items| ==> f(v.items[i]).Rendered?)
    ensures v.Arr? && r.Rendered? ==>
      r.value.Some? && |r.value.value| == |v.items| &&
      forall i :: 0 <= i < |v.items| ==> r.value.value[i] == f(v.items[i]).value
  {
    if IsNullish(v) then Rendered(None)
    else if !v.Arr? then Thrown
    else
      match MapOrThrow(v.items, f)
      case Thrown => Thrown
      case Rendered(ys) => Rendered(Some(ys))
  }

  /** `?.` guards on nullishness and `||` on falsiness: the falsy values that
      are not nullish (false, 0 and "") are replaced by the default of `||`
      but make `?.map` throw. */
  lemma NullishIsNarrowerThanFalsy<B>(v: JsValue, d: JsValue, f: JsValue -> Outcome<B>)
    requires !Truthy(v) && !IsNullish(v)
    ensures v == Bool(false) || v == Num(0.0) || v == Str("")
    ensures Or(v, d) == d
    ensures OptionalMap(v, f) == Thrown
  {
  }
}
