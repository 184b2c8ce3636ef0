/** JavaScript values as the screens see them (the parts of the JSON bodies the
    API returns, props, and form fields), with the truthiness, `||`, `??`,
    own-property and `String(...)` rules the source relies on. Numbers are
    modelled as integers. */
module JsValues {
  import opened Optional
  import opened Text

  datatype JVal =
    | Undefined
    | Null
    | Bool(b: bool)
    | Num(n: int)
    | Str(s: string)
    | Arr(items: seq<JVal>)
    | Obj(props: map<string, JVal>)

  /** JavaScript truthiness: `undefined`, `null`, `false`, `0` and `""` are falsy. */
  predicate Truthy(v: JVal) {
    match v
    case Undefined => false
    case Null => false
    case Bool(b) => b
    case Num(n) => n != 0
    case Str(s) => s != ""
    case Arr(_) => true
    case Obj(_) => true
  }

  predicate IsNullish(v: JVal) {
    v.Undefined? || v.Null?
  }

  /** `a || b` */
  function Or(a: JVal, b: JVal): JVal {
    if Truthy(a) then a else b
  }

  /** `a ?? b` */
  function Coalesce(a: JVal, b: JVal): JVal {
    if IsNullish(a) then b else a
  }

  /** `typeof v === "object"` (which includes `null`). */
  predicate IsObjectType(v: JVal) {
    v.Null? || v.Arr? || v.Obj?
  }

  /** The index named by the canonical numeric key `k`, if it is below `n`. */
  function IndexKey(k: string, n: nat): (r: Option<nat>)
    ensures r.Some? ==> r.value < n && NatToString(r.value) == k
    ensures r.None? ==> forall i :: 0 <= i < n ==> NatToString(i) != k
  {
    if n == 0 then None
    else if NatToString(n - 1) == k then Some(n - 1)
    else IndexKey(k, n - 1)
  }

  /** `Object.prototype.hasOwnProperty.call(v, k) ? Some(v[k]) : None`: the own
      properties of objects, and the indices and `length` of arrays and strings. */
  function OwnProperty(v: JVal, k: string): Option<JVal> {
    match v
    case Obj(m) => if k in m then Some(m[k]) else None
    case Arr(xs) =>
      if k == "length" then Some(Num(|xs|))
      else (match IndexKey(k, |xs|) case Some(i) => Some(xs[i]) case None => None)
    case Str(s) =>
      if k == "length" then Some(Num(|s|))
      else (match IndexKey(k, |s|) case Some(i) => Some(Str([s[i]])) case None => None)
    case _ => None
  }

  /** `v?.k`: the own property, or `undefined` (inherited properties are not modelled). */
  function Get(v: JVal, k: string): JVal {
    match OwnProperty(v, k)
    case Some(x) => x
    case None => Undefined
  }

  /** `String(v)` */
  function ToJsString(v: JVal): string
    decreases v
  {
    match v
    case Undefined => "undefined"
    case Null => "null"
    case Bool(b) => if b then "true" else "false"
    case Num(n) => IntToString(n)
    case Str(s) => s
    case Arr(xs) => JoinItems(xs)
    case Obj(_) => "[object Object]"
  }

  /** `Array.prototype.join(",")`: `null` and `undefined` elements become "". */
  function JoinItems(xs: seq<JVal>): string
    decreases xs
  {
    if xs == [] then ""
    else
      (if IsNullish(xs[0]) then "" else ToJsString(xs[0]))
      + (if |xs| == 1 then "" else "," + JoinItems(xs[1..]))
  }

  /** A string value, or "" for anything that is not a string. */
  function StrOr(v: JVal): string {
    if v.Str? then v.s else ""
  }

  /** Whether React Native can show a value placed in a `Text`: an object is
      not a valid child and makes the render throw, also inside an array. */
  predicate Renderable(v: JVal)
    decreases v
  {
    match v
    case Obj(_) => false
    case Arr(xs) => forall i :: 0 <= i < |xs| ==> Renderable(xs[i])
    case _ => true
  }

  /** The text React Native shows for a renderable value placed in a `Text`:
      strings and numbers as written, nothing for booleans, null and undefined,
      and the elements of an array one after the other. */
  function TextOf(v: JVal): (t: string)
    decreases v
    ensures v.Str? ==> t == v.s
    ensures v.Num? ==> t == IntToString(v.n)
    ensures v.Bool? || IsNullish(v) || v.Obj? ==> t == ""
  {
    match v
    case Str(s) => s
    case Num(n) => IntToString(n)
    case Arr(xs) => TextOfItems(xs)
    case _ => ""
  }

  function TextOfItems(xs: seq<JVal>): string
    decreases xs
  {
    if xs == [] then "" else TextOf(xs[0]) + TextOfItems(xs[1..])
  }

  /** An array shows its elements' texts with no separator, unlike `String(...)`,
      which puts commas between them. */
  lemma ArrayTextHasNoSeparator()
    ensures TextOf(Arr([Str("a"), Str("b")])) == "ab"
    ensures ToJsString(Arr([Str("a"), Str("b")])) == "a,b"
    ensures TextOf(Arr([Null, Num(7), Bool(true)])) == "7"
  {
    assert [Str("a"), Str("b")][1..] == [Str("b")];
    assert [Null, Num(7), Bool(true)][1..] == [Num(7), Bool(true)];
    assert [Num(7), Bool(true)][1..] == [Bool(true)];
    assert IntToString(7) == "7";
  }
}
