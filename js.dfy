/** JavaScript values as the handlers see them at run time (request bodies,
    query parameters, content-source entries), with the few pieces of the
    language's semantics the handlers depend on: truthiness, property access
    that throws on null/undefined, optional chaining, `??`, `===` and the
    string conversion of template literals. */
module Js {

  /** Numbers are integers only: no handler here computes with fractions,
      and NaN/Infinity are not represented. */
  datatype Json =
    | Undefined
    | Null
    | Bool(b: bool)
    | Num(n: int)
    | Str(s: string)
    | Arr(elems: seq<Json>)
    | Obj(props: map<string, Json>)

  datatype Option<+T> = None | Some(value: T)

  /** The outcome of evaluating an expression that may throw; `Throw` carries
      the error's `message`. */
  datatype Result<+T> = Ok(value: T) | Throw(message: string) {
    predicate IsFailure() { Throw? }
    function PropagateFailure<U>(): Result<U> requires Throw? { Throw(message) }
    function Extract(): T requires Ok? { value }
  }

  /** `if (v)`: false, 0, "", null and undefined are falsy; every array and
      object is truthy. */
  predicate Truthy(v: Json) {
    match v
    case Undefined => false
    case Null => false
    case Bool(b) => b
    case Num(n) => n != 0
    case Str(s) => s != ""
    case Arr(_) => true
    case Obj(_) => true
  }

  predicate Nullish(v: Json) {
    v.Undefined? || v.Null?
  }

  /** The message of the TypeError raised by `v.key` when v is null or undefined. */
  function ReadError(v: Json, key: string): string {
    "Cannot read properties of " + (if v.Null? then "null" else "undefined") + " (reading '" + key + "')"
  }

  /** `v.key`. Arrays and strings expose `length`; other primitives have no
      own properties of interest (prototype members are not modelled). */
  function Get(v: Json, key: string): (r: Result<Json>)
    ensures r.Throw? <==> Nullish(v)
    ensures v.Obj? ==> r == Ok(if key in v.props then v.props[key] else Undefined)
  {
    match v
    case Undefined => Throw(ReadError(v, key))
    case Null => Throw(ReadError(v, key))
    case Obj(props) => Ok(if key in props then props[key] else Undefined)
    case Arr(elems) => Ok(if key == "length" then Num(|elems|) else Undefined)
    case Str(s) => Ok(if key == "length" then Num(|s|) else Undefined)
    case _ => Ok(Undefined)
  }

  /** `v?.key`: short-circuits to undefined on null/undefined, so it never throws. */
  function OptGet(v: Json, key: string): (r: Json)
    ensures Nullish(v) ==> r == Undefined
    ensures !Nullish(v) ==> Get(v, key) == Ok(r)
  {
    if Nullish(v) then Undefined else Get(v, key).value
  }

  /** `v ?? d` */
  function Coalesce(v: Json, d: Json): (r: Json)
    ensures r == d <==> Nullish(v) || v == d
    ensures !Nullish(v) ==> r == v
  {
    if Nullish(v) then d else v
  }

  /** `a === b`. Primitives compare by value. Two arrays or objects are equal
      only when they are one object; the handlers never compare objects they
      share, so distinct objects are assumed throughout. */
  predicate StrictEquals(a: Json, b: Json) {
    !a.Arr? && !a.Obj? && a == b
  }

  /** Decimal notation of an integer, as `${n}` writes it. */
  function IntToString(n: int): (s: string)
    ensures |s| > 0
    decreases if n < 0 then 1 - n else n
  {
    if n < 0 then "-" + IntToString(-n)
    else if n < 10 then [DigitChar(n)]
    else IntToString(n / 10) + [DigitChar(n % 10)]
  }

  function DigitChar(d: int): char
    requires 0 <= d < 10
  {
    "0123456789"[d]
  }

  /** The string a template literal `${v}` substitutes for v. An array is its
      elements joined with ",", where null and undefined elements become "". */
  function ToText(v: Json): string
    decreases v
  {
    match v
    case Undefined => "undefined"
    case Null => "null"
    case Bool(b) => if b then "true" else "false"
    case Num(n) => IntToString(n)
    case Str(s) => s
    case Arr(elems) => JoinWith(seq(|elems|, i requires 0 <= i < |elems| => if Nullish(elems[i]) then "" else ToText(elems[i])), ",")
    case Obj(_) => "[object Object]"
  }

  /** `parts.join(sep)` */
  function JoinWith(parts: seq<string>, sep: string): string {
    if |parts| == 0 then ""
    else if |parts| == 1 then parts[0]
    else parts[0] + sep + JoinWith(parts[1..], sep)
  }

  /** `list.includes(v)` on a list of strings */
  predicate Includes(list: seq<string>, v: Json) {
    v.Str? && v.s in list
  }

  /** `xs.map(f)` with a callback that may throw: the first element whose
      callback throws ends the map with that error. */
  function MapJs(f: Json -> Result<Json>, xs: seq<Json>): (r: Result<seq<Json>>)
    ensures r.Ok? <==> forall i :: 0 <= i < |xs| ==> f(xs[i]).Ok?
    ensures r.Ok? ==> |r.value| == |xs| && forall i :: 0 <= i < |xs| ==> r.value[i] == f(xs[i]).value
    ensures r.Throw? ==> exists i :: 0 <= i < |xs| && f(xs[i]) == Throw(r.message)
                                     && forall j :: 0 <= j < i ==> f(xs[j]).Ok?
  {
    if |xs| == 0 then Ok([])
    else
      var head :- f(xs[0]);
      var tail := MapJs(f, xs[1..]);
      assert forall i :: 1 <= i < |xs| ==> xs[1..][i - 1] == xs[i];
      if tail.Throw? then
        var k :| 0 <= k < |xs[1..]| && f(xs[1..][k]) == Throw(tail.message) && forall j :: 0 <= j < k ==> f(xs[1..][j]).Ok?;
        assert f(xs[k + 1]) == Throw(tail.message);
        Throw(tail.message)
      else Ok([head] + tail.value)
  }
}
