/** JavaScript values as the handler sees them: parsed request bodies, DynamoDB
    request parameters and responses, and the payloads of HTTP responses.
    Only the parts of JavaScript semantics the handler relies on are modelled:
    property reads (which throw on `undefined` and `null`), truthiness,
    `Array.prototype.concat` and the string conversion of a template literal. */
module JsValues {

  datatype Option<+T> = None | Some(value: T)

  /** The value of an expression that may throw (a TypeError from reading a
      property of `undefined` or `null`, or a SyntaxError from JSON.parse). */
  datatype Result<+T> = Ok(value: T) | Thrown

  /** A JavaScript value. Objects are maps from property names to values (the
      order of their keys is not modelled); numbers are integers. */
  datatype Json =
    | Undefined
    | Null
    | Bool(b: bool)
    | Num(n: int)
    | Str(s: string)
    | Arr(elems: seq<Json>)
    | Obj(fields: map<string, Json>)

  /** Reading a property of this value does not throw. */
  predicate Accessible(v: Json) {
    !v.Undefined? && !v.Null?
  }

  /** `v.key` for a value whose properties can be read: an own property of an
      object, `undefined` for anything else. */
  function Field(v: Json, key: string): Json {
    if v.Obj? && key in v.fields then v.fields[key] else Undefined
  }

  /** `v.key`, which throws a TypeError when `v` is `undefined` or `null`. */
  function Get(v: Json, key: string): (r: Result<Json>)
    ensures r.Thrown? <==> !Accessible(v)
    ensures r.Ok? ==> r.value == Field(v, key)
  {
    if Accessible(v) then Ok(Field(v, key)) else Thrown
  }

  /** The object `v` after the statement `v.key = x`. */
  function Assign(v: Json, key: string, x: Json): (r: Json)
    requires v.Obj?
    ensures r.Obj? && r.fields.Keys == v.fields.Keys + {key}
    ensures Field(r, key) == x
    ensures forall k :: k != key ==> Field(r, k) == Field(v, k)
  {
    Obj(v.fields[key := x])
  }

  /** A second assignment to the same property overrides the first. */
  lemma AssignTwice(v: Json, key: string, x: Json, y: Json)
    requires v.Obj?
    ensures Assign(Assign(v, key, x), key, y) == Assign(v, key, y)
  {
    assert Assign(Assign(v, key, x), key, y).fields == Assign(v, key, y).fields;
  }

  /** The value counts as `true` in an `if` condition. */
  predicate Truthy(v: Json) {
    match v
    case Undefined => false
    case Null => false
    case Bool(b) => b
    case Num(n) => n != 0
    case Str(s) => s != ""
    case Arr(_) => true
    case Obj(_) => true
  }

  /** What `acc.concat(v)` appends to `acc`: the elements of an array, any
      other value as a single element. */
  function Spread(v: Json): seq<Json> {
    if v.Arr? then v.elems else [v]
  }

  /** `acc.concat(v)`: a new array holding `acc` followed by `v`'s elements
      when `v` is an array, or by `v` itself otherwise. */
  function Concat(acc: seq<Json>, v: Json): (r: seq<Json>)
    ensures |acc| <= |r| && r[..|acc|] == acc
    ensures v.Arr? ==> r[|acc|..] == v.elems
    ensures !v.Arr? ==> |r| == |acc| + 1 && r[|acc|] == v
  {
    acc + Spread(v)
  }

  function DigitChar(d: nat): char
    requires d < 10
  {
    ('0' as int + d) as char
  }

  predicate IsDigit(c: char) {
    '0' <= c <= '9'
  }

  function DigitValue(c: char): nat
    requires IsDigit(c)
  {
    (c as int - '0' as int) as nat
  }

  /** The number a string of decimal digits denotes, most significant digit
      first; the reference reading of `Decimal`. */
  function NumeralValue(digits: string): nat
    requires forall i :: 0 <= i < |digits| ==> IsDigit(digits[i])
  {
    if digits == [] then 0
    else 10 * NumeralValue(digits[..|digits| - 1]) + DigitValue(digits[|digits| - 1])
  }

  /** The decimal numeral of a natural number, most significant digit first,
      with no leading zero. */
  function Decimal(n: nat): (r: string)
    ensures |r| >= 1 && (forall i :: 0 <= i < |r| ==> IsDigit(r[i]))
    ensures (|r| > 1) == (n >= 10) && (r[0] == '0' ==> n == 0)
  {
    if n < 10 then [DigitChar(n)] else Decimal(n / 10) + [DigitChar(n % 10)]
  }

  /** The numeral `Decimal` writes reads back as the number it was written
      for. */
  lemma {:induction false} DecimalDenotes(n: nat)
    ensures NumeralValue(Decimal(n)) == n
  {
    var r := Decimal(n);
    if n >= 10 {
      DecimalDenotes(n / 10);
      assert r[..|r| - 1] == Decimal(n / 10);
    }
  }

  /** The values `String(v)` converts without throwing. A parsed JSON object
      has no callable `toString` of its own, so an own `toString` property
      leaves only `valueOf`, which answers the object itself: the conversion
      throws a TypeError. An array converts each of its elements. */
  predicate Stringifiable(v: Json) {
    match v
    case Obj(fields) => "toString" !in fields
    case Arr(elems) => forall i :: 0 <= i < |elems| ==> Stringifiable(elems[i])
    case _ => true
  }

  /** `String(v)`, the conversion a template literal applies to the values it
      interpolates. An array is converted by joining its elements with commas,
      `undefined` and `null` elements becoming empty; an object converts to
      `[object Object]` through the inherited `toString`. */
  function ToString(v: Json): (r: Result<string>)
    ensures r.Ok? <==> Stringifiable(v)
    decreases v, 1
  {
    match v
    case Undefined => Ok("undefined")
    case Null => Ok("null")
    case Bool(b) => Ok(if b then "true" else "false")
    case Num(n) => Ok(if n < 0 then "-" + Decimal(-n) else Decimal(n))
    case Str(s) => Ok(s)
    case Arr(elems) => JoinElements(v, 0)
    case Obj(fields) => if "toString" in fields then Thrown else Ok("[object Object]")
  }

  /** The elements of array `a` from index `from` on, converted and joined
      with commas; it throws when converting any of them throws. */
  function JoinElements(a: Json, from: nat): (r: Result<string>)
    requires a.Arr? && from <= |a.elems|
    ensures r.Ok? <==> forall i :: from <= i < |a.elems| ==> Stringifiable(a.elems[i])
    decreases a, 0, |a.elems| - from
  {
    if from == |a.elems| then Ok("")
    else
      var x := a.elems[from];
      var text := if x.Undefined? || x.Null? then Ok("") else ToString(x);
      var rest := JoinElements(a, from + 1);
      if text.Thrown? || rest.Thrown? then Thrown
      else if from + 1 == |a.elems| then text
      else Ok(text.value + "," + rest.value)
  }
}
