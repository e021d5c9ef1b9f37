/** JavaScript values as they reach the relay handler: a parsed JSON request
    body, the fields destructured from it, and the objects the handler builds.
    `Undefined` is kept apart from `Null` because the handler's fallbacks
    (`||`, `if (x)`, object spread) treat both as falsy but they are different
    values. */
module Json {

  datatype Option<+T> = None | Some(value: T)

  datatype Value =
    | Undefined
    | Null
    | Bool(b: bool)
    | Num(n: real)
    | Str(s: string)
    | Arr(items: seq<Value>)
    | Obj(fields: map<string, Value>)

  /** JavaScript truthiness: `undefined`, `null`, `false`, `0` and `""` are
      falsy; every other value, empty arrays and objects included, is truthy. */
  predicate Truthy(v: Value): (t: bool)
    ensures !t <==> v in {Undefined, Null, Bool(false), Num(0.0), Str("")}
  {
    match v
    case Undefined => false
    case Null => false
    case Bool(b) => b
    case Num(n) => n != 0.0
    case Str(s) => s != ""
    case Arr(_) => true
    case Obj(_) => true
  }

  /** The values on which a property read or a destructuring throws. */
  predicate Nullish(v: Value) {
    v.Undefined? || v.Null?
  }

  /** The value of an own property, `undefined` when the object lacks it. */
  function Field(fields: map<string, Value>, name: string): Value {
    if name in fields then fields[name] else Undefined
  }

  /** An object with the single property `error`, the handler's error body. */
  function ErrorObject(message: string): Value {
    Obj(map["error" := Str(message)])
  }

  // ---------------------------------------------------------------------
  // Array-index property keys: JavaScript names the elements of an array
  // and the characters of a string by the decimal rendering of the index.

  predicate IsDigit(c: char) {
    '0' <= c <= '9'
  }

  predicate AllDigits(s: string) {
    forall k :: 0 <= k < |s| ==> IsDigit(s[k])
  }

  function DigitChar(d: nat): (c: char)
    requires d < 10
    ensures IsDigit(c) && c as int - '0' as int == d
  {
    ('0' as int + d) as char
  }

  /** The canonical decimal rendering of an array index: digits only and no
      leading zero. */
  function DecimalString(n: nat): (s: string)
    ensures |s| >= 1 && AllDigits(s)
    ensures |s| > 1 ==> s[0] != '0'
  {
    if n < 10 then [DigitChar(n)] else DecimalString(n / 10) + [DigitChar(n % 10)]
  }

  /** The shape of DecimalString's results. */
  predicate IsIndexKey(k: string) {
    |k| >= 1 && AllDigits(k) && (|k| > 1 ==> k[0] != '0')
  }

  /** Reads a string of decimal digits back as a number; the inverse of
      DecimalString. */
  function ParseDecimal(s: string): nat
    requires AllDigits(s)
  {
    if s == [] then 0
    else ParseDecimal(s[..|s| - 1]) * 10 + (s[|s| - 1] as int - '0' as int)
  }

  lemma {:induction false} ParseDecimalString(n: nat)
    ensures ParseDecimal(DecimalString(n)) == n
  {
    if n >= 10 {
      ParseDecimalString(n / 10);
      var s := DecimalString(n);
      assert s[..|s| - 1] == DecimalString(n / 10);
    }
  }

  /** Distinct indices never share a property key. */
  lemma DecimalStringInjective(a: nat, b: nat)
    requires DecimalString(a) == DecimalString(b)
    ensures a == b
  {
    ParseDecimalString(a);
    ParseDecimalString(b);
  }

  /** The own enumerable properties of an array-like sequence: element `i`
      under the key DecimalString(i). */
  function Indexed(items: seq<Value>): (m: map<string, Value>)
    ensures forall i :: 0 <= i < |items| ==> DecimalString(i) in m && m[DecimalString(i)] == items[i]
    ensures forall k :: k in m ==> IsIndexKey(k) && ParseDecimal(k) < |items|
  {
    if items == [] then map[]
    else
      var n := |items| - 1;
      DistinctFromLast(n);
      ParseDecimalString(n);
      Indexed(items[..n])[DecimalString(n) := items[n]]
  }

  lemma DistinctFromLast(n: nat)
    ensures forall i :: 0 <= i < n ==> DecimalString(i) != DecimalString(n)
  {
    forall i | 0 <= i < n
      ensures DecimalString(i) != DecimalString(n)
    {
      if DecimalString(i) == DecimalString(n) {
        DecimalStringInjective(i, n);
      }
    }
  }

  /** One-character strings, the elements a string spreads into. */
  function Chars(s: string): (r: seq<Value>)
    ensures |r| == |s| && forall i :: 0 <= i < |s| ==> r[i] == Str([s[i]])
  {
    seq(|s|, i requires 0 <= i < |s| => Str([s[i]]))
  }

  /** The properties `{...v}` copies into an object literal: an object's own
      properties, the indexed elements of an array or the characters of a
      string; nothing for `undefined`, `null`, booleans and numbers. */
  function Spread(v: Value): (m: map<string, Value>)
    ensures v.Obj? ==> m == v.fields
    ensures v.Arr? ==> (forall k :: k in m ==> IsIndexKey(k) && ParseDecimal(k) < |v.items|)
                       && forall i :: 0 <= i < |v.items| ==> DecimalString(i) in m && m[DecimalString(i)] == v.items[i]
    ensures v.Str? ==> (forall k :: k in m ==> IsIndexKey(k) && ParseDecimal(k) < |v.s|)
                       && forall i :: 0 <= i < |v.s| ==> DecimalString(i) in m && m[DecimalString(i)] == Str([v.s[i]])
    ensures !(v.Obj? || v.Arr? || v.Str?) ==> m == map[]
  {
    match v
    case Obj(fields) => fields
    case Arr(items) => Indexed(items)
    case Str(s) =>
      var m := Indexed(Chars(s));
      assert |Chars(s)| == |s|;
      m
    case _ => map[]
  }
}
