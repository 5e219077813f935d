/** The slice of JavaScript's value semantics the modelled code relies on:
    values, truthiness, `typeof`, property reads and writes, `||` and `toLowerCase`.
    Numbers are modelled as integers; arrays, functions and symbols are not modelled. */
module Js {

  datatype Value =
    | Undefined
    | Null
    | Bool(b: bool)
    | Num(n: int)
    | Str(s: string)
    | Obj(props: map<string, Value>)

  /** `Boolean(v)`: the falsy values are undefined, null, false, 0 and "". */
  predicate Truthy(v: Value) {
    match v
    case Undefined => false
    case Null => false
    case Bool(b) => b
    case Num(n) => n != 0
    case Str(s) => s != ""
    case Obj(_) => true
  }

  /** `typeof v`; note that `typeof null` is "object". */
  function TypeOf(v: Value): (t: string)
    ensures t == "object" <==> v.Obj? || v.Null?
  {
    match v
    case Undefined => "undefined"
    case Null => "object"
    case Bool(_) => "boolean"
    case Num(_) => "number"
    case Str(_) => "string"
    case Obj(_) => "object"
  }

  /** `v[key]` for a value that can be read from (anything except undefined and null,
      which throw); own properties only, primitives have none of interest here. */
  function Get(v: Value, key: string): (r: Value)
    requires !v.Undefined? && !v.Null?
    ensures v.Obj? && key in v.props ==> r == v.props[key]
    ensures !(v.Obj? && key in v.props) ==> r == Undefined
  {
    if v.Obj? && key in v.props then v.props[key] else Undefined
  }

  /** `a || b` */
  function Or(a: Value, b: Value): (r: Value)
    ensures Truthy(a) ==> r == a
    ensures !Truthy(a) ==> r == b
  {
    if Truthy(a) then a else b
  }

  /** `target[key] = value` in strict-mode code: objects gain or overwrite the property,
      every other value throws a TypeError (modelled as None). */
  function SetProp(target: Value, key: string, value: Value): (r: Option<Value>)
    ensures r.Some? <==> target.Obj?
    ensures r.Some? ==> r.value.Obj? && r.value.props.Keys == target.props.Keys + {key}
    ensures r.Some? ==> r.value.props[key] == value
    ensures r.Some? ==> forall k :: k in target.props && k != key ==> r.value.props[k] == target.props[k]
  {
    if target.Obj? then Some(Obj(target.props[key := value])) else None
  }

  datatype Option<T> = None | Some(value: T)

  /** `String.prototype.toLowerCase` restricted to ASCII letters, which is all an
      Ethereum address in hexadecimal can contain. */
  function ToLower(s: string): (r: string)
    ensures |r| == |s|
    ensures forall i :: 0 <= i < |s| ==> r[i] == LowerChar(s[i])
  {
    if s == [] then [] else [LowerChar(s[0])] + ToLower(s[1..])
  }

  function LowerChar(c: char): char {
    if 'A' <= c <= 'Z' then (c as int - 'A' as int + 'a' as int) as char else c
  }

  /** Case-insensitive equality as written with two `toLowerCase` calls. */
  predicate EqualsIgnoreCase(a: string, b: string) {
    ToLower(a) == ToLower(b)
  }

  /** Decimal digits of `n`. */
  function Decimal(n: nat): (s: string)
    ensures |s| >= 1
    ensures forall i :: 0 <= i < |s| ==> '0' <= s[i] <= '9'
  {
    if n < 10 then [Digit(n)] else Decimal(n / 10) + [Digit(n % 10)]
  }

  function Digit(d: nat): (c: char)
    requires d < 10
    ensures '0' <= c <= '9'
  {
    ('0' as int + d) as char
  }

  lemma {:induction false} DecimalLength(n: nat)
    ensures n >= 10 ==> |Decimal(n)| >= 2
  {
    if n >= 10 {
      assert |Decimal(n / 10)| >= 1;
    }
  }

  /** Distinct counters give distinct decimal strings. */
  lemma {:induction false} DecimalInjective(m: nat, n: nat)
    requires Decimal(m) == Decimal(n)
    ensures m == n
  {
    var s := Decimal(m);
    if m < 10 && n < 10 {
      assert s[0] == Digit(m) && s[0] == Digit(n);
    } else if m < 10 {
      DecimalLength(n);
    } else if n < 10 {
      DecimalLength(m);
    } else {
      var k := |s| - 1;
      assert Decimal(m) == Decimal(m / 10) + [Digit(m % 10)];
      assert Decimal(n) == Decimal(n / 10) + [Digit(n % 10)];
      assert Decimal(m / 10) == s[..k] == Decimal(n / 10);
      assert Digit(m % 10) == s[k] == Digit(n % 10);
      DecimalInjective(m / 10, n / 10);
    }
  }

  /** The string a template literal `${v}` interpolates for `v`. */
  function ToStr(v: Value): string {
    match v
    case Undefined => "undefined"
    case Null => "null"
    case Bool(b) => if b then "true" else "false"
    case Num(n) => if n < 0 then "-" + Decimal(-n) else Decimal(n)
    case Str(s) => s
    case Obj(_) => "[object Object]"
  }
}
