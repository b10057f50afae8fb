/**
  The values that Python's json module produces when it decodes a request
  body, and the few Python built-ins the wrapper applies to them: the type
  name that appears in an exception message, `dict.get` with a default, and
  `str()` of a value that can be a dictionary key.
*/
module Json {

  /** A decoded JSON value: objects become dicts with string keys. */
  datatype Value =
    | Null
    | Bool(b: bool)
    | Int(i: int)
    | Str(s: string)
    | List(items: seq<Value>)
    | Object(fields: map<string, Value>)

  /** The literal `{}`. */
  const EmptyObject: Value := Object(map[])

  /** `type(v).__name__`, as Python prints it in exception messages. */
  function TypeName(v: Value): (name: string)
    ensures name == "dict" <==> v.Object?
    ensures name == "list" <==> v.List?
    ensures name == "str" <==> v.Str?
  {
    match v
    case Null => "NoneType"
    case Bool(_) => "bool"
    case Int(_) => "int"
    case Str(_) => "str"
    case List(_) => "list"
    case Object(_) => "dict"
  }

  /** `d.get(key, default)`: the entry when the key is present, the default otherwise. */
  function Get(d: map<string, Value>, key: string, default: Value): (v: Value)
    ensures key in d ==> v == d[key]
    ensures key !in d ==> v == default
  {
    if key in d then d[key] else default
  }

  /** The decimal digits of a natural number, most significant first. */
  function Decimal(n: nat): (digits: string)
    ensures |digits| >= 1
    ensures forall k :: 0 <= k < |digits| ==> '0' <= digits[k] <= '9'
    ensures n < 10 <==> |digits| == 1
  {
    var last := ('0' as int + n % 10) as char;
    if n < 10 then [last] else Decimal(n / 10) + [last]
  }

  /** The number a string of decimal digits denotes. */
  function DigitsValue(digits: string): int
  {
    if digits == [] then 0 else DigitsValue(digits[..|digits| - 1]) * 10 + (digits[|digits| - 1] as int - '0' as int)
  }

  /** Reading the digits back gives the number: `int(str(n)) == n`. */
  lemma {:induction false} DecimalRoundTrip(n: nat)
    ensures DigitsValue(Decimal(n)) == n
  {
    var digits := Decimal(n);
    assert digits[|digits| - 1] as int - '0' as int == n % 10;
    if n >= 10 {
      assert digits[..|digits| - 1] == Decimal(n / 10);
      DecimalRoundTrip(n / 10);
    } else {
      assert digits[..|digits| - 1] == [];
    }
  }

  /** `str(v)` for the values that can be dictionary keys: None, booleans, integers, strings. */
  function PyStr(v: Value): (text: string)
    requires !v.List? && !v.Object?
    ensures v.Str? ==> text == v.s
    ensures v.Int? && v.i >= 0 ==> text == Decimal(v.i)
  {
    match v
    case Null => "None"
    case Bool(b) => if b then "True" else "False"
    case Int(i) => if i < 0 then "-" + Decimal(-i) else Decimal(i)
    case Str(s) => s
  }
}
