/** The JSON values that travel in relay frames and the handful of Python
    built-ins the relay code applies to them: `dict.get` with a default,
    truthiness (`if x:`), `str.upper()` and `str()` of a scalar. */
module Json {
  import opened Base

  datatype Value =
    | Null
    | Bool(b: bool)
    | Int(i: int)
    | Float(f: real)
    | Str(s: string)
    | Arr(items: seq<Value>)
    | Obj(fields: map<string, Value>)

  /** A decoded JSON object, i.e. one frame. */
  type Object = map<string, Value>

  /** Python truthiness: None, False, zero, "" and empty containers are false. */
  predicate Truthy(v: Value) {
    match v
    case Null => false
    case Bool(b) => b
    case Int(i) => i != 0
    case Float(f) => f != 0.0
    case Str(s) => |s| > 0
    case Arr(a) => |a| > 0
    case Obj(o) => |o| > 0
  }

  /** `o.get(key, default)` on a dict. */
  function Get(o: Object, key: string, default: Value): Value {
    if key in o then o[key] else default
  }

  /** `type(v).__name__` as Python prints it in error messages. */
  function TypeName(v: Value): string {
    match v
    case Null => "NoneType"
    case Bool(_) => "bool"
    case Int(_) => "int"
    case Float(_) => "float"
    case Str(_) => "str"
    case Arr(_) => "list"
    case Obj(_) => "dict"
  }

  /** `v.get(key, default)` on a value that may not be a dict: anything other
      than a dict raises AttributeError. */
  function GetFrom(v: Value, key: string, default: Value): (r: Result<Value>)
    ensures v.Obj? <==> r.Ok?
    ensures v.Obj? ==> r.value == (if key in v.fields then v.fields[key] else default)
    ensures !v.Obj? ==> r.error == "'" + TypeName(v) + "' object has no attribute 'get'"
  {
    if v.Obj? then Ok(Get(v.fields, key, default))
    else Err("'" + TypeName(v) + "' object has no attribute 'get'")
  }

  function UpperChar(c: char): char {
    if 'a' <= c <= 'z' then (c as int - 'a' as int + 'A' as int) as char else c
  }

  /** ASCII upper-casing of a string. */
  function UpperAscii(s: string): (r: string)
    ensures |r| == |s|
    ensures forall i :: 0 <= i < |s| ==> r[i] == UpperChar(s[i])
  {
    if s == [] then [] else [UpperChar(s[0])] + UpperAscii(s[1..])
  }

  /** `v.upper()`: only strings have the method. */
  function Upper(v: Value): (r: Result<string>)
    ensures v.Str? <==> r.Ok?
    ensures v.Str? ==> r.value == UpperAscii(v.s)
  {
    if v.Str? then Ok(UpperAscii(v.s))
    else Err("'" + TypeName(v) + "' object has no attribute 'upper'")
  }

  function DigitChar(d: nat): char
    requires d < 10
  {
    "0123456789"[d]
  }

  function NatToDecimal(n: nat): (r: string)
    ensures |r| >= 1
    decreases n
  {
    if n < 10 then [DigitChar(n)] else NatToDecimal(n / 10) + [DigitChar(n % 10)]
  }

  /** `str(v)` for the scalars an `action` field can plausibly hold; floats,
      lists and dicts are rendered by a fixed placeholder (see README). */
  function PyStr(v: Value): string {
    match v
    case Null => "None"
    case Bool(b) => if b then "True" else "False"
    case Int(i) => if i < 0 then "-" + NatToDecimal(-i) else NatToDecimal(i)
    case Str(s) => s
    case Float(_) => "<float>"
    case Arr(_) => "<list>"
    case Obj(_) => "<dict>"
  }
}
