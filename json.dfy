/** JSON values as the providers' responses decode to in Python, the dict
    operations the pipelines apply to them, and the Python exceptions those
    operations can raise. */
module Json {

  datatype Option<+T> = None | Some(value: T)

  /** The Python exceptions the modelled code can raise. */
  datatype Exception =
    | TypeError                    // arithmetic, comparison or float() on an unsuitable value
    | AttributeError               // .lower() or .get() on a value that has no such method
    | ValueError(message: string)  // float() of a string, or a missing configuration variable
    | ZeroDivisionError

  /** A computation that either returns a value or raises. */
  datatype Result<+T> = Ok(value: T) | Err(error: Exception) {
    predicate IsFailure() { Err? }

    function PropagateFailure<U>(): Result<U>
      requires Err?
    {
      Err(error)
    }

    function Extract(): T
      requires Ok?
    {
      value
    }
  }

  /** A decoded JSON value; Python's None is `Null`, int and float are both `Num`. */
  datatype Value =
    | Null
    | Bool(b: bool)
    | Num(x: real)
    | Str(s: string)
    | Arr(items: seq<Value>)
    | Obj(fields: map<string, Value>)

  /** A Python dict with string keys. */
  type Record = map<string, Value>

  /** `r.get(key, default)` */
  function Get(r: Record, key: string, default: Value): Value
  {
    if key in r then r[key] else default
  }

  /** Python truthiness, as used by `if value:` and `if not value:`. */
  predicate Truthy(v: Value)
  {
    match v
    case Null => false
    case Bool(b) => b
    case Num(x) => x != 0.0
    case Str(s) => |s| > 0
    case Arr(items) => |items| > 0
    case Obj(fields) => |fields| > 0
  }

  /** The number a value stands for in Python arithmetic and comparisons
      (bool is a subclass of int); None for values that make them raise
      TypeError. */
  function AsNumber(v: Value): Option<real>
  {
    match v
    case Num(x) => Some(x)
    case Bool(b) => Some(if b then 1.0 else 0.0)
    case _ => None
  }

  /** `float(v)`. */
  function ToFloat(v: Value): (r: Result<real>)
    ensures r.Ok? <==> AsNumber(v).Some?
    ensures r.Ok? ==> r.value == AsNumber(v).value
    ensures v.Str? ==> r == Err(ValueError("could not convert string to float"))
    ensures !v.Str? && AsNumber(v).None? ==> r == Err(TypeError)
  {
    match v
    case Num(x) => Ok(x)
    case Bool(b) => Ok(if b then 1.0 else 0.0)
    case Str(_) => Err(ValueError("could not convert string to float"))
    case _ => Err(TypeError)
  }

  predicate IsUpper(c: char) { 'A' <= c <= 'Z' }

  function LowerChar(c: char): char
  {
    if IsUpper(c) then (c as int + 32) as char else c
  }

  /** `str.lower()` restricted to ASCII letters. */
  function Lower(s: string): (r: string)
    ensures |r| == |s|
  {
    if s == [] then [] else [LowerChar(s[0])] + Lower(s[1..])
  }

  /** Lower-casing leaves no upper-case letter and changes nothing else. */
  lemma {:induction false} LowerSpec(s: string)
    ensures forall i :: 0 <= i < |s| ==> Lower(s)[i] == LowerChar(s[i])
    ensures forall i :: 0 <= i < |s| ==> !IsUpper(Lower(s)[i])
  {
    if s != [] {
      LowerSpec(s[1..]);
      assert forall i :: 1 <= i < |s| ==> Lower(s)[i] == Lower(s[1..])[i - 1];
    }
  }

  /** Lower-casing twice is lower-casing once. */
  lemma {:induction false} LowerIdempotent(s: string)
    ensures Lower(Lower(s)) == Lower(s)
  {
    if s != [] {
      LowerIdempotent(s[1..]);
      assert Lower(s)[1..] == Lower(s[1..]);
    }
  }

  /** `v.lower()`: only a string has the method. */
  function LowerValue(v: Value): (r: Result<Value>)
    ensures r.Ok? <==> v.Str?
    ensures r.Ok? ==> r.value.Str? && |r.value.s| == |v.s|
    ensures r.Ok? ==> r.value == Str(Lower(v.s))
    ensures r.Err? ==> r.error == AttributeError
  {
    if v.Str? then Ok(Str(Lower(v.s))) else Err(AttributeError)
  }
}
