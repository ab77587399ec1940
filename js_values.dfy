/**
  The fragment of JavaScript value semantics the server relies on when it
  reads a principal's metadata bag or a request body: truthiness (`!x`,
  `x || d`), numeric conversion (`Number(x)`, `x >= 10`) and `x + 1`.
  Numbers are integers; objects and arrays are carried with the string they
  convert to, which is all `+` and numeric conversion look at.
 */
module JsValues {

  datatype Option<+T> = None | Some(value: T) {
    function GetOr(default: T): T {
      match this
      case Some(v) => v
      case None => default
    }
  }

  /** A JSON value. A key that is absent from a bag stands for `undefined`. */
  datatype Value =
    | Null
    | Bool(b: bool)
    | Num(n: int)
    | Str(s: string)
    | Compound(text: string)  // an object or array, with its string conversion

  /** A principal's private metadata: key -> value. */
  type Bag = map<string, Value>

  /** JavaScript truthiness of a present value: false exactly for the falsy values. */
  function Truthy(v: Value): (r: bool)
    ensures !r <==> v in {Null, Bool(false), Num(0), Str("")}
  {
    match v
    case Null => false
    case Bool(b) => b
    case Num(n) => n != 0
    case Str(s) => s != ""
    case Compound(_) => true
  }

  /** Truthiness of a possibly-undefined value: undefined is falsy too. */
  function TruthyOpt(o: Option<Value>): (r: bool)
    ensures !r <==> o in {None, Some(Null), Some(Bool(false)), Some(Num(0)), Some(Str(""))}
  {
    o.Some? && Truthy(o.value)
  }

  /** `bag?.key`: the value stored under a key, or undefined. */
  function Get(bag: Bag, key: string): (r: Option<Value>)
    ensures r.Some? <==> key in bag
    ensures r.Some? ==> r.value == bag[key]
  {
    if key in bag then Some(bag[key]) else None
  }

  predicate IsDigit(c: char) {
    '0' <= c <= '9'
  }

  predicate AllDigits(s: string) {
    forall i :: 0 <= i < |s| ==> IsDigit(s[i])
  }

  /** The value of a string of decimal digits. */
  function DecimalValue(s: string): nat
    requires AllDigits(s)
  {
    if s == [] then 0
    else DecimalValue(s[..|s| - 1]) * 10 + (s[|s| - 1] as int - '0' as int)
  }

  /** Appending a digit shifts the value one decimal place and adds the digit. */
  lemma DecimalAppend(s: string, c: char)
    requires AllDigits(s) && IsDigit(c)
    ensures AllDigits(s + [c])
    ensures DecimalValue(s + [c]) == 10 * DecimalValue(s) + (c as int - '0' as int)
  {
    assert (s + [c])[..|s + [c]| - 1] == s;
  }

  /** `Number(s)` for a string; None stands for NaN. */
  function StringToNumber(s: string): (r: Option<int>)
    ensures r.Some? <==> AllDigits(s)
    ensures AllDigits(s) && s != "" ==> r == Some(DecimalValue(s))
    ensures s == "" ==> r == Some(0)
    ensures r.Some? ==> r.value >= 0
  {
    if s == "" then Some(0)
    else if AllDigits(s) then Some(DecimalValue(s))
    else None
  }

  /** `Number(v)`, the conversion `>=` applies to a non-string operand; None stands for NaN. */
  function ToNumber(v: Value): (r: Option<int>)
    ensures v.Num? ==> r == Some(v.n)
    ensures !Truthy(v) ==> r == Some(0)
    ensures v == Bool(true) ==> r == Some(1)
    ensures v.Str? ==> r == StringToNumber(v.s)
    ensures v.Compound? ==> r == StringToNumber(v.text)
  {
    match v
    case Null => Some(0)
    case Bool(b) => Some(if b then 1 else 0)
    case Num(n) => Some(n)
    case Str(s) => StringToNumber(s)
    case Compound(t) => StringToNumber(t)
  }

  /** `v + 1`: numeric addition, or string concatenation once a string is involved. */
  function PlusOne(v: Value): (r: Value)
    ensures r != Null
    ensures v.Num? ==> r == Num(v.n + 1)
    ensures (v.Str? || v.Compound?) <==> r.Str?
    ensures v.Str? ==> r == Str(v.s + "1")
    ensures v.Compound? ==> r == Str(v.text + "1")
  {
    match v
    case Null => Num(1)
    case Bool(b) => Num(if b then 2 else 1)
    case Num(n) => Num(n + 1)
    case Str(s) => Str(s + "1")
    case Compound(t) => Str(t + "1")
  }
}
