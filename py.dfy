/** The Python values the exchange adapters handle: decoded JSON bodies, the
    outcome of an expression that may raise, and the handful of Python
    operations (truthiness, `.get`, `[0]`, `in`, iteration, `float()`) whose
    behaviour on unexpected shapes decides whether an adapter skips a
    candidate or raises to the monitor. */
module Py {
  import opened PyStr

  datatype Option<+T> = None | Some(value: T)

  /** The outcome of evaluating Python code that may raise: a value, or an
      exception that propagates, carried as its `str(e)`. */
  datatype Result<+T> = Ok(value: T) | Raised(message: string)

  /** A decoded JSON body. An object keeps its members in document order with
      distinct keys, as the decoded `dict` holds them. Numbers keep the
      decimal they were written as (mantissa times a power of ten); JSON
      integers decode to `int`, the rest to `float`. */
  datatype Json =
    | JNull
    | JBool(b: bool)
    | JInt(i: int)
    | JFloat(mantissa: int, exponent: int)
    | JStr(s: string)
    | JArr(items: seq<Json>)
    | JObj(fields: seq<(string, Json)>)

  /** A price: the value `float(source)` produced. It is kept opaque; nothing
      in the model does arithmetic on it. */
  datatype Price = Price(source: Json)

  function TypeName(v: Json): string {
    match v
    case JNull => "NoneType"
    case JBool(_) => "bool"
    case JInt(_) => "int"
    case JFloat(_, _) => "float"
    case JStr(_) => "str"
    case JArr(_) => "list"
    case JObj(_) => "dict"
  }

  /** `bool(v)` */
  predicate Truthy(v: Json) {
    match v
    case JNull => false
    case JBool(b) => b
    case JInt(i) => i != 0
    case JFloat(m, _) => m != 0
    case JStr(s) => s != []
    case JArr(items) => items != []
    case JObj(fields) => fields != []
  }

  /** `a or b` */
  function Or(a: Json, b: Json): (r: Json)
    ensures Truthy(a) ==> r == a
    ensures !Truthy(a) ==> r == b
  {
    if Truthy(a) then a else b
  }

  function Lookup(fields: seq<(string, Json)>, key: string): Option<Json>
  {
    if fields == [] then None
    else if fields[0].0 == key then Some(fields[0].1)
    else Lookup(fields[1..], key)
  }

  function AttributeError(v: Json, attr: string): string {
    "'" + TypeName(v) + "' object has no attribute '" + attr + "'"
  }

  /** `v.get(key, default)`: only a dict has `.get`. */
  function GetOr(v: Json, key: string, default: Json): (r: Result<Json>)
    ensures r.Ok? <==> v.JObj?
  {
    match v
    case JObj(fields) =>
      (match Lookup(fields, key) case Some(x) => Ok(x) case None => Ok(default))
    case _ => Raised(AttributeError(v, "get"))
  }

  /** `v.get(key)`: a missing key and a JSON null both give `None`. */
  function Get(v: Json, key: string): Result<Json> {
    GetOr(v, key, JNull)
  }

  /** `v[0]` */
  function Index0(v: Json): (r: Result<Json>)
    ensures v.JArr? && v.items != [] ==> r == Ok(v.items[0])
    ensures r.Ok? ==> (v.JArr? || v.JStr?) && Truthy(v)
  {
    match v
    case JArr(items) => if items == [] then Raised("list index out of range") else Ok(items[0])
    case JStr(s) => if s == [] then Raised("string index out of range") else Ok(JStr([s[0]]))
    case JObj(_) => Raised("0")  // str(KeyError(0)): decoded JSON keys are strings
    case _ => Raised("'" + TypeName(v) + "' object is not subscriptable")
  }

  /** `v[key]` with a string key. */
  function Subscript(v: Json, key: string): (r: Result<Json>)
    ensures v.JObj? && Lookup(v.fields, key).Some? ==> r == Ok(Lookup(v.fields, key).value)
    ensures r.Ok? ==> v.JObj?
  {
    match v
    case JObj(fields) =>
      (match Lookup(fields, key) case Some(x) => Ok(x) case None => Raised("'" + key + "'"))
    case JArr(_) => Raised("list indices must be integers or slices, not str")
    case JStr(_) => Raised("string indices must be integers, not 'str'")
    case _ => Raised("'" + TypeName(v) + "' object is not subscriptable")
  }

  /** `key in v` with a string on the left. */
  function In(key: string, v: Json): (r: Result<bool>)
    ensures v.JObj? ==> r == Ok(Lookup(v.fields, key).Some?)
  {
    match v
    case JObj(fields) => Ok(Lookup(fields, key).Some?)
    case JArr(items) => Ok(JStr(key) in items)
    case JStr(s) => Ok(Contains(s, key))
    case _ => Raised("argument of type '" + TypeName(v) + "' is not iterable")
  }

  /** The elements `for x in v` visits: list items, dict keys, characters. */
  function Iterate(v: Json): (r: Result<seq<Json>>)
    ensures v.JArr? ==> r == Ok(v.items)
  {
    match v
    case JArr(items) => Ok(items)
    case JObj(fields) => Ok(seq(|fields|, i requires 0 <= i < |fields| => JStr(fields[i].0)))
    case JStr(s) => Ok(seq(|s|, i requires 0 <= i < |s| => JStr([s[i]])))
    case _ => Raised("'" + TypeName(v) + "' object is not iterable")
  }

  /** `v.upper()`: only a string has it. */
  function StrUpper(v: Json): (r: Result<string>)
    ensures r.Ok? <==> v.JStr?
    ensures r.Ok? ==> r.value == Upper(v.s)
  {
    match v
    case JStr(s) => Ok(Upper(s))
    case _ => Raised(AttributeError(v, "upper"))
  }

  /** Length of the leading digit group of `s`: decimal digits, where a
      single `_` may stand between two digits (`1_000`), as `float()` reads
      them; 0 when `s` does not start with a digit. */
  function DigitRun(s: string): (n: nat)
    ensures n <= |s|
    ensures n > 0 ==> IsDigit(s[0]) && IsDigit(s[n - 1])
    ensures forall i :: 0 <= i < n ==> IsDigit(s[i]) || s[i] == '_'
    ensures n == 0 <==> s == [] || !IsDigit(s[0])
    ensures 0 < n < |s| ==> !IsDigit(s[n]) && !(s[n] == '_' && n + 1 < |s| && IsDigit(s[n + 1]))
  {
    if s != [] && IsDigit(s[0]) then 1 + GroupTail(s[1..]) else 0
  }

  /** The rest of a digit group after a digit: more digits, each possibly
      preceded by one `_`. */
  function GroupTail(s: string): (n: nat)
    ensures n <= |s|
    ensures n > 0 ==> IsDigit(s[n - 1])
    ensures forall i :: 0 <= i < n ==> IsDigit(s[i]) || s[i] == '_'
    ensures n < |s| ==> !IsDigit(s[n]) && !(s[n] == '_' && n + 1 < |s| && IsDigit(s[n + 1]))
  {
    if s != [] && IsDigit(s[0]) then 1 + GroupTail(s[1..])
    else if |s| >= 2 && s[0] == '_' && IsDigit(s[1]) then 2 + GroupTail(s[2..])
    else 0
  }

  /** Nothing, or an exponent `e`/`E`, an optional sign and a digit group. */
  predicate IsExponentOrEnd(s: string) {
    s == [] ||
    ((s[0] == 'e' || s[0] == 'E') &&
     var t := if |s| > 1 && (s[1] == '+' || s[1] == '-') then s[2..] else s[1..];
     t != [] && DigitRun(t) == |t|)
  }

  /** An unsigned decimal: a digit group with an optional fraction (at least
      one digit in all), then an optional exponent. */
  predicate IsDecimalText(u: string) {
    var a := DigitRun(u);
    var rest := u[a..];
    if rest != [] && rest[0] == '.' then
      var b := DigitRun(rest[1..]);
      a + b > 0 && IsExponentOrEnd(rest[1 + b..])
    else
      a > 0 && IsExponentOrEnd(rest)
  }

  /** The strings `float()` accepts: surrounding whitespace, an optional sign,
      then a decimal or one of `inf`, `infinity`, `nan` in any case. */
  predicate IsFloatText(s: string) {
    var t := Strip(s);
    var u := if t != [] && (t[0] == '+' || t[0] == '-') then t[1..] else t;
    var l := Lower(u);
    l == "inf" || l == "infinity" || l == "nan" || IsDecimalText(u)
  }

  /** Digit grouping as `float()` reads it: one `_` between two digits is
      accepted in the integer part and the fraction. */
  lemma GroupedDigitsAccepted()
    ensures IsDecimalText("1_000.5")
  {
    assert DigitRun("1_000.5") == 5 by { assert "1_000.5"[1..] == "_000.5"; assert "_000.5"[2..] == "00.5"; }
    assert DigitRun("5") == 1;
  }

  /** A doubled, leading or trailing `_` is not a digit group. */
  lemma GroupedDigitsRejected()
    ensures !IsDecimalText("1__000") && !IsDecimalText("_1") && !IsDecimalText("1_.5")
  {
    assert DigitRun("1__000") == 1 by { assert "1__000"[1..] == "__000"; }
    assert DigitRun("1_.5") == 1 by { assert "1_.5"[1..] == "_.5"; }
  }

  /** `float(v)` */
  function ToFloat(v: Json): (r: Result<Price>)
    ensures r.Ok? ==> r.value == Price(v)
    ensures r.Ok? <==> (v.JBool? || v.JInt? || v.JFloat? || (v.JStr? && IsFloatText(v.s)))
  {
    match v
    case JBool(_) => Ok(Price(v))
    case JInt(_) => Ok(Price(v))
    case JFloat(_, _) => Ok(Price(v))
    case JStr(s) =>
      if IsFloatText(s) then Ok(Price(v)) else Raised("could not convert string to float: '" + s + "'")
    case _ => Raised("float() argument must be a string or a real number, not '" + TypeName(v) + "'")
  }

  /** `float(v)` where a price is expected: the price, or the exception. */
  function FloatPrice(v: Json): (r: Result<Option<Price>>)
    ensures r.Ok? <==> ToFloat(v).Ok?
    ensures r.Ok? ==> r.value == Some(Price(v))
  {
    match ToFloat(v)
    case Ok(p) => Ok(Some(p))
    case Raised(m) => Raised(m)
  }
}
