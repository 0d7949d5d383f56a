/**
 * The decoded body of an HTTP reply, as Python's `json` module hands it to the
 * bot: objects become `dict`, arrays `list`, and so on.  Only the parts of
 * Python's behaviour that the bot relies on are modelled: truthiness (used by
 * `current_timestamp or ...`), `dict.get`, the type name quoted by an
 * `AttributeError`, and the text an f-string produces for a value.
 */
module Json {
  import opened Wrappers

  /** A JSON value; floating-point numbers are not modelled. */
  datatype Value =
    | Null
    | Bool(b: bool)
    | Num(n: int)
    | Str(s: string)
    | Arr(items: seq<Value>)
    | Obj(fields: map<string, Value>)

  /** Python's `bool(v)` for a decoded JSON value. */
  predicate Truthy(v: Value) {
    match v
    case Null => false
    case Bool(b) => b
    case Num(n) => n != 0
    case Str(s) => s != ""
    case Arr(items) => items != []
    case Obj(fields) => fields != map[]
  }

  /** `d.get(key)`: the value stored under `key`, or `None` when it is absent. */
  function Get(fields: map<string, Value>, key: string): (r: Option<Value>)
    ensures r.Some? <==> key in fields
    ensures r.Some? ==> r.value == fields[key]
  {
    if key in fields then Some(fields[key]) else None
  }

  /** `type(v).__name__`, the name of the value's Python type. */
  function TypeName(v: Value): string {
    match v
    case Null => "NoneType"
    case Bool(_) => "bool"
    case Num(_) => "int"
    case Str(_) => "str"
    case Arr(_) => "list"
    case Obj(_) => "dict"
  }

  function DigitChar(d: nat): (c: char)
    requires d < 10
    ensures '0' <= c <= '9' && c as int - '0' as int == d
  {
    "0123456789"[d]
  }

  /** The number a string of decimal digits denotes, most significant first. */
  function DecimalValue(r: string): nat
    requires forall i :: 0 <= i < |r| ==> '0' <= r[i] <= '9'
  {
    if r == [] then 0 else DecimalValue(r[..|r| - 1]) * 10 + (r[|r| - 1] as int - '0' as int)
  }

  /** The decimal digits of `n`, most significant first, without leading zeros, denoting `n`. */
  function Digits(n: nat): (r: string)
    ensures |r| >= 1
    ensures forall i :: 0 <= i < |r| ==> '0' <= r[i] <= '9'
    ensures r[0] == '0' ==> r == "0"
    ensures DecimalValue(r) == n
  {
    if n < 10 then
      var r := [DigitChar(n)];
      assert r[..|r| - 1] == [];
      r
    else
      var r := Digits(n / 10) + [DigitChar(n % 10)];
      assert r[..|r| - 1] == Digits(n / 10);
      r
  }

  /**
   * The text that `f'{v}'` produces, where `None` stands for a key that
   * `dict.get` did not find.  Lists and objects are rendered as fixed
   * placeholders rather than by Python's `repr`.
   */
  function Format(v: Option<Value>): (r: string)
    ensures v.Some? && v.value.Str? ==> r == v.value.s
    ensures v.None? || v == Some(Null) ==> r == "None"
    ensures v.Some? && v.value.Num? && v.value.n >= 0 ==>
      (forall i :: 0 <= i < |r| ==> '0' <= r[i] <= '9') && DecimalValue(r) == v.value.n
    ensures v.Some? && v.value.Num? && v.value.n < 0 ==>
      |r| >= 2 && r[0] == '-' && (forall i :: 1 <= i < |r| ==> '0' <= r[i] <= '9') &&
      DecimalValue(r[1..]) == -v.value.n
  {
    match v
    case None => "None"
    case Some(Null) => "None"
    case Some(Bool(b)) => if b then "True" else "False"
    case Some(Num(n)) => if n < 0 then "-" + Digits(-n) else Digits(n)
    case Some(Str(s)) => s
    case Some(Arr(_)) => "[...]"
    case Some(Obj(_)) => "{...}"
  }

  /** An integer's text has no leading zero, except for the integer 0 itself. */
  lemma FormatIntegerIsCanonical(n: int)
    ensures var r := Format(Some(Num(n)));
      (n >= 0 ==> |r| >= 1 && (r[0] == '0' ==> r == "0")) && (n < 0 ==> |r| >= 2 && r[1] != '0')
  {
  }
}
