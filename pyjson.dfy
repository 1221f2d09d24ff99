/** Decoded JSON values as the Python program sees them, with the parts of Python's
    semantics the bot relies on: truthiness, `all`, `==` and `str()`. */
module PyJson {

  /** A decoded JSON document: `None`, `bool`, `int`, `str`, `list` or `dict`.
      Floating-point numbers are not part of this model. */
  datatype Json =
    | Null
    | Bool(b: bool)
    | Int(i: int)
    | Str(s: string)
    | List(items: seq<Json>)
    | Dict(entries: map<string, Json>)

  /** Python truthiness: `None`, `False`, `0`, `''`, `[]` and `{}` are false, all else true. */
  predicate Truthy(j: Json) {
    match j
    case Null => false
    case Bool(b) => b
    case Int(i) => i != 0
    case Str(s) => s != []
    case List(xs) => xs != []
    case Dict(m) => m != map[]
  }

  /** Python's built-in `all` over a list of values. */
  function All(xs: seq<Json>): (r: bool)
    ensures r <==> forall i :: 0 <= i < |xs| ==> Truthy(xs[i])
  {
    if xs == [] then true else Truthy(xs[0]) && All(xs[1..])
  }

  /** `d.get(key)`: the entry, or `None` when the key is absent. */
  function Get(d: Json, key: string): Json
    requires d.Dict?
  {
    if key in d.entries then d.entries[key] else Null
  }

  /** The value of a number as Python compares it: `True == 1` and `False == 0`. */
  function NumberValue(j: Json): int
    requires j.Bool? || j.Int?
  {
    if j.Bool? then (if j.b then 1 else 0) else j.i
  }

  /** Python's `==` on decoded JSON values: numbers compare by value across `bool` and
      `int`, lists element by element, dicts by key set and value by value. */
  predicate PyEq(a: Json, b: Json)
    decreases a
  {
    match a
    case Null => b.Null?
    case Bool(_) => (b.Bool? || b.Int?) && NumberValue(a) == NumberValue(b)
    case Int(_) => (b.Bool? || b.Int?) && NumberValue(a) == NumberValue(b)
    case Str(s) => b.Str? && s == b.s
    case List(xs) =>
      b.List? && |xs| == |b.items| &&
      forall k :: 0 <= k < |xs| ==> PyEq(xs[k], b.items[k])
    case Dict(m) =>
      b.Dict? && m.Keys == b.entries.Keys &&
      forall key :: key in m ==> PyEq(m[key], b.entries[key])
  }

  /** Every value equals itself under Python's `==` (there are no floats, hence no NaN). */
  lemma {:induction false} PyEqReflexive(a: Json)
    ensures PyEq(a, a)
    decreases a
  {
    match a
    case List(xs) =>
      forall k | 0 <= k < |xs| ensures PyEq(xs[k], xs[k]) { PyEqReflexive(xs[k]); }
    case Dict(m) =>
      forall key | key in m ensures PyEq(m[key], m[key]) { PyEqReflexive(m[key]); }
    case _ =>
  }

  /** Python's `==` is symmetric on decoded JSON values. */
  lemma {:induction false} PyEqSymmetric(a: Json, b: Json)
    requires PyEq(a, b)
    ensures PyEq(b, a)
    decreases a
  {
    match a
    case List(xs) =>
      forall k | 0 <= k < |xs| ensures PyEq(b.items[k], xs[k]) { PyEqSymmetric(xs[k], b.items[k]); }
    case Dict(m) =>
      forall key | key in b.entries ensures PyEq(b.entries[key], m[key]) {
        PyEqSymmetric(m[key], b.entries[key]);
      }
    case _ =>
  }

  /** Python's name for the type of a value, as it appears in error messages. */
  function TypeName(j: Json): string {
    match j
    case Null => "NoneType"
    case Bool(_) => "bool"
    case Int(_) => "int"
    case Str(_) => "str"
    case List(_) => "list"
    case Dict(_) => "dict"
  }

  predicate IsDigit(c: char) { '0' <= c <= '9' }

  function DigitChar(d: nat): (c: char)
    requires d < 10
    ensures IsDigit(c) && c as int - '0' as int == d
  {
    "0123456789"[d]
  }

  /** The decimal digits of a natural number, most significant first, without leading zeros. */
  function Digits(n: nat): (s: string)
    ensures s != [] && forall k :: 0 <= k < |s| ==> IsDigit(s[k])
    decreases n
  {
    if n < 10 then [DigitChar(n)] else Digits(n / 10) + [DigitChar(n % 10)]
  }

  /** Reads back a string of decimal digits. */
  function ReadDigits(s: string): nat
    requires forall k :: 0 <= k < |s| ==> IsDigit(s[k])
  {
    if s == [] then 0
    else
      assert IsDigit(s[|s| - 1]);
      ReadDigits(s[..|s| - 1]) * 10 + (s[|s| - 1] as int - '0' as int)
  }

  /** Python's `str()` of an `int`: an optional minus sign and its decimal digits. */
  function Decimal(i: int): (s: string)
    ensures s != [] && (s[0] == '-' || IsDigit(s[0]))
    ensures forall k :: 0 < k < |s| ==> IsDigit(s[k])
  {
    if i < 0 then "-" + Digits(-i) else Digits(i)
  }

  /** Reads back what `Decimal` writes. */
  function ReadDecimal(s: string): int
    requires s != [] && forall k :: 0 < k < |s| ==> IsDigit(s[k])
    requires s[0] == '-' || IsDigit(s[0])
  {
    if s[0] == '-' then -(ReadDigits(s[1..]) as int) else ReadDigits(s)
  }

  lemma {:induction false} DigitsRoundTrip(n: nat)
    ensures ReadDigits(Digits(n)) == n
    decreases n
  {
    if n >= 10 {
      var s := Digits(n);
      assert s[..|s| - 1] == Digits(n / 10);
      DigitsRoundTrip(n / 10);
    }
  }

  /** The decimal rendering of an `int` loses nothing: reading it back gives the number. */
  lemma DecimalRoundTrip(i: int)
    ensures ReadDecimal(Decimal(i)) == i
  {
    if i < 0 {
      assert Decimal(i)[1..] == Digits(-i);
      DigitsRoundTrip(-i);
    } else {
      DigitsRoundTrip(i);
    }
  }

  /** Python's `str()`, as used by f-strings, for the values the bot formats. Lists and
      dicts are rendered as a fixed placeholder rather than Python's `repr`. */
  function Show(j: Json): string {
    match j
    case Null => "None"
    case Bool(b) => if b then "True" else "False"
    case Int(i) => Decimal(i)
    case Str(s) => s
    case List(_) => "[...]"
    case Dict(_) => "{...}"
  }
}
