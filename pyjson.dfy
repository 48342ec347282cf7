/**
 * JSON values as Python holds them after `json.load`, with Python's truthiness and
 * Python's `float()` conversion.  Floats are finite reals or NaN.
 */
module PyJson {
  import opened Wrappers
  import opened Strings

  /** A Python float: a finite value or NaN. */
  datatype PyFloat = Finite(x: real) | NaN

  datatype Json =
    | JNull
    | JBool(b: bool)
    | JInt(i: int)
    | JFloat(f: PyFloat)
    | JStr(s: string)
    | JList(items: seq<Json>)
    | JObj(fields: map<string, Json>)

  /** Python's `bool(v)`. NaN is truthy, as in Python. */
  predicate Truthy(v: Json) {
    match v
    case JNull => false
    case JBool(b) => b
    case JInt(i) => i != 0
    case JFloat(f) => f.NaN? || f.x != 0.0
    case JStr(s) => s != []
    case JList(items) => items != []
    case JObj(fields) => fields != map[]
  }

  /** `d.get(key)` on a dict; a missing key (or a value that is not a dict) gives `None`. */
  function Get(v: Json, key: string): Option<Json> {
    if v.JObj? && key in v.fields then Some(v.fields[key]) else None
  }

  /** `d.get(key)` as Python shows it, `None` standing for a missing key. */
  function GetOrNull(fields: map<string, Json>, key: string): Json {
    if key in fields then fields[key] else JNull
  }

  predicate AllDigits(s: string) {
    forall i :: 0 <= i < |s| ==> IsDigit(s[i])
  }

  /**
   * Digits with at most one '.', and at least one digit: exactly the strings `v` for which
   * `v.replace(".", "", 1).isdigit()` holds on ASCII text.
   */
  predicate IsNumeral(s: string) {
    match SplitOnce(s, ".")
    case None => s != [] && AllDigits(s)
    case Some((a, b)) => a + b != [] && AllDigits(a) && AllDigits(b)
  }

  lemma NumeralShape(s: string)
    requires IsNumeral(s)
    ensures s != [] && forall i :: 0 <= i < |s| ==> IsDigit(s[i]) || s[i] == '.'
  {
    match SplitOnce(s, ".")
    case None =>
    case Some((a, b)) =>
      forall i | 0 <= i < |s| ensures IsDigit(s[i]) || s[i] == '.' {
        if i < |a| { assert s[i] == a[i]; }
        else if i > |a| { assert s[i] == b[i - |a| - 1]; }
      }
  }

  /**
   * A numeral described character by character: non-empty, only digits and
   * dots, no two dots, and some digit.
   */
  predicate NumeralChars(s: string) {
    && s != []
    && (forall i :: 0 <= i < |s| ==> IsDigit(s[i]) || s[i] == '.')
    && (forall i, j :: 0 <= i < j < |s| && s[i] == '.' ==> s[j] != '.')
    && (exists i :: 0 <= i < |s| && IsDigit(s[i]))
  }

  /** The split at the first '.' accepts exactly the numerals described character by character. */
  lemma NumeralIff(s: string)
    ensures IsNumeral(s) <==> NumeralChars(s)
  {
    match SplitOnce(s, ".")
    case None =>
      NoDotWithoutSplit(s);
      if s != [] && AllDigits(s) { assert IsDigit(s[0]); }
    case Some((a, b)) =>
      if a + b != [] && AllDigits(a) && AllDigits(b) { SplitToChars(s, a, b); }
      if NumeralChars(s) { CharsToSplit(s, a, b); }
  }

  /** A string in which "." does not occur holds no '.'. */
  lemma NoDotWithoutSplit(s: string)
    requires !Contains(s, ".")
    ensures forall i :: 0 <= i < |s| ==> s[i] != '.'
  {
    forall i | 0 <= i < |s| ensures s[i] != '.' {
      if s[i] == '.' {
        assert s[i..i + 1] == ".";
        assert OccursAt(s, ".", i);
      }
    }
  }

  /** A numeral split at its dot has the character-level shape. */
  lemma SplitToChars(s: string, a: string, b: string)
    requires s == a + "." + b && a + b != [] && AllDigits(a) && AllDigits(b)
    ensures NumeralChars(s)
  {
    NoDotOutside(s, a, b);
    assert forall i :: 0 <= i < |a| ==> s[i] == a[i];
    assert forall i :: 0 <= i < |b| ==> s[|a| + 1 + i] == b[i];
    if a != [] { assert IsDigit(s[0]); } else { assert IsDigit(s[|a| + 1]); }
  }

  /** The character-level shape makes both sides of the dot digits, not both empty. */
  lemma CharsToSplit(s: string, a: string, b: string)
    requires s == a + "." + b && NumeralChars(s)
    ensures a + b != [] && AllDigits(a) && AllDigits(b)
  {
    assert s[|a|] == '.';
    forall i | 0 <= i < |a| ensures IsDigit(a[i]) {
      assert s[i] == a[i];
      assert s[i] != '.';
    }
    forall i | 0 <= i < |b| ensures IsDigit(b[i]) {
      assert s[|a| + 1 + i] == b[i];
      assert s[|a| + 1 + i] != '.';
    }
    var k :| 0 <= k < |s| && IsDigit(s[k]);
    assert k != |a|;
  }

  /** In a numeral split at its dot, the dot is the only one. */
  lemma NoDotOutside(s: string, a: string, b: string)
    requires s == a + "." + b && AllDigits(a) && AllDigits(b)
    ensures forall m :: 0 <= m < |s| && m != |a| ==> s[m] != '.'
  {
    assert forall m :: 0 <= m < |a| ==> s[m] == a[m];
    assert forall m :: |a| < m < |s| ==> s[m] == b[m - |a| - 1];
  }

  function DigitsValue(s: string): (n: nat)
    requires AllDigits(s)
  {
    if s == [] then 0 else 10 * DigitsValue(s[..|s| - 1]) + (s[|s| - 1] as int - '0' as int)
  }

  function Pow10(n: nat): (p: nat)
    ensures p >= 1
  {
    if n == 0 then 1 else 10 * Pow10(n - 1)
  }

  /** The value `float(s)` gives for a numeral. */
  function NumeralValue(s: string): (r: real)
    requires IsNumeral(s)
    ensures r >= 0.0
  {
    match SplitOnce(s, ".")
    case None => DigitsValue(s) as real
    case Some((a, b)) => DigitsValue(a) as real + DigitsValue(b) as real / Pow10(|b|) as real
  }

  /**
   * `float(s)` for a string: surrounding whitespace is ignored, a sign is allowed, and
   * the body is a plain decimal numeral or (in any case) "nan".
   */
  function ParseFloat(s: string): (r: Option<PyFloat>)
    ensures IsNumeral(s) ==> r == Some(Finite(NumeralValue(s)))
  {
    assert IsNumeral(s) ==> Strip(s) == s && Lower(s) != "nan" by {
      if IsNumeral(s) {
        NumeralShape(s);
        StripNoEdgeSpace(s);
        if |s| == 3 { assert Lower(s)[0] != 'n'; }
      }
    }
    var t := Strip(s);
    var neg := t != [] && t[0] == '-';
    var body := if t != [] && (t[0] == '-' || t[0] == '+') then t[1..] else t;
    if Lower(body) == "nan" then Some(NaN)
    else if IsNumeral(body) then Some(Finite(if neg then -NumeralValue(body) else NumeralValue(body)))
    else None
  }

  /** Python's `float(v)`; `None` when it raises. `bool` is an `int` in Python. */
  function ToFloat(v: Json): Option<PyFloat> {
    match v
    case JNull => None
    case JBool(b) => Some(Finite(if b then 1.0 else 0.0))
    case JInt(i) => Some(Finite(i as real))
    case JFloat(f) => Some(f)
    case JStr(s) => ParseFloat(s)
    case JList(_) => None
    case JObj(_) => None
  }

  /** `isinstance(v, (int, float))`, which holds of booleans too. */
  predicate IsNumber(v: Json) {
    v.JBool? || v.JInt? || v.JFloat?
  }

  /** `type(v).__name__` for the scalar JSON values. */
  function TypeName(v: Json): string {
    match v
    case JNull => "NoneType"
    case JBool(_) => "bool"
    case JInt(_) => "int"
    case JFloat(_) => "float"
    case JStr(_) => "str"
    case JList(_) => "list"
    case JObj(_) => "dict"
  }

  /** Python's `max(a, b)` on two numbers: `a` unless `b` is larger. */
  function Max(a: real, b: real): real { if b > a then b else a }

  /** Python's `min(a, b)` on two numbers: `a` unless `b` is smaller. */
  function Min(a: real, b: real): real { if b < a then b else a }

  /** Python's `int(x)` on a float: truncation toward zero. */
  function Trunc(x: real): (n: int)
    ensures x >= 0.0 ==> 0 <= n && n as real <= x < n as real + 1.0
    ensures x < 0.0 ==> n <= 0 && n as real - 1.0 < x <= n as real
  {
    if x >= 0.0 then x.Floor else -((-x).Floor)
  }
}
