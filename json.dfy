/** The JavaScript values the core inspects (event properties, user property
    assignments) and the three JavaScript operations it applies to them:
    strict equality (`===`), truthiness (`if (!x)`) and `Number(x)` coercion.
    Numbers are integers here; `Number()` returns None where JavaScript
    returns NaN. */
module Json {
  import opened Wrappers

  datatype JsonValue =
    | JUndefined
    | JNull
    | JBool(b: bool)
    | JNumber(n: int)
    | JString(s: string)
    | JArray(items: seq<JsonValue>)
    | JObject(fields: seq<(string, JsonValue)>)

  /** `a === b`: scalars compare by value; arrays and objects are compared by
      reference, and a value read out of an event is never the very object
      it is compared with, so they are never strictly equal here. */
  predicate StrictEquals(a: JsonValue, b: JsonValue)
  {
    match a
    case JArray(_) => false
    case JObject(_) => false
    case _ => a == b
  }

  lemma StrictEqualsIsScalarEquality(a: JsonValue, b: JsonValue)
    ensures StrictEquals(a, b) <==> a == b && !a.JArray? && !a.JObject?
  {
  }

  /** JavaScript truthiness: `undefined`, `null`, `false`, `0` and `""` are
      falsy; every array and object is truthy. */
  predicate Truthy(v: JsonValue)
  {
    match v
    case JUndefined => false
    case JNull => false
    case JBool(b) => b
    case JNumber(n) => n != 0
    case JString(s) => s != ""
    case _ => true
  }

  /** Value of a decimal digit character. */
  function DigitValue(c: char): (d: int)
    requires '0' <= c <= '9'
    ensures 0 <= d <= 9
  {
    c as int - '0' as int
  }

  predicate AllDigits(s: string)
  {
    forall i :: 0 <= i < |s| ==> '0' <= s[i] <= '9'
  }

  /** The natural number a non-empty run of decimal digits denotes. */
  function DigitsValue(s: string): (n: nat)
    requires AllDigits(s)
  {
    if s == [] then 0
    else DigitsValue(s[..|s| - 1]) * 10 + DigitValue(s[|s| - 1])
  }

  /** `Number(s)` for a string: the empty string is 0, an optionally signed
      run of decimal digits is its value, everything else is NaN (None). */
  function ParseNumber(s: string): (r: Option<int>)
    ensures s == "" ==> r == Some(0)
    ensures r.Some? <==> s == "" || AllDigits(s) || (|s| > 1 && (s[0] == '-' || s[0] == '+') && AllDigits(s[1..]))
    ensures r.Some? && s != "" ==> exists i :: 0 <= i < |s| && '0' <= s[i] <= '9'
    ensures AllDigits(s) ==> r == Some(DigitsValue(s))
    ensures |s| > 1 && s[0] == '+' && AllDigits(s[1..]) ==> r == Some(DigitsValue(s[1..]))
    ensures |s| > 1 && s[0] == '-' && AllDigits(s[1..]) ==> r == Some(-(DigitsValue(s[1..]) as int))
  {
    if s == "" then Some(0)
    else if (s[0] == '-' || s[0] == '+') && |s| > 1 && AllDigits(s[1..]) then
      assert '0' <= s[1..][0] <= '9';
      var n: int := DigitsValue(s[1..]);
      Some(if s[0] == '-' then -n else n)
    else if AllDigits(s) then
      assert '0' <= s[0] <= '9';
      Some(DigitsValue(s))
    else None
  }

  /** The decimal digits of a natural number, most significant first. */
  function DecimalDigits(n: nat): (s: string)
    ensures |s| >= 1 && AllDigits(s)
  {
    if n < 10 then [('0' as int + n) as char]
    else DecimalDigits(n / 10) + [('0' as int + n % 10) as char]
  }

  /** `String(n)` for an integer: its digits, after a "-" when negative. */
  function IntToString(n: int): string
  {
    if n < 0 then "-" + DecimalDigits(-n) else DecimalDigits(n)
  }

  lemma {:induction false} DigitsValueOfDecimal(n: nat)
    ensures DigitsValue(DecimalDigits(n)) == n
  {
    if n >= 10 {
      DigitsValueOfDecimal(n / 10);
      var s := DecimalDigits(n);
      assert s[..|s| - 1] == DecimalDigits(n / 10);
    }
  }

  /** `Number(String(n)) === n`: parsing the printed form of an integer
      gives the integer back. */
  lemma ParseNumberRoundTrip(n: int)
    ensures ParseNumber(IntToString(n)) == Some(n)
  {
    if n < 0 {
      NegativeRoundTrip(-n);
    } else {
      var s := DecimalDigits(n);
      assert '0' <= s[0] <= '9';
      DigitsValueOfDecimal(n);
    }
  }

  lemma NegativeRoundTrip(m: nat)
    requires m > 0
    ensures ParseNumber("-" + DecimalDigits(m)) == Some(-(m as int))
  {
    var d := DecimalDigits(m);
    var s := "-" + d;
    assert s[0] == '-' && |s| > 1;
    assert s[1..] == d;
    DigitsValueOfDecimal(m);
  }

  lemma {:induction false} DigitsValueLeadingZero(s: string)
    requires AllDigits(s)
    ensures AllDigits("0" + s) && DigitsValue("0" + s) == DigitsValue(s)
  {
    if s != [] {
      var t := "0" + s;
      assert t[..|t| - 1] == "0" + s[..|s| - 1];
      DigitsValueLeadingZero(s[..|s| - 1]);
    }
  }

  /** Zero padding does not change a number: `Number("007") === Number("7")`,
      also after a sign. */
  lemma ParseNumberIgnoresLeadingZeros(s: string)
    requires s != "" && AllDigits(s)
    ensures ParseNumber("0" + s) == ParseNumber(s)
    ensures ParseNumber("-0" + s) == ParseNumber("-" + s)
    ensures ParseNumber("+0" + s) == ParseNumber(s)
  {
    DigitsValueLeadingZero(s);
    assert ("-0" + s)[1..] == "0" + s;
    assert ("+0" + s)[1..] == "0" + s;
    assert ("-" + s)[1..] == s;
    assert ("-0" + s)[0] == '-' && ("+0" + s)[0] == '+' && ("-" + s)[0] == '-';
  }

  /** `Number(v)`. An array converts through its string form: `[]` is "",
      so 0; a one-element array converts like its element, except that
      null and undefined print as "" (0) and a boolean prints as a word
      (NaN); two or more elements print with a comma, which is NaN. */
  function ToNumber(v: JsonValue): (r: Option<int>)
    ensures v.JNumber? ==> r == Some(v.n)
    ensures v.JUndefined? || v.JObject? ==> r.None?
  {
    match v
    case JUndefined => None
    case JNull => Some(0)
    case JBool(b) => Some(if b then 1 else 0)
    case JNumber(n) => Some(n)
    case JString(s) => ParseNumber(s)
    case JArray(items) =>
      if |items| == 0 then Some(0)
      else if |items| > 1 then None
      else if items[0].JNull? || items[0].JUndefined? then Some(0)
      else if items[0].JBool? then None
      else ToNumber(items[0])
    case JObject(_) => None
  }
}
