/**
 * The slice of Python 2 value semantics the client relies on: the truth value
 * of a settings entry (used by the short-circuit `and` in the constructor),
 * `str()` (applied to the secret before signing) and `int()` (applied to the
 * web-service id before sending).
 */
module PyValues {
  import opened Wrappers

  /** A Python value as it can appear in the settings dictionary or in the tracked fields. */
  datatype Value =
    | NoneValue
    | BoolValue(flag: bool)
    | IntValue(number: int)
    | StrValue(text: string)
      /** Any other object (list, dict, float, ...): its truth value and the text `str()` gives for it. */
    | OtherValue(truthy: bool, strText: string)

  /** Python truthiness: None, False, 0 and "" are false, every other int and string is true. */
  predicate Truthy(v: Value)
    ensures !Truthy(v) <==>
              v == NoneValue || v == BoolValue(false) || v == IntValue(0) || v == StrValue("") ||
              (v.OtherValue? && !v.truthy)
  {
    match v
    case NoneValue => false
    case BoolValue(b) => b
    case IntValue(n) => n != 0
    case StrValue(s) => |s| > 0
    case OtherValue(t, _) => t
  }

  // ---------------------------------------------------------------------------
  // Decimal digits

  predicate IsDigit(c: char) { '0' <= c <= '9' }

  predicate AllDigits(s: string) { forall i :: 0 <= i < |s| ==> IsDigit(s[i]) }

  /** The whitespace characters C's isspace accepts in the "C" locale. */
  predicate IsSpace(c: char)
  {
    c == ' ' || c == '\t' || c == '\n' || c == '\r' || c as int == 11 || c as int == 12
  }

  function DigitChar(d: nat): (c: char)
    requires d < 10
    ensures IsDigit(c)
  {
    ('0' as int + d) as char
  }

  function DigitValue(c: char): (d: nat)
    requires IsDigit(c)
    ensures d < 10 && DigitChar(d) == c
  {
    c as int - '0' as int
  }

  /** The number a run of decimal digits denotes, most significant digit first (0 for no digits). */
  function DigitsValue(ds: string): nat
    requires AllDigits(ds)
  {
    if ds == [] then 0 else 10 * DigitsValue(ds[..|ds| - 1]) + DigitValue(ds[|ds| - 1])
  }

  /** The shortest decimal spelling of a natural number. */
  function NatDecimal(n: nat): (s: string)
    ensures |s| > 0 && AllDigits(s)
    ensures |s| > 1 ==> s[0] != '0'
  {
    if n < 10 then [DigitChar(n)] else NatDecimal(n / 10) + [DigitChar(n % 10)]
  }

  /** What Python's `str()` gives for an integer. */
  function Decimal(n: int): string
  {
    if n < 0 then "-" + NatDecimal(-n) else NatDecimal(n)
  }

  lemma {:induction false} NatDecimalValue(n: nat)
    ensures DigitsValue(NatDecimal(n)) == n
  {
    if n >= 10 {
      NatDecimalValue(n / 10);
      var s := NatDecimal(n);
      assert s[..|s| - 1] == NatDecimal(n / 10);
    }
  }

  // ---------------------------------------------------------------------------
  // str() and int()

  /** Python 2 `str(v)`; the text of an integer parses back to it. */
  function PyStr(v: Value): (r: string)
    ensures v.IntValue? ==> ParseInt(r) == Some(v.number)
    ensures v.StrValue? ==> r == v.text
  {
    match v
    case NoneValue => "None"
    case BoolValue(b) => if b then "True" else "False"
    case IntValue(n) => DecimalRoundTrip(n); Decimal(n)
    case StrValue(s) => s
    case OtherValue(_, t) => t
  }

  function StripLeft(s: string): (t: string)
    ensures |t| <= |s| && t == s[|s| - |t|..]
    ensures |t| > 0 ==> !IsSpace(t[0])
  {
    if |s| > 0 && IsSpace(s[0]) then StripLeft(s[1..]) else s
  }

  function StripRight(s: string): (t: string)
    ensures |t| <= |s| && t == s[..|t|]
    ensures |t| > 0 ==> !IsSpace(t[|t| - 1])
  {
    if |s| > 0 && IsSpace(s[|s| - 1]) then StripRight(s[..|s| - 1]) else s
  }

  /**
   * Python 2 `int(s)` on a string, base 10: surrounding whitespace, one
   * optional sign, then one or more ASCII digits; None stands for ValueError.
   */
  function ParseInt(s: string): Option<int>
  {
    var t := StripRight(StripLeft(s));
    if |t| > 0 && (t[0] == '+' || t[0] == '-') then
      var ds := t[1..];
      if |ds| > 0 && AllDigits(ds) then
        var magnitude: int := DigitsValue(ds);
        Some(if t[0] == '-' then -magnitude else magnitude)
      else None
    else if |t| > 0 && AllDigits(t) then Some(DigitsValue(t))
    else None
  }

  /**
   * Python 2 `int(v)`; None stands for the TypeError or ValueError it raises.
   * Integers and bools always convert, None never does, and a string only
   * when it contains a digit.
   */
  function PyInt(v: Value): (r: Option<int>)
    ensures v.IntValue? ==> r == Some(v.number)
    ensures v.BoolValue? ==> r == Some(if v.flag then 1 else 0)
    ensures v.NoneValue? ==> r == None
    ensures v.StrValue? && r.Some? ==> exists i :: 0 <= i < |v.text| && IsDigit(v.text[i])
  {
    match v
    case NoneValue => None
    case BoolValue(b) => Some(if b then 1 else 0)
    case IntValue(n) => Some(n)
    case StrValue(s) => ParsedTextHasADigit(s); ParseInt(s)
    case OtherValue(_, _) => None
  }

  /** Text that starts and ends with a non-space character is left alone by stripping. */
  lemma StripUnpadded(s: string)
    requires |s| > 0 && !IsSpace(s[0]) && !IsSpace(s[|s| - 1])
    ensures StripRight(StripLeft(s)) == s
  {
  }

  /** A run of digits parses to its value. */
  lemma ParseUnsigned(s: string)
    requires |s| > 0 && AllDigits(s)
    ensures ParseInt(s) == Some(DigitsValue(s))
  {
    StripUnpadded(s);
    assert IsDigit(s[0]);
  }

  /** A minus sign followed by a run of digits parses to the negated value. */
  lemma ParseNegative(s: string)
    requires |s| > 0 && AllDigits(s)
    ensures ParseInt("-" + s) == Some(-(DigitsValue(s) as int))
  {
    var neg := "-" + s;
    assert neg[0] == '-' && neg[1..] == s;
    assert neg[|neg| - 1] == s[|s| - 1];
    StripUnpadded(neg);
    var t := StripRight(StripLeft(neg));
    assert t == neg;
  }

  /** `int(str(n)) == n`: the decimal text of any integer parses back to it. */
  lemma DecimalRoundTrip(n: int)
    ensures ParseInt(Decimal(n)) == Some(n)
  {
    var m: nat := if n < 0 then -n else n;
    NatDecimalValue(m);
    if n < 0 {
      ParseNegative(NatDecimal(m));
    } else {
      ParseUnsigned(NatDecimal(m));
    }
  }

  /** A string that `int()` accepts contains a digit. */
  lemma {:induction false} ParsedTextHasADigit(s: string)
    ensures ParseInt(s).Some? ==> exists i :: 0 <= i < |s| && IsDigit(s[i])
  {
    var l := StripLeft(s);
    var t := StripRight(l);
    assert forall i :: 0 <= i < |t| ==> t[i] == s[|s| - |l| + i];
    if ParseInt(s).Some? {
      var k := if t[0] == '+' || t[0] == '-' then 1 else 0;
      if k == 1 {
        assert t[1..][0] == t[1];
      }
      assert IsDigit(t[k]);
      assert IsDigit(s[|s| - |l| + k]);
    }
  }
}
