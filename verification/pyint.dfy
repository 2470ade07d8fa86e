/**
 * Python's `int(s)` on a string (base 10) and the decimal rendering of a
 * natural number, with the round trip between them.
 *
 * `int(s)` accepts surrounding ASCII whitespace (tab, line feed, vertical
 * tab, form feed, carriage return and space), one optional sign, and a run of
 * digits in which single underscores may separate digits (`"1_000"`);
 * anything else raises `ValueError`, modelled here as `None`. So does a
 * run of more than 4300 digits: the default integer string conversion
 * limit of CPython 3.11 and later (`sys.get_int_max_str_digits()`).
 * Digits and whitespace are restricted to ASCII.
 */
module PyInt {
  import opened Wrappers
  import opened Ascii

  /**
   * The ASCII whitespace `int` skips around a numeral: tab to carriage return
   * and space. The separators `\x1c`-`\x1f`, which `str.isspace()` accepts,
   * are not among them.
   */
  predicate IsSpace(c: char) {
    9 <= c as int <= 13 || c == ' '
  }

  /** `s` without its leading whitespace. */
  function StripLeft(s: string): (r: string)
    ensures |r| <= |s| && r == s[|s| - |r|..]
    ensures forall i :: 0 <= i < |s| - |r| ==> IsSpace(s[i])
    ensures r == [] || !IsSpace(r[0])
  {
    if s != [] && IsSpace(s[0]) then StripLeft(s[1..]) else s
  }

  /** `s` without its trailing whitespace. */
  function StripRight(s: string): (r: string)
    ensures |r| <= |s| && r == s[..|r|]
    ensures forall i :: |r| <= i < |s| ==> IsSpace(s[i])
    ensures r == [] || !IsSpace(r[|r| - 1])
  {
    if s != [] && IsSpace(s[|s| - 1]) then StripRight(s[..|s| - 1]) else s
  }

  function Strip(s: string): string {
    StripRight(StripLeft(s))
  }

  /** Digits, possibly separated by single underscores, starting and ending with a digit. */
  predicate IsDigitRun(s: string) {
    && |s| > 0
    && IsDigit(s[0])
    && IsDigit(s[|s| - 1])
    && (forall i :: 0 <= i < |s| ==> IsDigit(s[i]) || s[i] == '_')
    && (forall i :: 0 <= i < |s| - 1 ==> s[i] != '_' || s[i + 1] != '_')
  }

  function DigitValue(c: char): nat
    requires IsDigit(c)
  {
    c as int - '0' as int
  }

  function DigitChar(d: nat): (c: char)
    requires d < 10
    ensures IsDigit(c) && DigitValue(c) == d
  {
    ('0' as int + d) as char
  }

  /** The value of a digit run, underscores ignored. */
  function DigitsValue(s: string): nat
    requires forall i :: 0 <= i < |s| ==> IsDigit(s[i]) || s[i] == '_'
  {
    if s == [] then 0
    else if s[|s| - 1] == '_' then DigitsValue(s[..|s| - 1])
    else DigitsValue(s[..|s| - 1]) * 10 + DigitValue(s[|s| - 1])
  }

  /** The default limit on the digits `int` converts from a decimal string. */
  const MaxStrDigits: nat := 4300

  /** The number of digits in a digit run, underscores not counted. */
  function DigitCount(s: string): nat {
    if s == [] then 0
    else DigitCount(s[..|s| - 1]) + (if s[|s| - 1] == '_' then 0 else 1)
  }

  /** A text of digits only has as many digits as characters. */
  lemma {:induction false} DigitCountAll(s: string)
    requires forall i :: 0 <= i < |s| ==> IsDigit(s[i])
    ensures DigitCount(s) == |s|
  {
    if s != [] {
      DigitCountAll(s[..|s| - 1]);
    }
  }

  /** `int(s)`: `None` where Python raises `ValueError`. */
  function ParseInt(s: string): Option<int> {
    ParseStripped(Strip(s))
  }

  /** `int` reads nothing from a text without a digit: the empty text and blanks raise. */
  lemma ParseNeedsDigit(s: string)
    ensures ParseInt(s).Some? ==> exists i :: 0 <= i < |s| && IsDigit(s[i])
  {
    var t := Strip(s);
    if ParseStripped(t).Some? {
      var k :| 0 <= k < |t| && IsDigit(t[k]);
      assert IsDigit(s[|s| - |StripLeft(s)| + k]);
    }
  }

  /**
   * What `int` reads once the surrounding whitespace is gone: an optional
   * sign and a digit run of at most `MaxStrDigits` digits.
   */
  function ParseStripped(t: string): (r: Option<int>)
    ensures r.Some? ==> exists k :: 0 <= k < |t| && IsDigit(t[k])
  {
    if t != [] && (t[0] == '+' || t[0] == '-') then
      var body := t[1..];
      if IsDigitRun(body) && DigitCount(body) <= MaxStrDigits then
        assert IsDigit(t[1]);
        Some(if t[0] == '-' then -(DigitsValue(body) as int) else DigitsValue(body))
      else None
    else if IsDigitRun(t) && DigitCount(t) <= MaxStrDigits then
      assert IsDigit(t[0]);
      Some(DigitsValue(t))
    else None
  }

  /** The decimal numeral of `n`, as `str(n)` or JavaScript's `String(n)` write it. */
  function Decimal(n: nat): (r: string)
    ensures |r| > 0
    ensures forall i :: 0 <= i < |r| ==> IsDigit(r[i])
  {
    if n < 10 then [DigitChar(n)] else Decimal(n / 10) + [DigitChar(n % 10)]
  }

  lemma {:induction false} DecimalValue(n: nat)
    ensures DigitsValue(Decimal(n)) == n
  {
    if n >= 10 {
      var r := Decimal(n);
      assert r[..|r| - 1] == Decimal(n / 10);
      DecimalValue(n / 10);
    }
  }

  /** A text that neither starts nor ends with whitespace is its own strip. */
  lemma {:induction false} StripUnchanged(r: string)
    requires r != [] && !IsSpace(r[0]) && !IsSpace(r[|r| - 1])
    ensures Strip(r) == r
  {
    assert StripLeft(r) == r;
  }

  /** A numeral is a digit run. */
  lemma {:induction false} DecimalIsDigitRun(n: nat)
    ensures IsDigitRun(Decimal(n))
  {
    var r := Decimal(n);
    assert IsDigit(r[0]) && IsDigit(r[|r| - 1]);
  }

  /** An unsigned digit run reads as its value, within the digit limit. */
  lemma {:induction false} ParsePlain(d: string)
    requires IsDigitRun(d)
    ensures ParseStripped(d) == if DigitCount(d) <= MaxStrDigits then Some(DigitsValue(d)) else None
  {
    assert IsDigit(d[0]);
  }

  /** A minus sign and a digit run read as the negated value of the run, within the digit limit. */
  lemma {:induction false} ParseMinus(d: string)
    requires IsDigitRun(d)
    ensures ParseStripped("-" + d) == if DigitCount(d) <= MaxStrDigits then Some(-(DigitsValue(d) as int)) else None
  {
    var r := "-" + d;
    assert r[0] == '-' && r[1..] == d;
  }

  /** `int(str(n)) == n` for a numeral within the digit limit; a longer one raises. */
  lemma {:induction false} ParseDecimal(n: nat)
    ensures ParseInt(Decimal(n)) == if |Decimal(n)| <= MaxStrDigits then Some(n) else None
  {
    var r := Decimal(n);
    StripUnchanged(r);
    DecimalIsDigitRun(n);
    ParsePlain(r);
    DigitCountAll(r);
    DecimalValue(n);
  }

  /** `int("-" + str(n)) == -n` for a numeral within the digit limit; a longer one raises. */
  lemma {:induction false} ParseNegativeDecimal(n: nat)
    ensures ParseInt("-" + Decimal(n)) == if |Decimal(n)| <= MaxStrDigits then Some(-(n as int)) else None
  {
    DecimalIsDigitRun(n);
    DigitCountAll(Decimal(n));
    DecimalValue(n);
    ParseNegativeRun(Decimal(n), n);
  }

  /** A minus sign and a run of digits only, with nothing around them. */
  lemma {:induction false} ParseNegativeRun(d: string, v: nat)
    requires IsDigitRun(d) && DigitCount(d) == |d| && DigitsValue(d) == v
    ensures ParseInt("-" + d) == if |d| <= MaxStrDigits then Some(-(v as int)) else None
  {
    var r := "-" + d;
    assert r[|r| - 1] == d[|d| - 1];
    StripUnchanged(r);
    ParseMinus(d);
  }

  /** One leading whitespace character does not change what `int` reads. */
  lemma {:induction false} ParseIgnoresLeadingSpace(c: char, s: string)
    requires IsSpace(c)
    ensures ParseInt([c] + s) == ParseInt(s)
  {
    assert ([c] + s)[1..] == s;
    assert StripLeft([c] + s) == StripLeft(s);
  }

  /**
   * A numeral preceded by one of the separators `\x1c`-`\x1f` is refused:
   * `int` does not skip them, and they are neither a sign nor a digit.
   */
  lemma {:induction false} ParseRefusesSeparator(c: char, s: string)
    requires 28 <= c as int <= 31
    ensures ParseInt([c] + s) == None
  {
    var t := [c] + s;
    assert t[0] == c && !IsSpace(c);
    assert StripLeft(t) == t;
    var r := StripRight(t);
    assert r != [];
    assert r[0] == c;
    StrippedRefused(r);
  }

  /** A text whose first character is neither a sign nor a digit is refused. */
  lemma {:induction false} StrippedRefused(r: string)
    requires r != [] && r[0] != '+' && r[0] != '-' && !IsDigit(r[0])
    ensures ParseStripped(r) == None
  {
  }
}
