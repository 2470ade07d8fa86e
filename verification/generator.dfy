/**
 * The password generator of app.py: the charset that `generate_password`
 * builds from its three flags, the length clamp, the drawing loop, and the
 * decoding of the query arguments of `generate_api`.
 *
 * `random.choice` is an unspecified choice from the charset (`:|`): the model
 * promises only what holds for every outcome, namely the length and that each
 * character comes from the charset.
 */
module Generator {
  import opened Wrappers
  import opened Ascii
  import PyInt
  import Strength

  /** The `n` consecutive ASCII characters from `first` on, in code order. */
  function Run(first: char, n: nat): (r: string)
    requires first as int + n <= 128
    ensures |r| == n
    ensures forall i :: 0 <= i < n ==> r[i] as int == first as int + i
  {
    if n == 0 then [] else Run(first, n - 1) + [(first as int + n - 1) as char]
  }

  /** A character is in a run exactly when its code lies in the run's range. */
  lemma RunMembership(first: char, n: nat, c: char)
    requires first as int + n <= 128
    ensures c in Run(first, n) <==> first as int <= c as int < first as int + n
  {
    if first as int <= c as int < first as int + n {
      assert Run(first, n)[c as int - first as int] == c;
    }
  }

  const LowerFirst: char := 'a'
  const UpperFirst: char := 'A'
  const DigitFirst: char := '0'

  /** `string.ascii_lowercase`. */
  const Lowercase: string := Run(LowerFirst, 26)

  /** `string.ascii_uppercase`. */
  const Uppercase: string := Run(UpperFirst, 26)

  /** `string.digits`. */
  const Digits: string := Run(DigitFirst, 10)

  /** The symbols the generator may use: 25 of the 32 ASCII punctuation characters. */
  const Symbols: string := "!@#$%^&*()-_=+[]{};:,.<>?"

  /** The ASCII letters and digits, each exactly in the constant of its class. */
  lemma ClassConstants(c: char)
    ensures c in Lowercase <==> IsLower(c)
    ensures c in Uppercase <==> IsUpper(c)
    ensures c in Digits <==> IsDigit(c)
  {
    RunMembership(LowerFirst, 26, c);
    RunMembership(UpperFirst, 26, c);
    RunMembership(DigitFirst, 10, c);
  }

  /** The symbol string holds 25 characters, none of them a letter or a digit. */
  lemma SymbolsAreSymbols()
    ensures |Symbols| == 25
    ensures forall i :: 0 <= i < |Symbols| ==> !IsAlnum(Symbols[i])
  {
  }

  /** The charset `generate_password` builds: lower case always, the other three by flag, in this order. */
  function Charset(upper: bool, digits: bool, symbols: bool): string {
    Lowercase
    + (if upper then Uppercase else "")
    + (if digits then Digits else "")
    + (if symbols then Symbols else "")
  }

  /**
   * Lower-case letters are always in the charset; upper-case letters, digits
   * and the symbol string each exactly when their flag is set; nothing else is.
   */
  lemma CharsetMembership(upper: bool, digits: bool, symbols: bool, c: char)
    ensures c in Charset(upper, digits, symbols) <==>
      IsLower(c) || (upper && IsUpper(c)) || (digits && IsDigit(c)) || (symbols && c in Symbols)
  {
    ClassConstants(c);
    SymbolsAreSymbols();
    if c in Symbols {
      var i :| 0 <= i < |Symbols| && Symbols[i] == c;
      assert !IsAlnum(Symbols[i]);
    }
  }

  /** The length actually drawn: requests below 4 are raised to 4. */
  function ClampLength(length: int): (n: nat)
    ensures n >= 4 && n >= length
    ensures n == length || n == 4
  {
    if length < 4 then 4 else length
  }

  /**
   * `generate_password`: the charset built by `+=`, the length raised to at
   * least 4, then one independent choice from the charset per position.
   */
  method GeneratePassword(length: int, upper: bool, digits: bool, symbols: bool) returns (pwd: string)
    ensures |pwd| == ClampLength(length)
    ensures forall i :: 0 <= i < |pwd| ==> pwd[i] in Charset(upper, digits, symbols)
  {
    var charset := Lowercase;
    if upper {
      charset := charset + Uppercase;
    }
    assert charset == Lowercase + (if upper then Uppercase else "");
    if digits {
      charset := charset + Digits;
    }
    assert charset == Lowercase + (if upper then Uppercase else "") + (if digits then Digits else "");
    if symbols {
      charset := charset + Symbols;
    }
    assert charset == Charset(upper, digits, symbols);

    var n := length;
    if n < 4 {
      n := 4;
    }

    assert charset[0] in charset;
    pwd := "";
    var i := 0;
    while i < n
      invariant 0 <= i <= n && |pwd| == i
      invariant forall j :: 0 <= j < |pwd| ==> pwd[j] in charset
    {
      var c :| c in charset;
      pwd := pwd + [c];
      i := i + 1;
    }
  }

  /**
   * The character classes of a generated password are among those its flags
   * allow, so the analyzer's charset size for it never exceeds that of the flags.
   */
  lemma GeneratedClasses(pwd: string, upper: bool, digits: bool, symbols: bool)
    requires forall i :: 0 <= i < |pwd| ==> pwd[i] in Charset(upper, digits, symbols)
    ensures Strength.ClassesOf(pwd) <= AllowedClasses(upper, digits, symbols)
    ensures Strength.CharsetSize(Strength.ClassesOf(pwd)) <= Strength.CharsetSize(AllowedClasses(upper, digits, symbols))
  {
    forall k | k in Strength.ClassesOf(pwd) ensures k in AllowedClasses(upper, digits, symbols) {
      var i :| 0 <= i < |pwd| && Strength.Classify(pwd[i]) == k;
      CharsetMembership(upper, digits, symbols, pwd[i]);
      if pwd[i] in Symbols {
        var j :| 0 <= j < |Symbols| && Symbols[j] == pwd[i];
        SymbolsAreSymbols();
      }
    }
  }

  /** The classes the flags allow. */
  function AllowedClasses(upper: bool, digits: bool, symbols: bool): set<Strength.CharClass> {
    {Strength.Lower}
    + (if upper then {Strength.Upper} else {})
    + (if digits then {Strength.Digit} else {})
    + (if symbols then {Strength.Symbol} else {})
  }

  // ---------- generate_api: query arguments ----------

  /** `request.args.get(key)`: the first value given for `key`, if any. */
  function ArgGet(args: seq<(string, string)>, key: string): (r: Option<string>)
    ensures r.None? <==> forall i :: 0 <= i < |args| ==> args[i].0 != key
    ensures r.Some? ==> exists i :: 0 <= i < |args| && args[i] == (key, r.value) && forall j :: 0 <= j < i ==> args[j].0 != key
  {
    if args == [] then None
    else if args[0].0 == key then Some(args[0].1)
    else ArgGet(args[1..], key)
  }

  /**
   * `int(request.args.get("length", 16))`, with `ValueError` caught: an absent
   * argument is the integer 16, and one that `int` refuses (including a
   * numeral over the digit limit) also gives 16.
   */
  function ParseLength(arg: Option<string>): int {
    if arg.None? then 16
    else
      var n := PyInt.ParseInt(arg.value);
      if n.None? then 16 else n.value
  }

  /** `request.args.get(key, "true").lower() == "true"`. */
  function ParseFlag(arg: Option<string>): bool {
    ToLower(if arg.None? then "true" else arg.value) == "true"
  }

  /**
   * Length 16 when the argument is absent or not an integer, its value
   * otherwise; a numeral reads as its number unless it exceeds the digit limit.
   */
  lemma ParseLengthCases(arg: Option<string>)
    ensures arg.None? ==> ParseLength(arg) == 16
    ensures arg.Some? && PyInt.ParseInt(arg.value).None? ==> ParseLength(arg) == 16
    ensures arg.Some? && PyInt.ParseInt(arg.value).Some? ==> ParseLength(arg) == PyInt.ParseInt(arg.value).value
    ensures forall n: nat :: arg == Some(PyInt.Decimal(n)) ==>
      ParseLength(arg) == if |PyInt.Decimal(n)| <= PyInt.MaxStrDigits then n else 16
  {
    forall n: nat | arg == Some(PyInt.Decimal(n))
      ensures ParseLength(arg) == if |PyInt.Decimal(n)| <= PyInt.MaxStrDigits then n else 16
    {
      PyInt.ParseDecimal(n);
    }
  }

  /** A length argument led by one of the separators `\x1c`-`\x1f` falls back to 16. */
  lemma ParseLengthRefusesSeparator(c: char, s: string)
    requires 28 <= c as int <= 31
    ensures ParseLength(Some([c] + s)) == 16
  {
    PyInt.ParseRefusesSeparator(c, s);
  }

  /**
   * A flag is on exactly when its argument is absent or spells `true` in any
   * mix of cases.
   */
  lemma ParseFlagCases(arg: Option<string>)
    ensures ParseFlag(arg) <==> arg.None? || IsTrueAnyCase(arg.value)
  {
    if arg.Some? {
      var s := arg.value;
      if ParseFlag(arg) {
        assert |s| == 4;
        assert forall i :: 0 <= i < 4 ==> ToLowerChar(s[i]) == "true"[i];
      }
      if IsTrueAnyCase(s) {
        assert ToLower(s) == "true";
      }
    }
  }

  /** `s` is `true` with each letter in either case. */
  predicate IsTrueAnyCase(s: string) {
    && |s| == 4
    && (s[0] == 't' || s[0] == 'T')
    && (s[1] == 'r' || s[1] == 'R')
    && (s[2] == 'u' || s[2] == 'U')
    && (s[3] == 'e' || s[3] == 'E')
  }

  /**
   * `generate_api`: the three flags and the length decoded from the query,
   * then a password drawn as `generate_password` draws it.
   */
  method GenerateApi(args: seq<(string, string)>) returns (pwd: string)
    ensures |pwd| == ClampLength(ParseLength(ArgGet(args, "length")))
    ensures forall i :: 0 <= i < |pwd| ==>
      pwd[i] in Charset(ParseFlag(ArgGet(args, "upper")), ParseFlag(ArgGet(args, "digits")), ParseFlag(ArgGet(args, "symbols")))
  {
    var length := ParseLength(ArgGet(args, "length"));
    var upper := ParseFlag(ArgGet(args, "upper"));
    var digits := ParseFlag(ArgGet(args, "digits"));
    var symbols := ParseFlag(ArgGet(args, "symbols"));
    pwd := GeneratePassword(length, upper, digits, symbols);
  }
}
