/**
 * The strength rules of app.py: the character classes and charset size of
 * `password_entropy`, the thresholds of `rate_password`, the common-pattern
 * search of `contains_common_substring` and the reply of `analyze_password`.
 *
 * The floating-point part of the entropy, `round(len * log2(charset), 2)`,
 * is a parameter `bits`; the common-password set loaded from disk is a
 * parameter `common`.
 */
module Strength {
  import opened Wrappers
  import opened Ascii

  // ---------- password_entropy: classes and charset size ----------

  datatype CharClass = Lower | Upper | Digit | Symbol

  /** The if/elif chain of the classification loop: each character sets exactly one flag. */
  function Classify(c: char): (k: CharClass)
    ensures k == Lower <==> IsLower(c)
    ensures k == Upper <==> IsUpper(c)
    ensures k == Digit <==> IsDigit(c)
    ensures k == Symbol <==> !IsAlnum(c)
  {
    if IsLower(c) then Lower
    else if IsUpper(c) then Upper
    else if IsDigit(c) then Digit
    else Symbol
  }

  /** The classes that occur in a password. */
  function ClassesOf(password: string): set<CharClass> {
    set i | 0 <= i < |password| :: Classify(password[i])
  }

  /** The alphabet size credited to each class. */
  function Weight(k: CharClass): nat {
    match k
    case Lower => 26
    case Upper => 26
    case Digit => 10
    case Symbol => 32
  }

  /** The sum of the weights of the classes present. */
  function CharsetSize(classes: set<CharClass>): nat {
    (if Lower in classes then Weight(Lower) else 0)
    + (if Upper in classes then Weight(Upper) else 0)
    + (if Digit in classes then Weight(Digit) else 0)
    + (if Symbol in classes then Weight(Symbol) else 0)
  }

  /**
   * The flag loop and the charset sum of `password_entropy` (the part before
   * the logarithm). The result lies in 0..94 and is 0 only for the empty password.
   */
  method EntropyCharset(password: string) returns (charset: nat)
    ensures charset == CharsetSize(ClassesOf(password))
    ensures charset <= 94
    ensures charset == 0 <==> password == []
  {
    if password == [] {
      assert ClassesOf(password) == {};
      return 0;
    }
    var lowers, uppers, digits, symbols := false, false, false, false;
    var i := 0;
    while i < |password|
      invariant 0 <= i <= |password|
      invariant lowers <==> exists j :: 0 <= j < i && Classify(password[j]) == Lower
      invariant uppers <==> exists j :: 0 <= j < i && Classify(password[j]) == Upper
      invariant digits <==> exists j :: 0 <= j < i && Classify(password[j]) == Digit
      invariant symbols <==> exists j :: 0 <= j < i && Classify(password[j]) == Symbol
    {
      var c := password[i];
      if IsLower(c) {
        lowers := true;
      } else if IsUpper(c) {
        uppers := true;
      } else if IsDigit(c) {
        digits := true;
      } else {
        symbols := true;
      }
      i := i + 1;
    }
    charset := 0;
    if lowers { charset := charset + 26; }
    if uppers { charset := charset + 26; }
    if digits { charset := charset + 10; }
    if symbols { charset := charset + 32; }
    assert Classify(password[0]) in ClassesOf(password);
  }

  // ---------- rate_password ----------

  datatype Rating = VeryWeak | Weak | Reasonable | Strong | VeryStrong

  /** The label the API returns. */
  function Label(r: Rating): string {
    match r
    case VeryWeak => "Very Weak"
    case Weak => "Weak"
    case Reasonable => "Reasonable"
    case Strong => "Strong"
    case VeryStrong => "Very Strong"
  }

  /** Position of a rating from weakest (0) to strongest (4). */
  function Rank(r: Rating): nat {
    match r
    case VeryWeak => 0
    case Weak => 1
    case Reasonable => 2
    case Strong => 3
    case VeryStrong => 4
  }

  /** The five bands: [..28), [28..36), [36..60), [60..128), [128..). */
  function Rate(entropy: real): (r: Rating)
    ensures r == VeryWeak <==> entropy < 28.0
    ensures r == Weak <==> 28.0 <= entropy < 36.0
    ensures r == Reasonable <==> 36.0 <= entropy < 60.0
    ensures r == Strong <==> 60.0 <= entropy < 128.0
    ensures r == VeryStrong <==> 128.0 <= entropy
  {
    if entropy < 28.0 then VeryWeak
    else if entropy < 36.0 then Weak
    else if entropy < 60.0 then Reasonable
    else if entropy < 128.0 then Strong
    else VeryStrong
  }

  /** More entropy never gives a weaker label. */
  lemma RateMonotone(e1: real, e2: real)
    requires e1 <= e2
    ensures Rank(Rate(e1)) <= Rank(Rate(e2))
  {
  }

  /** The five labels are distinct, so the label determines the band. */
  lemma LabelInjective(r1: Rating, r2: Rating)
    requires Label(r1) == Label(r2)
    ensures r1 == r2
  {
  }

  // ---------- contains_common_substring ----------

  /** `p` is an entry of the common list that the search does not skip and that occurs in `s.lower()`. */
  predicate IsCommonMatch(p: string, s: string, common: set<string>) {
    p in common && |p| >= 4 && IsSubstring(p, ToLower(s))
  }

  /** What the search may return: some match, or `None` when there is none. */
  predicate CommonSearch(s: string, common: set<string>, found: Option<string>) {
    && (found.Some? ==> IsCommonMatch(found.value, s, common))
    && (found.None? ==> forall p :: p in common ==> !IsCommonMatch(p, s, common))
  }

  /**
   * The loop over the set: entries shorter than 4 are skipped, the first entry
   * met that occurs in the lowered input is returned. Set iteration order is
   * unspecified, so the entry is picked nondeterministically.
   */
  method ContainsCommonSubstring(s: string, common: set<string>) returns (found: Option<string>)
    ensures CommonSearch(s, common, found)
  {
    var low := ToLower(s);
    var remaining := common;
    while remaining != {}
      invariant remaining <= common
      invariant forall p :: p in common && p !in remaining ==> !IsCommonMatch(p, s, common)
      decreases remaining
    {
      var pwd :| pwd in remaining;
      remaining := remaining - {pwd};
      if |pwd| < 4 {
        continue;
      }
      if IsSubstring(pwd, low) {
        return Some(pwd);
      }
    }
    return None;
  }

  /** The search finds something exactly when a match exists. */
  lemma CommonSearchComplete(s: string, common: set<string>, found: Option<string>)
    requires CommonSearch(s, common, found)
    ensures found.Some? <==> exists p :: IsCommonMatch(p, s, common)
  {
  }

  // ---------- analyze_password ----------

  /** One entry of the suggestion list. */
  datatype Advice = CommonPattern(pattern: string) | TooShort | NoLower | NoUpper | NoDigit | NoSymbol

  /** The text the API sends for each entry. */
  function Text(a: Advice): string {
    match a
    case CommonPattern(p) => "Your password includes a very common pattern ('" + p + "'). Try avoiding it."
    case TooShort => "Use at least 8 characters."
    case NoLower => "Add lowercase letters."
    case NoUpper => "Add uppercase letters."
    case NoDigit => "Add some numbers."
    case NoSymbol => "Add special symbols for more strength."
  }

  /** The place of an entry in the fixed order in which the handler appends them. */
  function Position(a: Advice): nat {
    match a
    case CommonPattern(_) => 0
    case TooShort => 1
    case NoLower => 2
    case NoUpper => 3
    case NoDigit => 4
    case NoSymbol => 5
  }

  predicate HasLower(password: string) { exists i | 0 <= i < |password| :: IsLower(password[i]) }
  predicate HasUpper(password: string) { exists i | 0 <= i < |password| :: IsUpper(password[i]) }
  predicate HasDigit(password: string) { exists i | 0 <= i < |password| :: IsDigit(password[i]) }
  predicate HasSymbol(password: string) { exists i | 0 <= i < |password| :: !IsAlnum(password[i]) }

  /** The entries follow the fixed order, so none is repeated. */
  predicate Ordered(r: seq<Advice>) {
    forall i, j :: 0 <= i < j < |r| ==> Position(r[i]) < Position(r[j])
  }

  /** Every entry comes before place `p` of the fixed order. */
  predicate Before(r: seq<Advice>, p: nat) {
    forall i :: 0 <= i < |r| ==> Position(r[i]) < p
  }

  /** One step of the handler: `a` is appended when `cond` holds. */
  function Append(r: seq<Advice>, cond: bool, a: Advice): seq<Advice> {
    if cond then r + [a] else r
  }

  /** Appending an entry that comes later than all present keeps the list ordered. */
  lemma AppendOrdered(r: seq<Advice>, cond: bool, a: Advice)
    requires Ordered(r) && Before(r, Position(a))
    ensures Ordered(Append(r, cond, a)) && Before(Append(r, cond, a), Position(a) + 1)
    ensures |Append(r, cond, a)| <= |r| + 1 && r <= Append(r, cond, a)
  {
    var s := Append(r, cond, a);
    if cond {
      forall i, j | 0 <= i < j < |s| ensures Position(s[i]) < Position(s[j]) {
        if j == |r| {
          assert s[i] == r[i];
        } else {
          assert s[i] == r[i] && s[j] == r[j];
        }
      }
    }
  }

  /** The common-pattern entry when the search found a pattern, and nothing otherwise. */
  function Head(found: Option<string>): seq<Advice> {
    if found.Some? then [CommonPattern(found.value)] else []
  }

  /** The handler's five composition steps after `r0`, with their conditions as flags. */
  function Compose(r0: seq<Advice>, short: bool, noLower: bool, noUpper: bool, noDigit: bool, noSymbol: bool): seq<Advice> {
    var r1 := Append(r0, short, TooShort);
    var r2 := Append(r1, noLower, NoLower);
    var r3 := Append(r2, noUpper, NoUpper);
    var r4 := Append(r3, noDigit, NoDigit);
    Append(r4, noSymbol, NoSymbol)
  }

  /**
   * The suggestion list for a non-empty password given the search's result,
   * entry by entry in the handler's order: the common pattern when one was
   * found, then each composition entry when its condition holds.
   */
  function Suggestions(password: string, found: Option<string>): seq<Advice> {
    Compose(Head(found), |password| < 8, !HasLower(password), !HasUpper(password), !HasDigit(password), !HasSymbol(password))
  }

  lemma ComposeOrdered(found: Option<string>, short: bool, noLower: bool, noUpper: bool, noDigit: bool, noSymbol: bool)
    ensures var r := Compose(Head(found), short, noLower, noUpper, noDigit, noSymbol);
      |r| <= 6 && Ordered(r) && Head(found) <= r
  {
    var r0 := Head(found);
    AppendOrdered(r0, short, TooShort);
    var r1 := Append(r0, short, TooShort);
    AppendOrdered(r1, noLower, NoLower);
    var r2 := Append(r1, noLower, NoLower);
    AppendOrdered(r2, noUpper, NoUpper);
    var r3 := Append(r2, noUpper, NoUpper);
    AppendOrdered(r3, noDigit, NoDigit);
    var r4 := Append(r3, noDigit, NoDigit);
    AppendOrdered(r4, noSymbol, NoSymbol);
  }

  lemma ComposeMembers(found: Option<string>, short: bool, noLower: bool, noUpper: bool, noDigit: bool, noSymbol: bool)
    ensures var r := Compose(Head(found), short, noLower, noUpper, noDigit, noSymbol);
      && (TooShort in r <==> short) && (NoLower in r <==> noLower) && (NoUpper in r <==> noUpper)
      && (NoDigit in r <==> noDigit) && (NoSymbol in r <==> noSymbol)
  {
    var r0 := Head(found);
    var r1 := Append(r0, short, TooShort);
    var r2 := Append(r1, noLower, NoLower);
    var r3 := Append(r2, noUpper, NoUpper);
    var r4 := Append(r3, noDigit, NoDigit);
    var r5 := Append(r4, noSymbol, NoSymbol);
    forall a: Advice | !a.CommonPattern?
      ensures a in r5 <==> (a == TooShort && short) || (a == NoLower && noLower) || (a == NoUpper && noUpper)
                           || (a == NoDigit && noDigit) || (a == NoSymbol && noSymbol)
    {
      AppendMembership(r0, short, TooShort, a);
      AppendMembership(r1, noLower, NoLower, a);
      AppendMembership(r2, noUpper, NoUpper, a);
      AppendMembership(r3, noDigit, NoDigit, a);
      AppendMembership(r4, noSymbol, NoSymbol, a);
    }
  }

  /** An entry is in the list after a step exactly when it was before or is the one the step appends. */
  lemma AppendMembership(r: seq<Advice>, cond: bool, a: Advice, x: Advice)
    ensures x in Append(r, cond, a) <==> x in r || (cond && x == a)
  {
  }

  /**
   * The list holds at most six entries, in the fixed order and hence without
   * repeats, and it starts with the common-pattern entry exactly when the
   * search found one.
   */
  lemma SuggestionsOrdered(password: string, found: Option<string>)
    ensures |Suggestions(password, found)| <= 6
    ensures Ordered(Suggestions(password, found))
    ensures found.Some? ==> Suggestions(password, found)[0] == CommonPattern(found.value)
    ensures found.None? ==> forall a :: a in Suggestions(password, found) ==> !a.CommonPattern?
  {
    var r := Suggestions(password, found);
    ComposeOrdered(found, |password| < 8, !HasLower(password), !HasUpper(password), !HasDigit(password), !HasSymbol(password));
    if found.None? {
      forall a | a in r ensures !a.CommonPattern? {
        var i :| 0 <= i < |r| && r[i] == a;
        if i > 0 {
          assert Position(r[0]) < Position(r[i]);
        }
      }
    }
  }

  /** Each composition entry is in the list exactly when its condition holds. */
  lemma SuggestionsMembership(password: string, found: Option<string>)
    ensures TooShort in Suggestions(password, found) <==> |password| < 8
    ensures NoLower in Suggestions(password, found) <==> !HasLower(password)
    ensures NoUpper in Suggestions(password, found) <==> !HasUpper(password)
    ensures NoDigit in Suggestions(password, found) <==> !HasDigit(password)
    ensures NoSymbol in Suggestions(password, found) <==> !HasSymbol(password)
  {
    ComposeMembers(found, |password| < 8, !HasLower(password), !HasUpper(password), !HasDigit(password), !HasSymbol(password));
  }

  /** The texts of a list of entries, as `jsonify` sends them. */
  function Texts(advice: seq<Advice>): seq<string> {
    seq(|advice|, i requires 0 <= i < |advice| => Text(advice[i]))
  }

  /** Different entries have different texts, so a text names its entry. */
  lemma TextInjective(a: Advice, b: Advice)
    requires Text(a) == Text(b)
    ensures a == b
  {
    if a.CommonPattern? && b.CommonPattern? {
      var pre := "Your password includes a very common pattern ('";
      assert |a.pattern| == |b.pattern|;
      assert Text(a)[|pre|..|pre| + |a.pattern|] == a.pattern;
      assert Text(b)[|pre|..|pre| + |b.pattern|] == b.pattern;
    }
  }

  /** An entry's text is in the reply exactly when the entry is in the list. */
  lemma TextsMembership(advice: seq<Advice>, a: Advice)
    ensures Text(a) in Texts(advice) <==> a in advice
  {
    if Text(a) in Texts(advice) {
      var i :| 0 <= i < |advice| && Texts(advice)[i] == Text(a);
      TextInjective(a, advice[i]);
    }
    if a in advice {
      var i :| 0 <= i < |advice| && advice[i] == a;
      assert Texts(advice)[i] == Text(a);
    }
  }

  /**
   * The suggestion strings of the reply: each composition text appears
   * exactly when its condition holds, the common-pattern text comes first
   * when a pattern was found, and no text appears twice.
   */
  lemma SuggestionTexts(password: string, found: Option<string>)
    ensures var t := Texts(Suggestions(password, found));
      && |t| <= 6
      && (Text(TooShort) in t <==> |password| < 8)
      && (Text(NoLower) in t <==> !HasLower(password))
      && (Text(NoUpper) in t <==> !HasUpper(password))
      && (Text(NoDigit) in t <==> !HasDigit(password))
      && (Text(NoSymbol) in t <==> !HasSymbol(password))
      && (found.Some? ==> t[0] == Text(CommonPattern(found.value)))
      && (forall i, j :: 0 <= i < j < |t| ==> t[i] != t[j])
  {
    var r := Suggestions(password, found);
    var t := Texts(r);
    SuggestionsMembership(password, found);
    SuggestionsOrdered(password, found);
    TextsMembership(r, TooShort);
    TextsMembership(r, NoLower);
    TextsMembership(r, NoUpper);
    TextsMembership(r, NoDigit);
    TextsMembership(r, NoSymbol);
    forall i, j | 0 <= i < j < |t| ensures t[i] != t[j] {
      if t[i] == t[j] {
        TextInjective(r[i], r[j]);
      }
    }
  }

  datatype Report = Report(length: nat, entropy: real, rating: string, isCommon: bool, suggestions: seq<string>)

  /** A JSON reply: the body of a 200, or `{"error": message}` with a status. */
  datatype Reply<T> = Ok(body: T) | Error(status: nat, message: string)

  /** `data.get("password", "")`: an absent field reads as the empty string. */
  function PasswordField(field: Option<string>): string {
    if field.None? then "" else field.value
  }

  /**
   * `analyze_password`: the empty password is refused with 400; otherwise the
   * length, the rating of the entropy, the common flag and the suggestions,
   * built by appending one entry at a time. `found` is the substring search's
   * result, which the reply only shows through the flag and the first entry.
   */
  method AnalyzePassword(field: Option<string>, common: set<string>, bits: (nat, nat) -> real)
    returns (reply: Reply<Report>, ghost found: Option<string>)
    ensures PasswordField(field) == "" <==> reply.Error?
    ensures reply.Error? ==> reply == Error(400, "Missing password")
    ensures reply.Ok? ==>
      var pwd := PasswordField(field);
      && reply.body.length == |pwd|
      && reply.body.entropy == bits(|pwd|, CharsetSize(ClassesOf(pwd)))
      && reply.body.rating == Label(Rate(reply.body.entropy))
    ensures reply.Ok? ==>
      && CommonSearch(PasswordField(field), common, found)
      && reply.body.isCommon == found.Some?
      && reply.body.suggestions == Texts(Suggestions(PasswordField(field), found))
  {
    found := None;
    var pwd := PasswordField(field);
    if pwd == "" {
      return Error(400, "Missing password"), found;
    }
    var charset := EntropyCharset(pwd);
    var entropy := bits(|pwd|, charset);
    var rating := Label(Rate(entropy));
    var advice := [];

    var commonSub := ContainsCommonSubstring(pwd, common);
    found := commonSub;
    if commonSub.Some? {
      advice := advice + [CommonPattern(commonSub.value)];
    }
    assert advice == Head(found);
    ghost var before := advice;
    if |pwd| < 8 {
      advice := advice + [TooShort];
    }
    assert advice == Append(before, |pwd| < 8, TooShort);
    before := advice;
    if !HasLower(pwd) {
      advice := advice + [NoLower];
    }
    assert advice == Append(before, !HasLower(pwd), NoLower);
    before := advice;
    if !HasUpper(pwd) {
      advice := advice + [NoUpper];
    }
    assert advice == Append(before, !HasUpper(pwd), NoUpper);
    before := advice;
    if !HasDigit(pwd) {
      advice := advice + [NoDigit];
    }
    assert advice == Append(before, !HasDigit(pwd), NoDigit);
    before := advice;
    if !HasSymbol(pwd) {
      advice := advice + [NoSymbol];
    }
    assert advice == Append(before, !HasSymbol(pwd), NoSymbol);
    assert advice == Suggestions(pwd, found);
    reply := Ok(Report(|pwd|, entropy, rating, commonSub.Some?, Texts(advice)));
  }
}
