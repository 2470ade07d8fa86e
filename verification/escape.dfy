/**
 * `escapeHtml` of static/main.js: five chained `String.prototype.replaceAll`
 * calls that turn the characters HTML reserves in text and attribute values
 * into character references, `&` first.
 *
 * Beside it: a single-pass reference definition (each input character mapped
 * to its own replacement), the decoding of the five references, and the
 * safety facts that make the output fit for `innerHTML`.
 */
module Escape {
  import opened Ascii

  /** `s.replaceAll(c, rep)` for a one-character pattern: every `c` becomes `rep`, left to right. */
  function ReplaceAll(s: string, c: char, rep: string): string {
    if s == [] then []
    else (if s[0] == c then rep else [s[0]]) + ReplaceAll(s[1..], c, rep)
  }

  /** The source's chain, in the source's order. */
  function EscapeHtml(unsafe: string): string {
    ReplaceAll(
      ReplaceAll(
        ReplaceAll(
          ReplaceAll(
            ReplaceAll(unsafe, '&', "&amp;"),
            '<', "&lt;"),
          '>', "&gt;"),
        '"', "&quot;"),
      '\'', "&#039;")
  }

  predicate IsReserved(c: char) {
    c == '&' || c == '<' || c == '>' || c == '"' || c == '\''
  }

  /** The replacement of one character. */
  function EscapeChar(c: char): string {
    match c
    case '&' => "&amp;"
    case '<' => "&lt;"
    case '>' => "&gt;"
    case '"' => "&quot;"
    case '\'' => "&#039;"
    case _ => [c]
  }

  /** Reference definition: every character replaced by its own replacement, in one pass. */
  function EscapeEach(s: string): string {
    if s == [] then [] else EscapeChar(s[0]) + EscapeEach(s[1..])
  }

  /** The text starts with one of the five character references. */
  predicate StartsReference(t: string) {
    "&amp;" <= t || "&lt;" <= t || "&gt;" <= t || "&quot;" <= t || "&#039;" <= t
  }

  /** No character that could open a tag or end a quoted attribute value. */
  predicate NoMarkup(t: string) {
    forall i :: 0 <= i < |t| ==> t[i] != '<' && t[i] != '>' && t[i] != '"' && t[i] != '\''
  }

  /** Every `&` is the start of one of the five character references. */
  predicate AmpersandsAreReferences(t: string) {
    forall i :: 0 <= i < |t| && t[i] == '&' ==> StartsReference(t[i..])
  }

  /** Decoding of the five character references, left to right; other text is kept. */
  function Unescape(t: string): string
    decreases |t|
  {
    if t == [] then []
    else if "&amp;" <= t then "&" + Unescape(t[5..])
    else if "&lt;" <= t then "<" + Unescape(t[4..])
    else if "&gt;" <= t then ">" + Unescape(t[4..])
    else if "&quot;" <= t then "\"" + Unescape(t[6..])
    else if "&#039;" <= t then "'" + Unescape(t[6..])
    else [t[0]] + Unescape(t[1..])
  }

  lemma {:induction false} ReplaceAllAppend(a: string, b: string, c: char, rep: string)
    ensures ReplaceAll(a + b, c, rep) == ReplaceAll(a, c, rep) + ReplaceAll(b, c, rep)
  {
    if a != [] {
      var head := if a[0] == c then rep else [a[0]];
      assert (a + b)[0] == a[0] && (a + b)[1..] == a[1..] + b;
      ReplaceAllAppend(a[1..], b, c, rep);
      assert ReplaceAll(a + b, c, rep) == head + (ReplaceAll(a[1..], c, rep) + ReplaceAll(b, c, rep));
    } else {
      assert a + b == b;
    }
  }

  /** A text without the pattern comes out unchanged. */
  lemma {:induction false} ReplaceAllAbsent(s: string, c: char, rep: string)
    requires c !in s
    ensures ReplaceAll(s, c, rep) == s
  {
    if s != [] {
      assert c !in s[1..];
      ReplaceAllAbsent(s[1..], c, rep);
    }
  }

  /** The chain distributes over concatenation. */
  lemma EscapeHtmlAppend(a: string, b: string)
    ensures EscapeHtml(a + b) == EscapeHtml(a) + EscapeHtml(b)
  {
    var a1, b1 := ReplaceAll(a, '&', "&amp;"), ReplaceAll(b, '&', "&amp;");
    ReplaceAllAppend(a, b, '&', "&amp;");
    var a2, b2 := ReplaceAll(a1, '<', "&lt;"), ReplaceAll(b1, '<', "&lt;");
    ReplaceAllAppend(a1, b1, '<', "&lt;");
    var a3, b3 := ReplaceAll(a2, '>', "&gt;"), ReplaceAll(b2, '>', "&gt;");
    ReplaceAllAppend(a2, b2, '>', "&gt;");
    var a4, b4 := ReplaceAll(a3, '"', "&quot;"), ReplaceAll(b3, '"', "&quot;");
    ReplaceAllAppend(a3, b3, '"', "&quot;");
    ReplaceAllAppend(a4, b4, '\'', "&#039;");
  }

  /** A one-character text is replaced exactly when it is the pattern. */
  lemma ReplaceAllSingle(x: char, c: char, rep: string)
    ensures ReplaceAll([x], c, rep) == if x == c then rep else [x]
  {
    assert [x][1..] == [];
  }

  /**
   * On one character the chain yields exactly that character's replacement:
   * because `&` is replaced first, no later step touches the `&` it introduced.
   */
  lemma EscapeHtmlChar(c: char)
    ensures EscapeHtml([c]) == EscapeChar(c)
  {
    if IsReserved(c) {
      EscapeHtmlReserved(c);
    } else {
      EscapeHtmlIdentity([c]);
    }
  }

  /** A reserved character: the stage of its own character produces the reference, and later stages keep it. */
  lemma EscapeHtmlReserved(c: char)
    requires IsReserved(c)
    ensures EscapeHtml([c]) == EscapeChar(c)
  {
    EscapeHtmlStages([c]);
    if c == '&' {
      StagesOnOwnCharacter(1);
    } else if c == '<' {
      StagesOnOwnCharacter(2);
    } else if c == '>' {
      StagesOnOwnCharacter(3);
    } else if c == '"' {
      StagesOnOwnCharacter(4);
    } else {
      StagesOnOwnCharacter(5);
    }
  }

  /** The five stages turn the character of stage `k` into its reference. */
  lemma StagesOnOwnCharacter(k: nat)
    requires 1 <= k <= 5
    ensures StagesFrom([StageChar(k)], 1) == EscapeChar(StageChar(k))
  {
    var c := StageChar(k);
    EarlierStagesKeep(c, 1, k);
    ReplaceAllSingle(c, c, EscapeChar(c));
    assert Stage([c], k) == EscapeChar(c);
    ReferenceClean(EscapeChar(c));
    LaterStagesKeep(EscapeChar(c), k + 1);
  }

  /** The character whose `replaceAll` is stage `k` of the chain (1 to 5). */
  function StageChar(k: nat): char
    requires 1 <= k <= 5
  {
    match k
    case 1 => '&'
    case 2 => '<'
    case 3 => '>'
    case 4 => '"'
    case 5 => '\''
  }

  /** Stage `k` of the chain: every occurrence of its character replaced by that character's reference. */
  function Stage(t: string, k: nat): string
    requires 1 <= k <= 5
  {
    ReplaceAll(t, StageChar(k), EscapeChar(StageChar(k)))
  }

  /** Stages `k` to 5 applied in turn. */
  function StagesFrom(t: string, k: nat): string
    requires 1 <= k <= 6
    decreases 6 - k
  {
    if k == 6 then t else StagesFrom(Stage(t, k), k + 1)
  }

  /** A text made of `&`, `#`, `;`, letters and digits holds no character that stages 2 to 5 replace. */
  lemma ReferenceClean(t: string)
    requires forall i :: 0 <= i < |t| ==> t[i] == '&' || t[i] == '#' || t[i] == ';' || IsAlnum(t[i])
    ensures '<' !in t && '>' !in t && '"' !in t && '\'' !in t
  {
  }

  /** The chain is the five stages in turn. */
  lemma EscapeHtmlStages(t: string)
    ensures EscapeHtml(t) == StagesFrom(t, 1)
  {
  }

  /** A text none of whose characters is replaced by stages `k` to 5 passes them unchanged. */
  lemma {:induction false} LaterStagesKeep(t: string, k: nat)
    requires 2 <= k <= 6
    requires k <= 2 ==> '<' !in t
    requires k <= 3 ==> '>' !in t
    requires k <= 4 ==> '"' !in t
    requires k <= 5 ==> '\'' !in t
    ensures StagesFrom(t, k) == t
    decreases 6 - k
  {
    if k < 6 {
      ReplaceAllAbsent(t, StageChar(k), EscapeChar(StageChar(k)));
      LaterStagesKeep(t, k + 1);
    }
  }

  /** The stages before the one of `c`'s own character leave `[c]` unchanged. */
  lemma {:induction false} EarlierStagesKeep(c: char, j: nat, k: nat)
    requires 1 <= j <= k <= 5 && StageChar(k) == c
    ensures StagesFrom([c], j) == StagesFrom([c], k)
    decreases k - j
  {
    if j < k {
      ReplaceAllSingle(c, StageChar(j), EscapeChar(StageChar(j)));
      EarlierStagesKeep(c, j + 1, k);
    }
  }

  /** The chained replaceAll calls equal the single-pass escaping: nothing is escaped twice. */
  lemma {:induction false} EscapeHtmlIsEscapeEach(s: string)
    ensures EscapeHtml(s) == EscapeEach(s)
  {
    if s != [] {
      assert s == [s[0]] + s[1..];
      EscapeHtmlAppend([s[0]], s[1..]);
      EscapeHtmlChar(s[0]);
      EscapeHtmlIsEscapeEach(s[1..]);
    }
  }

  /** One character's replacement: no markup, and an `&` only at its start, opening a reference. */
  lemma EscapeCharSafe(c: char)
    ensures NoMarkup(EscapeChar(c))
    ensures forall i :: 0 <= i < |EscapeChar(c)| && EscapeChar(c)[i] == '&' ==> i == 0 && StartsReference(EscapeChar(c))
  {
    if IsReserved(c) {
      ReferenceClean(EscapeChar(c));
    }
  }

  lemma {:induction false} EscapeEachSafe(s: string)
    ensures NoMarkup(EscapeEach(s))
    ensures AmpersandsAreReferences(EscapeEach(s))
  {
    if s != [] {
      EscapeEachSafe(s[1..]);
      var head, tail := EscapeChar(s[0]), EscapeEach(s[1..]);
      EscapeCharSafe(s[0]);
      var t := head + tail;
      forall i | 0 <= i < |t| && t[i] == '&'
        ensures StartsReference(t[i..])
      {
        if i < |head| {
          assert head <= t[i..];
        } else {
          assert t[i..] == tail[i - |head|..];
        }
      }
    }
  }

  /**
   * The escaped text holds no `<`, `>`, `"` or `'`, and every `&` in it opens
   * `&amp;`, `&lt;`, `&gt;`, `&quot;` or `&#039;`.
   */
  lemma EscapeHtmlSafe(s: string)
    ensures NoMarkup(EscapeHtml(s))
    ensures AmpersandsAreReferences(EscapeHtml(s))
  {
    EscapeHtmlIsEscapeEach(s);
    EscapeEachSafe(s);
  }

  /** Text without any of the five reserved characters comes out unchanged. */
  lemma {:induction false} EscapeHtmlIdentity(s: string)
    requires forall i :: 0 <= i < |s| ==> !IsReserved(s[i])
    ensures EscapeHtml(s) == s
  {
    assert '&' !in s && '<' !in s && '>' !in s && '"' !in s && '\'' !in s;
    ReplaceAllAbsent(s, '&', "&amp;");
    ReplaceAllAbsent(s, '<', "&lt;");
    ReplaceAllAbsent(s, '>', "&gt;");
    ReplaceAllAbsent(s, '"', "&quot;");
    ReplaceAllAbsent(s, '\'', "&#039;");
  }

  /** Decoding an escaped character in front of any text gives the character back, then decodes the rest. */
  lemma UnescapeHead(c: char, tail: string)
    ensures Unescape(EscapeChar(c) + tail) == [c] + Unescape(tail)
  {
    var t := EscapeChar(c) + tail;
    assert t[|EscapeChar(c)|..] == tail;
    if IsReserved(c) {
      assert t[0] == '&' && t[1] == EscapeChar(c)[1];
    } else {
      assert t[0] == c;
    }
  }

  lemma {:induction false} UnescapeEscapeEach(s: string)
    ensures Unescape(EscapeEach(s)) == s
  {
    if s != [] {
      UnescapeHead(s[0], EscapeEach(s[1..]));
      UnescapeEscapeEach(s[1..]);
      assert s == [s[0]] + s[1..];
    }
  }

  /** Decoding the five references in the output recovers the input exactly. */
  lemma EscapeHtmlRoundTrip(s: string)
    ensures Unescape(EscapeHtml(s)) == s
  {
    EscapeHtmlIsEscapeEach(s);
    UnescapeEscapeEach(s);
  }
}
