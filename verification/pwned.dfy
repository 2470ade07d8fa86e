/**
 * The breach check of app.py, `check_pwned`: the k-anonymity split of the
 * upper-case hex SHA-1 digest into a 5-character prefix, which is sent to the
 * Have I Been Pwned range API, and a suffix, which is looked up in the
 * response, one `SUFFIX:COUNT` pair per line.
 *
 * The digest and the range response are inputs: `digest` stands for
 * `hashlib.sha1(pwd.encode("utf-8")).hexdigest().upper()` and `range` for
 * the reply `requests.get` obtains for a prefix. The response text arrives
 * already cut into lines (`splitlines`).
 */
module Pwned {
  import opened Wrappers
  import opened PyInt
  import Strength

  /** `sha1[:5], sha1[5:]`, with Python's clamping of slices on short strings. */
  function SplitDigest(digest: string): (parts: (string, string))
    ensures parts.0 + parts.1 == digest
    ensures |parts.0| == if |digest| < 5 then |digest| else 5
  {
    if |digest| < 5 then (digest, "") else (digest[..5], digest[5..])
  }

  /** `s.split(sep)` for a one-character separator: the pieces between separators, at least one. */
  function Split(s: string, sep: char): (parts: seq<string>)
    ensures |parts| >= 1
    ensures forall i :: 0 <= i < |parts| ==> sep !in parts[i]
  {
    if s == [] then [""]
    else
      var rest := Split(s[1..], sep);
      if s[0] == sep then [""] + rest
      else [[s[0]] + rest[0]] + rest[1..]
  }

  /** `sep.join(parts)`. */
  function Join(parts: seq<string>, sep: char): string
    requires |parts| >= 1
  {
    if |parts| == 1 then parts[0] else parts[0] + [sep] + Join(parts[1..], sep)
  }

  /** Joining the pieces with the separator gives the text back. */
  lemma {:induction false} JoinSplit(s: string, sep: char)
    ensures Join(Split(s, sep), sep) == s
  {
    if s != [] {
      var rest := Split(s[1..], sep);
      JoinSplit(s[1..], sep);
      if s[0] == sep {
        assert ([""] + rest)[1..] == rest;
      } else {
        var parts := [[s[0]] + rest[0]] + rest[1..];
        assert parts[1..] == rest[1..];
        if |rest| > 1 {
          assert Join(rest, sep) == rest[0] + [sep] + Join(rest[1..], sep);
        }
      }
      assert s == [s[0]] + s[1..];
    }
  }

  /** A text without the separator is one piece. */
  lemma {:induction false} SplitWithout(s: string, sep: char)
    requires sep !in s
    ensures Split(s, sep) == [s]
  {
    if s != [] {
      assert sep !in s[1..];
      SplitWithout(s[1..], sep);
      assert s == [s[0]] + s[1..];
    }
  }

  /** `h + sep + c` splits into `h` and `c` when neither holds the separator. */
  lemma {:induction false} SplitPair(h: string, c: string, sep: char)
    requires sep !in h && sep !in c
    ensures Split(h + [sep] + c, sep) == [h, c]
  {
    if h == [] {
      assert h + [sep] + c == [sep] + c;
      assert ([sep] + c)[1..] == c;
      SplitWithout(c, sep);
    } else {
      var s := h + [sep] + c;
      assert s[0] == h[0] && s[1..] == h[1..] + [sep] + c;
      assert sep !in h[1..];
      SplitPair(h[1..], c, sep);
      assert [h[0]] + h[1..] == h;
    }
  }

  /** What the lookup of the suffix in the response lines ends with. */
  datatype Lookup =
    | Count(n: int)   // the count on the matching line, or 0
    | Crash           // a `ValueError`: a line that is not one pair, or a count `int` refuses

  /**
   * The loop over `line.split(":")` pairs: the first line whose hash equals
   * the suffix gives the count; the generator is lazy, so lines after it are
   * never split, and a line before it that does not unpack into two pieces
   * raises.
   */
  function RangeLookup(lines: seq<string>, suffix: string): Lookup {
    if lines == [] then Count(0)
    else
      var parts := Split(lines[0], ':');
      if |parts| != 2 then Crash
      else if parts[0] == suffix then
        var n := ParseInt(parts[1]);
        if n.None? then Crash else Count(n.value)
      else RangeLookup(lines[1..], suffix)
  }

  /** The loop with `break`, as the handler runs it. */
  method CountInRange(lines: seq<string>, suffix: string) returns (result: Lookup)
    ensures result == RangeLookup(lines, suffix)
  {
    var count := 0;
    var i := 0;
    while i < |lines|
      invariant 0 <= i <= |lines|
      invariant RangeLookup(lines, suffix) == RangeLookup(lines[i..], suffix)
    {
      assert lines[i..][1..] == lines[i + 1..];
      var parts := Split(lines[i], ':');
      if |parts| != 2 {
        return Crash;
      }
      var h, c := parts[0], parts[1];
      if h == suffix {
        var n := ParseInt(c);
        if n.None? {
          return Crash;
        }
        count := n.value;
        break;
      }
      i := i + 1;
    }
    return Count(count);
  }

  /** The line unpacks into exactly two pieces, as `for h, c in hashes` needs. */
  predicate IsPair(line: string) {
    |Split(line, ':')| == 2
  }

  /** The first `k` lines are pairs whose hash is not the suffix. */
  predicate Skipped(lines: seq<string>, suffix: string, k: nat)
    requires k <= |lines|
  {
    forall j :: 0 <= j < k ==> IsPair(lines[j]) && Split(lines[j], ':')[0] != suffix
  }

  /** Line `i` is the first whose hash is the suffix, and its count reads as `n`. */
  predicate MatchAt(lines: seq<string>, suffix: string, i: int, n: int) {
    && 0 <= i < |lines|
    && Skipped(lines, suffix, i)
    && IsPair(lines[i])
    && Split(lines[i], ':')[0] == suffix
    && ParseInt(Split(lines[i], ':')[1]) == Some(n)
  }

  /**
   * The lookup yields count `n` exactly when the first line with the suffix's
   * hash carries `n`, or when `n` is 0 and every line is a pair with another hash.
   */
  lemma {:induction false} LookupCount(lines: seq<string>, suffix: string, n: int)
    ensures RangeLookup(lines, suffix) == Count(n) <==>
      (exists i :: MatchAt(lines, suffix, i, n)) || (n == 0 && Skipped(lines, suffix, |lines|))
  {
    if lines != [] {
      LookupCount(lines[1..], suffix, n);
      var parts := Split(lines[0], ':');
      if |parts| == 2 && parts[0] != suffix {
        SkipFirst(lines, suffix, n);
      } else if |parts| == 2 && ParseInt(parts[1]) == Some(n) {
        assert MatchAt(lines, suffix, 0, n);
      }
    }
  }

  /** Past a first line that is a pair with another hash, matches and skips are those of the rest. */
  lemma SkipFirst(lines: seq<string>, suffix: string, n: int)
    requires |lines| > 0 && IsPair(lines[0]) && Split(lines[0], ':')[0] != suffix
    ensures (exists i :: MatchAt(lines, suffix, i, n)) <==> (exists i :: MatchAt(lines[1..], suffix, i, n))
    ensures Skipped(lines, suffix, |lines|) <==> Skipped(lines[1..], suffix, |lines| - 1)
  {
    var tail := lines[1..];
    forall i | MatchAt(lines, suffix, i, n) ensures MatchAt(tail, suffix, i - 1, n) {
      assert i != 0;
      assert forall j :: 0 <= j < i - 1 ==> tail[j] == lines[j + 1];
    }
    forall i | MatchAt(tail, suffix, i, n) ensures MatchAt(lines, suffix, i + 1, n) {
      assert forall j :: 1 <= j < i + 1 ==> lines[j] == tail[j - 1];
    }
    if Skipped(tail, suffix, |tail|) {
      assert forall j :: 1 <= j < |lines| ==> lines[j] == tail[j - 1];
    }
  }

  /** One entry of a range response: a hash suffix and its count. */
  datatype Entry = Entry(hash: string, count: nat)

  /** The line the range API writes for an entry. */
  function Format(e: Entry): string {
    e.hash + ":" + Decimal(e.count)
  }

  function FormatAll(entries: seq<Entry>): (lines: seq<string>)
    ensures |lines| == |entries|
    ensures forall i :: 0 <= i < |entries| ==> lines[i] == Format(entries[i])
  {
    if entries == [] then [] else [Format(entries[0])] + FormatAll(entries[1..])
  }

  /** Reference definition: the count of the first entry with the given hash, or 0. */
  function FirstCount(entries: seq<Entry>, suffix: string): nat {
    if entries == [] then 0
    else if entries[0].hash == suffix then entries[0].count
    else FirstCount(entries[1..], suffix)
  }

  /**
   * On a well-formed response (hashes without `:`, and a count within
   * `int`'s digit limit on the lines with the suffix's hash) the lookup never
   * raises and finds the count of the first entry whose hash is the suffix,
   * or 0 when there is none.
   */
  lemma {:induction false} LookupFormatted(entries: seq<Entry>, suffix: string)
    requires forall i :: 0 <= i < |entries| ==> ':' !in entries[i].hash
    requires forall i :: 0 <= i < |entries| && entries[i].hash == suffix ==> |Decimal(entries[i].count)| <= MaxStrDigits
    ensures RangeLookup(FormatAll(entries), suffix) == Count(FirstCount(entries, suffix))
  {
    if entries != [] {
      var e := entries[0];
      var digits := Decimal(e.count);
      assert ':' !in digits;
      SplitPair(e.hash, digits, ':');
      ParseDecimal(e.count);
      assert FormatAll(entries)[1..] == FormatAll(entries[1..]);
      LookupFormatted(entries[1..], suffix);
    }
  }

  /** When no entry has the suffix's hash, the count is 0. */
  lemma NotListedIsZero(entries: seq<Entry>, suffix: string)
    requires forall i :: 0 <= i < |entries| ==> ':' !in entries[i].hash && entries[i].hash != suffix
    ensures RangeLookup(FormatAll(entries), suffix) == Count(0)
  {
    LookupFormatted(entries, suffix);
    NotListedFirstCount(entries, suffix);
  }

  lemma {:induction false} NotListedFirstCount(entries: seq<Entry>, suffix: string)
    requires forall i :: 0 <= i < |entries| ==> entries[i].hash != suffix
    ensures FirstCount(entries, suffix) == 0
  {
    if entries != [] {
      NotListedFirstCount(entries[1..], suffix);
    }
  }

  /** What the range API call returns: a status and the body's lines, or a `RequestException`. */
  datatype RangeResponse = Reached(status: int, lines: seq<string>) | RequestFailed

  /** The reply of the endpoint; `Unhandled` is an exception Flask answers with its own 500 page. */
  datatype PwnedReply = PwnedCount(count: int) | PwnedError(status: nat, message: string) | Unhandled

  /**
   * `check_pwned`: 400 for an empty password; otherwise the prefix of the
   * digest is what the range API is asked for, a failed request is 500
   * "Network error", a status other than 200 is 502 "HIBP API error", and a
   * reached response is looked up for the suffix.
   */
  method CheckPwned(field: Option<string>, digest: string -> string, range: string -> RangeResponse)
    returns (reply: PwnedReply)
    ensures Strength.PasswordField(field) == "" ==> reply == PwnedError(400, "Missing password")
    ensures Strength.PasswordField(field) != "" ==>
      var (prefix, suffix) := SplitDigest(digest(Strength.PasswordField(field)));
      match range(prefix)
      case RequestFailed => reply == PwnedError(500, "Network error")
      case Reached(status, lines) =>
        if status != 200 then reply == PwnedError(502, "HIBP API error")
        else match RangeLookup(lines, suffix)
          case Crash => reply == Unhandled
          case Count(n) => reply == PwnedCount(n)
  {
    var pwd := Strength.PasswordField(field);
    if pwd == "" {
      return PwnedError(400, "Missing password");
    }
    var sha1 := digest(pwd);
    var (prefix, suffix) := SplitDigest(sha1);
    var resp := range(prefix);
    if resp.RequestFailed? {
      return PwnedError(500, "Network error");
    }
    if resp.status != 200 {
      return PwnedError(502, "HIBP API error");
    }
    var result := CountInRange(resp.lines, suffix);
    if result.Crash? {
      return Unhandled;
    }
    return PwnedCount(result.n);
  }
}
