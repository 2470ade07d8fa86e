/**
 * The two ends of the JSON API together: what the page's generate button
 * puts in its query is what `generate_api` decodes, and what the server
 * replies for the breach check and the generator is what the page shows.
 */
module Wire {
  import opened Wrappers
  import P = Page
  import Generator
  import PyInt
  import Pwned

  /**
   * The generator's three boxes survive the trip: `String(checked)` is
   * `true` or `false`, which the server's flag test reads back as the box's state.
   */
  lemma GenerateQueryFlags(p: P.Page)
    ensures Generator.ParseFlag(Generator.ArgGet(P.Query(p), "upper")) == p.genUpper
    ensures Generator.ParseFlag(Generator.ArgGet(P.Query(p), "digits")) == p.genDigits
    ensures Generator.ParseFlag(Generator.ArgGet(P.Query(p), "symbols")) == p.genSymbols
  {
    var q := P.Query(p);
    assert Generator.ArgGet(q, "upper") == Some(P.BoolText(p.genUpper)) by {
      assert q[1..][0] == q[1];
    }
    assert Generator.ArgGet(q, "digits") == Some(P.BoolText(p.genDigits)) by {
      assert q[1..][1..][0] == q[2];
    }
    assert Generator.ArgGet(q, "symbols") == Some(P.BoolText(p.genSymbols)) by {
      assert q[1..][1..][1..][0] == q[3];
    }
    FlagText(p.genUpper);
    FlagText(p.genDigits);
    FlagText(p.genSymbols);
  }

  /** The server reads `true` as on and `false` as off. */
  lemma FlagText(b: bool)
    ensures Generator.ParseFlag(Some(P.BoolText(b))) == b
  {
    Generator.ParseFlagCases(Some(P.BoolText(b)));
  }

  /**
   * The slider's value is the length the server uses when `int` accepts it,
   * 16 otherwise; a slider value written in decimal comes back as its number
   * unless it is longer than the digit limit.
   */
  lemma GenerateQueryLength(p: P.Page)
    ensures Generator.ParseLength(Generator.ArgGet(P.Query(p), "length")) ==
      (if PyInt.ParseInt(p.genLength).Some? then PyInt.ParseInt(p.genLength).value else 16)
    ensures forall n: nat :: p.genLength == PyInt.Decimal(n) ==>
      Generator.ParseLength(Generator.ArgGet(P.Query(p), "length")) ==
        if |PyInt.Decimal(n)| <= PyInt.MaxStrDigits then n else 16
  {
    assert Generator.ArgGet(P.Query(p), "length") == Some(p.genLength);
    Generator.ParseLengthCases(Some(p.genLength));
  }

  /**
   * The generate button adds one request and changes nothing else, and the
   * server decodes that request into the page's settings: the three boxes'
   * states and the slider's value as `int` reads it.
   */
  lemma GenerateClickDecoded(p: P.Page)
    ensures var q := P.GenerateClicked(p);
      && |q.requests| == |p.requests| + 1 && q.requests[..|p.requests|] == p.requests
      && q == p.(requests := q.requests)
    ensures var r := P.GenerateClicked(p).requests[|p.requests|];
      && r.GenerateRequest?
      && Generator.ParseFlag(Generator.ArgGet(r.query, "upper")) == p.genUpper
      && Generator.ParseFlag(Generator.ArgGet(r.query, "digits")) == p.genDigits
      && Generator.ParseFlag(Generator.ArgGet(r.query, "symbols")) == p.genSymbols
      && Generator.ParseLength(Generator.ArgGet(r.query, "length")) ==
           (if PyInt.ParseInt(p.genLength).Some? then PyInt.ParseInt(p.genLength).value else 16)
  {
    var q := P.GenerateClicked(p);
    assert q.requests[|p.requests|] == P.GenerateRequest(P.Query(p));
    assert q.requests[..|p.requests|] == p.requests;
    GenerateQueryFlags(p);
    GenerateQueryLength(p);
  }

  /**
   * The breach reply as the page receives it: a count is a 200 whose
   * `pwned_count` is set; an error is a body with `error` and the reply's
   * status; an exception inside the handler is Flask's HTML error page,
   * on which `resp.json()` rejects.
   */
  function PwnedBody(r: Pwned.PwnedReply): P.PwnedOutcome {
    match r
    case PwnedCount(n) => P.PwnedReplied(true, P.PwnedData(Some(n), None))
    case PwnedError(status, message) => P.PwnedReplied(200 <= status < 300, P.PwnedData(None, Some(message)))
    case Unhandled => P.PwnedThrew
  }

  /**
   * What the page shows for each reply `check_pwned` gives: "not found" for
   * a zero count, the formatted count otherwise, the server's message for an
   * error status, and "Network error" when the handler raised.
   */
  lemma PwnedShown(r: Pwned.PwnedReply, format: int -> string)
    ensures r == Pwned.PwnedCount(0) ==> P.PwnedMessage(PwnedBody(r), format) == P.NotFoundMarkup
    ensures r.PwnedCount? && r.count != 0 ==> P.PwnedMessage(PwnedBody(r), format) == P.FoundMarkup(format(r.count))
    ensures r.PwnedError? && r.status >= 400 && r.message != "" ==>
      P.PwnedMessage(PwnedBody(r), format) == P.ErrorMarkup(r.message)
    ensures r.Unhandled? ==> P.PwnedMessage(PwnedBody(r), format) == P.NetworkErrorMarkup
  {
  }

  /** `jsonify({"password": pwd})`, a 200. */
  function GenerateBody(pwd: string): P.GenerateOutcome {
    P.GenerateReplied(true, Some(pwd))
  }

  /**
   * A password the server generated is never empty, so the page shows it and
   * never falls into "Error generating".
   */
  lemma GeneratedShown(p: P.Page, length: int, pwd: string)
    requires |pwd| == Generator.ClampLength(length)
    ensures P.GenerateSettled(p, GenerateBody(pwd)).generated == pwd
  {
  }
}
