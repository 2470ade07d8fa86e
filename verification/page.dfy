/**
 * The page controller of static/main.js as a state machine over the values
 * its handlers read and write.
 *
 * Each `fetch` splits its handler in two: the part up to the request, which
 * appends the request to `requests`, and the continuation that runs when the
 * response settles, whose outcome is an input. The debounce timer is a
 * pending flag with a "timer fired" event; the copy-label reverts are a count
 * of pending 1500 ms timers. `count.toLocaleString()` is a parameter `format`.
 */
module Page {
  import opened Wrappers
  import Escape

  datatype FieldType = Password | Text

  /** `debounceTimer`: nothing pending, or one timeout of `delay` units. */
  datatype Timer = Idle | Scheduled(delay: nat)

  /** The three texts the script writes into the copy button. */
  datatype CopyLabel = CopyPrompt | Copied | CopyFailed {
    function Text(): string {
      match this
      case CopyPrompt => "Copy"
      case Copied => "Copied"
      case CopyFailed => "Copy Failed"
    }
  }

  /** A request the page has sent. */
  datatype Request =
    | AnalyzeRequest(password: string)                  // POST /api/analyze
    | PwnedRequest(password: string)                    // POST /api/pwned
    | GenerateRequest(query: seq<(string, string)>)     // GET /api/generate?...

  /** The state the handlers read and write. */
  datatype Page = Page(
    value: string,                // passwordInput.value
    fieldType: FieldType,         // passwordInput.type
    toggleLabel: string,          // toggleShow.textContent
    genLength: string,            // genLength.value
    genLenLabel: string,          // genLenLabel.textContent
    genUpper: bool,               // genUpper.checked
    genDigits: bool,              // genDigits.checked
    genSymbols: bool,             // genSymbols.checked
    timer: Timer,                 // debounceTimer
    resBoxVisible: bool,          // resBox.style.display
    resLength: string,            // resLength.textContent
    resEntropy: string,           // resEntropy.textContent
    resRating: string,            // resRating.textContent
    commonAlertVisible: bool,     // commonAlert.style.display
    suggBox: string,              // suggBox.innerHTML
    pwnedResult: string,          // pwnedResult.innerHTML
    generated: string,            // generated.value
    copyLabel: CopyLabel,         // copyBtn.textContent
    pendingReverts: nat,          // copy-label timeouts not yet run
    requests: seq<Request>)       // requests sent so far, oldest first

  const DebounceDelay: nat := 400

  /** The JSON body of a 200 from /api/analyze, each number already as the text it shows. */
  datatype AnalyzeData = AnalyzeData(
    length: string,
    entropy: string,
    rating: string,
    isCommon: bool,
    suggestions: Option<seq<string>>)   // None when `suggestions` is not an array

  /** How an analyze request ends: a parsed 200 body, or a non-ok status or exception. */
  datatype AnalyzeOutcome = AnalyzeOk(data: AnalyzeData) | AnalyzeFailed

  /** The fields of a parsed /api/pwned body; None for a missing field. */
  datatype PwnedData = PwnedData(count: Option<int>, error: Option<string>)

  /** How a breach request ends: a parsed body with `resp.ok`, or an exception from `fetch` or `resp.json()`. */
  datatype PwnedOutcome = PwnedReplied(ok: bool, data: PwnedData) | PwnedThrew

  /** How a generate request ends: `resp.ok` and the `password` field, or an exception. */
  datatype GenerateOutcome = GenerateReplied(ok: bool, password: Option<string>) | GenerateThrew

  /** The events the page reacts to. */
  datatype Event =
    | ToggleClick
    | LengthInput(v: string)
    | OptionsChange(upper: bool, digits: bool, symbols: bool)
    | Keystroke(v: string)
    | TimerFires
    | CheckClick
    | AnalyzeSettles(a: AnalyzeOutcome)
    | PwnedClick
    | PwnedSettles(o: PwnedOutcome)
    | GenerateClick
    | GenerateSettles(g: GenerateOutcome)
    | CopyClick(clipboardOk: bool)
    | CopyRevertFires
    | UseGeneratedClick

  // ---------- markup ----------

  const ListOpen := "<div class=\"alert alert-warning\"><strong>Suggestions:</strong><ul>"
  const ListClose := "</ul></div>"
  const LooksGood := "<div class=\"alert alert-success\">"
    + "\U{2705} Looks good \U{2014} consider using a password manager for storage."
    + "</div>"

  /** `suggestions.map(s => `<li>${escapeHtml(s)}</li>`).join('')`. */
  function Items(suggestions: seq<string>): string {
    if suggestions == [] then ""
    else "<li>" + Escape.EscapeHtml(suggestions[0]) + "</li>" + Items(suggestions[1..])
  }

  /** The suggestion box: the list for a non-empty array, the "Looks good" notice otherwise. */
  function SuggestionsMarkup(suggestions: Option<seq<string>>): string {
    if suggestions.Some? && |suggestions.value| > 0 then ListOpen + Items(suggestions.value) + ListClose
    else LooksGood
  }

  const NotFoundMarkup := "<span class=\"text-success\">Not found in breaches (0)</span>"
  const NetworkErrorMarkup := "<span class=\"text-warning\">Network error</span>"

  function FoundMarkup(shown: string): string {
    "<span class=\"text-danger\">Found " + shown + " times in breaches</span>"
  }

  function ErrorMarkup(message: string): string {
    "<span class=\"text-warning\">Error: " + message + "</span>"
  }

  /** `data.error || 'unknown'`: a missing or empty message reads as `unknown`. */
  function ErrorText(error: Option<string>): string {
    if error.None? || error.value == "" then "unknown" else error.value
  }

  /**
   * The breach result after the response: 0 is "not found", another count
   * "found", a missing count throws in `toLocaleString` and lands in the
   * catch; a non-ok reply shows its error.
   */
  function PwnedMessage(o: PwnedOutcome, format: int -> string): string {
    match o
    case PwnedThrew => NetworkErrorMarkup
    case PwnedReplied(ok, data) =>
      if !ok then ErrorMarkup(ErrorText(data.error))
      else if data.count == Some(0) then NotFoundMarkup
      else if data.count.None? then NetworkErrorMarkup
      else FoundMarkup(format(data.count.value))
  }

  /** `String(b)` of a checkbox's `checked`. */
  function BoolText(b: bool): string {
    if b then "true" else "false"
  }

  /** The `URLSearchParams` of the generate button, in insertion order. */
  function Query(p: Page): seq<(string, string)> {
    [("length", p.genLength), ("upper", BoolText(p.genUpper)),
     ("digits", BoolText(p.genDigits)), ("symbols", BoolText(p.genSymbols))]
  }

  // ---------- handlers ----------

  /** The page once loaded: the field empty and masked, nothing shown, the slider's value on its label. */
  function Init(genLength: string, upper: bool, digits: bool, symbols: bool): Page {
    Page("", Password, "Show", genLength, genLength, upper, digits, symbols, Idle,
         false, "", "", "", false, "", "", "", CopyPrompt, 0, [])
  }

  function Toggle(p: Page): Page {
    if p.fieldType == Password then p.(fieldType := Text, toggleLabel := "Hide")
    else p.(fieldType := Password, toggleLabel := "Show")
  }

  function LengthChanged(p: Page, v: string): Page {
    p.(genLength := v, genLenLabel := v)
  }

  function OptionsChanged(p: Page, upper: bool, digits: bool, symbols: bool): Page {
    p.(genUpper := upper, genDigits := digits, genSymbols := symbols)
  }

  /** The field takes the typed value, and any pending timer is replaced by a fresh one. */
  function Typed(p: Page, v: string): Page {
    p.(value := v, timer := Scheduled(DebounceDelay))
  }

  /** `realtimeAnalyze(pwd, explicit)` up to its request. */
  function Analyze(p: Page, pwd: string, explicit: bool): Page {
    if pwd == "" && !explicit then p.(resBoxVisible := false, pwnedResult := "")
    else p.(requests := p.requests + [AnalyzeRequest(pwd)])
  }

  /** The pending timeout runs `realtimeAnalyze` on the field's value at that moment. */
  function Fired(p: Page): Page {
    if p.timer.Scheduled? then Analyze(p.(timer := Idle), p.value, false) else p
  }

  function Checked(p: Page): Page {
    Analyze(p, p.value, true)
  }

  /** The rest of `realtimeAnalyze` once its response settles. */
  function AnalyzeSettled(p: Page, a: AnalyzeOutcome): Page {
    match a
    case AnalyzeFailed => p
    case AnalyzeOk(d) =>
      p.(resLength := d.length, resEntropy := d.entropy, resRating := d.rating,
         commonAlertVisible := d.isCommon, suggBox := SuggestionsMarkup(d.suggestions),
         resBoxVisible := true, pwnedResult := "")
  }

  function PwnedClicked(p: Page): Page {
    if p.value == "" then p.(pwnedResult := "Enter a password first.")
    else p.(pwnedResult := "Checking...", requests := p.requests + [PwnedRequest(p.value)])
  }

  function PwnedSettled(p: Page, o: PwnedOutcome, format: int -> string): Page {
    p.(pwnedResult := PwnedMessage(o, format))
  }

  function GenerateClicked(p: Page): Page {
    p.(requests := p.requests + [GenerateRequest(Query(p))])
  }

  /** `resp.ok && data.password` shows the password; otherwise an error text. */
  function GenerateSettled(p: Page, g: GenerateOutcome): Page {
    match g
    case GenerateThrew => p.(generated := "Network error")
    case GenerateReplied(ok, password) =>
      if ok && password.Some? && password.value != "" then p.(generated := password.value)
      else p.(generated := "Error generating")
  }

  function CopyClicked(p: Page, clipboardOk: bool): Page {
    if p.generated == "" then p
    else if clipboardOk then p.(copyLabel := Copied, pendingReverts := p.pendingReverts + 1)
    else p.(copyLabel := CopyFailed)
  }

  function CopyReverted(p: Page): Page {
    if p.pendingReverts > 0 then p.(copyLabel := CopyPrompt, pendingReverts := p.pendingReverts - 1) else p
  }

  /** The generated password goes into the field (no input event, so the timer is untouched) and is analyzed. */
  function UseGenerated(p: Page): Page {
    if p.generated == "" then p
    else Analyze(p.(value := p.generated), p.generated, true)
  }

  function Step(p: Page, e: Event, format: int -> string): Page {
    match e
    case ToggleClick => Toggle(p)
    case LengthInput(v) => LengthChanged(p, v)
    case OptionsChange(u, d, s) => OptionsChanged(p, u, d, s)
    case Keystroke(v) => Typed(p, v)
    case TimerFires => Fired(p)
    case CheckClick => Checked(p)
    case AnalyzeSettles(a) => AnalyzeSettled(p, a)
    case PwnedClick => PwnedClicked(p)
    case PwnedSettles(o) => PwnedSettled(p, o, format)
    case GenerateClick => GenerateClicked(p)
    case GenerateSettles(g) => GenerateSettled(p, g)
    case CopyClick(ok) => CopyClicked(p, ok)
    case CopyRevertFires => CopyReverted(p)
    case UseGeneratedClick => UseGenerated(p)
  }

  function Run(p: Page, events: seq<Event>, format: int -> string): Page
    decreases |events|
  {
    if events == [] then p else Run(Step(p, events[0], format), events[1..], format)
  }

  // ---------- invariant ----------

  /** The text of the toggle button for a field type: the action a click would take. */
  function ToggleText(t: FieldType): string {
    if t == Password then "Show" else "Hide"
  }

  /**
   * The toggle label names the action the toggle would take, the length
   * label shows the slider, a pending timer is the debounce delay, and the
   * copy label reads "Copied" only while a revert is pending.
   */
  predicate Valid(p: Page) {
    && p.toggleLabel == ToggleText(p.fieldType)
    && p.genLenLabel == p.genLength
    && (p.timer.Scheduled? ==> p.timer.delay == DebounceDelay)
    && (p.copyLabel == Copied ==> p.pendingReverts > 0)
  }

  lemma InitValid(genLength: string, upper: bool, digits: bool, symbols: bool)
    ensures Valid(Init(genLength, upper, digits, symbols))
  {
  }

  // Each handler keeps the page valid.

  /** The toggle keeps the label naming the other mode. */
  lemma ToggleValid(p: Page)
    requires Valid(p)
    ensures Valid(Toggle(p))
  {
    if p.fieldType == Password {
      assert Toggle(p) == p.(fieldType := Text, toggleLabel := "Hide");
    } else {
      assert Toggle(p) == p.(fieldType := Password, toggleLabel := "Show");
    }
  }

  /** The slider handler keeps its label in step. */
  lemma LengthChangedValid(p: Page, v: string)
    requires Valid(p)
    ensures Valid(LengthChanged(p, v))
  {
  }

  lemma OptionsChangedValid(p: Page, upper: bool, digits: bool, symbols: bool)
    requires Valid(p)
    ensures Valid(OptionsChanged(p, upper, digits, symbols))
  {
  }

  /** A keystroke schedules the timer with the debounce delay. */
  lemma TypedValid(p: Page, v: string)
    requires Valid(p)
    ensures Valid(Typed(p, v))
  {
  }

  /** `realtimeAnalyze` touches nothing the invariant reads. */
  lemma AnalyzeValid(p: Page, pwd: string, explicit: bool)
    requires Valid(p)
    ensures Valid(Analyze(p, pwd, explicit))
  {
    if pwd == "" && !explicit {
      assert Analyze(p, pwd, explicit) == p.(resBoxVisible := false, pwnedResult := "");
    } else {
      assert Analyze(p, pwd, explicit) == p.(requests := p.requests + [AnalyzeRequest(pwd)]);
    }
  }

  lemma FiredValid(p: Page)
    requires Valid(p)
    ensures Valid(Fired(p))
  {
    if p.timer.Scheduled? {
      AnalyzeValid(p.(timer := Idle), p.value, false);
    }
  }

  lemma CheckedValid(p: Page)
    requires Valid(p)
    ensures Valid(Checked(p))
  {
    AnalyzeValid(p, p.value, true);
  }

  lemma AnalyzeSettledValid(p: Page, a: AnalyzeOutcome)
    requires Valid(p)
    ensures Valid(AnalyzeSettled(p, a))
  {
  }

  lemma PwnedClickedValid(p: Page)
    requires Valid(p)
    ensures Valid(PwnedClicked(p))
  {
    if p.value == "" {
      assert PwnedClicked(p) == p.(pwnedResult := "Enter a password first.");
    } else {
      assert PwnedClicked(p) == p.(pwnedResult := "Checking...", requests := p.requests + [PwnedRequest(p.value)]);
    }
  }

  lemma PwnedSettledValid(p: Page, o: PwnedOutcome, format: int -> string)
    requires Valid(p)
    ensures Valid(PwnedSettled(p, o, format))
  {
  }

  lemma GenerateClickedValid(p: Page)
    requires Valid(p)
    ensures Valid(GenerateClicked(p))
  {
  }

  /** Whatever the generated box shows, the page stays valid. */
  lemma GeneratedValid(p: Page, shown: string)
    requires Valid(p)
    ensures Valid(p.(generated := shown))
  {
  }

  lemma GenerateSettledValid(p: Page, g: GenerateOutcome)
    requires Valid(p)
    ensures Valid(GenerateSettled(p, g))
  {
    match g
    case GenerateThrew =>
      GeneratedValid(p, "Network error");
    case GenerateReplied(ok, password) =>
      if ok && password.Some? && password.value != "" {
        GeneratedValid(p, password.value);
      } else {
        GeneratedValid(p, "Error generating");
      }
  }

  /** "Copied" is shown only with a revert counted. */
  lemma CopyClickedValid(p: Page, clipboardOk: bool)
    requires Valid(p)
    ensures Valid(CopyClicked(p, clipboardOk))
  {
  }

  /** A revert restores "Copy" and uncounts itself. */
  lemma CopyRevertedValid(p: Page)
    requires Valid(p)
    ensures Valid(CopyReverted(p))
  {
  }

  lemma UseGeneratedValid(p: Page)
    requires Valid(p)
    ensures Valid(UseGenerated(p))
  {
    if p.generated != "" {
      AnalyzeValid(p.(value := p.generated), p.generated, true);
    }
  }

  lemma StepValid(p: Page, e: Event, format: int -> string)
    requires Valid(p)
    ensures Valid(Step(p, e, format))
  {
    match e
    case ToggleClick => ToggleValid(p);
    case LengthInput(v) => LengthChangedValid(p, v);
    case OptionsChange(u, d, s) => OptionsChangedValid(p, u, d, s);
    case Keystroke(v) => TypedValid(p, v);
    case TimerFires => FiredValid(p);
    case CheckClick => CheckedValid(p);
    case AnalyzeSettles(a) => AnalyzeSettledValid(p, a);
    case PwnedClick => PwnedClickedValid(p);
    case PwnedSettles(o) => PwnedSettledValid(p, o, format);
    case GenerateClick => GenerateClickedValid(p);
    case GenerateSettles(g) => GenerateSettledValid(p, g);
    case CopyClick(ok) => CopyClickedValid(p, ok);
    case CopyRevertFires => CopyRevertedValid(p);
    case UseGeneratedClick => UseGeneratedValid(p);
  }

  /** Every reachable page is valid. */
  lemma {:induction false} RunValid(p: Page, events: seq<Event>, format: int -> string)
    requires Valid(p)
    ensures Valid(Run(p, events, format))
    decreases |events|
  {
    if events != [] {
      StepValid(p, events[0], format);
      RunValid(Step(p, events[0], format), events[1..], format);
    }
  }

  // ---------- toggle ----------

  /** The toggle switches the field between masked and plain, with the label following. */
  lemma ToggleSwitches(p: Page)
    requires Valid(p)
    ensures Toggle(p).fieldType != p.fieldType
    ensures Toggle(p).toggleLabel == "Hide" <==> Toggle(p).fieldType == Text
    ensures Toggle(p).toggleLabel != p.toggleLabel
  {
  }

  /** Two clicks restore the page. */
  lemma ToggleTwice(p: Page)
    requires Valid(p)
    ensures Toggle(Toggle(p)) == p
  {
    ToggleValid(p);
    if p.fieldType == Password {
      assert Toggle(p) == p.(fieldType := Text, toggleLabel := "Hide");
    } else {
      assert Toggle(p) == p.(fieldType := Password, toggleLabel := "Show");
    }
  }

  // ---------- debounce ----------

  /** A burst of keystrokes. */
  function TypeAll(p: Page, vs: seq<string>): Page
    decreases |vs|
  {
    if vs == [] then p else TypeAll(Typed(p, vs[0]), vs[1..])
  }

  /** A keystroke leaves exactly one pending timer, of the debounce delay, and sends nothing. */
  lemma KeystrokeSchedules(p: Page, v: string)
    ensures Typed(p, v).timer == Scheduled(DebounceDelay)
    ensures Typed(p, v).value == v
    ensures Typed(p, v).requests == p.requests
  {
  }

  /**
   * After a burst of keystrokes the field holds the last value, one timer is
   * pending, and nothing has been sent.
   */
  lemma {:induction false} BurstSchedulesOnce(p: Page, vs: seq<string>)
    requires |vs| > 0
    ensures TypeAll(p, vs).value == vs[|vs| - 1]
    ensures TypeAll(p, vs).timer == Scheduled(DebounceDelay)
    ensures TypeAll(p, vs).requests == p.requests
    decreases |vs|
  {
    if |vs| > 1 {
      BurstSchedulesOnce(Typed(p, vs[0]), vs[1..]);
    }
  }

  /**
   * When the timer after a burst fires, exactly one analysis of the last
   * value is sent (none when that value is empty), and a second firing does
   * nothing.
   */
  lemma BurstFiresOnce(p: Page, vs: seq<string>)
    requires |vs| > 0
    ensures var q := Fired(TypeAll(p, vs));
      && q.timer == Idle
      && q.requests == p.requests + (if vs[|vs| - 1] == "" then [] else [AnalyzeRequest(vs[|vs| - 1])])
      && Fired(q) == q
  {
    BurstSchedulesOnce(p, vs);
  }

  // ---------- analysis ----------

  /** Without a value and not asked for explicitly: the result panel and the breach text are cleared, nothing is sent. */
  lemma EmptyShortcut(p: Page)
    ensures Analyze(p, "", false) == p.(resBoxVisible := false, pwnedResult := "")
  {
  }

  /** The check button and the use-generated button send a request even for an empty value. */
  lemma ExplicitAlwaysSends(p: Page, pwd: string)
    ensures Analyze(p, pwd, true).requests == p.requests + [AnalyzeRequest(pwd)]
    ensures Analyze(p, pwd, true).resBoxVisible == p.resBoxVisible
  {
  }

  /**
   * A parsed reply shows the panel, clears the breach text and shows the
   * common-pattern alert exactly when flagged; a failure changes nothing.
   */
  lemma AnalyzeSettledShows(p: Page, a: AnalyzeOutcome)
    ensures a.AnalyzeFailed? ==> AnalyzeSettled(p, a) == p
    ensures a.AnalyzeOk? ==>
      var q := AnalyzeSettled(p, a);
      && q.resLength == a.data.length && q.resEntropy == a.data.entropy && q.resRating == a.data.rating
      && q.resBoxVisible && q.pwnedResult == ""
      && (q.commonAlertVisible <==> a.data.isCommon)
      && q.suggBox == SuggestionsMarkup(a.data.suggestions)
      && q == p.(resLength := q.resLength, resEntropy := q.resEntropy, resRating := q.resRating,
                 commonAlertVisible := q.commonAlertVisible, suggBox := q.suggBox,
                 resBoxVisible := q.resBoxVisible, pwnedResult := q.pwnedResult)
  {
  }

  /** Rendering the same reply twice leaves the page as rendering it once. */
  lemma AnalyzeSettledIdempotent(p: Page, a: AnalyzeOutcome)
    ensures AnalyzeSettled(AnalyzeSettled(p, a), a) == AnalyzeSettled(p, a)
  {
  }

  /** The suggestion box holds a list exactly when the suggestions are a non-empty array, and the notice otherwise. */
  lemma SuggestionsMarkupCases(suggestions: Option<seq<string>>)
    ensures SuggestionsMarkup(suggestions) != LooksGood <==> suggestions.Some? && |suggestions.value| > 0
  {
    var m := SuggestionsMarkup(suggestions);
    if suggestions.Some? && |suggestions.value| > 0 {
      assert m[24] == ListOpen[24] == 'w';
      assert LooksGood[24] == 's';
    }
  }

  /** The number of occurrences of `c` in `s`. */
  function Occurrences(s: string, c: char): nat {
    if s == [] then 0 else (if s[0] == c then 1 else 0) + Occurrences(s[1..], c)
  }

  lemma {:induction false} OccurrencesAppend(a: string, b: string, c: char)
    ensures Occurrences(a + b, c) == Occurrences(a, c) + Occurrences(b, c)
  {
    if a != [] {
      assert (a + b)[1..] == a[1..] + b;
      OccurrencesAppend(a[1..], b, c);
    } else {
      assert a + b == b;
    }
  }

  lemma {:induction false} OccurrencesNone(s: string, c: char)
    requires c !in s
    ensures Occurrences(s, c) == 0
  {
    if s != [] {
      assert c !in s[1..];
      OccurrencesNone(s[1..], c);
    }
  }

  /**
   * Whatever the suggestions hold, each item adds exactly the two `<` of its
   * own `<li>` and `</li>`: no suggestion text can open a tag.
   */
  lemma {:induction false} ItemsTags(suggestions: seq<string>)
    ensures Occurrences(Items(suggestions), '<') == 2 * |suggestions|
  {
    if suggestions != [] {
      var e := Escape.EscapeHtml(suggestions[0]);
      Escape.EscapeHtmlSafe(suggestions[0]);
      assert '<' !in e;
      OccurrencesNone(e, '<');
      OccurrencesAppend("<li>", e, '<');
      OccurrencesAppend("<li>" + e, "</li>", '<');
      OccurrencesAppend("<li>" + e + "</li>", Items(suggestions[1..]), '<');
      assert Occurrences("<li>", '<') == 1;
      assert Occurrences("</li>", '<') == 1;
      ItemsTags(suggestions[1..]);
    }
  }

  // ---------- breach check ----------

  /** An empty field asks for a password and sends nothing; otherwise "Checking..." and one request for the value. */
  lemma PwnedClickCases(p: Page)
    ensures p.value == "" ==> PwnedClicked(p) == p.(pwnedResult := "Enter a password first.")
    ensures p.value != "" ==>
      && PwnedClicked(p).pwnedResult == "Checking..."
      && PwnedClicked(p).requests == p.requests + [PwnedRequest(p.value)]
  {
  }

  /**
   * The five ends of the breach check show five different kinds of text: a
   * count of 0 as not found, another count as found with its formatted
   * number, a non-ok reply as its error, and an exception or a missing count
   * as a network error.
   */
  lemma PwnedMessageCases(o: PwnedOutcome, format: int -> string)
    ensures PwnedMessage(o, format) == NotFoundMarkup <==> o.PwnedReplied? && o.ok && o.data.count == Some(0)
    ensures PwnedMessage(o, format) == NetworkErrorMarkup <==>
      o.PwnedThrew? || (o.ok && o.data.count.None?)
    ensures o.PwnedReplied? && !o.ok ==> PwnedMessage(o, format) == ErrorMarkup(ErrorText(o.data.error))
    ensures o.PwnedReplied? && o.ok && o.data.count.Some? && o.data.count.value != 0 ==>
      PwnedMessage(o, format) == FoundMarkup(format(o.data.count.value))
  {
    var m := PwnedMessage(o, format);
    if o.PwnedReplied? && !o.ok {
      assert m[18] == 'w' && NotFoundMarkup[18] == 's';
      assert m[27] == 'E' && NetworkErrorMarkup[27] == 'N';
    } else if o.PwnedReplied? && o.data.count.Some? && o.data.count.value != 0 {
      assert m[18] == 'd' && NotFoundMarkup[18] == 's' && NetworkErrorMarkup[18] == 'w';
    }
  }

  // ---------- generator ----------

  /** The field shows the password exactly for an ok reply with a non-empty password; otherwise an error text. */
  lemma GenerateSettledCases(p: Page, g: GenerateOutcome)
    ensures g.GenerateReplied? && g.ok && g.password.Some? && g.password.value != "" ==>
      GenerateSettled(p, g).generated == g.password.value
    ensures g.GenerateReplied? && !(g.ok && g.password.Some? && g.password.value != "") ==>
      GenerateSettled(p, g).generated == "Error generating"
    ensures g.GenerateThrew? ==> GenerateSettled(p, g).generated == "Network error"
    ensures GenerateSettled(p, g) == p.(generated := GenerateSettled(p, g).generated)
  {
  }

  /** Copy and use-generated do nothing while the generated field is empty. */
  lemma EmptyGeneratedIgnored(p: Page, ok: bool)
    requires p.generated == ""
    ensures CopyClicked(p, ok) == p
    ensures UseGenerated(p) == p
  {
  }

  /**
   * A successful copy shows "Copied" and schedules one revert, whose timeout
   * brings back "Copy".
   */
  lemma CopySucceeds(p: Page)
    requires p.generated != ""
    ensures CopyClicked(p, true).copyLabel == Copied
    ensures CopyClicked(p, true).pendingReverts == p.pendingReverts + 1
    ensures CopyReverted(CopyClicked(p, true)).copyLabel == CopyPrompt
    ensures CopyReverted(CopyClicked(p, true)) == CopyClicked(p, true).(copyLabel := CopyPrompt, pendingReverts := p.pendingReverts)
  {
  }

  /** A failed copy shows "Copy Failed" and schedules no revert. */
  lemma CopyFailureNoRevert(p: Page)
    requires p.generated != ""
    ensures CopyClicked(p, false).copyLabel == CopyFailed
    ensures CopyClicked(p, false).pendingReverts == p.pendingReverts
  {
  }

  /**
   * The revert timer of an earlier successful copy still runs after a later
   * failure, so it replaces "Copy Failed" by "Copy".
   */
  lemma EarlierRevertOverridesFailure(p: Page)
    requires p.generated != ""
    ensures CopyReverted(CopyClicked(CopyClicked(p, true), false)).copyLabel == CopyPrompt
  {
  }

  /** Use-generated puts the password in the field and sends its analysis; the debounce timer is left alone. */
  lemma UseGeneratedAnalyzes(p: Page)
    requires p.generated != ""
    ensures UseGenerated(p).value == p.generated
    ensures UseGenerated(p).requests == p.requests + [AnalyzeRequest(p.generated)]
    ensures UseGenerated(p).timer == p.timer
  {
  }
}
