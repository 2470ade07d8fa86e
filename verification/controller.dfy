/**
 * The page script of static/main.js as an object. The element properties
 * the script reads and writes are grouped by the part of the page they
 * belong to: the password field with its show/hide button, the result box,
 * the breach line and the generator panel. The debounce timer and the
 * requests sent are fields of their own. Each listener is a method that
 * updates these fields in the order the script does.
 *
 * Every method is proved to take the page to exactly the state that the
 * matching handler of `Page` describes, and to keep `Page.Valid`.
 */
module Ui {
  import opened Wrappers
  import opened Model = Page

  /** `passwordInput.value`, `passwordInput.type` and `toggleShow.textContent`. */
  datatype PasswordBox = PasswordBox(value: string, fieldType: FieldType, toggleLabel: string)

  /** `resultBox` and what it shows. */
  datatype ResultBox = ResultBox(
    visible: bool,              // resBox.style.display
    length: string,             // resLength.textContent
    entropy: string,            // resEntropy.textContent
    rating: string,             // resRating.textContent
    commonAlertVisible: bool,   // commonAlert.style.display
    suggestions: string)        // suggBox.innerHTML

  /** The generator's controls and output. */
  datatype GeneratorPanel = GeneratorPanel(
    length: string,             // genLength.value
    lengthLabel: string,        // genLenLabel.textContent
    upper: bool,                // genUpper.checked
    digits: bool,               // genDigits.checked
    symbols: bool,              // genSymbols.checked
    generated: string,          // generated.value
    copyLabel: CopyLabel,       // copyBtn.textContent
    pendingReverts: nat)        // copy-label timeouts not yet run

  class Controller {
    var input: PasswordBox
    var timer: Timer
    var result: ResultBox
    var pwnedResult: string
    var generator: GeneratorPanel
    var requests: seq<Request>

    /** The page as a value. */
    function Snapshot(): Page
      reads this
    {
      Model.Page(input.value, input.fieldType, input.toggleLabel,
                 generator.length, generator.lengthLabel, generator.upper, generator.digits, generator.symbols,
                 timer,
                 result.visible, result.length, result.entropy, result.rating, result.commonAlertVisible,
                 result.suggestions,
                 pwnedResult,
                 generator.generated, generator.copyLabel, generator.pendingReverts,
                 requests)
    }

    predicate Valid()
      reads this
    {
      Model.Valid(Snapshot())
    }

    /** `DOMContentLoaded`: the elements as loaded, then the length label set from the slider. */
    constructor (length: string, upper: bool, digits: bool, symbols: bool)
      ensures Snapshot() == Init(length, upper, digits, symbols)
      ensures Valid()
    {
      input := PasswordBox("", Password, "Show");
      timer := Idle;
      result := ResultBox(false, "", "", "", false, "");
      pwnedResult := "";
      generator := GeneratorPanel(length, "", upper, digits, symbols, "", CopyPrompt, 0);
      requests := [];
      new;
      generator := generator.(lengthLabel := generator.length);
      InitValid(length, upper, digits, symbols);
    }

    method OnToggle()
      requires Valid()
      modifies this
      ensures Snapshot() == Toggle(old(Snapshot()))
      ensures Valid()
    {
      ToggleValid(Snapshot());
      if input.fieldType == Password {
        input := input.(fieldType := Text);
        input := input.(toggleLabel := "Hide");
      } else {
        input := input.(fieldType := Password);
        input := input.(toggleLabel := "Show");
      }
    }

    method OnLengthInput(v: string)
      requires Valid()
      modifies this
      ensures Snapshot() == LengthChanged(old(Snapshot()), v)
      ensures Valid()
    {
      LengthChangedValid(Snapshot(), v);
      generator := generator.(length := v);
      generator := generator.(lengthLabel := generator.length);
    }

    /** The browser ticking or unticking the three generator boxes. */
    method OnOptionsChange(upper: bool, digits: bool, symbols: bool)
      requires Valid()
      modifies this
      ensures Snapshot() == OptionsChanged(old(Snapshot()), upper, digits, symbols)
      ensures Valid()
    {
      OptionsChangedValid(Snapshot(), upper, digits, symbols);
      generator := generator.(upper := upper, digits := digits, symbols := symbols);
    }

    /** The field's `input` listener: the pending timeout is cleared and a new one set. */
    method OnKeystroke(v: string)
      requires Valid()
      modifies this
      ensures Snapshot() == Typed(old(Snapshot()), v)
      ensures Valid()
    {
      TypedValid(Snapshot(), v);
      input := input.(value := v);
      timer := Idle;
      timer := Scheduled(DebounceDelay);
    }

    /** The debounce timeout runs. */
    method OnTimerFired()
      requires Valid()
      modifies this
      ensures Snapshot() == Fired(old(Snapshot()))
      ensures Valid()
    {
      FiredValid(Snapshot());
      if timer.Scheduled? {
        timer := Idle;
        RealtimeAnalyze(input.value, false);
      }
    }

    method OnCheckClick()
      requires Valid()
      modifies this
      ensures Snapshot() == Checked(old(Snapshot()))
      ensures Valid()
    {
      CheckedValid(Snapshot());
      RealtimeAnalyze(input.value, true);
    }

    /** `realtimeAnalyze` up to its `fetch`. */
    method RealtimeAnalyze(pwd: string, explicit: bool)
      requires Valid()
      modifies this
      ensures Snapshot() == Analyze(old(Snapshot()), pwd, explicit)
      ensures Valid()
    {
      AnalyzeValid(Snapshot(), pwd, explicit);
      if pwd == "" && !explicit {
        result := result.(visible := false);
        pwnedResult := "";
        return;
      }
      requests := requests + [AnalyzeRequest(pwd)];
    }

    /** The rest of `realtimeAnalyze`; a failure is only logged. */
    method OnAnalyzeSettled(a: AnalyzeOutcome)
      requires Valid()
      modifies this
      ensures Snapshot() == AnalyzeSettled(old(Snapshot()), a)
      ensures Valid()
    {
      AnalyzeSettledValid(Snapshot(), a);
      if a.AnalyzeOk? {
        var data := a.data;
        result := result.(length := data.length);
        result := result.(entropy := data.entropy);
        result := result.(rating := data.rating);
        result := result.(commonAlertVisible := data.isCommon);
        result := result.(suggestions := SuggestionsMarkup(data.suggestions));
        result := result.(visible := true);
        pwnedResult := "";
      }
    }

    /** The breach button up to its `fetch`. */
    method OnPwnedClick()
      requires Valid()
      modifies this
      ensures Snapshot() == PwnedClicked(old(Snapshot()))
      ensures Valid()
    {
      PwnedClickedValid(Snapshot());
      pwnedResult := "";
      var pwd := input.value;
      if pwd == "" {
        pwnedResult := "Enter a password first.";
        return;
      }
      pwnedResult := "Checking...";
      requests := requests + [PwnedRequest(pwd)];
    }

    /** The rest of the breach button's listener. */
    method OnPwnedSettled(o: PwnedOutcome, format: int -> string)
      requires Valid()
      modifies this
      ensures Snapshot() == PwnedSettled(old(Snapshot()), o, format)
      ensures Valid()
    {
      PwnedSettledValid(Snapshot(), o, format);
      if o.PwnedThrew? {
        pwnedResult := NetworkErrorMarkup;
        return;
      }
      var data := o.data;
      if o.ok {
        var count := data.count;
        if count == Some(0) {
          pwnedResult := NotFoundMarkup;
        } else if count.None? {
          // `undefined.toLocaleString()` throws into the catch
          pwnedResult := NetworkErrorMarkup;
        } else {
          pwnedResult := FoundMarkup(format(count.value));
        }
      } else {
        pwnedResult := ErrorMarkup(ErrorText(data.error));
      }
    }

    /** The generate button up to its `fetch`. */
    method OnGenerateClick()
      requires Valid()
      modifies this
      ensures Snapshot() == GenerateClicked(old(Snapshot()))
      ensures Valid()
    {
      GenerateClickedValid(Snapshot());
      var length := generator.length;
      var params := [("length", length), ("upper", BoolText(generator.upper)),
                     ("digits", BoolText(generator.digits)), ("symbols", BoolText(generator.symbols))];
      requests := requests + [GenerateRequest(params)];
    }

    /** The rest of the generate button's listener. */
    method OnGenerateSettled(g: GenerateOutcome)
      requires Valid()
      modifies this
      ensures Snapshot() == GenerateSettled(old(Snapshot()), g)
      ensures Valid()
    {
      GenerateSettledValid(Snapshot(), g);
      if g.GenerateThrew? {
        generator := generator.(generated := "Network error");
      } else if g.ok && g.password.Some? && g.password.value != "" {
        generator := generator.(generated := g.password.value);
      } else {
        generator := generator.(generated := "Error generating");
      }
    }

    /** The copy button, with the clipboard write's outcome as input. */
    method OnCopyClick(clipboardOk: bool)
      requires Valid()
      modifies this
      ensures Snapshot() == CopyClicked(old(Snapshot()), clipboardOk)
      ensures Valid()
    {
      CopyClickedValid(Snapshot(), clipboardOk);
      if generator.generated == "" {
        return;
      }
      if clipboardOk {
        generator := generator.(copyLabel := Copied);
        generator := generator.(pendingReverts := generator.pendingReverts + 1);
      } else {
        generator := generator.(copyLabel := CopyFailed);
      }
    }

    /** One of the pending 1500 ms timeouts of the copy button runs. */
    method OnCopyRevert()
      requires Valid()
      modifies this
      ensures Snapshot() == CopyReverted(old(Snapshot()))
      ensures Valid()
    {
      CopyRevertedValid(Snapshot());
      if generator.pendingReverts > 0 {
        generator := generator.(copyLabel := CopyPrompt, pendingReverts := generator.pendingReverts - 1);
      }
    }

    method OnUseGenerated()
      requires Valid()
      modifies this
      ensures Snapshot() == UseGenerated(old(Snapshot()))
      ensures Valid()
    {
      UseGeneratedValid(Snapshot());
      if generator.generated == "" {
        return;
      }
      input := input.(value := generator.generated);
      RealtimeAnalyze(generator.generated, true);
    }

    /** The listener an event reaches. */
    method Dispatch(e: Event, format: int -> string)
      requires Valid()
      modifies this
      ensures Snapshot() == Step(old(Snapshot()), e, format)
      ensures Valid()
    {
      match e
      case ToggleClick => OnToggle();
      case LengthInput(v) => OnLengthInput(v);
      case OptionsChange(u, d, s) => OnOptionsChange(u, d, s);
      case Keystroke(v) => OnKeystroke(v);
      case TimerFires => OnTimerFired();
      case CheckClick => OnCheckClick();
      case AnalyzeSettles(a) => OnAnalyzeSettled(a);
      case PwnedClick => OnPwnedClick();
      case PwnedSettles(o) => OnPwnedSettled(o, format);
      case GenerateClick => OnGenerateClick();
      case GenerateSettles(g) => OnGenerateSettled(g);
      case CopyClick(ok) => OnCopyClick(ok);
      case CopyRevertFires => OnCopyRevert();
      case UseGeneratedClick => OnUseGenerated();
    }
  }
}
