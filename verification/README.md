# Password strength analyzer — a Dafny model

The analyzer is a small Flask application with a browser front end.

- The server (`app.py`) has three JSON endpoints:
  - `/api/analyze` rates a password by its character-class entropy, flags a common pattern and lists suggestions;
  - `/api/generate` draws a random password from a charset chosen by query flags;
  - `/api/pwned` asks the Have I Been Pwned range API about a password.
    It sends only the first five hex digits of the SHA-1 digest, a k-anonymity split.
- The page script (`static/main.js`) does four things:
  - it wires the buttons and a debounced input listener to those endpoints;
  - it renders the replies into the page;
  - it escapes suggestion texts before inserting them as HTML;
  - it manages the show/hide toggle, the length label and the copy button.

This project models both sides:

| file | module | models |
|---|---|---|
| `wrappers.dfy` | `Wrappers` | `Option` |
| `ascii.dfy` | `Ascii` | the character classes used by `str.islower`, `isupper`, `isdigit` and `isalnum`; `str.lower`; the substring test `in` |
| `pyint.dfy` | `PyInt` | Python's `int()` on a string: surrounding ASCII white space (tab to carriage return, and space), a sign, digits with single underscores. Also decimal rendering, with the round trip between the two |
| `strength.dfy` | `Strength` | `password_entropy`'s classification loop and charset size, `rate_password`, `contains_common_substring`, `analyze_password` |
| `generator.dfy` | `Generator` | `generate_password` and the query decoding of `generate_api` |
| `pwned.dfy` | `Pwned` | `check_pwned`: the digest split, the `SUFFIX:COUNT` line lookup with its early `break`, and the error replies |
| `escape.dfy` | `Escape` | `escapeHtml` as the five chained `replaceAll` calls, proved equal to a one-pass escaper, markup-free and invertible |
| `page.dfy` | `Page` | the page as a value: every listener as a transition function, the event step, and the invariants and properties of the transitions |
| `controller.dfy` | `Ui` | the script as an object (`Ui.Controller`) whose fields are the element properties, with one method per listener. Each method is proved to reach the state that `Page` describes |
| `wire.dfy` | `Wire` | both ends together: the generator query the page sends is decoded by the server into the page's settings, and the server's replies are rendered by the page |

Each `fetch` splits a listener in two:

- the part up to the request, which appends to the `requests` the page has sent;
- the continuation, which runs when the response settles and takes the response's outcome as input.

The debounce timeout and the copy button's 1500 ms timeouts are explicit "timer fires" events.

## Model

| member | source | states |
|---|---|---|
| Ascii.ToLowerChar | app.py:66 | lower-casing maps each upper-case letter to its own lower-case letter (the same distance from `a` as from `A`), keeps digits digits, and changes nothing but upper-case letters |
| Ascii.ToLower | app.py:66 | `s.lower()` keeps the length, lower-cases each character in place and leaves no upper-case letter |
| PyInt.StripLeft | app.py:141 | what `int()` ignores at the front is a prefix made only of the white space it skips (tab to carriage return, and space); what remains starts with another character |
| PyInt.StripRight | app.py:141 | what `int()` ignores at the end is a suffix made only of the white space it skips; what remains ends with another character |
| PyInt.ParseInt | app.py:141 | `int()` on a text: surrounding tab, line feed, vertical tab, form feed, carriage return and space stripped, an optional sign, then a run of digits with single underscores between them and at most 4300 digits; anything else is refused (`None`). Its properties are the lemmas below |
| PyInt.DigitCountAll | app.py:141 | a run without underscores has as many digits as characters, the count the digit limit is applied to |
| PyInt.ParsePlain | app.py:141 | an unsigned digit run reads as its value exactly when it has at most 4300 digits, and is refused otherwise |
| PyInt.ParseNeedsDigit | app.py:141 | `int()` accepts a text only if it contains a digit |
| PyInt.DecimalValue | app.py:141 | the digits of the decimal rendering of `n` have value `n` |
| PyInt.ParseDecimal | app.py:141 | `int()` reads the decimal rendering of every natural number back as that number when it has at most 4300 digits, and refuses it otherwise |
| PyInt.ParseNegativeDecimal | app.py:141 | `int()` reads a minus sign followed by a decimal rendering of at most 4300 digits as the negative number, and refuses a longer one |
| PyInt.ParseNegativeRun | app.py:141 | a minus sign before a digit run without underscores reads as the negated value when the run has at most 4300 digits |
| PyInt.ParseIgnoresLeadingSpace | app.py:141 | one leading white-space character that `int()` skips does not change what it reads |
| PyInt.ParseRefusesSeparator | app.py:141 | a text led by one of the separators `\x1c`-`\x1f`, which `int()` does not skip, is refused |
| PyInt.StrippedRefused | app.py:141 | a stripped text starting with neither a sign nor a digit is refused |
| Strength.Classify | app.py:27-35 | each character sets exactly one flag: lower, upper, digit, or symbol for every non-alphanumeric character |
| Strength.EntropyCharset | app.py:19-45 | the flag loop and the sums give 26/26/10/32 per class present, at most 94, and 0 exactly for the empty password |
| Strength.Rate | app.py:50-61 | the five bands below 28, 28–36, 36–60, 60–128 and from 128 on, each as an if-and-only-if |
| Strength.RateMonotone | app.py:50-61 | more entropy never gives a weaker rating |
| Strength.LabelInjective | app.py:52-61 | the five labels are distinct, so a label names one band |
| Strength.ContainsCommonSubstring | app.py:64-72 | the result is a common entry of length at least 4 that occurs in the lowered password, or `None` when no entry does |
| Strength.CommonSearchComplete | app.py:64-72 | the search finds an entry exactly when a qualifying entry exists |
| Strength.Suggestions | app.py:108-127 | the handler's suggestion list: the common-pattern entry when a pattern was found, then one entry per missing requirement in the handler's order; its properties are SuggestionsOrdered, SuggestionsMembership and SuggestionTexts |
| Strength.AppendOrdered | app.py:112-127 | appending an entry that comes later in the fixed order keeps the list ordered and only extends it |
| Strength.ComposeOrdered | app.py:117-127 | the five composition steps give at most six entries, in order, starting with whatever came before |
| Strength.ComposeMembers | app.py:117-127 | each composition entry is in the list exactly when its flag is set |
| Strength.SuggestionsOrdered | app.py:108-127 | at most six suggestions, in the handler's order with no repeats; the common-pattern entry is first when a pattern was found and absent otherwise |
| Strength.SuggestionsMembership | app.py:118-127 | "at least 8", lower case, upper case, numbers and symbols are each suggested exactly when the password lacks them |
| Strength.Texts | app.py:113-134 | the `suggestions` strings `jsonify` sends, one per entry; TextsMembership and SuggestionTexts state its properties |
| Strength.TextInjective | app.py:113-127 | distinct suggestions have distinct texts, so a reply text names one suggestion |
| Strength.TextsMembership | app.py:113-127 | a suggestion's text is in the reply exactly when the suggestion is in the list |
| Strength.SuggestionTexts | app.py:108-134 | the `suggestions` strings of the reply: at most six, no repeats, the common-pattern text first when a pattern was found, and each of the five requirement texts present exactly when the password misses that requirement |
| Strength.AnalyzePassword | app.py:99-135 | 400 "Missing password" exactly for an absent or empty password; otherwise the length, the entropy of the class charset, its rating label, the common flag and the suggestion texts |
| Generator.Run | app.py:78-82 | a run of consecutive ASCII codes has the requested length and the expected code at every position |
| Generator.RunMembership | app.py:78-82 | a character is in a run exactly when its code is in the run's range |
| Generator.ClassConstants | app.py:78-82 | `ascii_lowercase`, `ascii_uppercase` and `digits` hold exactly the lower-case letters, upper-case letters and digits |
| Generator.SymbolsAreSymbols | app.py:84 | the symbol string has 25 characters, none of them alphanumeric |
| Generator.Charset | app.py:77-84 | the concatenation `generate_password` draws from; what it holds is CharsetMembership |
| Generator.CharsetMembership | app.py:77-84 | the charset always holds the lower-case letters; it holds the upper-case letters, digits and symbols exactly when their flags are set, and nothing else |
| Generator.ClampLength | app.py:86-87 | the length drawn is the requested one, raised to 4 when smaller |
| Generator.GeneratePassword | app.py:77-89 | the password has the clamped length and every character comes from the flags' charset |
| Generator.GeneratedClasses | app.py:77-89 | a generated password uses only the classes its flags allow, so its analyzer charset size is at most that of the flags |
| Generator.ArgGet | app.py:140-147 | a query argument is absent exactly when no pair has its key, and a present one is the value of the first pair with the key |
| Generator.ParseLength | app.py:139-142 | the `try: int(...) except ValueError: 16` of the length argument; its cases are ParseLengthCases |
| Generator.ParseFlag | app.py:145-147 | `request.args.get(key, "true").lower() == "true"`; its cases are ParseFlagCases |
| Generator.ParseLengthCases | app.py:139-142 | the length is 16 when the argument is absent or `int` refuses it, and `int`'s value otherwise; a decimal argument gives its number unless it has more than 4300 digits, when it gives 16 |
| Generator.ParseLengthRefusesSeparator | app.py:140-143 | a length argument led by a separator `\x1c`-`\x1f` makes `int()` raise, so the length falls back to 16 |
| Generator.ParseFlagCases | app.py:145-147 | a flag is on exactly when its argument is absent or spells `true` in any mix of cases |
| Generator.GenerateApi | app.py:138-150 | the reply password has the clamped decoded length and draws only from the charset of the decoded flags |
| Pwned.SplitDigest | app.py:161-162 | the prefix and suffix concatenate to the digest, and the prefix has five characters, or all of a shorter digest |
| Pwned.Split | app.py:170 | `split(":")` gives at least one piece and no piece contains the separator |
| Pwned.JoinSplit | app.py:170 | joining the pieces with the separator gives the line back |
| Pwned.SplitPair | app.py:170-171 | a `hash:count` line without other colons splits into exactly its hash and count |
| Pwned.RangeLookup | app.py:170-175 | the range lookup as a recursion over the lines: a line that does not split into two pieces, or a matching line whose count `int` refuses, raises; the first matching line gives its count; no match gives 0. Its properties are LookupCount and LookupFormatted |
| Pwned.CountInRange | app.py:170-175 | the loop with `break` computes the recursive lookup `RangeLookup` |
| Pwned.LookupCount | app.py:170-175 | the lookup yields count `n` exactly when the first line with the suffix carries `n` and every line before it is a pair, or `n` is 0 and every line is a pair with another hash |
| Pwned.SkipFirst | app.py:170-174 | past a non-matching pair, the matches and skips are those of the remaining lines |
| Pwned.FormatAll | app.py:165-170 | a well-formed range response has one `HASH:COUNT` line per entry, in order |
| Pwned.LookupFormatted | app.py:170-175 | on a well-formed response whose counts for the suffix fit `int`'s digit limit, the lookup never raises and returns the count of the first entry with the suffix, or 0 |
| Pwned.NotListedIsZero | app.py:170-177 | a suffix the response does not list has count 0 |
| Pwned.NotListedFirstCount | app.py:170-177 | the reference count of an unlisted hash is 0 |
| Pwned.CheckPwned | app.py:153-180 | 400 for an absent or empty password; otherwise the range API is asked for the digest's prefix. A request failure is 500 "Network error", a status other than 200 is 502 "HIBP API error", a line that does not unpack or a count `int` refuses is an unhandled exception, and otherwise the suffix's count is returned |
| Escape.ReplaceAll | static/main.js:161-166 | `replaceAll` of one character by a text, left to right; its properties are ReplaceAllAppend, ReplaceAllAbsent and ReplaceAllSingle |
| Escape.EscapeHtml | static/main.js:160-167 | the five chained `replaceAll` calls in the script's order; its properties are EscapeHtmlIsEscapeEach, EscapeHtmlSafe and EscapeHtmlRoundTrip |
| Escape.ReplaceAllAppend | static/main.js:161-166 | `replaceAll` of a single character distributes over concatenation |
| Escape.ReplaceAllAbsent | static/main.js:161-166 | `replaceAll` leaves a text without the character unchanged |
| Escape.ReplaceAllSingle | static/main.js:161-166 | on one character, `replaceAll` gives the replacement exactly when that character is the pattern |
| Escape.EscapeHtmlAppend | static/main.js:160-167 | the escaper distributes over concatenation |
| Escape.EscapeHtmlStages | static/main.js:160-167 | the escaper is the five stages in the order `&`, `<`, `>`, `"`, `'` |
| Escape.LaterStagesKeep | static/main.js:162-166 | stages whose characters are absent leave a text unchanged |
| Escape.EarlierStagesKeep | static/main.js:162-166 | stages before a character's own stage leave that character unchanged |
| Escape.StagesOnOwnCharacter | static/main.js:162-166 | each stage's character becomes its reference, which no later stage touches |
| Escape.ReferenceClean | static/main.js:162-166 | a reference contains none of the characters replaced after `&` |
| Escape.EscapeHtmlReserved | static/main.js:160-167 | each of the five reserved characters becomes exactly its reference |
| Escape.EscapeHtmlChar | static/main.js:160-167 | a single character becomes its reference when reserved and stays itself otherwise: `&` is replaced first, so the `&` of a later reference is not escaped twice |
| Escape.EscapeHtmlIsEscapeEach | static/main.js:160-167 | the chained `replaceAll` calls equal a single pass that replaces each character by its reference |
| Escape.EscapeCharSafe | static/main.js:160-167 | a replaced character contains no `<`, `>`, `"` or `'`, and an `&` only at the start of a reference |
| Escape.EscapeEachSafe | static/main.js:160-167 | the one-pass escape contains no markup character, and every `&` in it starts a reference |
| Escape.EscapeHtmlSafe | static/main.js:160-167 | the escaper's output contains no `<`, `>`, `"` or `'`, and every `&` in it starts one of the five references |
| Escape.EscapeHtmlIdentity | static/main.js:160-167 | a text without reserved characters is left unchanged |
| Escape.UnescapeHead | static/main.js:160-167 | decoding an escaped character followed by more text gives the character, then the decoding of the rest |
| Escape.UnescapeEscapeEach | static/main.js:160-167 | decoding the one-pass escape gives the text back |
| Escape.EscapeHtmlRoundTrip | static/main.js:160-167 | the escaper loses nothing: decoding its output gives the input back |
| Page.Query | static/main.js:124-129 | the generate button's query: the slider value, then `String(checked)` of the upper, digits and symbols boxes |
| Page.Items | static/main.js:108-110 | one `<li>` per suggestion holding its escaped text; ItemsTags states what it can contain |
| Page.SuggestionsMarkup | static/main.js:107-113 | the list for a non-empty array, the "Looks good" notice otherwise; SuggestionsMarkupCases states the cases |
| Page.Init | static/main.js:2-38 | the page at load: an empty masked field labelled "Show", nothing shown or sent, the slider's value on its label; InitValid states the invariant it starts |
| Page.LengthChanged | static/main.js:39-41 | the slider listener writes the value to the length label; LengthChangedValid states that the label keeps showing the slider |
| Page.OptionsChanged | static/main.js:124-129 | the boxes' states that the generate button later reads; Wire.GenerateQueryFlags states that the server reads them back |
| Page.PwnedSettled | static/main.js:70-83 | the breach continuation writes PwnedMessage of the reply; PwnedMessageCases and Wire.PwnedShown state its cases |
| Page.Toggle | static/main.js:27-35 | the toggle listener; ToggleSwitches and ToggleTwice state its effect |
| Page.Typed | static/main.js:45-50 | the input listener; KeystrokeSchedules and BurstSchedulesOnce state its effect |
| Page.Analyze | static/main.js:86-97 | `realtimeAnalyze` up to its request; EmptyShortcut and ExplicitAlwaysSends state its cases |
| Page.Fired | static/main.js:47-49 | the debounce timeout; BurstFiresOnce states its effect |
| Page.Checked | static/main.js:52-54 | the check button, an explicit analysis; ExplicitAlwaysSends states its effect |
| Page.AnalyzeSettled | static/main.js:98-118 | the analysis continuation; AnalyzeSettledShows states its effect and AnalyzeSettledIdempotent that rendering a reply twice changes nothing more |
| Page.PwnedClicked | static/main.js:56-69 | the breach button up to its request; PwnedClickCases states its cases |
| Page.PwnedMessage | static/main.js:70-83 | the breach result text; PwnedMessageCases states its cases |
| Page.GenerateClicked | static/main.js:122-131 | the generate button up to its request; Wire.GenerateClickDecoded, Wire.GenerateQueryFlags and Wire.GenerateQueryLength state what the server reads from it |
| Page.GenerateSettled | static/main.js:131-140 | the generator continuation; GenerateSettledCases states its cases |
| Page.CopyClicked | static/main.js:143-152 | the copy button; CopySucceeds, CopyFailureNoRevert and EarlierRevertOverridesFailure state its effect |
| Page.CopyReverted | static/main.js:148 | the copy button's revert timeout; CopyRevertedValid and EarlierRevertOverridesFailure state its effect |
| Page.UseGenerated | static/main.js:154-158 | the use button; UseGeneratedAnalyzes states its effect |
| Page.Step | static/main.js:26-158 | one event of the page, dispatched to its listener; StepValid and RunValid state the invariant it keeps |
| Page.InitValid | static/main.js:37-38 | the loaded page satisfies the invariant: the toggle label names the action the toggle would take, the length label shows the slider, a pending timer has the 400 ms delay, and a "Copied" label has a pending revert |
| Page.ToggleValid | static/main.js:27-35 | the toggle keeps the invariant |
| Page.LengthChangedValid | static/main.js:39-41 | moving the slider keeps the length label equal to the slider's value |
| Page.OptionsChangedValid | static/main.js:124-129 | ticking the generator boxes keeps the invariant |
| Page.TypedValid | static/main.js:45-50 | a keystroke keeps the invariant; its timer has the 400 ms delay |
| Page.AnalyzeValid | static/main.js:86-97 | `realtimeAnalyze` up to its request keeps the invariant |
| Page.FiredValid | static/main.js:47-49 | the debounce timeout keeps the invariant |
| Page.CheckedValid | static/main.js:52-54 | the check button keeps the invariant |
| Page.AnalyzeSettledValid | static/main.js:98-118 | showing the analysis keeps the invariant |
| Page.PwnedClickedValid | static/main.js:56-69 | the breach button up to its request keeps the invariant |
| Page.PwnedSettledValid | static/main.js:70-83 | showing the breach result keeps the invariant |
| Page.GenerateClickedValid | static/main.js:122-131 | the generate button up to its request keeps the invariant |
| Page.GeneratedValid | static/main.js:133-139 | writing the generated field keeps the invariant |
| Page.GenerateSettledValid | static/main.js:131-140 | showing the generator's result keeps the invariant |
| Page.CopyClickedValid | static/main.js:143-152 | a "Copied" label always has a pending revert timeout |
| Page.CopyRevertedValid | static/main.js:148 | a revert timeout keeps the invariant |
| Page.UseGeneratedValid | static/main.js:154-158 | the use button keeps the invariant |
| Page.StepValid | static/main.js:26-158 | every event keeps the invariant |
| Page.RunValid | static/main.js:26-158 | every sequence of events from a valid page keeps the invariant |
| Page.ToggleSwitches | static/main.js:27-35 | the toggle switches the field type and the label; the label reads "Hide" exactly when the text is shown |
| Page.ToggleTwice | static/main.js:27-35 | two clicks on the toggle restore the page |
| Page.KeystrokeSchedules | static/main.js:45-50 | a keystroke sets the value, schedules one 400 ms timer and sends nothing |
| Page.BurstSchedulesOnce | static/main.js:45-50 | after a burst of keystrokes only one timer is pending, no request was sent, and the field holds the last value |
| Page.BurstFiresOnce | static/main.js:44-50 | a burst followed by the timeout sends at most one analysis, of the last value, and none for an empty field; the fired timer does not fire again |
| Page.EmptyShortcut | static/main.js:87-91 | an empty password outside an explicit check hides the result box, clears the breach line and sends nothing |
| Page.ExplicitAlwaysSends | static/main.js:86-97 | an explicit check sends the password, even the empty one, and leaves the result box as it is until the reply |
| Page.AnalyzeSettledShows | static/main.js:98-118 | a failed analysis changes nothing; a reply writes its length, entropy and rating texts, shows the box, clears the breach line, sets the alert from `is_common`, fills in the suggestion markup, and changes nothing else |
| Page.AnalyzeSettledIdempotent | static/main.js:98-118 | rendering the same reply twice gives the same page as rendering it once |
| Page.SuggestionsMarkupCases | static/main.js:107-113 | the list appears exactly for a non-empty array; the "Looks good" notice appears otherwise |
| Page.OccurrencesAppend | static/main.js:108-110 | counting a character distributes over concatenation |
| Page.OccurrencesNone | static/main.js:108-110 | a character that does not occur counts 0 |
| Page.ItemsTags | static/main.js:108-110 | the items' markup holds exactly two `<` per suggestion, so a suggestion cannot open a tag of its own |
| Page.PwnedClickCases | static/main.js:56-69 | an empty field asks for a password and sends nothing; otherwise "Checking..." is shown and the password is sent |
| Page.PwnedMessageCases | static/main.js:70-83 | "not found" exactly for an ok reply with count 0; "Network error" exactly for an exception or an ok reply without a count; the error text for a non-ok reply; the formatted count otherwise |
| Page.GenerateSettledCases | static/main.js:131-140 | an ok reply with a non-empty password shows it; any other reply shows "Error generating", an exception "Network error"; nothing else changes |
| Page.EmptyGeneratedIgnored | static/main.js:143-158 | with an empty generated field, copy and use do nothing |
| Page.CopySucceeds | static/main.js:146-148 | a successful copy shows "Copied" with one more revert pending, and that revert brings back "Copy" and changes nothing else |
| Page.CopyFailureNoRevert | static/main.js:149-150 | a failed copy shows "Copy Failed" and schedules no revert |
| Page.EarlierRevertOverridesFailure | static/main.js:147-150 | a failure right after a success is overwritten by the success's revert timeout |
| Page.UseGeneratedAnalyzes | static/main.js:154-158 | use puts the generated password into the field and sends it for an explicit check, without touching the debounce timer |
| Ui.Controller.constructor | static/main.js:2-38 | the loaded page, with the length label set from the slider |
| Ui.Controller.OnToggle | static/main.js:27-35 | the toggle listener reaches `Page.Toggle` and keeps the invariant |
| Ui.Controller.OnLengthInput | static/main.js:39-41 | the slider listener reaches `Page.LengthChanged` and keeps the invariant |
| Ui.Controller.OnOptionsChange | static/main.js:124-129 | the boxes' new states, as `Page.OptionsChanged` describes |
| Ui.Controller.OnKeystroke | static/main.js:45-50 | clearing and setting the timeout reach `Page.Typed` |
| Ui.Controller.OnTimerFired | static/main.js:47-49 | the timeout runs `realtimeAnalyze` on the field's value, as `Page.Fired` describes |
| Ui.Controller.OnCheckClick | static/main.js:52-54 | an explicit analysis, as `Page.Checked` describes |
| Ui.Controller.RealtimeAnalyze | static/main.js:86-97 | the shortcut or the request, as `Page.Analyze` describes |
| Ui.Controller.OnAnalyzeSettled | static/main.js:98-118 | the seven element writes reach `Page.AnalyzeSettled` |
| Ui.Controller.OnPwnedClick | static/main.js:56-69 | the breach button up to its request reaches `Page.PwnedClicked` |
| Ui.Controller.OnPwnedSettled | static/main.js:70-83 | the breach result reaches `Page.PwnedSettled` |
| Ui.Controller.OnGenerateClick | static/main.js:122-131 | the query built from the controls reaches `Page.GenerateClicked` |
| Ui.Controller.OnGenerateSettled | static/main.js:131-140 | the generated field reaches `Page.GenerateSettled` |
| Ui.Controller.OnCopyClick | static/main.js:143-152 | the copy label and pending reverts reach `Page.CopyClicked` |
| Ui.Controller.OnCopyRevert | static/main.js:148 | a revert timeout reaches `Page.CopyReverted` |
| Ui.Controller.OnUseGenerated | static/main.js:154-158 | use reaches `Page.UseGenerated` |
| Ui.Controller.Dispatch | static/main.js:26-158 | every event reaches `Page.Step` and keeps the invariant |
| Wire.GenerateClickDecoded | static/main.js:122-131 | the generate button adds exactly one request and changes nothing else, and the server decodes it into the page's three box states and the slider's value as `int` reads it |
| Wire.GenerateQueryFlags | static/main.js:124-129 | the server decodes each of the page's `true`/`false` box texts back into the box's state |
| Wire.FlagText | app.py:145-147 | `generate_api` reads `true` as on and `false` as off |
| Wire.GenerateQueryLength | static/main.js:123-125 | the server uses the slider's value as the length when `int` accepts it, and 16 otherwise; a decimal slider value comes back as its number unless it has more than 4300 digits |
| Wire.PwnedBody | app.py:163-180 | the JSON reply of `check_pwned` as the page's fetch sees it: a count with ok status, an error message with its status, or a rejected `resp.json()`; Wire.PwnedShown states how each is shown |
| Wire.PwnedShown | app.py:163-180 | each reply of `check_pwned` is rendered as the page intends: "not found" for 0, the formatted count for another count, the server's message for an error status, "Network error" for an unhandled exception |
| Wire.GenerateBody | app.py:149-150 | `jsonify({"password": pwd})` with status 200; Wire.GeneratedShown states that the page shows it |
| Wire.GeneratedShown | app.py:149-150 | a password `generate_api` returns is never empty, so the page shows it and never "Error generating" |

## Left out

- The DOM, `fetch`, the clipboard and `console.error` are not modelled as such. Element properties are fields or values. A request is an entry in `requests`. A response is the input of a "settled" event. The clipboard write's outcome is a parameter, and the awaited write is one step.
- The page's element properties are grouped by panel in `Ui.Controller` (field, result box, generator panel), and the copy button's three texts are a datatype. Both are mapped one to one onto the texts the script writes.
- Real time is not modelled. The 400 ms debounce and the 1500 ms copy reset are events that may happen at any point. A continuation may settle after a newer request: the script does not tell replies apart, and neither does the model.
- Initial element state (the `index.html` markup) is not part of this model. The constructor takes the generator controls as parameters and assumes an empty hidden-text field labelled "Show", a hidden result box, and a copy button reading "Copy".
- `count.toLocaleString()` is a parameter `format`. The analysis reply's numbers reach the page as the texts they display, because JSON number formatting is not modelled.
- Strength.AnalyzePassword: the entropy `round(len * log2(charset), 2)` is a parameter `bits`, because floating point is not modelled. Only the charset size it is applied to is computed.
- The loading of `data/common_passwords.txt` at start-up is not modelled: the common-password set is a parameter.
- `random.choice` is a nondeterministic choice from the charset, so only what holds for every draw is promised.
- SHA-1 is not modelled: the upper-case hex digest is a function parameter. So is the range API call (`RangeResponse`). The response text arrives already cut into lines, so `splitlines` is not modelled.
- `int()` follows Python 3.11 and later, which refuse a numeral of more than 4300 digits (the default of `sys.get_int_max_str_digits()`), as do the 3.7 to 3.10 security releases that back-ported that limit (3.7.14, 3.8.14, 3.9.14, 3.10.7) for CVE-2020-10735. The model fixes the default of 4300; `app.py` never changes it (it could be changed with `sys.set_int_max_str_digits`, `PYTHONINTMAXSTRDIGITS` or `-X int_max_str_digits`).
- Pwned.LookupFormatted: promises nothing for a response whose count for the suffix has more than 4300 digits, since `int()` would raise on it.
- Character classes, `lower()` and `int()` follow ASCII. Python's Unicode letters, digits and white space beyond ASCII are not modelled; `int()` maps non-ASCII white space to a space before parsing, which the model does not do.
- Flask's request parsing is not modelled. A body that is not a JSON object, a non-string `password` field, URL encoding of the query and `jsonify` itself are all left out. A reply is a datatype.
- Page.AnalyzeSettled: suggestion entries are taken to be strings, as the server sends them. A reply with a non-string entry makes `escapeHtml` throw after the length, entropy, rating and alert writes, leaving the other elements as they were; that partial render is not modelled.
- Pwned.CheckPwned: the exception raised by a malformed line or count is `Unhandled`. Flask answers it with its own 500 page, and that page is not modelled.
