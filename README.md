# Laptop-recommending chatbot, modelled in Dafny

This is a model of the command-line chatbot in `main.py`. The chatbot asks a
yes/no question, then a budget question and a use-case question, and then
recommends a laptop from a five-item catalog. It is built from dialog nodes.
A node shows its prompt, reads a line, and repeats with a retry message until
its input predicate accepts the line. There are four kinds of node:

- the base node, which accepts any line;
- the exit node, which ends the process after it reads a line;
- the confirmation node, which takes y/yes/n/no in any case;
- the options node, which takes a number from 1 to the option count.

The laptop is chosen by a linear scan. Laptops above the budget's price cap
are skipped. The winner is the first laptop whose score is strictly higher
than the best so far, and the best starts at 0.

Files:

- `text.dfy` (module `Text`): helpers over ASCII text. It covers digit
  strings and the value Python's `int` reads from them, the decimal rendering
  of a number, and ASCII lower-casing. Leading zeros and the round trip are
  proved here.
- `validators.dfy` (module `Validators`): the input predicates and answer
  transforms of the confirmation node and the options node.
- `dialog.dfy` (module `Dialog`): the node kinds, the prompt each kind shows,
  and the first-accepted-line specification. Also the transcript the retry
  loop prints, and the `DialogNode` class. Its mutable `prompt` field is what
  the driver rewrites. `Execute` is the base retry loop. `Run` is `execute`
  as each kind of node overrides it.
- `recommendation.dfy` (module `Recommendation`): the `Laptop` record, the
  catalog, the budget-to-cap mapping, the price filter, the scores and the
  `Recommend` scan. The scan is proved against `IsBest`, which says the
  result is the earliest laptop with the highest positive score among those
  that pass the filter.
- `session.dfy` (module `Session`): the conversation script as `Converse`,
  with its two branches `Decline` and `Proceed` and its ending `Conclude`.
  `ConversationFits` says which ending the typed lines lead to. It is built
  from `Opening` (the reply to the first question), `AnswersIn` (the budget
  and use-case answers) and `EndingFits` (what follows them).

The user's typing is a sequence of input lines. The console output is a log
with one entry per `print` call. When the lines run out, `input()` would
raise `EOFError`; that becomes `Exhausted` in the retry loop and
`InputExhausted` as the ending of a conversation. `quit(0)` becomes the `Quit`
step of an exit node, and a conversation that reaches it ends as `Declined`,
`Recommended` or `NoMatch`. Use case 1 reads `laptop.weight`, which `Laptop`
does not define, so Python raises `AttributeError`. That becomes the
`WeightMissing` selection and the `WeightError` ending. It happens only when
some laptop passes the price filter, because the attribute is read after the
filter. With budget 1 no laptop passes (the cheapest costs 299), so use case 1
then ends in the no-match message.

"HD Ghost 2 in 1" costs 999 (main.py:117), over the 750 cap of budget 3, so
`ExampleBudget3Price` proves that budget 3 with use case 2 recommends
"Bell XYZ 13".

## Model

| member | source | states |
|---|---|---|
| `Text.DigitsValue` | main.py:93 | the value `int` reads from a digit string is 0 iff every digit is '0' |
| `Text.Lower` | main.py:62 | lower-casing keeps the length, maps each character on its own, and leaves no capital letter |
| `Text.NatToString` | main.py:84-85 | the option number is rendered as a non-empty digit string that starts with '0' only for the number 0 |
| `Text.ValueOfNatToString` | main.py:93 | `int` reads back every number from its decimal rendering |
| `Text.NatToStringOfValue` | main.py:93 | a digit string without superfluous leading zeros is exactly the rendering of the value `int` reads from it |
| `Text.LeadingZerosValue` | main.py:93 | leading zeros do not change the value `int` reads |
| `Text.LowerCharInverse` | main.py:62 | the only characters `lower` turns into a given lower-case letter are that letter and its capital |
| `Validators.ConfirmValid` | main.py:61-63 | the confirmation node accepts only lines of one to three characters |
| `Validators.ConfirmAcceptsExactlySpellings` | main.py:61-63 | the confirmation node accepts a line iff it is one of the 16 case variants of y, yes, n, no |
| `Validators.ConfirmResult` | main.py:66-70 | the confirmation answer is always 0 or 1 |
| `Validators.ConfirmYesOnlyInLowerCase` | main.py:66-70 | of the accepted lines, the answer is 1 iff the line is a yes spelling already in lower case, so "Y" and "YES" are accepted but read as 0 |
| `Validators.ConfirmExamples` | main.py:49-50 | "Y", "YES", "No" and "yes" are accepted, with "Y", "YES" and "No" read as 0 and "yes" as 1; "", "yeah" and " y" are rejected |
| `Validators.OptionsValid` | main.py:89-94 | an options node accepts only non-empty lines, and none at all when it has no options |
| `Validators.OptionsResult` | main.py:97-98 | the options answer is an option number in 1..N, and its rendering is the accepted line without its leading zeros |
| `Validators.OptionsAcceptsPadded` | main.py:89-94 | the rendering of k, after any number of leading zeros, is accepted iff 1 <= k <= N |
| `Validators.OptionsAcceptedIsPadded` | main.py:89-94 | every accepted line is leading zeros followed by the rendering of its value (with the previous row, the accepted set exactly) |
| `Validators.OptionsExamples` | main.py:89-94 | "", "0", N+1, "-1", "1.5" and " 1" are rejected; "1" is accepted for N >= 1 and "03" for N >= 3 |
| `Dialog.Accepts` | main.py:11-94 | dispatches the validity checks at lines 11-12, 61-63 and 89-94: the base and exit nodes accept every line; an accepted confirmation line has one to three characters; an accepted options line is digits, and a node without options accepts nothing |
| `Dialog.OptionLines` | main.py:82-86 | one menu line per option |
| `Dialog.MenuNumberSelects` | main.py:82-98 | menu line i of an options node reads "(i+1) label", and typing the number shown there is accepted and selects option i+1 |
| `Dialog.Render` | main.py:56-58 | every kind of node shows its prompt first |
| `Dialog.RenderWithoutRetry` | main.py:21-25 | no hint or option line is the retry message, so for every prompt but the retry message itself `RetryCount` applies to the node's run |
| `Dialog.FirstAccepted` | main.py:14-28 | the index found is that of an accepted line with every earlier line rejected; None only when every line is rejected |
| `Dialog.Transcript` | main.py:16-25 | after r rejected lines the loop has printed 1 + L + r(2 + L) lines, for a prompt of L lines |
| `Dialog.TranscriptEndsWithPrompt` | main.py:16-25 | every run of the loop ends by showing the prompt |
| `Dialog.TranscriptLines` | main.py:16-25 | the loop prints only blank lines, the retry message and the node's own prompt lines |
| `Dialog.RetryCount` | main.py:21-25 | the retry message is printed exactly once per rejected line |
| `Dialog.ExitTakesAnyLine` | main.py:37-44 | an exit node takes the first line there is and prints a blank line, its prompt and the end hint once |
| `Dialog.DialogNode.constructor` | main.py:3-4 | a new node holds the given prompt and kind |
| `Dialog.DialogNode.Execute` | main.py:14-28 | the base loop returns the first accepted line and the number of rejected lines before it, or runs out of input when none is accepted; its log is the transcript for that many retries |
| `Dialog.DialogNode.Run` | main.py:42-98 | `execute` per kind: the base node returns the line, the confirmation node 0/1 (1 iff the raw line is y or yes), the options node its number in 1..N, and the exit node quits after consuming the line |
| `Recommendation.MaxPrice` | main.py:158-160 | the cap is absent exactly for budgets 5 and up; a budget from 1 up otherwise caps at a multiple of 250 between 250 and 1000 |
| `Recommendation.Qualifies` | main.py:164-165 | with no cap every laptop passes; under a cap only laptops priced at most the cap pass |
| `Recommendation.Score` | main.py:168-176 | the score is the price, the processing tier or the storage, never the battery life or screen tier, and the price for use case 2; `ExampleTierAndStorage` fixes use case 3 to the processing tier and use case 4 to the storage |
| `Recommendation.Recommend` | main.py:155-180 | the scan picks the laptop `IsBest` describes, finds none only when no laptop that passes scores above 0, and fails on the missing weight iff use case 1 meets a laptop that passes the filter |
| `Recommendation.IsBestUnique` | main.py:178-180 | at most one laptop fits `IsBest`, so the recommendation is determined |
| `Recommendation.BudgetCaps` | main.py:158-160 | budgets 1-4 cap the price at 250, 500, 750 and 1000; budget 5 has no cap |
| `Recommendation.BudgetFilter` | main.py:158-165 | for budgets 1-5, a laptop passes iff the budget is 5 or its price is at most 250 times the budget |
| `Recommendation.CapIsInclusive` | main.py:164-165 | a price equal to the cap passes |
| `Recommendation.ExampleTierAndStorage` | main.py:168-176 | with the catalog, use case 3 under the 1000 cap recommends exactly laptop 3, "Mono Victis 15" (highest tier, not highest price), and with no cap laptop 4; use case 4 with no cap recommends exactly laptop 3 (highest storage, neither highest price nor tier); so scoring either use case by another attribute changes a recommendation |
| `Recommendation.ExampleBudget3Price` | main.py:114-120 | with the catalog, budget 3 and use case 2 recommend exactly laptop 1, "Bell XYZ 13" |
| `Recommendation.ExampleBudget1` | main.py:115-119 | with the catalog, budget 1 lets no laptop through, so no use case gets a recommendation |
| `Recommendation.WeightReachedFromBudget2` | main.py:162-170 | with the catalog, use case 1 reaches the missing weight iff the budget is 2 or more |
| `Session.OptionChosen` | main.py:151-152 | an options node's pick is the number of the first line it accepts, an option number in 1..N, with the lines it took; no pick iff it accepts no line |
| `Session.Opening` | main.py:146 | the reply to the opening question comes from the first line the confirmation node accepts and reads as yes iff that line is typed as y or yes; no reply iff it accepts no line |
| `Session.AskOpening` | main.py:146 | the confirmation node's run takes exactly the reply `Opening` describes and prints the transcript for the lines it rejected |
| `Session.AskOptions` | main.py:151-152 | an options node's run takes exactly the pick `OptionChosen` describes and prints the transcript for the lines it rejected |
| `Session.AnswersIn` | main.py:151-152 | the budget answer is the first line the budget node accepts and lies in 1..5; the use-case answer is the first line the use-case node accepts after it and lies in 1..4; no answers when the lines run out first |
| `Session.ExampleAnswers` | main.py:151-152 | after the lines "0", "3", "x", "2" the answers are budget 3 and use case 2, four lines consumed |
| `Session.ExampleYesOpening` | main.py:146 | a first line "yes" is accepted at once and reads as yes |
| `Session.ExampleDirectAnswers` | main.py:151-152 | the lines "3", "2", "" answer budget 3 and use case 2 in two lines |
| `Session.ExampleUpperCaseYesDeclines` | main.py:146-149 | the lines "YES", "" end the conversation as declined: the upper-case yes is accepted but reads as no |
| `Session.ExampleRecommendation` | main.py:146-187 | the lines "yes", "3", "2", "" leave one justified ending that fits them: the recommendation of laptop 1 for budget 3 and use case 2 |
| `Session.ScriptRetryCounts` | main.py:21-25 | the opening, budget and use-case questions each print the retry message exactly once per rejected line |
| `Session.Converse` | main.py:146-187 | the ending `ConversationFits` the lines: out of input when no line answers the opening question; after a reply other than a lower-case yes spelling, declined iff one more line follows; after a yes, the ending `EndingFits` the remaining lines: the weight error for use case 1 once a laptop passes, otherwise the recommendation or the no-match message for exactly the budget and use case typed, or out of input when a line is missing; a declined conversation never shows the budget or use-case question; the recommendation is the `IsBest` laptop, and each normal ending prints its prompt and the end hint last |
| `Session.Decline` | main.py:148-149 | after a no, the early-exit node shows "No worries!" and the end hint, and the conversation ends as declined iff a further line is there to read |
| `Session.Proceed` | main.py:151-186 | after a yes, the ending `EndingFits` the lines: its budget and use case are the answers `AnswersIn` takes from them, the weight error comes exactly when use case 1 meets a laptop that passes, out of input exactly when the answers or the exit node's line are missing; the recommendation is the `IsBest` laptop and is printed last with the end hint |
| `Session.Conclude` | main.py:155-186 | after both answers: the weight error comes exactly when use case 1 meets a laptop that passes, and prints nothing more; otherwise the exit node shows the recommendation (the `IsBest` laptop) or the no-match message (no passing laptop scores above 0), printed last with the end hint, and needs one more line |

## Left out

- Console I/O. `input()` is an index into the sequence of input lines, and `print` appends one entry to the output log. Line breaks inside a printed string are not split.
- `quit(0)` and the process exit status. An exit node's run ends as the `Quit` step, and the conversation as one of its three normal endings.
- Infinite waiting for input. With a finite sequence of lines, the never-ending retry loop ends as `Exhausted` once the lines run out. Python would raise `EOFError` at that point.
- The missing `weight` attribute. Use case 1 raises `AttributeError` in Python, and the model ends with `WeightError`. No weight field is invented.
- Non-ASCII text. `str.isdigit`, `int` and `str.lower` are modelled on ASCII only. Python's `isdigit` also accepts other Unicode digits, which `int` may then reject, and `lower` also maps non-ASCII letters.
- Integer width. Python integers are unbounded, and so are the model's.
- OptionsValid, DigitsValue: do not model CPython's limit on converting long digit strings. From CPython 3.11 (and 3.10.7, 3.9.14), `int` raises `ValueError` for a string of more than 4300 digits, so main.py:93 would crash on such a line. The model rejects it, or accepts it when it is leading zeros followed by an option number.
- Laptop attributes. `battery_life` and `screen_tier` are carried in `Laptop` but never scored, as in the source.
- Object identity. The scan remembers the winner by its index in the catalog, where the source holds the `Laptop` object; names are looked up through the index.
- Dispatch. The four node classes are one `DialogNode` class with a `kind`, so subclass dispatch becomes a `match` on the kind.
