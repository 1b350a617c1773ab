# Budget Buddy: a Dafny model of the budget allocation, the input form and the voice-input hook

This project models the three pieces of logic in a student budgeting web
app:

- **The allocation** (`BudgetResults`, `budget_results.dfy`). It takes seven
  numeric criteria. It echoes the four fixed costs (housing, meal plan,
  textbooks/insurance, transportation). It caps savings at the smaller of the
  goal and 20 % of what is left. It splits the rest 30/15/25/30 across
  Entertainment, Personal Care, Emergency Fund and Miscellaneous, and rounds
  the five derived lines with JavaScript's `Math.round`. It then sums the nine
  lines and compares the sum with the income. This part is pure: datatypes,
  functions and lemmas.
- **The form** (`BudgetForm`, `budget_form.dfy`). A class `Form` holds the
  criteria record. The record starts at zero. `UpdateCriteria` replaces one
  field with `parseFloat(text) || 0`, and `HandleSubmit` hands the record on
  unchanged. The `value || ""` display rule and the wiring of the six input
  boxes are pure functions.
- **The voice-input hook** (`VoiceInput`, `voice_input.dfy`). A class
  `VoiceInputHook` holds the listening flag, the optional recognizer and a log
  of the start/stop commands sent to it. It has methods for the start and stop
  requests and for the recognizer's result, error and end events. The
  error-code-to-message choice and the final-transcript selection are pure
  functions.

The shared record is in `criteria.dfy` (`BudgetCriteria`). A small `Option`
type is in `wrappers.dfy`.

Modelling choices:

- Numbers are exact `real`s.
- `Math.round(x)` is `(x + 0.5).Floor`, so ties go toward +infinity
  (`Round(-2.5) == -2`).
- `parseFloat` is supplied to the `Form` constructor as a function
  `string -> Option<real>`. `None` stands for NaN.
- The microphone permission check is the boolean `micPermitted`.
- Whether the recognizer's `start()` throws is the boolean `startSucceeds`.
- The transcript callback and the toasts are modelled as the methods' return
  values.

What is proved beyond the contracts:

- The left fold that computes the total equals a plain sum.
- Before rounding, the nine lines add up to the income exactly.
- The total is therefore within 5/2 of the income.
- Health is "healthy" exactly when the rounding drift of the five derived
  lines is not positive.
- Tuition never affects the result.
- Tuition stays zero under any sequence of edits made through the form's
  boxes.

A consequence of the proved properties: the flag never compares the
fixed costs with the income. Before rounding, the nine lines always add up
to the income, so only the rounding drift of the five derived lines
decides the flag (`HealthReflectsRoundingOnly`), and that drift depends on
the fractional parts of the shares. Three proved examples show this:

- An overspent budget can be reported healthy. Income 1000 against fixed
  costs of 1200 totals exactly 1000 (`OverspentExample`).
- A budget with no expenses can get the warning. Income 15 with nothing
  spent totals 16, because three lines round up (`NoExpensesCanWarn`).
- A small overrun can warn too. Fixed costs of 1001 against an income of
  1000 total 1001, because every derived line rounds to 0
  (`SlightOverrunWarns`).

The warning card's own text, "Your planned expenses exceed your income"
(src/components/BudgetResults.tsx:239), says what the flag is meant to
report. The model reproduces what the code computes.

## Model

| member | source | states |
|---|---|---|
| BudgetCriteria.ZeroIsAllZero | src/components/BudgetForm.tsx:23-31 | every field of the initial record is 0 |
| BudgetResults.Round | src/components/BudgetResults.tsx:36-40 | Math.round returns an integer r with x − 1/2 < r ≤ x + 1/2 |
| BudgetResults.RoundIsUnique | src/components/BudgetResults.tsx:36-40 | that window holds exactly one integer, so the bound determines the rounding |
| BudgetResults.RoundTies | src/components/BudgetResults.tsx:36-40 | ties round up on both sides of zero: 2.5→3, −2.5→−2, 0.5→1, −0.5→0 |
| BudgetResults.RecommendedSavings | src/components/BudgetResults.tsx:27 | savings ≤ goal and ≤ 0.2·remaining, equal to one of them, and negative when remaining is negative (no floor at zero) |
| BudgetResults.Allocate | src/components/BudgetResults.tsx:31-41 | nine lines with the fixed names and types in display order; the four fixed amounts equal their inputs exactly; the other five are integers within 1/2 of their exact shares |
| BudgetResults.SharesSplitDiscretionary | src/components/BudgetResults.tsx:28-39 | the unrounded flexible shares add up to exactly the discretionary money (discretionary + savings = remaining is Discretionary's own contract) |
| BudgetResults.ExactAmountsSumToIncome | src/components/BudgetResults.tsx:25-40 | the nine unrounded amounts add up to the monthly income |
| BudgetResults.TotalFromIsSum | src/components/BudgetResults.tsx:43 | the reduce fold equals its start value plus the plain sum of the amounts |
| BudgetResults.TotalIsSumOfAmounts | src/components/BudgetResults.tsx:43 | totalBudgeted is the sum of the nine amounts: fixed total plus the five rounded lines |
| BudgetResults.TotalNearIncome | src/components/BudgetResults.tsx:36-43 | income − 5/2 < totalBudgeted ≤ income + 5/2 |
| BudgetResults.HealthReflectsRoundingOnly | src/components/BudgetResults.tsx:43-44 | totalBudgeted = income + rounding drift, so the budget is healthy iff the drift is not positive |
| BudgetResults.HealthMatchesReadout | src/components/BudgetResults.tsx:128 | healthy iff the displayed remainder income − totalBudgeted is ≥ 0 |
| BudgetResults.WarningCardIffOverBudget | src/components/BudgetResults.tsx:231 | the warning card is shown iff totalBudgeted > income |
| BudgetResults.TuitionIgnored | src/components/BudgetResults.tsx:25-26 | changing tuition changes no amount, total or health flag |
| BudgetResults.WorkedExample | src/components/BudgetResults.tsx:25-44 | income 1500, fixed 800/300/100/100, goal 200 gives 48, 24, 40, 48, savings 40, total 1500, healthy |
| BudgetResults.OverspentExample | src/components/BudgetResults.tsx:25-44 | income 1000, fixed 900/300/0/0, goal 100 gives −48, −24, −40, −48, savings −40, total 1000, healthy |
| BudgetResults.FixedTotal | src/components/BudgetResults.tsx:25 | the sum of housing, meal plan, textbooks and transportation; tuition is not in it (see TuitionIgnored) |
| BudgetResults.Remaining | src/components/BudgetResults.tsx:26 | income minus the fixed total, possibly negative; with savings and discretionary it splits exactly (see SharesSplitDiscretionary) |
| BudgetResults.Discretionary | src/components/BudgetResults.tsx:28 | discretionary + savings = remaining, and discretionary ≥ 0.8·remaining because savings take at most a fifth |
| BudgetResults.TotalBudgeted | src/components/BudgetResults.tsx:43 | the fold over the nine amounts; its value is characterised by TotalIsSumOfAmounts and TotalNearIncome |
| BudgetResults.BudgetHealth | src/components/BudgetResults.tsx:44 | healthy iff totalBudgeted ≤ income; proved to track only the rounding drift (HealthReflectsRoundingOnly) |
| BudgetResults.RemainingReadout | src/components/BudgetResults.tsx:128 | income − totalBudgeted; ≥ 0 exactly when healthy (HealthMatchesReadout) |
| BudgetResults.ShowsWarningCard | src/components/BudgetResults.tsx:231 | the card is shown iff the health is warning, i.e. iff totalBudgeted > income (WarningCardIffOverBudget) |
| BudgetResults.SlightOverrunWarns | src/components/BudgetResults.tsx:25-44 | fixed 1001 against income 1000: every derived line rounds to 0, total 1001, warning |
| BudgetResults.NoExpensesCanWarn | src/components/BudgetResults.tsx:25-44 | income 15 and no expenses: lines 4, 2, 3, 4 and savings 3, total 16, warning |
| BudgetForm.Update | src/components/BudgetForm.tsx:38-43 | one `updateCriteria` state step; only the named field changes (UpdateTouchesOneField) |
| BudgetForm.ApplyEdits | src/components/BudgetForm.tsx:62-146 | a sequence of box edits, oldest first; it never changes tuition (EditsLeaveTuition) |
| BudgetForm.Coerce | src/components/BudgetForm.tsx:41 | the coerced parse stores the parsed number, or 0 for NaN; it is 0 exactly when the parse is falsy |
| BudgetForm.With | src/components/BudgetForm.tsx:39-42 | the spread-and-replace record has the new value at the named field and every other field unchanged |
| BudgetForm.Display | src/components/BudgetForm.tsx:66 | the display rule shows a blank exactly when the value is 0, and the number otherwise |
| BudgetForm.Wired | src/components/BudgetForm.tsx:67-144 | no input box's change handler updates tuition |
| BudgetForm.WiredInjective | src/components/BudgetForm.tsx:67-144 | no two boxes update the same field |
| BudgetForm.BoxFor | src/components/BudgetForm.tsx:62-146 | every field other than tuition has a box that updates it |
| BudgetForm.UpdateTouchesOneField | src/components/BudgetForm.tsx:38-43 | an update sets the named field to the coerced parse and leaves the other six fields unchanged |
| BudgetForm.UnparsableShowsBlank | src/components/BudgetForm.tsx:41 | after an update the box is blank iff its text parsed to NaN or 0 |
| BudgetForm.EditsLeaveTuition | src/components/BudgetForm.tsx:67-144 | no sequence of edits through the boxes changes tuition |
| BudgetForm.TuitionStaysZero | src/components/BudgetForm.tsx:23-144 | from the initial form, tuition is 0 after any sequence of edits |
| BudgetForm.Form.constructor | src/components/BudgetForm.tsx:23-31 | the form starts with the all-zero record |
| BudgetForm.Form.UpdateCriteria | src/components/BudgetForm.tsx:38-43 | the new state is the old record with only `field` replaced by the coerced parse |
| BudgetForm.Form.OnChange | src/components/BudgetForm.tsx:67 | a box's change handler applies one edit to its wired field |
| BudgetForm.Form.HandleSubmit | src/components/BudgetForm.tsx:33-36 | the current record is passed on unchanged |
| BudgetForm.Form.Shows | src/components/BudgetForm.tsx:66 | a box shows a blank iff its field is 0, and otherwise shows the stored number |
| VoiceInput.FinalTranscript | src/hooks/useVoiceInput.ts:66-69 | a transcript is forwarded iff the last result is final, and it is that result's best alternative |
| VoiceInput.OnlyLastResultCounts | src/hooks/useVoiceInput.ts:67-68 | earlier results of the same event never affect what is forwarded |
| VoiceInput.ErrorMessage | src/hooks/useVoiceInput.ts:81-91 | each known code gets its own message, both directions; every other code gets the generic message |
| VoiceInput.VoiceInputHook.constructor | src/hooks/useVoiceInput.ts:49-64 | not listening; the recognizer exists iff the API is present, configured continuous = false, interimResults = true, lang = "en-US" |
| VoiceInput.VoiceInputHook.OnResult | src/hooks/useVoiceInput.ts:66-75 | the result handler forwards the last result's best transcript iff that result is final |
| VoiceInput.VoiceInputHook.OnError | src/hooks/useVoiceInput.ts:77-98 | any error lowers the flag and shows the message for its code |
| VoiceInput.VoiceInputHook.OnEnd | src/hooks/useVoiceInput.ts:100-103 | the end event lowers the flag |
| VoiceInput.VoiceInputHook.StartListening | src/hooks/useVoiceInput.ts:113-144 | no recognizer: not-supported notice, start never called, flag unchanged; failed permission check: the same without calling start; otherwise start is called and a successful start raises the flag |
| VoiceInput.VoiceInputHook.StopListening | src/hooks/useVoiceInput.ts:159-164 | with a recognizer, stop is called and the flag lowered; without one, nothing changes |

## Left out

- IEEE-754 doubles: `x * 0.3` and `Math.round` are computed over exact reals. The double results can differ from the exact ones in the last bits, and so can a rounding right at a tie. `parseFloat` can also return ±Infinity (for "1e400"), which an `Option<real>` cannot represent.
- The progress bar's `amount / monthlyIncome` percentage (src/components/BudgetResults.tsx:158): presentation only, and it divides by zero when the income is 0.
- All rendering, badges and icons, and the static tips and recommendation lists: no logic.
- `location`: the results view reads it only in a card title and a card subtitle, with a fallback text. The form and the page never supply it, so it is not part of the modelled record.
- The grammar of `parseFloat`: a browser library call, taken as a function parameter.
- src/hooks/useBudgetFeedback.ts is not part of this model. It is remote storage and remote-function I/O whose results are never merged into the allocation.
- src/pages/Index.tsx is not part of this model. It only switches between the form and the results view.
- Toasts other than the start notices and the error message, console logging, `getUserMedia` and stream teardown: browser side effects. The permission check is the boolean `micPermitted`.
- FinalTranscript: requires a non-empty result list whose last result has an alternative. The source reads the last result's first alternative before checking `isFinal`, so it would throw a TypeError on an empty list. The model treats the browser's guarantee that a result event carries at least one result with at least one alternative as a precondition, and does not model that TypeError.
- VoiceInputHook.OnResult: carries the same precondition as FinalTranscript, for the same reason.
- VoiceInputHook.StartListening: when `start()` throws with "already started", the source stops the recognizer and restarts it after a 100 ms timer. The model records only the attempted start and leaves the flag unchanged for any throwing start.
- The effect's cleanup, which stops the recognizer on unmount, and the recognizer's re-creation when the callback changes: React lifecycle plumbing.
