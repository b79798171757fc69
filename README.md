# Mio Health energy budget and daily log, in Dafny

Mio Health is a food-photo nutrition app. This project models its
deterministic core: the daily calorie target, today's meal log, and the
budget and colour-band arithmetic that several screens repeat. The parts
modelled are:

- the onboarding calculator: the Mifflin-St Jeor basal metabolic rate (bmr),
  the daily target (tdee) and the submit gate;
- the app's load-time profile repair and day rollover of the stored log;
- appending and deleting meals;
- the status machine around an analysis: idle, analyzing, then success or
  error, then idle again;
- the report screen's item editing, total recomputation and meal-entry
  construction;
- the hub panel, the history sheet and the GI/GL gauge.

The camera, the AI service, storage and the clock are outside the model.
They enter as parameters:

- the analysis outcome, as a result or a thrown value;
- the records parsed from storage;
- the calendar fields of today;
- the id and timestamp of a new entry.

Modules, one per source file, with `App.tsx` split into `LocalDate`, `Ledger`
and `App`, plus `JsValues` for JavaScript value semantics:

- `JsValues` covers `T | null`, may-be-NaN numbers, `Number(x) || 0`,
  `Math.round`, `Math.max`/`Math.min` and percentages.
- `Types` holds the data model of `types.ts`.
- `ProfileSetup` models `components/UserProfileSetup.tsx`. `CalculateBmr` and
  `CalculateTdee` are the step-by-step originals, proved equal to the
  functions `Bmr` and `Tdee`.
- `LocalDate` models `getLocalToday`.
- `Ledger` holds the pure log transforms of `App.tsx` and the shared calorie
  sum.
- `App` holds the profile repair, the progress figures and the class
  `AppState`, with the state fields `status`, `result`, `error`, `lang`,
  `editingProfile`, `profile` and `log`.
- `ResultDisplay` holds the report-screen arithmetic and the class
  `ResultView`, with the props `result` and `profile` and the state `details`,
  `summary`, `added` and `isEditing`.
- `UserHub`, `DailyHistory` and `Gauge` model the derived views.

JavaScript numbers are modelled as exact `real`s:

- Form inputs come from `parseInt`, so they are integers. A missing or
  unreadable field is 0, because the code treats undefined, NaN and 0 alike.
- AI-supplied item numbers may be NaN; `Number(x) || 0` turns NaN into 0.
- `Math.round(x)` is `floor(x + 1/2)`.

Two figures worth knowing:

- With 70 kg, 170 cm and 30 years the code gives a bmr of 1618 (male) and
  1452 (female), and with moderate activity and "maintain" a tdee of 2508
  (`ProfileSetup.DefaultFormValues`).
- Deleting removes every entry with the given id (`App.tsx:210`).

## Model

| member | source | states |
|---|---|---|
| JsValues.Round | App.tsx:45 | `Math.round` gives the integer nearest to x, a half rounded up: r - 1/2 <= x < r + 1/2 |
| JsValues.OrZero | components/ResultDisplay.tsx:30-33 | the fallback `Number(x)` or 0: a number is kept, NaN becomes 0, and the result is 0 exactly for NaN and 0 |
| JsValues.RoundMonotone | components/UserProfileSetup.tsx:103 | rounding preserves order |
| JsValues.Percent | App.tsx:130 | for a positive target, x/t·100 exceeds 100 iff x > t, equals 100 iff x = t, and is non-negative for x >= 0 |
| JsValues.PercentOfTarget | components/UserHub.tsx:47-48 | the percentage compares with 100 exactly as the amount compares with a positive target |
| ProfileSetup.MifflinStJeor | components/UserProfileSetup.tsx:101-102 | the Mifflin-St Jeor equation 10·w + 6.25·h − 5·a, plus 5 for a man or −161 for a woman (its properties are stated by `MifflinStJeorTerms`) |
| ProfileSetup.MifflinStJeorTerms | components/UserProfileSetup.tsx:101-102 | each kilogram adds 10 kcal, each centimetre 6.25, each year takes away 5, and a man's value is 166 above a woman's |
| ProfileSetup.Bmr | components/UserProfileSetup.tsx:92-104 | exactly 1200 when weight < 20 or height < 50 (missing counts as 0); otherwise the rounded Mifflin-St Jeor value, raised to 1000 if below; never below 1000 |
| ProfileSetup.CalculateBmr | components/UserProfileSetup.tsx:92-104 | the step-by-step computation (local accumulated, then `+= 5 / -161`) equals `Bmr` |
| ProfileSetup.Tdee | components/UserProfileSetup.tsx:106-120 | never below max(1000, bmr); otherwise the rounded value of bmr × multiplier (1.2, 1.375, 1.55, 1.725) plus the goal offset (-500, 0, +300), rounding after the offset |
| ProfileSetup.CalculateTdee | components/UserProfileSetup.tsx:106-120 | the multiplier overwritten by successive tests, then `-= 500` / `+= 300`, equals `Tdee` |
| ProfileSetup.Submit | components/UserProfileSetup.tsx:122-137 | no profile iff height, weight or age is 0/missing, height < 50 or weight < 20; otherwise the form's inputs with bmr and tdee derived from them, 1000 <= bmr <= tdee |
| ProfileSetup.TdeeMonotoneInActivity | components/UserProfileSetup.tsx:107-119 | for a fixed bmr >= 0 and goal, a more active level never gives a lower target |
| ProfileSetup.TdeeMonotoneInGoal | components/UserProfileSetup.tsx:114-119 | for a fixed bmr and activity, lose <= maintain <= gain |
| ProfileSetup.DefaultFormValues | components/UserProfileSetup.tsx:15-22 | the default form (170 cm, 70 kg, 30 y, male, moderate, maintain) gives bmr 1618 and tdee 2508; as female, bmr 1452 |
| ProfileSetup.FloorsBind | components/UserProfileSetup.tsx:99-119 | for 50 cm, 20 kg, 100 y, female the equation is negative and the bmr is 1000; sedentary with "lose" is clamped to 1000; the form is accepted |
| ProfileSetup.ResubmitUnchanged | components/UserProfileSetup.tsx:25-29 | a derived profile opened in the editor and submitted unchanged comes back identical |
| LocalDate.NatToDecimal | App.tsx:34-35 | `String(n)` of a natural number is a non-empty string of digits |
| LocalDate.IntToDecimal | App.tsx:36 | `String(year)` is non-empty |
| LocalDate.PadStart2 | App.tsx:34-35 | `padStart(2, '0')` gives at least two characters |
| LocalDate.LocalToday | App.tsx:31-37 | the date string is at least seven characters long |
| LocalDate.DecimalRoundTrip | App.tsx:34-35 | reading the printed digits back gives the number |
| LocalDate.IntToDecimalInjective | App.tsx:36 | distinct years print differently |
| LocalDate.PadRoundTrip | App.tsx:34-35 | a padded month or day up to 99 is exactly two digits and reads back as the number |
| LocalDate.DecimalLength | App.tsx:36 | a number with k + 1 digits prints as k + 1 characters |
| LocalDate.LocalTodayShape | App.tsx:31-37 | for a four-digit year, month index 0..11 and day 1..31 the string is `YYYY-MM-DD`, and its fields read back as the year, the 1-based month and the day |
| LocalDate.LocalTodayInjective | App.tsx:31-37 | distinct calendar days give distinct strings, so a new day never matches yesterday's log date |
| Ledger.TotalCalories | App.tsx:129 | the left-to-right calorie sum is 0 for no entries and non-negative when every entry is |
| Ledger.TotalOfConcat | App.tsx:129 | the sum over two runs of entries is the sum of the two sums |
| Ledger.Rollover | App.tsx:51-61 | the log's date is always today; a saved log dated today is kept whole; otherwise (or with nothing saved) today starts empty |
| Ledger.RolloverIdempotent | App.tsx:51-61 | rolling over twice to the same day is rolling over once |
| Ledger.Append | App.tsx:206 | the entry goes at the end; the date and all earlier entries are unchanged |
| Ledger.TotalAfterAppend | App.tsx:206 | appending raises the day's total by exactly the entry's calories |
| Ledger.WithoutId | App.tsx:210 | filtering never lengthens the list |
| Ledger.WithoutIdKeeps | App.tsx:210 | an entry is kept iff it was there and has another id; a present id shortens the list; an absent id changes nothing |
| Ledger.WithoutIdConcat | App.tsx:210 | filtering works piecewise, so the kept entries keep their order |
| Ledger.Delete | App.tsx:210 | the date stays, no entry with the id remains, and an absent id leaves the log as it was |
| Ledger.DeleteUndoesAppend | App.tsx:206-210 | deleting a just-appended entry with a fresh id restores the log |
| Ledger.TotalAfterDelete | App.tsx:210 | with non-negative calories, deleting never raises the total |
| Ledger.AppendTwoMeals | App.tsx:129 | meals of 300 and 450 kcal added to an empty day total 750 |
| App.RepairProfile | App.tsx:43-47 | a target missing or below 1000 is repaired: the inputs stay, the bmr becomes at least 1200 (the old one or 1200), the tdee becomes the integer nearest 1.2 × bmr, hence at least 1440; a target >= 1000 passes through unchanged |
| App.RepairIdempotent | App.tsx:43-47 | repairing twice is repairing once |
| App.SubmittedNeedsNoRepair | App.tsx:43-48 | a profile produced by the setup form is never touched by the repair |
| App.SubmitFloorIsBelowRepairFloor | App.tsx:43 | the calculator's floor (a target of 1000) and the repair's floor (1440) differ; a 1000 target passes the repair |
| App.ProgressPercent | App.tsx:130 | 0 without a profile; with a positive target it exceeds 100 iff the calories exceed the target |
| App.IsOverLimit | App.tsx:131 | over the limit iff there is a profile and the calories exceed its positive target |
| App.BarWidth | App.tsx:188 | the home card's bar is the progress capped at 100, and full whenever the day is over the limit |
| App.HubAgreesWithHomeCard | components/UserHub.tsx:48 | the hub and the home card flag the same days as over the limit |
| App.ReportAgreesWithHomeCard | components/ResultDisplay.tsx:163-166 | with a profile, the report's red style (as corrected) agrees with the home card's over-limit flag |
| App.StoredProfile | App.tsx:64-66 | the profile is written to storage only when there is one |
| App.StoredLog | App.tsx:68-70 | the log is written to storage only when its date is non-empty |
| App.ReloadSameDay | App.tsx:39-70 | reloading on the same day gives back the plausible profile unrepaired and today's log whole |
| App.ReloadNextDay | App.tsx:51-61 | reloading on another day starts that day with no meals |
| App.ErrorMessage | App.tsx:117 | an `Error`'s message, or "An unexpected error occurred" for any other thrown value |
| App.AppState.constructor | App.tsx:15-25 | the initial state: idle, no result, no error, Chinese, no profile, an undated empty log |
| App.AppState.Load | App.tsx:39-62 | a stored profile is adopted after the repair; the log is the rollover of the stored one to today; the rolled-over log is what gets stored next |
| App.AppState.ShowsProfileSetup | App.tsx:139 | the setup screen shows whenever there is no profile; the main screen only with a profile that is not being edited, whose target is then at least 1000 |
| App.AppState.SetupForm | components/UserProfileSetup.tsx:15-29 | the setup form starts from the current profile, or from the defaults |
| App.AppState.EditProfile | App.tsx:211 | the hub's edit button sets the editing flag, so the setup screen of App.tsx:139 opens over the existing profile; nothing else changes |
| App.AppState.SubmitProfile | App.tsx:100-103 | accepted exactly when the form passes the gate; then the profile is the submitted one and the editor closes; otherwise nothing changes |
| App.AppState.ToggleLanguage | App.tsx:144 | the language flips; nothing else changes |
| App.AppState.AddToLog | App.tsx:206 | the log becomes the append of the entry and its total rises by the entry's calories |
| App.AppState.DeleteEntry | App.tsx:210 | the log becomes the deletion of the id |
| App.AppState.BeginAnalysis | App.tsx:105-109 | from idle, the loading state with no error |
| App.AppState.FinishAnalysis | App.tsx:111-118 | success with the result, or error with the message |
| App.AppState.HandleImageSelect | App.tsx:105-119 | from idle, always ends in success (with the result, no error) or error (with the message, no result) |
| App.AppState.Reset | App.tsx:121-127 | back to idle with neither result nor error; the profile and the log stay |
| Gauge.Classify | components/Gauge.tsx:15-22 | red iff the value is above 70 (GI) or 20 (GL); amber iff above 55 / 10 but not above 70 / 20; emerald otherwise, including NaN |
| Gauge.ChooseBand | components/Gauge.tsx:15-22 | the default overwritten by two successive tests equals `Classify` |
| Gauge.ClassifyMonotone | components/Gauge.tsx:15-22 | a larger value never gets a milder band |
| Gauge.BandBoundaries | components/Gauge.tsx:16-21 | the thresholds are strict: 55 and 10 stay emerald, 70 and 20 stay amber |
| Gauge.ReplaceFirst | components/Gauge.tsx:24 | `replace` with a string pattern either keeps the length or changes it by the replacement's length minus the pattern's (its content is stated by `ReplaceWithoutMatch` and `ReplaceAtFirstMatch`) |
| Gauge.ReplaceWithoutMatch | components/Gauge.tsx:24 | `replace` returns a string without the pattern unchanged |
| Gauge.ReplaceAtFirstMatch | components/Gauge.tsx:24 | `replace` substitutes the first occurrence of the pattern and nothing else |
| Gauge.TextClass | components/Gauge.tsx:24 | the text class is the bar class with its `bg-` prefix turned into `text-` |
| Gauge.TextClasses | components/Gauge.tsx:24 | the label colours are text-emerald-400, text-amber-400 and text-red-400 |
| Gauge.FillPercent | components/Gauge.tsx:13 | NaN iff the value is NaN; otherwise at most 100, exactly 100 iff the value reaches the maximum, and the uncapped share below that |
| Gauge.RoundLabel | components/Gauge.tsx:52 | the label is the integer nearest to the value; NaN stays NaN |
| Gauge.Render | components/Gauge.tsx:12-56 | the width, bar colour, label colour and label all derive from the one value |
| Gauge.FullBarIsRed | components/ResultDisplay.tsx:388-389 | on the 30 (GL) and 100 (GI) scales a full bar is always red |
| ResultDisplay.GlycemicLoad | components/ResultDisplay.tsx:51-53 | the load is the integer nearest GI × carbs / 100, NaN counting as 0 |
| ResultDisplay.EditItem | components/ResultDisplay.tsx:44-55 | only the edited field changes, and a GI or carbs edit makes the load agree with the item's new GI and carbs |
| ResultDisplay.EditKeepsLoadConsistent | components/ResultDisplay.tsx:49-54 | no edit breaks a load that agrees with GI and carbs |
| ResultDisplay.MacroSum | components/ResultDisplay.tsx:30-33 | the sum is 0 for no items and non-negative when every value is |
| ResultDisplay.MacroSumUpdate | components/ResultDisplay.tsx:30-33 | replacing one item moves a total by exactly the difference of that item's values |
| ResultDisplay.Recalculate | components/ResultDisplay.tsx:29-42 | each total is the integer nearest the sum over the items; the meal type, description and score are kept |
| ResultDisplay.OtherEditKeepsTotal | components/ResultDisplay.tsx:44-60 | an edit to another field leaves a macro's total unchanged |
| ResultDisplay.NonMacroEditKeepsSummary | components/ResultDisplay.tsx:57-60 | after a name or GI edit, recomputing would change nothing, so skipping it is sound |
| ResultDisplay.ItemNames | components/ResultDisplay.tsx:177 | one name per item, in list order |
| ResultDisplay.EntryFrom | components/ResultDisplay.tsx:168-178 | the entry carries the injected id and time, the meal type as name, the current totals and the item names |
| ResultDisplay.BudgetTarget | components/ResultDisplay.tsx:163 | the profile's target, or 2000 when there is no profile or its target is 0; never 0 |
| ResultDisplay.Remaining | components/ResultDisplay.tsx:165 | never negative; target minus consumed while under the target, 0 at or over it, and at most the target |
| ResultDisplay.CappedProgress | components/ResultDisplay.tsx:166 | at most 100; exactly 100 iff the target is reached |
| ResultDisplay.BarRedAsWritten | components/ResultDisplay.tsx:315 | the red style as written, `progressPercent > 100` on the capped percentage; it would only ever fire over the target (and never fires, by `BarNeverRedAsWritten`) |
| ResultDisplay.BarNeverRedAsWritten | components/ResultDisplay.tsx:315 | as written, the red style never applies |
| ResultDisplay.OverBudgetBarStaysGreen | components/ResultDisplay.tsx:315 | 2500 kcal against a 2000 target is over budget, yet the bar as written is not red |
| ResultDisplay.BarRed | components/ResultDisplay.tsx:315 | corrected: red iff the consumed calories exceed a positive target |
| ResultDisplay.Budget | components/ResultDisplay.tsx:283-321 | the card shows only with a profile; remaining, the capped width, a rounded percentage of at most 100, and red exactly when over the target |
| ResultDisplay.ItemGauges | components/ResultDisplay.tsx:388-389 | each item shows a GL gauge on a 30 scale and a GI gauge on a 100 scale |
| ResultDisplay.ResultView.constructor | components/ResultDisplay.tsx:20-26 | the editable items are the result's items (none for a non-food result), with the AI's summary and the user's profile, not editing, not added |
| ResultDisplay.ResultView.ShowsReport | components/ResultDisplay.tsx:135 | a non-food result shows only the retry screen and has no items to edit |
| ResultDisplay.ResultView.AddButtonShown | components/ResultDisplay.tsx:283-293 | the add button shows only on a food report, with a profile, before the meal is added |
| ResultDisplay.ResultView.ToggleEditing | components/ResultDisplay.tsx:245 | the Edit / Save button flips the editing flag only |
| ResultDisplay.ResultView.ChangeItem | components/ResultDisplay.tsx:44-61 | the item at the index takes the edit; a macro edit recomputes the summary from all items, any other edit keeps it; the summary is always the AI's or the recomputation of the current items |
| ResultDisplay.ResultView.Add | components/ResultDisplay.tsx:168-181 | callable only while the add button shows (a food report, a profile, not yet added); the entry is built from the current summary and items, and the button then disappears, so a meal is added at most once |
| UserHub.Hub | components/UserHub.tsx:18-49 | nothing while closed; otherwise the day's calories, their share of the target, over iff above the target, the rounded share (at least 100 when over), the bar capped at 100, and the entry count |
| UserHub.HubAfterAppend | components/UserHub.tsx:46 | adding a meal adds one entry and its calories to the panel's figures |
| DailyHistory.Join | components/DailyHistory.tsx:61 | no parts join to "", one part to itself |
| DailyHistory.JoinLength | components/DailyHistory.tsx:61 | the length of a join is the parts' lengths plus one separator per neighbouring pair |
| DailyHistory.JoinConcat | components/DailyHistory.tsx:61 | joining two non-empty runs of parts is joining each and putting one separator between them, so every part appears in order with a separator between neighbours |
| DailyHistory.RowOf | components/DailyHistory.tsx:57-74 | a row shows its entry's name, items joined by ", ", its numbers, and deletes by its id |
| DailyHistory.Rows | components/DailyHistory.tsx:56 | one row per entry, in log order |
| DailyHistory.History | components/DailyHistory.tsx:32-83 | the empty message iff nothing is logged, else the rows; the total is the same sum as the app's consumed value |
| DailyHistory.DeleteButtonRemovesItsEntry | components/DailyHistory.tsx:69 | a row's button removes its own entry (and any with the same id) and keeps every other |
| DailyHistory.DeleteLowersTotal | components/DailyHistory.tsx:69 | with non-negative calories, a delete never raises the sheet's total |

## Left out

- The camera and uploader, the analysis HTTP client, the proxy server and the dev-server configuration are left out. They are I/O. The analysis outcome enters as a parameter.
- The header, the animated logo, the loading overlay and the localized string tables are left out; they are presentation only.
- The loading-message rotation timer is left out; it is `setInterval`.
- The panels' open and close flags (`showHistory`, `showUserHub`) are left out; they are navigation only.
- `localStorage`, `JSON.parse`, `new Date()`, `crypto.randomUUID` and `Date.now` become parameters. These are the parsed records, the calendar fields, and the id and timestamp.
- JSON values of the wrong type are left out. A stored profile's missing or NaN `tdee` or `bmr` is represented as 0, which the code treats the same way.
- IEEE-754 rounding is left out. Arithmetic is exact over `real`, so figures such as 1.2 × bmr carry no float error.
- Infinity is left out, and so is a percentage on a target of 0, where the code would divide by zero. Those functions require a non-zero target. The app keeps its target at 1000 or more.
- NaN from `parseInt` in the form is represented as 0, which the code treats the same way.
- The mutation in place of the parsed profile and of the shared item object is not modelled. Both objects are fresh copies, so the model updates them as values.
- React's duplicate-key warnings for entries that share an id are left out.
- ResultDisplay's own copy of the gauge (`components/ResultDisplay.tsx:184-219`) is the same code as `components/Gauge.tsx`, so both are modelled by `Gauge.Render`.
- `HealthScoreInRange` states the documented 1-10 range of the AI's health score. Nothing enforces it, so no member relies on it.
- LocalDate.LocalTodayShape: covers four-digit years only; other years make a string of another length.
- ProfileSetup.TdeeMonotoneInActivity: stated for a non-negative bmr. The calculator only produces bmr >= 1000.
- ResultDisplay.Budget: uses the corrected red style (see Findings), not the code's unreachable one.

## Findings

| source | as written | input that shows it | evidently intended | confidence | as-written member | corrected member |
|---|---|---|---|---|---|---|
| components/ResultDisplay.tsx:166, components/ResultDisplay.tsx:315 | the bar is red when `progressPercent > 100`, but `progressPercent` is already capped at 100 | 2500 kcal consumed against a 2000 kcal target | red when the day is over the target | high (not executed) | ResultDisplay.BarNeverRedAsWritten | ResultDisplay.BarRed |
