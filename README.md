# Anti-vício tracker: a Dafny model of its engine

The application helps someone leave an addiction ("vício") or a bad habit ("hábito"). A
four-step wizard records when the streak started and what the habit cost. The dashboard
and the detail screen then show the time elapsed since the start, a 30-day goal
percentage, a gamified level ladder, a calendar of relapse and success days, a report
(relapses, success rate, streak) and the money and time saved. An urgency panel picks a
support text from keywords in the addiction's name. The chat screen opens with a greeting
that names the total of clean days.

The model has one Dafny module per source file:

- `Types`: the `Addiction` record and the millisecond constants.
- `AddictionDetail`: the elapsed-time breakdown, the level ladder, relapse and success
  days, the report and the savings figures, all as pure functions of the record and an
  explicit `now`.
- `AddictionDetailView`: a class holding the state the detail screen keeps between
  renders (the prop, the settings dialog's edited copy and the last breakdown).
- `Dashboard`: the card's own copy of the breakdown, proved equal to the detail screen's.
- `AddictionBalloon`: days clean and the one-level-per-week ladder.
- `Page`: a class for the application shell (current screen, list of addictions,
  selection) with one method per handler, over pure list functions (filter, map and find
  by id).
- `AddictionSetup`: a class for the wizard (step counter and form), with the proceed
  guard, the loss-type toggle and the record built on completion.
- `UrgencyPanel`: lower-casing, `includes`, and the keyword priority that chooses the text.
- `AIChatScreen`: the total-days fold and the greeting, and a class for the chat state.
- `Numerals`: decimal numerals. These back `Date.now().toString()` ids, the
  `Transcendente Ano N` title and the numbers interpolated into texts.
- `Arithmetic`: uniqueness of Euclidean division and monotonicity of division.

How the model represents the environment:

- Instants are integers of milliseconds.
- `new Date()` becomes a `now` parameter.
- date-fns `isSameDay` becomes a `dayOf: int -> int` parameter, so any calendar can be
  plugged in. `FixedOffsetDay` is one concrete calendar for the worked examples.
- `parseFloat` becomes a `parse: string -> real` parameter.
- A saved `localStorage` list is passed in already parsed.
- Callbacks to a parent component (`onUpdate`, `onComplete`) become returned records.

Three behaviours of the code are worth knowing, because the model keeps them as written:

- **Future start dates.** The code takes `Math.abs(now - start)`, so a future start is
  mirrored into the past and not clamped to zero. See
  `AddictionDetail.FutureStartMirrorsPast`, `Dashboard.FutureStartShownAsPast` and
  `Dashboard.FutureStartCountsDown`.
- **First bracket of the ladder.** Progress is measured from 0 as `days / 3`, so day 1
  shows a third of the bar.
- **Level 0.** Level 0 covers every day count below 1, not only day 0.

## Model

| member | source | states |
|---|---|---|
| `AddictionDetail.CalculateProgress` | src/app/components/AddictionDetail.tsx:62-80 | days ≥ 0, hours < 24, minutes < 60, seconds < 60; the breakdown recombines to the whole seconds of \|now − start\|; percent is the rounded goal percentage of the days |
| `AddictionDetail.GoalPercent` | src/app/components/AddictionDetail.tsx:71-78 | the goal percentage never exceeds 100 and is 100 from 30 days on |
| `AddictionDetail.DecomposeMillis` | src/app/components/AddictionDetail.tsx:65-69 | for any non-negative millisecond difference, the day/hour/minute/second fields obtained by the source's `/` and `%` chain are in range and recombine to the difference in whole seconds |
| `AddictionDetail.ProgressSymmetric` | src/app/components/AddictionDetail.tsx:65 | because of `Math.abs`, swapping start and now gives the same breakdown |
| `AddictionDetail.FutureStartMirrorsPast` | src/app/components/AddictionDetail.tsx:65 | a start k ms in the future is shown as a start k ms in the past (no clamping to zero) |
| `AddictionDetail.GoalPercentBounds` | src/app/components/AddictionDetail.tsx:71 | the goal percentage lies in [0, 100] |
| `AddictionDetail.GoalPercentFullIff` | src/app/components/AddictionDetail.tsx:71 | the goal is at 100 % exactly when at least 30 days have passed, both directions |
| `AddictionDetail.GoalPercentExact` | src/app/components/AddictionDetail.tsx:71-78 | below 30 days, `Math.round(days / 30 * 100)` equals the integer (10·days + 1) / 3 |
| `AddictionDetail.GoalPercentMonotone` | src/app/components/AddictionDetail.tsx:71-78 | more days never give a lower percentage |
| `AddictionDetail.GoalPercentExamples` | src/app/components/AddictionDetail.tsx:71-78 | 15 days → 50, 10 → 33, 30 → 100, 45 → 100 |
| `AddictionDetail.GetGamificationLevel` | src/app/components/AddictionDetail.tsx:30-52 | nextLevel is always beyond the current day count; progress in [0, 100); level 0 exactly before day 1; level 10 is never produced (the yearly tiers start at 11) |
| `AddictionDetail.LadderBrackets` | src/app/components/AddictionDetail.tsx:32-40 | for each of brackets 1–9, every day count in [start_k, start_k+1) gets level k and nextLevel start_k+1 |
| `AddictionDetail.YearlyTiers` | src/app/components/AddictionDetail.tsx:43-51 | from 365 days: level 10 + ⌊days/365⌋ (at least 11), title "Transcendente Ano ⌊days/365⌋+1", nextLevel the next multiple of 365 |
| `AddictionDetail.LevelMonotone` | src/app/components/AddictionDetail.tsx:30-52 | the level never decreases as the days increase |
| `AddictionDetail.NextLevelIsThreshold` | src/app/components/AddictionDetail.tsx:30-52 | every day from `days` up to nextLevel − 1 has the same level, and nextLevel itself has a higher one, so "Faltam nextLevel − days dias" counts the days left |
| `AddictionDetail.ProgressZeroIff` | src/app/components/AddictionDetail.tsx:30-52 | the bar is empty exactly before day 1, on the first day of brackets 2–9, and on each whole year from 365 |
| `AddictionDetail.FirstDayProgress` | src/app/components/AddictionDetail.tsx:32 | day 1 shows 100/3 % and day 2 shows 200/3 % |
| `AddictionDetail.SecondYearExample` | src/app/components/AddictionDetail.tsx:43-51 | 400 days: level 11, "Transcendente Ano 2", next level at 730 |
| `AddictionDetail.AddRelapse` | src/app/components/AddictionDetail.tsx:105-112 | the relapse list gains the current instant at its end and no other field changes |
| `AddictionDetail.IsRelapseDay` | src/app/components/AddictionDetail.tsx:114-116 | true exactly when some recorded relapse falls on the same calendar day as the date |
| `AddictionDetail.IsSuccessDay` | src/app/components/AddictionDetail.tsx:118-122 | a success day lies in [start, now] and shares its calendar day with no recorded relapse, both directions |
| `AddictionDetail.SuccessAndRelapseExclusive` | src/app/components/AddictionDetail.tsx:114-122 | no day is both a success day and a relapse day |
| `AddictionDetail.SuccessDayIff` | src/app/components/AddictionDetail.tsx:118-122 | inside [start, now] a day is a success day exactly when it is not a relapse day |
| `AddictionDetail.RelapseDayIgnoresOrder` | src/app/components/AddictionDetail.tsx:114-116 | two relapse lists with the same elements (as multisets) mark the same days |
| `AddictionDetail.AddRelapseMarksOnlyItsDay` | src/app/components/AddictionDetail.tsx:105-116 | after recording a relapse, the relapse days are the old ones plus the day of the new instant, and nothing else |
| `AddictionDetail.RelapseDayByTimeOfDay` | src/app/components/AddictionDetail.tsx:114-116 | under a fixed-offset calendar, any time on the relapse's day counts, and the instants exactly one day before and after do not |
| `AddictionDetail.ReportStats` | src/app/components/AddictionDetail.tsx:158-160 | totalRelapses is the number of relapses; streak plus relapses equals the days; for positive days, rate × days = (days − relapses) × 100; otherwise the rate is 100 |
| `AddictionDetail.SuccessRateRange` | src/app/components/AddictionDetail.tsx:158-160 | the rate is at most 100; it is 100 without relapses; for positive days it is non-negative exactly when relapses ≤ days; the streak is negative exactly when relapses > days |
| `AddictionDetail.RelapseCostsRate` | src/app/components/AddictionDetail.tsx:105-112 | each new relapse takes 100/days points off the rate and adds one to the total |
| `AddictionDetail.SavedSoFar` | src/app/components/AddictionDetail.tsx:307 | money × days / 30 is 0 on day 0, one monthly amount on day 30, and non-negative for a non-negative amount and day count |
| `AddictionDetail.AnnualProjection` | src/app/components/AddictionDetail.tsx:497 | money × 12 is what the saved-so-far figure reaches on day 360 |
| `AddictionDetail.SavingsFacts` | src/app/components/AddictionDetail.tsx:478-500 | saved-so-far is 0 on day 0 and one monthly amount on day 30; on day 360 it equals the annual projection; it is additive in days and, for a non-negative amount, non-decreasing |
| `AddictionDetail.TenDayScenario` | src/app/components/AddictionDetail.tsx:30-80 | a start ten days ago shows 10 days, 33 %, level 3 "Guerreiro", and 500 per month saves 500/3 |
| `AddictionDetail.TimeLine` | src/app/components/AddictionDetail.tsx:311-316 | the time line is the free text followed by " × ", the day count's numeral and " dias" |
| `AddictionDetail.TimeLineNamesDays` | src/app/components/AddictionDetail.tsx:314 | two time lines for the same text are equal only when they show the same day count |
| `AddictionDetailView.MergeEdits` | src/app/components/AddictionDetail.tsx:180-232 | the saved record carries the dialog's name, emoji and colour and differs from the shown record in nothing else |
| `AddictionDetailView.MergeIsCopyWhenInSync` | src/app/components/AddictionDetail.tsx:58 | merging equals saving the edited copy exactly when the copy differs from the shown record only in the dialog's fields |
| `AddictionDetailView.MergeKeepsHistory` | src/app/components/AddictionDetail.tsx:91-94 | the corrected save keeps the shown record's relapses, start date and id |
| `AddictionDetailView.DetailView.constructor` | src/app/components/AddictionDetail.tsx:58-82 | the edited copy and the breakdown are initialised from the first prop |
| `AddictionDetailView.DetailView.Tick` | src/app/components/AddictionDetail.tsx:84-89 | each tick recomputes the breakdown from the current prop's start |
| `AddictionDetailView.DetailView.ReceiveProps` | src/app/components/AddictionDetail.tsx:58 | a new prop replaces only the shown record; the edited copy stays as it was |
| `AddictionDetailView.DetailView.EditName` | src/app/components/AddictionDetail.tsx:186 | the edited copy gets the new name and nothing else changes |
| `AddictionDetailView.DetailView.EditEmoji` | src/app/components/AddictionDetail.tsx:192 | the edited copy gets the new emoji and nothing else changes |
| `AddictionDetailView.DetailView.EditColor` | src/app/components/AddictionDetail.tsx:212 | the edited copy gets the new colour and nothing else changes |
| `AddictionDetailView.DetailView.RecordRelapse` | src/app/components/AddictionDetail.tsx:105-112 | the record handed to onUpdate is the shown record with the instant appended to its relapses |
| `AddictionDetailView.DetailView.SaveSettingsAsWritten` | src/app/components/AddictionDetail.tsx:91-94 | "Salvar" hands over the edited copy as it is |
| `AddictionDetailView.DetailView.SaveSettings` | src/app/components/AddictionDetail.tsx:91-94 | the corrected save lays the dialog's fields over the shown record: it equals the copy while they are in sync, and it keeps relapses and start date |
| `AddictionDetailView.StaleSaveDropsRelapse` | src/app/components/AddictionDetail.tsx:58-112 | relapse, then re-render, then "Salvar": the saved record has one relapse fewer than the current one |
| `AddictionDetailView.SaveAfterRelapseKeepsIt` | src/app/components/AddictionDetail.tsx:58-112 | the same sequence with the corrected save keeps the relapse and applies the edit: the result is the current record with the new name |
| `Dashboard.CalculateProgress` | src/app/components/Dashboard.tsx:41-60 | the dashboard's own copy of the computation always equals the detail screen's, with the same bounds and recombination |
| `Dashboard.CardPercent` | src/app/components/Dashboard.tsx:51-58 | for every start, the card's percentage lies in [0, 100] and is full exactly from 30 days |
| `Dashboard.CardPercentMonotone` | src/app/components/Dashboard.tsx:44-58 | for a start not after now, the percentage never goes down as time passes |
| `Dashboard.FutureStartCountsDown` | src/app/components/Dashboard.tsx:44 | a start ten days ahead shows 33 % now and only 17 % five days later: with `Math.abs` a future start counts down |
| `Dashboard.FutureStartShownAsPast` | src/app/components/Dashboard.tsx:44 | a future start shows as its mirror image in the past |
| `AddictionBalloon.DaysClean` | src/app/components/AddictionBalloon.tsx:21-26 | never negative; 0 when today is not after the start; otherwise the whole days elapsed, floored |
| `AddictionBalloon.Level` | src/app/components/AddictionBalloon.tsx:28-31 | the level is at least 1 and is the week the clean days fall in: 7 × (level − 1) ≤ days < 7 × level |
| `AddictionBalloon.WeekProgress` | src/app/components/AddictionBalloon.tsx:33-37 | the weekly bar lies in [0, 100) and is empty exactly when the clean days are a multiple of 7 |
| `AddictionBalloon.LevelAndProgressBounds` | src/app/components/AddictionBalloon.tsx:21-37 | the level is at least 1, the weekly bar is in [0, 100), and days clean and level never decrease as today advances |
| `AddictionBalloon.WeeksAndDays` | src/app/components/AddictionBalloon.tsx:28-37 | days clean = 7 × (level − 1) + days into the week; the bar is empty exactly at the start of a week |
| `Page.WithoutId` | src/app/page.tsx:73-76 | a record survives the filter exactly when it was present and has another id; the list does not grow |
| `Page.ReplaceId` | src/app/page.tsx:78-81 | same length; every record with the id becomes the replacement, the others stay where they were |
| `Page.FindId` | src/app/page.tsx:84 | None exactly when no record has the id; otherwise the record at the first index carrying it |
| `Page.Restarted` | src/app/page.tsx:86-90 | a restart sets the start to now, empties the relapses and keeps every other field |
| `Page.WithoutIdConcat` | src/app/page.tsx:74 | the filter distributes over concatenation, so it keeps the remaining order |
| `Page.WithoutIdFacts` | src/app/page.tsx:74 | deleting an absent id changes nothing; deleting twice is deleting once; exactly the records carrying the id are removed |
| `Page.FindAfterReplace` | src/app/page.tsx:84-92 | after replacing a present id with a record carrying it, a lookup finds the replacement |
| `Page.ReplaceIdStable` | src/app/page.tsx:79 | replacing twice is replacing once, and replacing an absent id changes nothing |
| `Page.FindFirst` | src/app/page.tsx:84 | a lookup returns the record at the first index carrying the id |
| `Page.App.constructor` | src/app/page.tsx:14-16 | the app opens on the welcome screen with no addictions and no selection |
| `Page.App.Rendered` | src/app/page.tsx:126-182 | the current screen is rendered, except the detail screen without a selection, which renders nothing; under the app's invariant (the detail screen is open only with a selection, kept by the constructor and every handler, page.tsx:63-71) the current screen is always rendered |
| `Page.App.Load` | src/app/page.tsx:28-40 | a stored list replaces the list and opens the dashboard; with nothing stored nothing changes |
| `Page.App.Start` | src/app/page.tsx:54-56 | the wizard opens |
| `Page.App.AddictionComplete` | src/app/page.tsx:58-61 | the new record is appended and the dashboard opens |
| `Page.App.SetupBack` | src/app/page.tsx:133 | leaving the wizard shows the dashboard if there are addictions, the welcome screen otherwise |
| `Page.App.AddictionClick` | src/app/page.tsx:63-66 | the clicked record becomes the selection and the detail screen opens |
| `Page.App.BackToDashboard` | src/app/page.tsx:68-71 | the selection is cleared and the dashboard opens |
| `Page.App.DeleteAddiction` | src/app/page.tsx:73-76 | every record with the id is removed and the dashboard opens; the selection is untouched |
| `Page.App.UpdateAddiction` | src/app/page.tsx:78-81 | records with the update's id are replaced, and the update becomes the selection |
| `Page.App.ResetAddiction` | src/app/page.tsx:83-94 | an unknown id changes nothing; otherwise the first match, restarted, replaces every record with the id and becomes the selection |
| `Page.App.OpenSettings` | src/app/page.tsx:96-98 | the settings screen opens |
| `Page.App.CloseSettings` | src/app/page.tsx:100-102 | the dashboard opens |
| `Page.App.AddNew` | src/app/page.tsx:104-106 | the wizard opens |
| `Page.App.OpenChat` | src/app/page.tsx:108-110 | the chat screen opens |
| `Page.App.CloseChat` | src/app/page.tsx:112-114 | the dashboard opens |
| `Page.App.OpenPremium` | src/app/page.tsx:116-118 | the premium screen opens |
| `Page.App.ClosePremium` | src/app/page.tsx:120-122 | the dashboard opens |
| `Page.RestartScenario` | src/app/page.tsx:83-94 | after a restart through the app, a lookup finds the record starting now with no relapses; the list keeps its length and records with other ids |
| `AddictionSetup.ApplyEdit` | src/app/components/AddictionSetup.tsx:145-386 | an input's onChange never touches the selected loss types |
| `AddictionSetup.StepProgress` | src/app/components/AddictionSetup.tsx:54-55 | on steps 1 to 4 the header bar is above 0 and at most 100, and it is full exactly on the last step |
| `AddictionSetup.CanProceed` | src/app/components/AddictionSetup.tsx:101-106 | the wizard may go on exactly when step 1 has a category and step 2 has a loss type; later steps always may |
| `AddictionSetup.Without` | src/app/components/AddictionSetup.tsx:95 | a type survives the filter exactly when it was present and differs; removing an absent type changes nothing |
| `AddictionSetup.Toggled` | src/app/components/AddictionSetup.tsx:93-99 | a toggle flips its own type's membership and leaves every other type's alone |
| `AddictionSetup.ToggleTwice` | src/app/components/AddictionSetup.tsx:93-99 | toggling twice restores membership; the list itself comes back when the type was absent, and otherwise the type moves to the end |
| `AddictionSetup.WithoutAppended` | src/app/components/AddictionSetup.tsx:95-97 | removing a type that was just appended to a list without it gives that list back |
| `AddictionSetup.ToggleKeepsDistinct` | src/app/components/AddictionSetup.tsx:93-99 | a list without repeats has none after a toggle |
| `AddictionSetup.WithoutKeepsDistinct` | src/app/components/AddictionSetup.tsx:95 | filtering keeps a list free of repeats |
| `AddictionSetup.BuildAddiction` | src/app/components/AddictionSetup.tsx:73-91 | the id is the instant's numeral; the name falls back to the category; an empty text becomes an absent loss and a non-empty money text is parsed; relapses start empty; every other field is copied from the form |
| `AddictionSetup.BuildIgnoresLossType` | src/app/components/AddictionSetup.tsx:73-91 | the selected loss types do not affect the built record |
| `AddictionSetup.BuiltRecordFacts` | src/app/components/AddictionSetup.tsx:75-76 | records built at different instants get different ids, and a record built after step 1 has a non-empty name |
| `AddictionSetup.SetupWizard.constructor` | src/app/components/AddictionSetup.tsx:38-51 | the wizard opens on step 1 with the initial form (emoji 🚭, colour blue, nothing selected) |
| `AddictionSetup.SetupWizard.Next` | src/app/components/AddictionSetup.tsx:57-63 | below the last step the step advances by one; on the last step the built record is handed over and the step stays |
| `AddictionSetup.SetupWizard.PressNext` | src/app/components/AddictionSetup.tsx:466-474 | the button does nothing while the guard fails, and otherwise acts as Next |
| `AddictionSetup.SetupWizard.Back` | src/app/components/AddictionSetup.tsx:65-71 | the wizard steps back, or leaves exactly when it is on step 1 |
| `AddictionSetup.SetupWizard.ToggleLossType` | src/app/components/AddictionSetup.tsx:93-99 | the form's loss types are toggled and nothing else changes |
| `AddictionSetup.SetupWizard.Edit` | src/app/components/AddictionSetup.tsx:145-386 | the form gets that one input's new value |
| `UrgencyPanel.ToLower` | src/app/components/UrgencyPanel.tsx:52 | same length, every character lower-cased in place |
| `UrgencyPanel.Includes` | src/app/components/UrgencyPanel.tsx:54-61 | `includes` is true exactly when the keyword occurs at some position |
| `UrgencyPanel.GetContent` | src/app/components/UrgencyPanel.tsx:51-69 | each text is chosen exactly when its group is the first the lower-cased name mentions: pornography, then food, then alcohol, and the default when none is mentioned |
| `UrgencyPanel.ContentIgnoresCase` | src/app/components/UrgencyPanel.tsx:52 | an already lower-cased name gets the same text |
| `UrgencyPanel.PornographyExample` | src/app/components/UrgencyPanel.tsx:54-56 | "Pornô" gets the pornography text |
| `UrgencyPanel.AlcoholExample` | src/app/components/UrgencyPanel.tsx:60-62 | "ÁLCOOL" is lower-cased to "álcool" and gets the alcohol text |
| `UrgencyPanel.DefaultExample` | src/app/components/UrgencyPanel.tsx:64-69 | "Jogo" mentions no keyword and gets the default text |
| `UrgencyPanel.FoodBeforeAlcoholExample` | src/app/components/UrgencyPanel.tsx:57-62 | "Comida e bebida" gets the food text, because food is checked before alcohol |
| `AIChatScreen.SumDaysShift` | src/app/components/AIChatScreen.tsx:32-37 | the fold carries its starting accumulator through unchanged |
| `AIChatScreen.TotalDays` | src/app/components/AIChatScreen.tsx:32-37 | the empty list totals 0 and a single record totals its own floored day count |
| `AIChatScreen.TotalDaysAppend` | src/app/components/AIChatScreen.tsx:32-37 | the total is additive over concatenation, and the empty list totals 0 |
| `AIChatScreen.TotalDaysSign` | src/app/components/AIChatScreen.tsx:35 | with every start in the past the total is non-negative; one start a day or more ahead makes a one-record total negative (nothing is clamped) |
| `AIChatScreen.Greeting` | src/app/components/AIChatScreen.tsx:39-43 | an empty list gets the fixed greeting; otherwise the greeting names the total days |
| `AIChatScreen.GreetingNamesTotal` | src/app/components/AIChatScreen.tsx:42 | two non-empty lists get the same greeting exactly when their totals agree |
| `AIChatScreen.GreetingDistinguishesEmpty` | src/app/components/AIChatScreen.tsx:39-43 | the empty list's greeting is never a counting greeting |
| `AIChatScreen.ChatScreen.constructor` | src/app/components/AIChatScreen.tsx:24-25 | the chat opens with no messages and an empty input |
| `AIChatScreen.ChatScreen.Greet` | src/app/components/AIChatScreen.tsx:45-50 | the messages become exactly one assistant message with id "1" holding the greeting |
| `AIChatScreen.ChatScreen.Send` | src/app/components/AIChatScreen.tsx:57-60 | sending is switched off: neither the messages nor the input change |
| `Numerals.NatToString` | src/app/components/AddictionSetup.tsx:75 | a numeral is non-empty and all digits, has no leading zero, and has one digit exactly below 10 |
| `Numerals.ParseNatToString` | src/app/components/AddictionSetup.tsx:75 | reading a numeral back gives the number |
| `Numerals.NatToStringInjective` | src/app/components/AddictionSetup.tsx:75 | different numbers have different numerals |
| `Numerals.IntToString` | src/app/components/AIChatScreen.tsx:42 | a signed numeral starts with '-' exactly for negative numbers, and is the plain numeral otherwise |
| `Numerals.IntToStringInjective` | src/app/components/AIChatScreen.tsx:42 | different integers have different signed numerals |

## Left out

- Persistence: reading and writing `localStorage` and the JSON round trip are left out. `Page.App.Load` receives the parsed list. Saving the list only when it is non-empty (src/app/page.tsx:43-47) and the settings effect are not modelled.
- Settings: the settings object and its screens (SettingsScreen, PremiumScreen, WelcomeScreen, MainScreen) and the chat API route are not part of this model. Theme, accent colour and currency only choose styling or the "R$"/"$" symbol.
- Card display conditions: the savings cards are guarded by `addiction.losses.money &&` and `addiction.losses.time &&` (src/app/components/AddictionDetail.tsx:303, 311, 478, 504). Which cards show is not modelled. React renders a money amount of 0 as the text "0" in place of the card, and that is not modelled either.
- Presentation: the colour and gradient lookup tables, the motivational quote drawn with `Math.random`, `handleShare` (`navigator.share`), the emoji options and the dialogs' open/close flags are display concerns.
- Calendar and clocks: the month grid (`currentMonth`, `eachDayOfInterval`) and the clock text `format(new Date(), "HH:mm")` are not modelled. Calendar days are the `dayOf` parameter, so time zones and daylight saving come from whatever calendar is supplied.
- Timers: the intervals are modelled as single `Tick` calls. How often they fire and the cleanup are not modelled.
- Dates as text: `startDate` and relapse entries are ISO-8601 strings in the records. The model stores the instant in milliseconds, so `toISOString` and `new Date(text)` are assumed to round-trip.
- `AddictionSetup.BuildAddiction`: `parseFloat` is the `parse` parameter. Its NaN result for a non-numeric text, and the money card's falsy test on NaN, are not modelled.
- Number formatting: `toFixed(1)` and `toFixed(2)` are not modelled. `AddictionDetail.ReportStats` keeps the exact success rate, and the savings functions are exact reals.
- Number width: day counts and rates are unbounded integers and exact reals, not IEEE doubles, so rounding of `Math.round` and of division on very large instants is not modelled.
- `UrgencyPanel.ToLower`: maps only ASCII A–Z and the Latin-1 capitals À–Þ (except ×). That covers every keyword, but not the full Unicode case mapping of `toLowerCase`. The texts are kept verbatim.
- Balloon record: AddictionBalloon declares its own record shape (`start_date`, a relapse count). The model takes the start instant directly as a parameter and uses no other field.
- Chat: sending is switched off in the source, so no reply, typing indicator or error state is modelled. The scroll-into-view effect is display behaviour.
- `startTime`: the time text typed at setup is copied into the record but never enters any computation, in the source or in the model.

## Findings

| source | as written | input that shows it | evidently intended | confidence | as-written member | corrected member |
|---|---|---|---|---|---|---|
| src/app/components/AddictionDetail.tsx:58 | `editedAddiction` is taken from the prop once, at first render. `handleSaveSettings` (lines 91-94) hands that snapshot to `onUpdate`. | Open the detail screen, press "Registrar Recaída" (lines 105-112, the parent updates the prop), then open the settings dialog and press "Salvar". The saved record has the relapse list from before. A reset done before saving is undone the same way. | Saving the dialog changes only name, emoji and colour, over the record currently shown. | not executed | `AddictionDetailView.StaleSaveDropsRelapse` | `AddictionDetailView.DetailView.SaveSettings` |
