# WorkoutTimer — a verified Dafny model

WorkoutTimer is an Android interval-training app written in Kotlin, with a small AWS Lambda function (Node.js) that sends monthly summary e-mails through Amazon SES. This project models the app's core in Dafny 4.11 and proves properties of the model:

- **Active timer.** The workout engine is `ActiveTimer.ActiveTimerViewModel`. It loads a plan in one of three modes:
  - SIMPLE: a count of anonymous exercises;
  - LIBRARY: exercises chosen from the bundled library;
  - CUSTOM: named entries, each with its own duration.

  It then runs the 3-second countdown, the preparation phase, the rounds of work and rest intervals, the rests between rounds, and finally saves a history record. Its methods change the view model's fields step by step, as the Kotlin coroutine does. Every method is proved against specification functions in `ActiveTimerSpec`:
  - `RunCues` gives the full sequence of sounds, speech and phase entries;
  - `Schedule` gives the list of phases with their lengths.

  `ActiveTimerProperties` proves that the phases a run enters are exactly `Schedule`. It also proves that their total length is the closed form `rounds × exercises × work + rounds × (exercises − 1) × rest + (rounds − 1) × rest`, and it proves the pause arithmetic.

  The methods also state the run's timing on a simulated clock. Each second of a countdown is ten 100 ms slices. A slice that finds the timer paused waits for the resume and adds no running time, so a countdown's unpaused running time grows by at most 1000 ms per second counted. When the user does nothing, every phase takes exactly 1000 ms per second it counts: the work starts `OpeningTime` seconds after launch, the rounds take `RoundsTime` seconds, and finishing takes 500 ms more. `ActiveTimerProperties.QuietRunDuration` shows that such a run is saved with the schedule's work and rest seconds as its duration, which is the closed form above outside CUSTOM mode. The paused total is not reset when the work starts, so a pause during the opening countdown or preparation is also subtracted from the saved duration, as in the source.
- **Quick timer.** A countdown of up to 99:59 that can be paused, resumed and reset.
- **Plan editor.** `PlanEdit.PlanEditViewModel` covers the settings clamps, the selected and custom exercise lists (add, remove and reorder are permutations), and `save`, which writes the plan and, by mode, replaces the junction or custom rows. `PlanEditScreen` models the screen's duration estimate (with 32-bit wrap-around), the save button's enabling, and the numeric-field forwarding.
- **Data access.** The Room tables for workout–exercise links and for custom exercises are classes over a sequence of rows. Their queries filter by plan and order by `orderIndex`. Their "replace" transactions are proved to read back exactly what was written and to leave other plans' rows alone.
- **Exercise library.** The asset scan that seeds the library (categories, direct images and subcategory folders, sorted by category, subcategory and name), the name formatting, the fixed category table, and the three search/filter screens.
- **Streak and e-mail.**
  - The current-streak computation exists as three identical copies. It is written once, in `Streak`, which models `EmailService.kt:226-253`, `AchievementTracker.kt:62-89` and `EmailDebugHelper.kt:110-135`.
  - The e-mail duration formatting also exists as three identical copies. It is written once, as `EmailTemplate.FormatDuration`, which models `EmailTemplate.kt:242-250`, `EmailService.kt:255-263` and `EmailDebugHelper.kt:176-184`.
  - The rest: the achievement checks, the summary e-mail's content and subject line, the request `EmailService` sends, the weekly/biweekly/monthly worker rule, and the debug report.
- **Lambda handler.** `lambda-function.js` is modelled as a function from the request event, the `SENDER_EMAIL` setting and the SES outcome to the HTTP response and the SES call it makes. JSON values are a small `JsValue` datatype with JavaScript truthiness.
  - The proofs cover the validation order, the e-mail check, the status codes and the CORS headers.
  - They also show that the reply's `workoutData` echoes only top-level keys of the request. The app sends its figures nested under `workoutData`, so a successful reply to the app echoes zeros (`LambdaHandler.AppFiguresEchoedAsZero`).

Kotlin semantics the app relies on are written out in helper modules:
- `KotlinInt`: 32-bit `Int` wrap-around, division and remainder that truncate toward zero, `toString`, `toIntOrNull`.
- `KotlinText`: `trim`, `isBlank`, `split`, `joinToString`, `capitalize`, case-insensitive `contains`.
- `KotlinCollections`: `filter`, `count`, `distinct().sorted()`, and the natural `String` order, which on the JVM compares UTF-16 code units.
- `RowOrder`: `ORDER BY`.

Paths in the table below are relative to the repository root.

## Model

| member | source | states |
|---|---|---|
| ActiveTimer.ActiveTimerViewModel.constructor | app/src/main/java/com/stopwatch/app/screen/activetimer/ActiveTimerViewModel.kt:41-84 | the initial UI state: round 1 of 1, exercise 1 of 1, COUNTDOWN phase with 3 of 3 seconds, not paused, loading, not finished, SIMPLE mode, 30 s preparation, no exercises, empty history |
| ActiveTimer.ActiveTimerViewModel.Load | app/src/main/java/com/stopwatch/app/screen/activetimer/ActiveTimerViewModel.kt:86-122 | `planId` is always set; the workout starts iff the plan exists; then the name is copied, loading ends and the timer configuration is `LoadedConfig` of the plan and the rows the two DAOs return; a missing plan leaves the configuration untouched |
| ActiveTimer.ActiveTimerViewModel.CopySettings | app/src/main/java/com/stopwatch/app/screen/activetimer/ActiveTimerViewModel.kt:90-95 | name, rounds, work, rest, preparation and mode are copied from the plan |
| ActiveTimer.ActiveTimerViewModel.LoadExercises | app/src/main/java/com/stopwatch/app/screen/activetimer/ActiveTimerViewModel.kt:98-117 | the configuration after the mode switch is `LoadedConfig` of the plan and the rows read |
| ActiveTimerSpec.LoadedConfig | app/src/main/java/com/stopwatch/app/screen/activetimer/ActiveTimerViewModel.kt:98-117 | LIBRARY takes the junction's exercises, CUSTOM the custom rows, SIMPLE clears the library list; the exercise count is the plan's in SIMPLE mode and in LIBRARY mode with no exercises, otherwise the list's length; settings copied verbatim |
| ActiveTimer.ActiveTimerViewModel.StartWorkout | app/src/main/java/com/stopwatch/app/screen/activetimer/ActiveTimerViewModel.kt:124-304 | a finished run emits exactly `RunCues` of the loaded configuration, then the finish cues, and appends one history record completed between the start time and now; a cancelled run saves nothing and its events are a prefix of `RunCues`; when the user does nothing, the run finishes, the work starts `OpeningTime` seconds after launch, the record is completed `RoundsTime` seconds after that and saved with the pause-adjusted whole seconds between the two, and the finish takes 500 ms more |
| ActiveTimer.ActiveTimerViewModel.Conclude | app/src/main/java/com/stopwatch/app/screen/activetimer/ActiveTimerViewModel.kt:296-302 | a cancelled job saves nothing and changes nothing; otherwise the run finishes as in `Finish` |
| ActiveTimer.ActiveTimerViewModel.RunPhases | app/src/main/java/com/stopwatch/app/screen/activetimer/ActiveTimerViewModel.kt:126-294 | countdown, preparation and all rounds emit `RunCues` (a prefix of it if cancelled); the workout start time is taken between the opening and the rounds, and stays as it was when the opening is cancelled; with no user action the start time is `OpeningTime` seconds after the start and the rounds then take `RoundsTime` seconds, without a pause |
| ActiveTimer.ActiveTimerViewModel.Opening | app/src/main/java/com/stopwatch/app/screen/activetimer/ActiveTimerViewModel.kt:126-168 | the 3-second countdown and the preparation phase emit `OpeningCues`; with no user action they take 3 + prep seconds (`OpeningTime`) |
| ActiveTimer.ActiveTimerViewModel.GetReadyPhase | app/src/main/java/com/stopwatch/app/screen/activetimer/ActiveTimerViewModel.kt:126-132 | the opening countdown emits `GetReadyCues`; with no user action it takes exactly 3000 ms |
| ActiveTimer.ActiveTimerViewModel.ShowPrep | app/src/main/java/com/stopwatch/app/screen/activetimer/ActiveTimerViewModel.kt:138-164 | the preparation screen shows `PrepShown`: the first exercise, or "Get Ready!" when there is none |
| ActiveTimer.ActiveTimerViewModel.EnterPrep | app/src/main/java/com/stopwatch/app/screen/activetimer/ActiveTimerViewModel.kt:134-166 | the PREP phase lasts the plan's preparation seconds and is announced |
| ActiveTimer.ActiveTimerViewModel.PrepPhase | app/src/main/java/com/stopwatch/app/screen/activetimer/ActiveTimerViewModel.kt:134-168 | the preparation phase emits `PrepCues`; with no user action it takes 1000 ms per preparation second |
| ActiveTimer.ActiveTimerViewModel.AllRounds | app/src/main/java/com/stopwatch/app/screen/activetimer/ActiveTimerViewModel.kt:172-294 | the rounds loop emits the cues of every round in order; with no user action it takes `RoundsTime` seconds |
| ActiveTimer.ActiveTimerViewModel.RunRounds | app/src/main/java/com/stopwatch/app/screen/activetimer/ActiveTimerViewModel.kt:172-294 | the rounds loop emits the concatenation of the per-round cue lists; with no user action it takes 1000 ms per second that the rounds count down |
| ActiveTimer.ActiveTimerViewModel.RoundStep | app/src/main/java/com/stopwatch/app/screen/activetimer/ActiveTimerViewModel.kt:172-294 | one iteration of the rounds loop appends the next round's cues and, with no user action, adds that round's time to the time so far |
| ActiveTimer.ActiveTimerViewModel.RunRound | app/src/main/java/com/stopwatch/app/screen/activetimer/ActiveTimerViewModel.kt:173-293 | one round emits `RoundCues`: its exercises, then the rest between rounds unless it is the last; with no user action it takes `RoundTime` seconds |
| ActiveTimer.ActiveTimerViewModel.RoundExercises | app/src/main/java/com/stopwatch/app/screen/activetimer/ActiveTimerViewModel.kt:175-284 | the exercises loop of one round emits `ExercisesCuesUpTo` all exercises; with no user action it takes `ExercisesTime` seconds |
| ActiveTimer.ActiveTimerViewModel.RunExercises | app/src/main/java/com/stopwatch/app/screen/activetimer/ActiveTimerViewModel.kt:175-284 | the exercises loop emits the concatenation of the per-exercise cue lists; with no user action it takes 1000 ms per second that its exercises count down |
| ActiveTimer.ActiveTimerViewModel.ExerciseStep | app/src/main/java/com/stopwatch/app/screen/activetimer/ActiveTimerViewModel.kt:175-284 | one iteration of the exercises loop appends the next exercise's cues and, with no user action, adds that exercise's time to the time so far |
| ActiveTimer.ActiveTimerViewModel.RunExercise | app/src/main/java/com/stopwatch/app/screen/activetimer/ActiveTimerViewModel.kt:176-283 | one exercise emits its work interval and, unless it is the last, its rest; with no user action it takes its work seconds plus its rest seconds |
| ActiveTimer.ActiveTimerViewModel.ShowExercise | app/src/main/java/com/stopwatch/app/screen/activetimer/ActiveTimerViewModel.kt:178-269 | the current exercise shown, its work duration (the custom entry's own duration in CUSTOM mode) and the preview of the next exercise ("Final Exercise!" after the last of the last round) |
| ActiveTimer.ActiveTimerViewModel.EnterWork | app/src/main/java/com/stopwatch/app/screen/activetimer/ActiveTimerViewModel.kt:178-273 | the WORK phase starts with the exercise's work duration and is logged as the work entry |
| ActiveTimer.ActiveTimerViewModel.WorkPhase | app/src/main/java/com/stopwatch/app/screen/activetimer/ActiveTimerViewModel.kt:271-276 | the work interval emits `WorkCues` (a prefix if cancelled) and keeps the exercise display; with no user action it takes 1000 ms per work second |
| ActiveTimer.ActiveTimerViewModel.WorkCountdown | app/src/main/java/com/stopwatch/app/screen/activetimer/ActiveTimerViewModel.kt:271-276 | "start", the countdown and "stop" emit `WorkCountdownCues` (a prefix if cancelled); with no user action they take 1000 ms per second |
| ActiveTimer.ActiveTimerViewModel.RestPhase | app/src/main/java/com/stopwatch/app/screen/activetimer/ActiveTimerViewModel.kt:278-283 | the rest between exercises emits `RestCues`; with no user action it takes 1000 ms per rest second, and no time when there is no rest |
| ActiveTimer.ActiveTimerViewModel.RoundBreak | app/src/main/java/com/stopwatch/app/screen/activetimer/ActiveTimerViewModel.kt:286-293 | the rest between rounds emits `RoundBreakCues`; with no user action it takes 1000 ms per rest second, and no time when there is no break |
| ActiveTimer.ActiveTimerViewModel.Countdown | app/src/main/java/com/stopwatch/app/screen/activetimer/ActiveTimerViewModel.kt:306-332 | a phase of n seconds ends at 0 seconds (when n > 0) after emitting `CountdownCues(n)`: the beeps of the last three seconds, with a preparation beep first in WORK phases; its unpaused running time grows by at most 1000 ms per second, and with no user action it takes exactly 1000 ms per second without a pause |
| ActiveTimer.ActiveTimerViewModel.CountdownSecond | app/src/main/java/com/stopwatch/app/screen/activetimer/ActiveTimerViewModel.kt:309-328 | one second of the countdown loop plays that second's cues before its ten slices; its unpaused running time grows by 100 ms per slice that found the timer running, at most 1000 ms, and with no user action exactly 1000 ms |
| ActiveTimer.ActiveTimerViewModel.Beeps | app/src/main/java/com/stopwatch/app/screen/activetimer/ActiveTimerViewModel.kt:312-317 | the sounds of one second are `SecondCues` of the seconds remaining |
| ActiveTimer.ActiveTimerViewModel.OneSecond | app/src/main/java/com/stopwatch/app/screen/activetimer/ActiveTimerViewModel.kt:320-328 | the unpaused running time grows by 100 ms for each of the ten slices that found the timer running (at most 1000 ms); with no user action the clock advances exactly 1000 ms, nothing is paused and the job is not cancelled; the resume assumption is kept |
| ActiveTimer.ActiveTimerViewModel.WaitWhilePaused | app/src/main/java/com/stopwatch/app/screen/activetimer/ActiveTimerViewModel.kt:334-338 | unless the job is cancelled, it returns only when the timer is not paused; waiting adds no unpaused running time, and a timer not paused does not wait at all |
| ActiveTimer.ActiveTimerViewModel.Delay | app/src/main/java/com/stopwatch/app/screen/activetimer/ActiveTimerViewModel.kt:320-338 | the clock advances by the delay, and at most one user action (tap pause, leave) takes effect during it; the unpaused running time grows by the delay when the timer was running and not at all when it was paused |
| ActiveTimer.ActiveTimerViewModel.TogglePause | app/src/main/java/com/stopwatch/app/screen/activetimer/ActiveTimerViewModel.kt:340-348 | the pause state becomes `Toggled` of the old one: pausing records the pause start, resuming adds the paused time to the total |
| ActiveTimer.ActiveTimerViewModel.Abandon | app/src/main/java/com/stopwatch/app/screen/activetimer/ActiveTimerViewModel.kt:350-353 | the timer job is cancelled |
| ActiveTimer.ActiveTimerViewModel.GetTotalDurationSeconds | app/src/main/java/com/stopwatch/app/screen/activetimer/ActiveTimerViewModel.kt:355-359 | the elapsed seconds are never negative (they are `TotalDurationSeconds` of the pause state) |
| ActiveTimerSpec.TotalDurationSeconds | app/src/main/java/com/stopwatch/app/screen/activetimer/ActiveTimerViewModel.kt:355-359 | elapsed wall time minus paused time (up to a pause still running), in whole seconds, wrapped to Int and coerced to at least 0 |
| ActiveTimer.ActiveTimerViewModel.SaveHistory | app/src/main/java/com/stopwatch/app/screen/activetimer/ActiveTimerViewModel.kt:361-386 | exactly one record is appended: plan id, name, completion time, elapsed seconds, total rounds; the achievement checks follow |
| ActiveTimer.ActiveTimerViewModel.Finish | app/src/main/java/com/stopwatch/app/screen/activetimer/ActiveTimerViewModel.kt:296-302 | the record's duration is the elapsed time when finishing starts, the record is saved and the timer is finished; with no user action it takes 500 ms |
| ActiveTimerSpec.Phases | app/src/main/java/com/stopwatch/app/screen/activetimer/ActiveTimerViewModel.kt:22-28 | the phase entries of an event trace, never more than its events |
| ActiveTimerSpec.ExerciseSteps | app/src/main/java/com/stopwatch/app/screen/activetimer/ActiveTimerViewModel.kt:175-284 | one cue list per exercise, whose concatenation is the round's exercise cues |
| ActiveTimerSpec.RoundSteps | app/src/main/java/com/stopwatch/app/screen/activetimer/ActiveTimerViewModel.kt:172-294 | one cue list per round, whose concatenation is all rounds' cues |
| ActiveTimerSpec.ListsExercisesFlatten | app/src/main/java/com/stopwatch/app/screen/activetimer/ActiveTimerViewModel.kt:175-284 | after k iterations the exercises loop has emitted the cues of the first k exercises |
| ActiveTimerSpec.ListsRoundsFlatten | app/src/main/java/com/stopwatch/app/screen/activetimer/ActiveTimerViewModel.kt:172-294 | after k iterations the rounds loop has emitted the cues of the first k rounds |
| ActiveTimerSpec.ExercisesCuesUpToPrefix | app/src/main/java/com/stopwatch/app/screen/activetimer/ActiveTimerViewModel.kt:175-284 | the cues of the first k exercises are a prefix of those of the first m ≥ k |
| ActiveTimerSpec.RoundsCuesUpToPrefix | app/src/main/java/com/stopwatch/app/screen/activetimer/ActiveTimerViewModel.kt:172-294 | the cues of the first k rounds are a prefix of those of the first m ≥ k |
| ActiveTimerSpec.CountdownCuesSplit | app/src/main/java/com/stopwatch/app/screen/activetimer/ActiveTimerViewModel.kt:306-332 | a countdown's cues split at any second into the part already played and the rest |
| ActiveTimerSpec.CountdownCuesBetweenStep | app/src/main/java/com/stopwatch/app/screen/activetimer/ActiveTimerViewModel.kt:309-330 | one more second of countdown appends exactly that second's cues |
| ActiveTimerSpec.CountdownStoppedEarly | app/src/main/java/com/stopwatch/app/screen/activetimer/ActiveTimerViewModel.kt:306-332 | a countdown stopped at any second has emitted a prefix of its full cues, and the whole list when it reaches 0 |
| ActiveTimerSpec.StoppedInStep | app/src/main/java/com/stopwatch/app/screen/activetimer/ActiveTimerViewModel.kt:172-294 | stopping inside one step of a loop leaves a prefix of the whole loop's cues |
| ActiveTimerSpec.ExtendsThen | app/src/main/java/com/stopwatch/app/screen/activetimer/ActiveTimerViewModel.kt:172-294 | a prefix of the later part after a completed part is a prefix of the whole |
| ActiveTimerSpec.ExtendsLonger | app/src/main/java/com/stopwatch/app/screen/activetimer/ActiveTimerViewModel.kt:172-294 | a prefix of a prefix is a prefix |
| ActiveTimerProperties.PhasesOfRun | app/src/main/java/com/stopwatch/app/screen/activetimer/ActiveTimerViewModel.kt:124-304 | the phases a run enters are exactly `Schedule` of its configuration: countdown, preparation, then per round each work interval, the rests and the round breaks |
| ActiveTimerProperties.PhasesAppend | app/src/main/java/com/stopwatch/app/screen/activetimer/ActiveTimerViewModel.kt:124-304 | the phases of two traces in sequence are the phases of each in sequence |
| ActiveTimerProperties.PhasesOfCountdown | app/src/main/java/com/stopwatch/app/screen/activetimer/ActiveTimerViewModel.kt:306-332 | the countdown of a phase enters no new phase |
| ActiveTimerProperties.PhasesOfEntering | app/src/main/java/com/stopwatch/app/screen/activetimer/ActiveTimerViewModel.kt:124-304 | a phase entry followed by cues that enter nothing contributes exactly that entry |
| ActiveTimerProperties.PhasesOfWork | app/src/main/java/com/stopwatch/app/screen/activetimer/ActiveTimerViewModel.kt:271-276 | a work interval enters exactly one WORK phase |
| ActiveTimerProperties.PhasesOfExercise | app/src/main/java/com/stopwatch/app/screen/activetimer/ActiveTimerViewModel.kt:176-283 | one exercise enters its WORK phase and, when rest applies, one REST phase |
| ActiveTimerProperties.PhasesOfExercises | app/src/main/java/com/stopwatch/app/screen/activetimer/ActiveTimerViewModel.kt:175-284 | the exercises loop enters the phases of each exercise in order |
| ActiveTimerProperties.PhasesOfRoundBreak | app/src/main/java/com/stopwatch/app/screen/activetimer/ActiveTimerViewModel.kt:286-293 | a round break enters one REST phase when rest applies and nothing otherwise |
| ActiveTimerProperties.PhasesOfRound | app/src/main/java/com/stopwatch/app/screen/activetimer/ActiveTimerViewModel.kt:173-293 | one round enters its exercises' phases and then its round break |
| ActiveTimerProperties.PhasesOfRounds | app/src/main/java/com/stopwatch/app/screen/activetimer/ActiveTimerViewModel.kt:172-294 | the rounds loop enters the phases of each round in order |
| ActiveTimerProperties.PhasesOfGetReady | app/src/main/java/com/stopwatch/app/screen/activetimer/ActiveTimerViewModel.kt:126-132 | the opening enters one 3-second COUNTDOWN phase |
| ActiveTimerProperties.PhasesOfPrep | app/src/main/java/com/stopwatch/app/screen/activetimer/ActiveTimerViewModel.kt:134-168 | the preparation enters one PREP phase of the plan's preparation seconds |
| ActiveTimerProperties.PhasesOfOpening | app/src/main/java/com/stopwatch/app/screen/activetimer/ActiveTimerViewModel.kt:126-168 | countdown then preparation |
| ActiveTimerProperties.IntervalSecondsAppend | app/src/main/java/com/stopwatch/app/screen/activetimer/ActiveTimerViewModel.kt:172-294 | the interval time of two phase lists in sequence is the sum of theirs |
| ActiveTimerProperties.ExercisesSeconds | app/src/main/java/com/stopwatch/app/screen/activetimer/ActiveTimerViewModel.kt:175-284 | the first k exercises last their summed work durations plus one rest per gap between them |
| ActiveTimerProperties.ExerciseEntriesSeconds | app/src/main/java/com/stopwatch/app/screen/activetimer/ActiveTimerViewModel.kt:176-283 | one exercise lasts its work duration, plus the rest seconds when a rest follows it |
| ActiveTimerProperties.RoundEntriesSeconds | app/src/main/java/com/stopwatch/app/screen/activetimer/ActiveTimerViewModel.kt:173-293 | a round lasts its exercises' time plus the round rest when one follows |
| ActiveTimerProperties.RoundsSeconds | app/src/main/java/com/stopwatch/app/screen/activetimer/ActiveTimerViewModel.kt:172-294 | the first k rounds last k round-times plus one rest per gap between rounds |
| ActiveTimerProperties.UniformWork | app/src/main/java/com/stopwatch/app/screen/activetimer/ActiveTimerViewModel.kt:178-208 | outside CUSTOM mode every work interval lasts the plan's work seconds |
| ActiveTimerProperties.ScheduleSeconds | app/src/main/java/com/stopwatch/app/screen/activetimer/ActiveTimerViewModel.kt:172-294 | the work and rest intervals last rounds × round-time plus rest × (rounds − 1) |
| ActiveTimerProperties.WorkAndRestSeconds | app/src/main/java/com/stopwatch/app/screen/activetimer/ActiveTimerViewModel.kt:172-294 | outside CUSTOM mode: rounds × exercises × work + rounds × (exercises − 1) × rest + (rounds − 1) × rest |
| ActiveTimerProperties.RunWorkAndRestSeconds | app/src/main/java/com/stopwatch/app/screen/activetimer/ActiveTimerViewModel.kt:124-304 | the same closed form for the phases a run actually enters |
| ActiveTimerProperties.ExercisesTimeIsSeconds | app/src/main/java/com/stopwatch/app/screen/activetimer/ActiveTimerViewModel.kt:175-284 | when no work duration is negative, the seconds the first k exercises count down are the seconds of their WORK and REST phases |
| ActiveTimerProperties.RoundTimeIsSeconds | app/src/main/java/com/stopwatch/app/screen/activetimer/ActiveTimerViewModel.kt:173-293 | the seconds a round counts down are the seconds of its phases |
| ActiveTimerProperties.RoundsTimeIsSeconds | app/src/main/java/com/stopwatch/app/screen/activetimer/ActiveTimerViewModel.kt:172-294 | the seconds the first k rounds count down are the seconds of their phases |
| ActiveTimerProperties.RunTimeIsScheduleSeconds | app/src/main/java/com/stopwatch/app/screen/activetimer/ActiveTimerViewModel.kt:172-294 | after the opening, a run counts down exactly the WORK and REST seconds of `Schedule` |
| ActiveTimerProperties.UnpausedDuration | app/src/main/java/com/stopwatch/app/screen/activetimer/ActiveTimerViewModel.kt:355-359 | a run never paused, measured s whole seconds after its start, has a duration of s seconds within the Int range |
| ActiveTimerProperties.QuietRunDuration | app/src/main/java/com/stopwatch/app/screen/activetimer/ActiveTimerViewModel.kt:124-304 | a run the user leaves alone is saved with its schedule's WORK and REST seconds as its duration; outside CUSTOM mode that is rounds × exercises × work + rounds × (exercises − 1) × rest + (rounds − 1) × rest |
| ActiveTimerProperties.CustomWorkDurations | app/src/main/java/com/stopwatch/app/screen/activetimer/ActiveTimerViewModel.kt:179-208 | the i-th work interval lasts the i-th custom entry's duration in CUSTOM mode, and the plan's work seconds otherwise or past the list |
| ActiveTimerProperties.NextIsUpcoming | app/src/main/java/com/stopwatch/app/screen/activetimer/ActiveTimerViewModel.kt:210-269 | the preview shows the next exercise of the round, the first exercise when another round follows, and "Final Exercise!" after the last one |
| ActiveTimerProperties.PrepShowsFirst | app/src/main/java/com/stopwatch/app/screen/activetimer/ActiveTimerViewModel.kt:138-164 | during preparation the first exercise is shown, or "Get Ready!" without exercises |
| ActiveTimerProperties.CurrentIsEntryOrPlaceholder | app/src/main/java/com/stopwatch/app/screen/activetimer/ActiveTimerViewModel.kt:178-208 | the current exercise is the i-th list entry, or the numbered placeholder past the list |
| ActiveTimerProperties.CountdownBeeps | app/src/main/java/com/stopwatch/app/screen/activetimer/ActiveTimerViewModel.kt:312-317 | a countdown plays at most three warning beeps, preceded in WORK phases of at least 3 s by one preparation beep |
| ActiveTimerProperties.PauseThenResume | app/src/main/java/com/stopwatch/app/screen/activetimer/ActiveTimerViewModel.kt:340-348 | pausing then resuming adds exactly the paused interval to the total paused time |
| ActiveTimerProperties.ToggleKeepsElapsed | app/src/main/java/com/stopwatch/app/screen/activetimer/ActiveTimerViewModel.kt:340-359 | toggling pause does not change the elapsed seconds at that instant |
| ActiveTimerProperties.FrozenWhilePaused | app/src/main/java/com/stopwatch/app/screen/activetimer/ActiveTimerViewModel.kt:355-359 | while paused the elapsed seconds do not move |
| ActiveTimerProperties.ElapsedMonotone | app/src/main/java/com/stopwatch/app/screen/activetimer/ActiveTimerViewModel.kt:355-359 | while running (and within Int range) the elapsed seconds never decrease |
| QuickTimer.QuickTimerViewModel.constructor | app/src/main/java/com/stopwatch/app/screen/quicktimer/QuickTimerViewModel.kt:24-40 | input 1:00, nothing running, paused or finished, no time in the timer |
| QuickTimer.QuickTimerViewModel.UpdateInputMinutes | app/src/main/java/com/stopwatch/app/screen/quicktimer/QuickTimerViewModel.kt:42-44 | the minutes are clamped to 0..99 |
| QuickTimer.QuickTimerViewModel.UpdateInputSeconds | app/src/main/java/com/stopwatch/app/screen/quicktimer/QuickTimerViewModel.kt:46-48 | the seconds are clamped to 0..59 |
| QuickTimer.QuickTimerViewModel.Start | app/src/main/java/com/stopwatch/app/screen/quicktimer/QuickTimerViewModel.kt:50-61 | with a 0:00 input nothing changes; otherwise the timer holds minutes × 60 + seconds, runs, and is neither paused nor finished |
| QuickTimer.QuickTimerViewModel.RunCountdown | app/src/main/java/com/stopwatch/app/screen/quicktimer/QuickTimerViewModel.kt:63-91 | a countdown left alone ends at 0, finished and not running, after one warning beep per each of the last three seconds and the completion sound and speech; a reset stops it with a prefix of those beeps |
| QuickTimer.QuickTimerViewModel.Second | app/src/main/java/com/stopwatch/app/screen/quicktimer/QuickTimerViewModel.kt:65-81 | one loop iteration beeps when at most 3 s remain and takes one second off unless reset |
| QuickTimer.QuickTimerViewModel.WaitWhilePaused | app/src/main/java/com/stopwatch/app/screen/quicktimer/QuickTimerViewModel.kt:74-76 | returns unpaused unless the timer was reset meanwhile |
| QuickTimer.QuickTimerViewModel.Delay | app/src/main/java/com/stopwatch/app/screen/quicktimer/QuickTimerViewModel.kt:71-75 | the remaining time never grows during a delay and at most one user action takes effect |
| QuickTimer.QuickTimerViewModel.Pause | app/src/main/java/com/stopwatch/app/screen/quicktimer/QuickTimerViewModel.kt:93-95 | paused |
| QuickTimer.QuickTimerViewModel.Resume | app/src/main/java/com/stopwatch/app/screen/quicktimer/QuickTimerViewModel.kt:97-99 | not paused |
| QuickTimer.QuickTimerViewModel.Reset | app/src/main/java/com/stopwatch/app/screen/quicktimer/QuickTimerViewModel.kt:101-109 | the job is cancelled and every timer field is back to zero or false |
| QuickTimer.QuickTimerViewModel.GetProgress | app/src/main/java/com/stopwatch/app/screen/quicktimer/QuickTimerViewModel.kt:111-117 | the remaining fraction of the timer, between 0 and 1, and 1 when the timer holds nothing |
| QuickTimer.Beeps | app/src/main/java/com/stopwatch/app/screen/quicktimer/QuickTimerViewModel.kt:65-70 | a countdown from n beeps min(n, 3) times |
| QuickTimer.BeepsBetweenSplit | app/src/main/java/com/stopwatch/app/screen/quicktimer/QuickTimerViewModel.kt:65-81 | the beeps of a countdown split at any second into those played and those to come |
| QuickTimer.StoppedEarly | app/src/main/java/com/stopwatch/app/screen/quicktimer/QuickTimerViewModel.kt:65-81 | a countdown stopped at any second has played a prefix of its beeps |
| PlanEdit.PlanEditViewModel.constructor | app/src/main/java/com/stopwatch/app/screen/planedit/PlanEditViewModel.kt:26-58 | a new plan: no name, 3 rounds, 5 exercises, 30 s work, 10 s rest, 30 s preparation, SIMPLE, no exercises, not editing, not saved |
| PlanEdit.PlanEditViewModel.LoadPlan | app/src/main/java/com/stopwatch/app/screen/planedit/PlanEditViewModel.kt:67-96 | an id ≤ 0 or a missing plan changes nothing; otherwise the plan's settings are copied, editing starts, and LIBRARY plans load the joined exercises, CUSTOM plans their custom rows; a plan whose settings lie in the editor's ranges, with no duplicate in the resulting selection, leaves the editor's state valid, and a load that changes nothing keeps it valid |
| PlanEdit.PlanEditViewModel.UpdatePlanName | app/src/main/java/com/stopwatch/app/screen/planedit/PlanEditViewModel.kt:98 | the name is set |
| PlanEdit.PlanEditViewModel.UpdateRounds | app/src/main/java/com/stopwatch/app/screen/planedit/PlanEditViewModel.kt:99 | rounds clamped to at least 1, whatever the state before; a valid state stays valid |
| PlanEdit.PlanEditViewModel.UpdateExerciseCount | app/src/main/java/com/stopwatch/app/screen/planedit/PlanEditViewModel.kt:100 | exercise count clamped to at least 1, whatever the state before; a valid state stays valid |
| PlanEdit.PlanEditViewModel.UpdateWorkSeconds | app/src/main/java/com/stopwatch/app/screen/planedit/PlanEditViewModel.kt:101 | work seconds clamped to at least 1, whatever the state before; a valid state stays valid |
| PlanEdit.PlanEditViewModel.UpdateRestSeconds | app/src/main/java/com/stopwatch/app/screen/planedit/PlanEditViewModel.kt:102 | rest seconds clamped to at least 0, whatever the state before; a valid state stays valid |
| PlanEdit.PlanEditViewModel.UpdatePrepTimeSeconds | app/src/main/java/com/stopwatch/app/screen/planedit/PlanEditViewModel.kt:103 | preparation seconds clamped to at least 0, whatever the state before; a valid state stays valid |
| PlanEdit.PlanEditViewModel.UpdateWorkoutMode | app/src/main/java/com/stopwatch/app/screen/planedit/PlanEditViewModel.kt:104 | the mode is set |
| PlanEdit.PlanEditViewModel.AddExercise | app/src/main/java/com/stopwatch/app/screen/planedit/PlanEditViewModel.kt:106-110 | an exercise already selected is ignored, a new one is appended, so it ends up selected; a selection free of duplicates stays so |
| PlanEdit.PlanEditViewModel.RemoveExercise | app/src/main/java/com/stopwatch/app/screen/planedit/PlanEditViewModel.kt:112-114 | the first occurrence is removed and the rest keep their order; from a selection free of duplicates the exercise is then gone |
| PlanEdit.PlanEditViewModel.ReorderExercises | app/src/main/java/com/stopwatch/app/screen/planedit/PlanEditViewModel.kt:116-121 | the item moves from one index to the other; a selection free of duplicates stays so |
| PlanEdit.PlanEditViewModel.AddCustomExerciseFromLibrary | app/src/main/java/com/stopwatch/app/screen/planedit/PlanEditViewModel.kt:124-135 | a custom entry with the library exercise's name, image and id, the given duration and the next order index is appended |
| PlanEdit.PlanEditViewModel.AddCustomExercise | app/src/main/java/com/stopwatch/app/screen/planedit/PlanEditViewModel.kt:137-148 | a custom entry with the given name, duration and image, no library id, and the next order index is appended |
| PlanEdit.PlanEditViewModel.RemoveCustomExercise | app/src/main/java/com/stopwatch/app/screen/planedit/PlanEditViewModel.kt:150-152 | the first equal entry is removed |
| PlanEdit.PlanEditViewModel.UpdateCustomExerciseDuration | app/src/main/java/com/stopwatch/app/screen/planedit/PlanEditViewModel.kt:154-161 | only the entry at a valid index changes, and only its duration |
| PlanEdit.PlanEditViewModel.ReorderCustomExercises | app/src/main/java/com/stopwatch/app/screen/planedit/PlanEditViewModel.kt:163-168 | the entry moves from one index to the other |
| PlanEdit.PlanEditViewModel.Save | app/src/main/java/com/stopwatch/app/screen/planedit/PlanEditViewModel.kt:170-223 | a plan is saved iff the name is not blank and, in LIBRARY and CUSTOM mode, the list is not empty; a refused save writes nothing; otherwise the record has the mode's exercise count, the id is the edited one or the inserted one, and the mode's association rows are replaced; a plan saved from a state the edits keep (`Valid`) has every setting within the editor's clamps |
| PlanEdit.IndexOf | app/src/main/java/com/stopwatch/app/screen/planedit/PlanEditViewModel.kt:112-114 | the first index holding the value, or −1 when absent |
| PlanEdit.RemoveFirstRemoves | app/src/main/java/com/stopwatch/app/screen/planedit/PlanEditViewModel.kt:112-114 | `remove` takes out exactly one occurrence (the first), or nothing when absent |
| PlanEdit.RemoveFirstOfDistinct | app/src/main/java/com/stopwatch/app/screen/planedit/PlanEditViewModel.kt:112-114 | in a duplicate-free list the removed value is gone |
| PlanEdit.MultisetOfRemoveAt | app/src/main/java/com/stopwatch/app/screen/planedit/PlanEditViewModel.kt:116-121 | `removeAt` removes exactly that element |
| PlanEdit.InsertAtThenRemove | app/src/main/java/com/stopwatch/app/screen/planedit/PlanEditViewModel.kt:116-121 | `add(i, x)` places x at i, and removing it again restores the list |
| PlanEdit.MovedIsPermutation | app/src/main/java/com/stopwatch/app/screen/planedit/PlanEditViewModel.kt:116-121 | a move is a permutation that puts the moved item at its target and keeps the others in order |
| PlanEdit.DistinctOfPermutation | app/src/main/java/com/stopwatch/app/screen/planedit/PlanEditViewModel.kt:116-121 | reordering a duplicate-free list keeps it duplicate-free |
| PlanEditScreen.EstimateIsExact | app/src/main/java/com/stopwatch/app/screen/planedit/PlanEditScreen.kt:479-486 | the estimate computed in Int arithmetic equals the exact formula when that fits in Int |
| PlanEditScreen.Displayed | app/src/main/java/com/stopwatch/app/screen/planedit/PlanEditScreen.kt:485-486 | the shown minutes and seconds recombine to the total, with seconds below 60 for non-negative totals |
| PlanEditScreen.SaveEnabledIffAccepted | app/src/main/java/com/stopwatch/app/screen/planedit/PlanEditScreen.kt:498-502 | the save button is enabled exactly when the view model would accept the save |
| PlanEditScreen.ForwardedValues | app/src/main/java/com/stopwatch/app/screen/planedit/PlanEditScreen.kt:157-160 | a number typed as its Int text reaches the view model unchanged, and text starting with neither sign nor digit forwards nothing |
| PlanEditScreen.CustomWorkTotal | app/src/main/java/com/stopwatch/app/screen/activetimer/ActiveTimerViewModel.kt:191-202 | in CUSTOM mode the timer's work time for the first k entries is their summed durations |
| PlanEditScreen.IntendedEstimateIsRunTime | app/src/main/java/com/stopwatch/app/screen/planedit/PlanEditScreen.kt:479-486 | the corrected estimate (the saved exercise count and, in CUSTOM mode, the entries' own durations) equals the run's total work and rest time |
| PlanEditScreen.EstimateMissesSimplePlan | app/src/main/java/com/stopwatch/app/screen/planedit/PlanEditScreen.kt:479-486 | the default SIMPLE plan is estimated at 20 s while its run lasts 590 s |
| WorkoutExerciseDao.WorkoutExerciseTable.constructor | app/src/main/java/com/stopwatch/app/data/dao/WorkoutExerciseDao.kt:11-12 | the table holds the given rows |
| WorkoutExerciseDao.WorkoutExerciseTable.GetExercisesForWorkout | app/src/main/java/com/stopwatch/app/data/dao/WorkoutExerciseDao.kt:14-20 | every exercise returned by the join comes from the exercise table |
| WorkoutExerciseDao.WorkoutExerciseTable.InsertWorkoutExercises | app/src/main/java/com/stopwatch/app/data/dao/WorkoutExerciseDao.kt:38-39 | the rows are added after the existing ones |
| WorkoutExerciseDao.WorkoutExerciseTable.DeleteExercisesForWorkout | app/src/main/java/com/stopwatch/app/data/dao/WorkoutExerciseDao.kt:35-36 | exactly the plan's rows are removed |
| WorkoutExerciseDao.WorkoutExerciseTable.ReplaceExercisesForWorkout | app/src/main/java/com/stopwatch/app/data/dao/WorkoutExerciseDao.kt:22-33 | the plan's rows become one row per given exercise, indexed 0, 1, …; other plans' rows are unchanged |
| WorkoutExerciseDao.ForPlan | app/src/main/java/com/stopwatch/app/data/dao/WorkoutExerciseDao.kt:17 | exactly the rows of the plan |
| WorkoutExerciseDao.OtherPlans | app/src/main/java/com/stopwatch/app/data/dao/WorkoutExerciseDao.kt:35-36 | exactly the rows of other plans |
| WorkoutExerciseDao.JunctionRows | app/src/main/java/com/stopwatch/app/data/dao/WorkoutExerciseDao.kt:25-31 | row i links the plan to the i-th exercise's id at order index i |
| WorkoutExerciseDao.WithId | app/src/main/java/com/stopwatch/app/data/dao/WorkoutExerciseDao.kt:16 | exactly the exercises whose id matches the join key |
| WorkoutExerciseDao.ForPlanAppend | app/src/main/java/com/stopwatch/app/data/dao/WorkoutExerciseDao.kt:17 | filtering by plan distributes over appended rows |
| WorkoutExerciseDao.ForPlanOfOthers | app/src/main/java/com/stopwatch/app/data/dao/WorkoutExerciseDao.kt:35-36 | after deleting a plan's rows it has none and every other plan keeps its own |
| WorkoutExerciseDao.ForPlanAll | app/src/main/java/com/stopwatch/app/data/dao/WorkoutExerciseDao.kt:17 | rows all of the plan are kept whole |
| WorkoutExerciseDao.ForPlanNone | app/src/main/java/com/stopwatch/app/data/dao/WorkoutExerciseDao.kt:17 | rows none of the plan give nothing |
| WorkoutExerciseDao.WithIdOfMember | app/src/main/java/com/stopwatch/app/data/dao/WorkoutExerciseDao.kt:16 | with unique exercise ids the join finds exactly the exercise |
| WorkoutExerciseDao.WithIdAbsent | app/src/main/java/com/stopwatch/app/data/dao/WorkoutExerciseDao.kt:16 | an id with no exercise joins nothing |
| WorkoutExerciseDao.JoinedOfJunctionRows | app/src/main/java/com/stopwatch/app/data/dao/WorkoutExerciseDao.kt:14-20 | joining the rows written for a list of library exercises gives that list back |
| WorkoutExerciseDao.JoinedShift | app/src/main/java/com/stopwatch/app/data/dao/WorkoutExerciseDao.kt:25-31 | the join of all rows but the first is the join of the rows for the rest of the list |
| WorkoutExerciseDao.SameIdsJoin | app/src/main/java/com/stopwatch/app/data/dao/WorkoutExerciseDao.kt:14-20 | the join depends only on the rows' exercise ids |
| WorkoutExerciseDao.JoinedInLibrary | app/src/main/java/com/stopwatch/app/data/dao/WorkoutExerciseDao.kt:14-16 | an inner join returns only exercises that exist |
| WorkoutExerciseDao.ReplaceReadBack | app/src/main/java/com/stopwatch/app/data/dao/WorkoutExerciseDao.kt:14-33 | after a replace, the plan's rows are the junction rows and reading them back gives the written exercises in order |
| WorkoutExerciseDao.ReplaceKeepsOtherPlans | app/src/main/java/com/stopwatch/app/data/dao/WorkoutExerciseDao.kt:22-33 | a replace leaves every other plan's rows as they were |
| WorkoutExerciseDao.RepeatedExerciseKept | app/src/main/java/com/stopwatch/app/data/dao/WorkoutExerciseDao.kt:25-31 | the same exercise chosen twice is written as two rows with different order indexes |
| CustomExerciseDao.CustomExerciseTable.constructor | app/src/main/java/com/stopwatch/app/data/dao/CustomExerciseDao.kt:14-15 | the table holds the given rows |
| CustomExerciseDao.CustomExerciseTable.GetCustomExercisesForWorkout | app/src/main/java/com/stopwatch/app/data/dao/CustomExerciseDao.kt:20-25 | the plan's rows, and only those, ordered by order index |
| CustomExerciseDao.CustomExerciseTable.GetCustomExerciseCount | app/src/main/java/com/stopwatch/app/data/dao/CustomExerciseDao.kt:69-70 | the number of the plan's rows |
| CustomExerciseDao.CustomExerciseTable.InsertAll | app/src/main/java/com/stopwatch/app/data/dao/CustomExerciseDao.kt:30-31 | the rows are added after the existing ones |
| CustomExerciseDao.CustomExerciseTable.DeleteCustomExercisesForWorkout | app/src/main/java/com/stopwatch/app/data/dao/CustomExerciseDao.kt:63-64 | exactly the plan's rows are removed |
| CustomExerciseDao.CustomExerciseTable.ReplaceCustomExercisesForWorkout | app/src/main/java/com/stopwatch/app/data/dao/CustomExerciseDao.kt:43-58 | the plan's rows become the given entries re-indexed 0, 1, … under the plan; reading back gives them in order, the count is their number, other plans are unchanged |
| CustomExerciseDao.ForPlan | app/src/main/java/com/stopwatch/app/data/dao/CustomExerciseDao.kt:22 | exactly the rows of the plan |
| CustomExerciseDao.OtherPlans | app/src/main/java/com/stopwatch/app/data/dao/CustomExerciseDao.kt:63-64 | exactly the rows of other plans |
| CustomExerciseDao.Reindexed | app/src/main/java/com/stopwatch/app/data/dao/CustomExerciseDao.kt:50-55 | entry i is copied with order index i and the plan's id |
| CustomExerciseDao.ForPlanAppend | app/src/main/java/com/stopwatch/app/data/dao/CustomExerciseDao.kt:22 | filtering by plan distributes over appended rows |
| CustomExerciseDao.ForPlanAll | app/src/main/java/com/stopwatch/app/data/dao/CustomExerciseDao.kt:22 | rows all of the plan are kept whole |
| CustomExerciseDao.ForPlanNone | app/src/main/java/com/stopwatch/app/data/dao/CustomExerciseDao.kt:22 | rows none of the plan give nothing |
| CustomExerciseDao.ForPlanOfOthers | app/src/main/java/com/stopwatch/app/data/dao/CustomExerciseDao.kt:63-64 | after deleting a plan's rows it has none and every other plan keeps its own |
| CustomExerciseDao.ReplaceReadBack | app/src/main/java/com/stopwatch/app/data/dao/CustomExerciseDao.kt:20-58 | after a replace, the plan's rows, also when ordered by index, are the re-indexed entries |
| CustomExerciseDao.ReplaceKeepsOtherPlans | app/src/main/java/com/stopwatch/app/data/dao/CustomExerciseDao.kt:43-58 | a replace leaves every other plan's rows as they were |
| CustomExerciseDao.ReplaceWithEmpty | app/src/main/java/com/stopwatch/app/data/dao/CustomExerciseDao.kt:48-49 | replacing with no entries leaves the plan with none |
| RowOrder.OrderBy | app/src/main/java/com/stopwatch/app/data/dao/CustomExerciseDao.kt:23 | `ORDER BY orderIndex`: sorted by the key and a permutation of the rows |
| RowOrder.InsertBy | app/src/main/java/com/stopwatch/app/data/dao/CustomExerciseDao.kt:23 | inserting into a sorted list keeps it sorted and adds exactly that row |
| RowOrder.OrderByOfSorted | app/src/main/java/com/stopwatch/app/data/dao/WorkoutExerciseDao.kt:18 | ordering rows already in key order changes nothing |
| Converters.FromWorkoutMode | app/src/main/java/com/stopwatch/app/data/Converters.kt:15-17 | the mode is stored as one of "SIMPLE", "LIBRARY", "CUSTOM" |
| Converters.ToWorkoutMode | app/src/main/java/com/stopwatch/app/data/Converters.kt:23-30 | a LIBRARY or CUSTOM result was read from exactly that name |
| Converters.RoundTrip | app/src/main/java/com/stopwatch/app/data/Converters.kt:15-30 | reading back a stored mode gives the mode |
| Converters.FromWorkoutModeInjective | app/src/main/java/com/stopwatch/app/data/Converters.kt:15-17 | different modes are stored differently |
| Converters.UnknownNameIsSimple | app/src/main/java/com/stopwatch/app/data/Converters.kt:26-29 | any string that is not a mode's name reads as SIMPLE |
| Converters.LowerCaseNameIsSimple | app/src/main/java/com/stopwatch/app/data/Converters.kt:24-29 | the match is case-sensitive: "library" reads as SIMPLE |
| ExerciseCategories.GetDisplayName | app/src/main/java/com/stopwatch/app/data/model/ExerciseCategory.kt:36-43 | a name is shown unchanged exactly when it is not one of the five categories, or is HIIT |
| ExerciseCategories.GetAllCategories | app/src/main/java/com/stopwatch/app/data/model/ExerciseCategory.kt:48-54 | five distinct categories |
| ExerciseCategories.GetSubcategories | app/src/main/java/com/stopwatch/app/data/model/ExerciseCategory.kt:59-66 | a string has subcategories exactly when it is one of the five categories |
| ExerciseCategories.DisplayNamesDistinct | app/src/main/java/com/stopwatch/app/data/model/ExerciseCategory.kt:36-43 | different categories have different display names |
| ExerciseCategories.SubcategoriesDistinctWithin | app/src/main/java/com/stopwatch/app/data/model/ExerciseCategory.kt:59-66 | no category lists a subcategory twice |
| ExerciseCategories.SubcategoryNamesShared | app/src/main/java/com/stopwatch/app/data/model/ExerciseCategory.kt:62-63 | "Bodyweight" is a subcategory of both HIIT and RESISTANCE_TRAINING |
| ExerciseLibrary.FormatCategoryName | app/src/main/java/com/stopwatch/app/data/ExerciseLibraryInitializer.kt:112-119 | for folder names whose letters are ASCII: same length, no underscore left, and each character is the title-cased character of the folder name at that position |
| ExerciseLibrary.FormatExerciseName | app/src/main/java/com/stopwatch/app/data/ExerciseLibraryInitializer.kt:125-133 | the file name without a case-sensitive ".webp" suffix, title-cased character by character with underscores as spaces |
| ExerciseLibrary.TitledCharacterized | app/src/main/java/com/stopwatch/app/data/ExerciseLibraryInitializer.kt:112-133 | replace, split on spaces, capitalize each word and join: every character is upper-cased just after a word break, spaces for underscores, the rest kept |
| ExerciseLibrary.FormatExerciseNameExample | app/src/main/java/com/stopwatch/app/data/ExerciseLibraryInitializer.kt:121-124 | "bicycle_crunch.webp" becomes "Bicycle Crunch" |
| ExerciseLibrary.FormatCategoryNameExample | app/src/main/java/com/stopwatch/app/data/ExerciseLibraryInitializer.kt:108-111 | "upper_body" becomes "Upper Body" |
| ExerciseLibrary.UpperCaseSuffixKept | app/src/main/java/com/stopwatch/app/data/ExerciseLibraryInitializer.kt:59-61 | "a.WEBP" is scanned as an image (case-insensitive test) but keeps its suffix in the name (case-sensitive removal) |
| ExerciseLibrary.ScanExercisesFromAssets | app/src/main/java/com/stopwatch/app/data/ExerciseLibraryInitializer.kt:43-106 | the scan returns every exercise the asset tree describes, sorted by category, subcategory and name, each compared as `String.compareTo` compares them, by UTF-16 code units |
| ExerciseLibrary.ScanCategoryFolder | app/src/main/java/com/stopwatch/app/data/ExerciseLibraryInitializer.kt:56-96 | one category folder gives its direct images and the images of each subfolder, in listing order |
| ExerciseLibrary.ScanSubcategoryFolder | app/src/main/java/com/stopwatch/app/data/ExerciseLibraryInitializer.kt:75-91 | one subfolder gives one exercise per ".webp" file, with that subcategory |
| ExerciseLibrary.ScannedFromAssets | app/src/main/java/com/stopwatch/app/data/ExerciseLibraryInitializer.kt:49-96 | every scanned exercise comes from a category folder without a dot and an image file in it or one of its subfolders |
| ExerciseLibrary.AssetsScanned | app/src/main/java/com/stopwatch/app/data/ExerciseLibraryInitializer.kt:49-96 | every such image is scanned |
| ExerciseLibrary.SortedScanIsLayout | app/src/main/java/com/stopwatch/app/data/ExerciseLibraryInitializer.kt:43-106 | an exercise is in the sorted scan iff the asset tree holds its image |
| ExerciseLibrary.SortByKey | app/src/main/java/com/stopwatch/app/data/ExerciseLibraryInitializer.kt:105 | sorted by (category, subcategory, name) under `String.compareTo`'s UTF-16 order, and a permutation of the scan |
| ExerciseLibrary.Insert | app/src/main/java/com/stopwatch/app/data/ExerciseLibraryInitializer.kt:105 | inserting into a sorted list keeps it sorted and adds exactly that exercise |
| ExerciseLibrary.TiesOfInsert | app/src/main/java/com/stopwatch/app/data/ExerciseLibraryInitializer.kt:105 | an inserted exercise lands ahead of every exercise it ties with on the key, and the ties keep their order |
| ExerciseLibrary.SortByKeyStable | app/src/main/java/com/stopwatch/app/data/ExerciseLibraryInitializer.kt:105 | the sort is stable, as `sortedWith` is: for every key, the exercises with that key appear in the scan's order |
| ExerciseLibrary.SortedPairs | app/src/main/java/com/stopwatch/app/data/ExerciseLibraryInitializer.kt:105 | in a sorted list every earlier exercise has a key no larger than every later one |
| KotlinCollections.StringLeTotal | app/src/main/java/com/stopwatch/app/data/ExerciseLibraryInitializer.kt:105 | `compareTo(…) <= 0` holds one way or the other for any two strings |
| KotlinCollections.StringLeAntisymmetric | app/src/main/java/com/stopwatch/app/data/ExerciseLibraryInitializer.kt:105 | two strings each no later than the other are equal |
| KotlinCollections.StringLeTransitive | app/src/main/java/com/stopwatch/app/data/ExerciseLibraryInitializer.kt:105 | `compareTo(…) <= 0` is transitive |
| ExerciseLibrary.KeyLeTotal | app/src/main/java/com/stopwatch/app/data/ExerciseLibraryInitializer.kt:105 | the three-key comparison is total |
| ExerciseLibrary.KeyLeTransitive | app/src/main/java/com/stopwatch/app/data/ExerciseLibraryInitializer.kt:105 | the three-key comparison is transitive |
| ExerciseLibrary.ExerciseStore.constructor | app/src/main/java/com/stopwatch/app/data/ExerciseLibraryInitializer.kt:17-20 | the exercise table holds the given rows |
| ExerciseLibrary.ExerciseStore.InitializeIfNeeded | app/src/main/java/com/stopwatch/app/data/ExerciseLibraryInitializer.kt:17-37 | a non-empty table is left alone; an empty one receives the sorted scan |
| ExerciseBrowse.SearchResults | app/src/main/java/com/stopwatch/app/screen/exercisebrowse/ExerciseBrowseViewModel.kt:38-58 | a blank query finds nothing; otherwise, in library order, exactly the exercises whose name, category, subcategory, target muscles, equipment or description contains the query, ignoring case |
| ExerciseBrowse.ExerciseBrowseViewModel.constructor | app/src/main/java/com/stopwatch/app/screen/exercisebrowse/ExerciseBrowseViewModel.kt:27-28 | the query starts empty |
| ExerciseBrowse.ExerciseBrowseViewModel.CurrentResults | app/src/main/java/com/stopwatch/app/screen/exercisebrowse/ExerciseBrowseViewModel.kt:38-58 | a blank current query shows nothing; otherwise, in library order, exactly the exercises that match the current query in one of the six fields, ignoring case |
| ExerciseBrowse.ExerciseBrowseViewModel.UpdateSearchQuery | app/src/main/java/com/stopwatch/app/screen/exercisebrowse/ExerciseBrowseViewModel.kt:109-111 | the query is set |
| ExerciseBrowse.ExerciseBrowseViewModel.ClearSearch | app/src/main/java/com/stopwatch/app/screen/exercisebrowse/ExerciseBrowseViewModel.kt:116-118 | the query is empty and no results are shown |
| ExerciseListScreen.FilteredExercises | app/src/main/java/com/stopwatch/app/screen/exercisebrowse/ExerciseListScreen.kt:47-56 | a blank query shows the whole list; otherwise, in order, exactly the exercises whose name, target muscles or equipment contains the query, ignoring case |
| ExerciseListScreen.EmptyQueryMatchesAll | app/src/main/java/com/stopwatch/app/screen/exercisebrowse/ExerciseListScreen.kt:47-56 | the empty query matches every exercise |
| ExerciseListScreen.ExerciseListState.constructor | app/src/main/java/com/stopwatch/app/screen/exercisebrowse/ExerciseListScreen.kt:43-44 | not searching, empty query |
| ExerciseListScreen.ExerciseListState.OpenSearch | app/src/main/java/com/stopwatch/app/screen/exercisebrowse/ExerciseListScreen.kt:98 | searching |
| ExerciseListScreen.ExerciseListState.UpdateSearchQuery | app/src/main/java/com/stopwatch/app/screen/exercisebrowse/ExerciseListScreen.kt:67 | the query is set |
| ExerciseListScreen.ExerciseListState.CloseSearch | app/src/main/java/com/stopwatch/app/screen/exercisebrowse/ExerciseListScreen.kt:80-83 | not searching, empty query, and the whole list is shown again |
| ExerciseSelectionSheet.CategoriesOf | app/src/main/java/com/stopwatch/app/screen/planedit/ExerciseSelectionSheet.kt:82-84 | the category of each exercise, in order |
| ExerciseSelectionSheet.AvailableCategories | app/src/main/java/com/stopwatch/app/screen/planedit/ExerciseSelectionSheet.kt:82-84 | `distinct().sorted()`: strictly increasing in `String.compareTo`'s UTF-16 order, exactly the categories present |
| ExerciseSelectionSheet.Filtered | app/src/main/java/com/stopwatch/app/screen/planedit/ExerciseSelectionSheet.kt:94-113 | nothing in the category and subcategory views and for a blank search; the search view shows exactly the exercises whose name, target muscles, equipment, category or subcategory contains the query ignoring case, the exercises view exactly the selected category and subcategory, both in library order |
| ExerciseSelectionSheet.SubcategoryCountMatchesView | app/src/main/java/com/stopwatch/app/screen/planedit/ExerciseSelectionSheet.kt:283-285 | the count shown on a subcategory equals the number of exercises the sheet then lists |
| ExerciseSelectionSheet.SheetState.constructor | app/src/main/java/com/stopwatch/app/screen/planedit/ExerciseSelectionSheet.kt:76-79 | the sheet opens on the categories with nothing selected and an empty query |
| ExerciseSelectionSheet.SheetState.ShownSubcategories | app/src/main/java/com/stopwatch/app/screen/planedit/ExerciseSelectionSheet.kt:87-91 | no category selected, no subcategories; otherwise exactly the selected category's subcategories, which are there exactly when it is one of the fixed categories |
| ExerciseSelectionSheet.SheetState.FilteredExercises | app/src/main/java/com/stopwatch/app/screen/planedit/ExerciseSelectionSheet.kt:94-113 | in the exercises view exactly the selected category's and subcategory's exercises |
| ExerciseSelectionSheet.SheetState.ClickCategory | app/src/main/java/com/stopwatch/app/screen/planedit/ExerciseSelectionSheet.kt:179-180 | the category is selected and its fixed subcategories are shown |
| ExerciseSelectionSheet.SheetState.ClickSubcategory | app/src/main/java/com/stopwatch/app/screen/planedit/ExerciseSelectionSheet.kt:191-192 | the subcategory is selected and the list has as many exercises as its count said |
| ExerciseSelectionSheet.SheetState.OpenSearch | app/src/main/java/com/stopwatch/app/screen/planedit/ExerciseSelectionSheet.kt:164-167 | the search view opens with nothing listed |
| ExerciseSelectionSheet.SheetState.UpdateSearchQuery | app/src/main/java/com/stopwatch/app/screen/planedit/ExerciseSelectionSheet.kt:210 | the query is set |
| ExerciseSelectionSheet.SheetState.Back | app/src/main/java/com/stopwatch/app/screen/planedit/ExerciseSelectionSheet.kt:130-146 | back from search clears the query; from subcategories clears the category; from exercises clears the subcategory; on categories nothing changes |
| Streak.CalculateCurrentStreak | app/src/main/java/com/stopwatch/app/email/EmailService.kt:226-253 | the loop's result is `StreakOf` the workouts' calendar days and today |
| Streak.DaysOf | app/src/main/java/com/stopwatch/app/email/EmailService.kt:230-234 | the calendar day of each workout's completion time, in order |
| Streak.DistinctDays | app/src/main/java/com/stopwatch/app/email/EmailService.kt:235 | `distinct().sortedDescending()`: strictly decreasing, exactly the days present |
| Streak.InsertDay | app/src/main/java/com/stopwatch/app/email/EmailService.kt:235 | inserting a day into a strictly decreasing list keeps it so and adds exactly that day |
| Streak.DecreasingUnique | app/src/main/java/com/stopwatch/app/email/EmailService.kt:235 | two strictly decreasing lists with the same days are equal |
| Streak.StreakFrom | app/src/main/java/com/stopwatch/app/email/EmailService.kt:239-250 | the count lies between 0 and the number of days |
| Streak.StreakIsLongestRun | app/src/main/java/com/stopwatch/app/email/EmailService.kt:239-250 | each counted day is the expected day or the day before it, and the first day not counted is neither |
| Streak.StreakDependsOnDaysOnly | app/src/main/java/com/stopwatch/app/email/EmailService.kt:226-253 | workouts on the same set of days give the same streak, whatever their number or order |
| Streak.StreakOfNoWorkouts | app/src/main/java/com/stopwatch/app/email/EmailService.kt:227 | no workouts, no streak |
| Streak.StreakNeedsRecentWorkout | app/src/main/java/com/stopwatch/app/email/EmailService.kt:240-249 | a streak is positive iff the latest workout day is today or yesterday |
| Streak.StreakAtMostDistinctDays | app/src/main/java/com/stopwatch/app/email/EmailService.kt:239-250 | the streak never exceeds the number of distinct workout days |
| AchievementTracker.Achievements | app/src/main/java/com/stopwatch/app/notification/AchievementTracker.kt:16-60 | nothing when disabled; a milestone exactly at 10, 25, 50 or 100 workouts and a streak notice exactly at 7, 14 or 30 days, the milestone first |
| AchievementTracker.AtMostOneOfEach | app/src/main/java/com/stopwatch/app/notification/AchievementTracker.kt:25-59 | never two notifications of the same kind |
| AchievementTracker.CheckAndNotifyAchievements | app/src/main/java/com/stopwatch/app/notification/AchievementTracker.kt:16-60 | the notifications shown are `Achievements` of the history's size and its current streak (the tracker's copy of the streak, lines 62-89) |
| EmailTemplate.FormatDuration | app/src/main/java/com/stopwatch/app/email/EmailTemplate.kt:242-250 | hours and minutes from one hour on, minutes from one minute on, raw seconds below; the hours and minutes shown bound the total to within a minute |
| EmailTemplate.FormatDurationTiers | app/src/main/java/com/stopwatch/app/email/EmailTemplate.kt:242-250 | a longer duration never drops to a smaller unit |
| EmailTemplate.SubjectText | app/src/main/java/com/stopwatch/app/email/EmailTemplate.kt:220-226 | each subject starts with its tier's emoji |
| EmailTemplate.SubjectTextInjective | app/src/main/java/com/stopwatch/app/email/EmailTemplate.kt:220-226 | the seven subjects are distinct |
| EmailTemplate.GenerateSubjectLine | app/src/main/java/com/stopwatch/app/email/EmailTemplate.kt:218-228 | never empty |
| EmailTemplate.StreakSubjectIgnoresWorkouts | app/src/main/java/com/stopwatch/app/email/EmailTemplate.kt:219-222 | with a streak of 7 days or more the subject depends on the streak only |
| EmailTemplate.WorkoutSubjectIgnoresShortStreaks | app/src/main/java/com/stopwatch/app/email/EmailTemplate.kt:223-226 | with a streak under 7 days the subject depends on the workouts only |
| EmailTemplate.SubjectMonotone | app/src/main/java/com/stopwatch/app/email/EmailTemplate.kt:218-228 | more workouts or a longer streak never give a lower subject tier |
| EmailTemplate.MotivationPrecedence | app/src/main/java/com/stopwatch/app/email/EmailTemplate.kt:230-240 | a streak message is chosen iff the streak is at least 7; the "next victory" message iff the streak is under 7 and there are no workouts |
| EmailTemplate.MotivationNamesWorkouts | app/src/main/java/com/stopwatch/app/email/EmailTemplate.kt:235 | from 15 workouts on (without a week streak) the message contains the workout count as text that parses back to it |
| EmailTemplate.BadgeFor | app/src/main/java/com/stopwatch/app/email/EmailTemplate.kt:106-110 | 🔥 above 10 sessions, ⭐ above 5, ✓ otherwise |
| EmailTemplate.Entries | app/src/main/java/com/stopwatch/app/email/EmailTemplate.kt:104-129 | one entry per breakdown item, numbered from the start index, with its name, count, plural flag (count ≠ 1), duration text and badge |
| EmailTemplate.GenerateWorkoutSummaryEmail | app/src/main/java/com/stopwatch/app/email/EmailTemplate.kt:5-216 | the greeting uses the name or "Champion"; the breakdown section appears iff there are items and numbers them from 1; the favourite appears iff given; the motivation is the one chosen for the month |
| EmailService.SummaryRequest | app/src/main/java/com/stopwatch/app/email/EmailService.kt:28-130 | no request without a non-blank e-mail or a month with data; otherwise the subject, the HTML figures and the request's `workoutData` all carry the current month's title, the latest month's count, rounds and duration, the streak, the year's count, rounds, duration and active days (0 when absent), the user name from the address and the favourite plan ("None" when absent), and the HTML has the month's motivational message |
| EmailService.SendWorkoutSummary | app/src/main/java/com/stopwatch/app/email/EmailService.kt:28-130 | true iff there is a non-blank e-mail and a month with data and the API answers with a 2xx code |
| EmailService.UserNameShape | app/src/main/java/com/stopwatch/app/email/EmailService.kt:73-74 | the name is the part before the first `@`, one character per character, with separators made spaces and each word capitalised |
| EmailSummaryWorker.MinDaysBetweenEmails | app/src/main/java/com/stopwatch/app/email/EmailSummaryWorker.kt:43-48 | 14 days exactly for "biweekly", 30 exactly for "monthly", 7 otherwise |
| EmailSummaryWorker.DoWork | app/src/main/java/com/stopwatch/app/email/EmailSummaryWorker.kt:19-80 | failure only when the preferences cannot be read; an e-mail is attempted iff it is due; the send time is stored iff the attempt succeeded |
| EmailSummaryWorker.SendDueOnlyAfterMinimum | app/src/main/java/com/stopwatch/app/email/EmailSummaryWorker.kt:50-62 | an e-mail is due only after the chosen number of whole days, and never within 7 |
| EmailSummaryWorker.NoSecondEmailWithinAWeek | app/src/main/java/com/stopwatch/app/email/EmailSummaryWorker.kt:50-56 | after a sent e-mail no other is due for 7 days |
| EmailSummaryWorker.SendDueAfterThirtyDays | app/src/main/java/com/stopwatch/app/email/EmailSummaryWorker.kt:25-62 | enabled with an e-mail, a summary is due once 30 days have passed, whatever the frequency |
| EmailDebugHelper.DebugEmailData | app/src/main/java/com/stopwatch/app/email/EmailDebugHelper.kt:15-108 | the report states whether an e-mail is set and whether sending is possible; "ready" iff both an e-mail and a workout exist, with one reason line for each that is missing; the streak line appears iff there is history |
| EmailDebugHelper.OverallStatus | app/src/main/java/com/stopwatch/app/email/EmailDebugHelper.kt:82-96 | the readiness lines for the two conditions |
| EmailDebugHelper.GenerateSampleEmailHtml | app/src/main/java/com/stopwatch/app/email/EmailDebugHelper.kt:137-174 | the error page with the exception's message iff a database read throws; the no-data page iff the reads succeed and there is no monthly data; otherwise the preview for "Test User" with the current month's title, the latest month's count, rounds and duration, the streak, the year's count, rounds, duration and active days (0 when absent), the favourite plan, no breakdown and the month's motivational message |
| HistoryScreen.FormatDuration | app/src/main/java/com/stopwatch/app/screen/history/HistoryScreen.kt:51-55 | hours and minutes from one hour on, otherwise minutes only (0 m below a minute); minutes lie within ±59 |
| HistoryScreen.CardTime | app/src/main/java/com/stopwatch/app/screen/history/HistoryScreen.kt:339-340 | minutes × 60 + seconds is the duration, seconds below 60 for non-negative durations |
| HistoryScreen.TwoDigitsReadBack | app/src/main/java/com/stopwatch/app/screen/history/HistoryScreen.kt:354 | `%02d` of 0..59 is two characters that parse back to the value |
| HistoryScreen.ClockTextReadsBack | app/src/main/java/com/stopwatch/app/screen/history/HistoryScreen.kt:354 | the `m:ss` text splits at its colon into the minutes and the seconds |
| HistoryScreen.PluralSuffix | app/src/main/java/com/stopwatch/app/screen/history/HistoryScreen.kt:354 | "s" exactly when the count is not 1 |
| LambdaHandler.Handle | lambda-function.js:180-187 | every response, of every kind, carries the four CORS headers |
| LambdaHandler.BodyOf | lambda-function.js:27-40 | a string body is parsed as JSON (failing iff the text is not JSON), any other body is used as it is |
| LambdaHandler.Validate | lambda-function.js:47-79 | the first failing check in the order user e-mail, subject, HTML, e-mail format is reported, and none iff all pass |
| LambdaHandler.EmailScanIsPattern | lambda-function.js:71-79 | the scan used for the e-mail check accepts exactly the strings matching `^[^\s@]+@[^\s@]+\.[^\s@]+$` |
| LambdaHandler.EmailScanMatchesPattern | lambda-function.js:71-79 | every string the scan accepts matches the pattern |
| LambdaHandler.PatternMatchPassesScan | lambda-function.js:71-79 | every string matching the pattern passes the scan |
| LambdaHandler.FirstAtIsUnique | lambda-function.js:71-79 | no `@` is allowed before the first `@` |
| LambdaHandler.SenderEmail | lambda-function.js:20 | `SENDER_EMAIL` when set and non-empty, otherwise the default sender |
| LambdaHandler.ErrorResponse | lambda-function.js:137-174 | 400 "Email rejected" for MessageRejected, 400 "Invalid email parameter" for InvalidParameterValue, otherwise 500 "Failed to send email" with the error code or "UNKNOWN_ERROR" |
| LambdaHandler.OrZero | lambda-function.js:128-132 | a falsy value becomes 0, any other is kept |
| LambdaHandler.Utf16Length | lambda-function.js:131-132 | a string's JavaScript length: between one and two code units per character, exactly one each when every character is in the Basic Multilingual Plane |
| LambdaHandler.Length | lambda-function.js:131-132 | `v?.length`: a string's UTF-16 length, an array's element count, an object's own "length" property, `undefined` otherwise |
| LambdaHandler.LengthOrZero | lambda-function.js:131-132 | `v?.length`, or 0 when that is falsy: the length of a non-empty string or array, an object's truthy "length" property whatever its type, 0 for everything else |
| LambdaHandler.InvalidJsonIs400 | lambda-function.js:27-40 | a body that is not JSON gets 400 "Invalid JSON in request body" with the parser's message, and SES is not called |
| LambdaHandler.FirstFailedCheckWins | lambda-function.js:47-79 | a failed check gives 400 with that check's message, and SES is not called |
| LambdaHandler.SesCalledOnlyWhenValid | lambda-function.js:94-115 | SES is called iff every check passes, from the sender, to the user e-mail, with the subject and HTML in UTF-8 |
| LambdaHandler.SuccessIffSent | lambda-function.js:115-135 | 200 iff the checks pass and SES sends, echoing the message id and the address |
| LambdaHandler.StatusIsOneOfThree | lambda-function.js:22-175 | the status is always 200, 400 or 500 |
| LambdaHandler.SesErrorStatus | lambda-function.js:137-174 | an SES failure gives 400 for the two known codes and 500 for any other |
| LambdaHandler.AppRequestIsForwarded | lambda-function.js:45-111 | a request as the app builds it reaches SES with its address, subject and HTML unchanged |
| LambdaHandler.AppFiguresEchoedAsZero | lambda-function.js:128-132 | the figures the app nests under `workoutData` are not found at the top level, so a success echoes zeros |
| KotlinInt.Wrap32 | app/src/main/java/com/stopwatch/app/screen/planedit/PlanEditScreen.kt:479-484 | Int arithmetic wraps: the result is in range, equals an in-range input, and is congruent modulo 2^32 |
| KotlinInt.WrapAdd | app/src/main/java/com/stopwatch/app/screen/planedit/PlanEditScreen.kt:483 | wrapping the operands of an Int sum first does not change it |
| KotlinInt.WrapMul | app/src/main/java/com/stopwatch/app/screen/planedit/PlanEditScreen.kt:480-482 | wrapping an operand of an Int product first does not change it |
| KotlinInt.Quot | app/src/main/java/com/stopwatch/app/screen/history/HistoryScreen.kt:339 | Int division truncates toward zero |
| KotlinInt.Rem | app/src/main/java/com/stopwatch/app/screen/history/HistoryScreen.kt:340 | Int remainder has the sign of the dividend and recombines with the quotient |
| KotlinInt.CoerceIn | app/src/main/java/com/stopwatch/app/screen/quicktimer/QuickTimerViewModel.kt:43 | `coerceIn`: the value clamped to the range |
| KotlinInt.CoerceAtLeast | app/src/main/java/com/stopwatch/app/screen/planedit/PlanEditViewModel.kt:99-103 | `coerceAtLeast`: the value raised to the bound |
| KotlinInt.MinutesOfHourBounded | app/src/main/java/com/stopwatch/app/email/EmailTemplate.kt:243-244 | `(s % 3600) / 60` lies strictly between −60 and 60 |
| KotlinInt.ToIntOrNullOfIntToString | app/src/main/java/com/stopwatch/app/screen/planedit/PlanEditScreen.kt:159 | parsing an Int's text gives it back |
| KotlinInt.ToIntOrNullRejectsNonNumeric | app/src/main/java/com/stopwatch/app/screen/planedit/PlanEditScreen.kt:159 | text starting with neither sign nor digit parses to null |
| KotlinInt.ToIntOrNull | app/src/main/java/com/stopwatch/app/screen/planedit/PlanEditScreen.kt:159 | `toIntOrNull`: a value is returned only when it lies in the Int range |
| KotlinInt.IntToString | app/src/main/java/com/stopwatch/app/screen/planedit/PlanEditScreen.kt:159 | `Int.toString()` is never empty and starts with `-` exactly for negative values |
| KotlinInt.DigitsValueOfNatToString | app/src/main/java/com/stopwatch/app/screen/planedit/PlanEditScreen.kt:159 | the digits printed for a number read back as it |
| KotlinText.TrimEmptyIffBlank | app/src/main/java/com/stopwatch/app/email/EmailService.kt:32-36 | trimming leaves nothing iff the text is blank |
| KotlinText.SubstringBefore | app/src/main/java/com/stopwatch/app/email/EmailService.kt:73 | the longest prefix without the character, followed by it when shorter than the text |
| KotlinText.RemoveSuffix | app/src/main/java/com/stopwatch/app/data/ExerciseLibraryInitializer.kt:127 | with the suffix present it is removed, otherwise the text is unchanged |
| KotlinText.ReplaceChar | app/src/main/java/com/stopwatch/app/data/ExerciseLibraryInitializer.kt:115 | every occurrence of the character is replaced, nothing else changes |
| KotlinText.LowerAll | app/src/main/java/com/stopwatch/app/screen/exercisebrowse/ExerciseBrowseViewModel.kt:46-51 | each character lower-cased, for case-insensitive matching |
| KotlinText.ContainsEmpty | app/src/main/java/com/stopwatch/app/screen/exercisebrowse/ExerciseListScreen.kt:51-53 | every text contains the empty string |
| KotlinText.Split | app/src/main/java/com/stopwatch/app/email/EmailService.kt:73 | never empty, and no part contains a delimiter |
| KotlinText.CapitalizeAll | app/src/main/java/com/stopwatch/app/email/EmailService.kt:74 | each part capitalised |
| KotlinText.CapitalizeWordsCharacterized | app/src/main/java/com/stopwatch/app/email/EmailService.kt:73-74 | split, capitalise and join with spaces is the character-wise rule: delimiters become spaces and the first character after each is upper-cased |
| KotlinCollections.Filter | app/src/main/java/com/stopwatch/app/screen/exercisebrowse/ExerciseBrowseViewModel.kt:45-52 | `filter`: an order-preserving subsequence holding exactly the items that pass |
| KotlinCollections.CountIsFilterLength | app/src/main/java/com/stopwatch/app/screen/planedit/ExerciseSelectionSheet.kt:283-285 | `count` is the length of the corresponding `filter` |
| KotlinCollections.DistinctSorted | app/src/main/java/com/stopwatch/app/screen/planedit/ExerciseSelectionSheet.kt:83 | `distinct().sorted()`: strictly increasing in `String.compareTo`'s UTF-16 order, with exactly the input's values |
| KotlinCollections.InsertSorted | app/src/main/java/com/stopwatch/app/screen/planedit/ExerciseSelectionSheet.kt:83 | inserting a string into a strictly sorted list keeps it strictly sorted and adds exactly that string |
| KotlinCollections.StringLessTotal | app/src/main/java/com/stopwatch/app/screen/planedit/ExerciseSelectionSheet.kt:83 | `String.compareTo` orders any two different strings |
| KotlinCollections.StringLessTransitive | app/src/main/java/com/stopwatch/app/screen/planedit/ExerciseSelectionSheet.kt:83 | `String.compareTo` is transitive |
| KotlinCollections.StringLessIsUtf16Order | app/src/main/java/com/stopwatch/app/screen/planedit/ExerciseSelectionSheet.kt:83 | the character-wise order is exactly the lexicographic order of the strings' UTF-16 code units, a proper prefix first, which is what the JVM's `String.compareTo` compares |
| KotlinCollections.UnitsLessDecided | app/src/main/java/com/stopwatch/app/screen/planedit/ExerciseSelectionSheet.kt:83 | two different characters decide the comparison within their own code units, whatever follows |
| KotlinCollections.UnitsInjective | app/src/main/java/com/stopwatch/app/screen/planedit/ExerciseSelectionSheet.kt:83 | different characters have different UTF-16 code units |
| KotlinCollections.SurrogatePairSortsLow | app/src/main/java/com/stopwatch/app/screen/planedit/ExerciseSelectionSheet.kt:83 | U+1F600 sorts before U+FF01 although its code point is larger, because its lead surrogate 0xD83D is smaller |
| KotlinCollections.StrictlySortedUnique | app/src/main/java/com/stopwatch/app/screen/planedit/ExerciseSelectionSheet.kt:83 | the strictly sorted list of a set of strings is unique |

## Left out

- Coroutines and the UI thread are modelled as one sequential run. The user's taps arrive on a script of actions, and at most one action takes effect per `delay`. `Resumes` is a fairness assumption on the script: a paused timer is eventually resumed or left. Without it, `waitWhilePaused` may never return.
- Sounds, speech and notifications are recorded as events in a trace. Their wording and the audio files behind them are not modelled.
- Room DAOs are classes over a sequence of rows. `insertAll` appends; auto-generated ids and the REPLACE conflict strategy are not modelled.
- The id the plan DAO returns from `insert` is a parameter of `Save`. `WorkoutPlanDao`, `ExerciseDao` and `CustomExerciseDao.insert` are not modelled beyond that.
- The SQL aggregates of `WorkoutHistoryDao` (monthly, yearly and most-used statistics) are inputs. Their queries are not modelled.
- The source's model classes are older than the code that uses them. `WorkoutPlan.kt` has no `workoutMode` or `prepTimeSeconds`, and `MonthlyStats.kt` and `YearlyStats.kt` have no `totalRounds`. The model follows the code that reads those fields.
- The summary e-mail's HTML is a structured value that holds every figure and section shown. The markup and styling are not modelled.
- The HTTP call in `sendEmailViaAPI` is its response code (`None` when the call throws). The JSON encoding of the request is the `ApiRequest` value.
- The preferences DataStore is an `Option` value, where `None` means reading it threw. A failure of `setLastEmailSent` is not modelled.
- Scheduling and cancelling the worker through WorkManager (`EmailSummaryWorker.kt:86-104`) is platform configuration and is left out.
- The time zone and `LocalDate.now()` are the `dayOf` and `today` parameters of the streak.
- Long (64-bit) overflow of clock values is not modelled; millisecond times are unbounded integers.
- `monthly[0]` is the latest month with data, as the DAO orders it. It is not checked to be the current month, matching the source.
- `EmailService` never passes a workout breakdown to the template, so the breakdown section is proved only for the template alone.
- QuickTimer.QuickTimerViewModel.Start: calling `start` while a countdown is running starts a second coroutine in the source. The model runs one countdown, so it does not capture two running together.
- PlanEditScreen.IntendedEstimateIsRunTime: the corrected estimate is stated without Int wrap-around.
- EmailDebugHelper.DebugEmailData: the exception path (an error line with the stack trace) and the informational lines (API endpoint, latest plan name, the month and year figures) are not modelled.
- Screen titles, layout, images and navigation are not modelled.
- EmailDebugHelper.GenerateSampleEmailHtml: the exception is the `readError` parameter, so only the database reads are taken to throw. Its message is the text the page prints, so a `null` message is the caller's "null". The page's markup is the `ErrorPage` value.
- RowOrder.OrderBy: rows with equal keys come back in their stored order. SQLite leaves the order of rows that tie under `ORDER BY orderIndex` unspecified. After a replace, a plan's rows carry the distinct indexes 0 to n-1, so the read-back lemmas do not depend on how ties are ordered.
- ActiveTimer.ActiveTimerViewModel.StartWorkout: the timing is exact only for a run the user leaves alone. With pauses the methods state a bound: each countdown's unpaused running time grows between 0 and 1000 ms per second.
- ActiveTimer.ActiveTimerViewModel.SaveHistory: every clock read of one `saveHistory` happens at one instant. In the source, the second `getTotalDurationSeconds` runs after the suspending insert, so the notification can show a second more than the record.
- KotlinText.LowerAll: only the ASCII letters A-Z are lower-cased. Kotlin's `lowercase()` folds every Unicode letter, so "É" matches "é" in the source and not here.
- KotlinText.Lower: ASCII letters only, as for `LowerAll`; other characters are returned unchanged.
- KotlinText.Upper: ASCII letters only. Kotlin's `Char.uppercase()` maps every Unicode letter and can give more than one character (`'ß'.uppercase()` is "SS").
- KotlinText.ContainsIgnoreCase: equal ignoring case only up to ASCII letters. Kotlin's `contains(…, ignoreCase = true)` compares the upper- and lower-case forms of every Unicode character.
- KotlinText.EndsWithIgnoreCase: ASCII letters only, as for `ContainsIgnoreCase`.
- KotlinText.Capitalize: only an ASCII first letter is upper-cased. Kotlin's `capitalize()` title-cases any lower-case first letter (`'ǆ'` becomes `'ǅ'`).
- KotlinText.CapitalizeWordsCharacterized: one character per character holds because upper-casing is ASCII-only here.
- ExerciseLibrary.FormatCategoryName: the same length and the position-wise rule hold for ASCII letters. In the source, `replaceFirstChar { it.uppercase() }` makes a word starting with `'ß'` one character longer.
- ExerciseLibrary.TitledCharacterized: ASCII letters only, for the same reason as `FormatCategoryName`.
- EmailService.UserNameShape: one character per character and the capitalised words hold for ASCII letters only, as for `Capitalize`.
- KotlinInt.ToIntOrNull: only the ASCII digits 0-9 are accepted. Kotlin's `toIntOrNull` also accepts every other Unicode decimal digit, such as the Arabic-Indic digits.
- In the Lambda handler, numbers are integers and NaN is not modelled. `JSON.parse`, the SES call and its error are parameters, and `console.log` is left out. Destructuring a missing body throws a TypeError; that is modelled as a 500 reply, but the error's message text is not. Arrays' properties other than `length` are not modelled.
- EmailTemplate.GetMotivationalMessage: it has no contract of its own; `MotivationPrecedence` and `MotivationNamesWorkouts` state what it chooses.
- EmailTemplate.GenerateSubjectLine: its own contract says only that the subject is not empty; the tier lemmas beside it state which subject is chosen.
- WorkoutExerciseDao.WorkoutExerciseTable.GetExercisesForWorkout: its contract states only that results come from the exercise table; `ReplaceReadBack` states what it returns after a replace.
- LambdaHandler.Handle: its own contract states only the headers; the lemmas after it state the status codes, bodies and SES calls.
- `ExerciseBrowseViewModel`'s `getCategories`, `getSubcategories`, `getExercisesBySubcategory` and `getExerciseById` are thin DAO lookups and counts, and are not modelled.
- `initializeIfNeeded` and `scanExercisesFromAssets` catch exceptions from the asset manager. A throwing asset listing is not modelled; the asset tree is a total function.

## Findings

| source | as written | input that shows it | evidently intended | confidence | as-written member | corrected member |
|---|---|---|---|---|---|---|
| app/src/main/java/com/stopwatch/app/screen/planedit/PlanEditScreen.kt:479-486 | the estimated duration uses `selectedExercises.size` as the exercise count in every mode | the default SIMPLE plan (3 rounds, 5 exercises, 30 s work, 10 s rest, nothing selected) is estimated at 0:20 but runs 590 s | the exercise count `save` records for the mode, with the entries' own durations in CUSTOM mode | not executed | PlanEditScreen.EstimateMissesSimplePlan | PlanEditScreen.IntendedEstimateIsRunTime |
