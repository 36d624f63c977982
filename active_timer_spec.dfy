/**
 * The interval-workout timer, as values: the loaded plan, what the screen
 * shows at each phase, the sounds and notifications a run triggers, the
 * schedule a complete run goes through, and the pause bookkeeping behind
 * the elapsed time. The class in `ActiveTimer` performs the run step by step
 * and is proved to follow these definitions; `ActiveTimerProperties` proves
 * what they promise.
 */
module ActiveTimerSpec {
  import opened Wrappers
  import opened KotlinInt
  import opened Model
  import opened KotlinCollections

  datatype TimerPhase = COUNTDOWN | PREP | WORK | REST | FINISHED

  /** A name and an optional image, as the screen shows an exercise. */
  datatype Shown = Shown(name: string, image: Option<string>)

  const GET_READY: Shown := Shown("Get Ready!", None)
  const FINAL_EXERCISE: Shown := Shown("Final Exercise!", None)

  /** The label of an exercise with no entry to show: "Exercise i". */
  function Placeholder(i: int): Shown {
    Shown("Exercise " + IntToString(i), None)
  }

  function ShowExercise(x: Exercise): Shown {
    Shown(x.name, Some(x.imagePath))
  }

  function ShowCustom(x: CustomExercise): Shown {
    Shown(x.name, x.imagePath)
  }

  // ---------------------------------------------------------------------
  // The loaded plan

  /** The part of the timer's state that `load` fills in and a run only reads. */
  datatype TimerConfig = TimerConfig(
    mode: WorkoutMode,
    rounds: int,
    exercises: int,
    work: int,
    rest: int,
    prep: int,
    library: seq<Exercise>,
    custom: seq<CustomExercise>)

  /** A configuration whose count agrees with the list the mode shows,
      whenever that list is not empty. */
  predicate Loaded(c: TimerConfig) {
    && (c.mode == LIBRARY && |c.library| > 0 ==> c.exercises == |c.library|)
    && (c.mode == CUSTOM ==> c.exercises == |c.custom|)
  }

  /**
   * The configuration `load` leaves for plan `p`, where `library` and
   * `custom` are what the two exercise reads return and `before` is the
   * configuration held until then. Only the mode's own list is read: a
   * LIBRARY plan keeps the custom list held before, a CUSTOM plan the
   * library list, and a SIMPLE plan empties the library list. The count is
   * the list's size, except that a LIBRARY plan without junction rows falls
   * back on the plan's stored count, and a SIMPLE plan always uses it.
   */
  function LoadedConfig(p: WorkoutPlan, library: seq<Exercise>, custom: seq<CustomExercise>,
                        before: TimerConfig): (c: TimerConfig)
    ensures Loaded(c)
    ensures c.mode == p.workoutMode && c.rounds == p.rounds && c.work == p.workSeconds
    ensures c.rest == p.restSeconds && c.prep == p.prepTimeSeconds
    ensures c.library == (if p.workoutMode == LIBRARY then library
                          else if p.workoutMode == SIMPLE then [] else before.library)
    ensures c.custom == if p.workoutMode == CUSTOM then custom else before.custom
    ensures p.workoutMode == SIMPLE || (p.workoutMode == LIBRARY && |library| == 0) ==> c.exercises == p.exerciseCount
  {
    var shown := if p.workoutMode == LIBRARY then library
                 else if p.workoutMode == SIMPLE then [] else before.library;
    var entries := if p.workoutMode == CUSTOM then custom else before.custom;
    var total := if p.workoutMode == CUSTOM then |custom|
                 else if p.workoutMode == LIBRARY && |library| > 0 then |library|
                 else p.exerciseCount;
    TimerConfig(p.workoutMode, p.rounds, total, p.workSeconds, p.restSeconds, p.prepTimeSeconds, shown, entries)
  }

  // ---------------------------------------------------------------------
  // What is shown

  /** The list of entries the mode shows (none in SIMPLE mode). */
  function EntryCount(c: TimerConfig): nat {
    match c.mode
    case LIBRARY => |c.library|
    case CUSTOM => |c.custom|
    case SIMPLE => 0
  }

  /** Entry `k` (0-based) of that list. */
  function Entry(c: TimerConfig, k: int): Shown
    requires 0 <= k < EntryCount(c)
  {
    if c.mode == LIBRARY then ShowExercise(c.library[k]) else ShowCustom(c.custom[k])
  }

  /** The current exercise `i` (1-based), as the WORK phase shows it. */
  function CurrentShown(c: TimerConfig, i: int): Shown
    requires i >= 1
  {
    match c.mode
    case LIBRARY =>
      if |c.library| > 0 && i <= |c.library| then ShowExercise(c.library[i - 1]) else Placeholder(i)
    case CUSTOM =>
      if |c.custom| > 0 && i <= |c.custom| then ShowCustom(c.custom[i - 1]) else Placeholder(i)
    case SIMPLE => Placeholder(i)
  }

  /** The length of the WORK phase of exercise `i`. */
  function WorkDuration(c: TimerConfig, i: int): int
    requires i >= 1
  {
    match c.mode
    case CUSTOM =>
      if |c.custom| > 0 && i <= |c.custom| then c.custom[i - 1].durationSeconds else c.work
    case _ => c.work
  }

  /** The "next up" preview shown while exercise `i` of round `round` runs. */
  function NextShown(c: TimerConfig, round: int, i: int): Shown
    requires i >= 1
  {
    match c.mode
    case LIBRARY =>
      if |c.library| > 0 then
        if i < c.exercises && i < |c.library| then ShowExercise(c.library[i])
        else if i == c.exercises && round < c.rounds then ShowExercise(c.library[0])
        else FINAL_EXERCISE
      else if i < c.exercises then Placeholder(i + 1) else FINAL_EXERCISE
    case CUSTOM =>
      if |c.custom| > 0 then
        if i < c.exercises && i < |c.custom| then ShowCustom(c.custom[i])
        else if i == c.exercises && round < c.rounds then ShowCustom(c.custom[0])
        else FINAL_EXERCISE
      else if i < c.exercises then Placeholder(i + 1) else FINAL_EXERCISE
    case SIMPLE =>
      if i < c.exercises then Placeholder(i + 1) else FINAL_EXERCISE
  }

  /** What the PREP phase shows: the first entry when there is one. */
  function PrepShown(c: TimerConfig): Shown {
    match c.mode
    case LIBRARY => if |c.library| > 0 then ShowExercise(c.library[0]) else GET_READY
    case CUSTOM => if |c.custom| > 0 then ShowCustom(c.custom[0]) else GET_READY
    case SIMPLE => GET_READY
  }

  // ---------------------------------------------------------------------
  // The schedule

  /** What the timer shows when a phase begins. */
  datatype PhaseEntry =
    | Countdown(seconds: int)
    | Prep(seconds: int, showing: Shown)
    | Work(round: int, exercise: int, seconds: int)
    | ExerciseRest(round: int, exercise: int, seconds: int)
    | RoundRest(round: int, seconds: int)
  {
    predicate IsRest() { ExerciseRest? || RoundRest? }
  }

  /** REST follows an exercise only when there is rest and it is not the
      round's last exercise. */
  predicate RestAfterExercise(c: TimerConfig, i: int) {
    c.rest > 0 && i < c.exercises
  }

  /** REST follows a round only when there is rest and it is not the last round. */
  predicate RestAfterRound(c: TimerConfig, round: int) {
    c.rest > 0 && round < c.rounds
  }

  function WorkEntry(c: TimerConfig, round: int, i: int): PhaseEntry
    requires i >= 1
  {
    Work(round, i, WorkDuration(c, i))
  }

  /** The REST after exercise `i`, when there is one. */
  function RestEntries(c: TimerConfig, round: int, i: int): seq<PhaseEntry> {
    if RestAfterExercise(c, i) then [ExerciseRest(round, i, c.rest)] else []
  }

  function ExerciseEntries(c: TimerConfig, round: int, i: int): seq<PhaseEntry>
    requires i >= 1
  {
    [WorkEntry(c, round, i)] + RestEntries(c, round, i)
  }

  /** Exercises 1..k of a round. */
  function ExercisesUpTo(c: TimerConfig, round: int, k: int): seq<PhaseEntry>
    decreases k
  {
    if k <= 0 then [] else ExercisesUpTo(c, round, k - 1) + ExerciseEntries(c, round, k)
  }

  /** The REST between round `round` and the next, when there is one. */
  function RoundBreakEntries(c: TimerConfig, round: int): seq<PhaseEntry> {
    if RestAfterRound(c, round) then [RoundRest(round, c.rest)] else []
  }

  function RoundEntries(c: TimerConfig, round: int): seq<PhaseEntry> {
    ExercisesUpTo(c, round, c.exercises) + RoundBreakEntries(c, round)
  }

  /** Rounds 1..k. */
  function RoundsUpTo(c: TimerConfig, k: int): seq<PhaseEntry>
    decreases k
  {
    if k <= 0 then [] else RoundsUpTo(c, k - 1) + RoundEntries(c, k)
  }

  /** The 3-second countdown, then PREP showing the first exercise. */
  function OpeningEntries(c: TimerConfig): seq<PhaseEntry> {
    [Countdown(3), Prep(c.prep, PrepShown(c))]
  }

  /** Every phase of a complete run, in order. */
  function Schedule(c: TimerConfig): seq<PhaseEntry> {
    OpeningEntries(c) + RoundsUpTo(c, c.rounds)
  }

  // ---------------------------------------------------------------------
  // Sounds and notifications

  /** What a run makes happen, in order: a phase appearing on the screen,
      a sound or a voice line, the completion notification, the
      achievement check. */
  datatype Event =
    | Enter(entry: PhaseEntry)
    | SpeakGetReady | PrepBeep | WarningBeep | GoSound | SpeakStart | SpeakStop
    | RoundEnd | SpeakRoundBreak(round: int, totalRounds: int)
    | SpeakWorkoutComplete | PlayWorkoutComplete
    | CompletionNotification(workoutName: string, durationMinutes: int, durationSeconds: int,
                             roundsCompleted: int, exercisesCompleted: int)
    | AchievementCheck

  /** The beeps at the start of second `s` of a countdown: the prep beep at
      3 seconds in a WORK phase, then the warning beep in the last three seconds. */
  function SecondCues(s: int, isWork: bool): seq<Event> {
    (if isWork && s == 3 then [PrepBeep] else []) + (if s <= 3 then [WarningBeep] else [])
  }

  /** The beeps of `countdown(n)`, seconds n, n-1, ..., 1. */
  function CountdownCues(n: int, isWork: bool): seq<Event>
    decreases n
  {
    if n <= 0 then [] else SecondCues(n, isWork) + CountdownCues(n - 1, isWork)
  }

  /** The beeps of seconds n down to s+1. */
  function CountdownCuesBetween(n: int, s: int, isWork: bool): seq<Event>
    decreases n - s
  {
    if n <= s then [] else SecondCues(n, isWork) + CountdownCuesBetween(n - 1, s, isWork)
  }

  /** A WORK countdown of n seconds: "start", its beeps, "stop". */
  function WorkCountdownCues(n: int): seq<Event> {
    [SpeakStart] + CountdownCues(n, true) + [SpeakStop]
  }

  /** The WORK phase of exercise `i`: it appears, then its countdown. */
  function WorkCues(c: TimerConfig, round: int, i: int): seq<Event>
    requires i >= 1
  {
    [Enter(WorkEntry(c, round, i))] + WorkCountdownCues(WorkDuration(c, i))
  }

  /** The REST after exercise `i`, when there is one: it appears, then its countdown. */
  function RestCues(c: TimerConfig, round: int, i: int): seq<Event> {
    if RestAfterExercise(c, i) then [Enter(ExerciseRest(round, i, c.rest))] + CountdownCues(c.rest, false) else []
  }

  function ExerciseCues(c: TimerConfig, round: int, i: int): seq<Event>
    requires i >= 1
  {
    WorkCues(c, round, i) + RestCues(c, round, i)
  }

  /** Exercises 1..k of a round. */
  function ExercisesCuesUpTo(c: TimerConfig, round: int, k: int): seq<Event>
    decreases k
  {
    if k <= 0 then [] else ExercisesCuesUpTo(c, round, k - 1) + ExerciseCues(c, round, k)
  }

  /** The break after a round, when there is one: the round-end sound, the
      spoken break announcement, then the REST appears and counts down. */
  function RoundBreakCues(c: TimerConfig, round: int): seq<Event> {
    if RestAfterRound(c, round)
    then [RoundEnd, SpeakRoundBreak(round, c.rounds), Enter(RoundRest(round, c.rest))] + CountdownCues(c.rest, false)
    else []
  }

  function RoundCues(c: TimerConfig, round: int): seq<Event> {
    ExercisesCuesUpTo(c, round, c.exercises) + RoundBreakCues(c, round)
  }

  /** Rounds 1..k. */
  function RoundsCuesUpTo(c: TimerConfig, k: int): seq<Event>
    decreases k
  {
    if k <= 0 then [] else RoundsCuesUpTo(c, k - 1) + RoundCues(c, k)
  }

  /** The opening countdown: it appears, "get ready" and a beep, then the
      3-second countdown. */
  function GetReadyCues(): seq<Event> {
    [Enter(Countdown(3)), SpeakGetReady, PrepBeep] + CountdownCues(3, false)
  }

  /** PREP: it appears showing the first exercise, "get ready", the prep
      countdown, the go sound. */
  function PrepCues(c: TimerConfig): seq<Event> {
    [Enter(Prep(c.prep, PrepShown(c))), SpeakGetReady] + CountdownCues(c.prep, false) + [GoSound]
  }

  /** Everything before the first exercise. */
  function OpeningCues(c: TimerConfig): seq<Event> {
    GetReadyCues() + PrepCues(c)
  }

  /** A complete run up to the end of its last phase. */
  function RunCues(c: TimerConfig): seq<Event> {
    OpeningCues(c) + RoundsCuesUpTo(c, c.rounds)
  }

  /** The events of `saveHistory`: the completion notification, with the
      duration split into minutes and seconds, then the achievement check. */
  function SavedCues(name: string, duration: int, rounds: int, exercises: int): seq<Event>
    requires duration >= 0
  {
    [CompletionNotification(name, Quot(duration, 60), Rem(duration, 60), rounds, exercises), AchievementCheck]
  }

  /** The events after the last phase: saving, then the completion voice and sound. */
  function FinishCues(name: string, duration: int, rounds: int, exercises: int): seq<Event>
    requires duration >= 0
  {
    SavedCues(name, duration, rounds, exercises) + [SpeakWorkoutComplete, PlayWorkoutComplete]
  }

  /** The phases recorded in a sequence of events. */
  function Phases(es: seq<Event>): (r: seq<PhaseEntry>)
    ensures |r| <= |es|
  {
    if |es| == 0 then []
    else (if es[0].Enter? then [es[0].entry] else []) + Phases(es[1..])
  }

  // ---------------------------------------------------------------------
  // The user, while the run is going on

  /** What the user does during one 100 ms (or 500 ms) step of the run. */
  datatype UserAction = Idle | TapPause | Leave

  /** The user does not leave the timer paused forever: once the actions
      run out the timer is not paused, unless the user has left by then. */
  predicate Resumes(paused: bool, actions: seq<UserAction>)
    decreases |actions|
  {
    if |actions| == 0 then !paused
    else match actions[0]
      case Idle => Resumes(paused, actions[1..])
      case TapPause => Resumes(!paused, actions[1..])
      case Leave => true
  }

  /** `b` is `a` followed by a prefix of `full`: a run that may have stopped
      early went along `full`. */
  predicate Extends<T(==)>(a: seq<T>, b: seq<T>, full: seq<T>) {
    |a| <= |b| <= |a| + |full| && b == a + full[..|b| - |a|]
  }

  // ---------------------------------------------------------------------
  // Pause bookkeeping and elapsed time

  datatype PauseState = PauseState(isPaused: bool, totalPausedMs: int, pauseStartMs: int)

  /** `togglePause` at time `now`: resuming adds the closed pause to the
      paused total; pausing records when it began. */
  function Toggled(p: PauseState, now: int): PauseState {
    if p.isPaused then PauseState(false, p.totalPausedMs + (now - p.pauseStartMs), p.pauseStartMs)
    else PauseState(true, p.totalPausedMs, now)
  }

  /** The milliseconds of wall clock up to `now` that were not spent
      paused: the clock less every closed pause and the open one. */
  function UnpausedMs(p: PauseState, now: int): int {
    now - p.totalPausedMs - (if p.isPaused then now - p.pauseStartMs else 0)
  }

  /** `getTotalDurationSeconds` at time `now`: milliseconds since the work
      began, less every pause including an open one, in whole seconds
      (truncated, then narrowed to `Int`), and never negative. */
  function TotalDurationSeconds(p: PauseState, startMs: int, now: int): (d: int)
    ensures d >= 0
  {
    var paused := if p.isPaused then now - p.pauseStartMs else 0;
    var elapsed := now - startMs - p.totalPausedMs - paused;
    var secs := Wrap32(Quot(elapsed, 1000));
    if secs < 0 then 0 else secs
  }

  // ---------------------------------------------------------------------
  // How long a run takes: `countdown(n)` counts n seconds, and none when
  // n is not positive

  /** The seconds counted by the REST after exercise `i`, if there is one. */
  function RestTime(c: TimerConfig, i: int): nat {
    if RestAfterExercise(c, i) then Times(c.rest) else 0
  }

  /** The seconds counted by exercise `i`: its WORK, then its REST. */
  function ExerciseTime(c: TimerConfig, i: int): nat
    requires i >= 1
  {
    Times(WorkDuration(c, i)) + RestTime(c, i)
  }

  /** The seconds counted by exercises 1..k of a round. */
  function ExercisesTime(c: TimerConfig, k: int): nat
    decreases k
  {
    if k <= 0 then 0 else ExercisesTime(c, k - 1) + ExerciseTime(c, k)
  }

  /** The seconds counted by the break after round `round`, if there is one. */
  function RoundBreakTime(c: TimerConfig, round: int): nat {
    if RestAfterRound(c, round) then Times(c.rest) else 0
  }

  function RoundTime(c: TimerConfig, round: int): nat {
    ExercisesTime(c, c.exercises) + RoundBreakTime(c, round)
  }

  /** The seconds counted by rounds 1..k. */
  function RoundsTime(c: TimerConfig, k: int): nat
    decreases k
  {
    if k <= 0 then 0 else RoundsTime(c, k - 1) + RoundTime(c, k)
  }

  /** The seconds counted before the first exercise: the 3-second countdown, then PREP. */
  function OpeningTime(c: TimerConfig): nat {
    3 + Times(c.prep)
  }

  /** The record `saveHistory` inserts. */
  function HistoryRecord(planId: int, planName: string, now: int, duration: int, rounds: int): WorkoutHistory {
    WorkoutHistory(0, Some(planId), planName, now, duration, rounds)
  }
  /** `h` is the record a finished run of plan `planId` saves. */
  predicate Recorded(h: WorkoutHistory, planId: int, planName: string, rounds: int) {
    h == HistoryRecord(planId, planName, h.completedAt, h.totalDurationSeconds, rounds)
    && h.totalDurationSeconds >= 0
  }

  // ---------------------------------------------------------------------
  // A round and a run as lists of steps

  /** The steps' events, one step after another. */
  function Flatten(parts: seq<seq<Event>>): seq<Event>
    decreases |parts|
  {
    if |parts| == 0 then [] else Flatten(parts[..|parts| - 1]) + parts[|parts| - 1]
  }

  /** `parts` lists the events of exercises 1, 2, ... of round `round`. */
  predicate ListsExercises(c: TimerConfig, round: int, parts: seq<seq<Event>>) {
    forall i {:trigger ExerciseCues(c, round, i)} :: 1 <= i <= |parts| ==> parts[i - 1] == ExerciseCues(c, round, i)
  }

  /** `parts` lists the events of rounds 1, 2, .... */
  predicate ListsRounds(c: TimerConfig, parts: seq<seq<Event>>) {
    forall r {:trigger RoundCues(c, r)} :: 1 <= r <= |parts| ==> parts[r - 1] == RoundCues(c, r)
  }

  /** The number of times `for (i in 1..n)` runs its body. */
  function Times(n: int): nat {
    if n < 0 then 0 else n
  }

  lemma FlattenStep(parts: seq<seq<Event>>, k: int)
    requires 1 <= k <= |parts|
    ensures Flatten(parts[..k]) == Flatten(parts[..k - 1]) + parts[k - 1]
  {
    assert parts[..k][..k - 1] == parts[..k - 1];
  }

  lemma {:induction false} FlattenPrefix(parts: seq<seq<Event>>, k: int)
    requires 0 <= k <= |parts|
    ensures Flatten(parts[..k]) <= Flatten(parts)
    decreases |parts| - k
  {
    if k < |parts| {
      FlattenPrefix(parts, k + 1);
      FlattenStep(parts, k + 1);
    } else {
      assert parts[..k] == parts;
    }
  }

  lemma {:induction false} ListsExercisesFlatten(c: TimerConfig, round: int, parts: seq<seq<Event>>, k: int)
    requires ListsExercises(c, round, parts) && 0 <= k <= |parts|
    ensures Flatten(parts[..k]) == ExercisesCuesUpTo(c, round, k)
  {
    if k > 0 {
      ListsExercisesFlatten(c, round, parts, k - 1);
      FlattenStep(parts, k);
      assert parts[k - 1] == ExerciseCues(c, round, k);
    }
  }

  lemma {:induction false} ListsRoundsFlatten(c: TimerConfig, parts: seq<seq<Event>>, k: int)
    requires ListsRounds(c, parts) && 0 <= k <= |parts|
    ensures Flatten(parts[..k]) == RoundsCuesUpTo(c, k)
  {
    if k > 0 {
      ListsRoundsFlatten(c, parts, k - 1);
      FlattenStep(parts, k);
      assert parts[k - 1] == RoundCues(c, k);
    }
  }

  /** The exercises of round `round`, as a list of steps. */
  function ExerciseSteps(c: TimerConfig, round: int): (parts: seq<seq<Event>>)
    ensures |parts| == Times(c.exercises) && ListsExercises(c, round, parts)
    ensures Flatten(parts) == ExercisesCuesUpTo(c, round, c.exercises)
  {
    var parts := seq(Times(c.exercises), i requires 0 <= i < Times(c.exercises) => ExerciseCues(c, round, i + 1));
    assert ListsExercises(c, round, parts) by {
      forall i | 1 <= i <= |parts| ensures parts[i - 1] == ExerciseCues(c, round, i) {
      }
    }
    ListsExercisesFlatten(c, round, parts, |parts|);
    assert parts[..|parts|] == parts;
    parts
  }

  /** The rounds of a run, as a list of steps. */
  function RoundSteps(c: TimerConfig): (parts: seq<seq<Event>>)
    ensures |parts| == Times(c.rounds) && ListsRounds(c, parts)
    ensures Flatten(parts) == RoundsCuesUpTo(c, c.rounds)
  {
    var parts := seq(Times(c.rounds), r requires 0 <= r < Times(c.rounds) => RoundCues(c, r + 1));
    assert ListsRounds(c, parts) by {
      forall r | 1 <= r <= |parts| ensures parts[r - 1] == RoundCues(c, r) {
      }
    }
    ListsRoundsFlatten(c, parts, |parts|);
    assert parts[..|parts|] == parts;
    parts
  }

  // ---------------------------------------------------------------------
  // Facts the step-by-step run needs

  lemma ExtendsSelf<T>(a: seq<T>, full: seq<T>)
    ensures Extends(a, a, full)
  {
    assert full[..0] == [];
  }

  lemma ExtendsAll<T>(a: seq<T>, full: seq<T>)
    ensures Extends(a, a + full, full)
  {
    assert full[..|full|] == full;
  }

  /** Going along `f` completely and then partly along `g` is going partly
      along `f + g`. */
  lemma ExtendsThen<T>(a: seq<T>, f: seq<T>, b: seq<T>, g: seq<T>)
    requires Extends(a + f, b, g)
    ensures Extends(a, b, f + g)
  {
    var k := |b| - |a + f|;
    assert (f + g)[..|f| + k] == f + g[..k];
  }

  /** A prefix of `f` is a prefix of any extension of `f`. */
  lemma ExtendsLonger<T>(a: seq<T>, b: seq<T>, f: seq<T>, g: seq<T>)
    requires Extends(a, b, f) && f <= g
    ensures Extends(a, b, g)
  {
    var k := |b| - |a|;
    assert g[..k] == f[..k];
  }

  /** A run that had done `done` and then stopped partway along `step` has
      gone partly along anything that starts with `done + step`. */
  lemma StoppedInStep<T>(start: seq<T>, now: seq<T>, done: seq<T>, step: seq<T>, all: seq<T>)
    requires Extends(start + done, now, step) && done + step <= all
    ensures Extends(start, now, all)
  {
    ExtendsThen(start, done, now, step);
    ExtendsLonger(start, now, done + step, all);
  }

  lemma {:induction false} ExercisesCuesUpToPrefix(c: TimerConfig, round: int, k: int, m: int)
    requires k <= m
    ensures ExercisesCuesUpTo(c, round, k) <= ExercisesCuesUpTo(c, round, m)
    decreases m - k
  {
    if k < m {
      ExercisesCuesUpToPrefix(c, round, k, m - 1);
      if m > 0 {
        assert ExercisesCuesUpTo(c, round, m - 1) <= ExercisesCuesUpTo(c, round, m);
      }
    }
  }

  lemma {:induction false} RoundsCuesUpToPrefix(c: TimerConfig, k: int, m: int)
    requires k <= m
    ensures RoundsCuesUpTo(c, k) <= RoundsCuesUpTo(c, m)
    decreases m - k
  {
    if k < m {
      RoundsCuesUpToPrefix(c, k, m - 1);
      if m > 0 {
        assert RoundsCuesUpTo(c, m - 1) <= RoundsCuesUpTo(c, m);
      }
    }
  }

  /** The beeps of a countdown split at second `s`. */
  lemma {:induction false} CountdownCuesSplit(n: int, s: int, isWork: bool)
    requires 0 <= s <= n
    ensures CountdownCues(n, isWork) == CountdownCuesBetween(n, s, isWork) + CountdownCues(s, isWork)
    decreases n - s
  {
    if s < n {
      CountdownCuesSplit(n - 1, s, isWork);
      AppendRegroup(SecondCues(n, isWork), CountdownCuesBetween(n - 1, s, isWork), CountdownCues(s, isWork));
    }
  }

  /** One more second of beeps. */
  lemma {:induction false} CountdownCuesBetweenStep(n: int, s: int, isWork: bool)
    requires 1 <= s <= n
    ensures CountdownCuesBetween(n, s - 1, isWork) == CountdownCuesBetween(n, s, isWork) + SecondCues(s, isWork)
    decreases n - s
  {
    if s < n {
      CountdownCuesBetweenStep(n - 1, s, isWork);
    }
  }

  /** A countdown stopped after second s+1 has gone partly along the full one. */
  lemma CountdownStoppedEarly(start: seq<Event>, n: int, s: int, isWork: bool)
    requires 0 <= s <= n
    ensures Extends(start, start + CountdownCuesBetween(n, s, isWork), CountdownCues(n, isWork))
    ensures s == 0 ==> CountdownCuesBetween(n, s, isWork) == CountdownCues(n, isWork)
  {
    CountdownCuesSplit(n, s, isWork);
    ExtendsAll(start, CountdownCuesBetween(n, s, isWork));
    ExtendsLonger(start, start + CountdownCuesBetween(n, s, isWork), CountdownCuesBetween(n, s, isWork),
                  CountdownCues(n, isWork));
  }
}
