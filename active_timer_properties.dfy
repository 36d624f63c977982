/**
 * What the timer's definitions promise: the phases a complete run shows are
 * the schedule, the seconds of work and rest add up to the editor's formula,
 * the "next up" preview names the exercise that comes next, a countdown's
 * beeps have a closed form, and the elapsed time stands still while paused.
 */
module ActiveTimerProperties {
  import opened Wrappers
  import opened KotlinInt
  import opened Model
  import opened ActiveTimerSpec

  // ---------------------------------------------------------------------
  // The phases of a run are the schedule

  lemma {:induction false} PhasesAppend(a: seq<Event>, b: seq<Event>)
    ensures Phases(a + b) == Phases(a) + Phases(b)
    decreases |a|
  {
    if |a| == 0 {
      assert a + b == b;
    } else {
      assert (a + b)[0] == a[0];
      assert (a + b)[1..] == a[1..] + b;
      PhasesAppend(a[1..], b);
    }
  }

  lemma {:induction false} PhasesOfCountdown(n: int, isWork: bool)
    ensures Phases(CountdownCues(n, isWork)) == []
    decreases n
  {
    if n > 0 {
      var s := SecondCues(n, isWork);
      assert Phases(s) == [] by {
        if |s| > 0 {
          assert s[1..] == [] || s[1..] == [WarningBeep];
        }
      }
      PhasesAppend(s, CountdownCues(n - 1, isWork));
      PhasesOfCountdown(n - 1, isWork);
    }
  }

  lemma PhasesOfOther(x: Event)
    requires !x.Enter?
    ensures Phases([x]) == []
  {
    assert [x][1..] == [];
  }

  /** One phase appearing, then events that are not phases. */
  lemma PhasesOfEntering(e: PhaseEntry, rest: seq<Event>)
    requires Phases(rest) == []
    ensures Phases([Enter(e)] + rest) == [e]
  {
    PhasesAppend([Enter(e)], rest);
  }

  lemma PhasesOfWork(c: TimerConfig, round: int, i: int)
    requires i >= 1
    ensures Phases(WorkCues(c, round, i)) == [WorkEntry(c, round, i)]
  {
    var beeps := CountdownCues(WorkDuration(c, i), true);
    PhasesOfCountdown(WorkDuration(c, i), true);
    PhasesOfOther(SpeakStart);
    PhasesOfOther(SpeakStop);
    PhasesAppend([SpeakStart], beeps);
    PhasesAppend([SpeakStart] + beeps, [SpeakStop]);
    assert WorkCues(c, round, i) == [Enter(WorkEntry(c, round, i))] + ([SpeakStart] + beeps + [SpeakStop]);
    PhasesOfEntering(WorkEntry(c, round, i), [SpeakStart] + beeps + [SpeakStop]);
  }

  lemma PhasesOfExercise(c: TimerConfig, round: int, i: int)
    requires i >= 1
    ensures Phases(ExerciseCues(c, round, i)) == ExerciseEntries(c, round, i)
  {
    PhasesOfWork(c, round, i);
    PhasesAppend(WorkCues(c, round, i), RestCues(c, round, i));
    if RestAfterExercise(c, i) {
      PhasesOfCountdown(c.rest, false);
      PhasesOfEntering(ExerciseRest(round, i, c.rest), CountdownCues(c.rest, false));
    }
  }

  lemma {:induction false} PhasesOfExercises(c: TimerConfig, round: int, k: int)
    ensures Phases(ExercisesCuesUpTo(c, round, k)) == ExercisesUpTo(c, round, k)
    decreases k
  {
    if k > 0 {
      PhasesOfExercises(c, round, k - 1);
      PhasesOfExercise(c, round, k);
      PhasesAppend(ExercisesCuesUpTo(c, round, k - 1), ExerciseCues(c, round, k));
    }
  }

  lemma Regroup<T>(x: T, y: T, z: T, t: seq<T>)
    ensures [x, y, z] + t == [x, y] + ([z] + t)
  {
  }

  lemma PhasesOfAnnouncement(round: int, rounds: int)
    ensures Phases([RoundEnd, SpeakRoundBreak(round, rounds)]) == []
  {
    PhasesOfOther(RoundEnd);
    PhasesOfOther(SpeakRoundBreak(round, rounds));
    PhasesAppend([RoundEnd], [SpeakRoundBreak(round, rounds)]);
    assert [RoundEnd, SpeakRoundBreak(round, rounds)] == [RoundEnd] + [SpeakRoundBreak(round, rounds)];
  }

  lemma PhasesOfRoundBreak(c: TimerConfig, round: int)
    ensures Phases(RoundBreakCues(c, round)) == RoundBreakEntries(c, round)
  {
    if RestAfterRound(c, round) {
      var announced := [RoundEnd, SpeakRoundBreak(round, c.rounds)];
      var rest := [Enter(RoundRest(round, c.rest))] + CountdownCues(c.rest, false);
      PhasesOfAnnouncement(round, c.rounds);
      PhasesOfCountdown(c.rest, false);
      PhasesOfEntering(RoundRest(round, c.rest), CountdownCues(c.rest, false));
      Regroup(RoundEnd, SpeakRoundBreak(round, c.rounds), Enter(RoundRest(round, c.rest)), CountdownCues(c.rest, false));
      PhasesAppend(announced, rest);
    }
  }

  lemma PhasesOfRound(c: TimerConfig, round: int)
    ensures Phases(RoundCues(c, round)) == RoundEntries(c, round)
  {
    PhasesOfExercises(c, round, c.exercises);
    PhasesOfRoundBreak(c, round);
    PhasesAppend(ExercisesCuesUpTo(c, round, c.exercises), RoundBreakCues(c, round));
  }

  lemma {:induction false} PhasesOfRounds(c: TimerConfig, k: int)
    ensures Phases(RoundsCuesUpTo(c, k)) == RoundsUpTo(c, k)
    decreases k
  {
    if k > 0 {
      PhasesOfRounds(c, k - 1);
      PhasesOfRound(c, k);
      PhasesAppend(RoundsCuesUpTo(c, k - 1), RoundCues(c, k));
    }
  }

  lemma PhasesOfGetReady()
    ensures Phases(GetReadyCues()) == [Countdown(3)]
  {
    var beeps := CountdownCues(3, false);
    PhasesOfCountdown(3, false);
    PhasesOfOther(SpeakGetReady);
    PhasesOfOther(PrepBeep);
    PhasesAppend([SpeakGetReady], [PrepBeep]);
    assert [SpeakGetReady, PrepBeep] == [SpeakGetReady] + [PrepBeep];
    PhasesAppend([SpeakGetReady, PrepBeep], beeps);
    assert GetReadyCues() == [Enter(Countdown(3))] + ([SpeakGetReady, PrepBeep] + beeps);
    PhasesOfEntering(Countdown(3), [SpeakGetReady, PrepBeep] + beeps);
  }

  lemma PhasesOfPrep(c: TimerConfig)
    ensures Phases(PrepCues(c)) == [Prep(c.prep, PrepShown(c))]
  {
    var beeps := CountdownCues(c.prep, false);
    PhasesOfCountdown(c.prep, false);
    PhasesOfOther(SpeakGetReady);
    PhasesOfOther(GoSound);
    PhasesAppend([SpeakGetReady], beeps);
    PhasesAppend([SpeakGetReady] + beeps, [GoSound]);
    assert PrepCues(c) == [Enter(Prep(c.prep, PrepShown(c)))] + ([SpeakGetReady] + beeps + [GoSound]);
    PhasesOfEntering(Prep(c.prep, PrepShown(c)), [SpeakGetReady] + beeps + [GoSound]);
  }

  lemma PhasesOfOpening(c: TimerConfig)
    ensures Phases(OpeningCues(c)) == OpeningEntries(c)
  {
    PhasesOfGetReady();
    PhasesOfPrep(c);
    PhasesAppend(GetReadyCues(), PrepCues(c));
  }

  /** The phases a complete run shows, in the order it shows them, are the
      schedule: COUNTDOWN, PREP, then each round's WORK and REST phases. */
  lemma PhasesOfRun(c: TimerConfig)
    ensures Phases(RunCues(c)) == Schedule(c)
  {
    PhasesOfOpening(c);
    PhasesOfRounds(c, c.rounds);
    PhasesAppend(OpeningCues(c), RoundsCuesUpTo(c, c.rounds));
  }

  // ---------------------------------------------------------------------
  // Seconds of work and rest

  /** The seconds a WORK or REST phase counts down; the opening countdown
      and PREP come before the workout's own time and count nothing. */
  function Seconds(e: PhaseEntry): int {
    match e
    case Work(_, _, s) => s
    case ExerciseRest(_, _, s) => s
    case RoundRest(_, s) => s
    case _ => 0
  }

  function IntervalSeconds(es: seq<PhaseEntry>): int
    decreases |es|
  {
    if |es| == 0 then 0 else IntervalSeconds(es[..|es| - 1]) + Seconds(es[|es| - 1])
  }

  lemma {:induction false} IntervalSecondsAppend(a: seq<PhaseEntry>, b: seq<PhaseEntry>)
    ensures IntervalSeconds(a + b) == IntervalSeconds(a) + IntervalSeconds(b)
    decreases |b|
  {
    if |b| == 0 {
      assert a + b == a;
    } else {
      assert (a + b)[..|a + b| - 1] == a + b[..|b| - 1];
      IntervalSecondsAppend(a, b[..|b| - 1]);
    }
  }

  /** The WORK seconds of exercises 1..k. */
  function WorkTotal(c: TimerConfig, k: int): int
    decreases k
  {
    if k <= 0 then 0 else WorkTotal(c, k - 1) + WorkDuration(c, k)
  }

  /** How many of items 1..k of n are followed by a break: all but the last. */
  function Breaks(k: int, n: int): int {
    if k < n then k else if k > 0 then k - 1 else 0
  }

  lemma IntervalSecondsOfTwo(x: PhaseEntry, y: PhaseEntry)
    ensures IntervalSeconds([x]) == Seconds(x)
    ensures IntervalSeconds([x, y]) == Seconds(x) + Seconds(y)
  {
    assert [x][..0] == [];
    assert [x, y][..1] == [x];
  }

  lemma {:induction false} ExercisesSeconds(c: TimerConfig, round: int, k: int)
    requires 0 <= k <= c.exercises
    ensures IntervalSeconds(ExercisesUpTo(c, round, k))
         == WorkTotal(c, k) + (if c.rest > 0 then c.rest * Breaks(k, c.exercises) else 0)
    decreases k
  {
    if k > 0 {
      var before, last := ExercisesUpTo(c, round, k - 1), ExerciseEntries(c, round, k);
      ExercisesSeconds(c, round, k - 1);
      IntervalSecondsAppend(before, last);
      ExerciseEntriesSeconds(c, round, k);
      ExerciseBreaksStep(c, k);
    }
  }

  /** One exercise: its WORK phase, and its REST when one follows it. */
  lemma ExerciseEntriesSeconds(c: TimerConfig, round: int, k: int)
    requires k >= 1
    ensures IntervalSeconds(ExerciseEntries(c, round, k))
         == WorkDuration(c, k) + (if RestAfterExercise(c, k) then c.rest else 0)
  {
    IntervalSecondsOfTwo(WorkEntry(c, round, k), ExerciseRest(round, k, c.rest));
    if RestAfterExercise(c, k) {
      assert ExerciseEntries(c, round, k) == [WorkEntry(c, round, k), ExerciseRest(round, k, c.rest)];
    } else {
      assert ExerciseEntries(c, round, k) == [WorkEntry(c, round, k)];
    }
  }

  /** The rests counted up to exercise k: one more than up to exercise
      k - 1 exactly when a rest follows exercise k. */
  lemma ExerciseBreaksStep(c: TimerConfig, k: int)
    requires 0 < k <= c.exercises
    ensures (if c.rest > 0 then c.rest * Breaks(k, c.exercises) else 0)
         == (if c.rest > 0 then c.rest * Breaks(k - 1, c.exercises) else 0)
            + (if RestAfterExercise(c, k) then c.rest else 0)
  {
    if k < c.exercises {
      assert Breaks(k, c.exercises) == Breaks(k - 1, c.exercises) + 1;
      MulStep(Breaks(k, c.exercises), c.rest);
    }
  }

  /** The seconds of one round's WORK and REST phases, without the break after it. */
  function RoundSeconds(c: TimerConfig): int {
    WorkTotal(c, c.exercises) + (if c.rest > 0 then c.rest * Breaks(c.exercises, c.exercises) else 0)
  }

  /** One round: its exercises, and its break when one follows it. */
  lemma RoundEntriesSeconds(c: TimerConfig, k: int)
    requires c.exercises >= 0
    ensures IntervalSeconds(RoundEntries(c, k))
         == RoundSeconds(c) + (if RestAfterRound(c, k) then c.rest else 0)
  {
    ExercisesSeconds(c, k, c.exercises);
    IntervalSecondsAppend(ExercisesUpTo(c, k, c.exercises), RoundBreakEntries(c, k));
    IntervalSecondsOfTwo(RoundRest(k, c.rest), RoundRest(k, c.rest));
  }

  /** The breaks counted up to round k: one more than up to round k - 1
      exactly when a break follows round k. */
  lemma RoundBreaksStep(c: TimerConfig, k: int)
    requires 0 < k <= c.rounds
    ensures (if c.rest > 0 then c.rest * Breaks(k, c.rounds) else 0)
         == (if c.rest > 0 then c.rest * Breaks(k - 1, c.rounds) else 0)
            + (if RestAfterRound(c, k) then c.rest else 0)
  {
    var b := k - 1;
    assert Breaks(k - 1, c.rounds) == b;
    if k < c.rounds {
      assert Breaks(k, c.rounds) == b + 1;
      assert c.rest * (b + 1) == c.rest * b + c.rest;
    } else {
      assert Breaks(k, c.rounds) == b;
    }
  }

  lemma {:induction false} RoundsSeconds(c: TimerConfig, k: int)
    requires c.exercises >= 0 && 0 <= k <= c.rounds
    ensures IntervalSeconds(RoundsUpTo(c, k))
         == k * RoundSeconds(c) + (if c.rest > 0 then c.rest * Breaks(k, c.rounds) else 0)
    decreases k
  {
    if k > 0 {
      var before, last := RoundsUpTo(c, k - 1), RoundEntries(c, k);
      RoundsSeconds(c, k - 1);
      RoundEntriesSeconds(c, k);
      IntervalSecondsAppend(before, last);
      RoundBreaksStep(c, k);
      MulStep(k, RoundSeconds(c));
    }
  }

  lemma MulStep(k: int, r: int)
    ensures k * r == (k - 1) * r + r
  {
  }

  lemma {:induction false} UniformWork(c: TimerConfig, k: int)
    requires c.mode != CUSTOM && k >= 0
    ensures WorkTotal(c, k) == k * c.work
    decreases k
  {
    if k > 0 {
      UniformWork(c, k - 1);
    }
  }

  function Max0(x: int): int {
    if x > 0 then x else 0
  }

  /** A complete run counts down the WORK and REST seconds of every round,
      and the rest seconds of a break after every round but the last. */
  lemma ScheduleSeconds(c: TimerConfig)
    requires c.rounds >= 0 && c.exercises >= 0
    ensures IntervalSeconds(Schedule(c))
         == c.rounds * RoundSeconds(c) + (if c.rest > 0 then c.rest * Max0(c.rounds - 1) else 0)
  {
    RoundsSeconds(c, c.rounds);
    IntervalSecondsAppend(OpeningEntries(c), RoundsUpTo(c, c.rounds));
    IntervalSecondsOfTwo(Countdown(3), Prep(c.prep, PrepShown(c)));
  }

  lemma Distribute(r: int, e: int, w: int, s: int)
    ensures r * (e * w + Max0(e - 1) * s) == r * e * w + r * Max0(e - 1) * s
  {
  }

  /**
   * In SIMPLE and LIBRARY mode a complete run counts down, after PREP,
   * rounds * exercises * work seconds of WORK, rest seconds after every
   * exercise but a round's last, and rest seconds after every round but the
   * last: the estimate the plan editor shows.
   */
  lemma WorkAndRestSeconds(c: TimerConfig)
    requires c.mode != CUSTOM && c.rounds >= 0 && c.exercises >= 0 && c.rest >= 0
    ensures IntervalSeconds(Schedule(c))
         == c.rounds * c.exercises * c.work + c.rounds * Max0(c.exercises - 1) * c.rest
            + Max0(c.rounds - 1) * c.rest
  {
    ScheduleSeconds(c);
    UniformWork(c, c.exercises);
    assert RoundSeconds(c) == c.exercises * c.work + Max0(c.exercises - 1) * c.rest;
    Distribute(c.rounds, c.exercises, c.work, c.rest);
  }

  /** The same count, read off the phases a complete run shows. */
  lemma RunWorkAndRestSeconds(c: TimerConfig)
    requires c.mode != CUSTOM && c.rounds >= 0 && c.exercises >= 0 && c.rest >= 0
    ensures IntervalSeconds(Phases(RunCues(c)))
         == c.rounds * c.exercises * c.work + c.rounds * Max0(c.exercises - 1) * c.rest
            + Max0(c.rounds - 1) * c.rest
  {
    PhasesOfRun(c);
    WorkAndRestSeconds(c);
  }

  /** In CUSTOM mode exercise i works for its entry's own duration while
      there is an entry for it, and for the plan's work seconds otherwise;
      the other modes always use the plan's work seconds. */
  lemma CustomWorkDurations(c: TimerConfig, i: int)
    requires i >= 1
    ensures c.mode == CUSTOM && i <= |c.custom| ==> WorkDuration(c, i) == c.custom[i - 1].durationSeconds
    ensures c.mode != CUSTOM || i > |c.custom| ==> WorkDuration(c, i) == c.work
  {
  }

  // ---------------------------------------------------------------------
  // How long a run takes

  /** No exercise of a round works for a negative number of seconds. */
  predicate WorksNonNegative(c: TimerConfig) {
    forall i :: 1 <= i <= c.exercises ==> WorkDuration(c, i) >= 0
  }

  /** When no WORK phase is negative, the seconds exercises 1..k count are
      the seconds of their WORK and REST phases. */
  lemma {:induction false} ExercisesTimeIsSeconds(c: TimerConfig, round: int, k: int)
    requires WorksNonNegative(c) && k <= c.exercises
    ensures ExercisesTime(c, k) == IntervalSeconds(ExercisesUpTo(c, round, k))
    decreases k
  {
    if k > 0 {
      ExercisesTimeIsSeconds(c, round, k - 1);
      IntervalSecondsAppend(ExercisesUpTo(c, round, k - 1), ExerciseEntries(c, round, k));
      ExerciseEntriesSeconds(c, round, k);
    }
  }

  lemma RoundTimeIsSeconds(c: TimerConfig, round: int)
    requires WorksNonNegative(c)
    ensures RoundTime(c, round) == IntervalSeconds(RoundEntries(c, round))
  {
    ExercisesTimeIsSeconds(c, round, c.exercises);
    IntervalSecondsAppend(ExercisesUpTo(c, round, c.exercises), RoundBreakEntries(c, round));
    IntervalSecondsOfTwo(RoundRest(round, c.rest), RoundRest(round, c.rest));
  }

  lemma {:induction false} RoundsTimeIsSeconds(c: TimerConfig, k: int)
    requires WorksNonNegative(c)
    ensures RoundsTime(c, k) == IntervalSeconds(RoundsUpTo(c, k))
    decreases k
  {
    if k > 0 {
      RoundsTimeIsSeconds(c, k - 1);
      RoundTimeIsSeconds(c, k);
      IntervalSecondsAppend(RoundsUpTo(c, k - 1), RoundEntries(c, k));
    }
  }

  /** After the opening, a run counts down exactly the WORK and REST
      seconds of its schedule. */
  lemma RunTimeIsScheduleSeconds(c: TimerConfig)
    requires WorksNonNegative(c)
    ensures RoundsTime(c, c.rounds) == IntervalSeconds(Schedule(c))
  {
    RoundsTimeIsSeconds(c, c.rounds);
    IntervalSecondsAppend(OpeningEntries(c), RoundsUpTo(c, c.rounds));
    IntervalSecondsOfTwo(Countdown(3), Prep(c.prep, PrepShown(c)));
  }

  /** A run never paused, recorded `s` whole seconds after its work began,
      is saved with a duration of `s` seconds while that fits in an `Int`. */
  lemma UnpausedDuration(p: PauseState, startMs: int, s: int)
    requires !p.isPaused && p.totalPausedMs == 0 && 0 <= s <= INT_MAX
    ensures TotalDurationSeconds(p, startMs, startMs + 1000 * s) == s
  {
    assert (1000 * s) / 1000 == s;
  }

  /**
   * A run the user leaves alone (see ActiveTimerViewModel.StartWorkout) is
   * saved with the WORK and REST seconds of its schedule as its duration;
   * in SIMPLE and LIBRARY mode that is the plan editor's estimate.
   */
  lemma QuietRunDuration(c: TimerConfig, p: PauseState, startMs: int)
    requires WorksNonNegative(c) && !p.isPaused && p.totalPausedMs == 0
    requires IntervalSeconds(Schedule(c)) <= INT_MAX
    ensures TotalDurationSeconds(p, startMs, startMs + 1000 * RoundsTime(c, c.rounds))
         == IntervalSeconds(Schedule(c))
    ensures c.mode != CUSTOM && c.rounds >= 0 && c.exercises >= 0 && c.rest >= 0 ==>
              TotalDurationSeconds(p, startMs, startMs + 1000 * RoundsTime(c, c.rounds))
              == c.rounds * c.exercises * c.work + c.rounds * Max0(c.exercises - 1) * c.rest
                 + Max0(c.rounds - 1) * c.rest
  {
    RunTimeIsScheduleSeconds(c);
    UnpausedDuration(p, startMs, RoundsTime(c, c.rounds));
    if c.mode != CUSTOM && c.rounds >= 0 && c.exercises >= 0 && c.rest >= 0 {
      WorkAndRestSeconds(c);
    }
  }

  // ---------------------------------------------------------------------
  // What is shown

  /** While exercise i runs, the preview names what the next WORK phase
      will show: exercise i+1 of the same round, else the first exercise
      of the next round when the mode has a list, else "Final Exercise!". */
  lemma NextIsUpcoming(c: TimerConfig, round: int, i: int)
    requires Loaded(c) && 1 <= i <= c.exercises
    ensures NextShown(c, round, i) ==
      if i < c.exercises then CurrentShown(c, i + 1)
      else if round < c.rounds && EntryCount(c) > 0 then CurrentShown(c, 1)
      else FINAL_EXERCISE
  {
  }

  /** PREP shows the exercise the first WORK phase will show, when the mode
      has a list; "Get Ready!" otherwise. */
  lemma PrepShowsFirst(c: TimerConfig)
    ensures EntryCount(c) > 0 ==> PrepShown(c) == CurrentShown(c, 1)
    ensures EntryCount(c) == 0 ==> PrepShown(c) == GET_READY
  {
  }

  /** The current exercise is an entry of the mode's list exactly when the
      list has one at that position; otherwise it is "Exercise i". */
  lemma CurrentIsEntryOrPlaceholder(c: TimerConfig, i: int)
    requires i >= 1
    ensures i <= EntryCount(c) ==> CurrentShown(c, i) == Entry(c, i - 1)
    ensures i > EntryCount(c) ==> CurrentShown(c, i) == Placeholder(i)
  {
  }

  // ---------------------------------------------------------------------
  // Countdown beeps

  function Warnings(k: nat): seq<Event> {
    seq(k, _ => WarningBeep)
  }

  /** `countdown(n)` beeps a warning in each of its last three seconds (all
      of them when n is shorter), preceded in a WORK phase of 3 seconds or
      more by the prep beep; `countdown(0)` beeps nothing. */
  lemma {:induction false} CountdownBeeps(n: int, isWork: bool)
    ensures CountdownCues(n, isWork)
         == (if isWork && n >= 3 then [PrepBeep] else []) + Warnings(if n >= 3 then 3 else Max0(n))
    decreases n
  {
    if n > 0 {
      CountdownBeeps(n - 1, isWork);
      if n > 3 {
        assert SecondCues(n, isWork) == [];
      } else if n == 3 {
        assert Warnings(3) == [WarningBeep] + Warnings(2);
      } else {
        assert Warnings(n) == [WarningBeep] + Warnings(n - 1);
      }
    }
  }

  // ---------------------------------------------------------------------
  // Pause bookkeeping

  /** Pausing and resuming restores the flag and adds the closed pause to
      the paused total. */
  lemma PauseThenResume(p: PauseState, pausedAt: int, resumedAt: int)
    requires !p.isPaused
    ensures Toggled(Toggled(p, pausedAt), resumedAt)
         == PauseState(false, p.totalPausedMs + (resumedAt - pausedAt), pausedAt)
  {
  }

  /** Toggling never makes the elapsed time jump. */
  lemma ToggleKeepsElapsed(p: PauseState, startMs: int, now: int)
    ensures TotalDurationSeconds(Toggled(p, now), startMs, now) == TotalDurationSeconds(p, startMs, now)
  {
  }

  /** While paused, the elapsed time does not change as the clock runs. */
  lemma FrozenWhilePaused(p: PauseState, startMs: int, t1: int, t2: int)
    requires p.isPaused
    ensures TotalDurationSeconds(p, startMs, t1) == TotalDurationSeconds(p, startMs, t2)
  {
  }

  /** While running, the elapsed time does not go back as the clock runs,
      as long as it fits in an `Int`. */
  lemma ElapsedMonotone(p: PauseState, startMs: int, t1: int, t2: int)
    requires !p.isPaused && t1 <= t2
    requires IsInt32(Quot(t1 - startMs - p.totalPausedMs, 1000))
    requires IsInt32(Quot(t2 - startMs - p.totalPausedMs, 1000))
    ensures TotalDurationSeconds(p, startMs, t1) <= TotalDurationSeconds(p, startMs, t2)
  {
    QuotMonotone(t1 - startMs - p.totalPausedMs, t2 - startMs - p.totalPausedMs, 1000);
  }

  lemma QuotMonotone(a: int, b: int, d: int)
    requires a <= b && d > 0
    ensures Quot(a, d) <= Quot(b, d)
  {
    if a >= 0 {
      DivMonotone(a, b, d);
    } else if b < 0 {
      DivMonotone(-b, -a, d);
    }
  }

  lemma DivMonotone(a: int, b: int, d: int)
    requires 0 <= a <= b && d > 0
    ensures a / d <= b / d
  {
    var qa, qb := a / d, b / d;
    assert qa * d <= a;
    assert b < (qb + 1) * d;
    MulCancel(qa, qb + 1, d);
  }
}
