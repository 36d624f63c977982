/**
 * The plan editor screen's logic: the estimated duration shown under the
 * settings, the save button's enabled rule, and how a numeric text field
 * forwards what is typed. The arithmetic is Kotlin `Int` arithmetic, so
 * every operation wraps around.
 */
module PlanEditScreen {
  import opened Wrappers
  import opened KotlinInt
  import opened KotlinText
  import opened Model
  import opened ActiveTimerSpec
  import opened ActiveTimerProperties
  import PlanEdit

  /** The exact estimate: rounds * n * work, rest after every exercise but a
      round's last, rest after every round but the last. */
  function ExactEstimate(rounds: int, n: int, work: int, rest: int): int {
    rounds * n * work + rounds * Max0(n - 1) * rest + Max0(rounds - 1) * rest
  }

  /** The estimate as the screen computes it, with `n` the number of
      selected library exercises, in wrapping `Int` arithmetic. */
  function EstimatedSeconds(rounds: int, n: int, work: int, rest: int): int {
    var totalWork := Wrap32(Wrap32(rounds * n) * work);
    var totalRestBetweenExercises := Wrap32(Wrap32(rounds * CoerceAtLeast(Wrap32(n - 1), 0)) * rest);
    var totalRestBetweenRounds := Wrap32(CoerceAtLeast(Wrap32(rounds - 1), 0) * rest);
    Wrap32(Wrap32(totalWork + totalRestBetweenExercises) + totalRestBetweenRounds)
  }

  /** The screen's estimate is the exact one whenever that fits in an `Int`. */
  lemma EstimateIsExact(rounds: int, n: int, work: int, rest: int)
    requires 0 <= rounds <= INT_MAX && 0 <= n <= INT_MAX
    requires IsInt32(ExactEstimate(rounds, n, work, rest))
    ensures EstimatedSeconds(rounds, n, work, rest) == ExactEstimate(rounds, n, work, rest)
  {
    assert Wrap32(n - 1) == n - 1 && Wrap32(rounds - 1) == rounds - 1;
    var m := CoerceAtLeast(n - 1, 0);
    var q := CoerceAtLeast(rounds - 1, 0);
    WrapMul(rounds * n, work);
    WrapMul(rounds * m, rest);
    WrapSum3(rounds * n * work, rounds * m * rest, q * rest);
  }

  lemma WrapSum3(x: int, y: int, z: int)
    ensures Wrap32(Wrap32(Wrap32(x) + Wrap32(y)) + Wrap32(z)) == Wrap32(x + y + z)
  {
    WrapAdd(x, y);
    WrapAdd(x + y, z);
  }

  /** The minutes and seconds shown: `total / 60` and `total % 60`. */
  function Displayed(total: int): (ms: (int, int))
    ensures ms.0 * 60 + ms.1 == total
    ensures -60 < ms.1 < 60
    ensures total >= 0 ==> 0 <= ms.1 < 60 && ms.0 >= 0
  {
    (Quot(total, 60), Rem(total, 60))
  }

  /** The save button's `enabled` rule. */
  predicate SaveEnabled(mode: WorkoutMode, name: string, selected: seq<Exercise>, custom: seq<CustomExercise>) {
    match mode
    case SIMPLE => !IsBlank(name)
    case LIBRARY => !IsBlank(name) && |selected| > 0
    case CUSTOM => !IsBlank(name) && |custom| > 0
  }

  /** The button is enabled exactly when `save` would accept the plan. */
  lemma SaveEnabledIffAccepted(mode: WorkoutMode, name: string, selected: seq<Exercise>, custom: seq<CustomExercise>)
    ensures SaveEnabled(mode, name, selected, custom) <==> PlanEdit.CanSave(mode, name, selected, custom)
  {
  }

  /** What a numeric field passes on when its text becomes `text`: the
      number when the text parses as an `Int`, nothing otherwise. */
  function Forwarded(text: string): (r: Option<int>)
    ensures r.Some? ==> IsInt32(r.value)
  {
    ToIntOrNull(text)
  }

  /** A field showing a value's own text forwards that value; text that is
      not a number (say, after the user typed a letter first) forwards nothing. */
  lemma ForwardedValues(v: int, text: string)
    requires IsInt32(v)
    ensures Forwarded(IntToString(v)) == Some(v)
    ensures |text| > 0 && text[0] != '-' && text[0] != '+' && !IsDigit(text[0]) ==> Forwarded(text) == None
  {
    ToIntOrNullOfIntToString(v);
    if |text| > 0 && text[0] != '-' && text[0] != '+' && !IsDigit(text[0]) {
      ToIntOrNullRejectsNonNumeric(text);
    }
  }

  // ---------------------------------------------------------------------
  // The estimate against the run

  /** The sum of the entries' durations. */
  function DurationSum(custom: seq<CustomExercise>): int
    decreases |custom|
  {
    if |custom| == 0 then 0 else DurationSum(custom[..|custom| - 1]) + custom[|custom| - 1].durationSeconds
  }

  /**
   * The estimate the screen evidently means: the interval seconds of the
   * plan the editor saves, with the number of exercises `save` records for
   * the mode, and in CUSTOM mode each entry's own duration.
   */
  function IntendedEstimate(mode: WorkoutMode, rounds: int, exerciseCount: int, work: int, rest: int,
                            selected: seq<Exercise>, custom: seq<CustomExercise>): int {
    var n := PlanEdit.SavedExerciseCount(mode, exerciseCount, selected, custom);
    if mode == CUSTOM then
      rounds * (DurationSum(custom) + Max0(n - 1) * rest) + Max0(rounds - 1) * rest
    else ExactEstimate(rounds, n, work, rest)
  }

  lemma {:induction false} CustomWorkTotal(c: TimerConfig, k: int)
    requires c.mode == CUSTOM && 0 <= k <= |c.custom|
    ensures WorkTotal(c, k) == DurationSum(c.custom[..k])
    decreases k
  {
    if k > 0 {
      CustomWorkTotal(c, k - 1);
      assert c.custom[..k][..k - 1] == c.custom[..k - 1];
    }
  }

  /**
   * For a plan as the timer loads it (the mode, rounds, work and rest the
   * editor saved, the number of exercises `save` recorded, and in CUSTOM
   * mode the saved list), the intended estimate is the number of WORK and
   * REST seconds the run counts down.
   */
  lemma IntendedEstimateIsRunTime(c: TimerConfig, exerciseCount: int, selected: seq<Exercise>,
                                  custom: seq<CustomExercise>)
    requires Loaded(c) && c.rounds >= 0 && c.rest >= 0 && exerciseCount >= 0
    requires c.exercises == PlanEdit.SavedExerciseCount(c.mode, exerciseCount, selected, custom)
    requires c.mode == CUSTOM ==> c.custom == custom
    ensures IntendedEstimate(c.mode, c.rounds, exerciseCount, c.work, c.rest, selected, custom)
         == IntervalSeconds(Schedule(c))
  {
    if c.mode == CUSTOM {
      ScheduleSeconds(c);
      CustomWorkTotal(c, |custom|);
      assert custom[..|custom|] == custom;
      assert Breaks(c.exercises, c.exercises) == Max0(c.exercises - 1);
      assert Breaks(c.rounds, c.rounds) == Max0(c.rounds - 1);
    } else {
      WorkAndRestSeconds(c);
    }
  }

  /** The SIMPLE plan of three rounds of five 30-second exercises with 10
      seconds of rest, as the editor first shows it. */
  function DefaultSimplePlan(): TimerConfig {
    TimerConfig(SIMPLE, 3, 5, 30, 10, 30, [], [])
  }

  /** With no library exercise selected (n = 0), the screen estimates that plan at
      20 seconds, while its run counts down 590. */
  lemma EstimateMissesSimplePlan()
    ensures EstimatedSeconds(3, 0, 30, 10) == 20
    ensures IntendedEstimate(SIMPLE, 3, 5, 30, 10, [], []) == 590
    ensures IntervalSeconds(Schedule(DefaultSimplePlan())) == 590
  {
    EstimateIsExact(3, 0, 30, 10);
    IntendedEstimateIsRunTime(DefaultSimplePlan(), 5, [], []);
  }
}
