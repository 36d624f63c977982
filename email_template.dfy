/**
 * The monthly summary e-mail: its subject line, its motivational message,
 * the duration format shared by the e-mail code, and the content of the
 * summary (greeting, month and year figures, the optional per-plan
 * breakdown and favourite plan). The HTML markup around that content is
 * not modelled; the e-mail is the structured value it renders.
 */
module EmailTemplate {
  import opened Wrappers
  import opened KotlinInt
  import opened Model

  // ---------------------------------------------------------------------
  // Durations
  // ---------------------------------------------------------------------

  /** The three shapes of a formatted duration: "Hh Mm", "Mm" and "Ss". */
  datatype DurationText =
    | HoursMinutes(hours: int, minutes: int)
    | Minutes(minutes: int)
    | Seconds(seconds: int)

  /**
   * `formatDuration`: whole hours and the minutes left over when there is
   * at least an hour, whole minutes when there is at least a minute, and
   * otherwise the seconds themselves (negative totals included).
   */
  function FormatDuration(totalSeconds: int): (d: DurationText)
    ensures d.HoursMinutes? <==> totalSeconds >= 3600
    ensures d.Minutes? <==> 60 <= totalSeconds < 3600
    ensures d.Seconds? <==> totalSeconds < 60
    ensures d.HoursMinutes? ==>
      (&& d.hours >= 1 && 0 <= d.minutes < 60
       && d.hours * 3600 + d.minutes * 60 <= totalSeconds < d.hours * 3600 + d.minutes * 60 + 60)
    ensures d.Minutes? ==> 1 <= d.minutes < 60 && d.minutes * 60 <= totalSeconds < d.minutes * 60 + 60
    ensures d.Seconds? ==> d.seconds == totalSeconds
  {
    var hours := Quot(totalSeconds, 3600);
    var rest := Rem(totalSeconds, 3600);
    var minutes := Quot(rest, 60);
    assert rest >= 0 ==> minutes * 60 <= rest < minutes * 60 + 60;
    if hours > 0 then HoursMinutes(hours, minutes)
    else if minutes > 0 then Minutes(minutes)
    else Seconds(totalSeconds)
  }

  /** The text of a formatted duration. */
  function DurationString(d: DurationText): string {
    match d
    case HoursMinutes(h, m) => IntToString(h) + "h " + IntToString(m) + "m"
    case Minutes(m) => IntToString(m) + "m"
    case Seconds(s) => IntToString(s) + "s"
  }

  /** Durations under an hour never show hours, and an hour or more never
      shows seconds: the format is decided by the total alone, tier by tier. */
  lemma FormatDurationTiers(a: int, b: int)
    requires a <= b
    ensures FormatDuration(a).HoursMinutes? ==> FormatDuration(b).HoursMinutes?
    ensures FormatDuration(b).Seconds? ==> FormatDuration(a).Seconds?
  {
  }

  // ---------------------------------------------------------------------
  // Subject line and motivational message
  // ---------------------------------------------------------------------

  /** The seven subject lines, best first. */
  datatype SubjectTier = MonthStreak | TwoWeekStreak | WeekStreak | TwentyWorkouts | TenWorkouts | FiveWorkouts | Summary

  /** The position of a subject in the best-first order. */
  function Rank(t: SubjectTier): int {
    match t
    case MonthStreak => 0
    case TwoWeekStreak => 1
    case WeekStreak => 2
    case TwentyWorkouts => 3
    case TenWorkouts => 4
    case FiveWorkouts => 5
    case Summary => 6
  }

  /** The first threshold met: streak of 30, 14 or 7 days, then 20, 10 or
      5 workouts this month. */
  function SubjectTierOf(monthlyWorkouts: int, monthlyStreak: int): SubjectTier {
    if monthlyStreak >= 30 then MonthStreak
    else if monthlyStreak >= 14 then TwoWeekStreak
    else if monthlyStreak >= 7 then WeekStreak
    else if monthlyWorkouts >= 20 then TwentyWorkouts
    else if monthlyWorkouts >= 10 then TenWorkouts
    else if monthlyWorkouts >= 5 then FiveWorkouts
    else Summary
  }

  /** The emoji each subject line starts with. */
  function SubjectEmoji(t: SubjectTier): char {
    match t
    case MonthStreak => '🔥'
    case TwoWeekStreak => '💪'
    case WeekStreak => '⚡'
    case TwentyWorkouts => '🌟'
    case TenWorkouts => '🎯'
    case FiveWorkouts => '💚'
    case Summary => '🏆'
  }

  function SubjectText(t: SubjectTier): (r: string)
    ensures |r| > 0 && r[0] == SubjectEmoji(t)
  {
    [SubjectEmoji(t)] +
      match t
      case MonthStreak => " Unstoppable! Your 30-Day Streak Continues!"
      case TwoWeekStreak => " 2 Weeks Strong! Check Your Amazing Progress"
      case WeekStreak => " Week Streak Unlocked! Your Fitness Journey Shines"
      case TwentyWorkouts => " 20+ Workouts This Month! You're On Fire!"
      case TenWorkouts => " Double Digits! Your Consistency Pays Off"
      case FiveWorkouts => " Great Progress! Your Monthly Workout Summary"
      case Summary => " Your Fitness Journey Summary – Keep Going!"
  }

  /** Each subject line starts with its own emoji, so different tiers give
      different subjects. */
  lemma SubjectTextInjective(t1: SubjectTier, t2: SubjectTier)
    requires t1 != t2
    ensures SubjectText(t1) != SubjectText(t2)
  {
    assert SubjectEmoji(t1) != SubjectEmoji(t2);
  }

  /** `generateSubjectLine`. */
  function GenerateSubjectLine(monthlyWorkouts: int, monthlyStreak: int): (r: string)
    ensures |r| > 0
  {
    SubjectText(SubjectTierOf(monthlyWorkouts, monthlyStreak))
  }

  /** A streak of a week or more decides the subject whatever the workout
      count, and it is one of the three streak subjects. */
  lemma StreakSubjectIgnoresWorkouts(w1: int, w2: int, streak: int)
    requires streak >= 7
    ensures GenerateSubjectLine(w1, streak) == GenerateSubjectLine(w2, streak)
    ensures Rank(SubjectTierOf(w1, streak)) <= 2
  {
    assert SubjectTierOf(w1, streak) == SubjectTierOf(w2, streak);
  }

  /** Below a week of streak, only the workout count matters, and the
      subject is never a streak subject. */
  lemma WorkoutSubjectIgnoresShortStreaks(w: int, s1: int, s2: int)
    requires s1 < 7 && s2 < 7
    ensures GenerateSubjectLine(w, s1) == GenerateSubjectLine(w, s2)
    ensures Rank(SubjectTierOf(w, s1)) >= 3
  {
    assert SubjectTierOf(w, s1) == SubjectTierOf(w, s2);
  }

  /** More workouts or a longer streak never give a lesser subject line. */
  lemma SubjectMonotone(w1: int, s1: int, w2: int, s2: int)
    requires w1 <= w2 && s1 <= s2
    ensures Rank(SubjectTierOf(w2, s2)) <= Rank(SubjectTierOf(w1, s1))
  {
  }

  /** The motivational messages, best first; the fourth names the number
      of workouts. */
  datatype MotivationTier = MonthOfDedication | TwoWeeksOfConsistency | SevenDaysStrong | OverWorkouts | ConsistencyIsKey | EveryWorkoutCounts | NextVictory

  /** Thresholds 30, 14 and 7 on the streak, then 15, 8 and 1 on the
      workout count. */
  function MotivationTierOf(workouts: int, streak: int): MotivationTier {
    if streak >= 30 then MonthOfDedication
    else if streak >= 14 then TwoWeeksOfConsistency
    else if streak >= 7 then SevenDaysStrong
    else if workouts >= 15 then OverWorkouts
    else if workouts >= 8 then ConsistencyIsKey
    else if workouts > 0 then EveryWorkoutCounts
    else NextVictory
  }

  const OVER_PREFIX: string := "Over "
  const OVER_SUFFIX: string := " workouts! Your commitment is inspiring. The best version of you is emerging! ✨"

  function MotivationText(t: MotivationTier, workouts: int): string {
    match t
    case MonthOfDedication => "A full month of dedication! You're building habits that last a lifetime. This is what champions are made of! 🌟"
    case TwoWeeksOfConsistency => "Two weeks of consistency! You're proving to yourself what's possible. Keep this momentum going! ⚡"
    case SevenDaysStrong => "7 days strong! You've built the foundation. Each workout is making you stronger! 💪"
    case OverWorkouts => OVER_PREFIX + IntToString(workouts) + OVER_SUFFIX
    case ConsistencyIsKey => "Consistency is key, and you've got it! Each workout brings you closer to your goals! 🎯"
    case EveryWorkoutCounts => "Every workout counts, and you're making them count! Keep showing up for yourself! 💚"
    case NextVictory => "Your next workout is your next victory. Let's make it happen! 🚀"
  }

  /** `getMotivationalMessage`. */
  function GetMotivationalMessage(workouts: int, streak: int): string {
    MotivationText(MotivationTierOf(workouts, streak), workouts)
  }

  /** The message follows the same order as the subject: a week of streak
      outranks any workout count, and the default message is reached only
      with no streak of a week and no workout. */
  lemma MotivationPrecedence(workouts: int, streak: int)
    ensures streak >= 7 <==> MotivationTierOf(workouts, streak) in {MonthOfDedication, TwoWeeksOfConsistency, SevenDaysStrong}
    ensures MotivationTierOf(workouts, streak) == NextVictory <==> streak < 7 && workouts <= 0
  {
  }

  /** The "Over N workouts" message names the month's workout count: the
      number can be read back from it. */
  lemma MotivationNamesWorkouts(workouts: int, streak: int)
    requires streak < 7 && 15 <= workouts <= INT_MAX
    ensures var r := GetMotivationalMessage(workouts, streak);
      && |r| == |OVER_PREFIX| + |IntToString(workouts)| + |OVER_SUFFIX|
      && ToIntOrNull(r[|OVER_PREFIX|..|r| - |OVER_SUFFIX|]) == Some(workouts)
  {
    var r := GetMotivationalMessage(workouts, streak);
    assert r[|OVER_PREFIX|..|r| - |OVER_SUFFIX|] == IntToString(workouts);
    ToIntOrNullOfIntToString(workouts);
  }

  // ---------------------------------------------------------------------
  // The summary e-mail
  // ---------------------------------------------------------------------

  datatype Badge = Fire | Star | Check

  /** The badge of a breakdown entry: 🔥 for more than ten sessions, ⭐ for
      six to ten, ✓ otherwise. */
  function BadgeFor(count: int): (b: Badge)
    ensures b == Fire <==> count > 10
    ensures b == Star <==> 5 < count <= 10
    ensures b == Check <==> count <= 5
  {
    if count > 10 then Fire else if count > 5 then Star else Check
  }

  /** One row of the breakdown: "#number", the plan, "count session(s)"
      with the plural flag, the formatted time and the badge. */
  datatype BreakdownEntry = BreakdownEntry(
    number: int, planName: string, count: int, plural: bool, duration: DurationText, badge: Badge)

  /** `mapIndexed` over the breakdown, numbering from `first`. */
  function Entries(items: seq<WorkoutBreakdown>, first: int): (r: seq<BreakdownEntry>)
    ensures |r| == |items|
    ensures forall i :: 0 <= i < |items| ==>
      (&& r[i].number == first + i
       && r[i].planName == items[i].planName
       && r[i].count == items[i].count
       && (r[i].plural <==> items[i].count != 1)
       && r[i].duration == FormatDuration(items[i].totalSeconds)
       && r[i].badge == BadgeFor(items[i].count))
  {
    if |items| == 0 then []
    else
      var w := items[0];
      [BreakdownEntry(first, w.planName, w.count, w.count != 1, FormatDuration(w.totalSeconds), BadgeFor(w.count))]
        + Entries(items[1..], first + 1)
  }

  datatype SummaryEmail = SummaryEmail(
    displayName: string,
    currentMonth: string,
    monthlyWorkouts: int,
    monthlyRounds: int,
    monthlyDuration: string,
    monthlyStreak: int,
    ytdWorkouts: int,
    ytdRounds: int,
    ytdDuration: string,
    ytdActiveDays: int,
    breakdown: Option<seq<BreakdownEntry>>,
    favorite: Option<string>,
    motivation: string)

  const DEFAULT_NAME: string := "Champion"

  /** `generateWorkoutSummaryEmail`. */
  function GenerateWorkoutSummaryEmail(
    userName: Option<string>, currentMonth: string,
    monthlyWorkouts: int, monthlyRounds: int, monthlyDuration: string, monthlyStreak: int,
    ytdWorkouts: int, ytdRounds: int, ytdDuration: string, ytdActiveDays: int,
    mostUsedWorkout: Option<string>, workoutBreakdown: seq<WorkoutBreakdown>): (e: SummaryEmail)
    ensures userName.None? ==> e.displayName == DEFAULT_NAME
    ensures userName.Some? ==> e.displayName == userName.value
    ensures e.breakdown.None? <==> |workoutBreakdown| == 0
    ensures e.breakdown.Some? ==>
      (&& |e.breakdown.value| == |workoutBreakdown|
       && forall i :: 0 <= i < |workoutBreakdown| ==>
            e.breakdown.value[i].number == i + 1 && e.breakdown.value[i].planName == workoutBreakdown[i].planName)
    ensures e.favorite == mostUsedWorkout
    ensures e.motivation == GetMotivationalMessage(monthlyWorkouts, monthlyStreak)
  {
    SummaryEmail(
      userName.GetOr(DEFAULT_NAME), currentMonth,
      monthlyWorkouts, monthlyRounds, monthlyDuration, monthlyStreak,
      ytdWorkouts, ytdRounds, ytdDuration, ytdActiveDays,
      if |workoutBreakdown| > 0 then Some(Entries(workoutBreakdown, 1)) else None,
      mostUsedWorkout,
      GetMotivationalMessage(monthlyWorkouts, monthlyStreak))
  }
}
