/**
 * The achievement check run after a workout is saved: a milestone
 * notification when the total number of workouts reaches 10, 25, 50 or
 * 100, and a streak notification when the current streak is 7, 14 or 30
 * days. Notifications are returned as values, not shown.
 */
module AchievementTracker {
  import opened Model
  import opened Streak

  datatype Achievement = Milestone(total: int) | StreakReached(days: int)

  const MILESTONES: set<int> := {10, 25, 50, 100}
  const STREAK_MILESTONES: set<int> := {7, 14, 30}

  /** The decision of `checkAndNotifyAchievements`, in the order the
      notifications are shown: the milestone first, then the streak. */
  function Achievements(enabled: bool, totalWorkouts: int, streak: int): (r: seq<Achievement>)
    ensures !enabled ==> r == []
    ensures |r| <= 2
    ensures Milestone(totalWorkouts) in r <==> enabled && totalWorkouts in MILESTONES
    ensures StreakReached(streak) in r <==> enabled && streak in STREAK_MILESTONES
    ensures forall a :: a in r ==> a == Milestone(totalWorkouts) || a == StreakReached(streak)
    ensures |r| == 2 ==> r[0].Milestone? && r[1].StreakReached?
  {
    if !enabled then []
    else
      (if totalWorkouts in MILESTONES then [Milestone(totalWorkouts)] else [])
        + (if streak in STREAK_MILESTONES then [StreakReached(streak)] else [])
  }

  /** At most one milestone and at most one streak notification per call. */
  lemma AtMostOneOfEach(enabled: bool, totalWorkouts: int, streak: int)
    ensures var r := Achievements(enabled, totalWorkouts, streak);
      forall i, j :: 0 <= i < j < |r| ==> r[i].Milestone? != r[j].Milestone?
  {
  }

  /**
   * `checkAndNotifyAchievements`: nothing when achievement notifications
   * are off; otherwise the total is the number of history entries and the
   * streak is the one the e-mail summary reports.
   */
  method CheckAndNotifyAchievements(enabled: bool, history: seq<WorkoutHistory>, dayOf: int -> int, today: int)
    returns (shown: seq<Achievement>)
    ensures shown == Achievements(enabled, |history|, StreakOf(DaysOf(history, dayOf), today))
  {
    if !enabled {
      return [];
    }
    var totalWorkouts := |history|;
    shown := if totalWorkouts in MILESTONES then [Milestone(totalWorkouts)] else [];
    var currentStreak := CalculateCurrentStreak(history, dayOf, today);
    if currentStreak in STREAK_MILESTONES {
      shown := shown + [StreakReached(currentStreak)];
    }
  }
}
