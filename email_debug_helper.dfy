/**
 * The e-mail debug screen: a readiness report on the address, the history
 * and the aggregates, and a preview of the summary e-mail. The report is
 * a list of items in the order they are appended, not formatted text.
 */
module EmailDebugHelper {
  import opened Wrappers
  import opened KotlinText
  import opened Model
  import opened Streak
  import opened EmailTemplate

  /** What stops a send, in the order the report lists it. */
  datatype Reason = SetEmailInSettings | CompleteAWorkout

  datatype ReportItem =
    | EmailStatus(address: Option<string>, isSet: bool)
    | WorkoutStatus(total: int, hasData: bool)
    | LatestWorkout(planName: string)
    | MonthStatus(month: Option<MonthlyStats>)
    | YearStatus(year: Option<YearlyStats>)
    | StreakStatus(days: int, positive: bool)
    | ApiConfiguration
    | CanSendStatus(canSend: bool)
    | CannotSend(reason: Reason)
    | ReadyToSend

  /** The readiness rule: an address that is set and not blank, and at
      least one workout. */
  predicate CanSend(userEmail: Option<string>, history: seq<WorkoutHistory>) {
    !(userEmail.None? || IsBlank(userEmail.value)) && |history| > 0
  }

  /** The readiness items only. */
  predicate IsReadiness(item: ReportItem) {
    item.CanSendStatus? || item.CannotSend? || item.ReadyToSend?
  }

  /** The overall-status section: whether a send can happen, and if not,
      each reason that applies. */
  method OverallStatus(noEmail: bool, noWorkouts: bool) returns (items: seq<ReportItem>)
    ensures CanSendStatus(!noEmail && !noWorkouts) in items
    ensures ReadyToSend in items <==> !noEmail && !noWorkouts
    ensures CannotSend(SetEmailInSettings) in items <==> noEmail
    ensures CannotSend(CompleteAWorkout) in items <==> noWorkouts
    ensures forall item :: item in items ==> IsReadiness(item)
  {
    var canSend := !noEmail && !noWorkouts;
    items := [CanSendStatus(canSend)];
    if !canSend {
      if noEmail {
        items := items + [CannotSend(SetEmailInSettings)];
      }
      if noWorkouts {
        items := items + [CannotSend(CompleteAWorkout)];
      }
    } else {
      items := items + [ReadyToSend];
    }
  }

  /** `debugEmailData`: the report, appended item by item. The month, year
      and streak sections appear only when there is a workout. */
  method DebugEmailData(
    userEmail: Option<string>, history: seq<WorkoutHistory>,
    monthly: seq<MonthlyStats>, yearly: seq<YearlyStats>, dayOf: int -> int, today: int)
    returns (report: seq<ReportItem>)
    ensures EmailStatus(userEmail, !(userEmail.None? || IsBlank(userEmail.value))) in report
    ensures CanSendStatus(CanSend(userEmail, history)) in report
    ensures ReadyToSend in report <==> CanSend(userEmail, history)
    ensures CannotSend(SetEmailInSettings) in report <==> userEmail.None? || IsBlank(userEmail.value)
    ensures CannotSend(CompleteAWorkout) in report <==> |history| == 0
    ensures |history| > 0 ==> StreakStatus(StreakOf(DaysOf(history, dayOf), today), StreakOf(DaysOf(history, dayOf), today) > 0) in report
    ensures |history| == 0 ==> forall item :: item in report ==> !item.StreakStatus?
  {
    var noEmail := userEmail.None? || IsBlank(userEmail.value);
    var head := [EmailStatus(userEmail, !noEmail), WorkoutStatus(|history|, |history| > 0)];
    if |history| > 0 {
      var streak := CalculateCurrentStreak(history, dayOf, today);
      head := head + [
        LatestWorkout(history[0].planName),
        MonthStatus(if |monthly| > 0 then Some(monthly[0]) else None),
        YearStatus(if |yearly| > 0 then Some(yearly[0]) else None),
        StreakStatus(streak, streak > 0)];
    }
    head := head + [ApiConfiguration];
    assert forall item :: item in head ==> !IsReadiness(item);
    var tail := OverallStatus(noEmail, |history| == 0);
    report := head + tail;
    ReadinessFromTail(head, tail, CanSendStatus(CanSend(userEmail, history)));
    ReadinessFromTail(head, tail, ReadyToSend);
    ReadinessFromTail(head, tail, CannotSend(SetEmailInSettings));
    ReadinessFromTail(head, tail, CannotSend(CompleteAWorkout));
    assert forall item :: item in report <==> item in head || item in tail;
  }

  /** Readiness items of the report come from the overall-status section. */
  lemma ReadinessFromTail(head: seq<ReportItem>, tail: seq<ReportItem>, x: ReportItem)
    requires forall item :: item in head ==> !IsReadiness(item)
    requires IsReadiness(x)
    ensures x in head + tail <==> x in tail
  {
  }

  const NO_DATA_PAGE: string := "<h1>No workout data available</h1><p>Complete at least one workout to see the email preview.</p>"

  /** The preview: the `<h1>Error</h1>` page with the exception's message
      when a read throws, the fixed page without monthly data, else the
      summary. */
  datatype SampleHtml = ErrorPage(message: string) | NoDataPage | Preview(email: SummaryEmail)

  const PREVIEW_NAME: string := "Test User"

  /** `generateSampleEmailHtml`: the summary e-mail for a fixed user name,
      or the no-data page when no month has workouts. `readError` is the
      message of the exception a database read threw, none when the reads
      succeed. */
  function GenerateSampleEmailHtml(
    readError: Option<string>,
    history: seq<WorkoutHistory>, monthly: seq<MonthlyStats>, yearly: seq<YearlyStats>,
    mostUsed: Option<WorkoutBreakdown>, dayOf: int -> int, today: int, monthName: string): (r: SampleHtml)
    ensures r.ErrorPage? <==> readError.Some?
    ensures r.ErrorPage? ==> r.message == readError.value
    ensures r.NoDataPage? <==> readError.None? && |monthly| == 0
    ensures r.Preview? ==>
      var streak := StreakOf(DaysOf(history, dayOf), today);
      var year: Option<YearlyStats> := if |yearly| > 0 then Some(yearly[0]) else None;
      (&& r.email.displayName == PREVIEW_NAME
       && r.email.currentMonth == monthName
       && r.email.monthlyWorkouts == monthly[0].count
       && r.email.monthlyRounds == monthly[0].totalRounds
       && r.email.monthlyStreak == streak
       && r.email.monthlyDuration == DurationString(FormatDuration(monthly[0].totalSeconds))
       && r.email.ytdWorkouts == (if year.Some? then year.value.count else 0)
       && r.email.ytdRounds == (if year.Some? then year.value.totalRounds else 0)
       && r.email.ytdDuration == DurationString(FormatDuration(if year.Some? then year.value.totalSeconds else 0))
       && r.email.ytdActiveDays == (if year.Some? then year.value.activeDays else 0)
       && r.email.favorite == (if mostUsed.Some? then Some(mostUsed.value.planName) else None)
       && r.email.breakdown.None?
       && r.email.motivation == GetMotivationalMessage(monthly[0].count, streak))
  {
    if readError.Some? then ErrorPage(readError.value)
    else if |monthly| == 0 then NoDataPage
    else
      var month := monthly[0];
      var year: Option<YearlyStats> := if |yearly| > 0 then Some(yearly[0]) else None;
      Preview(GenerateWorkoutSummaryEmail(
        Some(PREVIEW_NAME), monthName, month.count, month.totalRounds,
        DurationString(FormatDuration(month.totalSeconds)), StreakOf(DaysOf(history, dayOf), today),
        if year.Some? then year.value.count else 0,
        if year.Some? then year.value.totalRounds else 0,
        DurationString(FormatDuration(if year.Some? then year.value.totalSeconds else 0)),
        if year.Some? then year.value.activeDays else 0,
        if mostUsed.Some? then Some(mostUsed.value.planName) else None, []))
  }
}
