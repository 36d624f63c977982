/**
 * The summary e-mail sender: the guards that stop a send before any
 * network call, the name derived from the e-mail address, and the request
 * it posts (the e-mail content and the same figures as structured data).
 * The HTTP call itself is a parameter: the status code it returned, or
 * none when it threw.
 */
module EmailService {
  import opened Wrappers
  import opened KotlinText
  import opened Model
  import opened Streak
  import opened EmailTemplate

  const NAME_DELIMITERS: set<char> := {'.', '_', '-'}

  /** The greeting name: the part of the address before "@", split on ".",
      "_" and "-", each piece capitalised, joined with single spaces. */
  function UserName(email: string): string {
    CapitalizeWords(SubstringBefore(email, '@'), NAME_DELIMITERS)
  }

  /** The i-th character of the name made from the local part `local`: a
      delimiter becomes a space, and the first letter of a word is
      upper-cased. */
  function NameCharAt(local: string, i: int): char
    requires 0 <= i < |local|
  {
    if local[i] in NAME_DELIMITERS then ' '
    else if i == 0 || local[i - 1] in NAME_DELIMITERS then Upper(local[i])
    else local[i]
  }

  /** Character by character, the name is the local part of the address
      with every delimiter turned into a space and each word's first letter
      upper-cased; it has no "@". */
  lemma UserNameShape(email: string)
    ensures |UserName(email)| == |SubstringBefore(email, '@')|
    ensures forall i :: 0 <= i < |SubstringBefore(email, '@')| ==>
      UserName(email)[i] == NameCharAt(SubstringBefore(email, '@'), i)
    ensures '@' !in UserName(email)
  {
    var local := SubstringBefore(email, '@');
    CapitalizeWordsCharacterized(local, NAME_DELIMITERS);
    var name := UserName(email);
    assert name == WordsCapitalized(local, NAME_DELIMITERS, true);
    forall i | 0 <= i < |local|
      ensures name[i] == NameCharAt(local, i)
      ensures name[i] != '@'
    {
      WordsCapitalizedAt(local, NAME_DELIMITERS, true, i);
      assert local[i] in local;
      UpperKeepsOtherThanAt(local[i]);
    }
  }

  lemma UpperKeepsOtherThanAt(c: char)
    requires c != '@'
    ensures Upper(c) != '@'
  {
  }

  /** The structured figures sent beside the HTML. */
  datatype WorkoutData = WorkoutData(
    userName: string,
    currentMonth: string,
    monthlyWorkouts: int,
    monthlyRounds: int,
    monthlyDuration: string,
    monthlyStreak: int,
    ytdWorkouts: int,
    ytdRounds: int,
    ytdDuration: string,
    ytdActiveDays: int,
    mostUsedWorkout: string)

  /** The JSON body posted to the e-mail endpoint. */
  datatype ApiRequest = ApiRequest(userEmail: string, subject: string, html: SummaryEmail, workoutData: WorkoutData)

  /**
   * The request `sendWorkoutSummary` builds, or none when it gives up
   * first: no e-mail address (or a blank one), or no month with workouts.
   * `monthly` and `yearly` are the aggregate rows newest first, `mostUsed`
   * this year's most used plan, `dayOf` the local day of an instant,
   * `today` the current day and `monthName` the current month's title.
   */
  function SummaryRequest(
    userEmail: Option<string>, history: seq<WorkoutHistory>,
    monthly: seq<MonthlyStats>, yearly: seq<YearlyStats>, mostUsed: Option<WorkoutBreakdown>,
    dayOf: int -> int, today: int, monthName: string): (r: Option<ApiRequest>)
    ensures r.None? <==> userEmail.None? || IsBlank(userEmail.value) || |monthly| == 0
    ensures r.Some? ==>
      var req := r.value;
      var streak := StreakOf(DaysOf(history, dayOf), today);
      && req.userEmail == userEmail.value
      && req.subject == GenerateSubjectLine(monthly[0].count, streak)
      && req.html.displayName == UserName(userEmail.value) == req.workoutData.userName
      && req.html.monthlyStreak == streak == req.workoutData.monthlyStreak
      && req.html.currentMonth == monthName == req.workoutData.currentMonth
      && req.html.monthlyWorkouts == monthly[0].count == req.workoutData.monthlyWorkouts
      && req.html.monthlyRounds == monthly[0].totalRounds == req.workoutData.monthlyRounds
      && req.html.monthlyDuration == DurationString(FormatDuration(monthly[0].totalSeconds))
                                  == req.workoutData.monthlyDuration
      && req.html.ytdWorkouts == (if |yearly| > 0 then yearly[0].count else 0) == req.workoutData.ytdWorkouts
      && req.html.ytdRounds == (if |yearly| > 0 then yearly[0].totalRounds else 0) == req.workoutData.ytdRounds
      && req.html.ytdDuration == DurationString(FormatDuration(if |yearly| > 0 then yearly[0].totalSeconds else 0))
                              == req.workoutData.ytdDuration
      && req.html.ytdActiveDays == (if |yearly| > 0 then yearly[0].activeDays else 0) == req.workoutData.ytdActiveDays
      && req.html.motivation == GetMotivationalMessage(monthly[0].count, streak)
      && req.html.breakdown.None?
      && req.html.favorite == (if mostUsed.Some? then Some(mostUsed.value.planName) else None)
      && req.workoutData.mostUsedWorkout == (if mostUsed.Some? then mostUsed.value.planName else "None")
  {
    if userEmail.None? || IsBlank(userEmail.value) then None
    else if |monthly| == 0 then None
    else
      var email := userEmail.value;
      var month := monthly[0];
      var year: Option<YearlyStats> := if |yearly| > 0 then Some(yearly[0]) else None;
      var streak := StreakOf(DaysOf(history, dayOf), today);
      var monthlyDuration := DurationString(FormatDuration(month.totalSeconds));
      var ytdDuration := DurationString(FormatDuration(if year.Some? then year.value.totalSeconds else 0));
      var ytdWorkouts := if year.Some? then year.value.count else 0;
      var ytdRounds := if year.Some? then year.value.totalRounds else 0;
      var ytdActiveDays := if year.Some? then year.value.activeDays else 0;
      var favorite := if mostUsed.Some? then Some(mostUsed.value.planName) else None;
      var userName := UserName(email);
      var html := GenerateWorkoutSummaryEmail(
        Some(userName), monthName, month.count, month.totalRounds, monthlyDuration, streak,
        ytdWorkouts, ytdRounds, ytdDuration, ytdActiveDays, favorite, []);
      var data := WorkoutData(
        userName, monthName, month.count, month.totalRounds, monthlyDuration, streak,
        ytdWorkouts, ytdRounds, ytdDuration, ytdActiveDays, favorite.GetOr("None"));
      Some(ApiRequest(email, GenerateSubjectLine(month.count, streak), html, data))
  }

  /** The endpoint accepted the request: a 2xx status. */
  predicate ApiSuccess(responseCode: Option<int>) {
    responseCode.Some? && 200 <= responseCode.value <= 299
  }

  /**
   * `sendWorkoutSummary`: true exactly when a request was built and the
   * endpoint answered 2xx; `responseCode` is what the HTTP call returned,
   * none when it threw.
   */
  function SendWorkoutSummary(
    userEmail: Option<string>, history: seq<WorkoutHistory>,
    monthly: seq<MonthlyStats>, yearly: seq<YearlyStats>, mostUsed: Option<WorkoutBreakdown>,
    dayOf: int -> int, today: int, monthName: string, responseCode: Option<int>): (sent: bool)
    ensures sent ==> userEmail.Some? && !IsBlank(userEmail.value) && |monthly| > 0
    ensures sent ==> responseCode.Some? && 200 <= responseCode.value <= 299
    ensures userEmail.Some? && !IsBlank(userEmail.value) && |monthly| > 0 && ApiSuccess(responseCode) ==> sent
  {
    SummaryRequest(userEmail, history, monthly, yearly, mostUsed, dayOf, today, monthName).Some?
      && ApiSuccess(responseCode)
  }
}
