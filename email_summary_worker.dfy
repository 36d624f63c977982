/**
 * The periodic worker that sends the summary e-mail: whether a send is
 * due (enabled, an address, at least a week and at least the chosen
 * frequency since the last one), and the timestamp it records.
 */
module EmailSummaryWorker {
  import opened Wrappers
  import opened KotlinInt
  import opened KotlinText

  /** The preferences the worker reads. */
  datatype WorkerPrefs = WorkerPrefs(emailSummaryEnabled: bool, userEmail: Option<string>, lastEmailSent: int, emailFrequency: string)

  datatype WorkResult = Success | Failure

  /** What one run did: its result, whether it called the sender, and the
      new "last sent" timestamp when it stored one. */
  datatype WorkerOutcome = WorkerOutcome(result: WorkResult, attemptedSend: bool, storedLastSent: Option<int>)

  const MILLIS_PER_DAY: int := 1000 * 60 * 60 * 24

  /** Days required between e-mails for a frequency setting. */
  function MinDaysBetweenEmails(frequency: string): (days: int)
    ensures days in {7, 14, 30}
    ensures days == 14 <==> frequency == "biweekly"
    ensures days == 30 <==> frequency == "monthly"
  {
    if frequency == "weekly" then 7
    else if frequency == "biweekly" then 14
    else if frequency == "monthly" then 30
    else 7
  }

  /** Whole days since the last e-mail, the quotient truncated toward zero
      as Kotlin's `Long` division does. */
  function DaysSinceLastEmail(currentTime: int, lastSent: int): int {
    Quot(currentTime - lastSent, MILLIS_PER_DAY)
  }

  /** The guards of `doWork`, in order. */
  predicate SendDue(prefs: WorkerPrefs, currentTime: int) {
    && prefs.emailSummaryEnabled
    && !(prefs.userEmail.None? || IsBlank(prefs.userEmail.value))
    && DaysSinceLastEmail(currentTime, prefs.lastEmailSent) >= 7
    && DaysSinceLastEmail(currentTime, prefs.lastEmailSent) >= MinDaysBetweenEmails(prefs.emailFrequency)
  }

  /**
   * `doWork`: `prefs` is what the preference store returned, none when a
   * read threw; `sendSucceeded` is what the sender reported. Every run
   * that gets its preferences succeeds, and the timestamp is stored
   * exactly when a send was attempted and succeeded.
   */
  function DoWork(prefs: Option<WorkerPrefs>, currentTime: int, sendSucceeded: bool): (r: WorkerOutcome)
    ensures r.result == Failure <==> prefs.None?
    ensures r.attemptedSend <==> prefs.Some? && SendDue(prefs.value, currentTime)
    ensures r.storedLastSent.Some? <==> r.attemptedSend && sendSucceeded
    ensures r.storedLastSent.Some? ==> r.storedLastSent.value == currentTime
  {
    if prefs.None? then WorkerOutcome(Failure, false, None)
    else
      var p := prefs.value;
      if !p.emailSummaryEnabled then WorkerOutcome(Success, false, None)
      else if p.userEmail.None? || IsBlank(p.userEmail.value) then WorkerOutcome(Success, false, None)
      else
        var days := DaysSinceLastEmail(currentTime, p.lastEmailSent);
        if days < 7 then WorkerOutcome(Success, false, None)
        else if days < MinDaysBetweenEmails(p.emailFrequency) then WorkerOutcome(Success, false, None)
        else WorkerOutcome(Success, true, if sendSucceeded then Some(currentTime) else None)
  }

  /** A send is due only when the chosen number of whole days, and at
      least a week, has passed since the last one. */
  lemma SendDueOnlyAfterMinimum(prefs: WorkerPrefs, currentTime: int)
    requires SendDue(prefs, currentTime)
    ensures currentTime - prefs.lastEmailSent >= MinDaysBetweenEmails(prefs.emailFrequency) * MILLIS_PER_DAY
    ensures currentTime - prefs.lastEmailSent >= 7 * MILLIS_PER_DAY
  {
    var elapsed := currentTime - prefs.lastEmailSent;
    var days := DaysSinceLastEmail(currentTime, prefs.lastEmailSent);
    assert elapsed >= 0;
    assert days * MILLIS_PER_DAY <= elapsed;
  }

  /** After a successful send at `t`, runs in the following week do not
      send again, whatever the frequency. */
  lemma NoSecondEmailWithinAWeek(prefs: WorkerPrefs, t: int, later: int)
    requires t <= later < t + 7 * MILLIS_PER_DAY
    ensures !SendDue(prefs.(lastEmailSent := t), later)
  {
    assert 0 <= later - t;
    assert (later - t) / MILLIS_PER_DAY < 7;
  }

  /** With summaries on and an address set, thirty days without an e-mail
      always make a send due. */
  lemma SendDueAfterThirtyDays(prefs: WorkerPrefs, currentTime: int)
    requires prefs.emailSummaryEnabled && prefs.userEmail.Some? && !IsBlank(prefs.userEmail.value)
    requires currentTime - prefs.lastEmailSent >= 30 * MILLIS_PER_DAY
    ensures SendDue(prefs, currentTime)
  {
    var elapsed := currentTime - prefs.lastEmailSent;
    DivAtLeast(elapsed, 30, MILLIS_PER_DAY);
  }

  lemma DivAtLeast(x: int, k: int, d: int)
    requires d > 0 && k >= 0 && x >= k * d
    ensures x / d >= k
  {
    var q := x / d;
    assert x == q * d + x % d;
    assert (q + 1) * d == q * d + d;
    MulCancel(k, q + 1, d);
  }
}
