/**
 * The quick timer: a single countdown of up to 99 minutes 59 seconds,
 * without rounds or exercises.
 *
 * As in the active timer, the countdown job runs sequentially here: every
 * `delay` applies the user's next action (`QuickAction`) once it has
 * elapsed, and `reset` cancels the job at that suspension point. The beeps
 * and the completion sound are appended to `events`.
 */
module QuickTimer {
  import opened KotlinInt

  const MAX_MINUTES := 99
  const MAX_SECONDS := 59

  /** What the user does while one `delay` elapses. */
  datatype QuickAction = Idle | TapPause | TapResume | TapReset

  datatype QuickEvent = WarningBeep | PlayWorkoutComplete | SpeakWorkoutComplete

  /** The user does not leave the timer paused forever: once the actions
      run out it is not paused, unless the user has reset it by then. */
  predicate Resumes(paused: bool, actions: seq<QuickAction>)
    decreases |actions|
  {
    if |actions| == 0 then !paused
    else match actions[0]
      case Idle => Resumes(paused, actions[1..])
      case TapPause => Resumes(true, actions[1..])
      case TapResume => Resumes(false, actions[1..])
      case TapReset => true
  }

  /** The warning beeps of a countdown from `n` seconds: one at the start of
      each of the last three seconds. */
  function Beeps(n: int): (r: seq<QuickEvent>)
    ensures |r| == if n <= 0 then 0 else if n <= 3 then n else 3
    ensures forall k :: 0 <= k < |r| ==> r[k] == WarningBeep
    decreases n
  {
    if n <= 0 then [] else (if n <= 3 then [WarningBeep] else []) + Beeps(n - 1)
  }

  /** The beeps of the seconds from `n` down to (not including) `m`. */
  function BeepsBetween(n: int, m: int): seq<QuickEvent>
    decreases n - m
  {
    if n <= m then [] else (if n <= 3 then [WarningBeep] else []) + BeepsBetween(n - 1, m)
  }

  lemma {:induction false} BeepsBetweenStep(n: int, m: int)
    requires 0 < m <= n
    ensures BeepsBetween(n, m - 1) == BeepsBetween(n, m) + (if m <= 3 then [WarningBeep] else [])
    decreases n - m
  {
    if n > m {
      BeepsBetweenStep(n - 1, m);
    }
  }

  lemma {:induction false} BeepsBetweenZero(n: int)
    requires n >= 0
    ensures BeepsBetween(n, 0) == Beeps(n)
    decreases n
  {
    if n > 0 {
      BeepsBetweenZero(n - 1);
    }
  }

  lemma {:induction false} BeepsBetweenSplit(n: int, k: int)
    requires 0 <= k <= n
    ensures BeepsBetween(n, 0) == BeepsBetween(n, k) + BeepsBetween(k, 0)
    decreases n - k
  {
    if n > k {
      BeepsBetweenSplit(n - 1, k);
    }
  }

  /** A countdown from `n` stopped with `k` seconds left has played a
      prefix of the beeps of the whole countdown. */
  lemma StoppedEarly(a: seq<QuickEvent>, n: int, k: int)
    requires 0 <= k <= n
    ensures Extends(a, a + BeepsBetween(n, k), Beeps(n))
  {
    BeepsBetweenSplit(n, k);
    BeepsBetweenZero(n);
    var x := BeepsBetween(n, k);
    assert Beeps(n)[..|x|] == x;
  }

  /** `getProgress()` as an exact fraction. */
  datatype Ratio = Ratio(num: int, den: int)

  /** `b` is `a` followed by a prefix of `full`. */
  predicate Extends<T(==)>(a: seq<T>, b: seq<T>, full: seq<T>) {
    |a| <= |b| <= |a| + |full| && b == a + full[..|b| - |a|]
  }

  class QuickTimerViewModel {
    var inputMinutes: int
    var inputSeconds: int
    var totalSecondsRemaining: int
    var isRunning: bool
    var isPaused: bool
    var isFinished: bool
    var totalSecondsInTimer: int

    // The surroundings: the user, whether the countdown job has been
    // cancelled, and the sounds played
    var userActions: seq<QuickAction>
    var cancelled: bool
    var events: seq<QuickEvent>

    /** What holds between any two calls: the inputs lie in their ranges
        and the remaining time never exceeds the timer's total. */
    predicate Valid()
      reads this`inputMinutes, this`inputSeconds, this`totalSecondsRemaining, this`totalSecondsInTimer
    {
      0 <= inputMinutes <= MAX_MINUTES && 0 <= inputSeconds <= MAX_SECONDS
      && 0 <= totalSecondsRemaining <= totalSecondsInTimer
    }

    constructor(actions: seq<QuickAction>)
      ensures Valid()
      ensures inputMinutes == 1 && inputSeconds == 0
      ensures totalSecondsRemaining == 0 && totalSecondsInTimer == 0
      ensures !isRunning && !isPaused && !isFinished
      ensures userActions == actions && !cancelled && events == []
    {
      inputMinutes := 1;
      inputSeconds := 0;
      totalSecondsRemaining := 0;
      isRunning := false;
      isPaused := false;
      isFinished := false;
      totalSecondsInTimer := 0;
      userActions := actions;
      cancelled := false;
      events := [];
    }

    /** `updateInputMinutes`: the value clamped to 0..99. */
    method UpdateInputMinutes(minutes: int)
      requires Valid()
      modifies this`inputMinutes
      ensures Valid()
      ensures inputMinutes == CoerceIn(minutes, 0, MAX_MINUTES)
    {
      inputMinutes := CoerceIn(minutes, 0, MAX_MINUTES);
    }

    /** `updateInputSeconds`: the value clamped to 0..59. */
    method UpdateInputSeconds(seconds: int)
      requires Valid()
      modifies this`inputSeconds
      ensures Valid()
      ensures inputSeconds == CoerceIn(seconds, 0, MAX_SECONDS)
    {
      inputSeconds := CoerceIn(seconds, 0, MAX_SECONDS);
    }

    /**
     * `start`: nothing happens when both inputs are 0; otherwise the timer
     * is set to the inputs' total and running, and a fresh countdown job is
     * ready to run (`RunCountdown`).
     */
    method Start() returns (started: bool)
      requires Valid()
      modifies this`totalSecondsInTimer, this`totalSecondsRemaining, this`isRunning, this`isPaused,
               this`isFinished, this`cancelled
      ensures Valid()
      ensures started <==> !(inputMinutes == 0 && inputSeconds == 0)
      ensures !started ==> (totalSecondsInTimer == old(totalSecondsInTimer)
        && totalSecondsRemaining == old(totalSecondsRemaining) && isRunning == old(isRunning)
        && isPaused == old(isPaused) && isFinished == old(isFinished) && cancelled == old(cancelled))
      ensures started ==> totalSecondsInTimer == totalSecondsRemaining == inputMinutes * 60 + inputSeconds
      ensures started ==> totalSecondsRemaining > 0 && isRunning && !isPaused && !isFinished && !cancelled
    {
      if inputMinutes == 0 && inputSeconds == 0 {
        return false;
      }
      var totalSeconds := inputMinutes * 60 + inputSeconds;
      totalSecondsInTimer := totalSeconds;
      totalSecondsRemaining := totalSeconds;
      isRunning := true;
      isPaused := false;
      isFinished := false;
      cancelled := false;
      started := true;
    }

    /** `pause`. */
    method Pause()
      modifies this`isPaused
      ensures isPaused
    {
      isPaused := true;
    }

    /** `resume`. */
    method Resume()
      modifies this`isPaused
      ensures !isPaused
    {
      isPaused := false;
    }

    /** `reset`: cancels the countdown job and clears the timer, whatever
        state it was in; the inputs are kept. */
    method Reset()
      requires Valid()
      modifies this`cancelled, this`isRunning, this`isPaused, this`isFinished,
               this`totalSecondsRemaining, this`totalSecondsInTimer
      ensures Valid()
      ensures cancelled && !isRunning && !isPaused && !isFinished
      ensures totalSecondsRemaining == 0 && totalSecondsInTimer == 0
    {
      cancelled := true;
      isRunning := false;
      isPaused := false;
      isFinished := false;
      totalSecondsRemaining := 0;
      totalSecondsInTimer := 0;
    }

    /** `getProgress`: the fraction of the timer still to run, 1 when no
        timer is set. */
    function GetProgress(): (r: Ratio)
      reads this`totalSecondsRemaining, this`totalSecondsInTimer
      ensures r.den > 0
      ensures Valid() ==> 0 <= r.num <= r.den
      ensures totalSecondsInTimer <= 0 ==> r.num == r.den
      ensures totalSecondsInTimer > 0 ==> r.num * totalSecondsInTimer == totalSecondsRemaining * r.den
    {
      if totalSecondsInTimer > 0 then Ratio(totalSecondsRemaining, totalSecondsInTimer) else Ratio(1, 1)
    }

    /** `delay`: the user's next action (if any) happens once it has elapsed. */
    method Delay()
      requires Valid()
      modifies this`userActions, this`isPaused, this`cancelled, this`isRunning, this`isFinished,
               this`totalSecondsRemaining, this`totalSecondsInTimer
      ensures Valid()
      ensures totalSecondsRemaining <= old(totalSecondsRemaining)
      ensures !cancelled ==> (cancelled == old(cancelled) && isRunning == old(isRunning)
        && isFinished == old(isFinished) && totalSecondsRemaining == old(totalSecondsRemaining)
        && totalSecondsInTimer == old(totalSecondsInTimer))
      ensures cancelled && !old(cancelled) ==> (!isRunning && !isPaused && !isFinished
        && totalSecondsRemaining == 0 && totalSecondsInTimer == 0)
      ensures |userActions| <= old(|userActions|)
      ensures old(|userActions|) > 0 ==> |userActions| < old(|userActions|)
      ensures Resumes(old(isPaused), old(userActions)) && !cancelled ==> Resumes(isPaused, userActions)
    {
      if |userActions| > 0 {
        var action := userActions[0];
        userActions := userActions[1..];
        match action
        case Idle =>
        case TapPause => Pause();
        case TapResume => Resume();
        case TapReset => Reset();
      }
    }

    /** The inner `while (isPaused) delay(100)` of the countdown. */
    method WaitWhilePaused()
      requires Valid() && !cancelled && Resumes(isPaused, userActions)
      modifies this`userActions, this`isPaused, this`cancelled, this`isRunning, this`isFinished,
               this`totalSecondsRemaining, this`totalSecondsInTimer
      ensures Valid()
      ensures totalSecondsRemaining <= old(totalSecondsRemaining)
      ensures !cancelled ==> (!isPaused && Resumes(isPaused, userActions) && isRunning == old(isRunning)
        && isFinished == old(isFinished) && totalSecondsRemaining == old(totalSecondsRemaining)
        && totalSecondsInTimer == old(totalSecondsInTimer))
      ensures cancelled ==> (!isRunning && !isPaused && !isFinished
        && totalSecondsRemaining == 0 && totalSecondsInTimer == 0)
    {
      while isPaused
        invariant Valid() && !cancelled && Resumes(isPaused, userActions)
        invariant isRunning == old(isRunning) && isFinished == old(isFinished)
        invariant totalSecondsRemaining == old(totalSecondsRemaining)
        invariant totalSecondsInTimer == old(totalSecondsInTimer)
        decreases |userActions|
      {
        Delay();
        if cancelled {
          return;
        }
      }
    }

    /**
     * One pass of the countdown loop: the warning beep in the last three
     * seconds, a second's `delay`, the wait while paused, then one second
     * less, the timer still running.
     */
    method Second()
      requires Valid() && !cancelled && Resumes(isPaused, userActions)
      requires isRunning && totalSecondsRemaining > 0
      modifies this`userActions, this`isPaused, this`cancelled, this`isRunning, this`isFinished,
               this`totalSecondsRemaining, this`totalSecondsInTimer, this`events
      ensures Valid()
      ensures events == old(events) + (if old(totalSecondsRemaining) <= 3 then [WarningBeep] else [])
      ensures !cancelled ==> (Resumes(isPaused, userActions) && isRunning && isFinished == old(isFinished)
        && totalSecondsRemaining == old(totalSecondsRemaining) - 1
        && totalSecondsInTimer == old(totalSecondsInTimer))
      ensures cancelled ==> (!isRunning && !isPaused && !isFinished
        && totalSecondsRemaining == 0 && totalSecondsInTimer == 0)
    {
      if totalSecondsRemaining <= 3 {
        events := events + [WarningBeep];
      }
      Delay();
      if cancelled {
        return;
      }
      WaitWhilePaused();
      if cancelled {
        return;
      }
      if isRunning {
        totalSecondsRemaining := totalSecondsRemaining - 1;
      }
    }

    /**
     * `startCountdown`'s job: one second at a time while time remains and
     * the timer runs; when it reaches 0 still running, the timer stops,
     * is finished and plays the completion sound. A reset ends the job early.
     */
    method RunCountdown()
      requires Valid() && !cancelled && Resumes(isPaused, userActions) && isRunning
      modifies this`userActions, this`isPaused, this`cancelled, this`isRunning, this`isFinished,
               this`totalSecondsRemaining, this`totalSecondsInTimer, this`events
      ensures Valid()
      ensures !cancelled ==> (totalSecondsRemaining == 0 && totalSecondsInTimer == old(totalSecondsInTimer)
        && !isRunning && isFinished
        && events == old(events) + Beeps(old(totalSecondsRemaining)) + [PlayWorkoutComplete, SpeakWorkoutComplete])
      ensures cancelled ==> (!isRunning && !isPaused && !isFinished
        && totalSecondsRemaining == 0 && totalSecondsInTimer == 0
        && Extends(old(events), events, Beeps(old(totalSecondsRemaining))))
    {
      ghost var n := totalSecondsRemaining;
      while totalSecondsRemaining > 0 && isRunning
        invariant Valid() && !cancelled && Resumes(isPaused, userActions) && isRunning
        invariant 0 <= totalSecondsRemaining <= n
        invariant totalSecondsInTimer == old(totalSecondsInTimer)
        invariant events == old(events) + BeepsBetween(n, totalSecondsRemaining)
        decreases totalSecondsRemaining
      {
        ghost var m := totalSecondsRemaining;
        BeepsBetweenStep(n, m);
        Second();
        if cancelled {
          StoppedEarly(old(events), n, m - 1);
          return;
        }
      }
      BeepsBetweenZero(n);
      if totalSecondsRemaining == 0 && isRunning {
        isRunning := false;
        isFinished := true;
        events := events + [PlayWorkoutComplete, SpeakWorkoutComplete];
      }
    }
  }
}
