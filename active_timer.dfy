/**
 * The active-timer screen's state holder: `load` reads a plan and its
 * exercises, and the run counts down COUNTDOWN, PREP, then WORK and REST
 * for every exercise of every round, one second at a time in ten 100 ms
 * steps, while the user may pause, resume or leave.
 *
 * The run is sequential here. Each 100 ms `delay` advances the clock field
 * and then applies the user's next action (`UserAction`): a tap on pause,
 * leaving the screen (`abandon`, which cancels the run at that suspension
 * point), or nothing. Sounds, the completion notification and the
 * achievement check are appended to `events`, and so is an `Enter` event
 * with what the screen shows whenever a phase begins; `history` stands for
 * the history table.
 */
module ActiveTimer {
  import opened Wrappers
  import opened KotlinInt
  import opened Model
  import opened ActiveTimerSpec
  import WorkoutExerciseDao
  import CustomExerciseDao

  class ActiveTimerViewModel {
    // The screen's state
    var planName: string
    var currentRound: int
    var totalRounds: int
    var currentExercise: int
    var totalExercises: int
    var currentExerciseName: string
    var currentExerciseImagePath: Option<string>
    var nextExerciseName: string
    var nextExerciseImagePath: Option<string>
    var phase: TimerPhase
    var secondsRemaining: int
    var totalSecondsInPhase: int
    var isPaused: bool
    var isLoading: bool
    var isFinished: bool
    var workoutMode: WorkoutMode

    // The loaded plan and the run's bookkeeping
    var workSeconds: int
    var restSeconds: int
    var prepTimeSeconds: int
    var orderedExercises: seq<Exercise>
    var orderedCustomExercises: seq<CustomExercise>
    var workoutStartTimeMs: int
    var totalPausedMs: int
    var pauseStartMs: int
    var planId: int

    // The surroundings: the wall clock, the user, whether the run's job
    // has been cancelled, and what the run does to the outside
    var clockMs: int
    var userActions: seq<UserAction>
    var cancelled: bool
    var events: seq<Event>
    var history: seq<WorkoutHistory>

    constructor(nowMs: int, actions: seq<UserAction>)
      ensures planName == "" && currentRound == 1 && totalRounds == 1
      ensures currentExercise == 1 && totalExercises == 1
      ensures currentExerciseName == "" && currentExerciseImagePath == None
      ensures nextExerciseName == "" && nextExerciseImagePath == None
      ensures phase == COUNTDOWN && secondsRemaining == 3 && totalSecondsInPhase == 3
      ensures !isPaused && isLoading && !isFinished && workoutMode == SIMPLE
      ensures workSeconds == 0 && restSeconds == 0 && prepTimeSeconds == 30
      ensures orderedExercises == [] && orderedCustomExercises == []
      ensures workoutStartTimeMs == 0 && totalPausedMs == 0 && pauseStartMs == 0 && planId == 0
      ensures clockMs == nowMs && userActions == actions && !cancelled
      ensures events == [] && history == []
    {
      planName := "";
      currentRound := 1;
      totalRounds := 1;
      currentExercise := 1;
      totalExercises := 1;
      currentExerciseName := "";
      currentExerciseImagePath := None;
      nextExerciseName := "";
      nextExerciseImagePath := None;
      phase := COUNTDOWN;
      secondsRemaining := 3;
      totalSecondsInPhase := 3;
      isPaused := false;
      isLoading := true;
      isFinished := false;
      workoutMode := SIMPLE;
      workSeconds := 0;
      restSeconds := 0;
      prepTimeSeconds := 30;
      orderedExercises := [];
      orderedCustomExercises := [];
      workoutStartTimeMs := 0;
      totalPausedMs := 0;
      pauseStartMs := 0;
      planId := 0;
      clockMs := nowMs;
      userActions := actions;
      cancelled := false;
      events := [];
      history := [];
    }

    /** The loaded plan, as the run reads it. */
    function Config(): TimerConfig
      reads this`workoutMode, this`totalRounds, this`totalExercises, this`workSeconds,
            this`restSeconds, this`prepTimeSeconds, this`orderedExercises, this`orderedCustomExercises
    {
      TimerConfig(workoutMode, totalRounds, totalExercises, workSeconds, restSeconds, prepTimeSeconds,
                  orderedExercises, orderedCustomExercises)
    }

    /** The pause bookkeeping. */
    function Pause(): PauseState
      reads this`isPaused, this`totalPausedMs, this`pauseStartMs
    {
      PauseState(isPaused, totalPausedMs, pauseStartMs)
    }

    /** The milliseconds of wall clock so far that were not spent paused. */
    function ActiveMs(): int
      reads this`clockMs, this`isPaused, this`totalPausedMs, this`pauseStartMs
    {
      UnpausedMs(Pause(), clockMs)
    }

    /** The timer is running and the user does nothing from now on. */
    predicate Undisturbed()
      reads this`isPaused, this`userActions
    {
      !isPaused && userActions == []
    }

    /** The user has done nothing since the run was at `clockMs` `t0` with
        pause state `p0`: the run goes on, unpaused, and `ms` have passed. */
    predicate QuietSince(p0: PauseState, t0: int, ms: int)
      reads this`isPaused, this`userActions, this`cancelled, this`totalPausedMs, this`pauseStartMs, this`clockMs
    {
      && !isPaused && userActions == [] && !cancelled
      && totalPausedMs == p0.totalPausedMs && pauseStartMs == p0.pauseStartMs && !p0.isPaused
      && clockMs == t0 + ms
    }

    /** `getTotalDurationSeconds`, with the wall clock reading `now`. */
    function GetTotalDurationSeconds(now: int): (d: int)
      reads this`isPaused, this`totalPausedMs, this`pauseStartMs, this`workoutStartTimeMs
      ensures d >= 0
    {
      TotalDurationSeconds(Pause(), workoutStartTimeMs, now)
    }

    /** `togglePause`, with the wall clock reading `now`. */
    method TogglePause(now: int)
      modifies this`isPaused, this`totalPausedMs, this`pauseStartMs
      ensures Pause() == Toggled(old(Pause()), now)
    {
      if isPaused {
        totalPausedMs := totalPausedMs + (now - pauseStartMs);
        isPaused := false;
      } else {
        pauseStartMs := now;
        isPaused := true;
      }
    }

    /** `abandon`: cancels the run's job. */
    method Abandon()
      modifies this`cancelled
      ensures cancelled
    {
      cancelled := true;
    }

    /** `delay(ms)`: time passes, then the user's next action (if any) happens. */
    method Delay(ms: int)
      requires ms >= 0
      modifies this`clockMs, this`userActions, this`isPaused, this`totalPausedMs, this`pauseStartMs, this`cancelled
      ensures clockMs == old(clockMs) + ms
      ensures old(|userActions|) == 0 ==> userActions == [] && Pause() == old(Pause()) && cancelled == old(cancelled)
      ensures old(|userActions|) > 0 ==> userActions == old(userActions[1..])
      ensures old(|userActions|) > 0 ==> match old(userActions[0])
        case Idle => Pause() == old(Pause()) && cancelled == old(cancelled)
        case TapPause => Pause() == Toggled(old(Pause()), clockMs) && cancelled == old(cancelled)
        case Leave => Pause() == old(Pause()) && cancelled
      ensures Resumes(old(isPaused), old(userActions)) && !cancelled ==> Resumes(isPaused, userActions)
      ensures ActiveMs() == old(ActiveMs()) + (if old(isPaused) then 0 else ms)
    {
      clockMs := clockMs + ms;
      if |userActions| > 0 {
        var action := userActions[0];
        userActions := userActions[1..];
        match action
        case Idle =>
        case TapPause => TogglePause(clockMs);
        case Leave => Abandon();
      }
    }

    /** `waitWhilePaused`: 100 ms steps until the user resumes (or leaves). */
    method WaitWhilePaused()
      requires !cancelled && Resumes(isPaused, userActions)
      modifies this`clockMs, this`userActions, this`isPaused, this`totalPausedMs, this`pauseStartMs, this`cancelled
      ensures clockMs >= old(clockMs)
      ensures !cancelled ==> !isPaused && Resumes(isPaused, userActions)
      ensures ActiveMs() == old(ActiveMs())
      ensures !old(isPaused) ==> clockMs == old(clockMs) && userActions == old(userActions) && Pause() == old(Pause())
    {
      while isPaused
        invariant !cancelled && Resumes(isPaused, userActions)
        invariant clockMs >= old(clockMs)
        invariant ActiveMs() == old(ActiveMs())
        invariant !old(isPaused) ==> clockMs == old(clockMs) && userActions == old(userActions) && Pause() == old(Pause())
        decreases |userActions|
      {
        Delay(100);
        if cancelled {
          return;
        }
      }
    }

    /** The `repeat(10)` block of `countdown`: ten 100 ms steps; a step that
        finds the timer paused waits for the resume instead of sleeping, and
        so adds no running time. `slices` counts the steps that slept: the
        second lasts 100 ms of running time per such step, and exactly
        1000 ms of wall clock when the user does nothing. */
    method OneSecond() returns (ghost slices: int)
      requires !cancelled && Resumes(isPaused, userActions)
      modifies this`clockMs, this`userActions, this`isPaused, this`totalPausedMs, this`pauseStartMs, this`cancelled
      ensures clockMs >= old(clockMs)
      ensures !cancelled ==> Resumes(isPaused, userActions)
      ensures 0 <= slices <= 10 && ActiveMs() == old(ActiveMs()) + 100 * slices
      ensures old(Undisturbed()) ==> QuietSince(old(Pause()), old(clockMs), 1000) && slices == 10
    {
      var step := 0;
      slices := 0;
      while step < 10
        invariant 0 <= slices <= step <= 10
        invariant !cancelled && Resumes(isPaused, userActions)
        invariant clockMs >= old(clockMs)
        invariant ActiveMs() == old(ActiveMs()) + 100 * slices
        invariant old(Undisturbed()) ==> QuietSince(old(Pause()), old(clockMs), 100 * step) && slices == step
      {
        if !isPaused {
          Delay(100);
          slices := slices + 1;
        } else {
          WaitWhilePaused();
        }
        if cancelled {
          return;
        }
        step := step + 1;
      }
    }

    /** The beeps at the start of a second of `countdown`: the prep beep
        at 3 seconds before "stop", the warning beep in the last three seconds. */
    method Beeps(isBeforeVoiceOver: bool)
      modifies this`events
      ensures events == old(events) + SecondCues(secondsRemaining, isBeforeVoiceOver)
    {
      if isBeforeVoiceOver && secondsRemaining == 3 {
        events := events + [PrepBeep];
      }
      if secondsRemaining <= 3 {
        events := events + [WarningBeep];
      }
    }

    /** One second of `countdown(n)` with `secondsRemaining` to go: its
        beeps, then the second's ten 100 ms steps (`OneSecond`). */
    method CountdownSecond(n: int, isBeforeVoiceOver: bool, ghost start: seq<Event>) returns (ghost slices: int)
      requires 1 <= secondsRemaining <= n
      requires !cancelled && Resumes(isPaused, userActions)
      requires events == start + CountdownCuesBetween(n, secondsRemaining, isBeforeVoiceOver)
      modifies this`events
      modifies this`clockMs, this`userActions, this`isPaused, this`totalPausedMs, this`pauseStartMs, this`cancelled
      ensures clockMs >= old(clockMs)
      ensures !cancelled ==> Resumes(isPaused, userActions)
      ensures events == start + CountdownCuesBetween(n, secondsRemaining - 1, isBeforeVoiceOver)
      ensures 0 <= slices <= 10 && ActiveMs() == old(ActiveMs()) + 100 * slices
      ensures old(Undisturbed()) ==> QuietSince(old(Pause()), old(clockMs), 1000)
    {
      CountdownCuesBetweenStep(n, secondsRemaining, isBeforeVoiceOver);
      Beeps(isBeforeVoiceOver);
      slices := OneSecond();
    }

    /** `countdown(n)`: `secondsRemaining` starts at `n` and drops by one
        per second (ten steps of 100 ms, a paused step waiting for the
        resume) until it reaches 0; the beeps of each second come first.
        The running time is at most a second per second counted, and the
        wall clock exactly that when the user does nothing. */
    method Countdown(n: int)
      requires !cancelled && Resumes(isPaused, userActions)
      modifies this`secondsRemaining, this`events
      modifies this`clockMs, this`userActions, this`isPaused, this`totalPausedMs, this`pauseStartMs, this`cancelled
      ensures clockMs >= old(clockMs)
      ensures old(ActiveMs()) <= ActiveMs() <= old(ActiveMs()) + 1000 * Times(n)
      ensures old(Undisturbed()) ==> QuietSince(old(Pause()), old(clockMs), 1000 * Times(n))
      ensures !cancelled ==> Resumes(isPaused, userActions)
      ensures !cancelled ==> secondsRemaining == (if n > 0 then 0 else n)
      ensures !cancelled ==> events == old(events) + CountdownCues(n, phase == WORK)
      ensures Extends(old(events), events, CountdownCues(n, phase == WORK))
    {
      secondsRemaining := n;
      var isBeforeVoiceOver := phase == WORK;
      if n <= 0 {
        ExtendsAll(events, CountdownCues(n, isBeforeVoiceOver));
        return;
      }
      while secondsRemaining > 0
        invariant 0 <= secondsRemaining <= n
        invariant !cancelled && Resumes(isPaused, userActions)
        invariant clockMs >= old(clockMs)
        invariant old(ActiveMs()) <= ActiveMs() <= old(ActiveMs()) + 1000 * (n - secondsRemaining)
        invariant old(Undisturbed()) ==> QuietSince(old(Pause()), old(clockMs), 1000 * (n - secondsRemaining))
        invariant events == old(events) + CountdownCuesBetween(n, secondsRemaining, isBeforeVoiceOver)
        decreases secondsRemaining
      {
        ghost var slices := CountdownSecond(n, isBeforeVoiceOver, old(events));
        if cancelled {
          CountdownStoppedEarly(old(events), n, secondsRemaining - 1, isBeforeVoiceOver);
          return;
        }
        secondsRemaining := secondsRemaining - 1;
      }
      CountdownStoppedEarly(old(events), n, 0, isBeforeVoiceOver);
    }

    /** The start of each exercise: the current exercise's name, image and
        work time by mode, then the "next up" preview by mode. */
    method ShowExercise(round: int, exercise: int, ghost c: TimerConfig) returns (currentWorkDuration: int)
      requires c == Config() && exercise >= 1
      modifies this`currentExercise, this`currentExerciseName, this`currentExerciseImagePath
      modifies this`nextExerciseName, this`nextExerciseImagePath
      ensures currentExercise == exercise
      ensures Shown(currentExerciseName, currentExerciseImagePath) == CurrentShown(c, exercise)
      ensures currentWorkDuration == WorkDuration(c, exercise)
      ensures Shown(nextExerciseName, nextExerciseImagePath) == NextShown(c, round, exercise)
    {
      currentExercise := exercise;
      match workoutMode {
        case LIBRARY =>
          if |orderedExercises| > 0 && exercise <= |orderedExercises| {
            var exerciseData := orderedExercises[exercise - 1];
            currentExerciseName := exerciseData.name;
            currentExerciseImagePath := Some(exerciseData.imagePath);
          } else {
            currentExerciseName := "Exercise " + IntToString(exercise);
            currentExerciseImagePath := None;
          }
          currentWorkDuration := workSeconds;
        case CUSTOM =>
          if |orderedCustomExercises| > 0 && exercise <= |orderedCustomExercises| {
            var customExercise := orderedCustomExercises[exercise - 1];
            currentExerciseName := customExercise.name;
            currentExerciseImagePath := customExercise.imagePath;
            currentWorkDuration := customExercise.durationSeconds;
          } else {
            currentExerciseName := "Exercise " + IntToString(exercise);
            currentExerciseImagePath := None;
            currentWorkDuration := workSeconds;
          }
        case SIMPLE =>
          currentExerciseName := "Exercise " + IntToString(exercise);
          currentExerciseImagePath := None;
          currentWorkDuration := workSeconds;
      }

      match workoutMode {
        case LIBRARY =>
          if |orderedExercises| > 0 {
            if exercise < totalExercises && exercise < |orderedExercises| {
              var nextExerciseData := orderedExercises[exercise];
              nextExerciseName := nextExerciseData.name;
              nextExerciseImagePath := Some(nextExerciseData.imagePath);
            } else if exercise == totalExercises && round < totalRounds {
              var firstExercise := orderedExercises[0];
              nextExerciseName := firstExercise.name;
              nextExerciseImagePath := Some(firstExercise.imagePath);
            } else {
              nextExerciseName := "Final Exercise!";
              nextExerciseImagePath := None;
            }
          } else if exercise < totalExercises {
            nextExerciseName := "Exercise " + IntToString(exercise + 1);
            nextExerciseImagePath := None;
          } else {
            nextExerciseName := "Final Exercise!";
            nextExerciseImagePath := None;
          }
        case CUSTOM =>
          if |orderedCustomExercises| > 0 {
            if exercise < totalExercises && exercise < |orderedCustomExercises| {
              var nextCustomExercise := orderedCustomExercises[exercise];
              nextExerciseName := nextCustomExercise.name;
              nextExerciseImagePath := nextCustomExercise.imagePath;
            } else if exercise == totalExercises && round < totalRounds {
              var firstExercise := orderedCustomExercises[0];
              nextExerciseName := firstExercise.name;
              nextExerciseImagePath := firstExercise.imagePath;
            } else {
              nextExerciseName := "Final Exercise!";
              nextExerciseImagePath := None;
            }
          } else if exercise < totalExercises {
            nextExerciseName := "Exercise " + IntToString(exercise + 1);
            nextExerciseImagePath := None;
          } else {
            nextExerciseName := "Final Exercise!";
            nextExerciseImagePath := None;
          }
        case SIMPLE =>
          if exercise < totalExercises {
            nextExerciseName := "Exercise " + IntToString(exercise + 1);
            nextExerciseImagePath := None;
          } else {
            nextExerciseName := "Final Exercise!";
            nextExerciseImagePath := None;
          }
      }
    }

    /** Entering the WORK phase of an exercise: the display is updated and
        the phase appears with its duration. */
    method EnterWork(round: int, exercise: int, ghost c: TimerConfig) returns (duration: int)
      requires c == Config() && exercise >= 1 && currentRound == round
      modifies this`currentExercise, this`currentExerciseName, this`currentExerciseImagePath
      modifies this`nextExerciseName, this`nextExerciseImagePath
      modifies this`phase, this`totalSecondsInPhase, this`events
      ensures currentExercise == exercise && phase == WORK
      ensures duration == WorkDuration(c, exercise) == totalSecondsInPhase
      ensures Shown(currentExerciseName, currentExerciseImagePath) == CurrentShown(c, exercise)
      ensures Shown(nextExerciseName, nextExerciseImagePath) == NextShown(c, round, exercise)
      ensures events == old(events) + [Enter(WorkEntry(c, round, exercise))]
    {
      duration := ShowExercise(round, exercise, c);
      phase := WORK;
      totalSecondsInPhase := duration;
      events := events + [Enter(Work(currentRound, currentExercise, totalSecondsInPhase))];
    }

    /** After the WORK phase appears: "start", the countdown of its `duration`, "stop". */
    method WorkCountdown(duration: int)
      requires !cancelled && Resumes(isPaused, userActions) && phase == WORK
      modifies this`secondsRemaining, this`events
      modifies this`clockMs, this`userActions, this`isPaused, this`totalPausedMs, this`pauseStartMs, this`cancelled
      ensures clockMs >= old(clockMs)
      ensures !cancelled ==> Resumes(isPaused, userActions)
      ensures !cancelled ==> events == old(events) + WorkCountdownCues(duration)
      ensures Extends(old(events), events, WorkCountdownCues(duration))
      ensures old(Undisturbed()) ==> QuietSince(old(Pause()), old(clockMs), 1000 * Times(duration))
    {
      events := events + [SpeakStart];
      Countdown(duration);
      ExtendsThen(old(events), [SpeakStart], events, CountdownCues(duration, true));
      if cancelled {
        ExtendsLonger(old(events), events, [SpeakStart] + CountdownCues(duration, true), WorkCountdownCues(duration));
        return;
      }
      events := events + [SpeakStop];
      ExtendsAll(old(events), WorkCountdownCues(duration));
    }

    /** The WORK phase of an exercise: it appears, "start", the countdown of
        its work time, "stop". */
    method WorkPhase(round: int, exercise: int, ghost c: TimerConfig)
      requires c == Config() && exercise >= 1 && currentRound == round
      requires !cancelled && Resumes(isPaused, userActions)
      modifies this`currentExercise, this`currentExerciseName, this`currentExerciseImagePath
      modifies this`nextExerciseName, this`nextExerciseImagePath
      modifies this`phase, this`totalSecondsInPhase, this`secondsRemaining, this`events
      modifies this`clockMs, this`userActions, this`isPaused, this`totalPausedMs, this`pauseStartMs, this`cancelled
      ensures clockMs >= old(clockMs) && currentExercise == exercise
      ensures Shown(currentExerciseName, currentExerciseImagePath) == CurrentShown(c, exercise)
      ensures Shown(nextExerciseName, nextExerciseImagePath) == NextShown(c, round, exercise)
      ensures !cancelled ==> Resumes(isPaused, userActions)
      ensures !cancelled ==> events == old(events) + WorkCues(c, round, exercise)
      ensures Extends(old(events), events, WorkCues(c, round, exercise))
      ensures old(Undisturbed()) ==>
                QuietSince(old(Pause()), old(clockMs), 1000 * Times(WorkDuration(c, exercise)))
    {
      var currentWorkDuration := EnterWork(round, exercise, c);
      WorkCountdown(currentWorkDuration);
      ExtendsThen(old(events), [Enter(WorkEntry(c, round, exercise))], events, WorkCountdownCues(currentWorkDuration));
    }

    /** The REST after an exercise, unless there is no rest or it is the
        round's last exercise. */
    method RestPhase(round: int, exercise: int, ghost c: TimerConfig)
      requires c == Config() && exercise >= 1 && currentRound == round && currentExercise == exercise
      requires !cancelled && Resumes(isPaused, userActions)
      modifies this`phase, this`totalSecondsInPhase, this`secondsRemaining, this`events
      modifies this`clockMs, this`userActions, this`isPaused, this`totalPausedMs, this`pauseStartMs, this`cancelled
      ensures clockMs >= old(clockMs)
      ensures !cancelled ==> Resumes(isPaused, userActions)
      ensures !cancelled ==> events == old(events) + RestCues(c, round, exercise)
      ensures Extends(old(events), events, RestCues(c, round, exercise))
      ensures old(Undisturbed()) ==>
                QuietSince(old(Pause()), old(clockMs), 1000 * RestTime(c, exercise))
    {
      if restSeconds > 0 && exercise < totalExercises {
        phase := REST;
        totalSecondsInPhase := restSeconds;
        var entered := [Enter(ExerciseRest(currentRound, currentExercise, totalSecondsInPhase))];
        events := events + entered;
        Countdown(restSeconds);
        ExtendsThen(old(events), entered, events, CountdownCues(restSeconds, false));
      } else {
        ExtendsAll(events, []);
      }
    }

    /** One exercise of a round: its WORK phase, then its REST. */
    method RunExercise(round: int, exercise: int, ghost c: TimerConfig)
      requires c == Config() && exercise >= 1 && currentRound == round
      requires !cancelled && Resumes(isPaused, userActions)
      modifies this`currentExercise, this`currentExerciseName, this`currentExerciseImagePath
      modifies this`nextExerciseName, this`nextExerciseImagePath
      modifies this`phase, this`totalSecondsInPhase, this`secondsRemaining, this`events
      modifies this`clockMs, this`userActions, this`isPaused, this`totalPausedMs, this`pauseStartMs, this`cancelled
      ensures clockMs >= old(clockMs)
      ensures !cancelled ==> Resumes(isPaused, userActions)
      ensures !cancelled ==> events == old(events) + ExerciseCues(c, round, exercise)
      ensures Extends(old(events), events, ExerciseCues(c, round, exercise))
      ensures old(Undisturbed()) ==>
                QuietSince(old(Pause()), old(clockMs), 1000 * ExerciseTime(c, exercise))
    {
      ghost var quiet, p0, t0 := Undisturbed(), Pause(), clockMs;
      WorkPhase(round, exercise, c);
      if cancelled {
        ExtendsLonger(old(events), events, WorkCues(c, round, exercise), ExerciseCues(c, round, exercise));
        return;
      }
      assert quiet ==> Undisturbed() && Pause() == p0 && clockMs == t0 + 1000 * Times(WorkDuration(c, exercise));
      RestPhase(round, exercise, c);
      ExtendsThen(old(events), WorkCues(c, round, exercise), events, RestCues(c, round, exercise));
    }

    /** Exercise `exercise` of a round, after the ones before it: the events
        grow by its own, or stop partway along the round's. */
    method ExerciseStep(round: int, exercise: int, ghost c: TimerConfig, ghost start: seq<Event>,
                        ghost parts: seq<seq<Event>>, ghost quiet: bool, ghost p0: PauseState, ghost t0: int)
      requires c == Config() && currentRound == round
      requires ListsExercises(c, round, parts) && 1 <= exercise <= |parts|
      requires !cancelled && Resumes(isPaused, userActions)
      requires events == start + Flatten(parts[..exercise - 1])
      requires quiet ==> QuietSince(p0, t0, 1000 * ExercisesTime(c, exercise - 1))
      modifies this`currentExercise, this`currentExerciseName, this`currentExerciseImagePath
      modifies this`nextExerciseName, this`nextExerciseImagePath
      modifies this`phase, this`totalSecondsInPhase, this`secondsRemaining, this`events
      modifies this`clockMs, this`userActions, this`isPaused, this`totalPausedMs, this`pauseStartMs, this`cancelled
      ensures clockMs >= old(clockMs)
      ensures !cancelled ==> Resumes(isPaused, userActions)
      ensures !cancelled ==> events == start + Flatten(parts[..exercise])
      ensures Extends(start, events, Flatten(parts))
      ensures quiet ==> QuietSince(p0, t0, 1000 * ExercisesTime(c, exercise))
    {
      RunExercise(round, exercise, c);
      FlattenStep(parts, exercise);
      FlattenPrefix(parts, exercise);
      StoppedInStep(start, events, Flatten(parts[..exercise - 1]), parts[exercise - 1], Flatten(parts));
    }

    /** `for (exercise in 1..totalExercises)`: the exercises of a round, in
        order; `parts` lists their events. */
    method RunExercises(round: int, ghost c: TimerConfig, ghost parts: seq<seq<Event>>)
      requires c == Config() && currentRound == round
      requires ListsExercises(c, round, parts) && |parts| == Times(c.exercises)
      requires !cancelled && Resumes(isPaused, userActions)
      modifies this`currentExercise, this`currentExerciseName, this`currentExerciseImagePath
      modifies this`nextExerciseName, this`nextExerciseImagePath
      modifies this`phase, this`totalSecondsInPhase, this`secondsRemaining, this`events
      modifies this`clockMs, this`userActions, this`isPaused, this`totalPausedMs, this`pauseStartMs, this`cancelled
      ensures clockMs >= old(clockMs)
      ensures !cancelled ==> Resumes(isPaused, userActions)
      ensures !cancelled ==> events == old(events) + Flatten(parts)
      ensures Extends(old(events), events, Flatten(parts))
      ensures old(Undisturbed()) ==>
                QuietSince(old(Pause()), old(clockMs), 1000 * ExercisesTime(c, c.exercises))
    {
      var exercise := 1;
      ghost var quiet, p0, t0 := Undisturbed(), Pause(), clockMs;
      while exercise <= totalExercises
        invariant 1 <= exercise <= |parts| + 1
        invariant Config() == c && currentRound == round
        invariant !cancelled && Resumes(isPaused, userActions)
        invariant clockMs >= old(clockMs)
        invariant events == old(events) + Flatten(parts[..exercise - 1])
        invariant quiet ==> QuietSince(p0, t0, 1000 * ExercisesTime(c, exercise - 1))
      {
        ExerciseStep(round, exercise, c, old(events), parts, quiet, p0, t0);
        if cancelled {
          return;
        }
        exercise := exercise + 1;
      }
      assert parts[..exercise - 1] == parts;
      assert ExercisesTime(c, exercise - 1) == ExercisesTime(c, c.exercises);
      ExtendsAll(old(events), Flatten(parts));
    }

    /** The exercises of round `round`, from first to last. */
    method RoundExercises(round: int, ghost c: TimerConfig)
      requires c == Config() && currentRound == round
      requires !cancelled && Resumes(isPaused, userActions)
      modifies this`currentExercise, this`currentExerciseName, this`currentExerciseImagePath
      modifies this`nextExerciseName, this`nextExerciseImagePath
      modifies this`phase, this`totalSecondsInPhase, this`secondsRemaining, this`events
      modifies this`clockMs, this`userActions, this`isPaused, this`totalPausedMs, this`pauseStartMs, this`cancelled
      ensures clockMs >= old(clockMs)
      ensures !cancelled ==> Resumes(isPaused, userActions)
      ensures !cancelled ==> events == old(events) + ExercisesCuesUpTo(c, round, c.exercises)
      ensures Extends(old(events), events, ExercisesCuesUpTo(c, round, c.exercises))
      ensures old(Undisturbed()) ==>
                QuietSince(old(Pause()), old(clockMs), 1000 * ExercisesTime(c, c.exercises))
    {
      ghost var parts := ExerciseSteps(c, round);
      RunExercises(round, c, parts);
    }

    /** The REST between rounds, announced by the round-end sound and the
        spoken break, unless there is no rest or this is the last round. */
    method RoundBreak(round: int, ghost c: TimerConfig)
      requires c == Config() && currentRound == round
      requires !cancelled && Resumes(isPaused, userActions)
      modifies this`phase, this`totalSecondsInPhase, this`secondsRemaining, this`events
      modifies this`clockMs, this`userActions, this`isPaused, this`totalPausedMs, this`pauseStartMs, this`cancelled
      ensures clockMs >= old(clockMs)
      ensures !cancelled ==> Resumes(isPaused, userActions)
      ensures !cancelled ==> events == old(events) + RoundBreakCues(c, round)
      ensures Extends(old(events), events, RoundBreakCues(c, round))
      ensures old(Undisturbed()) ==>
                QuietSince(old(Pause()), old(clockMs), 1000 * RoundBreakTime(c, round))
    {
      if restSeconds > 0 && round < totalRounds {
        events := events + [RoundEnd, SpeakRoundBreak(round, totalRounds)];
        phase := REST;
        totalSecondsInPhase := restSeconds;
        events := events + [Enter(RoundRest(currentRound, totalSecondsInPhase))];
        ghost var announced := [RoundEnd, SpeakRoundBreak(round, c.rounds), Enter(RoundRest(round, c.rest))];
        assert events == old(events) + announced;
        Countdown(restSeconds);
        ExtendsThen(old(events), announced, events, CountdownCues(restSeconds, false));
      } else {
        ExtendsSelf(events, RoundBreakCues(c, round));
      }
    }

    /** One round: its exercises, then the break after it. */
    method RunRound(round: int, ghost c: TimerConfig)
      requires c == Config() && !cancelled && Resumes(isPaused, userActions)
      modifies this`currentRound
      modifies this`currentExercise, this`currentExerciseName, this`currentExerciseImagePath
      modifies this`nextExerciseName, this`nextExerciseImagePath
      modifies this`phase, this`totalSecondsInPhase, this`secondsRemaining, this`events
      modifies this`clockMs, this`userActions, this`isPaused, this`totalPausedMs, this`pauseStartMs, this`cancelled
      ensures clockMs >= old(clockMs)
      ensures !cancelled ==> Resumes(isPaused, userActions)
      ensures !cancelled ==> events == old(events) + RoundCues(c, round)
      ensures Extends(old(events), events, RoundCues(c, round))
      ensures old(Undisturbed()) ==>
                QuietSince(old(Pause()), old(clockMs), 1000 * RoundTime(c, round))
    {
      ghost var quiet, p0, t0 := Undisturbed(), Pause(), clockMs;
      currentRound := round;
      RoundExercises(round, c);
      if cancelled {
        ExtendsLonger(old(events), events, ExercisesCuesUpTo(c, round, c.exercises), RoundCues(c, round));
        return;
      }
      assert quiet ==> Undisturbed() && Pause() == p0 && clockMs == t0 + 1000 * ExercisesTime(c, c.exercises);
      RoundBreak(round, c);
      ExtendsThen(old(events), ExercisesCuesUpTo(c, round, c.exercises), events, RoundBreakCues(c, round));
    }

    /** Round `round`, after the ones before it. */
    method RoundStep(round: int, ghost c: TimerConfig, ghost start: seq<Event>, ghost parts: seq<seq<Event>>,
                     ghost quiet: bool, ghost p0: PauseState, ghost t0: int)
      requires c == Config() && ListsRounds(c, parts) && 1 <= round <= |parts|
      requires !cancelled && Resumes(isPaused, userActions)
      requires events == start + Flatten(parts[..round - 1])
      requires quiet ==> QuietSince(p0, t0, 1000 * RoundsTime(c, round - 1))
      modifies this`currentRound
      modifies this`currentExercise, this`currentExerciseName, this`currentExerciseImagePath
      modifies this`nextExerciseName, this`nextExerciseImagePath
      modifies this`phase, this`totalSecondsInPhase, this`secondsRemaining, this`events
      modifies this`clockMs, this`userActions, this`isPaused, this`totalPausedMs, this`pauseStartMs, this`cancelled
      ensures clockMs >= old(clockMs)
      ensures !cancelled ==> Resumes(isPaused, userActions)
      ensures !cancelled ==> events == start + Flatten(parts[..round])
      ensures Extends(start, events, Flatten(parts))
      ensures quiet ==> QuietSince(p0, t0, 1000 * RoundsTime(c, round))
    {
      RunRound(round, c);
      FlattenStep(parts, round);
      FlattenPrefix(parts, round);
      StoppedInStep(start, events, Flatten(parts[..round - 1]), parts[round - 1], Flatten(parts));
    }

    /** `for (round in 1..totalRounds)`: the rounds, in order; `parts` lists
        their events. */
    method RunRounds(ghost c: TimerConfig, ghost parts: seq<seq<Event>>)
      requires c == Config() && ListsRounds(c, parts) && |parts| == Times(c.rounds)
      requires !cancelled && Resumes(isPaused, userActions)
      modifies this`currentRound
      modifies this`currentExercise, this`currentExerciseName, this`currentExerciseImagePath
      modifies this`nextExerciseName, this`nextExerciseImagePath
      modifies this`phase, this`totalSecondsInPhase, this`secondsRemaining, this`events
      modifies this`clockMs, this`userActions, this`isPaused, this`totalPausedMs, this`pauseStartMs, this`cancelled
      ensures clockMs >= old(clockMs)
      ensures !cancelled ==> Resumes(isPaused, userActions)
      ensures !cancelled ==> events == old(events) + Flatten(parts)
      ensures Extends(old(events), events, Flatten(parts))
      ensures old(Undisturbed()) ==>
                QuietSince(old(Pause()), old(clockMs), 1000 * RoundsTime(c, c.rounds))
    {
      var round := 1;
      ghost var quiet, p0, t0 := Undisturbed(), Pause(), clockMs;
      while round <= totalRounds
        invariant 1 <= round <= |parts| + 1
        invariant Config() == c
        invariant !cancelled && Resumes(isPaused, userActions)
        invariant clockMs >= old(clockMs)
        invariant events == old(events) + Flatten(parts[..round - 1])
        invariant quiet ==> QuietSince(p0, t0, 1000 * RoundsTime(c, round - 1))
      {
        RoundStep(round, c, old(events), parts, quiet, p0, t0);
        if cancelled {
          return;
        }
        round := round + 1;
      }
      assert parts[..round - 1] == parts;
      assert RoundsTime(c, round - 1) == RoundsTime(c, c.rounds);
      ExtendsAll(old(events), Flatten(parts));
    }

    /** The opening 3-second countdown, announced by "get ready" and a beep. */
    method GetReadyPhase()
      requires !cancelled && Resumes(isPaused, userActions)
      modifies this`phase, this`totalSecondsInPhase, this`secondsRemaining, this`events
      modifies this`clockMs, this`userActions, this`isPaused, this`totalPausedMs, this`pauseStartMs, this`cancelled
      ensures clockMs >= old(clockMs)
      ensures !cancelled ==> Resumes(isPaused, userActions)
      ensures !cancelled ==> events == old(events) + GetReadyCues()
      ensures Extends(old(events), events, GetReadyCues())
      ensures old(Undisturbed()) ==> QuietSince(old(Pause()), old(clockMs), 3000)
    {
      phase := COUNTDOWN;
      totalSecondsInPhase := 3;
      secondsRemaining := 3;
      ghost var opening := [Enter(PhaseEntry.Countdown(3)), SpeakGetReady, PrepBeep];
      events := events + [Enter(PhaseEntry.Countdown(totalSecondsInPhase))] + [SpeakGetReady, PrepBeep];
      assert events == old(events) + opening;
      Countdown(3);
      ExtendsThen(old(events), opening, events, CountdownCues(3, false));
    }

    /** What PREP shows: the first entry of the mode's list when there is
        one, "Get Ready!" otherwise. */
    method ShowPrep(ghost c: TimerConfig)
      requires c == Config()
      modifies this`currentExerciseName, this`currentExerciseImagePath
      ensures Shown(currentExerciseName, currentExerciseImagePath) == PrepShown(c)
    {
      match workoutMode {
        case LIBRARY =>
          if |orderedExercises| > 0 {
            var firstExercise := orderedExercises[0];
            currentExerciseName := firstExercise.name;
            currentExerciseImagePath := Some(firstExercise.imagePath);
          } else {
            currentExerciseName := "Get Ready!";
            currentExerciseImagePath := None;
          }
        case CUSTOM =>
          if |orderedCustomExercises| > 0 {
            var firstExercise := orderedCustomExercises[0];
            currentExerciseName := firstExercise.name;
            currentExerciseImagePath := firstExercise.imagePath;
          } else {
            currentExerciseName := "Get Ready!";
            currentExerciseImagePath := None;
          }
        case SIMPLE =>
          currentExerciseName := "Get Ready!";
          currentExerciseImagePath := None;
      }
    }

    /** PREP appears, showing the first exercise, and "get ready" is spoken. */
    method EnterPrep(ghost c: TimerConfig)
      requires c == Config()
      modifies this`currentExerciseName, this`currentExerciseImagePath
      modifies this`phase, this`totalSecondsInPhase, this`events
      ensures phase == PREP && totalSecondsInPhase == c.prep
      ensures events == old(events) + [Enter(Prep(c.prep, PrepShown(c))), SpeakGetReady]
    {
      phase := PREP;
      totalSecondsInPhase := prepTimeSeconds;
      ShowPrep(c);
      events := events + [Enter(Prep(totalSecondsInPhase, Shown(currentExerciseName, currentExerciseImagePath)))];
      events := events + [SpeakGetReady];
    }

    /** PREP: it appears showing the first exercise, "get ready", the prep
        countdown, then the go sound. */
    method PrepPhase(ghost c: TimerConfig)
      requires c == Config() && !cancelled && Resumes(isPaused, userActions)
      modifies this`currentExerciseName, this`currentExerciseImagePath
      modifies this`phase, this`totalSecondsInPhase, this`secondsRemaining, this`events
      modifies this`clockMs, this`userActions, this`isPaused, this`totalPausedMs, this`pauseStartMs, this`cancelled
      ensures clockMs >= old(clockMs)
      ensures !cancelled ==> Resumes(isPaused, userActions)
      ensures !cancelled ==> events == old(events) + PrepCues(c)
      ensures Extends(old(events), events, PrepCues(c))
      ensures old(Undisturbed()) ==> QuietSince(old(Pause()), old(clockMs), 1000 * Times(c.prep))
    {
      ghost var opening := [Enter(Prep(c.prep, PrepShown(c))), SpeakGetReady];
      EnterPrep(c);
      Countdown(prepTimeSeconds);
      ExtendsThen(old(events), opening, events, CountdownCues(c.prep, false));
      if cancelled {
        ExtendsLonger(old(events), events, opening + CountdownCues(c.prep, false), PrepCues(c));
        return;
      }
      events := events + [GoSound];
    }

    /** Everything before the first exercise: the opening countdown, then PREP. */
    method Opening(ghost c: TimerConfig)
      requires c == Config() && !cancelled && Resumes(isPaused, userActions)
      modifies this`currentExerciseName, this`currentExerciseImagePath
      modifies this`phase, this`totalSecondsInPhase, this`secondsRemaining, this`events
      modifies this`clockMs, this`userActions, this`isPaused, this`totalPausedMs, this`pauseStartMs, this`cancelled
      ensures Config() == c
      ensures clockMs >= old(clockMs)
      ensures !cancelled ==> Resumes(isPaused, userActions)
      ensures !cancelled ==> events == old(events) + OpeningCues(c)
      ensures Extends(old(events), events, OpeningCues(c))
      ensures old(Undisturbed()) ==>
                QuietSince(old(Pause()), old(clockMs), 1000 * OpeningTime(c))
    {
      GetReadyPhase();
      if cancelled {
        ExtendsLonger(old(events), events, GetReadyCues(), OpeningCues(c));
        return;
      }
      PrepPhase(c);
      ExtendsThen(old(events), GetReadyCues(), events, PrepCues(c));
    }

    /** `saveHistory`: the record of the finished run is inserted, then the
        completion notification (the duration in minutes and seconds) is
        shown and the achievements are checked. */
    method SaveHistory() returns (ghost duration: int)
      modifies this`history, this`events
      ensures duration == TotalDurationSeconds(Pause(), workoutStartTimeMs, clockMs)
      ensures history == old(history) + [HistoryRecord(planId, planName, clockMs, duration, totalRounds)]
      ensures events == old(events) + SavedCues(planName, duration, totalRounds, totalExercises)
    {
      history := history + [WorkoutHistory(0, Some(planId), planName, clockMs, GetTotalDurationSeconds(clockMs), totalRounds)];
      var totalDuration := GetTotalDurationSeconds(clockMs);
      var minutes := Quot(totalDuration, 60);
      var seconds := Rem(totalDuration, 60);
      events := events + [CompletionNotification(planName, minutes, seconds, totalRounds, totalExercises)];
      events := events + [AchievementCheck];
      duration := totalDuration;
    }

    /** The end of a run: saving, the completion voice and sound, then half
        a second before the screen moves on. */
    method Finish() returns (ghost saved: WorkoutHistory)
      requires !cancelled
      modifies this`history, this`isFinished, this`events
      modifies this`clockMs, this`userActions, this`isPaused, this`totalPausedMs, this`pauseStartMs, this`cancelled
      ensures clockMs >= old(clockMs)
      ensures saved.completedAt == old(clockMs)
      ensures saved.totalDurationSeconds == old(TotalDurationSeconds(Pause(), workoutStartTimeMs, clockMs))
      ensures Recorded(saved, planId, planName, totalRounds)
      ensures history == old(history) + [saved]
      ensures events == old(events) + FinishCues(planName, saved.totalDurationSeconds, totalRounds, totalExercises)
      ensures isFinished == (old(isFinished) || !cancelled)
      ensures old(Undisturbed()) ==> QuietSince(old(Pause()), old(clockMs), 500) && isFinished
    {
      var duration := SaveHistory();
      saved := HistoryRecord(planId, planName, clockMs, duration, totalRounds);
      events := events + [SpeakWorkoutComplete, PlayWorkoutComplete];
      Delay(500);
      if cancelled {
        return;
      }
      isFinished := true;
    }

    /** Every round of the plan in turn. */
    method AllRounds(ghost c: TimerConfig)
      requires c == Config() && !cancelled && Resumes(isPaused, userActions)
      modifies this`currentRound
      modifies this`currentExercise, this`currentExerciseName, this`currentExerciseImagePath
      modifies this`nextExerciseName, this`nextExerciseImagePath
      modifies this`phase, this`totalSecondsInPhase, this`secondsRemaining, this`events
      modifies this`clockMs, this`userActions, this`isPaused, this`totalPausedMs, this`pauseStartMs, this`cancelled
      ensures Config() == c
      ensures clockMs >= old(clockMs)
      ensures !cancelled ==> Resumes(isPaused, userActions)
      ensures !cancelled ==> events == old(events) + RoundsCuesUpTo(c, c.rounds)
      ensures Extends(old(events), events, RoundsCuesUpTo(c, c.rounds))
      ensures old(Undisturbed()) ==>
                QuietSince(old(Pause()), old(clockMs), 1000 * RoundsTime(c, c.rounds))
    {
      ghost var parts := RoundSteps(c);
      RunRounds(c, parts);
    }

    /** The timer job up to the last phase: the opening, the start of the
        elapsed time, and the rounds. A cancel during the opening ends the
        job before the start time is taken. */
    method RunPhases(ghost c: TimerConfig)
      requires c == Config() && !cancelled && Resumes(isPaused, userActions)
      modifies this`workoutStartTimeMs
      modifies this`currentRound
      modifies this`currentExercise, this`currentExerciseName, this`currentExerciseImagePath
      modifies this`nextExerciseName, this`nextExerciseImagePath
      modifies this`phase, this`totalSecondsInPhase, this`secondsRemaining, this`events
      modifies this`clockMs, this`userActions, this`isPaused, this`totalPausedMs, this`pauseStartMs, this`cancelled
      ensures Config() == c
      ensures clockMs >= old(clockMs)
      ensures !cancelled ==> old(clockMs) <= workoutStartTimeMs <= clockMs
      ensures workoutStartTimeMs == old(workoutStartTimeMs) || old(clockMs) <= workoutStartTimeMs <= clockMs
      ensures !cancelled ==> Resumes(isPaused, userActions)
      ensures !cancelled ==> events == old(events) + RunCues(c)
      ensures Extends(old(events), events, RunCues(c))
      ensures old(Undisturbed()) ==>
                && workoutStartTimeMs == old(clockMs) + 1000 * OpeningTime(c)
                && QuietSince(old(Pause()), workoutStartTimeMs, 1000 * RoundsTime(c, c.rounds))
    {
      Opening(c);
      if cancelled {
        ExtendsLonger(old(events), events, OpeningCues(c), RunCues(c));
        return;
      }
      workoutStartTimeMs := clockMs;
      AllRounds(c);
      ExtendsThen(old(events), OpeningCues(c), events, RoundsCuesUpTo(c, c.rounds));
    }

    /**
     * `startWorkout`: a new timer job runs the whole plan and, unless it is
     * cancelled first, saves the record of the run and finishes. The record
     * saved, if any, is returned.
     */
    method StartWorkout(ghost c: TimerConfig) returns (ghost saved: Option<WorkoutHistory>)
      requires c == Config() && Resumes(isPaused, userActions)
      modifies this`workoutStartTimeMs, this`history, this`isFinished
      modifies this`currentRound
      modifies this`currentExercise, this`currentExerciseName, this`currentExerciseImagePath
      modifies this`nextExerciseName, this`nextExerciseImagePath
      modifies this`phase, this`totalSecondsInPhase, this`secondsRemaining, this`events
      modifies this`clockMs, this`userActions, this`isPaused, this`totalPausedMs, this`pauseStartMs, this`cancelled
      ensures Config() == c
      ensures clockMs >= old(clockMs)
      ensures saved.None? ==> cancelled && history == old(history) && isFinished == old(isFinished)
      ensures saved.None? ==> Extends(old(events), events, RunCues(c))
      ensures saved.Some? ==> history == old(history) + [saved.value]
      ensures saved.Some? ==> Recorded(saved.value, planId, planName, totalRounds)
      ensures saved.Some? ==> workoutStartTimeMs <= saved.value.completedAt <= clockMs
      ensures saved.Some? ==> (events == old(events) + RunCues(c)
                                 + FinishCues(planName, saved.value.totalDurationSeconds, totalRounds, totalExercises))
      ensures saved.Some? ==> isFinished == (old(isFinished) || !cancelled)
      ensures old(Undisturbed()) ==> saved.Some? && isFinished
      ensures old(Undisturbed()) ==> workoutStartTimeMs == old(clockMs) + 1000 * OpeningTime(c)
      ensures old(Undisturbed()) ==>
                saved.Some? && saved.value.completedAt == workoutStartTimeMs + 1000 * RoundsTime(c, c.rounds)
      ensures old(Undisturbed()) ==> QuietSince(old(Pause()), saved.value.completedAt, 500)
      ensures old(Undisturbed()) ==>
                saved.Some? && saved.value.totalDurationSeconds
                               == TotalDurationSeconds(old(Pause()), workoutStartTimeMs,
                                                       workoutStartTimeMs + 1000 * RoundsTime(c, c.rounds))
    {
      cancelled := false;
      RunPhases(c);
      saved := Conclude();
    }

    /** The end of the timer job: unless it was cancelled, the run finishes. */
    method Conclude() returns (ghost saved: Option<WorkoutHistory>)
      modifies this`history, this`isFinished, this`events
      modifies this`clockMs, this`userActions, this`isPaused, this`totalPausedMs, this`pauseStartMs, this`cancelled
      ensures saved.None? <==> old(cancelled)
      ensures saved.None? ==> history == old(history) && isFinished == old(isFinished) && events == old(events)
      ensures saved.None? ==> clockMs == old(clockMs) && cancelled
      ensures saved.Some? ==> clockMs >= old(clockMs) && history == old(history) + [saved.value]
      ensures saved.Some? ==> saved.value.completedAt == old(clockMs)
      ensures saved.Some? ==>
                saved.value.totalDurationSeconds == old(TotalDurationSeconds(Pause(), workoutStartTimeMs, clockMs))
      ensures saved.Some? ==> Recorded(saved.value, planId, planName, totalRounds)
      ensures saved.Some? ==>
                events == old(events) + FinishCues(planName, saved.value.totalDurationSeconds, totalRounds, totalExercises)
      ensures saved.Some? ==> isFinished == (old(isFinished) || !cancelled)
      ensures old(Undisturbed()) && !old(cancelled) ==> QuietSince(old(Pause()), old(clockMs), 500) && isFinished
    {
      saved := None;
      if !cancelled {
        ghost var h := Finish();
        saved := Some(h);
      }
    }

    /**
     * `load`: the plan is read by id (absent when there is no such plan, in
     * which case loading stops there), its settings are copied, and the
     * mode's exercise list is read with the count per round derived from
     * it. A plan found ends the loading and launches the timer job
     * (`startWorkout`), whose run is StartWorkout; `started` says whether it
     * was launched.
     */
    method Load(id: int, plan: Option<WorkoutPlan>,
                junction: WorkoutExerciseDao.WorkoutExerciseTable, library: seq<Exercise>,
                customs: CustomExerciseDao.CustomExerciseTable) returns (started: bool)
      modifies this`planId, this`planName, this`totalRounds, this`workSeconds, this`restSeconds
      modifies this`prepTimeSeconds, this`workoutMode, this`orderedExercises, this`orderedCustomExercises
      modifies this`totalExercises, this`isLoading
      ensures planId == id
      ensures started == plan.Some?
      ensures !started ==> Config() == old(Config()) && planName == old(planName) && isLoading == old(isLoading)
      ensures started ==> planName == plan.value.name && !isLoading
      ensures started ==> Config() == LoadedConfig(plan.value, old(junction.GetExercisesForWorkout(id, library)),
                                                   old(customs.GetCustomExercisesForWorkout(id)), old(Config()))
    {
      ghost var before := Config();
      ghost var shown := junction.GetExercisesForWorkout(id, library);
      ghost var entries := customs.GetCustomExercisesForWorkout(id);
      planId := id;
      if plan.None? {
        return false;
      }
      var p := plan.value;
      CopySettings(p);
      LoadExercises(id, p, junction, library, customs, before, shown, entries);
      isLoading := false;
      started := true;
    }

    /** The plan's own settings, copied. */
    method CopySettings(p: WorkoutPlan)
      modifies this`planName, this`totalRounds, this`workSeconds, this`restSeconds
      modifies this`prepTimeSeconds, this`workoutMode
      ensures planName == p.name && totalRounds == p.rounds && workSeconds == p.workSeconds
      ensures restSeconds == p.restSeconds && prepTimeSeconds == p.prepTimeSeconds && workoutMode == p.workoutMode
    {
      planName := p.name;
      totalRounds := p.rounds;
      workSeconds := p.workSeconds;
      restSeconds := p.restSeconds;
      prepTimeSeconds := p.prepTimeSeconds;
      workoutMode := p.workoutMode;
    }

    /** The mode's exercise list, read, and the count per round derived from it. */
    method LoadExercises(id: int, p: WorkoutPlan,
                         junction: WorkoutExerciseDao.WorkoutExerciseTable, library: seq<Exercise>,
                         customs: CustomExerciseDao.CustomExerciseTable,
                         ghost before: TimerConfig, ghost shown: seq<Exercise>, ghost entries: seq<CustomExercise>)
      requires shown == junction.GetExercisesForWorkout(id, library)
      requires entries == customs.GetCustomExercisesForWorkout(id)
      requires workoutMode == p.workoutMode && totalRounds == p.rounds && workSeconds == p.workSeconds
      requires restSeconds == p.restSeconds && prepTimeSeconds == p.prepTimeSeconds
      requires orderedExercises == before.library && orderedCustomExercises == before.custom
      modifies this`orderedExercises, this`orderedCustomExercises, this`totalExercises
      ensures Config() == LoadedConfig(p, shown, entries, before)
    {
      match p.workoutMode {
        case LIBRARY =>
          orderedExercises := junction.GetExercisesForWorkout(id, library);
          totalExercises := if |orderedExercises| > 0 then |orderedExercises| else p.exerciseCount;
        case CUSTOM =>
          orderedCustomExercises := customs.GetCustomExercisesForWorkout(id);
          totalExercises := |orderedCustomExercises|;
        case SIMPLE =>
          totalExercises := p.exerciseCount;
          orderedExercises := [];
      }
    }

  }
}
