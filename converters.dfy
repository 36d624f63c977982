/** The database type converter between `WorkoutMode` and its stored text. */
module Converters {
  import opened Model

  /** `fromWorkoutMode`: the constant's name. */
  function FromWorkoutMode(mode: WorkoutMode): (name: string)
    ensures name in {"SIMPLE", "LIBRARY", "CUSTOM"}
  {
    match mode
    case SIMPLE => "SIMPLE"
    case LIBRARY => "LIBRARY"
    case CUSTOM => "CUSTOM"
  }

  /** `toWorkoutMode`: the constant with that exact name; any other text
      (the lookup fails) falls back to SIMPLE. Defined for every string. */
  function ToWorkoutMode(value: string): (mode: WorkoutMode)
    ensures mode != SIMPLE ==> FromWorkoutMode(mode) == value
  {
    if value == "LIBRARY" then LIBRARY
    else if value == "CUSTOM" then CUSTOM
    else SIMPLE
  }

  /** Storing a mode and reading it back gives the same mode. */
  lemma RoundTrip(mode: WorkoutMode)
    ensures ToWorkoutMode(FromWorkoutMode(mode)) == mode
  {
  }

  /** Distinct modes are stored as distinct text. */
  lemma FromWorkoutModeInjective(a: WorkoutMode, b: WorkoutMode)
    requires FromWorkoutMode(a) == FromWorkoutMode(b)
    ensures a == b
  {
  }

  /** Text that is not exactly a constant's name reads back as SIMPLE; the
      lookup is case-sensitive, so "library" is such text. */
  lemma UnknownNameIsSimple(value: string)
    requires forall m: WorkoutMode :: FromWorkoutMode(m) != value
    ensures ToWorkoutMode(value) == SIMPLE
  {
    assert FromWorkoutMode(LIBRARY) != value;
    assert FromWorkoutMode(CUSTOM) != value;
  }

  lemma LowerCaseNameIsSimple()
    ensures ToWorkoutMode("library") == SIMPLE
  {
  }
}
