/**
 * The records the application stores and passes around (the Room entities
 * and the aggregate rows), as values. Ids are `int` (Kotlin `Long`), nullable
 * columns are `Option`s. `Exercise.caloriesPerMin` (a `Double`) is not kept.
 */
module Model {
  import opened Wrappers

  /** How a plan's exercises are chosen. */
  datatype WorkoutMode = SIMPLE | LIBRARY | CUSTOM

  /** A saved interval plan, with every column the timer and the editor use. */
  datatype WorkoutPlan = WorkoutPlan(
    id: int,
    name: string,
    rounds: int,
    exerciseCount: int,
    workSeconds: int,
    restSeconds: int,
    prepTimeSeconds: int,
    workoutMode: WorkoutMode,
    hasExercises: bool)

  /** An exercise of the bundled library. */
  datatype Exercise = Exercise(
    id: int,
    name: string,
    category: string,
    subcategory: string,
    imagePath: string,
    durationMin: int,
    durationMax: int,
    intensity: string,
    targetMuscles: string,
    equipment: string,
    description: string,
    tier: string)

  /** A new library exercise as the asset scan creates it: every other column
      takes its default. */
  function NewExercise(name: string, category: string, subcategory: string, imagePath: string): Exercise {
    Exercise(0, name, category, subcategory, imagePath, 0, 0, "MEDIUM", "", "", "", "")
  }

  /** One timed entry of a CUSTOM plan. */
  datatype CustomExercise = CustomExercise(
    id: int,
    workoutPlanId: int,
    name: string,
    durationSeconds: int,
    orderIndex: int,
    imagePath: Option<string>,
    isFromLibrary: bool,
    libraryExerciseId: Option<int>)

  /** A junction row placing a library exercise at a position of a plan; the
      key is (plan, position), so one exercise may appear several times. */
  datatype WorkoutExercise = WorkoutExercise(workoutPlanId: int, exerciseId: int, orderIndex: int)

  /** A completed workout. */
  datatype WorkoutHistory = WorkoutHistory(
    id: int,
    planId: Option<int>,
    planName: string,
    completedAt: int,
    totalDurationSeconds: int,
    roundsCompleted: int)

  /** Per-plan totals of a month, as the e-mail summary lists them. */
  datatype WorkoutBreakdown = WorkoutBreakdown(planName: string, count: int, totalSeconds: int)

  /** The totals of one month, with the rounds column the e-mail reads. */
  datatype MonthlyStats = MonthlyStats(yearMonth: string, count: int, totalRounds: int, totalSeconds: int)

  /** The totals of one year, with the rounds column the e-mail reads. */
  datatype YearlyStats = YearlyStats(year: string, count: int, totalRounds: int, totalSeconds: int, activeDays: int)
}
