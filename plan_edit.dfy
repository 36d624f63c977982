/**
 * The plan editor's state holder: the plan's settings with their clamps,
 * the LIBRARY selection and the CUSTOM list with their list operations,
 * loading a plan to edit, and saving it.
 *
 * The plan table itself is not modelled: `loadPlan` receives what
 * `getById` found, and `save` receives the id `insert` assigns to a new
 * plan and returns the record it writes. The exercise tables are the
 * junction and custom-exercise tables of their DAO modules.
 */
module PlanEdit {
  import opened Wrappers
  import opened KotlinInt
  import opened KotlinText
  import opened Model
  import WorkoutExerciseDao
  import CustomExerciseDao

  // ---------------------------------------------------------------------
  // The Kotlin list operations the editor uses

  /** `indexOf`: the position of the first `x`, or -1. */
  function IndexOf<T(==)>(s: seq<T>, x: T): (k: int)
    ensures -1 <= k < |s|
    ensures k == -1 <==> x !in s
    ensures k >= 0 ==> s[k] == x && x !in s[..k]
  {
    if |s| == 0 then -1
    else if s[0] == x then 0
    else
      var k := IndexOf(s[1..], x);
      assert s[1..][..if k >= 0 then k else 0] == s[1..1 + if k >= 0 then k else 0];
      if k == -1 then -1 else k + 1
  }

  /** `removeAt(i)`. */
  function RemoveAt<T>(s: seq<T>, i: int): (r: seq<T>)
    requires 0 <= i < |s|
    ensures |r| == |s| - 1
  {
    s[..i] + s[i + 1..]
  }

  /** `add(i, x)`. */
  function InsertAt<T>(s: seq<T>, i: int, x: T): (r: seq<T>)
    requires 0 <= i <= |s|
    ensures |r| == |s| + 1
  {
    s[..i] + [x] + s[i..]
  }

  /** `list - x`: the list without the first occurrence of `x`. */
  function RemoveFirst<T(==)>(s: seq<T>, x: T): seq<T> {
    var k := IndexOf(s, x);
    if k < 0 then s else RemoveAt(s, k)
  }

  /** The reorder of `reorderExercises`: `removeAt(from)`, then `add(to, item)`. */
  function Moved<T>(s: seq<T>, from: int, to: int): seq<T>
    requires 0 <= from < |s| && 0 <= to < |s|
  {
    InsertAt(RemoveAt(s, from), to, s[from])
  }

  predicate Distinct<T(==)>(s: seq<T>) {
    forall i, j :: 0 <= i < j < |s| ==> s[i] != s[j]
  }

  /** Removing `x` drops its first occurrence and keeps every other element
      in order. */
  lemma RemoveFirstRemoves<T>(s: seq<T>, x: T)
    ensures x !in s ==> RemoveFirst(s, x) == s
    ensures x in s ==> multiset(RemoveFirst(s, x)) == multiset(s) - multiset{x}
    ensures x in s ==> RemoveFirst(s, x) == s[..IndexOf(s, x)] + s[IndexOf(s, x) + 1..]
  {
    var k := IndexOf(s, x);
    if k >= 0 {
      MultisetOfRemoveAt(s, k);
    }
  }

  /** From a list without duplicates, removing `x` leaves no `x` and no duplicate. */
  lemma RemoveFirstOfDistinct<T>(s: seq<T>, x: T)
    requires Distinct(s)
    ensures x !in RemoveFirst(s, x) && Distinct(RemoveFirst(s, x))
  {
    var k := IndexOf(s, x);
    if k >= 0 {
      var r := RemoveAt(s, k);
      assert forall i :: 0 <= i < |r| ==> r[i] == s[if i < k then i else i + 1];
    }
  }

  lemma MultisetOfRemoveAt<T>(s: seq<T>, i: int)
    requires 0 <= i < |s|
    ensures multiset(RemoveAt(s, i)) == multiset(s) - multiset{s[i]}
  {
    assert s == s[..i] + [s[i]] + s[i + 1..];
  }

  /**
   * A reorder is a permutation that puts the moved item at `to`; taking it
   * out again leaves the other items exactly as they were, in order.
   */
  lemma MovedIsPermutation<T>(s: seq<T>, from: int, to: int)
    requires 0 <= from < |s| && 0 <= to < |s|
    ensures |Moved(s, from, to)| == |s|
    ensures Moved(s, from, to)[to] == s[from]
    ensures multiset(Moved(s, from, to)) == multiset(s)
    ensures RemoveAt(Moved(s, from, to), to) == RemoveAt(s, from)
  {
    MultisetOfRemoveAt(s, from);
    InsertAtThenRemove(RemoveAt(s, from), to, s[from]);
  }

  lemma InsertAtThenRemove<T>(t: seq<T>, i: int, x: T)
    requires 0 <= i <= |t|
    ensures InsertAt(t, i, x)[i] == x
    ensures multiset(InsertAt(t, i, x)) == multiset(t) + multiset{x}
    ensures RemoveAt(InsertAt(t, i, x), i) == t
  {
    var r := InsertAt(t, i, x);
    assert t == t[..i] + t[i..];
    assert r[..i] == t[..i];
    assert r[i + 1..] == t[i..];
  }

  // ---------------------------------------------------------------------
  // Saving

  /** The save button's and `save`'s check: a non-blank name, and an
      exercise list for the modes that need one. */
  predicate CanSave(mode: WorkoutMode, name: string, selected: seq<Exercise>, custom: seq<CustomExercise>) {
    match mode
    case SIMPLE => !IsBlank(name)
    case LIBRARY => !IsBlank(name) && |selected| > 0
    case CUSTOM => !IsBlank(name) && |custom| > 0
  }

  /** The number of exercises a saved plan records, by mode. */
  function SavedExerciseCount(mode: WorkoutMode, exerciseCount: int, selected: seq<Exercise>,
                              custom: seq<CustomExercise>): int {
    match mode
    case SIMPLE => exerciseCount
    case LIBRARY => |selected|
    case CUSTOM => |custom|
  }

  /** A custom entry for position `size` of the list; the plan id is filled
      in when the plan is saved. */
  function NewCustomEntry(name: string, durationSeconds: int, size: int, imagePath: Option<string>,
                          libraryId: Option<int>): CustomExercise {
    CustomExercise(0, 0, name, durationSeconds, size, imagePath, libraryId.Some?, libraryId)
  }

  /** A stored plan whose settings lie in the ranges the editor's clamps allow. */
  predicate WithinClamps(p: WorkoutPlan) {
    p.rounds >= 1 && p.exerciseCount >= 1 && p.workSeconds >= 1 && p.restSeconds >= 0 && p.prepTimeSeconds >= 0
  }

  class PlanEditViewModel {
    var planName: string
    var rounds: int
    var exerciseCount: int
    var workSeconds: int
    var restSeconds: int
    var prepTimeSeconds: int
    var workoutMode: WorkoutMode
    var selectedExercises: seq<Exercise>
    var customExercises: seq<CustomExercise>
    var isEditing: bool
    var editingPlanId: int
    var isSaved: bool

    /** What every update keeps: the settings lie in the ranges the editor's
        clamps allow, and the selection has no duplicates. A plan saved from
        such a state lies within the clamps as well. */
    predicate Valid()
      reads this`rounds, this`exerciseCount, this`workSeconds, this`restSeconds, this`prepTimeSeconds,
            this`selectedExercises
    {
      rounds >= 1 && exerciseCount >= 1 && workSeconds >= 1 && restSeconds >= 0 && prepTimeSeconds >= 0
      && Distinct(selectedExercises)
    }

    constructor()
      ensures Valid()
      ensures planName == "" && rounds == 3 && exerciseCount == 5 && workSeconds == 30
      ensures restSeconds == 10 && prepTimeSeconds == 30 && workoutMode == SIMPLE
      ensures selectedExercises == [] && customExercises == []
      ensures !isEditing && editingPlanId == -1 && !isSaved
    {
      planName := "";
      rounds := 3;
      exerciseCount := 5;
      workSeconds := 30;
      restSeconds := 10;
      prepTimeSeconds := 30;
      workoutMode := SIMPLE;
      selectedExercises := [];
      customExercises := [];
      isEditing := false;
      editingPlanId := -1;
      isSaved := false;
    }

    /**
     * `loadPlan`: for a positive id whose plan exists, the editor takes the
     * plan's settings and, by mode, its library selection or its custom
     * list as the tables return them; otherwise nothing changes.
     */
    method LoadPlan(planId: int, plan: Option<WorkoutPlan>, junction: WorkoutExerciseDao.WorkoutExerciseTable,
                    library: seq<Exercise>, customs: CustomExerciseDao.CustomExerciseTable)
      modifies this`editingPlanId, this`isEditing, this`planName, this`rounds, this`exerciseCount,
               this`workSeconds, this`restSeconds, this`prepTimeSeconds, this`workoutMode,
               this`selectedExercises, this`customExercises
      ensures planId <= 0 || plan.None? ==> (editingPlanId == old(editingPlanId) && isEditing == old(isEditing)
        && planName == old(planName) && rounds == old(rounds) && exerciseCount == old(exerciseCount)
        && workSeconds == old(workSeconds) && restSeconds == old(restSeconds)
        && prepTimeSeconds == old(prepTimeSeconds) && workoutMode == old(workoutMode)
        && selectedExercises == old(selectedExercises) && customExercises == old(customExercises))
      ensures planId > 0 && plan.Some? ==> (editingPlanId == planId && isEditing
        && planName == plan.value.name && rounds == plan.value.rounds
        && exerciseCount == plan.value.exerciseCount && workSeconds == plan.value.workSeconds
        && restSeconds == plan.value.restSeconds && prepTimeSeconds == plan.value.prepTimeSeconds
        && workoutMode == plan.value.workoutMode)
      ensures planId > 0 && plan.Some? ==> (selectedExercises ==
        if plan.value.workoutMode == LIBRARY then junction.GetExercisesForWorkout(planId, library)
        else old(selectedExercises))
      ensures planId > 0 && plan.Some? ==> (customExercises ==
        if plan.value.workoutMode == CUSTOM then customs.GetCustomExercisesForWorkout(planId)
        else old(customExercises))
      ensures planId <= 0 || plan.None? ==> (old(Valid()) ==> Valid())
      ensures planId > 0 && plan.Some? && WithinClamps(plan.value) && Distinct(selectedExercises) ==> Valid()
    {
      if planId <= 0 {
        return;
      }
      if plan.None? {
        return;
      }
      var p := plan.value;
      editingPlanId := planId;
      isEditing := true;
      planName := p.name;
      rounds := p.rounds;
      exerciseCount := p.exerciseCount;
      workSeconds := p.workSeconds;
      restSeconds := p.restSeconds;
      prepTimeSeconds := p.prepTimeSeconds;
      workoutMode := p.workoutMode;
      match p.workoutMode
      case LIBRARY =>
        selectedExercises := junction.GetExercisesForWorkout(planId, library);
      case CUSTOM =>
        customExercises := customs.GetCustomExercisesForWorkout(planId);
      case SIMPLE =>
    }

    method UpdatePlanName(name: string)
      modifies this`planName
      ensures planName == name
    {
      planName := name;
    }

    /** `updateRounds`: at least 1. */
    method UpdateRounds(r: int)
      modifies this`rounds
      ensures rounds == CoerceAtLeast(r, 1)
      ensures old(Valid()) ==> Valid()
    {
      rounds := CoerceAtLeast(r, 1);
    }

    /** `updateExerciseCount`: at least 1. */
    method UpdateExerciseCount(c: int)
      modifies this`exerciseCount
      ensures exerciseCount == CoerceAtLeast(c, 1)
      ensures old(Valid()) ==> Valid()
    {
      exerciseCount := CoerceAtLeast(c, 1);
    }

    /** `updateWorkSeconds`: at least 1. */
    method UpdateWorkSeconds(s: int)
      modifies this`workSeconds
      ensures workSeconds == CoerceAtLeast(s, 1)
      ensures old(Valid()) ==> Valid()
    {
      workSeconds := CoerceAtLeast(s, 1);
    }

    /** `updateRestSeconds`: at least 0. */
    method UpdateRestSeconds(s: int)
      modifies this`restSeconds
      ensures restSeconds == CoerceAtLeast(s, 0)
      ensures old(Valid()) ==> Valid()
    {
      restSeconds := CoerceAtLeast(s, 0);
    }

    /** `updatePrepTimeSeconds`: at least 0. */
    method UpdatePrepTimeSeconds(s: int)
      modifies this`prepTimeSeconds
      ensures prepTimeSeconds == CoerceAtLeast(s, 0)
      ensures old(Valid()) ==> Valid()
    {
      prepTimeSeconds := CoerceAtLeast(s, 0);
    }

    method UpdateWorkoutMode(mode: WorkoutMode)
      modifies this`workoutMode
      ensures workoutMode == mode
    {
      workoutMode := mode;
    }

    /** `addExercise`: appends an exercise not yet selected; selecting it
        again changes nothing, so the selection never holds a duplicate. */
    method AddExercise(exercise: Exercise)
      modifies this`selectedExercises
      ensures exercise in selectedExercises
      ensures old(Valid()) ==> Valid()
      ensures exercise in old(selectedExercises) ==> selectedExercises == old(selectedExercises)
      ensures exercise !in old(selectedExercises) ==> selectedExercises == old(selectedExercises) + [exercise]
    {
      if exercise !in selectedExercises {
        selectedExercises := selectedExercises + [exercise];
      }
    }

    /** `removeExercise`: the exercise leaves the selection, the others stay in order. */
    method RemoveExercise(exercise: Exercise)
      modifies this`selectedExercises
      ensures selectedExercises == RemoveFirst(old(selectedExercises), exercise)
      ensures old(Distinct(selectedExercises)) ==> exercise !in selectedExercises
      ensures old(Valid()) ==> Valid()
    {
      if Distinct(selectedExercises) {
        RemoveFirstOfDistinct(selectedExercises, exercise);
      }
      selectedExercises := RemoveFirst(selectedExercises, exercise);
    }

    /** `reorderExercises`: both positions must be valid, as `removeAt` and
        `add` demand. */
    method ReorderExercises(from: int, to: int)
      requires 0 <= from < |selectedExercises| && 0 <= to < |selectedExercises|
      modifies this`selectedExercises
      ensures selectedExercises == Moved(old(selectedExercises), from, to)
      ensures old(Valid()) ==> Valid()
    {
      MovedIsPermutation(selectedExercises, from, to);
      if Distinct(selectedExercises) {
        DistinctOfPermutation(selectedExercises, Moved(selectedExercises, from, to));
      }
      selectedExercises := Moved(selectedExercises, from, to);
    }

    /** `addCustomExerciseFromLibrary`: a library exercise at its own duration,
        at the end of the list. */
    method AddCustomExerciseFromLibrary(exercise: Exercise, durationSeconds: int)
      modifies this`customExercises
      ensures customExercises == old(customExercises)
        + [NewCustomEntry(exercise.name, durationSeconds, old(|customExercises|), Some(exercise.imagePath), Some(exercise.id))]
    {
      var entry := NewCustomEntry(exercise.name, durationSeconds, |customExercises|, Some(exercise.imagePath), Some(exercise.id));
      customExercises := customExercises + [entry];
    }

    /** `addCustomExercise`: a user-defined exercise at the end of the list. */
    method AddCustomExercise(name: string, durationSeconds: int, imagePath: Option<string>)
      modifies this`customExercises
      ensures customExercises == old(customExercises)
        + [NewCustomEntry(name, durationSeconds, old(|customExercises|), imagePath, None)]
    {
      var entry := NewCustomEntry(name, durationSeconds, |customExercises|, imagePath, None);
      customExercises := customExercises + [entry];
    }

    /** `removeCustomExercise`. */
    method RemoveCustomExercise(entry: CustomExercise)
      modifies this`customExercises
      ensures customExercises == RemoveFirst(old(customExercises), entry)
    {
      customExercises := RemoveFirst(customExercises, entry);
    }

    /** `updateCustomExerciseDuration`: only the duration of the entry at a
        valid index changes. */
    method UpdateCustomExerciseDuration(index: int, newDuration: int)
      modifies this`customExercises
      ensures !(0 <= index < old(|customExercises|)) ==> customExercises == old(customExercises)
      ensures 0 <= index < old(|customExercises|) ==>
        customExercises == old(customExercises)[index := old(customExercises)[index].(durationSeconds := newDuration)]
    {
      if 0 <= index < |customExercises| {
        var updated := customExercises[index].(durationSeconds := newDuration);
        customExercises := customExercises[index := updated];
      }
    }

    /** `reorderCustomExercises`. */
    method ReorderCustomExercises(from: int, to: int)
      requires 0 <= from < |customExercises| && 0 <= to < |customExercises|
      modifies this`customExercises
      ensures customExercises == Moved(old(customExercises), from, to)
    {
      customExercises := Moved(customExercises, from, to);
    }

    /** The record `save` writes. */
    function PlanToSave(): WorkoutPlan
      reads this`isEditing, this`editingPlanId, this`planName, this`rounds, this`exerciseCount,
            this`workSeconds, this`restSeconds, this`prepTimeSeconds, this`workoutMode,
            this`selectedExercises, this`customExercises
    {
      WorkoutPlan(if isEditing then editingPlanId else 0, Trim(planName), rounds,
                  SavedExerciseCount(workoutMode, exerciseCount, selectedExercises, customExercises),
                  workSeconds, restSeconds, prepTimeSeconds, workoutMode,
                  |selectedExercises| > 0 || |customExercises| > 0)
    }

    /**
     * `save`: when the check passes, the plan record (named by its trimmed
     * name) is written, under the edited plan's id or the id the insert
     * assigns, and the mode's exercise list replaces that plan's rows in
     * its table; then the editor is saved. When the check fails nothing is
     * written.
     */
    method Save(insertedId: int, junction: WorkoutExerciseDao.WorkoutExerciseTable,
                customs: CustomExerciseDao.CustomExerciseTable) returns (saved: Option<(int, WorkoutPlan)>)
      modifies this`isSaved, junction, customs
      ensures saved.Some? <==> CanSave(workoutMode, planName, selectedExercises, customExercises)
      ensures saved.None? ==> (isSaved == old(isSaved) && junction.rows == old(junction.rows)
        && customs.rows == old(customs.rows))
      ensures saved.Some? ==> (isSaved && saved.value.1 == PlanToSave()
        && saved.value.0 == (if isEditing then editingPlanId else insertedId))
      ensures saved.Some? && Valid() ==> WithinClamps(saved.value.1)
      ensures saved.Some? ==> (junction.rows ==
        if workoutMode == LIBRARY then WorkoutExerciseDao.Replaced(old(junction.rows), saved.value.0, selectedExercises)
        else old(junction.rows))
      ensures saved.Some? ==> (customs.rows ==
        if workoutMode == CUSTOM then CustomExerciseDao.Replaced(old(customs.rows), saved.value.0, customExercises)
        else old(customs.rows))
    {
      if !CanSave(workoutMode, planName, selectedExercises, customExercises) {
        return None;
      }
      var plan := PlanToSave();
      var planId := if isEditing then editingPlanId else insertedId;
      match workoutMode {
        case LIBRARY =>
          if |selectedExercises| > 0 {
            junction.ReplaceExercisesForWorkout(planId, selectedExercises);
          }
        case CUSTOM =>
          if |customExercises| > 0 {
            customs.ReplaceCustomExercisesForWorkout(planId, customExercises);
          }
        case SIMPLE =>
      }
      isSaved := true;
      saved := Some((planId, plan));
    }
  }

  /** A permutation of a list without duplicates has none either. */
  lemma DistinctOfPermutation<T>(s: seq<T>, r: seq<T>)
    requires Distinct(s) && multiset(r) == multiset(s)
    ensures Distinct(r)
  {
    forall i, j | 0 <= i < j < |r|
      ensures r[i] != r[j]
    {
      if r[i] == r[j] {
        var x := r[i];
        assert r == r[..i] + [x] + r[i + 1..j] + [x] + r[j + 1..];
        assert multiset(r)[x] >= 2;
        DistinctCount(s, x);
        assert false;
      }
    }
  }

  lemma {:induction false} DistinctCount<T>(s: seq<T>, x: T)
    requires Distinct(s)
    ensures multiset(s)[x] <= 1
  {
    if |s| > 0 {
      assert s == [s[0]] + s[1..];
      assert Distinct(s[1..]) by {
        forall i, j | 0 <= i < j < |s[1..]| ensures s[1..][i] != s[1..][j] {
          assert s[1..][i] == s[i + 1] && s[1..][j] == s[j + 1];
        }
      }
      DistinctCount(s[1..], x);
      if s[0] == x {
        assert x !in s[1..];
      }
    }
  }
}
