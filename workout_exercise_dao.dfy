/**
 * The `workout_exercises` junction table that places library exercises at
 * the positions of a LIBRARY plan, with the read (a join with the exercise
 * table ordered by position), the delete and the replace.
 */
module WorkoutExerciseDao {
  import opened Model
  import opened RowOrder
  import opened KotlinCollections

  function OrderIndexOf(x: WorkoutExercise): int { x.orderIndex }

  /** `WHERE workoutPlanId = p`, in stored order. */
  function ForPlan(rows: seq<WorkoutExercise>, p: int): (r: seq<WorkoutExercise>)
    ensures forall x :: x in r <==> x in rows && x.workoutPlanId == p
  {
    if |rows| == 0 then []
    else (if rows[0].workoutPlanId == p then [rows[0]] else []) + ForPlan(rows[1..], p)
  }

  /** The rows `deleteExercisesForWorkout(p)` keeps, in stored order. */
  function OtherPlans(rows: seq<WorkoutExercise>, p: int): (r: seq<WorkoutExercise>)
    ensures forall x :: x in r <==> x in rows && x.workoutPlanId != p
  {
    if |rows| == 0 then []
    else (if rows[0].workoutPlanId != p then [rows[0]] else []) + OtherPlans(rows[1..], p)
  }

  /** The junction rows `mapIndexed` builds for plan p. */
  function JunctionRows(p: int, exercises: seq<Exercise>): (r: seq<WorkoutExercise>)
    ensures |r| == |exercises|
    ensures forall i :: 0 <= i < |exercises| ==> r[i] == WorkoutExercise(p, exercises[i].id, i)
  {
    seq(|exercises|, i requires 0 <= i < |exercises| => WorkoutExercise(p, exercises[i].id, i))
  }

  /** `INNER JOIN exercises e ON e.id = we.exerciseId`, row by row: each
      junction row contributes the exercises with its id. */
  function WithId(library: seq<Exercise>, id: int): (r: seq<Exercise>)
    ensures forall e :: e in r <==> e in library && e.id == id
  {
    if |library| == 0 then []
    else (if library[0].id == id then [library[0]] else []) + WithId(library[1..], id)
  }

  function Joined(junction: seq<WorkoutExercise>, library: seq<Exercise>): seq<Exercise> {
    if |junction| == 0 then []
    else WithId(library, junction[0].exerciseId) + Joined(junction[1..], library)
  }

  /** The table after `replaceExercisesForWorkout(p, exercises)`. */
  function Replaced(rows: seq<WorkoutExercise>, p: int, exercises: seq<Exercise>): seq<WorkoutExercise> {
    OtherPlans(rows, p) + JunctionRows(p, exercises)
  }

  /** Exercise ids are the table's primary key. */
  predicate UniqueIds(library: seq<Exercise>) {
    forall i, j :: 0 <= i < j < |library| ==> library[i].id != library[j].id
  }

  lemma {:induction false} ForPlanAppend(a: seq<WorkoutExercise>, b: seq<WorkoutExercise>, p: int)
    ensures ForPlan(a + b, p) == ForPlan(a, p) + ForPlan(b, p)
  {
    if |a| > 0 {
      assert (a + b)[1..] == a[1..] + b;
      ForPlanAppend(a[1..], b, p);
      AppendRegroup(if a[0].workoutPlanId == p then [a[0]] else [], ForPlan(a[1..], p), ForPlan(b, p));
    } else {
      assert a + b == b;
    }
  }

  lemma {:induction false} ForPlanOfOthers(rows: seq<WorkoutExercise>, p: int, q: int)
    ensures ForPlan(OtherPlans(rows, p), q) == if q == p then [] else ForPlan(rows, q)
  {
    if |rows| > 0 {
      var head := if rows[0].workoutPlanId != p then [rows[0]] else [];
      ForPlanAppend(head, OtherPlans(rows[1..], p), q);
      ForPlanOfOthers(rows[1..], p, q);
    }
  }

  lemma {:induction false} ForPlanAll(rows: seq<WorkoutExercise>, p: int)
    requires forall i :: 0 <= i < |rows| ==> rows[i].workoutPlanId == p
    ensures ForPlan(rows, p) == rows
  {
    if |rows| > 0 {
      ForPlanAll(rows[1..], p);
    }
  }

  lemma {:induction false} ForPlanNone(rows: seq<WorkoutExercise>, p: int)
    requires forall i :: 0 <= i < |rows| ==> rows[i].workoutPlanId != p
    ensures ForPlan(rows, p) == []
  {
    if |rows| > 0 {
      ForPlanNone(rows[1..], p);
    }
  }

  /** With unique ids, the only exercise with the id of a stored exercise is
      that exercise. */
  lemma {:induction false} WithIdOfMember(library: seq<Exercise>, e: Exercise)
    requires UniqueIds(library) && e in library
    ensures WithId(library, e.id) == [e]
  {
    if library[0] == e {
      WithIdAbsent(library[1..], e.id);
    } else {
      WithIdOfMember(library[1..], e);
    }
  }

  lemma {:induction false} WithIdAbsent(library: seq<Exercise>, id: int)
    requires forall i :: 0 <= i < |library| ==> library[i].id != id
    ensures WithId(library, id) == []
  {
    if |library| > 0 {
      WithIdAbsent(library[1..], id);
    }
  }

  lemma {:induction false} JoinedOfJunctionRows(p: int, exercises: seq<Exercise>, library: seq<Exercise>)
    requires UniqueIds(library)
    requires forall i :: 0 <= i < |exercises| ==> exercises[i] in library
    ensures Joined(JunctionRows(p, exercises), library) == exercises
    decreases |exercises|
  {
    if |exercises| > 0 {
      var rows := JunctionRows(p, exercises);
      assert rows[0].exerciseId == exercises[0].id;
      WithIdOfMember(library, exercises[0]);
      JoinedShift(p, exercises, library);
      JoinedOfJunctionRows(p, exercises[1..], library);
      assert Joined(rows, library) == [exercises[0]] + exercises[1..];
    }
  }

  /** The join reads only the exercise id of each row, not its position. */
  lemma JoinedShift(p: int, exercises: seq<Exercise>, library: seq<Exercise>)
    requires |exercises| > 0
    ensures Joined(JunctionRows(p, exercises)[1..], library) == Joined(JunctionRows(p, exercises[1..]), library)
  {
    SameIdsJoin(JunctionRows(p, exercises)[1..], JunctionRows(p, exercises[1..]), library);
  }

  lemma {:induction false} SameIdsJoin(a: seq<WorkoutExercise>, b: seq<WorkoutExercise>, library: seq<Exercise>)
    requires |a| == |b|
    requires forall i :: 0 <= i < |a| ==> a[i].exerciseId == b[i].exerciseId
    ensures Joined(a, library) == Joined(b, library)
  {
    if |a| > 0 {
      SameIdsJoin(a[1..], b[1..], library);
    }
  }

  /** After a replace, plan p's junction rows are exactly (p, es[i].id, i),
      and reading the plan back returns the exercises in the given order,
      repeats included, as long as each of them is stored. */
  lemma ReplaceReadBack(rows: seq<WorkoutExercise>, p: int, exercises: seq<Exercise>, library: seq<Exercise>)
    requires UniqueIds(library)
    requires forall i :: 0 <= i < |exercises| ==> exercises[i] in library
    ensures ForPlan(Replaced(rows, p, exercises), p) == JunctionRows(p, exercises)
    ensures Joined(OrderBy(ForPlan(Replaced(rows, p, exercises), p), OrderIndexOf), library) == exercises
  {
    ForPlanAppend(OtherPlans(rows, p), JunctionRows(p, exercises), p);
    ForPlanOfOthers(rows, p, p);
    ForPlanAll(JunctionRows(p, exercises), p);
    OrderByOfSorted(JunctionRows(p, exercises), OrderIndexOf);
    JoinedOfJunctionRows(p, exercises, library);
  }

  /** A replace for plan p does not touch the junction rows of other plans. */
  lemma ReplaceKeepsOtherPlans(rows: seq<WorkoutExercise>, p: int, exercises: seq<Exercise>, q: int)
    requires q != p
    ensures ForPlan(Replaced(rows, p, exercises), q) == ForPlan(rows, q)
  {
    ForPlanAppend(OtherPlans(rows, p), JunctionRows(p, exercises), q);
    ForPlanOfOthers(rows, p, q);
    ForPlanNone(JunctionRows(p, exercises), q);
  }

  /** The same exercise may fill several positions of one plan: the key is
      (plan, position), not the exercise. */
  lemma RepeatedExerciseKept(p: int, e: Exercise)
    ensures ForPlan(Replaced([], p, [e, e]), p) == [WorkoutExercise(p, e.id, 0), WorkoutExercise(p, e.id, 1)]
  {
    ForPlanAll(JunctionRows(p, [e, e]), p);
    assert Replaced([], p, [e, e]) == JunctionRows(p, [e, e]);
  }

  /** The junction table, with the DAO's operations. */
  class WorkoutExerciseTable {
    var rows: seq<WorkoutExercise>

    constructor(initial: seq<WorkoutExercise>)
      ensures rows == initial
    {
      rows := initial;
    }

    /** `getExercisesForWorkout`: plan p's junction rows by position, joined
        with the exercise table. */
    function GetExercisesForWorkout(p: int, library: seq<Exercise>): (r: seq<Exercise>)
      reads this
      ensures forall e :: e in r ==> e in library
    {
      JoinedInLibrary(OrderBy(ForPlan(rows, p), OrderIndexOf), library);
      Joined(OrderBy(ForPlan(rows, p), OrderIndexOf), library)
    }

    /** `insertWorkoutExercises`: the rows are added after the existing ones. */
    method InsertWorkoutExercises(junction: seq<WorkoutExercise>)
      modifies this
      ensures rows == old(rows) + junction
    {
      rows := rows + junction;
    }

    /** `deleteExercisesForWorkout`. */
    method DeleteExercisesForWorkout(p: int)
      modifies this
      ensures rows == OtherPlans(old(rows), p)
    {
      rows := OtherPlans(rows, p);
    }

    /** `replaceExercisesForWorkout`. */
    method ReplaceExercisesForWorkout(p: int, exercises: seq<Exercise>)
      modifies this
      ensures rows == Replaced(old(rows), p, exercises)
      ensures ForPlan(rows, p) == JunctionRows(p, exercises)
      ensures forall q :: q != p ==> ForPlan(rows, q) == ForPlan(old(rows), q)
    {
      DeleteExercisesForWorkout(p);
      var workoutExercises := JunctionRows(p, exercises);
      InsertWorkoutExercises(workoutExercises);
      ForPlanAppend(OtherPlans(old(rows), p), JunctionRows(p, exercises), p);
      ForPlanOfOthers(old(rows), p, p);
      ForPlanAll(JunctionRows(p, exercises), p);
      forall q | q != p
        ensures ForPlan(rows, q) == ForPlan(old(rows), q)
      {
        ReplaceKeepsOtherPlans(old(rows), p, exercises, q);
      }
    }
  }

  lemma {:induction false} JoinedInLibrary(junction: seq<WorkoutExercise>, library: seq<Exercise>)
    ensures forall e :: e in Joined(junction, library) ==> e in library
  {
    if |junction| > 0 {
      JoinedInLibrary(junction[1..], library);
    }
  }
}
