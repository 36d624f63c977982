/**
 * The `custom_exercises` table and the queries over it: the rows of a plan
 * in position order, their count, deleting a plan's rows, and replacing them
 * with a freshly numbered list.
 */
module CustomExerciseDao {
  import opened Model
  import opened RowOrder
  import opened KotlinCollections

  function OrderIndexOf(x: CustomExercise): int { x.orderIndex }

  /** `WHERE workoutPlanId = p`, in stored order. */
  function ForPlan(rows: seq<CustomExercise>, p: int): (r: seq<CustomExercise>)
    ensures |r| <= |rows|
    ensures forall x :: x in r <==> x in rows && x.workoutPlanId == p
  {
    if |rows| == 0 then []
    else (if rows[0].workoutPlanId == p then [rows[0]] else []) + ForPlan(rows[1..], p)
  }

  /** The rows `DELETE ... WHERE workoutPlanId = p` keeps, in stored order. */
  function OtherPlans(rows: seq<CustomExercise>, p: int): (r: seq<CustomExercise>)
    ensures forall x :: x in r <==> x in rows && x.workoutPlanId != p
  {
    if |rows| == 0 then []
    else (if rows[0].workoutPlanId != p then [rows[0]] else []) + OtherPlans(rows[1..], p)
  }

  /** The list `mapIndexed` builds: entry i moved to plan `p` at position i,
      every other column kept. */
  function Reindexed(p: int, xs: seq<CustomExercise>): (r: seq<CustomExercise>)
    ensures |r| == |xs|
    ensures forall i :: 0 <= i < |xs| ==> r[i] == xs[i].(orderIndex := i, workoutPlanId := p)
  {
    seq(|xs|, i requires 0 <= i < |xs| => xs[i].(orderIndex := i, workoutPlanId := p))
  }

  lemma {:induction false} ForPlanAppend(a: seq<CustomExercise>, b: seq<CustomExercise>, p: int)
    ensures ForPlan(a + b, p) == ForPlan(a, p) + ForPlan(b, p)
  {
    if |a| > 0 {
      assert (a + b)[1..] == a[1..] + b;
      ForPlanAppend(a[1..], b, p);
      AppendRegroup(if a[0].workoutPlanId == p then [a[0]] else [], ForPlan(a[1..], p), ForPlan(b, p));
    } else {
      assert a + b == b;
    }
  }

  lemma {:induction false} ForPlanAll(rows: seq<CustomExercise>, p: int)
    requires forall i :: 0 <= i < |rows| ==> rows[i].workoutPlanId == p
    ensures ForPlan(rows, p) == rows
  {
    if |rows| > 0 {
      ForPlanAll(rows[1..], p);
    }
  }

  lemma {:induction false} ForPlanNone(rows: seq<CustomExercise>, p: int)
    requires forall i :: 0 <= i < |rows| ==> rows[i].workoutPlanId != p
    ensures ForPlan(rows, p) == []
  {
    if |rows| > 0 {
      ForPlanNone(rows[1..], p);
    }
  }

  lemma {:induction false} ForPlanOfOthers(rows: seq<CustomExercise>, p: int, q: int)
    ensures ForPlan(OtherPlans(rows, p), q) == if q == p then [] else ForPlan(rows, q)
  {
    if |rows| > 0 {
      var head := if rows[0].workoutPlanId != p then [rows[0]] else [];
      ForPlanAppend(head, OtherPlans(rows[1..], p), q);
      ForPlanOfOthers(rows[1..], p, q);
    }
  }

  /** The table after `replaceCustomExercisesForWorkout(p, xs)`. */
  function Replaced(rows: seq<CustomExercise>, p: int, xs: seq<CustomExercise>): seq<CustomExercise> {
    OtherPlans(rows, p) + Reindexed(p, xs)
  }

  /** After a replace, plan p's rows are exactly `xs` renumbered 0, 1, ... in
      order, and reading them back in position order returns that list. */
  lemma ReplaceReadBack(rows: seq<CustomExercise>, p: int, xs: seq<CustomExercise>)
    ensures ForPlan(Replaced(rows, p, xs), p) == Reindexed(p, xs)
    ensures OrderBy(ForPlan(Replaced(rows, p, xs), p), OrderIndexOf) == Reindexed(p, xs)
  {
    ForPlanAppend(OtherPlans(rows, p), Reindexed(p, xs), p);
    ForPlanOfOthers(rows, p, p);
    ForPlanAll(Reindexed(p, xs), p);
    OrderByOfSorted(Reindexed(p, xs), OrderIndexOf);
  }

  /** A replace for plan p does not touch the rows of any other plan. */
  lemma ReplaceKeepsOtherPlans(rows: seq<CustomExercise>, p: int, xs: seq<CustomExercise>, q: int)
    requires q != p
    ensures ForPlan(Replaced(rows, p, xs), q) == ForPlan(rows, q)
  {
    ForPlanAppend(OtherPlans(rows, p), Reindexed(p, xs), q);
    ForPlanOfOthers(rows, p, q);
    ForPlanNone(Reindexed(p, xs), q);
  }

  /** Replacing with an empty list leaves plan p without rows. */
  lemma ReplaceWithEmpty(rows: seq<CustomExercise>, p: int)
    ensures ForPlan(Replaced(rows, p, []), p) == []
  {
    ReplaceReadBack(rows, p, []);
  }

  /** The table, with the DAO's operations. */
  class CustomExerciseTable {
    var rows: seq<CustomExercise>

    constructor(initial: seq<CustomExercise>)
      ensures rows == initial
    {
      rows := initial;
    }

    /** `getCustomExercisesForWorkout`: plan p's rows by position. */
    function GetCustomExercisesForWorkout(p: int): (r: seq<CustomExercise>)
      reads this
      ensures multiset(r) == multiset(ForPlan(rows, p))
      ensures SortedBy(r, OrderIndexOf)
    {
      OrderBy(ForPlan(rows, p), OrderIndexOf)
    }

    /** `getCustomExerciseCount`. */
    function GetCustomExerciseCount(p: int): (n: int)
      reads this
      ensures n == |GetCustomExercisesForWorkout(p)|
    {
      |ForPlan(rows, p)|
    }

    /** `insertAll`: the rows are added after the existing ones. */
    method InsertAll(exercises: seq<CustomExercise>)
      modifies this
      ensures rows == old(rows) + exercises
    {
      rows := rows + exercises;
    }

    /** `deleteCustomExercisesForWorkout`. */
    method DeleteCustomExercisesForWorkout(p: int)
      modifies this
      ensures rows == OtherPlans(old(rows), p)
    {
      rows := OtherPlans(rows, p);
    }

    /** `replaceCustomExercisesForWorkout`: delete plan p's rows, then insert
        the renumbered list when it is not empty. */
    method ReplaceCustomExercisesForWorkout(p: int, exercises: seq<CustomExercise>)
      modifies this
      ensures rows == Replaced(old(rows), p, exercises)
      ensures GetCustomExercisesForWorkout(p) == Reindexed(p, exercises)
      ensures GetCustomExerciseCount(p) == |exercises|
      ensures forall q :: q != p ==> ForPlan(rows, q) == ForPlan(old(rows), q)
    {
      DeleteCustomExercisesForWorkout(p);
      if |exercises| > 0 {
        var indexed := Reindexed(p, exercises);
        InsertAll(indexed);
      } else {
        assert rows == rows + Reindexed(p, exercises);
      }
      ReplaceReadBack(old(rows), p, exercises);
      forall q | q != p
        ensures ForPlan(rows, q) == ForPlan(old(rows), q)
      {
        ReplaceKeepsOtherPlans(old(rows), p, exercises, q);
      }
    }
  }
}
