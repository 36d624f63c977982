/**
 * The exercise list of one subcategory, with its own search box: the
 * filter it applies and the search bar's open/close state.
 */
module ExerciseListScreen {
  import opened KotlinText
  import opened KotlinCollections
  import opened Model

  /** The list's search matches the query, ignoring case, in the name,
      target muscles or equipment. */
  predicate MatchesListSearch(query: string, e: Exercise) {
    || ContainsIgnoreCase(e.name, query)
    || ContainsIgnoreCase(e.targetMuscles, query)
    || ContainsIgnoreCase(e.equipment, query)
  }

  /** `filteredExercises`: the whole list for a blank query, otherwise the
      matching exercises in list order. */
  function FilteredExercises(exercises: seq<Exercise>, query: string): (r: seq<Exercise>)
    ensures IsBlank(query) ==> r == exercises
    ensures IsSubsequence(r, exercises)
    ensures !IsBlank(query) ==> forall e :: e in r <==> e in exercises && MatchesListSearch(query, e)
  {
    if IsBlank(query) then
      SubsequenceReflexive(exercises);
      exercises
    else Filter(exercises, e => MatchesListSearch(query, e))
  }

  /** The empty query matches every exercise, so filtering by it keeps the
      list even without the blank shortcut. */
  lemma EmptyQueryMatchesAll(exercises: seq<Exercise>)
    ensures Filter(exercises, e => MatchesListSearch("", e)) == exercises
  {
    forall e | e in exercises
      ensures MatchesListSearch("", e)
    {
      ContainsEmpty(e.name);
    }
    FilterAll(exercises, e => MatchesListSearch("", e));
  }

  class ExerciseListState {
    var searchQuery: string
    var isSearching: bool

    constructor()
      ensures searchQuery == "" && !isSearching
    {
      searchQuery := "";
      isSearching := false;
    }

    /** The search icon. */
    method OpenSearch()
      modifies this`isSearching
      ensures isSearching
    {
      isSearching := true;
    }

    /** Typing in the search field. */
    method UpdateSearchQuery(query: string)
      modifies this`searchQuery
      ensures searchQuery == query
    {
      searchQuery := query;
    }

    /** The close button: the bar closes and the query is cleared, so the
        whole list shows again. */
    method CloseSearch()
      modifies this`isSearching, this`searchQuery
      ensures !isSearching && searchQuery == ""
      ensures forall exercises: seq<Exercise> :: FilteredExercises(exercises, searchQuery) == exercises
    {
      isSearching := false;
      searchQuery := "";
    }
  }
}
