/**
 * Browsing the exercise library: the search over all exercises and the
 * query it is driven by.
 */
module ExerciseBrowse {
  import opened KotlinText
  import opened KotlinCollections
  import opened Model

  /** The library search matches the query, ignoring case, anywhere in the
      name, category, subcategory, target muscles, equipment or
      description. */
  predicate MatchesLibrarySearch(query: string, e: Exercise) {
    || ContainsIgnoreCase(e.name, query)
    || ContainsIgnoreCase(e.category, query)
    || ContainsIgnoreCase(e.subcategory, query)
    || ContainsIgnoreCase(e.targetMuscles, query)
    || ContainsIgnoreCase(e.equipment, query)
    || ContainsIgnoreCase(e.description, query)
  }

  /** `searchResults`: nothing for a blank query, otherwise the matching
      exercises in library order. */
  function SearchResults(query: string, exercises: seq<Exercise>): (r: seq<Exercise>)
    ensures IsBlank(query) ==> r == []
    ensures IsSubsequence(r, exercises)
    ensures forall e :: e in r <==> e in exercises && !IsBlank(query) && MatchesLibrarySearch(query, e)
  {
    if IsBlank(query) then [] else Filter(exercises, e => MatchesLibrarySearch(query, e))
  }

  class ExerciseBrowseViewModel {
    var searchQuery: string

    constructor()
      ensures searchQuery == ""
    {
      searchQuery := "";
    }

    /** The results the screen shows for the current query. */
    function CurrentResults(allExercises: seq<Exercise>): (r: seq<Exercise>)
      reads this
      ensures IsBlank(searchQuery) ==> r == []
      ensures IsSubsequence(r, allExercises)
      ensures forall e :: e in r <==> e in allExercises && !IsBlank(searchQuery) && MatchesLibrarySearch(searchQuery, e)
    {
      SearchResults(searchQuery, allExercises)
    }

    /** `updateSearchQuery`: stores the query as typed. */
    method UpdateSearchQuery(query: string)
      modifies this`searchQuery
      ensures searchQuery == query
    {
      searchQuery := query;
    }

    /** `clearSearch`: an empty query, so no results. */
    method ClearSearch()
      modifies this`searchQuery
      ensures searchQuery == ""
      ensures forall all: seq<Exercise> :: CurrentResults(all) == []
    {
      searchQuery := "";
    }
  }
}
