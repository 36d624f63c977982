/**
 * The bottom sheet the plan editor uses to pick a library exercise: a
 * category list, a subcategory list, the exercises of one subcategory, and
 * a search view reachable from the category list, with a back button that
 * retraces those steps.
 */
module ExerciseSelectionSheet {
  import opened Wrappers
  import opened KotlinText
  import opened KotlinCollections
  import opened Model
  import opened ExerciseCategories

  datatype SheetView = Categories | Subcategories | Exercises | Search

  /** The categories of the exercises, in order. */
  function CategoriesOf(exercises: seq<Exercise>): (cs: seq<string>)
    ensures |cs| == |exercises|
    ensures forall i :: 0 <= i < |exercises| ==> cs[i] == exercises[i].category
  {
    seq(|exercises|, i requires 0 <= i < |exercises| => exercises[i].category)
  }

  /** `availableCategories`: each category that some exercise has, once,
      in natural string order. */
  function AvailableCategories(exercises: seq<Exercise>): (r: seq<string>)
    ensures StrictlySorted(r)
    ensures forall c :: c in r <==> c in CategoriesOf(exercises)
    ensures |r| <= |exercises|
  {
    DistinctSorted(CategoriesOf(exercises))
  }

  /** The sheet's search matches the query, ignoring case, in the name,
      target muscles, equipment, category or subcategory (not the
      description). */
  predicate MatchesSheetSearch(query: string, e: Exercise) {
    || ContainsIgnoreCase(e.name, query)
    || ContainsIgnoreCase(e.targetMuscles, query)
    || ContainsIgnoreCase(e.equipment, query)
    || ContainsIgnoreCase(e.category, query)
    || ContainsIgnoreCase(e.subcategory, query)
  }

  /** The exercise is in the selected category and subcategory; an unset
      selection matches nothing. */
  predicate InSelection(category: Option<string>, subcategory: Option<string>, e: Exercise) {
    category == Some(e.category) && subcategory == Some(e.subcategory)
  }

  /** `filteredExercises` for a given view and selection. */
  function Filtered(view: SheetView, category: Option<string>, subcategory: Option<string>, query: string, exercises: seq<Exercise>): (r: seq<Exercise>)
    ensures view == Categories || view == Subcategories ==> r == []
    ensures view == Search && IsBlank(query) ==> r == []
    ensures IsSubsequence(r, exercises)
    ensures view == Search ==> forall e :: e in r <==> e in exercises && !IsBlank(query) && MatchesSheetSearch(query, e)
    ensures view == Exercises ==> forall e :: e in r <==> e in exercises && InSelection(category, subcategory, e)
  {
    match view
    case Search => if IsBlank(query) then [] else Filter(exercises, e => MatchesSheetSearch(query, e))
    case Exercises => Filter(exercises, e => InSelection(category, subcategory, e))
    case _ => []
  }

  /** The count shown beside a subcategory. */
  function SubcategoryCount(exercises: seq<Exercise>, category: string, subcategory: string): int {
    Count(exercises, (e: Exercise) => e.category == category && e.subcategory == subcategory)
  }

  /** The count beside a subcategory is the number of exercises its
      exercise view then lists. */
  lemma SubcategoryCountMatchesView(exercises: seq<Exercise>, category: string, subcategory: string, query: string)
    ensures SubcategoryCount(exercises, category, subcategory)
      == |Filtered(Exercises, Some(category), Some(subcategory), query, exercises)|
  {
    var p := (e: Exercise) => e.category == category && e.subcategory == subcategory;
    var q := (e: Exercise) => InSelection(Some(category), Some(subcategory), e);
    CountIsFilterLength(exercises, p);
    FilterSameCondition(exercises, p, q);
  }

  class SheetState {
    const exercises: seq<Exercise>
    var currentView: SheetView
    var selectedCategory: Option<string>
    var selectedSubcategory: Option<string>
    var searchQuery: string

    /** What each view has selected: nothing on the category list and in
        search, a category on the subcategory list, both on the exercise
        view; the query is empty outside search. */
    predicate Valid()
      reads this
    {
      && (currentView == Categories || currentView == Search ==> selectedCategory.None? && selectedSubcategory.None?)
      && (currentView == Subcategories ==> selectedCategory.Some? && selectedSubcategory.None?)
      && (currentView == Exercises ==> selectedCategory.Some? && selectedSubcategory.Some?)
      && (currentView != Search ==> searchQuery == "")
    }

    /** The sheet opens on the category list. */
    constructor(exercises: seq<Exercise>)
      ensures Valid()
      ensures this.exercises == exercises
      ensures currentView == Categories && selectedCategory.None? && selectedSubcategory.None? && searchQuery == ""
    {
      this.exercises := exercises;
      currentView := Categories;
      selectedCategory := None;
      selectedSubcategory := None;
      searchQuery := "";
    }

    /** `subcategories`: those of the selected category. */
    function ShownSubcategories(): (subs: seq<string>)
      reads this
      ensures selectedCategory.None? ==> subs == []
      ensures selectedCategory.Some? ==> subs == GetSubcategories(selectedCategory.value)
      ensures selectedCategory.Some? ==> (|subs| > 0 <==> selectedCategory.value in GetAllCategories())
    {
      if selectedCategory.Some? then GetSubcategories(selectedCategory.value) else []
    }

    /** The exercises the current view lists. */
    function FilteredExercises(): (r: seq<Exercise>)
      reads this
      ensures Valid() && currentView == Exercises ==>
        forall e :: e in r <==> e in exercises && e.category == selectedCategory.value && e.subcategory == selectedSubcategory.value
    {
      Filtered(currentView, selectedCategory, selectedSubcategory, searchQuery, exercises)
    }

    /** A click on a listed category opens its subcategories. */
    method ClickCategory(category: string)
      requires Valid() && currentView == Categories && category in AvailableCategories(exercises)
      modifies this`currentView, this`selectedCategory
      ensures Valid()
      ensures currentView == Subcategories && selectedCategory == Some(category)
      ensures ShownSubcategories() == GetSubcategories(category)
    {
      selectedCategory := Some(category);
      currentView := Subcategories;
    }

    /** A click on a listed subcategory opens its exercises. */
    method ClickSubcategory(subcategory: string)
      requires Valid() && currentView == Subcategories && subcategory in ShownSubcategories()
      modifies this`currentView, this`selectedSubcategory
      ensures Valid()
      ensures currentView == Exercises && selectedSubcategory == Some(subcategory)
      ensures |FilteredExercises()| == SubcategoryCount(exercises, selectedCategory.value, subcategory)
    {
      selectedSubcategory := Some(subcategory);
      currentView := Exercises;
      SubcategoryCountMatchesView(exercises, selectedCategory.value, subcategory, searchQuery);
    }

    /** The search icon, shown on the category list only. */
    method OpenSearch()
      requires Valid() && currentView == Categories
      modifies this`currentView
      ensures Valid()
      ensures currentView == Search
      ensures FilteredExercises() == []
    {
      currentView := Search;
    }

    /** Typing in the search field. */
    method UpdateSearchQuery(query: string)
      requires Valid() && currentView == Search
      modifies this`searchQuery
      ensures Valid()
      ensures searchQuery == query
    {
      searchQuery := query;
    }

    /**
     * The back button: search and the subcategory list go back to the
     * category list (clearing the query or the category), the exercise
     * view to the subcategory list (clearing the subcategory); on the
     * category list there is nothing to go back to.
     */
    method Back()
      requires Valid()
      modifies this`currentView, this`selectedCategory, this`selectedSubcategory, this`searchQuery
      ensures Valid()
      ensures old(currentView) == Search ==>
        (currentView == Categories && searchQuery == "" && unchanged(this`selectedCategory, this`selectedSubcategory))
      ensures old(currentView) == Subcategories ==>
        (currentView == Categories && selectedCategory.None? && unchanged(this`selectedSubcategory, this`searchQuery))
      ensures old(currentView) == Exercises ==>
        (currentView == Subcategories && selectedSubcategory.None? && unchanged(this`selectedCategory, this`searchQuery))
      ensures old(currentView) == Categories ==>
        unchanged(this`currentView, this`selectedCategory, this`selectedSubcategory, this`searchQuery)
    {
      match currentView {
        case Search =>
          currentView := Categories;
          searchQuery := "";
        case Subcategories =>
          currentView := Categories;
          selectedCategory := None;
        case Exercises =>
          currentView := Subcategories;
          selectedSubcategory := None;
        case Categories =>
      }
    }
  }
}
