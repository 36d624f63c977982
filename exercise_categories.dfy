/** The fixed table of exercise categories, their labels and subcategories. */
module ExerciseCategories {

  const WEIGHT_TRAINING: string := "WEIGHT_TRAINING"
  const CARDIO: string := "CARDIO"
  const HIIT: string := "HIIT"
  const RESISTANCE_TRAINING: string := "RESISTANCE_TRAINING"
  const YOGA_FLEXIBILITY: string := "YOGA_FLEXIBILITY"

  /** `getDisplayName`: the label of a known category, the text itself
      otherwise; HIIT is the one category whose label is its own name. */
  function GetDisplayName(category: string): (shown: string)
    ensures shown == category <==> category !in GetAllCategories() || category == HIIT
  {
    if category == WEIGHT_TRAINING then "Weight Training"
    else if category == CARDIO then "Cardio"
    else if category == HIIT then "HIIT"
    else if category == RESISTANCE_TRAINING then "Resistance Training"
    else if category == YOGA_FLEXIBILITY then "Yoga & Flexibility"
    else category
  }

  /** `getAllCategories`: the five constants, in declaration order. */
  function GetAllCategories(): (all: seq<string>)
    ensures |all| == 5
    ensures forall i, j :: 0 <= i < j < |all| ==> all[i] != all[j]
  {
    [WEIGHT_TRAINING, CARDIO, HIIT, RESISTANCE_TRAINING, YOGA_FLEXIBILITY]
  }

  /** `getSubcategories`: the fixed list of a known category, empty otherwise. */
  function GetSubcategories(category: string): (subs: seq<string>)
    ensures category in GetAllCategories() <==> |subs| > 0
  {
    if category == WEIGHT_TRAINING then ["Legs", "Chest", "Back", "Shoulders", "Arms", "Core"]
    else if category == CARDIO then ["Steady State", "High Impact", "Low Impact", "Full Body"]
    else if category == HIIT then ["Bodyweight", "With Equipment", "Interval Training"]
    else if category == RESISTANCE_TRAINING then ["Bands", "Bodyweight", "Other"]
    else if category == YOGA_FLEXIBILITY then ["Yoga", "Flexibility", "Pilates"]
    else []
  }

  /** Distinct categories have distinct labels, so the labels identify them. */
  lemma DisplayNamesDistinct(a: string, b: string)
    requires a in GetAllCategories() && b in GetAllCategories() && a != b
    ensures GetDisplayName(a) != GetDisplayName(b)
  {
  }

  /** Within one category the subcategory names are distinct. */
  lemma SubcategoriesDistinctWithin(category: string)
    ensures var subs := GetSubcategories(category);
      forall i, j :: 0 <= i < j < |subs| ==> subs[i] != subs[j]
  {
  }

  /** Across categories they are not: "Bodyweight" is under both HIIT and
      RESISTANCE_TRAINING, so a subcategory alone does not name a category. */
  lemma SubcategoryNamesShared()
    ensures "Bodyweight" in GetSubcategories(HIIT)
    ensures "Bodyweight" in GetSubcategories(RESISTANCE_TRAINING)
  {
    assert GetSubcategories(HIIT)[0] == "Bodyweight";
    assert GetSubcategories(RESISTANCE_TRAINING)[1] == "Bodyweight";
  }
}
