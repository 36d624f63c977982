/**
 * Building the exercise library from the bundled image assets: the folder
 * layout `exercises/<CATEGORY>/<file>.webp` or
 * `exercises/<CATEGORY>/<Subcategory>/<file>.webp` becomes one `Exercise`
 * per image, named after the file, and the list is sorted by
 * (category, subcategory, name).
 *
 * The asset manager is a map from a folder path to the names it lists; a path
 * that is not a listed folder lists nothing (that also covers `list` failing
 * on a plain file, which the scan skips).
 */
module ExerciseLibrary {
  import opened KotlinText
  import opened Model
  import opened KotlinCollections

  type AssetTree = map<string, seq<string>>

  /** `assetManager.list(path) ?: emptyArray()`. */
  function List(tree: AssetTree, path: string): seq<string> {
    if path in tree then tree[path] else []
  }

  // ---------------------------------------------------------------------
  // File and folder names

  /** The common step of both formatters: `_` becomes a space, and each
      space-separated word gets its first character upper-cased. */
  function Titled(s: string): string {
    CapitalizeWords(ReplaceChar(s, '_', ' '), {' '})
  }

  /** `formatCategoryName`. */
  function FormatCategoryName(folderName: string): (r: string)
    ensures |r| == |folderName|
    ensures '_' !in r
    ensures forall i :: 0 <= i < |r| ==> r[i] == TitledChar(folderName, i)
  {
    TitledCharacterized(folderName);
    Titled(folderName)
  }

  /** `formatExerciseName`: one exact (case-sensitive) `.webp` suffix is
      dropped before the name is titled. */
  function FormatExerciseName(fileName: string): (r: string)
    ensures var base := RemoveSuffix(fileName, ".webp");
      && |r| == |base|
      && '_' !in r
      && forall i :: 0 <= i < |r| ==> r[i] == TitledChar(base, i)
  {
    var base := RemoveSuffix(fileName, ".webp");
    TitledCharacterized(base);
    Titled(base)
  }

  /** What the titled text holds at position `i` of `s`: a space for `_` and
      for a space; the upper-cased character at the start of a word (first
      position, or right after `_` or a space); the character itself inside
      a word. */
  function TitledChar(s: string, i: int): char
    requires 0 <= i < |s|
  {
    if s[i] == '_' || s[i] == ' ' then ' '
    else if i == 0 || s[i - 1] == '_' || s[i - 1] == ' ' then Upper(s[i])
    else s[i]
  }

  lemma TitledCharacterized(s: string)
    ensures |Titled(s)| == |s|
    ensures forall i :: 0 <= i < |s| ==> Titled(s)[i] == TitledChar(s, i)
  {
    var t := ReplaceChar(s, '_', ' ');
    CapitalizeWordsCharacterized(t, {' '});
    forall i | 0 <= i < |s|
      ensures Titled(s)[i] == TitledChar(s, i)
    {
      WordsCapitalizedAt(t, {' '}, true, i);
    }
  }

  /** Titled text given position by position. */
  lemma TitledIs(s: string, expected: string)
    requires |s| == |expected|
    requires forall i :: 0 <= i < |s| ==> TitledChar(s, i) == expected[i]
    ensures Titled(s) == expected
  {
    TitledCharacterized(s);
  }

  /** The file `bicycle_crunch.webp` is listed as "Bicycle Crunch". */
  lemma FormatExerciseNameExample()
    ensures FormatExerciseName("bicycle_crunch.webp") == "Bicycle Crunch"
  {
    assert RemoveSuffix("bicycle_crunch.webp", ".webp") == "bicycle_crunch" by {
      assert "bicycle_crunch.webp"[14..] == ".webp";
    }
    TitledIs("bicycle_crunch", "Bicycle Crunch");
  }

  /** The folder `upper_body` is shown as "Upper Body". */
  lemma FormatCategoryNameExample()
    ensures FormatCategoryName("upper_body") == "Upper Body"
  {
    TitledIs("upper_body", "Upper Body");
  }

  /** A name that already ends in ".WEBP" keeps it: the suffix removal is
      case-sensitive while the file test is not. */
  lemma UpperCaseSuffixKept()
    ensures EndsWithIgnoreCase("a.WEBP", ".webp")
    ensures RemoveSuffix("a.WEBP", ".webp") == "a.WEBP"
  {
    assert "a.WEBP"[1..] == ".WEBP";
    assert LowerAll(".WEBP") == ".webp";
  }

  // ---------------------------------------------------------------------
  // The scan, as a specification

  predicate IsImage(name: string) {
    EndsWithIgnoreCase(name, ".webp")
  }

  function DirectExercise(category: string, file: string): Exercise {
    NewExercise(FormatExerciseName(file), category, "", "exercises/" + category + "/" + file)
  }

  function NestedExercise(category: string, sub: string, file: string): Exercise {
    NewExercise(FormatExerciseName(file), category, sub, "exercises/" + category + "/" + sub + "/" + file)
  }

  /** The exercises of the image files among `files` of folder `category/sub`. */
  function FilesEntries(category: string, sub: string, files: seq<string>): seq<Exercise> {
    if |files| == 0 then []
    else
      var f := files[|files| - 1];
      FilesEntries(category, sub, files[..|files| - 1])
        + (if IsImage(f) then [NestedExercise(category, sub, f)] else [])
  }

  /** One entry of a category folder: an image is an exercise without a
      subcategory; anything else is read as a subcategory folder. */
  function ItemEntries(tree: AssetTree, category: string, item: string): seq<Exercise> {
    if IsImage(item) then [DirectExercise(category, item)]
    else FilesEntries(category, item, List(tree, "exercises/" + category + "/" + item))
  }

  function ItemsEntries(tree: AssetTree, category: string, items: seq<string>): seq<Exercise> {
    if |items| == 0 then []
    else ItemsEntries(tree, category, items[..|items| - 1]) + ItemEntries(tree, category, items[|items| - 1])
  }

  /** A category entry whose name contains '.' is not a folder and is skipped. */
  function CategoryEntries(tree: AssetTree, category: string): seq<Exercise> {
    if '.' in category then [] else ItemsEntries(tree, category, List(tree, "exercises/" + category))
  }

  function CategoriesEntries(tree: AssetTree, categories: seq<string>): seq<Exercise> {
    if |categories| == 0 then []
    else CategoriesEntries(tree, categories[..|categories| - 1]) + CategoryEntries(tree, categories[|categories| - 1])
  }

  /** Every exercise the scan finds, in listing order. */
  function Scanned(tree: AssetTree): seq<Exercise> {
    CategoriesEntries(tree, List(tree, "exercises"))
  }

  // ---------------------------------------------------------------------
  // Where each scanned exercise comes from, and that nothing is missed

  /** `e` is the exercise of an image file that the layout places in a
      category folder, directly or one subcategory folder down. */
  predicate FromAsset(tree: AssetTree, e: Exercise) {
    var c := e.category;
    && c in List(tree, "exercises") && '.' !in c
    && ((exists f :: f in List(tree, "exercises/" + c) && IsImage(f) && e == DirectExercise(c, f))
        || (exists s, f :: s in List(tree, "exercises/" + c) && !IsImage(s)
              && f in List(tree, "exercises/" + c + "/" + s) && IsImage(f) && e == NestedExercise(c, s, f)))
  }

  lemma {:induction false} FilesEntriesFrom(category: string, sub: string, files: seq<string>, e: Exercise)
    requires e in FilesEntries(category, sub, files)
    ensures exists f :: f in files && IsImage(f) && e == NestedExercise(category, sub, f)
  {
    var f := files[|files| - 1];
    if e in FilesEntries(category, sub, files[..|files| - 1]) {
      FilesEntriesFrom(category, sub, files[..|files| - 1], e);
    } else {
      assert f in files && IsImage(f) && e == NestedExercise(category, sub, f);
    }
  }

  lemma {:induction false} ItemsEntriesFrom(tree: AssetTree, category: string, items: seq<string>, e: Exercise)
    requires e in ItemsEntries(tree, category, items)
    ensures e.category == category
    ensures || (exists f :: f in items && IsImage(f) && e == DirectExercise(category, f))
            || (exists s, f :: s in items && !IsImage(s)
                  && f in List(tree, "exercises/" + category + "/" + s) && IsImage(f) && e == NestedExercise(category, s, f))
  {
    var item := items[|items| - 1];
    if e in ItemsEntries(tree, category, items[..|items| - 1]) {
      ItemsEntriesFrom(tree, category, items[..|items| - 1], e);
    } else if IsImage(item) {
      assert item in items && e == DirectExercise(category, item);
    } else {
      FilesEntriesFrom(category, item, List(tree, "exercises/" + category + "/" + item), e);
      assert item in items;
    }
  }

  lemma {:induction false} CategoriesEntriesFrom(tree: AssetTree, categories: seq<string>, e: Exercise)
    requires e in CategoriesEntries(tree, categories)
    ensures e.category in categories && '.' !in e.category
    ensures e in CategoryEntries(tree, e.category)
  {
    var c := categories[|categories| - 1];
    if e in CategoriesEntries(tree, categories[..|categories| - 1]) {
      CategoriesEntriesFrom(tree, categories[..|categories| - 1], e);
    } else {
      ItemsEntriesFrom(tree, c, List(tree, "exercises/" + c), e);
    }
  }

  /** Soundness: each scanned exercise stands for an image file of the layout. */
  lemma ScannedFromAssets(tree: AssetTree, e: Exercise)
    requires e in Scanned(tree)
    ensures FromAsset(tree, e)
  {
    CategoriesEntriesFrom(tree, List(tree, "exercises"), e);
    var c := e.category;
    ItemsEntriesFrom(tree, c, List(tree, "exercises/" + c), e);
  }

  lemma {:induction false} FilesEntriesHas(category: string, sub: string, files: seq<string>, f: string)
    requires f in files && IsImage(f)
    ensures NestedExercise(category, sub, f) in FilesEntries(category, sub, files)
  {
    if f != files[|files| - 1] {
      assert f in files[..|files| - 1];
      FilesEntriesHas(category, sub, files[..|files| - 1], f);
    }
  }

  lemma {:induction false} ItemsEntriesHas(tree: AssetTree, category: string, items: seq<string>, item: string, e: Exercise)
    requires item in items && e in ItemEntries(tree, category, item)
    ensures e in ItemsEntries(tree, category, items)
  {
    if item != items[|items| - 1] {
      assert item in items[..|items| - 1];
      ItemsEntriesHas(tree, category, items[..|items| - 1], item, e);
    }
  }

  lemma {:induction false} CategoriesEntriesHas(tree: AssetTree, categories: seq<string>, c: string, e: Exercise)
    requires c in categories && e in CategoryEntries(tree, c)
    ensures e in CategoriesEntries(tree, categories)
  {
    if c != categories[|categories| - 1] {
      assert c in categories[..|categories| - 1];
      CategoriesEntriesHas(tree, categories[..|categories| - 1], c, e);
    }
  }

  /** Completeness: every image file the layout places in a category folder,
      directly or one subcategory down, is scanned. */
  lemma AssetsScanned(tree: AssetTree, e: Exercise)
    requires FromAsset(tree, e)
    ensures e in Scanned(tree)
  {
    var c := e.category;
    var items := List(tree, "exercises/" + c);
    if exists f :: f in items && IsImage(f) && e == DirectExercise(c, f) {
      var f :| f in items && IsImage(f) && e == DirectExercise(c, f);
      ItemsEntriesHas(tree, c, items, f, e);
    } else {
      var s, f :| s in items && !IsImage(s)
        && f in List(tree, "exercises/" + c + "/" + s) && IsImage(f) && e == NestedExercise(c, s, f);
      FilesEntriesHas(c, s, List(tree, "exercises/" + c + "/" + s), f);
      ItemsEntriesHas(tree, c, items, s, e);
    }
    CategoriesEntriesHas(tree, List(tree, "exercises"), c, e);
  }

  // ---------------------------------------------------------------------
  // The sort

  /** `compareBy({ it.category }, { it.subcategory }, { it.name })`, as "x
      comes no later than y". */
  predicate KeyLe(x: Exercise, y: Exercise) {
    if x.category != y.category then StringLe(x.category, y.category)
    else if x.subcategory != y.subcategory then StringLe(x.subcategory, y.subcategory)
    else StringLe(x.name, y.name)
  }

  lemma KeyLeTotal(x: Exercise, y: Exercise)
    ensures KeyLe(x, y) || KeyLe(y, x)
  {
    StringLeTotal(x.category, y.category);
    StringLeTotal(x.subcategory, y.subcategory);
    StringLeTotal(x.name, y.name);
  }

  lemma KeyLeTransitive(x: Exercise, y: Exercise, z: Exercise)
    requires KeyLe(x, y) && KeyLe(y, z)
    ensures KeyLe(x, z)
  {
    Antisymmetric3(x, y, z);
    if x.category != y.category && y.category != z.category {
      StringLeTransitive(x.category, y.category, z.category);
    } else if x.category == y.category == z.category {
      if x.subcategory != y.subcategory && y.subcategory != z.subcategory {
        StringLeTransitive(x.subcategory, y.subcategory, z.subcategory);
      } else if x.subcategory == y.subcategory == z.subcategory {
        StringLeTransitive(x.name, y.name, z.name);
      }
    }
  }

  lemma Antisymmetric3(x: Exercise, y: Exercise, z: Exercise)
    requires KeyLe(x, y) && KeyLe(y, z)
    ensures x.category != z.category ==> StringLe(x.category, z.category)
    ensures x.category == z.category ==> x.category == y.category
    ensures x.category == z.category && x.subcategory != z.subcategory ==> StringLe(x.subcategory, z.subcategory)
    ensures x.category == z.category && x.subcategory == z.subcategory ==> x.subcategory == y.subcategory
  {
    if x.category != y.category && y.category != z.category {
      StringLeTransitive(x.category, y.category, z.category);
      if x.category == z.category { StringLeAntisymmetric(x.category, y.category); }
    } else if x.category == y.category && y.category == z.category {
      if x.subcategory != y.subcategory && y.subcategory != z.subcategory {
        StringLeTransitive(x.subcategory, y.subcategory, z.subcategory);
        if x.subcategory == z.subcategory { StringLeAntisymmetric(x.subcategory, y.subcategory); }
      }
    }
  }

  predicate Sorted(s: seq<Exercise>) {
    forall i :: 0 < i < |s| ==> KeyLe(s[i - 1], s[i])
  }

  /** Insert `x` before the first element it does not come after, so that
      `x` stays ahead of the equal elements that followed it. */
  function Insert(x: Exercise, s: seq<Exercise>): (r: seq<Exercise>)
    requires Sorted(s)
    ensures Sorted(r)
    ensures multiset(r) == multiset(s) + multiset{x}
    ensures r[0] == x || (|s| > 0 && r[0] == s[0])
  {
    if |s| == 0 || KeyLe(x, s[0]) then [x] + s
    else
      KeyLeTotal(x, s[0]);
      var t := Insert(x, s[1..]);
      assert s == [s[0]] + s[1..];
      [s[0]] + t
  }

  /** `sortedWith(compareBy(...))`: a stable sort by the key. */
  function SortByKey(s: seq<Exercise>): (r: seq<Exercise>)
    ensures Sorted(r)
    ensures multiset(r) == multiset(s)
  {
    if |s| == 0 then []
    else
      assert s == [s[0]] + s[1..];
      Insert(s[0], SortByKey(s[1..]))
  }

  /** Two exercises the sort's key cannot tell apart. */
  predicate SameKey(x: Exercise, y: Exercise) {
    x.category == y.category && x.subcategory == y.subcategory && x.name == y.name
  }

  /** The exercises of `s` that tie with `e` on the key, in their order. */
  function Ties(s: seq<Exercise>, e: Exercise): seq<Exercise> {
    if |s| == 0 then []
    else (if SameKey(s[0], e) then [s[0]] else []) + Ties(s[1..], e)
  }

  /** An inserted exercise goes ahead of the ones it ties with. */
  lemma {:induction false} TiesOfInsert(x: Exercise, s: seq<Exercise>, e: Exercise)
    requires Sorted(s)
    ensures Ties(Insert(x, s), e) == (if SameKey(x, e) then [x] else []) + Ties(s, e)
  {
    if |s| == 0 || KeyLe(x, s[0]) {
      TiesCons(x, s, e);
    } else {
      var t := Insert(x, s[1..]);
      assert Insert(x, s) == [s[0]] + t;
      assert s == [s[0]] + s[1..];
      TiesOfInsert(x, s[1..], e);
      TiesCons(s[0], t, e);
      TiesCons(s[0], s[1..], e);
      if SameKey(x, e) && SameKey(s[0], e) {
        KeyLeOfSameKey(x, s[0]);
      }
    }
  }

  lemma KeyLeOfSameKey(x: Exercise, y: Exercise)
    requires SameKey(x, y)
    ensures KeyLe(x, y)
  {
  }

  lemma TiesCons(y: Exercise, t: seq<Exercise>, e: Exercise)
    ensures Ties([y] + t, e) == (if SameKey(y, e) then [y] else []) + Ties(t, e)
  {
    assert ([y] + t)[1..] == t;
  }

  /** The sort is stable: exercises that tie on the key keep the order
      they were scanned in. */
  lemma {:induction false} SortByKeyStable(s: seq<Exercise>, e: Exercise)
    ensures Ties(SortByKey(s), e) == Ties(s, e)
  {
    if |s| > 0 {
      SortByKeyStable(s[1..], e);
      TiesOfInsert(s[0], SortByKey(s[1..]), e);
    }
  }

  /** Any two positions of a sorted list are in key order. */
  lemma {:induction false} SortedPairs(s: seq<Exercise>, i: int, j: int)
    requires Sorted(s) && 0 <= i <= j < |s|
    ensures KeyLe(s[i], s[j])
    decreases j - i
  {
    if i < j {
      SortedPairs(s, i, j - 1);
      KeyLeTransitive(s[i], s[j - 1], s[j]);
    }
  }

  // ---------------------------------------------------------------------
  // The scan, as the source performs it

  /** `scanExercisesFromAssets`: the loop over category folders, then the
      sort. */
  method ScanExercisesFromAssets(tree: AssetTree) returns (result: seq<Exercise>)
    ensures result == SortByKey(Scanned(tree))
  {
    var exercises: seq<Exercise> := [];
    var categories := List(tree, "exercises");
    var i := 0;
    while i < |categories|
      invariant 0 <= i <= |categories|
      invariant exercises == CategoriesEntries(tree, categories[..i])
    {
      var categoryFolder := categories[i];
      assert categories[..i + 1][..i] == categories[..i];
      assert CategoriesEntries(tree, categories[..i + 1])
          == CategoriesEntries(tree, categories[..i]) + CategoryEntries(tree, categoryFolder);
      if '.' !in categoryFolder {
        var found := ScanCategoryFolder(tree, categoryFolder);
        exercises := exercises + found;
      }
      i := i + 1;
    }
    assert categories[..i] == categories;
    result := SortByKey(exercises);
  }

  /** The body of the category loop: the entries of one category folder. */
  method ScanCategoryFolder(tree: AssetTree, categoryFolder: string) returns (found: seq<Exercise>)
    ensures found == ItemsEntries(tree, categoryFolder, List(tree, "exercises/" + categoryFolder))
  {
    found := [];
    var categoryItems := List(tree, "exercises/" + categoryFolder);
    var j := 0;
    while j < |categoryItems|
      invariant 0 <= j <= |categoryItems|
      invariant found == ItemsEntries(tree, categoryFolder, categoryItems[..j])
    {
      var item := categoryItems[j];
      assert categoryItems[..j + 1][..j] == categoryItems[..j];
      if IsImage(item) {
        found := found + [DirectExercise(categoryFolder, item)];
      } else {
        var files := ScanSubcategoryFolder(categoryFolder, item, List(tree, "exercises/" + categoryFolder + "/" + item));
        found := found + files;
      }
      j := j + 1;
    }
    assert categoryItems[..j] == categoryItems;
  }

  /** The innermost loop: the image files of one subcategory folder. */
  method ScanSubcategoryFolder(categoryFolder: string, item: string, subcategoryFiles: seq<string>)
    returns (found: seq<Exercise>)
    ensures found == FilesEntries(categoryFolder, item, subcategoryFiles)
  {
    found := [];
    var k := 0;
    while k < |subcategoryFiles|
      invariant 0 <= k <= |subcategoryFiles|
      invariant found == FilesEntries(categoryFolder, item, subcategoryFiles[..k])
    {
      var fileName := subcategoryFiles[k];
      assert subcategoryFiles[..k + 1][..k] == subcategoryFiles[..k];
      if IsImage(fileName) {
        found := found + [NestedExercise(categoryFolder, item, fileName)];
      }
      k := k + 1;
    }
    assert subcategoryFiles[..k] == subcategoryFiles;
  }

  /** A scanned-and-sorted list holds exactly the exercises of the layout. */
  lemma SortedScanIsLayout(tree: AssetTree, e: Exercise)
    ensures e in SortByKey(Scanned(tree)) <==> FromAsset(tree, e)
  {
    assert e in SortByKey(Scanned(tree)) <==> e in multiset(Scanned(tree));
    if e in Scanned(tree) {
      ScannedFromAssets(tree, e);
    }
    if FromAsset(tree, e) {
      AssetsScanned(tree, e);
    }
  }

  // ---------------------------------------------------------------------
  // First-run initialisation

  /** The `exercises` table, as far as the initializer uses it. */
  class ExerciseStore {
    var exercises: seq<Exercise>

    constructor(rows: seq<Exercise>)
      ensures exercises == rows
    {
      exercises := rows;
    }

    /** `initializeIfNeeded`: a table that already has rows is left alone;
        an empty one receives the scanned library (nothing when the scan is
        empty). */
    method InitializeIfNeeded(tree: AssetTree)
      modifies this
      ensures old(|exercises|) > 0 ==> exercises == old(exercises)
      ensures old(|exercises|) == 0 ==> exercises == SortByKey(Scanned(tree))
    {
      if |exercises| > 0 {
        return;
      }
      var scanned := ScanExercisesFromAssets(tree);
      if |scanned| > 0 {
        exercises := exercises + scanned;
      }
    }
  }
}
