/** The logic of src/components/program/ExerciseLibrary.jsx: the search and
    category filter, the category list, the category icon and colour
    lookups and the badge rules of an exercise card. */
module ExerciseLibrary {
  import opened Js
  import opened Text
  import opened Seqs

  datatype LibraryExercise = LibraryExercise(
    name: string,
    description: string,
    category: string,
    targetMuscles: Option<seq<string>>,
    equipment: Option<seq<string>>)

  datatype Program = Program(exercises: Option<seq<LibraryExercise>>)

  /** `currentProgram?.exercises || []` */
  function ExercisesOf(program: Option<Program>): seq<LibraryExercise> {
    if program.Some? && program.value.exercises.Some? then program.value.exercises.value else []
  }

  /** The empty card replaces the library when there is no program or it
      lists no exercises. */
  predicate ShowsEmptyState(program: Option<Program>) {
    program.None? || ExercisesOf(program) == []
  }

  /** The search is always applied; the category test is skipped for
      "all". */
  predicate Matches(e: LibraryExercise, searchTerm: string, category: string) {
    (ContainsIgnoringCase(e.name, searchTerm) || ContainsIgnoringCase(e.description, searchTerm))
    && (category == "all" || e.category == category)
  }

  function Matcher(searchTerm: string, category: string): LibraryExercise -> bool {
    e => Matches(e, searchTerm, category)
  }

  /** filteredExercises: the exercises matching both tests, in order. */
  function FilteredExercises(exercises: seq<LibraryExercise>, searchTerm: string, category: string): (r: seq<LibraryExercise>)
    ensures IsSubsequence(r, exercises)
    ensures forall e :: e in r <==> e in exercises && Matches(e, searchTerm, category)
  {
    FilterIsSubsequence(exercises, Matcher(searchTerm, category));
    forall e
      ensures e in Filter(exercises, Matcher(searchTerm, category)) <==> e in exercises && Matches(e, searchTerm, category)
    {
      FilterMembership(exercises, Matcher(searchTerm, category), e);
    }
    Filter(exercises, Matcher(searchTerm, category))
  }

  /** Every string contains the empty string. */
  lemma {:induction false} ContainsEmpty(s: string)
    ensures Contains(s, "")
  {
    assert "" <= s;
  }

  /** An empty search keeps every exercise of the selected category, and
      with "all" the whole list. */
  lemma EmptySearchKeepsCategory(exercises: seq<LibraryExercise>, category: string)
    ensures FilteredExercises(exercises, "", category) == Filter(exercises, (e: LibraryExercise) => category == "all" || e.category == category)
    ensures FilteredExercises(exercises, "", "all") == exercises
  {
    forall e: LibraryExercise
      ensures Matches(e, "", category) == (category == "all" || e.category == category)
    {
      ContainsEmpty(Lower(e.name));
      assert Lower("") == "";
    }
    FilterCongruent(exercises, Matcher("", category), (e: LibraryExercise) => category == "all" || e.category == category);
    forall e: LibraryExercise
      ensures Matches(e, "", "all")
    {
      ContainsEmpty(Lower(e.name));
      assert Lower("") == "";
    }
    FilterKeepsAll(exercises, Matcher("", "all"));
  }

  /** `exercises.map(ex => ex.category)` */
  function CategoryList(exercises: seq<LibraryExercise>): (r: seq<string>)
    ensures forall c :: c in r <==> exists i :: 0 <= i < |exercises| && exercises[i].category == c
  {
    var all := seq(|exercises|, i requires 0 <= i < |exercises| => exercises[i].category);
    assert forall c :: c in all <==> exists i :: 0 <= i < |exercises| && exercises[i].category == c by {
      forall c | exists i :: 0 <= i < |exercises| && exercises[i].category == c
        ensures c in all
      {
        var i :| 0 <= i < |exercises| && exercises[i].category == c;
        assert all[i] == c;
      }
    }
    all
  }

  /** `[...new Set(exercises.map(ex => ex.category))]` */
  function Categories(exercises: seq<LibraryExercise>): (r: seq<string>)
    ensures NoDuplicates(r)
    ensures forall c :: c in r <==> exists i :: 0 <= i < |exercises| && exercises[i].category == c
  {
    Dedup(CategoryList(exercises))
  }

  /** The categories are listed in the order each first appears. */
  lemma CategoriesOrder(exercises: seq<LibraryExercise>)
    ensures forall i, j :: 0 <= i < j < |Categories(exercises)| ==>
      FirstIndex(CategoryList(exercises), Categories(exercises)[i]) < FirstIndex(CategoryList(exercises), Categories(exercises)[j])
  {
    DedupOrder(CategoryList(exercises));
  }

  const CATEGORY_ICONS: map<string, string> := map[
    "strength" := "\U{1F4AA}",
    "flexibility" := "\U{1F938}",
    "mobility" := "\U{1F504}",
    "balance" := "\U{2696}\U{FE0F}",
    "endurance" := "\U{1F3C3}",
    "coordination" := "\U{1F3AF}"]

  const DEFAULT_ICON := "\U{1F3CB}\U{FE0F}"

  const CATEGORY_COLORS: map<string, string> := map[
    "strength" := "bg-red-100 text-red-800",
    "flexibility" := "bg-green-100 text-green-800",
    "mobility" := "bg-blue-100 text-blue-800",
    "balance" := "bg-purple-100 text-purple-800",
    "endurance" := "bg-orange-100 text-orange-800",
    "coordination" := "bg-pink-100 text-pink-800"]

  const DEFAULT_COLOR := "bg-warm-gray-100 text-warm-gray-800"

  /** getCategoryIcon */
  function CategoryIcon(category: string): (r: string)
    ensures category in CATEGORY_ICONS ==> r == CATEGORY_ICONS[category]
    ensures category !in CATEGORY_ICONS ==> r == DEFAULT_ICON
  {
    if category in CATEGORY_ICONS then CATEGORY_ICONS[category] else DEFAULT_ICON
  }

  /** getCategoryColor */
  function CategoryColor(category: string): (r: string)
    ensures category in CATEGORY_COLORS ==> r == CATEGORY_COLORS[category]
    ensures category !in CATEGORY_COLORS ==> r == DEFAULT_COLOR
  {
    if category in CATEGORY_COLORS then CATEGORY_COLORS[category] else DEFAULT_COLOR
  }

  /** Both tables know the same six categories, and no known category
      shows a default. */
  lemma LookupsAgree(category: string)
    ensures category in CATEGORY_ICONS <==> category in CATEGORY_COLORS
    ensures category in CATEGORY_ICONS ==> CategoryIcon(category) != DEFAULT_ICON && CategoryColor(category) != DEFAULT_COLOR
  {
  }

  const SHOWN_MUSCLES := 3

  /** The target-muscle badges: the first three, then "+n" for the rest. */
  function MuscleBadges(targetMuscles: Option<seq<string>>): (r: seq<string>)
    ensures targetMuscles.None? ==> r == []
    ensures targetMuscles.Some? && |targetMuscles.value| <= SHOWN_MUSCLES ==> r == targetMuscles.value
    ensures targetMuscles.Some? && |targetMuscles.value| > SHOWN_MUSCLES ==>
      |r| == SHOWN_MUSCLES + 1 && r[..SHOWN_MUSCLES] == targetMuscles.value[..SHOWN_MUSCLES]
      && r[SHOWN_MUSCLES] == "+" + IntToString(|targetMuscles.value| - SHOWN_MUSCLES)
  {
    if targetMuscles.None? || |targetMuscles.value| == 0 then []
    else
      var muscles := targetMuscles.value;
      var more := if |muscles| > SHOWN_MUSCLES then ["+" + IntToString(|muscles| - SHOWN_MUSCLES)] else [];
      Take(muscles, SHOWN_MUSCLES) + more
  }

  /** The equipment section lists every item, and is left out when the
      list is absent, empty or starts with "none". */
  function EquipmentShown(equipment: Option<seq<string>>): (r: seq<string>)
    ensures r != [] <==> equipment.Some? && |equipment.value| > 0 && equipment.value[0] != "none"
    ensures r != [] ==> r == equipment.value
  {
    if equipment.Some? && |equipment.value| > 0 && equipment.value[0] != "none" then equipment.value else []
  }
}
