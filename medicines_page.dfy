/**
 * The catalog page: the medicines shown for the `category` and `search`
 * query parameters, and the subtitle naming the selected category.
 * An absent query parameter is `None`.
 */
module MedicinesPage {
  import opened Wrappers
  import opened JsText
  import opened JsArray
  import opened MockData

  /** The dropdown's "All Categories" entry. */
  const AllCategoriesValue := "_all_"

  const BrowseSubtitle := "Browse our extensive selection"

  function ShowingSubtitle(categoryName: string): string {
    "Showing medicines in " + categoryName
  }

  /** `category.toLowerCase().replace(/\s+/g, '-')` */
  function CategorySlug(category: string): (slug: string)
    ensures |slug| <= |category|
    ensures forall i :: 0 <= i < |slug| ==> !IsJsWhitespace(slug[i]) && !('A' <= slug[i] <= 'Z')
  {
    var lower := Lower(category);
    var slug := DashWhitespaceRuns(lower);
    DashWhitespaceRunsFromInput(lower);
    slug
  }

  /** `!selectedCategory || selectedCategory === ALL_CATEGORIES_VALUE`: an absent, empty or "all" selection. */
  predicate NoCategoryFilter(selected: Option<string>) {
    selected.None? || selected.value == "" || selected.value == AllCategoriesValue
  }

  predicate CategoryMatch(selected: Option<string>, m: Medicine) {
    NoCategoryFilter(selected) || CategorySlug(m.category) == selected.value
  }

  /** `searchParams?.search?.toLowerCase() || ''` */
  function SearchTerm(search: Option<string>): string {
    if search.Some? then Lower(search.value) else ""
  }

  /** An empty term passes; otherwise the term must occur in the lower-cased name, description or category. */
  predicate SearchMatch(term: string, m: Medicine) {
    term == "" || Includes(Lower(m.name), term) || Includes(Lower(m.description), term) || Includes(Lower(m.category), term)
  }

  function KeepMedicine(selected: Option<string>, term: string): Medicine -> bool {
    (m: Medicine) => CategoryMatch(selected, m) && SearchMatch(term, m)
  }

  /** `filteredMedicines`: the catalog entries passing both tests, in catalog order. */
  function FilteredMedicines(catalog: seq<Medicine>, selected: Option<string>, search: Option<string>): (r: seq<Medicine>)
    ensures IsSubsequence(r, catalog)
    ensures forall i :: 0 <= i < |r| ==> r[i] in catalog && CategoryMatch(selected, r[i]) && SearchMatch(SearchTerm(search), r[i])
    ensures forall i :: 0 <= i < |catalog| && CategoryMatch(selected, catalog[i]) && SearchMatch(SearchTerm(search), catalog[i]) ==> catalog[i] in r
  {
    FilterIsSubsequence(KeepMedicine(selected, SearchTerm(search)), catalog);
    Filter(KeepMedicine(selected, SearchTerm(search)), catalog)
  }

  /** With no category selected and no search text, the whole catalog is shown, in order. */
  lemma {:induction false} NoFilterShowsAll(catalog: seq<Medicine>, selected: Option<string>, search: Option<string>)
    requires NoCategoryFilter(selected)
    requires search.None? || search.value == ""
    ensures FilteredMedicines(catalog, selected, search) == catalog
  {
    if catalog != [] {
      NoFilterShowsAll(catalog[1..], selected, search);
    }
  }

  /** The search ignores the case of the query. */
  lemma SearchIgnoresCase(catalog: seq<Medicine>, selected: Option<string>, query: string)
    ensures FilteredMedicines(catalog, selected, Some(Lower(query))) == FilteredMedicines(catalog, selected, Some(query))
  {
    LowerIdempotent(query);
  }

  lemma LowerCharKeepsNonSpace(c: char)
    requires !IsJsWhitespace(c)
    ensures !IsJsWhitespace(LowerChar(c))
  {
  }

  /** A category that does not start with white space slugs to a text starting with its lower-cased first letter. */
  lemma SlugHead(category: string)
    requires category != [] && !IsJsWhitespace(category[0])
    ensures CategorySlug(category) != [] && CategorySlug(category)[0] == LowerChar(category[0])
  {
    var low := Lower(category);
    LowerCharKeepsNonSpace(category[0]);
    assert DashWhitespaceRuns(low) == [low[0]] + DashWhitespaceRuns(low[1..]);
  }

  /** Two words separated by one space slug to the words joined by a dash. */
  lemma SlugTwoWords(first: string, second: string)
    requires forall i :: 0 <= i < |first| ==> !IsJsWhitespace(first[i])
    requires forall i :: 0 <= i < |second| ==> !IsJsWhitespace(second[i])
    ensures DashWhitespaceRuns(first + " " + second) == first + "-" + second
  {
    DashWhitespaceRunsIdentity(second);
    DashWhitespaceRunsJoin(first, " ", second);
  }

  lemma PainReliefSlug()
    ensures CategorySlug("Pain Relief") == "pain-relief"
  {
    assert Lower("Pain Relief") == "pain" + " " + "relief";
    SlugTwoWords("pain", "relief");
  }

  /** Three words separated by single spaces slug to the words joined by dashes. */
  lemma SlugThreeWords(first: string, second: string, third: string)
    requires forall i :: 0 <= i < |first| ==> !IsJsWhitespace(first[i])
    requires forall i :: 0 <= i < |second| ==> !IsJsWhitespace(second[i])
    requires forall i :: 0 <= i < |third| ==> !IsJsWhitespace(third[i])
    requires second != []
    ensures DashWhitespaceRuns(first + " " + (second + " " + third)) == first + "-" + (second + "-" + third)
  {
    SlugTwoWords(second, third);
    DashWhitespaceRunsJoin(first, " ", second + " " + third);
  }

  lemma ColdAndFluSlug()
    ensures CategorySlug("Cold & Flu") == "cold-&-flu"
  {
    assert Lower("Cold & Flu") == "cold" + " " + ("&" + " " + "flu");
    SlugThreeWords("cold", "&", "flu");
    assert "cold" + "-" + ("&" + "-" + "flu") == "cold-&-flu";
  }

  /** The category names the catalog's medicines carry. */
  predicate IsCatalogCategoryName(c: string) {
    c in {"Pain Relief", "Vitamins & Supplements", "Digestive Health", "Cold & Flu", "Skincare"}
  }

  lemma MockMedicineCategories()
    ensures forall i :: 0 <= i < |MockMedicines| ==> IsCatalogCategoryName(MockMedicines[i].category)
  {
  }

  lemma CatalogSlugs(c: string)
    requires IsCatalogCategoryName(c)
    ensures CategorySlug(c) != "cold-flu"
    ensures CategorySlug(c) == "pain-relief" <==> c == "Pain Relief"
  {
    if c == "Cold & Flu" {
      ColdAndFluSlug();
      assert "cold-&-flu"[5] != "cold-flu"[5];
    } else if c == "Pain Relief" {
      PainReliefSlug();
    } else {
      SlugHead(c);
    }
  }

  /** Whatever the search text, the dropdown's `cold-flu` id matches no catalog medicine: "Cold & Flu" slugs to `cold-&-flu`. */
  lemma ColdFluMatchesNothing(search: Option<string>)
    ensures FilteredMedicines(MockMedicines, Some("cold-flu"), search) == []
  {
    MockMedicineCategories();
    forall i | 0 <= i < |MockMedicines|
      ensures !CategoryMatch(Some("cold-flu"), MockMedicines[i])
    {
      CatalogSlugs(MockMedicines[i].category);
    }
  }

  lemma MockPainReliefPositions()
    ensures forall i :: 0 <= i < |MockMedicines| ==> (MockMedicines[i].category == "Pain Relief" <==> i in {0, 1, 6})
  {
  }

  /** Filtering ten entries with a test that holds at positions 0, 1 and 6 only. */
  lemma FilterAtZeroOneSix<T>(keep: T -> bool, s: seq<T>)
    requires |s| == 10
    requires forall i :: 0 <= i < |s| ==> (keep(s[i]) <==> i in {0, 1, 6})
    ensures Filter(keep, s) == [s[0], s[1], s[6]]
  {
    var head, gap, tail := s[..2], s[2..6], s[6..];
    assert s == head + gap + tail;
    assert forall i :: 0 <= i < |head| ==> head[i] == s[i];
    assert forall i :: 0 <= i < |gap| ==> gap[i] == s[i + 2];
    assert forall i :: 0 <= i < |tail| ==> tail[i] == s[i + 6];
    FilterAllKept(keep, head);
    FilterNoneKept(keep, gap);
    FilterSingleHit(keep, tail, 0);
    FilterAppend(keep, head + gap, tail);
    FilterAppend(keep, head, gap);
  }

  /** `pain-relief` selects exactly the three "Pain Relief" medicines, in catalog order. */
  lemma PainReliefMatches()
    ensures FilteredMedicines(MockMedicines, Some("pain-relief"), None) == [MockMedicines[0], MockMedicines[1], MockMedicines[6]]
  {
    var keep := KeepMedicine(Some("pain-relief"), "");
    MockMedicineCategories();
    MockPainReliefPositions();
    forall i | 0 <= i < |MockMedicines|
      ensures keep(MockMedicines[i]) <==> i in {0, 1, 6}
    {
      CatalogSlugs(MockMedicines[i].category);
    }
    FilterAtZeroOneSix(keep, MockMedicines);
  }

  /** `currentCategory`: the category whose id is the selection, unless the selection is absent, empty or "all". */
  function CurrentCategory(categories: seq<Category>, selected: Option<string>): (r: Option<Category>)
    ensures r.Some? <==> !NoCategoryFilter(selected) && exists i :: 0 <= i < |categories| && categories[i].id == selected.value
    ensures r.Some? ==> r.value in categories && r.value.id == selected.value
  {
    if NoCategoryFilter(selected) then None
    else
      var r := Find(categories, MatchesCategoryId(selected.value));
      assert r.None? ==> forall i :: 0 <= i < |categories| ==> !MatchesCategoryId(selected.value)(categories[i]);
      r
  }

  /** `pageSubtitle` */
  function PageSubtitle(categories: seq<Category>, selected: Option<string>): (r: string)
    ensures NoCategoryFilter(selected) ==> r == BrowseSubtitle
    ensures r == BrowseSubtitle || "Showing medicines in " <= r
  {
    match CurrentCategory(categories, selected)
    case Some(c) => ShowingSubtitle(c.name)
    case None => BrowseSubtitle
  }

  /** The subtitle names a category exactly when the selection is a known category id, and then it names that category. */
  lemma SubtitleNamesCategory(categories: seq<Category>, selected: Option<string>)
    ensures PageSubtitle(categories, selected) != BrowseSubtitle <==>
      !NoCategoryFilter(selected) && exists i :: 0 <= i < |categories| && categories[i].id == selected.value
    ensures PageSubtitle(categories, selected) != BrowseSubtitle ==>
      exists i :: 0 <= i < |categories| && categories[i].id == selected.value && PageSubtitle(categories, selected) == ShowingSubtitle(categories[i].name)
  {
    var cur := CurrentCategory(categories, selected);
    if cur.Some? {
      assert ShowingSubtitle(cur.value.name)[0] == 'S' != BrowseSubtitle[0];
    }
  }

  /** `cold-flu` is the id of the second category. */
  lemma ColdFluCurrent()
    ensures CurrentCategory(MockCategories, Some("cold-flu")) == Some(MockCategories[1])
  {
    assert MockCategories[0].id != "cold-flu";
    assert MockCategories[1].id == "cold-flu";
    assert Find(MockCategories, MatchesCategoryId("cold-flu")) == Some(MockCategories[1]);
  }

  /** For `cold-flu` the subtitle still reads "Showing medicines in Cold & Flu", over an empty list. */
  lemma ColdFluSubtitle()
    ensures PageSubtitle(MockCategories, Some("cold-flu")) == ShowingSubtitle("Cold & Flu")
  {
    ColdFluCurrent();
  }

  // ------------------------------------------------- selecting by category id

  /**
   * The dropdown and the category cards send a category's id, but the filter
   * compares it with the slug of each medicine's category name, and the two
   * differ for "Cold & Flu" and "Vitamins & Supplements". The test meant:
   * the medicine belongs to the category whose id is selected.
   */
  predicate CategoryIdMatch(categories: seq<Category>, selected: Option<string>, m: Medicine) {
    NoCategoryFilter(selected)
    || (CurrentCategory(categories, selected).Some? && m.category == CurrentCategory(categories, selected).value.name)
  }

  function KeepMedicineById(categories: seq<Category>, selected: Option<string>, term: string): Medicine -> bool {
    (m: Medicine) => CategoryIdMatch(categories, selected, m) && SearchMatch(term, m)
  }

  /** The catalog filtered with the category test keyed by id, the search test unchanged. */
  function FilteredMedicinesById(categories: seq<Category>, catalog: seq<Medicine>, selected: Option<string>, search: Option<string>): (r: seq<Medicine>)
    ensures IsSubsequence(r, catalog)
    ensures forall i :: 0 <= i < |r| ==> r[i] in catalog && CategoryIdMatch(categories, selected, r[i]) && SearchMatch(SearchTerm(search), r[i])
    ensures forall i :: 0 <= i < |catalog| && CategoryIdMatch(categories, selected, catalog[i]) && SearchMatch(SearchTerm(search), catalog[i]) ==> catalog[i] in r
  {
    FilterIsSubsequence(KeepMedicineById(categories, selected, SearchTerm(search)), catalog);
    Filter(KeepMedicineById(categories, selected, SearchTerm(search)), catalog)
  }

  /** Selecting a listed category's id keeps exactly that category's medicines (up to the search test). */
  lemma SelectingIdKeepsItsCategory(categories: seq<Category>, catalog: seq<Medicine>, k: nat, search: Option<string>, m: Medicine)
    requires k < |categories| && categories[k].id != "" && categories[k].id != AllCategoriesValue
    requires forall j :: 0 <= j < k ==> categories[j].id != categories[k].id
    requires m in catalog && SearchMatch(SearchTerm(search), m)
    ensures m in FilteredMedicinesById(categories, catalog, Some(categories[k].id), search) <==> m.category == categories[k].name
  {
    var cur := CurrentCategory(categories, Some(categories[k].id));
    var i :| 0 <= i < |catalog| && catalog[i] == m;
    assert Find(categories, MatchesCategoryId(categories[k].id)) == Some(categories[k]) by {
      assert MatchesCategoryId(categories[k].id)(categories[k]);
    }
    assert cur == Some(categories[k]);
  }

  lemma MockColdFluPosition()
    ensures forall i :: 0 <= i < |MockMedicines| ==> (MockMedicines[i].category == "Cold & Flu" <==> i == 4)
  {
  }

  /** With no search text, the corrected filter keeps a medicine iff its category is the current one. */
  lemma KeptByIdWithoutSearch(categories: seq<Category>, selected: Option<string>, c: Category, m: Medicine)
    requires CurrentCategory(categories, selected) == Some(c)
    ensures KeepMedicineById(categories, selected, "")(m) <==> m.category == c.name
  {
  }

  /** Keyed by id, `cold-flu` lists the one "Cold & Flu" medicine. */
  lemma ColdFluByIdMatchesSyrup()
    ensures FilteredMedicinesById(MockCategories, MockMedicines, Some("cold-flu"), None) == [MockMedicines[4]]
  {
    var keep := KeepMedicineById(MockCategories, Some("cold-flu"), "");
    ColdFluCurrent();
    MockColdFluPosition();
    forall i | 0 <= i < |MockMedicines|
      ensures keep(MockMedicines[i]) <==> i == 4
    {
      KeptByIdWithoutSearch(MockCategories, Some("cold-flu"), MockCategories[1], MockMedicines[i]);
    }
    FilterSingleHit(keep, MockMedicines, 4);
  }
}
