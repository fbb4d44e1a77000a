/** The search page of src/components/Search/AdvancedSearch.tsx: the same suggestions as the
    header box (three of each kind), and a full search that scores every path and resource by
    the fields the query hits (title 10, description 5, tags 7, skills 8, skills only for
    paths), keeps the positive scores and lists them best first, ties in catalogue order with
    paths before resources. */
module AdvancedSearch {
  import opened Seqs
  import opened Sorting
  import opened Text
  import opened LearnTypes
  import opened SearchBar

  /** A field the scorer looks at, in the order it looks (`matchedFields`). */
  datatype Field = TitleField | DescriptionField | TagsField | SkillsField

  /** Where a field comes in the checking order. */
  function Position(f: Field): nat {
    match f
    case TitleField => 0
    case DescriptionField => 1
    case TagsField => 2
    case SkillsField => 3
  }

  /** Strictly in checking order, hence without repeats. */
  ghost predicate InCheckingOrder(fs: seq<Field>) {
    forall i, j :: 0 <= i < j < |fs| ==> Position(fs[i]) < Position(fs[j])
  }

  /** What a hit on each field adds to the score. */
  function Weight(f: Field): nat {
    match f
    case TitleField => 10
    case DescriptionField => 5
    case TagsField => 7
    case SkillsField => 8
  }

  /** The sum of the weights of `fs`. */
  function TotalWeight(fs: seq<Field>): nat
    decreases |fs|
  {
    if fs == [] then 0 else TotalWeight(fs[..|fs| - 1]) + Weight(fs[|fs| - 1])
  }

  /** Whether the query occurs, ignoring case, in the field `f` of `item`; a resource has no
      skills to hit. */
  predicate FieldHit(item: Item, f: Field, q: string) {
    match f
    case TitleField => IncludesIgnoreCase(item.Title(), q)
    case DescriptionField => IncludesIgnoreCase(item.Description(), q)
    case TagsField => AnyIncludesIgnoreCase(item.Tags(), q)
    case SkillsField => item.PathItem? && AnyIncludesIgnoreCase(item.path.skills, q)
  }

  /** Whether the check of field `f` succeeded, given the four outcomes. */
  predicate Flag(f: Field, t: bool, d: bool, g: bool, k: bool) {
    match f
    case TitleField => t
    case DescriptionField => d
    case TagsField => g
    case SkillsField => k
  }

  /** The hit fields from the outcomes of the four checks, in checking order. */
  function HitsFrom(t: bool, d: bool, g: bool, k: bool): seq<Field> {
    (if t then [TitleField] else []) + (if d then [DescriptionField] else [])
    + (if g then [TagsField] else []) + (if k then [SkillsField] else [])
  }

  lemma {:induction false} TotalWeightAppend(a: seq<Field>, b: seq<Field>)
    ensures TotalWeight(a + b) == TotalWeight(a) + TotalWeight(b)
    decreases |b|
  {
    if b == [] {
      assert a + b == a;
    } else {
      var c := b[..|b| - 1];
      assert (a + b)[..|a + b| - 1] == a + c;
      TotalWeightAppend(a, c);
    }
  }

  /** The list names exactly the successful checks, in checking order, and its weight is
      the sum of theirs. */
  lemma HitsFromFacts(t: bool, d: bool, g: bool, k: bool)
    ensures forall f :: f in HitsFrom(t, d, g, k) <==> Flag(f, t, d, g, k)
    ensures InCheckingOrder(HitsFrom(t, d, g, k))
    ensures TotalWeight(HitsFrom(t, d, g, k))
         == (if t then 10 else 0) + (if d then 5 else 0) + (if g then 7 else 0) + (if k then 8 else 0)
  {
    HitsFromMembers(t, d, g, k);
    HitsFromOrdered(t, d, g, k);
    HitsFromWeight(t, d, g, k);
  }

  lemma HitsFromMembers(t: bool, d: bool, g: bool, k: bool)
    ensures forall f :: f in HitsFrom(t, d, g, k) <==> Flag(f, t, d, g, k)
  {
  }

  lemma HitsFromOrdered(t: bool, d: bool, g: bool, k: bool)
    ensures InCheckingOrder(HitsFrom(t, d, g, k))
  {
  }

  lemma HitsFromWeight(t: bool, d: bool, g: bool, k: bool)
    ensures TotalWeight(HitsFrom(t, d, g, k))
         == (if t then 10 else 0) + (if d then 5 else 0) + (if g then 7 else 0) + (if k then 8 else 0)
  {
    var x1: seq<Field> := if t then [TitleField] else [];
    var x2: seq<Field> := if d then [DescriptionField] else [];
    var x3: seq<Field> := if g then [TagsField] else [];
    var x4: seq<Field> := if k then [SkillsField] else [];
    TotalWeightAppend(x1, x2);
    TotalWeightAppend(x1 + x2, x3);
    TotalWeightAppend(x1 + x2 + x3, x4);
    SingleWeight(TitleField);
    SingleWeight(DescriptionField);
    SingleWeight(TagsField);
    SingleWeight(SkillsField);
  }

  lemma SingleWeight(f: Field)
    ensures TotalWeight([f]) == Weight(f)
  {
    assert [f][..0] == [];
  }

  /** The fields of `item` the query hits, in checking order. */
  function Hits(item: Item, q: string): (r: seq<Field>)
    ensures forall f :: f in r <==> FieldHit(item, f, q)
    ensures InCheckingOrder(r)
  {
    var t, d := FieldHit(item, TitleField, q), FieldHit(item, DescriptionField, q);
    var g, k := FieldHit(item, TagsField, q), FieldHit(item, SkillsField, q);
    HitsFromFacts(t, d, g, k);
    HitsFrom(t, d, g, k)
  }

  /** The relevance score of `item` for the query. */
  function Relevance(item: Item, q: string): nat {
    TotalWeight(Hits(item, q))
  }

  /** The scoring callback: add each hit field's weight and note the field, in order. */
  method Score(item: Item, q: string) returns (score: int, matchedFields: seq<Field>)
    ensures matchedFields == Hits(item, q)
    ensures score == Relevance(item, q)
  {
    ghost var t, d := FieldHit(item, TitleField, q), FieldHit(item, DescriptionField, q);
    ghost var g, k := FieldHit(item, TagsField, q), FieldHit(item, SkillsField, q);
    score := 0;
    matchedFields := [];
    if IncludesIgnoreCase(item.Title(), q) {
      score := score + 10;
      matchedFields := matchedFields + [TitleField];
    }
    assert matchedFields == (if t then [TitleField] else []);
    ghost var m1, s1 := matchedFields, score;
    if IncludesIgnoreCase(item.Description(), q) {
      score := score + 5;
      matchedFields := matchedFields + [DescriptionField];
    }
    assert matchedFields == m1 + (if d then [DescriptionField] else []);
    ghost var m2, s2 := matchedFields, score;
    if AnyIncludesIgnoreCase(item.Tags(), q) {
      score := score + 7;
      matchedFields := matchedFields + [TagsField];
    }
    assert matchedFields == m2 + (if g then [TagsField] else []);
    ghost var m3 := matchedFields;
    if item.PathItem? && AnyIncludesIgnoreCase(item.path.skills, q) {
      score := score + 8;
      matchedFields := matchedFields + [SkillsField];
    }
    assert matchedFields == m3 + (if k then [SkillsField] else []);
    assert score == (if t then 10 else 0) + (if d then 5 else 0) + (if g then 7 else 0) + (if k then 8 else 0);
    HitsFromWeight(t, d, g, k);
  }

  /** An item scores above zero exactly when the query hits one of its fields. */
  lemma RelevantIffHit(item: Item, q: string)
    ensures Relevance(item, q) > 0 <==> exists f :: FieldHit(item, f, q)
  {
    var t, d := FieldHit(item, TitleField, q), FieldHit(item, DescriptionField, q);
    var g, k := FieldHit(item, TagsField, q), FieldHit(item, SkillsField, q);
    HitsFromFacts(t, d, g, k);
    if exists f :: FieldHit(item, f, q) {
      var f :| FieldHit(item, f, q);
      assert Flag(f, t, d, g, k);
    }
  }

  /** A path scores at most 10 + 5 + 7 + 8 = 30; a resource, which has no skills, at most
      22 and never lists the skills field. */
  lemma RelevanceBounds(item: Item, q: string)
    ensures Relevance(item, q) <= 30
    ensures item.ResourceItem? ==> Relevance(item, q) <= 22 && SkillsField !in Hits(item, q)
  {
    var t, d := FieldHit(item, TitleField, q), FieldHit(item, DescriptionField, q);
    var g, k := FieldHit(item, TagsField, q), FieldHit(item, SkillsField, q);
    assert Hits(item, q) == HitsFrom(t, d, g, k);
    HitsFromWeight(t, d, g, k);
    if item.ResourceItem? {
      assert !k;
      HitsFromMembers(t, d, g, k);
    }
  }

  // ---------------------------------------------------------------------------------
  // Results

  /** One entry of the result list. */
  datatype SearchResult = SearchResult(item: Item, relevanceScore: int, matchedFields: seq<Field>)

  function ResultOf(item: Item, q: string): SearchResult {
    SearchResult(item, Relevance(item, q), Hits(item, q))
  }

  /** The scored items with a positive score, in their order (`.map(...).filter(Boolean)`). */
  function Scored(items: seq<Item>, q: string): (r: seq<SearchResult>)
    ensures forall x :: x in r ==> x.item in items && x == ResultOf(x.item, q) && x.relevanceScore > 0
    ensures forall it :: it in items && Relevance(it, q) > 0 ==> ResultOf(it, q) in r
    decreases |items|
  {
    if items == [] then []
    else
      var init, last := items[..|items| - 1], items[|items| - 1];
      assert items == init + [last];
      Scored(init, q) + (if Relevance(last, q) > 0 then [ResultOf(last, q)] else [])
  }

  /** The scoring pass over one list. */
  method ScoreAll(items: seq<Item>, q: string) returns (rs: seq<SearchResult>)
    ensures rs == Scored(items, q)
  {
    rs := [];
    for i := 0 to |items|
      invariant rs == Scored(items[..i], q)
    {
      var score, fields := Score(items[i], q);
      ScoredNext(items, i, q);
      if score > 0 {
        rs := rs + [SearchResult(items[i], score, fields)];
      }
    }
    assert items[..|items|] == items;
  }

  lemma ScoredNext(items: seq<Item>, i: nat, q: string)
    requires i < |items|
    ensures Scored(items[..i + 1], q)
         == Scored(items[..i], q) + (if Relevance(items[i], q) > 0 then [ResultOf(items[i], q)] else [])
  {
    assert items[..i + 1][..i] == items[..i];
  }

  /** The sort key: higher scores first. */
  function ScoreDescending(): SearchResult -> int {
    (r: SearchResult) => -r.relevanceScore
  }

  /** The result list for a query: the scored paths, then the scored resources, stably
      sorted by decreasing score (`Array.prototype.sort` is stable). */
  function Ranked(paths: seq<LearningPath>, resources: seq<Resource>, q: string): (r: seq<SearchResult>)
    ensures |r| == |Scored(AsPathItems(paths), q)| + |Scored(AsResourceItems(resources), q)|
    ensures forall x :: x in r ==>
              x.item in AsPathItems(paths) + AsResourceItems(resources)
              && x == ResultOf(x.item, q) && x.relevanceScore > 0
  {
    var all := Scored(AsPathItems(paths), q) + Scored(AsResourceItems(resources), q);
    var sorted := SortBy(all, ScoreDescending());
    SameMembers(sorted, all);
    sorted
  }

  lemma SameMembers<T>(a: seq<T>, b: seq<T>)
    requires multiset(a) == multiset(b)
    ensures |a| == |b|
    ensures forall x :: x in a ==> x in b
  {
    assert |a| == |multiset(a)| == |multiset(b)| == |b|;
    forall x | x in a ensures x in b {
      assert x in multiset(a);
    }
  }

  /** The list is a permutation of the positive-scoring paths and resources, best first. */
  lemma RankedOrdered(paths: seq<LearningPath>, resources: seq<Resource>, q: string)
    ensures var r := Ranked(paths, resources, q);
            && multiset(r) == multiset(Scored(AsPathItems(paths), q) + Scored(AsResourceItems(resources), q))
            && forall i, j :: 0 <= i < j < |r| ==> r[i].relevanceScore >= r[j].relevanceScore
  {
    var r := Ranked(paths, resources, q);
    assert SortedBy(r, ScoreDescending());
    forall i, j | 0 <= i < j < |r| ensures r[i].relevanceScore >= r[j].relevanceScore {
      assert ScoreDescending()(r[i]) <= ScoreDescending()(r[j]);
    }
  }

  /** A catalogue entry is listed exactly when the query hits one of its fields. */
  lemma RankedMembers(paths: seq<LearningPath>, resources: seq<Resource>, q: string, item: Item)
    requires item in AsPathItems(paths) + AsResourceItems(resources)
    ensures ResultOf(item, q) in Ranked(paths, resources, q) <==> exists f :: FieldHit(item, f, q)
  {
    RelevantIffHit(item, q);
    var ps, rs := Scored(AsPathItems(paths), q), Scored(AsResourceItems(resources), q);
    var x := ResultOf(item, q);
    assert x in Ranked(paths, resources, q) <==> x in multiset(ps + rs);
    if item in AsPathItems(paths) {
      assert Relevance(item, q) > 0 ==> x in ps;
    } else {
      assert Relevance(item, q) > 0 ==> x in rs;
    }
  }

  /** Among results of equal score, the paths come first and then the resources, each in
      catalogue order. */
  lemma TiesKeepCatalogueOrder(paths: seq<LearningPath>, resources: seq<Resource>, q: string, score: int)
    ensures WithKey(Ranked(paths, resources, q), ScoreDescending(), -score)
         == WithKey(Scored(AsPathItems(paths), q), ScoreDescending(), -score)
          + WithKey(Scored(AsResourceItems(resources), q), ScoreDescending(), -score)
  {
    TiesOfJoined(Scored(AsPathItems(paths), q), Scored(AsResourceItems(resources), q), score);
  }

  lemma TiesOfJoined(ps: seq<SearchResult>, rs: seq<SearchResult>, score: int)
    ensures WithKey(SortBy(ps + rs, ScoreDescending()), ScoreDescending(), -score)
         == WithKey(ps, ScoreDescending(), -score) + WithKey(rs, ScoreDescending(), -score)
  {
    SortByStableAppend(ps, rs, ScoreDescending(), -score);
  }

  // ---------------------------------------------------------------------------------
  // The page

  /** The page's state, as one value. */
  datatype PageState = PageState(
    searchValue: string,
    suggestions: seq<Item>,
    showSuggestions: bool,
    results: seq<SearchResult>)

  /** The page's suggestion list: three paths and three resources at most. */
  function PageSuggestions(paths: seq<LearningPath>, resources: seq<Resource>, value: string): seq<Item> {
    Suggestions(paths, resources, PathHit(value), ResourceHit(value), 3, 3)
  }

  class SearchPage {
    const paths: seq<LearningPath>
    const resources: seq<Resource>
    var searchValue: string
    var suggestions: seq<Item>
    var showSuggestions: bool
    var results: seq<SearchResult>

    function State(): PageState
      reads this
    {
      PageState(searchValue, suggestions, showSuggestions, results)
    }

    /** An open list belongs to the non-empty text in the box. */
    predicate Consistent()
      reads this
    {
      showSuggestions ==> |searchValue| > 0 && suggestions == PageSuggestions(paths, resources, searchValue)
    }

    /** The initial state: empty box, no list, no results. */
    constructor(paths: seq<LearningPath>, resources: seq<Resource>)
      ensures this.paths == paths && this.resources == resources
      ensures State() == PageState("", [], false, [])
      ensures Consistent()
    {
      this.paths := paths;
      this.resources := resources;
      searchValue := "";
      suggestions := [];
      showSuggestions := false;
      results := [];
    }

    /** `handleSearchChange`: non-empty text opens the suggestions and keeps the results;
        empty text closes the list and clears the results too. */
    method SearchChange(value: string)
      modifies this
      ensures |value| > 0 ==> State() == old(State()).(searchValue := value,
                suggestions := PageSuggestions(paths, resources, value), showSuggestions := true)
      ensures |value| == 0 ==> State() == PageState(value, [], false, [])
      ensures Consistent()
    {
      searchValue := value;
      if |value| > 0 {
        var pathSuggestions := AsPathItems(Take(Filter(paths, PathHit(value)), 3));
        var resourceSuggestions := AsResourceItems(Take(Filter(resources, ResourceHit(value)), 3));
        suggestions := pathSuggestions + resourceSuggestions;
        showSuggestions := true;
      } else {
        suggestions := [];
        showSuggestions := false;
        results := [];
      }
    }

    /** `handleSearch(query)`: the query, or the box's text when the query is empty or
        absent (both read as ""); nothing happens when that is empty too. Otherwise the
        ranked results are shown, the list closes and the box shows the query. */
    method Search(query: string)
      modifies this
      ensures var sq := if query != "" then query else old(searchValue);
              && (sq == "" ==> State() == old(State()))
              && (sq != "" ==> State() == old(State()).(results := Ranked(paths, resources, sq),
                                                        showSuggestions := false, searchValue := sq))
      ensures Consistent() <== old(Consistent())
    {
      var searchQuery := if query != "" then query else searchValue;
      if searchQuery == "" {
        return;
      }
      var pathResults := ScoreAll(AsPathItems(paths), searchQuery);
      var resourceResults := ScoreAll(AsResourceItems(resources), searchQuery);
      results := SortBy(pathResults + resourceResults, ScoreDescending());
      showSuggestions := false;
      searchValue := searchQuery;
    }

    /** `handleSuggestionClick`: a full search for the suggestion's title. */
    method SuggestionClick(s: Item)
      modifies this
      ensures var sq := if s.Title() != "" then s.Title() else old(searchValue);
              && (sq == "" ==> State() == old(State()))
              && (sq != "" ==> State() == old(State()).(results := Ranked(paths, resources, sq),
                                                        showSuggestions := false, searchValue := sq))
      ensures Consistent() <== old(Consistent())
    {
      Search(s.Title());
    }

    /** `handleClickAway`. */
    method ClickAway()
      modifies this
      ensures State() == old(State()).(showSuggestions := false)
      ensures Consistent()
    {
      showSuggestions := false;
    }

    /** The "clear search" button of the no-results panel: only the text is emptied. */
    method ClearQuery()
      modifies this
      ensures State() == old(State()).(searchValue := "")
    {
      searchValue := "";
    }
  }
}
