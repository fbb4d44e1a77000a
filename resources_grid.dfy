/** The filter panel of src/components/Resources/ResourcesGrid.tsx: a free-text search and
    two selectors narrow the resource list stage by stage; "all" (or an empty search)
    leaves a stage out. The bookmark and open callbacks only log and are left out. */
module ResourcesGrid {
  import opened Wrappers
  import opened Seqs
  import opened Text
  import opened LearnTypes

  /** The search stage: title, description, some tag or, when there is one, the author
      contains the term. */
  predicate MatchesSearch(r: Resource, term: string) {
    IncludesIgnoreCase(r.title, term) || IncludesIgnoreCase(r.description, term)
    || AnyIncludesIgnoreCase(r.tags, term)
    || (r.author.Some? && IncludesIgnoreCase(r.author.value, term))
  }

  /** Whether a resource passes every active stage. */
  predicate Keeps(r: Resource, searchTerm: string, kind: string, difficulty: string) {
    (searchTerm == "" || MatchesSearch(r, searchTerm))
    && (kind == "all" || r.kind == kind)
    && (difficulty == "all" || r.difficulty == difficulty)
  }

  function KeepsAll(searchTerm: string, kind: string, difficulty: string): Resource -> bool {
    (r: Resource) => Keeps(r, searchTerm, kind, difficulty)
  }

  /** The reference list: the resources passing every active stage, in their order. */
  function Filtered(resources: seq<Resource>, searchTerm: string, kind: string, difficulty: string)
    : (r: seq<Resource>)
    ensures IsSubsequence(r, resources)
    ensures forall x :: x in r <==> x in resources && Keeps(x, searchTerm, kind, difficulty)
  {
    Filter(resources, KeepsAll(searchTerm, kind, difficulty))
  }

  /** With both selectors on "all" and no search, nothing is filtered out. */
  lemma ClearedFiltersKeepAll(resources: seq<Resource>)
    ensures Filtered(resources, "", "all", "all") == resources
  {
    FilterAll(resources, KeepsAll("", "all", "all"));
  }

  /** A resource without an author is found only through its title, description or tags. */
  lemma AuthorlessSearch(r: Resource, term: string)
    requires r.author.None?
    ensures MatchesSearch(r, term) <==>
              IncludesIgnoreCase(r.title, term) || IncludesIgnoreCase(r.description, term) || AnyIncludesIgnoreCase(r.tags, term)
  {
  }

  /** The stage predicates. */
  function SearchHit(term: string): Resource -> bool {
    (r: Resource) => MatchesSearch(r, term)
  }

  function KindIs(kind: string): Resource -> bool {
    (r: Resource) => r.kind == kind
  }

  function DifficultyIs(difficulty: string): Resource -> bool {
    (r: Resource) => r.difficulty == difficulty
  }

  /** The filter panel's state, as one value. */
  datatype GridState = GridState(
    filteredResources: seq<Resource>,
    searchTerm: string,
    typeFilter: string,
    difficultyFilter: string)

  class ResourceGrid {
    const resources: seq<Resource>
    var filteredResources: seq<Resource>
    var searchTerm: string
    var typeFilter: string
    var difficultyFilter: string

    function State(): GridState
      reads this
    {
      GridState(filteredResources, searchTerm, typeFilter, difficultyFilter)
    }

    /** The shown list agrees with the selectors. */
    predicate Synced()
      reads this
    {
      filteredResources == Filtered(resources, searchTerm, typeFilter, difficultyFilter)
    }

    /** The initial state: every resource shown, no search, both selectors on "all". */
    constructor(resources: seq<Resource>)
      ensures this.resources == resources
      ensures State() == GridState(resources, "", "all", "all")
      ensures Synced()
    {
      this.resources := resources;
      filteredResources := resources;
      searchTerm := "";
      typeFilter := "all";
      difficultyFilter := "all";
      ClearedFiltersKeepAll(resources);
    }

    /** The search field and the two selectors. */
    method SetSearchTerm(term: string)
      modifies this
      ensures State() == old(State()).(searchTerm := term)
    {
      searchTerm := term;
    }

    method SetTypeFilter(kind: string)
      modifies this
      ensures State() == old(State()).(typeFilter := kind)
    {
      typeFilter := kind;
    }

    method SetDifficultyFilter(difficulty: string)
      modifies this
      ensures State() == old(State()).(difficultyFilter := difficulty)
    {
      difficultyFilter := difficulty;
    }

    /** The filter effect: narrow a copy of the list stage by stage and show the result. */
    method ApplyFilters()
      modifies this
      ensures State() == old(State()).(filteredResources := Filtered(resources, searchTerm, typeFilter, difficultyFilter))
      ensures Synced()
    {
      var term, kind, difficulty := searchTerm, typeFilter, difficultyFilter;
      ghost var k1 := (r: Resource) => term == "" || MatchesSearch(r, term);
      ghost var k2 := (r: Resource) => k1(r) && (kind == "all" || r.kind == kind);
      ghost var k3 := KeepsAll(term, kind, difficulty);

      var filtered := resources;
      if term != "" {
        filtered := Filter(filtered, SearchHit(term));
      }
      FilterFirstStage(resources, SearchHit(term), k1, term != "");
      if kind != "all" {
        filtered := Filter(filtered, KindIs(kind));
      }
      FilterStage(resources, k1, KindIs(kind), k2, kind != "all");
      if difficulty != "all" {
        filtered := Filter(filtered, DifficultyIs(difficulty));
      }
      FilterStage(resources, k2, DifficultyIs(difficulty), k3, difficulty != "all");
      filteredResources := filtered;
    }

    /** `clearFilters`: empty search, both selectors back to "all". */
    method ClearFilters()
      modifies this
      ensures State() == old(State()).(searchTerm := "", typeFilter := "all", difficultyFilter := "all")
    {
      searchTerm := "";
      typeFilter := "all";
      difficultyFilter := "all";
    }
  }

  /** Clearing the filters and letting the effect run shows the whole list again. */
  method ClearAndRefresh(g: ResourceGrid)
    modifies g
    ensures g.filteredResources == g.resources
  {
    g.ClearFilters();
    g.ApplyFilters();
    ClearedFiltersKeepAll(g.resources);
  }
}
