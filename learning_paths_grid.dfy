/** The filter panel of src/components/LearningPath/LearningPathsGrid.tsx: a free-text search
    and three selectors narrow the path list stage by stage; "all" (or an empty search)
    leaves a stage out. The card callbacks only log and are left out. */
module LearningPathsGrid {
  import opened Seqs
  import opened Text
  import opened LearnTypes

  /** The search stage: title, description, some skill or some tag contains the term. */
  predicate MatchesSearch(p: LearningPath, term: string) {
    IncludesIgnoreCase(p.title, term) || IncludesIgnoreCase(p.description, term)
    || AnyIncludesIgnoreCase(p.skills, term) || AnyIncludesIgnoreCase(p.tags, term)
  }

  /** The status stage, for the four statuses the selector offers; any other value
      (including "all") keeps every path. Completion needs no enrolment. */
  predicate MatchesStatus(p: LearningPath, status: string) {
    if status == "enrolled" then p.enrolled
    else if status == "completed" then p.progress == 100
    else if status == "in-progress" then p.enrolled && 0 < p.progress < 100
    else if status == "not-started" then !p.enrolled
    else true
  }

  /** Whether a path passes every active stage. */
  predicate Keeps(p: LearningPath, searchTerm: string, difficulty: string, category: string, status: string) {
    (searchTerm == "" || MatchesSearch(p, searchTerm))
    && (difficulty == "all" || p.difficulty == difficulty)
    && (category == "all" || p.category == category)
    && MatchesStatus(p, status)
  }

  /** The reference list: the paths passing every active stage, in their order. */
  function Filtered(paths: seq<LearningPath>, searchTerm: string, difficulty: string, category: string, status: string)
    : (r: seq<LearningPath>)
    ensures IsSubsequence(r, paths)
    ensures forall p :: p in r <==> p in paths && Keeps(p, searchTerm, difficulty, category, status)
  {
    Filter(paths, KeepsAll(searchTerm, difficulty, category, status))
  }

  function KeepsAll(searchTerm: string, difficulty: string, category: string, status: string): LearningPath -> bool {
    (p: LearningPath) => Keeps(p, searchTerm, difficulty, category, status)
  }

  /** With every selector on "all" and no search, nothing is filtered out. */
  lemma ClearedFiltersKeepAll(paths: seq<LearningPath>)
    ensures Filtered(paths, "", "all", "all", "all") == paths
  {
    FilterAll(paths, KeepsAll("", "all", "all", "all"));
  }

  /** The "completed" status shows exactly the finished paths, enrolled or not. */
  lemma CompletedIgnoresEnrolment(paths: seq<LearningPath>)
    ensures forall p :: p in Filtered(paths, "", "all", "all", "completed") <==> p in paths && p.progress == 100
  {
  }

  /** The stage predicates, named so that the method and the lemmas refer to the same
      function values. */
  function SearchHit(term: string): LearningPath -> bool {
    (p: LearningPath) => MatchesSearch(p, term)
  }

  function DifficultyIs(difficulty: string): LearningPath -> bool {
    (p: LearningPath) => p.difficulty == difficulty
  }

  function CategoryIs(category: string): LearningPath -> bool {
    (p: LearningPath) => p.category == category
  }

  function StatusIs(status: string): LearningPath -> bool {
    (p: LearningPath) => MatchesStatus(p, status)
  }

  /** The filter panel's state, as one value. */
  datatype GridState = GridState(
    filteredPaths: seq<LearningPath>,
    searchTerm: string,
    difficultyFilter: string,
    categoryFilter: string,
    statusFilter: string)

  class PathsGrid {
    const paths: seq<LearningPath>
    var filteredPaths: seq<LearningPath>
    var searchTerm: string
    var difficultyFilter: string
    var categoryFilter: string
    var statusFilter: string

    function State(): GridState
      reads this
    {
      GridState(filteredPaths, searchTerm, difficultyFilter, categoryFilter, statusFilter)
    }

    /** The shown list agrees with the selectors. */
    predicate Synced()
      reads this
    {
      filteredPaths == Filtered(paths, searchTerm, difficultyFilter, categoryFilter, statusFilter)
    }

    /** The initial state: every path shown, no search, every selector on "all". */
    constructor(paths: seq<LearningPath>)
      ensures this.paths == paths
      ensures State() == GridState(paths, "", "all", "all", "all")
      ensures Synced()
    {
      this.paths := paths;
      filteredPaths := paths;
      searchTerm := "";
      difficultyFilter := "all";
      categoryFilter := "all";
      statusFilter := "all";
      ClearedFiltersKeepAll(paths);
    }

    /** The search field and the three selectors. */
    method SetSearchTerm(term: string)
      modifies this
      ensures State() == old(State()).(searchTerm := term)
    {
      searchTerm := term;
    }

    method SetDifficultyFilter(difficulty: string)
      modifies this
      ensures State() == old(State()).(difficultyFilter := difficulty)
    {
      difficultyFilter := difficulty;
    }

    method SetCategoryFilter(category: string)
      modifies this
      ensures State() == old(State()).(categoryFilter := category)
    {
      categoryFilter := category;
    }

    method SetStatusFilter(status: string)
      modifies this
      ensures State() == old(State()).(statusFilter := status)
    {
      statusFilter := status;
    }

    /** The filter effect: narrow a copy of the list stage by stage and show the result. */
    method ApplyFilters()
      modifies this
      ensures State() == old(State()).(filteredPaths := Filtered(paths, searchTerm, difficultyFilter, categoryFilter, statusFilter))
      ensures Synced()
    {
      var term, difficulty, category, status := searchTerm, difficultyFilter, categoryFilter, statusFilter;
      ghost var k1 := (p: LearningPath) => term == "" || MatchesSearch(p, term);
      ghost var k2 := (p: LearningPath) => k1(p) && (difficulty == "all" || p.difficulty == difficulty);
      ghost var k3 := (p: LearningPath) => k2(p) && (category == "all" || p.category == category);
      ghost var k4 := KeepsAll(term, difficulty, category, status);

      var filtered := paths;
      if term != "" {
        filtered := Filter(filtered, SearchHit(term));
      }
      FilterFirstStage(paths, SearchHit(term), k1, term != "");
      if difficulty != "all" {
        filtered := Filter(filtered, DifficultyIs(difficulty));
      }
      FilterStage(paths, k1, DifficultyIs(difficulty), k2, difficulty != "all");
      if category != "all" {
        filtered := Filter(filtered, CategoryIs(category));
      }
      FilterStage(paths, k2, CategoryIs(category), k3, category != "all");
      if status != "all" {
        filtered := Filter(filtered, StatusIs(status));
      }
      FilterStage(paths, k3, StatusIs(status), k4, status != "all");
      filteredPaths := filtered;
    }

    /** `clearFilters`: empty search, every selector back to "all". */
    method ClearFilters()
      modifies this
      ensures State() == old(State()).(searchTerm := "", difficultyFilter := "all", categoryFilter := "all", statusFilter := "all")
    {
      searchTerm := "";
      difficultyFilter := "all";
      categoryFilter := "all";
      statusFilter := "all";
    }
  }

  /** Clearing the filters and letting the effect run shows the whole list again. */
  method ClearAndRefresh(g: PathsGrid)
    modifies g
    ensures g.filteredPaths == g.paths
  {
    g.ClearFilters();
    g.ApplyFilters();
    ClearedFiltersKeepAll(g.paths);
  }
}
