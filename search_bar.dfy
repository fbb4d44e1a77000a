/** The header search box of src/components/Search/SearchBar.tsx: typing proposes the first
    few paths and resources whose title, description or some tag contains the text, ignoring
    case; picking one copies its title into the box. The path and resource lists are the
    catalogue the box searches. */
module SearchBar {
  import opened Seqs
  import opened Text
  import opened LearnTypes

  /** An entry of the catalogue, tagged with its kind (`type: 'path' | 'resource'`). */
  datatype Item = PathItem(path: LearningPath) | ResourceItem(resource: Resource)
  {
    function Title(): string {
      match this
      case PathItem(p) => p.title
      case ResourceItem(r) => r.title
    }

    function Description(): string {
      match this
      case PathItem(p) => p.description
      case ResourceItem(r) => r.description
    }

    function Tags(): seq<string> {
      match this
      case PathItem(p) => p.tags
      case ResourceItem(r) => r.tags
    }
  }

  /** The suggestion test for a path: title, description or some tag; skills are not
      searched. */
  predicate PathMatches(p: LearningPath, value: string) {
    IncludesIgnoreCase(p.title, value) || IncludesIgnoreCase(p.description, value)
    || AnyIncludesIgnoreCase(p.tags, value)
  }

  /** The suggestion test for a resource: title, description or some tag; the author is not
      searched. */
  predicate ResourceMatches(r: Resource, value: string) {
    IncludesIgnoreCase(r.title, value) || IncludesIgnoreCase(r.description, value)
    || AnyIncludesIgnoreCase(r.tags, value)
  }

  function PathHit(value: string): LearningPath -> bool {
    (p: LearningPath) => PathMatches(p, value)
  }

  function ResourceHit(value: string): Resource -> bool {
    (r: Resource) => ResourceMatches(r, value)
  }

  /** `.map(path => ({ ...path, type: 'path' }))`. */
  function AsPathItems(ps: seq<LearningPath>): (r: seq<Item>)
    ensures |r| == |ps|
    ensures forall i :: 0 <= i < |ps| ==> r[i] == PathItem(ps[i])
  {
    if ps == [] then [] else [PathItem(ps[0])] + AsPathItems(ps[1..])
  }

  /** `.map(resource => ({ ...resource, type: 'resource' }))`. */
  function AsResourceItems(rs: seq<Resource>): (r: seq<Item>)
    ensures |r| == |rs|
    ensures forall i :: 0 <= i < |rs| ==> r[i] == ResourceItem(rs[i])
  {
    if rs == [] then [] else [ResourceItem(rs[0])] + AsResourceItems(rs[1..])
  }

  function Min(a: nat, b: nat): nat {
    if a <= b then a else b
  }

  /** The suggestion list: the first `pathCount` paths passing `pathHit`, then the first
      `resourceCount` resources passing `resourceHit`, each in catalogue order. */
  function Suggestions(paths: seq<LearningPath>, resources: seq<Resource>,
                       pathHit: LearningPath -> bool, resourceHit: Resource -> bool,
                       pathCount: nat, resourceCount: nat): seq<Item>
  {
    AsPathItems(Take(Filter(paths, pathHit), pathCount))
    + AsResourceItems(Take(Filter(resources, resourceHit), resourceCount))
  }

  /** The list for the text in the box, with three paths and two resources at most. */
  function BarSuggestions(paths: seq<LearningPath>, resources: seq<Resource>, value: string): (r: seq<Item>)
    ensures |r| <= 5
    ensures forall x :: x in r && x.PathItem? ==> x.path in paths && PathHit(value)(x.path)
    ensures forall x :: x in r && x.ResourceItem? ==> x.resource in resources && ResourceHit(value)(x.resource)
  {
    var s := Suggestions(paths, resources, PathHit(value), ResourceHit(value), 3, 2);
    SuggestionsShape(paths, resources, PathHit(value), ResourceHit(value), 3, 2);
    assert forall x :: x in s ==>
             (x.PathItem? ==> x.path in paths && PathHit(value)(x.path))
             && (x.ResourceItem? ==> x.resource in resources && ResourceHit(value)(x.resource)) by {
      forall x | x in s
        ensures (x.PathItem? ==> x.path in paths && PathHit(value)(x.path))
                && (x.ResourceItem? ==> x.resource in resources && ResourceHit(value)(x.resource))
      {
        SuggestionsMatch(paths, resources, PathHit(value), ResourceHit(value), 3, 2, x);
      }
    }
    s
  }

  /** The list holds min(pathCount, passing paths) paths, which are the first passing paths
      in catalogue order, followed by min(resourceCount, passing resources) resources, which
      are the first passing resources. */
  lemma SuggestionsShape(paths: seq<LearningPath>, resources: seq<Resource>,
                         pathHit: LearningPath -> bool, resourceHit: Resource -> bool,
                         pathCount: nat, resourceCount: nat)
    ensures var s := Suggestions(paths, resources, pathHit, resourceHit, pathCount, resourceCount);
            var mp := Filter(paths, pathHit);
            var mr := Filter(resources, resourceHit);
            var k := Min(pathCount, |mp|);
            && |s| == k + Min(resourceCount, |mr|)
            && (forall i :: 0 <= i < k ==> s[i] == PathItem(mp[i]))
            && (forall i :: k <= i < |s| ==> s[i] == ResourceItem(mr[i - k]))
  {
    var tp := Take(Filter(paths, pathHit), pathCount);
    var tr := Take(Filter(resources, resourceHit), resourceCount);
    ItemsShape(tp, tr);
    TakenPrefix(Filter(paths, pathHit), pathCount);
    TakenPrefix(Filter(resources, resourceHit), resourceCount);
  }

  /** The first `n` elements, indexed. */
  lemma TakenPrefix<T>(s: seq<T>, n: nat)
    ensures |Take(s, n)| == Min(n, |s|)
    ensures forall i :: 0 <= i < |Take(s, n)| ==> Take(s, n)[i] == s[i]
  {
  }

  lemma ItemsShape(tp: seq<LearningPath>, tr: seq<Resource>)
    ensures var s := AsPathItems(tp) + AsResourceItems(tr);
            && |s| == |tp| + |tr|
            && (forall i :: 0 <= i < |tp| ==> s[i] == PathItem(tp[i]))
            && (forall i :: |tp| <= i < |s| ==> s[i] == ResourceItem(tr[i - |tp|]))
  {
    var a, b := AsPathItems(tp), AsResourceItems(tr);
    forall i | |tp| <= i < |a| + |b| ensures (a + b)[i] == ResourceItem(tr[i - |tp|]) {
      assert (a + b)[i] == b[i - |tp|];
    }
  }

  /** Every suggestion is a catalogue entry passing its test. */
  lemma SuggestionsMatch(paths: seq<LearningPath>, resources: seq<Resource>,
                         pathHit: LearningPath -> bool, resourceHit: Resource -> bool,
                         pathCount: nat, resourceCount: nat, x: Item)
    requires x in Suggestions(paths, resources, pathHit, resourceHit, pathCount, resourceCount)
    ensures x.PathItem? ==> x.path in paths && pathHit(x.path)
    ensures x.ResourceItem? ==> x.resource in resources && resourceHit(x.resource)
  {
    var mp := Take(Filter(paths, pathHit), pathCount);
    var mr := Take(Filter(resources, resourceHit), resourceCount);
    var s := Suggestions(paths, resources, pathHit, resourceHit, pathCount, resourceCount);
    var i :| 0 <= i < |s| && s[i] == x;
    if i < |mp| {
      assert x == PathItem(mp[i]);
      assert mp[i] in Filter(paths, pathHit);
    } else {
      assert x == ResourceItem(mr[i - |mp|]);
      assert mr[i - |mp|] in Filter(resources, resourceHit);
    }
  }

  /** When no more paths pass than are shown, every passing path is suggested; likewise
      for resources. */
  lemma FewMatchesAllSuggested(paths: seq<LearningPath>, resources: seq<Resource>,
                               pathHit: LearningPath -> bool, resourceHit: Resource -> bool,
                               pathCount: nat, resourceCount: nat)
    ensures |Filter(paths, pathHit)| <= pathCount ==>
              forall p :: p in paths && pathHit(p) ==>
                PathItem(p) in Suggestions(paths, resources, pathHit, resourceHit, pathCount, resourceCount)
    ensures |Filter(resources, resourceHit)| <= resourceCount ==>
              forall r :: r in resources && resourceHit(r) ==>
                ResourceItem(r) in Suggestions(paths, resources, pathHit, resourceHit, pathCount, resourceCount)
  {
    var mp := Filter(paths, pathHit);
    var mr := Filter(resources, resourceHit);
    var tp := Take(mp, pathCount);
    var s := Suggestions(paths, resources, pathHit, resourceHit, pathCount, resourceCount);
    if |mp| <= pathCount {
      assert tp == mp;
      forall p | p in paths && pathHit(p)
        ensures PathItem(p) in s
      {
        assert p in mp;
        var i :| 0 <= i < |mp| && mp[i] == p;
        assert s[i] == PathItem(p);
      }
    }
    if |mr| <= resourceCount {
      assert Take(mr, resourceCount) == mr;
      forall r | r in resources && resourceHit(r)
        ensures ResourceItem(r) in s
      {
        assert r in mr;
        var i :| 0 <= i < |mr| && mr[i] == r;
        assert s[|tp| + i] == ResourceItem(r);
      }
    }
  }

  /** A path is suggested for its skills alone never: they are not searched. */
  lemma SkillsNotSearched(paths: seq<LearningPath>, resources: seq<Resource>, value: string, p: LearningPath)
    requires !IncludesIgnoreCase(p.title, value) && !IncludesIgnoreCase(p.description, value)
    requires !AnyIncludesIgnoreCase(p.tags, value)
    ensures PathItem(p) !in BarSuggestions(paths, resources, value)
  {
  }

  /** The box's state, as one value. */
  datatype BarState = BarState(searchValue: string, showSuggestions: bool, suggestions: seq<Item>)

  class SearchBox {
    const paths: seq<LearningPath>
    const resources: seq<Resource>
    var searchValue: string
    var showSuggestions: bool
    var suggestions: seq<Item>

    function State(): BarState
      reads this
    {
      BarState(searchValue, showSuggestions, suggestions)
    }

    /** An open list belongs to the non-empty text in the box. */
    predicate Consistent()
      reads this
    {
      showSuggestions ==> |searchValue| > 0 && suggestions == BarSuggestions(paths, resources, searchValue)
    }

    /** The initial state: empty box, no list. */
    constructor(paths: seq<LearningPath>, resources: seq<Resource>)
      ensures this.paths == paths && this.resources == resources
      ensures State() == BarState("", false, [])
      ensures Consistent()
    {
      this.paths := paths;
      this.resources := resources;
      searchValue := "";
      showSuggestions := false;
      suggestions := [];
    }

    /** `handleSearchChange`: non-empty text opens three paths and two resources; empty
        text closes and empties the list. */
    method SearchChange(value: string)
      modifies this
      ensures |value| > 0 ==> State() == BarState(value, true, BarSuggestions(paths, resources, value))
      ensures |value| == 0 ==> State() == BarState(value, false, [])
      ensures Consistent()
    {
      searchValue := value;
      if |value| > 0 {
        var pathSuggestions := AsPathItems(Take(Filter(paths, PathHit(value)), 3));
        var resourceSuggestions := AsResourceItems(Take(Filter(resources, ResourceHit(value)), 2));
        suggestions := pathSuggestions + resourceSuggestions;
        showSuggestions := true;
      } else {
        suggestions := [];
        showSuggestions := false;
      }
    }

    /** `handleClearSearch`. */
    method ClearSearch()
      modifies this
      ensures State() == BarState("", false, [])
      ensures Consistent()
    {
      searchValue := "";
      suggestions := [];
      showSuggestions := false;
    }

    /** `handleSuggestionClick`: the title goes into the box and the list closes; the list
        itself is kept. */
    method SuggestionClick(s: Item)
      modifies this
      ensures State() == old(State()).(searchValue := s.Title(), showSuggestions := false)
      ensures Consistent()
    {
      searchValue := s.Title();
      showSuggestions := false;
    }

    /** `handleClickAway`. */
    method ClickAway()
      modifies this
      ensures State() == old(State()).(showSuggestions := false)
      ensures Consistent()
    {
      showSuggestions := false;
    }
  }
}
