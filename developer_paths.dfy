/** The developer-path catalogue of src/data/developerPaths.ts and its two fallback
    lookups. A path keeps its id, title, icon, colour and videos; a video keeps its id,
    title, "M:SS" duration, level, watch URL and position `order`. Descriptions, salaries,
    roadmaps, thumbnails, channels and view counts are display text and are left out. */
module DeveloperPaths {
  import opened Wrappers
  import opened Seqs
  import opened Sorting

  datatype PathVideo = PathVideo(
    id: string,
    title: string,
    duration: string,
    difficulty: string,
    url: string,
    order: int)

  datatype DeveloperPath = DeveloperPath(
    id: string,
    title: string,
    icon: string,
    color: string,
    videos: seq<PathVideo>)

  const FrontendDeveloperPath := DeveloperPath(
    "frontend-developer", "Frontend Developer", "\U{1F3A8}", "#e91e63",
    [
      PathVideo("fe-1", "HTML5 Semantic Elements & Structure", "18:45", "beginner", "https://www.youtube.com/watch?v=UB1O30fR-EE", 1),
      PathVideo("fe-2", "CSS Flexbox Complete Guide", "28:30", "beginner", "https://www.youtube.com/watch?v=3YW65K6LcIA", 2),
      PathVideo("fe-3", "CSS Grid Layout Mastery", "35:20", "intermediate", "https://www.youtube.com/watch?v=jV8B24rSN5o", 3),
      PathVideo("fe-4", "JavaScript Fundamentals for Web Development", "42:15", "beginner", "https://www.youtube.com/watch?v=W6NZfCO5SIk", 4),
      PathVideo("fe-5", "DOM Manipulation & Event Handling", "33:45", "intermediate", "https://www.youtube.com/watch?v=0ik6X4DJKCc", 5),
      PathVideo("fe-6", "Fetch API & Working with REST APIs", "29:30", "intermediate", "https://www.youtube.com/watch?v=V_Kr9OSfDeU", 6),
      PathVideo("fe-7", "React Fundamentals - Components & JSX", "38:20", "intermediate", "https://www.youtube.com/watch?v=Tn6-PIqc4UM", 7),
      PathVideo("fe-8", "React Hooks & State Management", "44:15", "advanced", "https://www.youtube.com/watch?v=O6P86uwfdR0", 8)
    ])

  const BackendDeveloperPath := DeveloperPath(
    "backend-developer", "Backend Developer", "\U{2699}\U{FE0F}", "#4caf50",
    [
      PathVideo("be-1", "Node.js Fundamentals for Backend Development", "32:15", "beginner", "https://www.youtube.com/watch?v=RLtyhwFtXQA", 1),
      PathVideo("be-2", "Express.js - Building REST APIs", "45:30", "intermediate", "https://www.youtube.com/watch?v=L72fhGm1tfE", 2),
      PathVideo("be-3", "Database Design & MongoDB Integration", "38:45", "intermediate", "https://www.youtube.com/watch?v=ExcRbA7fy_A", 3),
      PathVideo("be-4", "Authentication & Security Best Practices", "41:20", "advanced", "https://www.youtube.com/watch?v=mbsmsi7l3r4", 4),
      PathVideo("be-5", "API Testing & Documentation", "35:15", "intermediate", "https://www.youtube.com/watch?v=VywxIQ2ZXw4", 5),
      PathVideo("be-6", "Cloud Deployment with Google Cloud", "42:30", "advanced", "https://www.youtube.com/watch?v=9aKtJ_AuedI", 6)
    ])

  const FullstackDeveloperPath := DeveloperPath(
    "fullstack-developer", "Full Stack Developer", "\U{1F680}", "#9c27b0",
    [
      PathVideo("fs-1", "Full Stack Development Overview", "25:30", "beginner", "https://www.youtube.com/watch?v=7CqJlxBYj-M", 1),
      PathVideo("fs-2", "Building Modern Web Apps with React & Node.js", "52:45", "intermediate", "https://www.youtube.com/watch?v=98BzS5Oz5E4", 2),
      PathVideo("fs-3", "System Design for Web Applications", "48:20", "advanced", "https://www.youtube.com/watch?v=UzLMhqg3_Wc", 3)
    ])

  const UiDeveloperPath := DeveloperPath(
    "ui-developer", "UI Developer", "\U{1F3AD}", "#ff9800",
    [
      PathVideo("ui-1", "Semantic HTML for Accessible UI", "22:15", "beginner", "https://www.youtube.com/watch?v=UB1O30fR-EE", 1),
      PathVideo("ui-2", "CSS Animations & Transitions Masterclass", "36:30", "intermediate", "https://www.youtube.com/watch?v=68O6eOGAGqA", 2),
      PathVideo("ui-3", "Building Design Systems with CSS", "41:45", "advanced", "https://www.youtube.com/watch?v=YqQx75OPRa0", 3)
    ])

  const JavascriptDeveloperPath := DeveloperPath(
    "javascript-developer", "JavaScript Developer", "\U{26A1}", "#f7df1e",
    [
      PathVideo("js-dev-1", "Modern JavaScript ES6+ Features", "34:20", "intermediate", "https://www.youtube.com/watch?v=WZQc7RUAg18", 1),
      PathVideo("js-dev-2", "Async JavaScript - Promises & Async/Await", "39:15", "intermediate", "https://www.youtube.com/watch?v=V_Kr9OSfDeU", 2),
      PathVideo("js-dev-3", "JavaScript Testing with Jest", "28:45", "intermediate", "https://www.youtube.com/watch?v=7r4xVDI2vho", 3),
      PathVideo("js-dev-4", "JavaScript Performance Optimization", "42:30", "advanced", "https://www.youtube.com/watch?v=Mus_vwhTCq0", 4)
    ])

  const DevopsEngineerPath := DeveloperPath(
    "devops-engineer", "DevOps Engineer", "\U{2601}\U{FE0F}", "#2196f3",
    [
      PathVideo("do-1", "Docker Fundamentals for Developers", "35:20", "beginner", "https://www.youtube.com/watch?v=gAkwW2tuIqE", 1),
      PathVideo("do-2", "Kubernetes for Application Deployment", "47:15", "intermediate", "https://www.youtube.com/watch?v=X48VuDVv0do", 2),
      PathVideo("do-3", "CI/CD Pipelines with Google Cloud Build", "38:45", "intermediate", "https://www.youtube.com/watch?v=7O7bBf8z3qw", 3)
    ])

  /** `developerPaths`, keyed by path id, in declaration order. */
  const DeveloperPathTable: seq<(string, DeveloperPath)> := [
    ("frontend-developer", FrontendDeveloperPath),
    ("backend-developer", BackendDeveloperPath),
    ("fullstack-developer", FullstackDeveloperPath),
    ("ui-developer", UiDeveloperPath),
    ("javascript-developer", JavascriptDeveloperPath),
    ("devops-engineer", DevopsEngineerPath)
  ]

  const DefaultPathIcon := "\U{1F4BB}"
  const DefaultPathColor := "#1976d2"

  /** `developerPaths[pathId]`. */
  function PathById(pathId: string): (r: Option<DeveloperPath>)
    ensures r.None? <==> forall i :: 0 <= i < |DeveloperPathTable| ==> DeveloperPathTable[i].0 != pathId
    ensures forall i :: 0 <= i < |DeveloperPathTable| && DeveloperPathTable[i].0 == pathId
                        ==> r == Some(DeveloperPathTable[i].1)
  {
    TableKeysDistinct();
    forall i | 0 <= i < |DeveloperPathTable| && DeveloperPathTable[i].0 == pathId
      ensures Lookup(DeveloperPathTable, pathId) == Some(DeveloperPathTable[i].1)
    {
      LookupDistinct(DeveloperPathTable, i);
    }
    Lookup(DeveloperPathTable, pathId)
  }

  lemma TableKeysDistinct()
    ensures KeysDistinct(DeveloperPathTable)
  {
  }

  /** `getPathIcon`: the path's icon, or the laptop emoji when the id is unknown or the icon
      is empty (`||` treats the empty string as missing). */
  function GetPathIcon(pathId: string): (r: string)
    ensures PathById(pathId).None? ==> r == DefaultPathIcon
    ensures PathById(pathId).Some? && PathById(pathId).value.icon != "" ==> r == PathById(pathId).value.icon
    ensures r != ""
  {
    match PathById(pathId)
    case Some(p) => if p.icon != "" then p.icon else DefaultPathIcon
    case None => DefaultPathIcon
  }

  /** `getPathColor`: the path's colour, or "#1976d2" when the id is unknown or the colour is
      empty. */
  function GetPathColor(pathId: string): (r: string)
    ensures PathById(pathId).None? ==> r == DefaultPathColor
    ensures PathById(pathId).Some? && PathById(pathId).value.color != "" ==> r == PathById(pathId).value.color
    ensures r != ""
  {
    match PathById(pathId)
    case Some(p) => if p.color != "" then p.color else DefaultPathColor
    case None => DefaultPathColor
  }

  /** Each catalogue key is the id of the path stored under it. */
  lemma KeysAreIds()
    ensures forall i :: 0 <= i < |DeveloperPathTable| ==> DeveloperPathTable[i].0 == DeveloperPathTable[i].1.id
  {
  }

  /** The sort key of the path page. */
  function VideoOrder(v: PathVideo): int {
    v.order
  }

  /** Within a path the videos are listed with `order` 1, 2, ..., n. */
  predicate OrderedByPosition(p: DeveloperPath) {
    forall i :: 0 <= i < |p.videos| ==> p.videos[i].order == i + 1
  }

  /** Every shipped path numbers its videos 1..n in list order, so sorting a shipped path
      by `order` leaves its list as it is. */
  lemma ShippedPathsOrdered()
    ensures forall i :: 0 <= i < |DeveloperPathTable| ==> OrderedByPosition(DeveloperPathTable[i].1)
    ensures forall i :: 0 <= i < |DeveloperPathTable| ==> |DeveloperPathTable[i].1.videos| > 0
    ensures forall i :: 0 <= i < |DeveloperPathTable| ==>
              SortBy(DeveloperPathTable[i].1.videos, VideoOrder) == DeveloperPathTable[i].1.videos
  {
    forall i | 0 <= i < |DeveloperPathTable|
      ensures OrderedByPosition(DeveloperPathTable[i].1)
      ensures |DeveloperPathTable[i].1.videos| > 0
      ensures SortBy(DeveloperPathTable[i].1.videos, VideoOrder) == DeveloperPathTable[i].1.videos
    {
      var p := DeveloperPathTable[i].1;
      PathOrdered(i);
      AdjacentSorted(p.videos, VideoOrder);
      SortBySorted(p.videos, VideoOrder);
    }
  }

  lemma PathOrdered(i: nat)
    requires i < |DeveloperPathTable|
    ensures OrderedByPosition(DeveloperPathTable[i].1) && |DeveloperPathTable[i].1.videos| > 0
  {
    if i == 0 { FrontendDeveloperOrdered(); }
    else if i == 1 { BackendDeveloperOrdered(); }
    else if i == 2 { FullstackDeveloperOrdered(); }
    else if i == 3 { UiDeveloperOrdered(); }
    else if i == 4 { JavascriptDeveloperOrdered(); }
    else if i == 5 { DevopsEngineerOrdered(); }
  }

  lemma FrontendDeveloperOrdered()
    ensures OrderedByPosition(FrontendDeveloperPath) && |FrontendDeveloperPath.videos| > 0
  {
  }

  lemma BackendDeveloperOrdered()
    ensures OrderedByPosition(BackendDeveloperPath) && |BackendDeveloperPath.videos| > 0
  {
  }

  lemma FullstackDeveloperOrdered()
    ensures OrderedByPosition(FullstackDeveloperPath) && |FullstackDeveloperPath.videos| > 0
  {
  }

  lemma UiDeveloperOrdered()
    ensures OrderedByPosition(UiDeveloperPath) && |UiDeveloperPath.videos| > 0
  {
  }

  lemma JavascriptDeveloperOrdered()
    ensures OrderedByPosition(JavascriptDeveloperPath) && |JavascriptDeveloperPath.videos| > 0
  {
  }

  lemma DevopsEngineerOrdered()
    ensures OrderedByPosition(DevopsEngineerPath) && |DevopsEngineerPath.videos| > 0
  {
  }

  /** A known id gives its own icon. */
  lemma FrontendIcon()
    ensures GetPathIcon("frontend-developer") == "\U{1F3A8}"
  {
    assert DeveloperPathTable[0].0 == "frontend-developer";
  }

  /** A known id gives its own colour. */
  lemma DevopsColor()
    ensures GetPathColor("devops-engineer") == "#2196f3"
  {
    assert DeveloperPathTable[5].0 == "devops-engineer";
  }

  /** An unknown id gives the default icon and colour. */
  lemma UnknownPathDefaults()
    ensures GetPathIcon("data-scientist") == DefaultPathIcon
    ensures GetPathColor("data-scientist") == DefaultPathColor
  {
    assert PathById("data-scientist").None?;
  }
}
