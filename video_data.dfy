/** The topic catalogue of src/data/videoData.ts and its two level mappings. A topic keeps
    its title and videos; a video keeps its id, title, "M:SS" duration, level and watch URL.
    Descriptions, thumbnails, channels, view counts and tags are display text and are left
    out. */
module VideoData {
  import opened Wrappers
  import opened Seqs
  import opened Sorting

  datatype Video = Video(
    id: string,
    title: string,
    duration: string,
    difficulty: string,
    url: string)

  datatype Topic = Topic(title: string, videos: seq<Video>)

  const JavascriptTopic := Topic(
    "JavaScript Fundamentals",
    [
      Video("js-1", "JavaScript Fundamentals - Variables and Data Types", "12:34", "beginner", "https://www.youtube.com/watch?v=W6NZfCO5SIk"),
      Video("js-2", "Functions in JavaScript - Complete Guide", "18:42", "beginner", "https://www.youtube.com/watch?v=N8ap4k_1QEQ"),
      Video("js-3", "DOM Manipulation Made Easy", "25:18", "intermediate", "https://www.youtube.com/watch?v=0ik6X4DJKCc"),
      Video("js-4", "Async JavaScript - Promises and Async/Await", "32:15", "intermediate", "https://www.youtube.com/watch?v=V_Kr9OSfDeU"),
      Video("js-5", "Advanced JavaScript Patterns and Performance", "45:30", "advanced", "https://www.youtube.com/watch?v=Mus_vwhTCq0")
    ])

  const TypescriptTopic := Topic(
    "TypeScript Mastery",
    [
      Video("ts-1", "TypeScript for JavaScript Developers", "15:22", "beginner", "https://www.youtube.com/watch?v=BwuLxPH8IDs"),
      Video("ts-2", "TypeScript Interfaces and Types", "22:45", "intermediate", "https://www.youtube.com/watch?v=1Z1jw3GI4PQ"),
      Video("ts-3", "Advanced TypeScript - Generics and Utility Types", "38:12", "advanced", "https://www.youtube.com/watch?v=nePDL5lQSE4")
    ])

  const HtmlTopic := Topic(
    "HTML5 & Semantic Web",
    [
      Video("html-1", "Semantic HTML5 - Building Meaningful Web Content", "16:30", "beginner", "https://www.youtube.com/watch?v=UB1O30fR-EE"),
      Video("html-2", "Advanced HTML Forms and Validation", "24:15", "intermediate", "https://www.youtube.com/watch?v=fNcJuPIZ2WE")
    ])

  const CssTopic := Topic(
    "Modern CSS & Layout",
    [
      Video("css-1", "CSS Flexbox Complete Guide", "28:45", "beginner", "https://www.youtube.com/watch?v=3YW65K6LcIA"),
      Video("css-2", "CSS Grid Layout - From Zero to Hero", "35:20", "intermediate", "https://www.youtube.com/watch?v=jV8B24rSN5o"),
      Video("css-3", "CSS Animations and Transitions Masterclass", "42:30", "advanced", "https://www.youtube.com/watch?v=68O6eOGAGqA")
    ])

  const ReactTopic := Topic(
    "React Development",
    [
      Video("react-1", "React Fundamentals - Components and JSX", "22:15", "beginner", "https://www.youtube.com/watch?v=Tn6-PIqc4UM"),
      Video("react-2", "React Hooks - useState, useEffect, and Custom Hooks", "34:50", "intermediate", "https://www.youtube.com/watch?v=O6P86uwfdR0"),
      Video("react-3", "Advanced React Patterns and Performance", "48:25", "advanced", "https://www.youtube.com/watch?v=3XaXKiXtNjw")
    ])

  const NodejsTopic := Topic(
    "Node.js Backend Development",
    [
      Video("node-1", "Node.js Fundamentals - Getting Started", "19:30", "beginner", "https://www.youtube.com/watch?v=RLtyhwFtXQA"),
      Video("node-2", "Building REST APIs with Express.js", "31:45", "intermediate", "https://www.youtube.com/watch?v=L72fhGm1tfE"),
      Video("node-3", "Advanced Node.js - Performance and Scaling", "41:20", "advanced", "https://www.youtube.com/watch?v=9aKtJ_AuedI")
    ])

  /** `topicVideos`, keyed by topic id, in declaration order. */
  const TopicTable: seq<(string, Topic)> := [
    ("javascript", JavascriptTopic),
    ("typescript", TypescriptTopic),
    ("html", HtmlTopic),
    ("css", CssTopic),
    ("react", ReactTopic),
    ("nodejs", NodejsTopic)
  ]

  /** `topicVideos[topicId]`. */
  function TopicById(topicId: string): (r: Option<Topic>)
    ensures r.None? <==> forall i :: 0 <= i < |TopicTable| ==> TopicTable[i].0 != topicId
    ensures r.Some? ==> (topicId, r.value) in TopicTable
  {
    Lookup(TopicTable, topicId)
  }

  /** `getDifficultyColor`: green, orange and red for the three levels, grey otherwise. */
  function DifficultyColor(difficulty: string): (r: string)
    ensures difficulty == "beginner" <==> r == "#4caf50"
    ensures difficulty == "intermediate" <==> r == "#ff9800"
    ensures difficulty == "advanced" <==> r == "#f44336"
    ensures difficulty !in {"beginner", "intermediate", "advanced"} <==> r == "#757575"
  {
    match difficulty
    case "beginner" => "#4caf50"
    case "intermediate" => "#ff9800"
    case "advanced" => "#f44336"
    case _ => "#757575"
  }

  /** `getDifficultyOrder`: the rank used to sort videos, unknown levels last. */
  function DifficultyOrder(difficulty: string): (r: int)
    ensures 1 <= r <= 4
    ensures difficulty == "beginner" <==> r == 1
    ensures difficulty == "intermediate" <==> r == 2
    ensures difficulty == "advanced" <==> r == 3
    ensures difficulty !in {"beginner", "intermediate", "advanced"} <==> r == 4
  {
    match difficulty
    case "beginner" => 1
    case "intermediate" => 2
    case "advanced" => 3
    case _ => 4
  }

  /** The sort key of the topic page: the rank of the video's level. */
  function DifficultyRank(v: Video): int {
    DifficultyOrder(v.difficulty)
  }

  /** The videos of a topic never go down in level. */
  predicate ListedByDifficulty(t: Topic) {
    forall i :: 0 <= i < |t.videos| - 1 ==> DifficultyRank(t.videos[i]) <= DifficultyRank(t.videos[i + 1])
  }

  /** Every shipped topic lists its videos from beginner to advanced, so sorting a shipped
      topic by level leaves its list as it is. */
  lemma ShippedTopicsListedByDifficulty()
    ensures forall i :: 0 <= i < |TopicTable| ==> ListedByDifficulty(TopicTable[i].1)
    ensures forall i :: 0 <= i < |TopicTable| ==>
              SortBy(TopicTable[i].1.videos, DifficultyRank) == TopicTable[i].1.videos
  {
    forall i | 0 <= i < |TopicTable|
      ensures ListedByDifficulty(TopicTable[i].1)
      ensures SortBy(TopicTable[i].1.videos, DifficultyRank) == TopicTable[i].1.videos
    {
      var t := TopicTable[i].1;
      TopicListed(i);
      AdjacentSorted(t.videos, DifficultyRank);
      SortBySorted(t.videos, DifficultyRank);
    }
  }

  lemma TopicListed(i: nat)
    requires i < |TopicTable|
    ensures ListedByDifficulty(TopicTable[i].1)
  {
    if i == 0 { JavascriptListed(); }
    else if i == 1 { TypescriptListed(); }
    else if i == 2 { HtmlListed(); }
    else if i == 3 { CssListed(); }
    else if i == 4 { ReactListed(); }
    else if i == 5 { NodejsListed(); }
  }

  lemma JavascriptListed()
    ensures ListedByDifficulty(JavascriptTopic)
  {
  }

  lemma TypescriptListed()
    ensures ListedByDifficulty(TypescriptTopic)
  {
  }

  lemma HtmlListed()
    ensures ListedByDifficulty(HtmlTopic)
  {
  }

  lemma CssListed()
    ensures ListedByDifficulty(CssTopic)
  {
  }

  lemma ReactListed()
    ensures ListedByDifficulty(ReactTopic)
  {
  }

  lemma NodejsListed()
    ensures ListedByDifficulty(NodejsTopic)
  {
  }
}
