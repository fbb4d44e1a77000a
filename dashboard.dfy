/** The session state of src/components/Dashboard/Dashboard.tsx: the enrolments, the videos
    watched per topic, the videos completed and tests passed per developer path, and the view
    chosen by `currentView`. Each dictionary maps a key to the list of ids the handlers
    appended, in order and with repeats. */
module Dashboard {
  import opened Wrappers
  import opened Text
  import opened DeveloperPaths
  import opened DeveloperPathLearning

  type Lists = map<string, seq<string>>

  /** `dict[key] || []`. */
  function ListOr(m: Lists, key: string): (r: seq<string>)
    ensures key in m ==> r == m[key]
    ensures key !in m ==> r == []
  {
    if key in m then m[key] else []
  }

  /** `{...prev, [key]: [...(prev[key] || []), id]}`: the key's list grows by `id` at its end,
      the key is created when absent, and every other key keeps its list. */
  function Appended(m: Lists, key: string, id: string): (r: Lists)
    ensures r.Keys == m.Keys + {key}
    ensures r[key] == ListOr(m, key) + [id]
    ensures forall k :: k in m && k != key ==> r[k] == m[k]
  {
    m[key := ListOr(m, key) + [id]]
  }

  /** No de-duplication: appending the same id twice keeps both copies. */
  lemma AppendTwiceKeepsBoth(m: Lists, key: string, id: string)
    ensures Appended(Appended(m, key, id), key, id)[key] == ListOr(m, key) + [id, id]
  {
  }

  // ---------------------------------------------------------------------------------
  // Routing

  /** What the main area shows. */
  datatype View = ProfileView | TopicView(topic: string) | PathView(pathId: string) | MainView

  /** The second `/`-separated segment, as `view.split('/')[2]` reads it. */
  function SegmentTwo(view: string): string
  {
    var parts := Split(view, "/");
    if |parts| > 2 then parts[2] else ""
  }

  /** `renderMainContent`: "profile" exactly; a view starting "/learning/" opens the topic of
      segment 2; one starting "/paths/" opens the path of segment 2; anything else the main
      dashboard. */
  function Route(currentView: string): (r: View)
    ensures r.ProfileView? <==> currentView == "profile"
    ensures r.TopicView? <==> StartsWith(currentView, "/learning/")
    ensures r.PathView? <==> StartsWith(currentView, "/paths/")
    ensures r.MainView? <==> currentView != "profile" && !StartsWith(currentView, "/learning/")
                              && !StartsWith(currentView, "/paths/")
  {
    assert StartsWith(currentView, "/learning/") ==> currentView[1] == 'l';
    assert StartsWith(currentView, "/paths/") ==> currentView[1] == 'p' && currentView != "profile";
    if currentView == "profile" then ProfileView
    else if StartsWith(currentView, "/learning/") then TopicView(SegmentTwo(currentView))
    else if StartsWith(currentView, "/paths/") then PathView(SegmentTwo(currentView))
    else MainView
  }

  /** Segment 2 of "/word/segment…", when neither holds a '/' and what follows the segment
      is empty or starts with '/'. */
  lemma SegmentTwoAfter(word: string, segment: string, rest: string)
    requires '/' !in word && '/' !in segment && (rest == [] || rest[0] == '/')
    ensures SegmentTwo("/" + word + "/" + segment + rest) == segment
  {
    var view := "/" + word + "/" + segment + rest;
    assert view == ['/'] + word + ['/'] + (segment + rest);
    SplitAfterWord(word, segment + rest, '/');
    SplitFirstPiece(segment, rest, '/');
  }

  /** A view "/learning/<topic>" ending there or continuing with '/' opens that topic. */
  lemma RouteToTopic(topic: string, rest: string)
    requires '/' !in topic && (rest == [] || rest[0] == '/')
    ensures Route("/learning/" + topic + rest) == TopicView(topic)
  {
    var view := "/learning/" + topic + rest;
    assert view == "/" + "learning" + "/" + topic + rest;
    SegmentTwoAfter("learning", topic, rest);
    assert StartsWith(view, "/learning/");
  }

  /** A view "/paths/<id>" ending there or continuing with '/' opens that path. */
  lemma RouteToPath(pathId: string, rest: string)
    requires '/' !in pathId && (rest == [] || rest[0] == '/')
    ensures Route("/paths/" + pathId + rest) == PathView(pathId)
  {
    var view := "/paths/" + pathId + rest;
    assert view == "/" + "paths" + "/" + pathId + rest;
    SegmentTwoAfter("paths", pathId, rest);
    assert StartsWith(view, "/paths/");
    assert !StartsWith(view, "/learning/") by { assert view[1] != "/learning/"[1]; }
  }

  /** A view other than "profile" that does not start with '/' shows the main dashboard. */
  lemma NoSlashShowsMain(view: string)
    requires view != "profile" && (view == [] || view[0] != '/')
    ensures Route(view) == MainView
  {
    if view != [] {
      assert |view| >= 10 ==> view[..10][0] == view[0];
      assert |view| >= 7 ==> view[..7][0] == view[0];
    }
  }

  /** The initial view falls through to the dashboard. */
  lemma InitialViewShowsMain()
    ensures Route("dashboard") == MainView
  {
    NoSlashShowsMain("dashboard");
  }

  // ---------------------------------------------------------------------------------
  // The dashboard state

  /** The dashboard's state, as one value. */
  datatype DashboardState = DashboardState(
    currentView: string,
    mobileOpen: bool,
    enrolledTopics: seq<string>,
    enrolledPaths: seq<string>,
    watchedVideos: Lists,
    completedPathVideos: Lists,
    passedTests: Lists)

  class DashboardSession {
    var currentView: string
    var mobileOpen: bool
    var enrolledTopics: seq<string>
    var enrolledPaths: seq<string>
    var watchedVideos: Lists
    var completedPathVideos: Lists
    var passedTests: Lists

    function State(): DashboardState
      reads this
    {
      DashboardState(currentView, mobileOpen, enrolledTopics, enrolledPaths, watchedVideos,
                     completedPathVideos, passedTests)
    }

    /** The initial state, with the sample learner's enrolments and progress. */
    constructor()
      ensures State() == DashboardState("dashboard", false, ["javascript"], ["frontend-developer"],
                                        map["javascript" := ["js-1"]],
                                        map["frontend-developer" := ["fe-1"]],
                                        map["frontend-developer" := []])
    {
      currentView := "dashboard";
      mobileOpen := false;
      enrolledTopics := ["javascript"];
      enrolledPaths := ["frontend-developer"];
      watchedVideos := map["javascript" := ["js-1"]];
      completedPathVideos := map["frontend-developer" := ["fe-1"]];
      passedTests := map["frontend-developer" := []];
    }

    /** `handleDrawerToggle`. */
    method DrawerToggle()
      modifies this
      ensures State() == old(State()).(mobileOpen := !old(mobileOpen))
    {
      mobileOpen := !mobileOpen;
    }

    /** `handleNavigationChange`: show the view; on a narrow screen also close the drawer. */
    method NavigationChange(path: string, isMobile: bool)
      modifies this
      ensures State() == old(State()).(currentView := path, mobileOpen := if isMobile then false else old(mobileOpen))
    {
      currentView := path;
      if isMobile {
        mobileOpen := false;
      }
    }

    /** `handleBackToDashboard`. */
    method BackToDashboard()
      modifies this
      ensures State() == old(State()).(currentView := "dashboard")
      ensures Route(currentView) == MainView
    {
      currentView := "dashboard";
      InitialViewShowsMain();
    }

    /** `handleEnrollInTopic`: appended without a membership check. */
    method EnrollInTopic(topic: string)
      modifies this
      ensures State() == old(State()).(enrolledTopics := old(enrolledTopics) + [topic])
    {
      enrolledTopics := enrolledTopics + [topic];
    }

    /** `handleEnrollInPath`: appended without a membership check. */
    method EnrollInPath(pathId: string)
      modifies this
      ensures State() == old(State()).(enrolledPaths := old(enrolledPaths) + [pathId])
    {
      enrolledPaths := enrolledPaths + [pathId];
    }

    /** `handleVideoWatch`. */
    method VideoWatch(topic: string, videoId: string)
      modifies this
      ensures State() == old(State()).(watchedVideos := Appended(old(watchedVideos), topic, videoId))
    {
      watchedVideos := watchedVideos[topic := ListOr(watchedVideos, topic) + [videoId]];
    }

    /** `handlePathVideoComplete`. */
    method PathVideoComplete(pathId: string, videoId: string)
      modifies this
      ensures State() == old(State()).(completedPathVideos := Appended(old(completedPathVideos), pathId, videoId))
    {
      completedPathVideos := completedPathVideos[pathId := ListOr(completedPathVideos, pathId) + [videoId]];
    }

    /** `handleTestComplete`: a pass appends the test to the path's list; a failure changes
        nothing. */
    method TestComplete(pathId: string, testId: string, passed: bool)
      modifies this
      ensures passed ==> State() == old(State()).(passedTests := Appended(old(passedTests), pathId, testId))
      ensures !passed ==> State() == old(State())
    {
      if passed {
        passedTests := passedTests[pathId := ListOr(passedTests, pathId) + [testId]];
      }
    }

    /** The callback handed to the path page: its third argument, the unlocked ids, is
        dropped; the page recomputes them from `passedTests`. */
    method ReceiveTestReport(pathId: string, report: TestReport)
      modifies this
      ensures report.passed ==> State() == old(State()).(passedTests := Appended(old(passedTests), pathId, report.testId))
      ensures !report.passed ==> State() == old(State())
    {
      TestComplete(pathId, report.testId, report.passed);
    }
  }

  /** After a pass is recorded for a path, the path page opens every video the test lists,
      whatever else was passed or completed before. */
  lemma PassUnlocksListedVideos(passedTests: Lists, pathId: string, testId: string,
                                sorted: seq<PathVideo>, completed: seq<string>, v: string)
    requires v in CatalogUnlocks(testId)
    ensures v in Unlocked(CatalogUnlocks, ListOr(Appended(passedTests, pathId, testId), pathId), sorted, completed)
  {
    var passed := ListOr(Appended(passedTests, pathId, testId), pathId);
    assert passed[|passed| - 1] == testId;
  }
}
