/** The learning page of one developer path, src/components/Learning/DeveloperPathLearning.tsx:
    its videos in `order`, the videos a learner may open (the first one, each one whose
    predecessor is completed, and those unlocked by passed tests), the test offered to
    unlock a locked video, the action each video card offers, and the page's own state. The
    parent's callbacks are recorded as lists of the calls made. */
module DeveloperPathLearning {
  import opened Wrappers
  import opened Seqs
  import opened Sorting
  import opened Text
  import opened DeveloperPaths
  import opened AssessmentTests

  // ---------------------------------------------------------------------------------
  // Videos in order

  /** `sortedVideos`: the path's videos sorted by `order`. */
  function SortedVideos(p: DeveloperPath): (r: seq<PathVideo>)
    ensures SortedBy(r, VideoOrder)
    ensures multiset(r) == multiset(p.videos)
    ensures |r| == |p.videos|
  {
    var r := SortBy(p.videos, VideoOrder);
    assert |r| == |multiset(r)| == |multiset(p.videos)| == |p.videos|;
    r
  }

  /** Videos sharing an `order` keep their catalogue order. */
  lemma SortedVideosStable(p: DeveloperPath, k: int)
    ensures WithKey(SortedVideos(p), VideoOrder, k) == WithKey(p.videos, VideoOrder, k)
  {
    SortByStable(p.videos, VideoOrder, k);
  }

  /** On a shipped path the sort changes nothing: the page lists the catalogue order. */
  lemma ShippedSortedVideos(i: nat)
    requires i < |DeveloperPathTable|
    ensures SortedVideos(DeveloperPathTable[i].1) == DeveloperPathTable[i].1.videos
  {
    ShippedPathsOrdered();
  }

  // ---------------------------------------------------------------------------------
  // Unlocked videos

  /** The ids the passed tests unlock, test by test, each test's list in its own order. */
  function TestUnlocks(unlocksOf: string -> seq<string>, passedTests: seq<string>): (r: seq<string>)
    ensures forall v :: v in r <==>
              exists i :: 0 <= i < |passedTests| && v in unlocksOf(passedTests[i])
    decreases |passedTests|
  {
    if passedTests == [] then []
    else
      var pre := passedTests[..|passedTests| - 1];
      assert forall i :: 0 <= i < |pre| ==> pre[i] == passedTests[i];
      TestUnlocks(unlocksOf, pre) + unlocksOf(passedTests[|passedTests| - 1])
  }

  /** The id of the first video, if there is one. */
  function FirstUnlock(sorted: seq<PathVideo>): seq<string> {
    if |sorted| > 0 then [sorted[0].id] else []
  }

  /** The ids the first `n` steps of the sequential loop add: the successor of each
      completed video among the first `n`. */
  function ChainUnlocks(sorted: seq<PathVideo>, completed: seq<string>, n: nat): (r: seq<string>)
    requires n == 0 || n < |sorted|
    ensures forall v :: v in r <==>
              exists i :: 0 <= i < n && sorted[i].id in completed && v == sorted[i + 1].id
    decreases n
  {
    if n == 0 then []
    else ChainUnlocks(sorted, completed, n - 1) + (if sorted[n - 1].id in completed then [sorted[n].id] else [])
  }

  /** The number of steps of the loop `for (i = 0; i < length - 1; i++)`. */
  function ChainLength(sorted: seq<PathVideo>): (n: nat)
    ensures n == 0 || n < |sorted|
  {
    if |sorted| == 0 then 0 else |sorted| - 1
  }

  /** Every id in the order it is added to the set. */
  function Candidates(unlocksOf: string -> seq<string>, passedTests: seq<string>, sorted: seq<PathVideo>, completed: seq<string>): seq<string> {
    TestUnlocks(unlocksOf, passedTests) + FirstUnlock(sorted) + ChainUnlocks(sorted, completed, ChainLength(sorted))
  }

  /** The three ways a video becomes accessible. */
  predicate Unlocks(unlocksOf: string -> seq<string>, passedTests: seq<string>, sorted: seq<PathVideo>, completed: seq<string>, v: string) {
    (exists i :: 0 <= i < |passedTests| && v in unlocksOf(passedTests[i]))
    || (|sorted| > 0 && v == sorted[0].id)
    || (exists i :: 0 <= i < |sorted| - 1 && sorted[i].id in completed && v == sorted[i + 1].id)
  }

  /** The unlocked ids: the set filled by `getUnlockedVideos`, listed in insertion order.
      It holds exactly the ids one of the three sources unlocks, each once; in particular
      the first video, the successor of every completed video and every video a passed test
      lists, wherever that video belongs. */
  function Unlocked(unlocksOf: string -> seq<string>, passedTests: seq<string>, sorted: seq<PathVideo>, completed: seq<string>): (r: seq<string>)
    ensures NoDuplicates(r)
    ensures forall v :: v in r <==> Unlocks(unlocksOf, passedTests, sorted, completed, v)
    ensures |sorted| > 0 ==> sorted[0].id in r
    ensures forall i :: 0 <= i < |sorted| - 1 && sorted[i].id in completed ==> sorted[i + 1].id in r
    ensures forall i, v :: 0 <= i < |passedTests| && v in unlocksOf(passedTests[i]) ==> v in r
  {
    var c := Candidates(unlocksOf, passedTests, sorted, completed);
    assert forall v :: v in c <==> Unlocks(unlocksOf, passedTests, sorted, completed, v);
    Dedup(c)
  }

  /** The lookup the page passes in: `getUnlockedVideosByTest(testId, true)`, which finds
      the test in the whole catalogue, so a passed test may unlock videos of other paths. */
  function CatalogUnlocks(testId: string): (r: seq<string>)
    ensures TestById(testId).None? ==> r == []
    ensures TestById(testId).Some? ==> r == TestById(testId).value.prerequisiteFor
  {
    UnlockedVideosByTest(testId, true)
  }

  /** One more item fed to the set: adding it is what `Dedup` of the longer feed lists. */
  lemma AddNext(r: seq<string>, fed: seq<string>, items: seq<string>, j: nat)
    requires j < |items|
    requires r == Dedup(fed + items[..j])
    ensures Add(r, items[j]) == Dedup(fed + items[..j + 1])
  {
    DedupSnoc(fed + items[..j], items[j]);
    assert fed + items[..j + 1] == (fed + items[..j]) + [items[j]];
  }

  /** `items.forEach(x => set.add(x))` on a set that so far received `fed`. */
  method AddEach(unlocked: seq<string>, ghost fed: seq<string>, items: seq<string>) returns (r: seq<string>)
    requires unlocked == Dedup(fed)
    ensures r == Dedup(fed + items)
  {
    r := unlocked;
    var j := 0;
    assert fed + items[..0] == fed;
    while j < |items|
      invariant 0 <= j <= |items|
      invariant r == Dedup(fed + items[..j])
    {
      AddNext(r, fed, items, j);
      r := Add(r, items[j]);
      j := j + 1;
    }
    assert items[..j] == items;
  }

  /** `getUnlockedVideos`: the `forEach` over the passed tests, the first video, then the
      index loop over neighbours, all adding to one insertion-ordered set. */
  method GetUnlockedVideos(unlocksOf: string -> seq<string>, passedTests: seq<string>, sortedVideos: seq<PathVideo>, completedVideos: seq<string>)
    returns (unlocked: seq<string>)
    ensures unlocked == Unlocked(unlocksOf, passedTests, sortedVideos, completedVideos)
  {
    unlocked := [];
    var k := 0;
    while k < |passedTests|
      invariant 0 <= k <= |passedTests|
      invariant unlocked == Dedup(TestUnlocks(unlocksOf, passedTests[..k]))
    {
      assert passedTests[..k + 1][..k] == passedTests[..k];
      unlocked := AddEach(unlocked, TestUnlocks(unlocksOf, passedTests[..k]), unlocksOf(passedTests[k]));
      k := k + 1;
    }
    assert passedTests[..k] == passedTests;
    ghost var fed := TestUnlocks(unlocksOf, passedTests);
    if |sortedVideos| > 0 {
      DedupSnoc(fed, sortedVideos[0].id);
      unlocked := Add(unlocked, sortedVideos[0].id);
      fed := fed + [sortedVideos[0].id];
    }
    assert fed == TestUnlocks(unlocksOf, passedTests) + FirstUnlock(sortedVideos);
    unlocked := AddSuccessors(unlocked, fed, sortedVideos, completedVideos);
  }

  /** One step of the index loop, as a change of what the set received. */
  lemma ChainNext(r: seq<string>, fed: seq<string>, sorted: seq<PathVideo>, completed: seq<string>, i: nat)
    requires i + 1 < |sorted|
    requires r == Dedup(fed + ChainUnlocks(sorted, completed, i))
    ensures sorted[i].id in completed ==> Add(r, sorted[i + 1].id) == Dedup(fed + ChainUnlocks(sorted, completed, i + 1))
    ensures sorted[i].id !in completed ==> r == Dedup(fed + ChainUnlocks(sorted, completed, i + 1))
  {
    var sofar := fed + ChainUnlocks(sorted, completed, i);
    if sorted[i].id in completed {
      DedupSnoc(sofar, sorted[i + 1].id);
      assert fed + ChainUnlocks(sorted, completed, i + 1) == sofar + [sorted[i + 1].id];
    } else {
      assert fed + ChainUnlocks(sorted, completed, i + 1) == sofar;
    }
  }

  lemma ChainStart(fed: seq<string>, sorted: seq<PathVideo>, completed: seq<string>)
    ensures fed + ChainUnlocks(sorted, completed, 0) == fed
  {
  }

  /** The index loop: the successor of each completed video is added to a set that so far
      received `fed`. */
  method AddSuccessors(unlocked: seq<string>, ghost fed: seq<string>, sortedVideos: seq<PathVideo>, completedVideos: seq<string>)
    returns (r: seq<string>)
    requires unlocked == Dedup(fed)
    ensures r == Dedup(fed + ChainUnlocks(sortedVideos, completedVideos, ChainLength(sortedVideos)))
  {
    r := unlocked;
    ChainStart(fed, sortedVideos, completedVideos);
    // `i < sortedVideos.length - 1`, which for an empty list runs no step
    for i := 0 to ChainLength(sortedVideos)
      invariant r == Dedup(fed + ChainUnlocks(sortedVideos, completedVideos, i))
    {
      ChainNext(r, fed, sortedVideos, completedVideos, i);
      if sortedVideos[i].id in completedVideos {
        r := Add(r, sortedVideos[i + 1].id);
      }
    }
  }

  /** Only which videos are completed matters, not how often the parent recorded them. */
  lemma {:induction false} ChainUnlocksByMembership(sorted: seq<PathVideo>, c1: seq<string>, c2: seq<string>, n: nat)
    requires n == 0 || n < |sorted|
    requires forall x :: x in c1 <==> x in c2
    ensures ChainUnlocks(sorted, c1, n) == ChainUnlocks(sorted, c2, n)
    decreases n
  {
    if n > 0 {
      ChainUnlocksByMembership(sorted, c1, c2, n - 1);
    }
  }

  /** Recording a completed video twice unlocks nothing more: the unlocked list depends on
      the completed list only through its members. */
  lemma UnlockedByMembership(unlocksOf: string -> seq<string>, passedTests: seq<string>, sorted: seq<PathVideo>, c1: seq<string>, c2: seq<string>)
    requires forall x :: x in c1 <==> x in c2
    ensures Unlocked(unlocksOf, passedTests, sorted, c1) == Unlocked(unlocksOf, passedTests, sorted, c2)
  {
    ChainUnlocksByMembership(sorted, c1, c2, ChainLength(sorted));
  }

  /** Without passed tests and completed videos only the first video is open. */
  lemma FreshLearnerUnlocksFirstOnly(unlocksOf: string -> seq<string>, sorted: seq<PathVideo>)
    requires |sorted| > 0
    ensures Unlocked(unlocksOf, [], sorted, []) == [sorted[0].id]
  {
    assert ChainUnlocks(sorted, [], ChainLength(sorted)) == [] by {
      ChainUnlocksNone(sorted, ChainLength(sorted));
    }
    assert Candidates(unlocksOf, [], sorted, []) == [sorted[0].id];
    DedupSnoc([], sorted[0].id);
  }

  lemma {:induction false} ChainUnlocksNone(sorted: seq<PathVideo>, n: nat)
    requires n == 0 || n < |sorted|
    ensures ChainUnlocks(sorted, [], n) == []
    decreases n
  {
    if n > 0 {
      ChainUnlocksNone(sorted, n - 1);
    }
  }

  // ---------------------------------------------------------------------------------
  // The test that unlocks a video

  /** Whether taking `test` is the way to unlock `videoId`: the test lists the video and has
      not been passed yet. */
  predicate Gates(test: AssessmentTest, passedTests: seq<string>, videoId: string) {
    videoId in test.prerequisiteFor && test.id !in passedTests
  }

  /** Passing a test ends its gating of every video. */
  lemma PassingEndsGating(test: AssessmentTest, passedTests: seq<string>, videoId: string)
    ensures !Gates(test, passedTests + [test.id], videoId)
  {
    assert test.id in passedTests + [test.id];
  }

  /** Passing more tests only removes gates: a test that gates a video for a larger set of
      passed tests gates it for any smaller one. */
  lemma GatingShrinks(test: AssessmentTest, fewer: seq<string>, more: seq<string>, videoId: string)
    requires forall x :: x in fewer ==> x in more
    ensures Gates(test, more, videoId) ==> Gates(test, fewer, videoId)
  {
  }

  /** `getAvailableTestForVideo`: the first of the path's tests that lists the video and is
      not passed, or none. */
  function AvailableTestForVideo(availableTests: seq<AssessmentTest>, passedTests: seq<string>, videoId: string)
    : (r: Option<AssessmentTest>)
    ensures r.None? <==> forall j :: 0 <= j < |availableTests| ==> !Gates(availableTests[j], passedTests, videoId)
    ensures r.Some? ==> exists i :: 0 <= i < |availableTests| && availableTests[i] == r.value
                                    && Gates(availableTests[i], passedTests, videoId)
                                    && forall j :: 0 <= j < i ==> !Gates(availableTests[j], passedTests, videoId)
  {
    Find(availableTests, (t: AssessmentTest) => Gates(t, passedTests, videoId))
  }

  /** A passed test is never offered again. */
  lemma PassedTestNotOffered(availableTests: seq<AssessmentTest>, passedTests: seq<string>, videoId: string)
    ensures AvailableTestForVideo(availableTests, passedTests, videoId).Some? ==>
              AvailableTestForVideo(availableTests, passedTests, videoId).value.id !in passedTests
  {
    var r := AvailableTestForVideo(availableTests, passedTests, videoId);
    if r.Some? {
      var i :| 0 <= i < |availableTests| && availableTests[i] == r.value
               && Gates(availableTests[i], passedTests, videoId);
    }
  }

  // ---------------------------------------------------------------------------------
  // Reports to the parent

  /** The arguments of one `onTestComplete` call. */
  datatype TestReport = TestReport(testId: string, passed: bool, unlockedVideos: seq<string>)

  /** `handleTestComplete`: a pass reports the videos the test unlocks, a failure reports
      none, which is the same as asking the catalogue with the attempt's outcome. */
  function TestCompleteReport(attempt: TestAttempt): (r: TestReport)
    ensures r.testId == attempt.testId && r.passed == attempt.passed
    ensures r.unlockedVideos == UnlockedVideosByTest(attempt.testId, attempt.passed)
    ensures !attempt.passed ==> r.unlockedVideos == []
  {
    if attempt.passed then TestReport(attempt.testId, true, UnlockedVideosByTest(attempt.testId, true))
    else TestReport(attempt.testId, false, [])
  }

  /** `progressPercentage`: completed over total, times 100, in floating point; not finite
      (None) for a path without videos. The completed list is the parent's, so a count
      above the number of videos gives more than 100. */
  function ProgressPercentage(completedCount: nat, totalVideos: nat): (r: Option<real>)
    ensures r.None? <==> totalVideos == 0
    ensures r.Some? ==> r.value * totalVideos as real == 100.0 * completedCount as real
    ensures r.Some? ==> r.value >= 0.0
    ensures r.Some? && completedCount <= totalVideos ==> r.value <= 100.0
  {
    if totalVideos == 0 then None
    else
      var x := completedCount as real / totalVideos as real;
      assert x * totalVideos as real == completedCount as real;
      FractionBounds(completedCount, totalVideos);
      Some(x * 100.0)
  }

  lemma FractionBounds(c: nat, n: nat)
    requires n > 0
    ensures 0.0 <= c as real / n as real
    ensures c <= n ==> c as real / n as real <= 1.0
  {
    var x := c as real / n as real;
    var nr := n as real;
    assert x * nr == c as real;
    SignOfProduct(x, nr);
    SignOfProduct(1.0 - x, nr);
    assert (1.0 - x) * nr == nr - c as real;
  }

  // ---------------------------------------------------------------------------------
  // The card of one video

  /** The button a video card shows. */
  datatype CardAction =
    | WatchAgain                  // unlocked and completed
    | Resume(percent: int)        // unlocked, not completed, some stored progress
    | StartLearning               // unlocked, not started
    | TakeTestToUnlock(testId: string)
    | CompletePreviousSteps       // locked, no test to take: the disabled button

  /** The card's action: an unlocked video is played (watch again, resume at the rounded
      stored percentage, or start); a locked one offers its gating test if there is one and
      is disabled otherwise. */
  function ChooseCardAction(isUnlocked: bool, isCompleted: bool, progressPercentage: real,
                            availableTest: Option<AssessmentTest>): (r: CardAction)
    ensures r.WatchAgain? <==> isUnlocked && isCompleted
    ensures r.Resume? <==> isUnlocked && !isCompleted && progressPercentage > 0.0
    ensures r.Resume? ==> r.percent == RoundHalfUp(progressPercentage)
    ensures r.StartLearning? <==> isUnlocked && !isCompleted && !(progressPercentage > 0.0)
    ensures r.TakeTestToUnlock? <==> !isUnlocked && availableTest.Some?
    ensures r.TakeTestToUnlock? ==> r.testId == availableTest.value.id
    ensures r.CompletePreviousSteps? <==> !isUnlocked && availableTest.None?
  {
    var hasProgress := progressPercentage > 0.0 && !isCompleted;
    if isUnlocked then
      if isCompleted then WatchAgain
      else if hasProgress then Resume(RoundHalfUp(progressPercentage))
      else StartLearning
    else if availableTest.Some? then TakeTestToUnlock(availableTest.value.id)
    else CompletePreviousSteps
  }

  /** The card the page shows for `video`, from the page's inputs. */
  function CardFor(unlocksOf: string -> seq<string>, passedTests: seq<string>, sorted: seq<PathVideo>, completed: seq<string>,
                   availableTests: seq<AssessmentTest>, progressPercentage: real, video: PathVideo): (r: CardAction)
    ensures Playable(r) <==> video.id in Unlocked(unlocksOf, passedTests, sorted, completed)
    ensures r.WatchAgain? <==> video.id in Unlocked(unlocksOf, passedTests, sorted, completed) && video.id in completed
    ensures r.TakeTestToUnlock? ==>
              exists j :: 0 <= j < |availableTests| && availableTests[j].id == r.testId
                          && Gates(availableTests[j], passedTests, video.id)
    ensures r.CompletePreviousSteps? <==>
              video.id !in Unlocked(unlocksOf, passedTests, sorted, completed)
              && forall j :: 0 <= j < |availableTests| ==> !Gates(availableTests[j], passedTests, video.id)
  {
    ChooseCardAction(video.id in Unlocked(unlocksOf, passedTests, sorted, completed), video.id in completed,
                     progressPercentage, AvailableTestForVideo(availableTests, passedTests, video.id))
  }

  /** A card that can be played. */
  predicate Playable(a: CardAction) {
    a.WatchAgain? || a.Resume? || a.StartLearning?
  }

  /** The first video's card is always playable, and so is the card after a completed
      video: neither ever asks for a test. */
  lemma PlayableCards(unlocksOf: string -> seq<string>, passedTests: seq<string>, sorted: seq<PathVideo>, completed: seq<string>,
                      availableTests: seq<AssessmentTest>, pct: real, i: nat)
    requires i < |sorted|
    requires i == 0 || sorted[i - 1].id in completed
    ensures Playable(CardFor(unlocksOf, passedTests, sorted, completed, availableTests, pct, sorted[i]))
  {
    var u := Unlocked(unlocksOf, passedTests, sorted, completed);
    if i > 0 {
      assert 0 <= i - 1 < |sorted| - 1;
    }
    assert sorted[i].id in u;
  }

  /** A locked card with no gating test is the disabled one: no passed test lists it, it is
      not first, and its predecessor is not completed. */
  lemma LockedCardReasons(unlocksOf: string -> seq<string>, passedTests: seq<string>, sorted: seq<PathVideo>, completed: seq<string>,
                          availableTests: seq<AssessmentTest>, pct: real, i: nat)
    requires i < |sorted|
    requires CardFor(unlocksOf, passedTests, sorted, completed, availableTests, pct, sorted[i]).CompletePreviousSteps?
    ensures i > 0 && sorted[i - 1].id !in completed
    ensures forall t :: t in passedTests ==> sorted[i].id !in unlocksOf(t)
  {
    var u := Unlocked(unlocksOf, passedTests, sorted, completed);
    assert sorted[i].id !in u;
    if i > 0 {
      assert 0 <= i - 1 < |sorted| - 1;
    }
    forall t | t in passedTests ensures sorted[i].id !in unlocksOf(t) {
      var k :| 0 <= k < |passedTests| && passedTests[k] == t;
    }
  }

  // ---------------------------------------------------------------------------------
  // The page

  /** The page's state, as one value. */
  datatype PageState = PageState(
    bookmarkedVideos: seq<string>,
    showEnrollAlert: bool,
    currentTest: Option<string>,
    selectedVideo: Option<PathVideo>,
    isVideoPlayerOpen: bool,
    enrollRequests: seq<string>,      // the ids passed to `onEnrollInPath`
    testReports: seq<TestReport>,     // the `onTestComplete` calls
    completionReports: seq<string>)   // the ids passed to `onVideoComplete`

  class PathLearningPage {
    const pathId: string
    var bookmarkedVideos: seq<string>
    var showEnrollAlert: bool
    var currentTest: Option<string>
    var selectedVideo: Option<PathVideo>
    var isVideoPlayerOpen: bool
    var enrollRequests: seq<string>
    var testReports: seq<TestReport>
    var completionReports: seq<string>

    function State(): PageState
      reads this
    {
      PageState(bookmarkedVideos, showEnrollAlert, currentTest, selectedVideo, isVideoPlayerOpen,
                enrollRequests, testReports, completionReports)
    }

    /** The initial state: no bookmarks, the enrol alert shown unless enrolled, no test and
        no video open. */
    constructor(pathId: string, isEnrolled: bool)
      ensures this.pathId == pathId
      ensures State() == PageState([], !isEnrolled, None, None, false, [], [], [])
    {
      this.pathId := pathId;
      bookmarkedVideos := [];
      showEnrollAlert := !isEnrolled;
      currentTest := None;
      selectedVideo := None;
      isVideoPlayerOpen := false;
      enrollRequests := [];
      testReports := [];
      completionReports := [];
    }

    /** `handleBookmark`: drop the id if bookmarked, else append it. */
    method HandleBookmark(videoId: string)
      modifies this
      ensures State() == old(State()).(bookmarkedVideos := Toggle(old(bookmarkedVideos), videoId))
      ensures videoId in bookmarkedVideos <==> videoId !in old(bookmarkedVideos)
    {
      if videoId in bookmarkedVideos {
        bookmarkedVideos := Without(bookmarkedVideos, videoId);
      } else {
        bookmarkedVideos := bookmarkedVideos + [videoId];
      }
    }

    /** `handleEnroll`: tell the parent and hide the alert. */
    method HandleEnroll()
      modifies this
      ensures State() == old(State()).(enrollRequests := old(enrollRequests) + [pathId], showEnrollAlert := false)
    {
      enrollRequests := enrollRequests + [pathId];
      showEnrollAlert := false;
    }

    /** The alert's "Maybe Later" button: hide the alert without enrolling. */
    method DismissEnrollAlert()
      modifies this
      ensures State() == old(State()).(showEnrollAlert := false)
    {
      showEnrollAlert := false;
    }

    /** `handleTestComplete`: report the outcome and close the test. */
    method HandleTestComplete(attempt: TestAttempt)
      modifies this
      ensures State() == old(State()).(testReports := old(testReports) + [TestCompleteReport(attempt)], currentTest := None)
    {
      if attempt.passed {
        var unlockedVideoIds := UnlockedVideosByTest(attempt.testId, true);
        testReports := testReports + [TestReport(attempt.testId, true, unlockedVideoIds)];
      } else {
        testReports := testReports + [TestReport(attempt.testId, false, [])];
      }
      currentTest := None;
    }

    /** `handleTakeTest`. */
    method HandleTakeTest(testId: string)
      modifies this
      ensures State() == old(State()).(currentTest := Some(testId))
    {
      currentTest := Some(testId);
    }

    /** `handleCloseTest`: leave the test without a report. */
    method HandleCloseTest()
      modifies this
      ensures State() == old(State()).(currentTest := None)
    {
      currentTest := None;
    }

    /** `handleVideoOpen`. */
    method HandleVideoOpen(video: PathVideo)
      modifies this
      ensures State() == old(State()).(selectedVideo := Some(video), isVideoPlayerOpen := true)
    {
      selectedVideo := Some(video);
      isVideoPlayerOpen := true;
    }

    /** `handleVideoPlayerClose`. */
    method HandleVideoPlayerClose()
      modifies this
      ensures State() == old(State()).(selectedVideo := None, isVideoPlayerOpen := false)
    {
      isVideoPlayerOpen := false;
      selectedVideo := None;
    }

    /** `handleVideoComplete`: passed straight to the parent. */
    method HandleVideoComplete(videoId: string)
      modifies this
      ensures State() == old(State()).(completionReports := old(completionReports) + [videoId])
    {
      completionReports := completionReports + [videoId];
    }
  }
}
