/** The learning page of one topic, src/components/Learning/TopicLearning.tsx: the topic's
    videos sorted by level, the watched share, the button each video card shows, and the
    page's own state. The parent's callbacks are recorded as lists of the calls made. */
module TopicLearning {
  import opened Wrappers
  import opened Seqs
  import opened Sorting
  import opened Text
  import opened VideoData
  import VideoProgress
  import DeveloperPathLearning

  /** What the page renders for a topic id: the not-found screen or the topic. */
  datatype Screen = NotFound | Found(topic: Topic)

  function ScreenFor(topicId: string): (r: Screen)
    ensures r.NotFound? <==> TopicById(topicId).None?
    ensures r.Found? ==> (topicId, r.topic) in TopicTable
  {
    match TopicById(topicId)
    case None => NotFound
    case Some(t) => Found(t)
  }

  /** An id the catalogue does not list gets the not-found screen. */
  lemma UnknownTopicNotFound()
    ensures ScreenFor("python") == NotFound
  {
  }

  /** `sortedVideos`: the topic's videos sorted by level rank, beginner first. */
  function SortedVideos(t: Topic): (r: seq<Video>)
    ensures SortedBy(r, DifficultyRank)
    ensures multiset(r) == multiset(t.videos)
    ensures |r| == |t.videos|
  {
    var r := SortBy(t.videos, DifficultyRank);
    assert |r| == |multiset(r)| == |multiset(t.videos)| == |t.videos|;
    r
  }

  /** Videos of the same level keep their catalogue order. */
  lemma SortedVideosStable(t: Topic, rank: int)
    ensures WithKey(SortedVideos(t), DifficultyRank, rank) == WithKey(t.videos, DifficultyRank, rank)
  {
    SortByStable(t.videos, DifficultyRank, rank);
  }

  /** On a shipped topic the page lists the catalogue order. */
  lemma ShippedSortedVideos(i: nat)
    requires i < |TopicTable|
    ensures SortedVideos(TopicTable[i].1) == TopicTable[i].1.videos
  {
    ShippedTopicsListedByDifficulty();
  }

  /** `progressPercentage`: watched entries over the topic's videos, times 100; not finite
      (None) for a topic without videos. The watched list comes from the dashboard, which
      appends without de-duplication, so a video watched twice counts twice. */
  function TopicProgress(watchedVideos: seq<string>, t: Topic): (r: Option<real>)
    ensures r.None? <==> |t.videos| == 0
    ensures r.Some? ==> r.value * |t.videos| as real == 100.0 * |watchedVideos| as real
    ensures r.Some? && |watchedVideos| <= |t.videos| ==> 0.0 <= r.value <= 100.0
  {
    DeveloperPathLearning.ProgressPercentage(|watchedVideos|, |t.videos|)
  }

  /** More watched entries than videos, as repeated completions leave, read above 100%. */
  lemma RepeatsExceedHundred(watchedVideos: seq<string>, t: Topic)
    requires 0 < |t.videos| < |watchedVideos|
    ensures TopicProgress(watchedVideos, t).value > 100.0
  {
    var n, w := |t.videos| as real, |watchedVideos| as real;
    var x := TopicProgress(watchedVideos, t).value;
    assert x * n == 100.0 * w;
    assert (x - 100.0) * n == 100.0 * (w - n);
    SignOfProduct(x - 100.0, n);
  }

  // ---------------------------------------------------------------------------------
  // The card of one video

  /** The card's button. */
  datatype WatchButton = WatchAgain | Resume(percent: int) | WatchVideo

  /** `hasProgress`: some stored progress on a video not yet watched. */
  predicate HasProgress(progressPercentage: real, isWatched: bool) {
    progressPercentage > 0.0 && !isWatched
  }

  /** The button label: watched first, then stored progress with its rounded percentage,
      otherwise a plain start. */
  function ChooseButton(isWatched: bool, progressPercentage: real): (r: WatchButton)
    ensures r.WatchAgain? <==> isWatched
    ensures r.Resume? <==> HasProgress(progressPercentage, isWatched)
    ensures r.Resume? ==> r.percent == RoundHalfUp(progressPercentage)
    ensures r.WatchVideo? <==> !isWatched && !(progressPercentage > 0.0)
  {
    if isWatched then WatchAgain
    else if HasProgress(progressPercentage, isWatched) then Resume(RoundHalfUp(progressPercentage))
    else WatchVideo
  }

  /** The button of `video`'s card, from the watched list and the progress store. */
  function ButtonFor(watchedVideos: seq<string>, store: VideoProgress.ProgressMap, video: Video): WatchButton {
    ChooseButton(video.id in watchedVideos, VideoProgress.CompletionPercentage(store, video.id))
  }

  /** A video that is neither watched nor stored offers a plain start; one with stored
      progress offers to resume at a rounded percentage between 0 and 100. */
  lemma ButtonFromStore(watchedVideos: seq<string>, store: VideoProgress.ProgressMap, video: Video)
    ensures video.id !in watchedVideos && video.id !in store ==> ButtonFor(watchedVideos, store, video) == WatchVideo
    ensures ButtonFor(watchedVideos, store, video).Resume? ==> 0 <= ButtonFor(watchedVideos, store, video).percent <= 100
  {
    var pct := VideoProgress.CompletionPercentage(store, video.id);
    var b := ButtonFor(watchedVideos, store, video);
    if b.Resume? {
      assert 0.0 < pct <= 100.0;
      assert b.percent as real - 0.5 <= pct < b.percent as real + 0.5;
    }
  }

  // ---------------------------------------------------------------------------------
  // The page

  /** The page's state, as one value. */
  datatype PageState = PageState(
    bookmarkedVideos: seq<string>,
    showEnrollAlert: bool,
    selectedVideo: Option<Video>,
    isVideoPlayerOpen: bool,
    enrollRequests: seq<string>,   // the topics passed to `onEnrollInPath`
    watchReports: seq<string>)     // the ids passed to `onVideoWatch`

  class TopicLearningPage {
    const topicId: string
    var bookmarkedVideos: seq<string>
    var showEnrollAlert: bool
    var selectedVideo: Option<Video>
    var isVideoPlayerOpen: bool
    var enrollRequests: seq<string>
    var watchReports: seq<string>

    function State(): PageState
      reads this
    {
      PageState(bookmarkedVideos, showEnrollAlert, selectedVideo, isVideoPlayerOpen, enrollRequests, watchReports)
    }

    /** The initial state: no bookmarks, the enrol alert shown unless enrolled, no player. */
    constructor(topicId: string, isEnrolled: bool)
      ensures this.topicId == topicId
      ensures State() == PageState([], !isEnrolled, None, false, [], [])
    {
      this.topicId := topicId;
      bookmarkedVideos := [];
      showEnrollAlert := !isEnrolled;
      selectedVideo := None;
      isVideoPlayerOpen := false;
      enrollRequests := [];
      watchReports := [];
    }

    /** `handleBookmark`: drop the id if bookmarked, else append it. */
    method HandleBookmark(videoId: string)
      modifies this
      ensures State() == old(State()).(bookmarkedVideos := Toggle(old(bookmarkedVideos), videoId))
      ensures videoId in bookmarkedVideos <==> videoId !in old(bookmarkedVideos)
    {
      if videoId in bookmarkedVideos {
        bookmarkedVideos := Without(bookmarkedVideos, videoId);
      } else {
        bookmarkedVideos := bookmarkedVideos + [videoId];
      }
    }

    /** `handleEnroll`: tell the parent and hide the alert. */
    method HandleEnroll()
      modifies this
      ensures State() == old(State()).(enrollRequests := old(enrollRequests) + [topicId], showEnrollAlert := false)
    {
      enrollRequests := enrollRequests + [topicId];
      showEnrollAlert := false;
    }

    /** The alert's "Maybe Later" button: hide the alert without enrolling. */
    method DismissEnrollAlert()
      modifies this
      ensures State() == old(State()).(showEnrollAlert := false)
    {
      showEnrollAlert := false;
    }

    /** `handleVideoOpen`. */
    method HandleVideoOpen(video: Video)
      modifies this
      ensures State() == old(State()).(selectedVideo := Some(video), isVideoPlayerOpen := true)
    {
      selectedVideo := Some(video);
      isVideoPlayerOpen := true;
    }

    /** `handleVideoPlayerClose`. */
    method HandleVideoPlayerClose()
      modifies this
      ensures State() == old(State()).(selectedVideo := None, isVideoPlayerOpen := false)
    {
      isVideoPlayerOpen := false;
      selectedVideo := None;
    }

    /** `handleVideoComplete`: passed straight to the parent. */
    method HandleVideoComplete(videoId: string)
      modifies this
      ensures State() == old(State()).(watchReports := old(watchReports) + [videoId])
    {
      watchReports := watchReports + [videoId];
    }
  }
}
