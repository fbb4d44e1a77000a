/** The profile page of src/components/Profile/UserProfile.tsx: the learning statistics drawn
    from the stored watch records, and the editing switches of the header. The records are
    the values of the progress store (`Object.values(getAllProgress())`), passed as a list. */
module UserProfile {
  import opened Wrappers
  import opened Seqs
  import opened Text
  import opened VideoProgress

  // ---------------------------------------------------------------------------------
  // Statistics

  function IsCompleted(): Record -> bool {
    (p: Record) => p.completed
  }

  /** `completedVideos`: the records flagged completed. */
  function CompletedVideos(vs: seq<Record>): (r: nat)
    ensures r <= |vs|
    ensures r == 0 <==> forall p :: p in vs ==> !p.completed
    ensures r == |vs| <==> forall p :: p in vs ==> p.completed
  {
    FilterCount(vs, IsCompleted());
    |Filter(vs, IsCompleted())|
  }

  /** The seconds watched over all records. */
  function TotalSeconds(vs: seq<Record>): int {
    if vs == [] then 0 else TotalSeconds(vs[..|vs| - 1]) + vs[|vs| - 1].currentTime
  }

  /** `totalWatchTime`: the whole minutes in the seconds watched, rounded down. */
  function TotalWatchMinutes(vs: seq<Record>): (r: int)
    ensures 60 * r <= TotalSeconds(vs) < 60 * (r + 1)
  {
    TotalSeconds(vs) / 60
  }

  /** With no negative time stored, the watch time is not negative. */
  lemma {:induction false} TotalSecondsNonNegative(vs: seq<Record>)
    requires forall i :: 0 <= i < |vs| ==> vs[i].currentTime >= 0
    ensures TotalSeconds(vs) >= 0 && TotalWatchMinutes(vs) >= 0
  {
    if vs != [] {
      TotalSecondsNonNegative(vs[..|vs| - 1]);
    }
  }

  /** A record's watched share in percent, `p.currentTime / p.duration * 100`. */
  function Share(p: Record): real
    requires p.duration != 0
  {
    p.currentTime as real / p.duration as real * 100.0
  }

  /** The sum of the shares; not a finite number (None) as soon as one record has duration 0,
      since the code divides by the duration unguarded. */
  function ShareSum(vs: seq<Record>): (r: Option<real>)
    ensures r.None? <==> exists i :: 0 <= i < |vs| && vs[i].duration == 0
  {
    if vs == [] then Some(0.0)
    else
      var last := vs[|vs| - 1];
      var front := vs[..|vs| - 1];
      assert forall i :: 0 <= i < |front| ==> front[i] == vs[i];
      match ShareSum(front)
      case None => None
      case Some(s) => if last.duration == 0 then None else Some(s + Share(last))
  }

  /** `avgCompletionRate`: 0 without records, otherwise the rounded mean share, which is not
      a finite number when a record has duration 0. */
  function AvgCompletionRate(vs: seq<Record>): (r: Option<int>)
    ensures vs == [] ==> r == Some(0)
    ensures vs != [] ==> (r.None? <==> exists i :: 0 <= i < |vs| && vs[i].duration == 0)
  {
    if vs == [] then Some(0)
    else
      match ShareSum(vs)
      case None => None
      case Some(s) => Some(RoundHalfUp(s / |vs| as real))
  }

  /** A record whose position lies within its positive duration. */
  predicate WellFormed(p: Record) {
    0 < p.duration && 0 <= p.currentTime <= p.duration
  }

  /** Each share of a well-formed record lies between 0 and 100, hence so does their sum
      divided by the count. */
  lemma {:induction false} ShareSumBounds(vs: seq<Record>)
    requires forall i :: 0 <= i < |vs| ==> WellFormed(vs[i])
    ensures ShareSum(vs).Some?
    ensures 0.0 <= ShareSum(vs).value <= 100.0 * |vs| as real
  {
    if vs != [] {
      var front := vs[..|vs| - 1];
      assert forall i :: 0 <= i < |front| ==> front[i] == vs[i];
      ShareSumBounds(front);
      ShareBounds(vs[|vs| - 1]);
    }
  }

  lemma ShareBounds(p: Record)
    requires WellFormed(p)
    ensures 0.0 <= Share(p) <= 100.0
  {
    var t, d := p.currentTime as real, p.duration as real;
    assert t / d <= 1.0 by {
      assert t <= d;
    }
  }

  /** For well-formed records the mean completion rate is a percentage. */
  lemma AvgCompletionRateBounds(vs: seq<Record>)
    requires forall i :: 0 <= i < |vs| ==> WellFormed(vs[i])
    ensures AvgCompletionRate(vs).Some?
    ensures 0 <= AvgCompletionRate(vs).value <= 100
  {
    if vs != [] {
      ShareSumBounds(vs);
      var s, n := ShareSum(vs).value, |vs| as real;
      assert 0.0 <= s / n <= 100.0 by {
        assert s <= 100.0 * n;
      }
    }
  }

  /** When every record is watched to its end, the mean rate is exactly 100. */
  lemma {:induction false} FullyWatchedSum(vs: seq<Record>)
    requires forall i :: 0 <= i < |vs| ==> 0 < vs[i].duration && vs[i].currentTime == vs[i].duration
    ensures ShareSum(vs) == Some(100.0 * |vs| as real)
  {
    if vs != [] {
      var front := vs[..|vs| - 1];
      assert forall i :: 0 <= i < |front| ==> front[i] == vs[i];
      FullyWatchedSum(front);
      var p := vs[|vs| - 1];
      assert p.currentTime as real / p.duration as real == 1.0;
    }
  }

  lemma FullyWatchedRate(vs: seq<Record>)
    requires vs != []
    requires forall i :: 0 <= i < |vs| ==> 0 < vs[i].duration && vs[i].currentTime == vs[i].duration
    ensures AvgCompletionRate(vs) == Some(100)
  {
    FullyWatchedSum(vs);
    var n := |vs| as real;
    assert 100.0 * n / n == 100.0;
    RoundHalfUpUnique(100.0, 100);
  }

  /** `getUserStats`; the streak (7) and the badge count (12) are fixed sample values. */
  datatype UserStats = UserStats(
    completedVideos: nat,
    totalWatchTime: int,            // minutes
    avgCompletionRate: Option<int>, // percent; None when not a finite number
    currentStreak: int,
    totalBadges: int)

  function GetUserStats(vs: seq<Record>): (r: UserStats)
    ensures r.completedVideos <= |vs|
    ensures 60 * r.totalWatchTime <= TotalSeconds(vs) < 60 * (r.totalWatchTime + 1)
    ensures vs == [] ==> r == UserStats(0, 0, Some(0), 7, 12)
  {
    UserStats(CompletedVideos(vs), TotalWatchMinutes(vs), AvgCompletionRate(vs), 7, 12)
  }

  // ---------------------------------------------------------------------------------
  // The header switches

  /** The page's state, as one value: the tab, the editing switch, the success message and
      the uploaded picture (`avatarPreview`, None for null). */
  datatype PageState = PageState(currentTab: int, isEditing: bool, showSuccess: bool, avatarPreview: Option<string>)

  class ProfilePage {
    var currentTab: int
    var isEditing: bool
    var showSuccess: bool
    var avatarPreview: Option<string>

    function State(): PageState
      reads this
    {
      PageState(currentTab, isEditing, showSuccess, avatarPreview)
    }

    /** The initial state: first tab, not editing, no message, no uploaded picture. */
    constructor()
      ensures State() == PageState(0, false, false, None)
    {
      currentTab := 0;
      isEditing := false;
      showSuccess := false;
      avatarPreview := None;
    }

    /** `handleTabChange`. */
    method TabChange(newValue: int)
      modifies this
      ensures State() == old(State()).(currentTab := newValue)
    {
      currentTab := newValue;
    }

    /** The "Edit Profile" button. */
    method StartEditing()
      modifies this
      ensures State() == old(State()).(isEditing := true)
    {
      isEditing := true;
    }

    /** The picture read by the file reader (only offered while editing), as a data URL. */
    method AvatarLoaded(dataUrl: string)
      modifies this
      ensures State() == old(State()).(avatarPreview := Some(dataUrl))
    {
      avatarPreview := Some(dataUrl);
    }

    /** `handleSave`: leave editing and show the success message; the picture stays. */
    method Save()
      modifies this
      ensures State() == old(State()).(isEditing := false, showSuccess := true)
    {
      isEditing := false;
      showSuccess := true;
    }

    /** The message's close button, and the timer `handleSave` starts. */
    method HideSuccess()
      modifies this
      ensures State() == old(State()).(showSuccess := false)
    {
      showSuccess := false;
    }

    /** `handleCancel`: leave editing and drop the uploaded picture. */
    method Cancel()
      modifies this
      ensures State() == old(State()).(isEditing := false, avatarPreview := None)
    {
      isEditing := false;
      avatarPreview := None;
    }
  }

  /** Cancelling an edit drops even a picture kept by an earlier save: after save, edit and
      cancel the page shows no uploaded picture. */
  method SaveEditCancel(page: ProfilePage, dataUrl: string)
    modifies page
    ensures page.State() == old(page.State()).(isEditing := false, showSuccess := true, avatarPreview := None)
  {
    page.StartEditing();
    page.AvatarLoaded(dataUrl);
    page.Save();
    page.StartEditing();
    page.Cancel();
  }
}
