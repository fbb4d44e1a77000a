/** The logic of src/components/VideoPlayer/VideoPlayer.tsx: reading "M:SS" durations,
    turning a YouTube watch URL into an embed URL, and the player session whose one-second
    tick advances the simulated playback, saves progress every five seconds and reports
    completion at 90%. The 1 s interval is an explicit `Tick` call; `Date.now()` is a `now`
    parameter and `window.location.origin` an `origin` parameter. */
module VideoPlayer {
  import opened Wrappers
  import opened Text
  import opened VideoProgress

  // ---------------------------------------------------------------------------------
  // Durations

  /** Minutes and seconds read from the parts of a split duration: exactly two parts read
      with `parseInt`; any other number of parts gives the five-minute default 300. A part
      that is not a number makes the result NaN, here None. */
  function DurationOfParts(parts: seq<string>): (r: Option<int>)
    ensures |parts| != 2 ==> r == Some(300)
    ensures |parts| == 2 ==> (r.Some? <==> ParseInt(parts[0]).Some? && ParseInt(parts[1]).Some?)
    ensures |parts| == 2 && r.Some? ==> r.value == ParseInt(parts[0]).value * 60 + ParseInt(parts[1]).value
  {
    if |parts| == 2 then
      var minutes, seconds := ParseInt(parts[0]), ParseInt(parts[1]);
      if minutes.Some? && seconds.Some? then Some(minutes.value * 60 + seconds.value) else None
    else Some(300)
  }

  /** `parseDuration`: the string split on ':' and read as minutes and seconds. */
  function ParseDuration(durationStr: string): (r: Option<int>)
    ensures ':' !in durationStr ==> r == Some(300)
  {
    if ':' in durationStr then DurationOfParts(Split(durationStr, ":"))
    else
      SplitAbsent(durationStr, ':');
      DurationOfParts(Split(durationStr, ":"))
  }

  /** Two parts that are numbers read as minutes times 60 plus seconds. */
  lemma DurationOfTwoParts(a: string, b: string, x: int, y: int, total: int)
    requires ParseInt(a) == Some(x) && ParseInt(b) == Some(y)
    requires total == x * 60 + y
    ensures DurationOfParts([a, b]) == Some(total)
  {
    var r := DurationOfParts([a, b]);
    assert r.Some?;
    assert r.value == total;
  }

  /** A formatted time splits on ':' into its minutes and its padded seconds. */
  lemma FormatTimeSplits(seconds: nat)
    ensures Split(FormatTime(seconds), ":") == [NatToString(seconds / 60), PadStart2(NatToString(seconds % 60))]
  {
    var m := NatToString(seconds / 60);
    var s := PadStart2(NatToString(seconds % 60));
    DigitsHaveNoColon(m);
    DigitsHaveNoColon(s);
    SplitAroundOne(m, s, ':');
    assert FormatTime(seconds) == m + [':'] + s;
  }

  /** Reading back a formatted time gives the seconds: `parseDuration(formatTime(s)) == s`. */
  lemma ParseDurationFormatTime(seconds: nat)
    ensures ParseDuration(FormatTime(seconds)) == Some(seconds)
  {
    var m, s := seconds / 60, seconds % 60;
    assert m * 60 + s == seconds;
    FormatTimeSplits(seconds);
    ParseIntNatToString(m);
    ParseIntPadded(s);
    DurationOfTwoParts(NatToString(m), PadStart2(NatToString(s)), m, s, seconds);
  }

  lemma DigitsHaveNoColon(s: string)
    requires forall i :: 0 <= i < |s| ==> IsDecimalDigit(s[i])
    ensures ':' !in s
  {
    forall i | 0 <= i < |s| ensures s[i] != ':' {
      assert IsDecimalDigit(s[i]);
    }
  }

  /** "18:45" is 1125 seconds. */
  lemma ParseDurationExample()
    ensures ParseDuration("18:45") == Some(1125)
  {
    FormatTimeOf1125();
    ParseDurationFormatTime(1125);
  }

  lemma FormatTimeOf1125()
    ensures FormatTime(1125) == "18:45"
  {
    assert NatToString(18) == "18";
    assert NatToString(45) == "45";
  }

  // ---------------------------------------------------------------------------------
  // Embed URLs

  const WatchMarker := "youtube.com/watch?v="
  const ShortMarker := "youtu.be/"

  const EmbedPrefix := "https://www.youtube.com/embed/"
  const EmbedQuery := "?enablejsapi=1&origin="

  /** The embed address of a video id, loaded from page `origin`: the id sits right after
      the embed path and the origin ends the query. */
  function EmbedUrl(videoId: string, origin: string): (r: string)
    ensures |r| == |EmbedPrefix| + |videoId| + |EmbedQuery| + |origin|
    ensures r[..|EmbedPrefix|] == EmbedPrefix
    ensures r[|EmbedPrefix|..|EmbedPrefix| + |videoId|] == videoId
    ensures r[|r| - |origin|..] == origin
  {
    EmbedPrefix + videoId + EmbedQuery + origin
  }

  /** The id `getEmbedUrl` extracts: for a watch URL the text after the first "v=" up to the
      next "v=" or "&"; for a short URL the text after the first "youtu.be/" up to the next
      such marker or "?"; otherwise the empty string. */
  function ExtractVideoId(url: string): (r: string)
    ensures !Includes(url, WatchMarker) && !Includes(url, ShortMarker) ==> r == ""
    ensures Includes(url, WatchMarker) ==> !Includes(r, "&")
    ensures !Includes(url, WatchMarker) && Includes(url, ShortMarker) ==> !Includes(r, "?")
  {
    if Includes(url, WatchMarker) then
      var parts := Split(url, "v=");
      if |parts| >= 2 then
        SplitPiecesFree(parts[1], "&");
        Split(parts[1], "&")[0]
      else ""
    else if Includes(url, ShortMarker) then
      var parts := Split(url, ShortMarker);
      if |parts| >= 2 then
        SplitPiecesFree(parts[1], "?");
        Split(parts[1], "?")[0]
      else ""
    else ""
  }

  /** `getEmbedUrl`: the embed address when an id was found, else the URL unchanged. */
  function GetEmbedUrl(url: string, origin: string): (r: string)
    ensures ExtractVideoId(url) != "" ==> r == EmbedUrl(ExtractVideoId(url), origin)
    ensures ExtractVideoId(url) == "" ==> r == url
  {
    var videoId := ExtractVideoId(url);
    if videoId != "" then EmbedUrl(videoId, origin) else url
  }

  const WatchPrefix := "https://www.youtube.com/watch?v="

  /** A standard watch URL whose id has no '=' and no '&' embeds that very id. */
  lemma EmbedOfWatchUrl(videoId: string, origin: string)
    requires videoId != "" && '=' !in videoId && '&' !in videoId
    ensures GetEmbedUrl(WatchPrefix + videoId, origin) == EmbedUrl(videoId, origin)
  {
    var url := WatchPrefix + videoId;
    WatchUrlHasMarker(videoId);
    WatchUrlSplitsOnV(videoId);
    SplitAbsent(videoId, '&');
    assert ExtractVideoId(url) == Split(videoId, "&")[0];
  }

  lemma WatchUrlHasMarker(videoId: string)
    ensures Includes(WatchPrefix + videoId, WatchMarker)
  {
    var url := WatchPrefix + videoId;
    assert OccursAt(url, WatchMarker, 12) by {
      assert url[12..32] == WatchPrefix[12..32];
    }
  }

  /** The first "v=" of a watch URL is the one ending its prefix. */
  lemma WatchUrlSplitsOnV(videoId: string)
    requires '=' !in videoId
    ensures Split(WatchPrefix + videoId, "v=") == [WatchPrefix[..30], videoId]
  {
    var url := WatchPrefix + videoId;
    WatchUrlFirstV(videoId);
    SplitAtFirst(url, "v=", 30);
    assert url[..30] == WatchPrefix[..30];
    assert url[32..] == videoId;
    NoOccurrenceWithout(videoId, "v=", '=');
    SplitWithout(videoId, "v=");
  }

  lemma WatchUrlFirstV(videoId: string)
    ensures IndexOf(WatchPrefix + videoId, "v=") == Some(30)
  {
    assert WatchPrefix[30..32] == "v=";
    forall j | 0 <= j < 30 ensures !OccursAt(WatchPrefix, "v=", j) {
      assert WatchPrefix[j + 1] != '=';
    }
    IndexOfInPrefix(WatchPrefix, videoId, "v=", 30);
  }

  const ShortPrefix := "https://youtu.be/"

  /** A short URL whose id has no '=', '/' or '?' embeds that very id. */
  lemma EmbedOfShortUrl(videoId: string, origin: string)
    requires videoId != "" && '=' !in videoId && '/' !in videoId && '?' !in videoId
    ensures GetEmbedUrl(ShortPrefix + videoId, origin) == EmbedUrl(videoId, origin)
  {
    var url := ShortPrefix + videoId;
    assert '=' !in ShortPrefix;
    NoOccurrenceWithout(url, WatchMarker, '=');
    ShortUrlSplits(videoId);
    SplitAbsent(videoId, '?');
    assert ExtractVideoId(url) == Split(videoId, "?")[0];
  }

  /** The only "youtu.be/" of a short URL is the one ending its prefix. */
  lemma ShortUrlSplits(videoId: string)
    requires '/' !in videoId
    ensures Includes(ShortPrefix + videoId, ShortMarker)
    ensures Split(ShortPrefix + videoId, ShortMarker) == [ShortPrefix[..8], videoId]
  {
    var url := ShortPrefix + videoId;
    ShortUrlFirstMarker(videoId);
    IndexOfIncludes(url, ShortMarker);
    SplitAtFirst(url, ShortMarker, 8);
    assert url[..8] == ShortPrefix[..8];
    assert url[17..] == videoId;
    NoOccurrenceWithout(videoId, ShortMarker, '/');
    SplitWithout(videoId, ShortMarker);
  }

  lemma ShortUrlFirstMarker(videoId: string)
    ensures IndexOf(ShortPrefix + videoId, ShortMarker) == Some(8)
  {
    assert OccursAt(ShortPrefix, ShortMarker, 8) by {
      assert ShortPrefix[8..17] == ShortMarker;
    }
    forall j | 0 <= j < 8 ensures !OccursAt(ShortPrefix, ShortMarker, j) {
      assert ShortPrefix[j] != 'y';
    }
    IndexOfInPrefix(ShortPrefix, videoId, ShortMarker, 8);
  }

  // ---------------------------------------------------------------------------------
  // The player session

  /** The fields of the `video` prop the player uses. */
  datatype PlayerVideo = PlayerVideo(id: string, url: string, duration: string)

  /** The length `Tick` divides by: `duration || 300`, so NaN and 0 fall back to 300. */
  function EffectiveDuration(duration: Option<int>): (r: int)
    ensures r != 0
    ensures duration.Some? && duration.value != 0 ==> r == duration.value
    ensures duration.None? || duration.value == 0 ==> r == 300
  {
    if duration.Some? && duration.value != 0 then duration.value else 300
  }

  /** `(t / d) * 100` in floating point: not finite (None) for NaN or a zero divisor. */
  function PercentOf(t: int, duration: Option<int>): (r: Option<real>)
    ensures r.None? <==> duration.None? || duration.value == 0
    ensures r.Some? ==> r.value * duration.value as real == 100.0 * t as real
  {
    if duration.None? || duration.value == 0 then None
    else Some(t as real / duration.value as real * 100.0)
  }

  /** The progress shown after a tick: `min((t / d) * 100, 100)`. */
  function TickProgress(newTime: int, videoDuration: int): (r: real)
    requires videoDuration != 0
    ensures r <= 100.0
    ensures videoDuration > 0 && newTime >= 0 ==> r >= 0.0
    ensures r == 100.0 <==> newTime as real / videoDuration as real >= 1.0
    ensures r < 100.0 ==> r * videoDuration as real == 100.0 * newTime as real
  {
    var d := videoDuration as real;
    var share := newTime as real / d;
    assert share * d == newTime as real;
    var p := share * 100.0;
    assert p * d == 100.0 * newTime as real;
    if p < 100.0 then p else 100.0
  }

  /** Whether a stored record brings up the resume prompt: a record past 30 s that is not
      flagged completed. */
  predicate OffersResume(saved: Option<Record>)
    ensures saved.None? ==> !OffersResume(saved)
    ensures saved.Some? && saved.value.completed ==> !OffersResume(saved)
    ensures saved.Some? && saved.value.currentTime <= 30 ==> !OffersResume(saved)
  {
    saved.Some? && saved.value.currentTime > 30 && !saved.value.completed
  }

  /** A position saved on close brings the prompt back on the next open exactly when it is
      past 30 s. */
  lemma ResumeOffersSavedPosition(m: ProgressMap, videoId: string, t: int, d: int, now: int)
    ensures OffersResume(GetProgress(Saved(m, videoId, t, d, now, false), videoId)) <==> t > 30
  {
  }

  /** A video marked completed never brings up the prompt. */
  lemma NoResumeAfterCompletion(m: ProgressMap, videoId: string, d: int, now: int)
    ensures !OffersResume(GetProgress(MarkedCompleted(m, videoId, d, now), videoId))
  {
  }

  /** After "start over" deletes the record there is nothing to resume. */
  lemma NoResumeAfterStartOver(m: ProgressMap, videoId: string)
    ensures !OffersResume(GetProgress(Removed(m, videoId), videoId))
  {
  }

  /** The state hooks of one player, as a value. */
  datatype PlayerState = PlayerState(
    video: PlayerVideo, open: bool, isPlaying: bool, currentTime: int, duration: Option<int>,
    progress: Option<real>, showResumePrompt: bool, completionReports: seq<string>)

  class PlayerSession {
    const store: ProgressStore
    var video: PlayerVideo
    var open: bool
    var isPlaying: bool
    var currentTime: int
    var duration: Option<int>          // `parseDuration(video.duration)`; None is NaN
    var progress: Option<real>         // percent; None is not finite
    var showResumePrompt: bool
    var completionReports: seq<string> // the ids passed to `onVideoComplete`, in order

    /** Every field but the shared store. */
    function State(): PlayerState
      reads this
    {
      PlayerState(video, open, isPlaying, currentTime, duration, progress, showResumePrompt, completionReports)
    }

    /** A closed player over the shared progress store; the state hooks' initial values. */
    constructor(store: ProgressStore, video: PlayerVideo)
      ensures this.store == store
      ensures State() == PlayerState(video, false, false, 0, Some(0), Some(0.0), false, [])
    {
      this.store := store;
      this.video := video;
      open := false;
      isPlaying := false;
      currentTime := 0;
      duration := Some(0);
      progress := Some(0.0);
      showResumePrompt := false;
      completionReports := [];
    }

    /** The load effect when the dialog opens on `v`: with a saved record past 30 s that is
        not completed, offer to resume from it; otherwise start from zero. Nothing is loaded
        for an empty id. The store is only read. */
    method Open(v: PlayerVideo)
      modifies this
      ensures v.id == "" ==> State() == old(State()).(video := v, open := true)
      ensures v.id != "" ==>
                var d := ParseDuration(v.duration);
                var saved := GetProgress(store.records, v.id);
                var resume := OffersResume(saved);
                var t := if resume then saved.value.currentTime else 0;
                State() == old(State()).(video := v, open := true, duration := d,
                                         showResumePrompt := resume, currentTime := t,
                                         progress := if resume then PercentOf(t, d) else Some(0.0))
    {
      open := true;
      video := v;
      if v.id != "" {
        var videoDuration := ParseDuration(v.duration);
        duration := videoDuration;
        var saved := GetProgress(store.records, v.id);
        if OffersResume(saved) {
          showResumePrompt := true;
          currentTime := saved.value.currentTime;
          var p := PercentOf(saved.value.currentTime, videoDuration);
          progress := p;
        } else {
          currentTime := 0;
          progress := Some(0.0);
          showResumePrompt := false;
        }
      }
    }

    /** One second of simulated playback while playing in an open dialog: the time goes up
        by one, the progress follows, the store is written on multiples of five seconds and
        completion is recorded and reported once the progress reaches 90% of a video the
        parent does not yet count as completed. Otherwise nothing changes. */
    method Tick(isCompleted: bool, now: int)
      modifies this, store
      ensures !(old(isPlaying) && old(open)) ==>
                State() == old(State()) && store.records == old(store.records)
      ensures old(isPlaying) && old(open) ==>
                var t := old(currentTime) + 1;
                var vd := EffectiveDuration(old(duration));
                var p := TickProgress(t, vd);
                var afterSave := if t % 5 == 0
                                 then Saved(old(store.records), old(video).id, t, vd, now, false)
                                 else old(store.records);
                var completes := p >= 90.0 && !isCompleted;
                State() == old(State()).(currentTime := t, progress := Some(p),
                                         completionReports := old(completionReports)
                                                              + (if completes then [old(video).id] else []))
                && store.records == (if completes then MarkedCompleted(afterSave, old(video).id, vd, now)
                                     else afterSave)
    {
      if isPlaying && open {
        var newTime := currentTime + 1;
        var videoDuration := EffectiveDuration(duration);
        var newProgress := TickProgress(newTime, videoDuration);
        progress := Some(newProgress);
        if newTime % 5 == 0 {
          store.SaveProgress(video.id, newTime, videoDuration, now);
        }
        if newProgress >= 90.0 && !isCompleted {
          store.MarkCompleted(video.id, videoDuration, now);
          completionReports := completionReports + [video.id];
        }
        currentTime := newTime;
      }
    }

    /** `handlePlayPause`: only the playing flag flips. */
    method PlayPause()
      modifies this
      ensures State() == old(State()).(isPlaying := !old(isPlaying))
    {
      isPlaying := !isPlaying;
    }

    /** `handleResume`: the loaded position is kept; only the prompt goes away. */
    method Resume()
      modifies this
      ensures State() == old(State()).(showResumePrompt := false)
    {
      showResumePrompt := false;
    }

    /** `handleStartOver`: back to zero, and the stored record is deleted. */
    method StartOver()
      modifies this, store
      ensures State() == old(State()).(showResumePrompt := false, currentTime := 0, progress := Some(0.0))
      ensures store.records == Removed(old(store.records), video.id)
    {
      showResumePrompt := false;
      currentTime := 0;
      progress := Some(0.0);
      store.RemoveProgress(video.id);
    }

    /** `handleClose`: the position is saved only when both the time and the parsed duration
        are positive (NaN is not), then playback stops and the parent is told to close. */
    method Close(now: int)
      modifies this, store
      ensures State() == old(State()).(isPlaying := false, showResumePrompt := false, open := false)
      ensures currentTime > 0 && duration.Some? && duration.value > 0 ==>
                store.records == Saved(old(store.records), video.id, currentTime, duration.value, now, false)
      ensures !(currentTime > 0 && duration.Some? && duration.value > 0) ==>
                store.records == old(store.records)
    {
      if currentTime > 0 && duration.Some? && duration.value > 0 {
        store.SaveProgress(video.id, currentTime, duration.value, now);
      }
      isPlaying := false;
      showResumePrompt := false;
      open := false;
    }
  }

  /** A tick completes the video once the time reaches 90% of the effective length. */
  lemma TickCompletesAtNinetyPercent(newTime: int, videoDuration: int)
    requires videoDuration > 0
    ensures TickProgress(newTime, videoDuration) >= 90.0 <==> 10 * newTime >= 9 * videoDuration
  {
    var dr := videoDuration as real;
    var x := newTime as real / dr;
    assert x * dr == newTime as real;
    var gap := 10.0 * x - 9.0;
    assert gap * dr == 10.0 * newTime as real - 9.0 * dr;
    SignOfProduct(gap, dr);
  }
}
