/** `VideoProgressManager` of src/utils/videoProgress.ts: the per-video watch records kept
    under the storage key "learnflow_video_progress". The store is an in-memory map from
    video id to record; `Date.now()` is an explicit `now` parameter (milliseconds). Each
    update is specified by a function on maps, and the queries are functions on the map. */
module VideoProgress {
  import opened Wrappers
  import Text

  datatype Record = Record(
    videoId: string,
    currentTime: int,     // seconds
    duration: int,        // seconds
    lastWatched: int,     // milliseconds since the epoch
    completed: bool)

  type ProgressMap = map<string, Record>

  const StorageKey := "learnflow_video_progress"

  /** Thirty days in milliseconds. */
  const ThirtyDaysMs := 30 * 24 * 60 * 60 * 1000

  // ---------------------------------------------------------------------------------
  // Queries

  /** `getProgress`: the stored record, or null (None) when there is none. */
  function GetProgress(m: ProgressMap, videoId: string): (r: Option<Record>)
    ensures r.Some? <==> videoId in m
    ensures r.Some? ==> r.value == m[videoId]
  {
    if videoId in m then Some(m[videoId]) else None
  }

  /** `getCompletionPercentage`: 0 without a record or with duration 0, otherwise the watched
      share in percent, capped at 100. */
  function CompletionPercentage(m: ProgressMap, videoId: string): (r: real)
    ensures r <= 100.0
    ensures videoId !in m || m[videoId].duration == 0 ==> r == 0.0
    ensures videoId in m && m[videoId].duration > 0 && m[videoId].currentTime >= 0 ==> r >= 0.0
    ensures videoId in m && m[videoId].duration != 0 ==>
              (r == 100.0 <==> m[videoId].currentTime as real / m[videoId].duration as real >= 1.0)
    ensures videoId in m && m[videoId].duration != 0 && r < 100.0 ==>
              r * m[videoId].duration as real == 100.0 * m[videoId].currentTime as real
  {
    match GetProgress(m, videoId)
    case None => 0.0
    case Some(p) =>
      if p.duration == 0 then 0.0
      else
        var d := p.duration as real;
        var share := p.currentTime as real / d;
        assert share * d == p.currentTime as real;
        var pct := share * 100.0;
        assert pct * d == 100.0 * p.currentTime as real;
        if pct < 100.0 then pct else 100.0
  }

  /** `isVideoCompleted`: a record exists and is flagged completed or is at least 90% watched;
      for a positive duration the 90% test is `10 * t >= 9 * d`, and with duration 0 only the
      flag counts. */
  predicate IsVideoCompleted(m: ProgressMap, videoId: string)
    ensures videoId !in m ==> !IsVideoCompleted(m, videoId)
    ensures videoId in m && m[videoId].completed ==> IsVideoCompleted(m, videoId)
    ensures videoId in m && m[videoId].duration > 0 ==>
              (IsVideoCompleted(m, videoId) <==>
                 m[videoId].completed || 10 * m[videoId].currentTime >= 9 * m[videoId].duration)
    ensures videoId in m && m[videoId].duration == 0 ==>
              (IsVideoCompleted(m, videoId) <==> m[videoId].completed)
  {
    if videoId in m && m[videoId].duration > 0 then
      NinetyPercentIsCrossMultiplied(m, videoId);
      m[videoId].completed || CompletionPercentage(m, videoId) >= 90.0
    else
      videoId in m && (m[videoId].completed || CompletionPercentage(m, videoId) >= 90.0)
  }

  /** For a positive duration "at least 90%" is the integer test `10 * t >= 9 * d`. */
  lemma NinetyPercentIsCrossMultiplied(m: ProgressMap, videoId: string)
    requires videoId in m && m[videoId].duration > 0
    ensures CompletionPercentage(m, videoId) >= 90.0
            <==> 10 * m[videoId].currentTime >= 9 * m[videoId].duration
  {
    var t, d := m[videoId].currentTime, m[videoId].duration;
    var dr := d as real;
    var x := t as real / dr;
    assert x * dr == t as real;
    var gap := 10.0 * x - 9.0;
    assert gap * dr == 10.0 * t as real - 9.0 * dr;
    assert 10 * t >= 9 * d <==> gap * dr >= 0.0;
    Text.SignOfProduct(gap, dr);
    assert 10 * t >= 9 * d <==> gap >= 0.0;
  }

  /** `formatTime`: whole minutes, a colon and the seconds padded to two digits. */
  function FormatTime(seconds: nat): (r: string)
    ensures ':' in r
  {
    var s := Text.NatToString(seconds / 60) + ":" + Text.PadStart2(Text.NatToString(seconds % 60));
    assert s[|Text.NatToString(seconds / 60)|] == ':';
    s
  }

  /** 65 seconds read "1:05". */
  lemma FormatTimeExample()
    ensures FormatTime(65) == "1:05"
  {
    assert Text.NatToString(1) == "1";
    assert Text.NatToString(5) == "5";
  }

  // ---------------------------------------------------------------------------------
  // Updates, as functions of the old map

  /** The map after `saveProgress(videoId, currentTime, duration, completed)` at `now`. */
  function Saved(m: ProgressMap, videoId: string, currentTime: int, duration: int, now: int, completed: bool): (r: ProgressMap)
    ensures videoId in r && r[videoId] == Record(videoId, currentTime, duration, now, completed)
    ensures forall k :: k != videoId ==> (k in r <==> k in m) && (k in m ==> r[k] == m[k])
  {
    m[videoId := Record(videoId, currentTime, duration, now, completed)]
  }

  /** The map after `markCompleted(videoId, duration)` at `now`: watched to the end. */
  function MarkedCompleted(m: ProgressMap, videoId: string, duration: int, now: int): (r: ProgressMap)
    ensures videoId in r && r[videoId] == Record(videoId, duration, duration, now, true)
    ensures forall k :: k != videoId ==> (k in r <==> k in m) && (k in m ==> r[k] == m[k])
    ensures IsVideoCompleted(r, videoId)
  {
    m[videoId := Record(videoId, duration, duration, now, true)]
  }

  /** The map after `removeProgress(videoId)`. */
  function Removed(m: ProgressMap, videoId: string): (r: ProgressMap)
    ensures videoId !in r
    ensures forall k :: k != videoId ==> (k in r <==> k in m) && (k in m ==> r[k] == m[k])
    ensures videoId !in m ==> r == m
  {
    m - {videoId}
  }

  /** Whether a record survives the sweep at `now`: watched within the last thirty days. */
  predicate Recent(rec: Record, now: int) {
    rec.lastWatched >= now - ThirtyDaysMs
  }

  /** The map after `cleanupOldProgress` at `now`: exactly the records watched in the last
      thirty days, unchanged. */
  function Swept(m: ProgressMap, now: int): (r: ProgressMap)
    ensures forall k :: k in r <==> k in m && Recent(m[k], now)
    ensures forall k :: k in r ==> r[k] == m[k]
  {
    map k | k in m && Recent(m[k], now) :: m[k]
  }

  /** Sweeping twice at the same time removes nothing more. */
  lemma SweptIdempotent(m: ProgressMap, now: int)
    ensures Swept(Swept(m, now), now) == Swept(m, now)
  {
  }

  /** A later sweep keeps no record an earlier one dropped. */
  lemma SweptLaterKeepsLess(m: ProgressMap, now1: int, now2: int)
    requires now1 <= now2
    ensures Swept(m, now2).Keys <= Swept(m, now1).Keys
    ensures Swept(Swept(m, now1), now2) == Swept(m, now2)
  {
  }

  /** Completion is not sticky: a plain save after `markCompleted` clears the flag, and the
      record then counts as completed only when its time reaches 90% of its duration. */
  lemma SaveAfterCompletedClearsFlag(m: ProgressMap, videoId: string, d: int, t: int, now1: int, now2: int)
    ensures var after := Saved(MarkedCompleted(m, videoId, d, now1), videoId, t, d, now2, false);
            !after[videoId].completed
            && (d > 0 ==> (IsVideoCompleted(after, videoId) <==> 10 * t >= 9 * d))
  {
    var after := Saved(MarkedCompleted(m, videoId, d, now1), videoId, t, d, now2, false);
    if d > 0 {
      NinetyPercentIsCrossMultiplied(after, videoId);
    }
  }

  // ---------------------------------------------------------------------------------
  // The store

  class ProgressStore {
    var records: ProgressMap

    constructor()
      ensures records == map[]
    {
      records := map[];
    }

    /** `saveProgress`; `completed` defaults to false, so a save always rewrites the flag. */
    method SaveProgress(videoId: string, currentTime: int, duration: int, now: int, completed: bool := false)
      modifies this
      ensures records == Saved(old(records), videoId, currentTime, duration, now, completed)
    {
      records := records[videoId := Record(videoId, currentTime, duration, now, completed)];
    }

    /** `markCompleted`. */
    method MarkCompleted(videoId: string, duration: int, now: int)
      modifies this
      ensures records == MarkedCompleted(old(records), videoId, duration, now)
    {
      records := records[videoId := Record(videoId, duration, duration, now, true)];
    }

    /** `removeProgress`. */
    method RemoveProgress(videoId: string)
      modifies this
      ensures records == Removed(old(records), videoId)
    {
      records := records - {videoId};
    }

    /** `cleanupOldProgress`: visits every key once and deletes the stale ones. */
    method CleanupOldProgress(now: int)
      modifies this
      ensures records == Swept(old(records), now)
    {
      var thirtyDaysAgo := now - ThirtyDaysMs;
      var pending := records.Keys;
      ghost var original := records;
      while pending != {}
        invariant pending <= original.Keys
        invariant records == map k | k in original && (k in pending || Recent(original[k], now)) :: original[k]
        decreases |pending|
      {
        var videoId :| videoId in pending;
        if records[videoId].lastWatched < thirtyDaysAgo {
          records := records - {videoId};
        }
        pending := pending - {videoId};
      }
    }
  }
}
