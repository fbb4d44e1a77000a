/** The resource card of src/components/Resources/ResourceCard.tsx: an icon and a colour per
    resource type, the difficulty chip, the duration label, the first tags, an open button
    and a bookmark switch. The two optional callbacks are recorded as the list of calls the
    card makes; a callback the parent does not pass is never called. */
module ResourceCard {
  import opened Wrappers
  import opened Text
  import opened LearnTypes
  import opened CardChips

  /** A call the card makes to its parent, with the resource id. */
  datatype CardCall = BookmarkCall(resourceId: string) | OpenCall(resourceId: string)

  /** The resource types with an icon and a colour of their own. */
  const KnownKinds: seq<string> := ["youtube", "mdn", "article", "documentation", "github"]

  const DefaultKindIcon: string := "\U{1F517}"
  const DefaultKindColor: string := "#757575"

  /** `getTypeIcon`: one icon per known type, and the link icon for the rest. */
  function KindIcon(kind: string): (r: string)
    ensures r == DefaultKindIcon <==> kind !in KnownKinds
    ensures kind == "youtube" ==> r == "\U{1F4FA}"
    ensures kind == "mdn" ==> r == "\U{1F4D6}"
    ensures kind == "article" ==> r == "\U{1F4C4}"
    ensures kind == "documentation" ==> r == "\U{1F4DA}"
    ensures kind == "github" ==> r == "\U{1F4BB}"
  {
    if kind == "youtube" then "\U{1F4FA}"
    else if kind == "mdn" then "\U{1F4D6}"
    else if kind == "article" then "\U{1F4C4}"
    else if kind == "documentation" then "\U{1F4DA}"
    else if kind == "github" then "\U{1F4BB}"
    else DefaultKindIcon
  }

  /** `getTypeColor`: one colour per known type (MDN and GitHub share black), and grey for
      the rest. */
  function KindColor(kind: string): (r: string)
    ensures r == DefaultKindColor <==> kind !in KnownKinds
    ensures kind == "youtube" ==> r == "#FF0000"
    ensures kind == "mdn" ==> r == "#000000"
    ensures kind == "article" ==> r == "#1976d2"
    ensures kind == "documentation" ==> r == "#4caf50"
    ensures kind == "github" ==> r == "#000000"
  {
    if kind == "youtube" then "#FF0000"
    else if kind == "mdn" then "#000000"
    else if kind == "article" then "#1976d2"
    else if kind == "documentation" then "#4caf50"
    else if kind == "github" then "#000000"
    else DefaultKindColor
  }

  /** The icon tells the known types apart; the colour does not, for MDN and GitHub. */
  lemma KindIconsDistinct(a: string, b: string)
    requires a in KnownKinds && b in KnownKinds && a != b
    ensures KindIcon(a) != KindIcon(b)
    ensures KindColor("mdn") == KindColor("github")
  {
  }

  /** `${n}` for an integer: a minus sign before the digits of a negative number. */
  function IntToString(n: int): (r: string)
    ensures |r| >= 1
    ensures (r[0] == '-') <==> n < 0
  {
    if n < 0 then "-" + NatToString(-n) else NatToString(n)
  }

  /** `formatDuration`: no label for a missing or zero duration; "Hh Rm" from an hour on,
      where Math.floor is Dafny's division by the positive 60; "Mm" below an hour (including
      a negative count, which JavaScript prints with its sign). */
  function FormatDuration(minutes: Option<int>): (r: Option<string>)
    ensures r.None? <==> minutes.None? || minutes.value == 0
    ensures r.Some? ==> |r.value| >= 2 && r.value[|r.value| - 1] == 'm'
  {
    if minutes.None? || minutes.value == 0 then None
    else
      var m := minutes.value;
      var hours := m / 60;
      if hours > 0 then Some(NatToString(hours) + "h " + NatToString(m % 60) + "m")
      else Some(IntToString(m) + "m")
  }

  /** From an hour on, the label shows the whole hours and the minutes left over: for any
      m = 60·h + rem with h > 0 and rem < 60 the label is "hh remm". */
  lemma FormatDurationHours(m: int, h: nat, rem: nat)
    requires h > 0 && rem < 60 && m == 60 * h + rem
    ensures FormatDuration(Some(m)) == Some(NatToString(h) + "h " + NatToString(rem) + "m")
  {
    assert m / 60 == h && m % 60 == rem;
  }

  /** Below an hour, and for a negative count, the label is the count followed by "m". */
  lemma FormatDurationMinutes(m: int)
    requires m != 0 && m < 60
    ensures FormatDuration(Some(m)) == Some(IntToString(m) + "m")
    ensures 0 < m ==> FormatDuration(Some(m)) == Some(NatToString(m) + "m")
  {
    assert m / 60 <= 0;
  }

  /** The hour label reads back: the digits before "h " and before the final "m" parse to
      the quotient and the remainder of the count by 60. */
  lemma FormatDurationReadsBack(m: int)
    requires m >= 60
    ensures var s := FormatDuration(Some(m)).value;
            var hs := NatToString(m / 60);
            && ParseInt(s[..|hs|]) == Some(m / 60)
            && ParseInt(s[|hs| + 2..|s| - 1]) == Some(m % 60)
            && 60 * (m / 60) + m % 60 == m
  {
    var h, rem := m / 60, m % 60;
    FormatDurationHours(m, h, rem);
    HourLabelPieces(NatToString(h), NatToString(rem));
    ParseIntNatToString(h);
    ParseIntNatToString(rem);
  }

  lemma HourLabelPieces(hs: string, rs: string)
    ensures var s := hs + "h " + rs + "m";
            s[..|hs|] == hs && s[|hs| + 2..|s| - 1] == rs
  {
  }

  /** The labels of a few durations. */
  lemma FormatDurationExamples()
    ensures FormatDuration(Some(90)) == Some("1h 30m")
    ensures FormatDuration(Some(60)) == Some("1h 0m")
    ensures FormatDuration(Some(45)) == Some("45m")
    ensures FormatDuration(Some(125)) == Some("2h 5m")
    ensures FormatDuration(Some(0)) == None && FormatDuration(None) == None
  {
    assert NatToString(1) == "1" && NatToString(2) == "2";
    assert NatToString(0) == "0" && NatToString(5) == "5";
    assert NatToString(30) == "30" && NatToString(45) == "45";
    FormatDurationHours(90, 1, 30);
    assert "1" + "h " + "30" + "m" == "1h 30m";
    FormatDurationHours(60, 1, 0);
    assert "1" + "h " + "0" + "m" == "1h 0m";
    FormatDurationMinutes(45);
    assert "45" + "m" == "45m";
    FormatDurationHours(125, 2, 5);
    assert "2" + "h " + "5" + "m" == "2h 5m";
  }

  /** The tag chips: the first three tags, then "+k" for the rest. */
  function TagChips(r: Resource): (c: (seq<string>, Option<string>))
    ensures c.0 <= r.tags && |c.0| <= ChipLimit
    ensures c.1.Some? <==> |r.tags| > ChipLimit
  {
    (ShownChips(r.tags), OverflowLabel(r.tags, ""))
  }

  /** The card's state, as one value. */
  datatype CardState = CardState(isBookmarked: bool, calls: seq<CardCall>)

  class Card {
    const resource: Resource
    const hasOnBookmark: bool
    const hasOnOpen: bool
    var isBookmarked: bool
    var calls: seq<CardCall>

    function State(): CardState
      reads this
    {
      CardState(isBookmarked, calls)
    }

    /** The call, when its callback was passed; nothing otherwise. */
    function Delivered(c: CardCall): seq<CardCall> {
      if (c.BookmarkCall? && hasOnBookmark) || (c.OpenCall? && hasOnOpen) then [c] else []
    }

    /** The initial state: not bookmarked, no calls made. */
    constructor(resource: Resource, hasOnBookmark: bool, hasOnOpen: bool)
      ensures this.resource == resource
      ensures this.hasOnBookmark == hasOnBookmark && this.hasOnOpen == hasOnOpen
      ensures State() == CardState(false, [])
    {
      this.resource := resource;
      this.hasOnBookmark := hasOnBookmark;
      this.hasOnOpen := hasOnOpen;
      isBookmarked := false;
      calls := [];
    }

    /** `handleBookmark`: flip the flag and report the resource id, whichever way it flipped. */
    method Bookmark()
      modifies this
      ensures State() == CardState(!old(isBookmarked), old(calls) + Delivered(BookmarkCall(resource.id)))
    {
      isBookmarked := !isBookmarked;
      if hasOnBookmark {
        calls := calls + [BookmarkCall(resource.id)];
      }
    }

    /** `handleOpen`: report the resource id; the new browser tab is not modelled. */
    method Open()
      modifies this
      ensures State() == old(State()).(calls := old(calls) + Delivered(OpenCall(resource.id)))
    {
      if hasOnOpen {
        calls := calls + [OpenCall(resource.id)];
      }
    }
  }

  /** Two presses of the bookmark button restore the flag. */
  method BookmarkTwice(card: Card)
    modifies card
    ensures card.isBookmarked == old(card.isBookmarked)
    ensures card.calls == old(card.calls) + card.Delivered(BookmarkCall(card.resource.id)) + card.Delivered(BookmarkCall(card.resource.id))
  {
    card.Bookmark();
    card.Bookmark();
  }
}
