/** The catalogue card of src/components/LearningPath/LearningPathCard.tsx: the category icon,
    the difficulty chip, the first skills, the action button whose label and callback follow
    the learner's enrolment, and a bookmark switch. The three optional callbacks are recorded
    as the list of calls the card makes; a callback the parent does not pass is never called. */
module LearningPathCard {
  import opened Wrappers
  import opened LearnTypes
  import opened CardChips

  /** A call the card makes to its parent, with the path id. */
  datatype CardCall = EnrollCall(pathId: string) | ContinueCall(pathId: string) | BookmarkCall(pathId: string)

  /** `getActionText`: "Continue" once the learner has made progress, "Start" when enrolled
      without progress, "Enroll" otherwise. */
  function ActionText(p: LearningPath): (r: string)
    ensures r == "Continue" <==> p.enrolled && p.progress > 0
    ensures r == "Start" <==> p.enrolled && !(p.progress > 0)
    ensures r == "Enroll" <==> !p.enrolled
  {
    if p.enrolled && p.progress > 0 then "Continue"
    else if p.enrolled then "Start"
    else "Enroll"
  }

  /** `handleAction`: the call the button makes. Both enrolled branches continue. */
  function ActionCall(p: LearningPath): (r: CardCall)
    ensures r.pathId == p.id
    ensures r.ContinueCall? <==> p.enrolled
    ensures r.EnrollCall? <==> !p.enrolled
  {
    if p.enrolled && p.progress > 0 then ContinueCall(p.id)
    else if p.enrolled then ContinueCall(p.id)
    else EnrollCall(p.id)
  }

  /** The label tells what the button does: "Enroll" exactly when it enrols, and "Start" and
      "Continue" both continue the path. */
  lemma ActionMatchesText(p: LearningPath)
    ensures ActionCall(p).EnrollCall? <==> ActionText(p) == "Enroll"
    ensures ActionCall(p).ContinueCall? <==> ActionText(p) in ["Start", "Continue"]
  {
  }

  /** The categories with an icon of their own. */
  const KnownCategories: seq<string> := ["frontend", "backend", "fullstack", "mobile", "data-science", "devops"]

  /** The icon of any other category. */
  const DefaultCategoryIcon: string := "\U{1F4DA}"

  /** `getCategoryIcon`: one icon per known category, and the books icon for the rest. */
  function CategoryIcon(category: string): (r: string)
    ensures r == DefaultCategoryIcon <==> category !in KnownCategories
    ensures category == "frontend" ==> r == "\U{1F3A8}"
    ensures category == "backend" ==> r == "\U{2699}\U{FE0F}"
    ensures category == "fullstack" ==> r == "\U{1F680}"
    ensures category == "mobile" ==> r == "\U{1F4F1}"
    ensures category == "data-science" ==> r == "\U{1F4CA}"
    ensures category == "devops" ==> r == "\U{1F527}"
  {
    if category == "frontend" then "\U{1F3A8}"
    else if category == "backend" then "\U{2699}\U{FE0F}"
    else if category == "fullstack" then "\U{1F680}"
    else if category == "mobile" then "\U{1F4F1}"
    else if category == "data-science" then "\U{1F4CA}"
    else if category == "devops" then "\U{1F527}"
    else DefaultCategoryIcon
  }

  /** Different known categories get different icons. */
  lemma CategoryIconsDistinct(a: string, b: string)
    requires a in KnownCategories && b in KnownCategories && a != b
    ensures CategoryIcon(a) != CategoryIcon(b)
  {
  }

  /** The skill chips: the first three skills, then "+k more" for the rest. */
  function SkillChips(p: LearningPath): (r: (seq<string>, Option<string>))
    ensures r.0 <= p.skills && |r.0| <= ChipLimit
    ensures r.1.Some? <==> |p.skills| > ChipLimit
  {
    (ShownChips(p.skills), OverflowLabel(p.skills, " more"))
  }

  /** The card's state, as one value. */
  datatype CardState = CardState(isBookmarked: bool, calls: seq<CardCall>)

  class Card {
    const path: LearningPath
    const hasOnEnroll: bool
    const hasOnContinue: bool
    const hasOnBookmark: bool
    var isBookmarked: bool
    var calls: seq<CardCall>

    function State(): CardState
      reads this
    {
      CardState(isBookmarked, calls)
    }

    /** Whether the parent passed the callback that receives the call. */
    predicate Handles(c: CardCall) {
      match c
      case EnrollCall(_) => hasOnEnroll
      case ContinueCall(_) => hasOnContinue
      case BookmarkCall(_) => hasOnBookmark
    }

    /** The call, when its callback was passed; nothing otherwise. */
    function Delivered(c: CardCall): seq<CardCall> {
      if Handles(c) then [c] else []
    }

    /** The initial state: not bookmarked, no calls made. */
    constructor(path: LearningPath, hasOnEnroll: bool, hasOnContinue: bool, hasOnBookmark: bool)
      ensures this.path == path
      ensures this.hasOnEnroll == hasOnEnroll && this.hasOnContinue == hasOnContinue
      ensures this.hasOnBookmark == hasOnBookmark
      ensures State() == CardState(false, [])
    {
      this.path := path;
      this.hasOnEnroll := hasOnEnroll;
      this.hasOnContinue := hasOnContinue;
      this.hasOnBookmark := hasOnBookmark;
      isBookmarked := false;
      calls := [];
    }

    /** `handleBookmark`: flip the flag and report the path id, whichever way it flipped. */
    method Bookmark()
      modifies this
      ensures State() == CardState(!old(isBookmarked), old(calls) + Delivered(BookmarkCall(path.id)))
    {
      isBookmarked := !isBookmarked;
      if hasOnBookmark {
        calls := calls + [BookmarkCall(path.id)];
      }
    }

    /** `handleAction`: continue an enrolled path, enrol in any other. */
    method Action()
      modifies this
      ensures State() == old(State()).(calls := old(calls) + Delivered(ActionCall(path)))
    {
      if path.enrolled && path.progress > 0 {
        if hasOnContinue {
          calls := calls + [ContinueCall(path.id)];
        }
      } else if path.enrolled {
        if hasOnContinue {
          calls := calls + [ContinueCall(path.id)];
        }
      } else {
        if hasOnEnroll {
          calls := calls + [EnrollCall(path.id)];
        }
      }
    }
  }

  /** Two presses of the bookmark button restore the flag and report the path twice. */
  method BookmarkTwice(card: Card)
    modifies card
    ensures card.isBookmarked == old(card.isBookmarked)
    ensures card.calls == old(card.calls) + card.Delivered(BookmarkCall(card.path.id)) + card.Delivered(BookmarkCall(card.path.id))
  {
    card.Bookmark();
    card.Bookmark();
  }
}
