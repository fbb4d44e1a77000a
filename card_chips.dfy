/** What the two catalogue cards (src/components/LearningPath/LearningPathCard.tsx and
    src/components/Resources/ResourceCard.tsx) share: the colour of the difficulty chip, and
    the rule that a card shows its first three skill or tag chips followed by a "+k" chip
    counting the rest. */
module CardChips {
  import opened Wrappers
  import opened Seqs
  import opened Text

  /** How many chips a card shows before the overflow chip. */
  const ChipLimit: nat := 3

  /** The difficulty levels with a colour of their own. */
  const KnownDifficulties: seq<string> := ["beginner", "intermediate", "advanced"]

  /** `getDifficultyColor`: the chip colour of a difficulty level; "default" for any other. */
  function DifficultyChipColor(difficulty: string): (r: string)
    ensures r == "default" <==> difficulty !in KnownDifficulties
    ensures difficulty == "beginner" ==> r == "success"
    ensures difficulty == "intermediate" ==> r == "warning"
    ensures difficulty == "advanced" ==> r == "error"
  {
    if difficulty == "beginner" then "success"
    else if difficulty == "intermediate" then "warning"
    else if difficulty == "advanced" then "error"
    else "default"
  }

  /** `items.slice(0, 3)`: the chips shown, which are the first ones in their order. */
  function ShownChips<T>(items: seq<T>): (r: seq<T>)
    ensures |r| <= ChipLimit && r <= items
    ensures |items| <= ChipLimit ==> r == items
    ensures |items| > ChipLimit ==> |r| == ChipLimit
  {
    Take(items, ChipLimit)
  }

  /** The number the overflow chip shows: `items.length - 3`, or no chip at three or fewer. */
  function HiddenCount<T>(items: seq<T>): (r: Option<nat>)
    ensures r.Some? <==> |items| > ChipLimit
    ensures r.Some? ==> r.value > 0
  {
    if |items| > ChipLimit then Some(|items| - ChipLimit) else None
  }

  /** Every item is on a chip or counted by the overflow chip, and none on both: the shown
      chips and the number on the overflow chip add up to the item count. */
  lemma ChipsAccountForAll<T>(items: seq<T>)
    ensures |ShownChips(items)| + (if HiddenCount(items).Some? then HiddenCount(items).value else 0) == |items|
    ensures HiddenCount(items).Some? ==> ShownChips(items) + items[ChipLimit..] == items
  {
  }

  /** The text of the overflow chip: "+k" followed by `suffix` (" more" on the path card,
      nothing on the resource card). */
  function OverflowLabel<T>(items: seq<T>, suffix: string): (r: Option<string>)
    ensures r.Some? <==> HiddenCount(items).Some?
    ensures r.Some? ==> |r.value| > |suffix| + 1 && r.value[0] == '+' && r.value[|r.value| - |suffix|..] == suffix
  {
    match HiddenCount(items)
    case None => None
    case Some(k) => Some("+" + NatToString(k) + suffix)
  }

  /** Between the "+" and the suffix the chip reads back as the count of hidden items. */
  lemma OverflowLabelReadsBack<T>(items: seq<T>, suffix: string)
    requires |items| > ChipLimit
    ensures var chip := OverflowLabel(items, suffix).value;
            ParseInt(chip[1..|chip| - |suffix|]) == Some(|items| - ChipLimit)
  {
    var k := |items| - ChipLimit;
    var chip := OverflowLabel(items, suffix).value;
    assert chip[1..|chip| - |suffix|] == NatToString(k);
    ParseIntNatToString(k);
  }
}
