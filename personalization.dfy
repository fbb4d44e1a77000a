/** The preference wizard of src/components/Personalization/PersonalizationEngine.tsx: five
    steps edit the learner's preferences, and saving shows the paths that match them. The
    learner's initial preferences and the path list come from the sample data and are
    parameters here; the optional `onPreferencesChange` callback is recorded as the list of
    preference values handed to it. */
module Personalization {
  import opened Seqs
  import opened Text
  import opened LearnTypes

  /** The wizard's step titles. */
  const Steps: seq<string> := ["Learning Topics", "Learning Style", "Difficulty Level",
                               "Time Availability", "Preferences"]

  const LastStep: int := |Steps| - 1

  // ---------------------------------------------------------------------------------
  // Recommendations

  /** The topic occurs, ignoring case, in some tag or some skill of the path. */
  predicate TopicHits(p: LearningPath, topic: string) {
    AnyIncludesIgnoreCase(p.tags, topic) || AnyIncludesIgnoreCase(p.skills, topic)
  }

  /** The recommendation test: the level the learner asked for and at least one preferred
      topic found in the path's tags or skills. */
  predicate Recommends(prefs: UserPreferences, p: LearningPath) {
    p.difficulty == prefs.difficultyLevel
    && exists i :: 0 <= i < |prefs.preferredTopics| && TopicHits(p, prefs.preferredTopics[i])
  }

  function RecommendsFor(prefs: UserPreferences): LearningPath -> bool {
    (p: LearningPath) => Recommends(prefs, p)
  }

  /** `getRecommendedPaths`: the paths passing the test, in catalogue order. */
  function RecommendedPaths(paths: seq<LearningPath>, prefs: UserPreferences): (r: seq<LearningPath>)
    ensures IsSubsequence(r, paths)
    ensures forall p :: p in r <==> p in paths && Recommends(prefs, p)
  {
    Filter(paths, RecommendsFor(prefs))
  }

  /** With no preferred topic nothing is recommended. */
  lemma NoTopicsNoRecommendations(paths: seq<LearningPath>, prefs: UserPreferences)
    requires prefs.preferredTopics == []
    ensures RecommendedPaths(paths, prefs) == []
  {
    FilterNone(paths, RecommendsFor(prefs));
  }

  /** Adding a topic only adds recommendations. */
  lemma MoreTopicsMoreRecommendations(paths: seq<LearningPath>, prefs: UserPreferences, topic: string)
    ensures var wider := prefs.(preferredTopics := prefs.preferredTopics + [topic]);
            forall p :: p in RecommendedPaths(paths, prefs) ==> p in RecommendedPaths(paths, wider)
  {
    var wider := prefs.(preferredTopics := prefs.preferredTopics + [topic]);
    forall p | p in RecommendedPaths(paths, prefs)
      ensures p in RecommendedPaths(paths, wider)
    {
      var i :| 0 <= i < |prefs.preferredTopics| && TopicHits(p, prefs.preferredTopics[i]);
      assert wider.preferredTopics[i] == prefs.preferredTopics[i];
    }
  }

  /** Whether a path is recommended does not depend on the learning style, the weekly time
      or the two switches. */
  lemma OnlyLevelAndTopicsMatter(paths: seq<LearningPath>, prefs: UserPreferences, other: UserPreferences)
    requires other.preferredTopics == prefs.preferredTopics && other.difficultyLevel == prefs.difficultyLevel
    ensures RecommendedPaths(paths, other) == RecommendedPaths(paths, prefs)
  {
    FilterSame(paths, RecommendsFor(other), RecommendsFor(prefs));
  }

  // ---------------------------------------------------------------------------------
  // Steps

  /** The "Previous" button: one step back, never below the first. */
  function PreviousStep(s: int): (r: int)
    ensures 0 <= s <= LastStep ==> 0 <= r <= LastStep
  {
    if 0 > s - 1 then 0 else s - 1
  }

  /** The "Next" button: one step on, never past the last. */
  function NextStep(s: int): (r: int)
    ensures 0 <= s <= LastStep ==> 0 <= r <= LastStep
  {
    if LastStep < s + 1 then LastStep else s + 1
  }

  /** Inside the wizard the two buttons undo each other, except at the ends, where the
      button stays put. */
  lemma StepsRoundTrip(s: int)
    requires 0 <= s <= LastStep
    ensures s > 0 ==> NextStep(PreviousStep(s)) == s
    ensures s < LastStep ==> PreviousStep(NextStep(s)) == s
    ensures PreviousStep(0) == 0 && NextStep(LastStep) == LastStep
  {
  }

  /** The progress bar's label, `Math.round((s + 1) / steps.length * 100)`: each of the five
      steps adds exactly a fifth, so the rounding never moves the value. */
  function StepPercent(s: int): (r: int)
    ensures r == 20 * (s + 1)
  {
    RoundHalfUpUnique((s + 1) as real / 5.0 * 100.0, 20 * (s + 1));
    RoundHalfUp((s + 1) as real / |Steps| as real * 100.0)
  }

  /** The label runs from 20 on the first step to 100 on the last, and "Next" adds 20
      everywhere but on the last step. */
  lemma StepPercentRange(s: int)
    requires 0 <= s <= LastStep
    ensures 20 <= StepPercent(s) <= 100
    ensures StepPercent(0) == 20 && StepPercent(LastStep) == 100
    ensures s < LastStep ==> StepPercent(NextStep(s)) == StepPercent(s) + 20
    ensures s == LastStep ==> StepPercent(NextStep(s)) == StepPercent(s)
  {
  }

  // ---------------------------------------------------------------------------------
  // The wizard

  /** The wizard's state, as one value. */
  datatype EngineState = EngineState(
    preferences: UserPreferences,
    currentStep: int,
    showRecommendations: bool,
    reported: seq<UserPreferences>)   // the values passed to `onPreferencesChange`

  class Engine {
    const hasCallback: bool
    var preferences: UserPreferences
    var currentStep: int
    var showRecommendations: bool
    var reported: seq<UserPreferences>

    function State(): EngineState
      reads this
    {
      EngineState(preferences, currentStep, showRecommendations, reported)
    }

    /** The step is one of the five. */
    predicate Valid()
      reads this
    {
      0 <= currentStep <= LastStep
    }

    /** The initial state: the learner's stored preferences, at the first step. */
    constructor(initial: UserPreferences, hasCallback: bool)
      ensures this.hasCallback == hasCallback
      ensures State() == EngineState(initial, 0, false, [])
      ensures Valid()
    {
      this.hasCallback := hasCallback;
      preferences := initial;
      currentStep := 0;
      showRecommendations := false;
      reported := [];
    }

    /** `handleTopicToggle`: drop the topic if chosen, else append it; nothing else changes. */
    method TopicToggle(topic: string)
      modifies this
      ensures State() == old(State()).(preferences := old(preferences).(preferredTopics := Toggle(old(preferences.preferredTopics), topic)))
      ensures topic in preferences.preferredTopics <==> topic !in old(preferences.preferredTopics)
    {
      var topics := preferences.preferredTopics;
      var newTopics := if topic in topics then Without(topics, topic) else topics + [topic];
      preferences := preferences.(preferredTopics := newTopics);
    }

    /** `handleStyleChange`. */
    method StyleChange(style: string)
      modifies this
      ensures State() == old(State()).(preferences := old(preferences).(learningStyle := style))
    {
      preferences := preferences.(learningStyle := style);
    }

    /** `handleDifficultyChange`. */
    method DifficultyChange(difficulty: string)
      modifies this
      ensures State() == old(State()).(preferences := old(preferences).(difficultyLevel := difficulty))
    {
      preferences := preferences.(difficultyLevel := difficulty);
    }

    /** `handleTimeChange`: the slider's value. */
    method TimeChange(value: int)
      modifies this
      ensures State() == old(State()).(preferences := old(preferences).(timeAvailability := value))
    {
      preferences := preferences.(timeAvailability := value);
    }

    /** The notification switch. */
    method NotificationsChange(checked: bool)
      modifies this
      ensures State() == old(State()).(preferences := old(preferences).(notifications := checked))
    {
      preferences := preferences.(notifications := checked);
    }

    /** The dark-mode switch. */
    method DarkModeChange(checked: bool)
      modifies this
      ensures State() == old(State()).(preferences := old(preferences).(darkMode := checked))
    {
      preferences := preferences.(darkMode := checked);
    }

    /** The "Previous" button. */
    method Previous()
      modifies this
      ensures State() == old(State()).(currentStep := PreviousStep(old(currentStep)))
      ensures old(Valid()) ==> Valid()
    {
      currentStep := if 0 > currentStep - 1 then 0 else currentStep - 1;
    }

    /** The "Next" button. */
    method Next()
      modifies this
      ensures State() == old(State()).(currentStep := NextStep(old(currentStep)))
      ensures old(Valid()) ==> Valid()
    {
      currentStep := if LastStep < currentStep + 1 then LastStep else currentStep + 1;
    }

    /** `handleSavePreferences`: hand the preferences to the callback, when there is one,
        and show the recommendations. */
    method SavePreferences()
      modifies this
      ensures State() == old(State()).(showRecommendations := true,
                                       reported := old(reported) + (if hasCallback then [old(preferences)] else []))
    {
      if hasCallback {
        reported := reported + [preferences];
      }
      showRecommendations := true;
    }

    /** The "Update Preferences" button on the recommendations screen. */
    method BackToPreferences()
      modifies this
      ensures State() == old(State()).(showRecommendations := false)
    {
      showRecommendations := false;
    }
  }
}
