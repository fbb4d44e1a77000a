/** The test-taking session of src/components/Assessment/AssessmentComponent.tsx: the answer
    sheet (one slot per question, -1 for unanswered), the question shown, the countdown in
    seconds, and the start, completion and result of the attempt. The one-second interval is
    the method `Tick`; the time stamp of `new Date()` is a parameter; the attempts passed to
    `onTestComplete` are recorded in `reports`. */
module AssessmentSession {
  import opened Wrappers
  import opened Seqs
  import opened AssessmentTests

  const Unanswered := -1

  /** The answer sheet of a fresh attempt: every slot unanswered. */
  function BlankAnswers(n: nat): (r: seq<int>)
    ensures |r| == n && forall i :: 0 <= i < n ==> r[i] == Unanswered
  {
    seq(n, _ => Unanswered)
  }

  // ---------------------------------------------------------------------------------
  // Derived values

  /** `allQuestionsAnswered`: no slot is -1. */
  predicate AllAnswered(answers: seq<int>) {
    forall i :: 0 <= i < |answers| ==> answers[i] != Unanswered
  }

  /** The number of answered slots. */
  function AnsweredCount(answers: seq<int>): (c: nat)
    ensures c <= |answers|
    ensures c == |answers| <==> AllAnswered(answers)
    ensures c == 0 <==> forall i :: 0 <= i < |answers| ==> answers[i] == Unanswered
  {
    FilterCount(answers, Answered());
    AnsweredByMembership(answers);
    |Filter(answers, Answered())|
  }

  /** The two slot conditions, read by position and by membership. */
  lemma AnsweredByMembership(answers: seq<int>)
    ensures AllAnswered(answers) <==> forall a :: a in answers ==> Answered()(a)
    ensures (forall i :: 0 <= i < |answers| ==> answers[i] == Unanswered) <==>
            forall a :: a in answers ==> !Answered()(a)
  {
    if forall a :: a in answers ==> !Answered()(a) {
      forall i | 0 <= i < |answers| ensures answers[i] == Unanswered {
        assert answers[i] in answers;
      }
    }
    if forall a :: a in answers ==> Answered()(a) {
      forall i | 0 <= i < |answers| ensures answers[i] != Unanswered {
        assert answers[i] in answers;
      }
    }
  }

  function Answered(): int -> bool {
    (a: int) => a != Unanswered
  }

  /** `getProgressPercentage`: the answered share of the questions, in percent. */
  function ProgressPercentage(answers: seq<int>, questionCount: nat): (r: real)
    requires questionCount > 0 && |answers| == questionCount
    ensures 0.0 <= r <= 100.0
    ensures r == 100.0 <==> AllAnswered(answers)
    ensures r == 0.0 <==> forall i :: 0 <= i < |answers| ==> answers[i] == Unanswered
  {
    var c := AnsweredCount(answers);
    var p := c as real / questionCount as real * 100.0;
    PercentBounds(c, questionCount, p);
    p
  }

  /** Scaled back by the question count the percentage is 100 times the answered count. */
  lemma ProgressPercentageScales(answers: seq<int>, questionCount: nat)
    requires questionCount > 0 && |answers| == questionCount
    ensures ProgressPercentage(answers, questionCount) * questionCount as real == 100.0 * AnsweredCount(answers) as real
  {
    var c := AnsweredCount(answers);
    PercentBounds(c, questionCount, ProgressPercentage(answers, questionCount));
  }

  /** The share c/n in percent, for 0 < n and c <= n: it scales back to c, lies between 0
      and 100, and reaches either end only at c == n or c == 0. */
  lemma PercentBounds(c: nat, n: nat, p: real)
    requires 0 < n && c <= n && p == c as real / n as real * 100.0
    ensures p * n as real == 100.0 * c as real
    ensures 0.0 <= p <= 100.0
    ensures p == 100.0 <==> c == n
    ensures p == 0.0 <==> c == 0
  {
    var x := c as real / n as real;
    assert x * n as real == c as real;
    assert x <= 1.0;
    assert x == 1.0 ==> c == n;
    assert x == 0.0 ==> c == 0;
  }

  /** The result screen's "Correct" count: the slots equal to their question's option. */
  function CorrectCount(answers: seq<int>, questions: seq<TestQuestion>): (c: nat)
    requires |answers| <= |questions|
    ensures c <= |answers|
    decreases |answers|
  {
    if answers == [] then 0
    else (if answers[0] == questions[0].correctAnswer then 1 else 0) + CorrectCount(answers[1..], questions[1..])
  }

  /** The result screen's "Incorrect" count: the other slots, unanswered ones included. */
  function IncorrectCount(answers: seq<int>, questions: seq<TestQuestion>): (c: nat)
    requires |answers| <= |questions|
    ensures c <= |answers|
    decreases |answers|
  {
    if answers == [] then 0
    else (if answers[0] != questions[0].correctAnswer then 1 else 0) + IncorrectCount(answers[1..], questions[1..])
  }

  /** Correct and Incorrect add up to the number of answer slots. */
  lemma {:induction false} CorrectPlusIncorrect(answers: seq<int>, questions: seq<TestQuestion>)
    requires |answers| <= |questions|
    ensures CorrectCount(answers, questions) + IncorrectCount(answers, questions) == |answers|
    decreases |answers|
  {
    if answers != [] {
      CorrectPlusIncorrect(answers[1..], questions[1..]);
    }
  }

  /** The screen's "Correct" count is the count the score is computed from. */
  lemma {:induction false} CorrectCountIsScored(answers: seq<int>, questions: seq<TestQuestion>)
    requires |answers| <= |questions|
    ensures CorrectCount(answers, questions)
         == CountCorrect(answers, seq(|questions|, i requires 0 <= i < |questions| => questions[i].correctAnswer))
    decreases |answers|
  {
    var keys := seq(|questions|, i requires 0 <= i < |questions| => questions[i].correctAnswer);
    if answers != [] {
      CorrectCountIsScored(answers[1..], questions[1..]);
      var rest := seq(|questions[1..]|, i requires 0 <= i < |questions[1..]| => questions[1..][i].correctAnswer);
      assert keys[1..] == rest;
    }
  }

  /** The colour of a question's level chip. */
  function DifficultyColor(d: QuestionDifficulty): (r: string)
    ensures d == Easy ==> r == "#4caf50"
    ensures d == Medium ==> r == "#ff9800"
    ensures d == Hard ==> r == "#f44336"
  {
    match d
    case Easy => "#4caf50"
    case Medium => "#ff9800"
    case Hard => "#f44336"
  }

  /** Each level has its own colour. */
  lemma DifficultyColorsDistinct(d1: QuestionDifficulty, d2: QuestionDifficulty)
    ensures DifficultyColor(d1) == DifficultyColor(d2) <==> d1 == d2
  {
  }

  // ---------------------------------------------------------------------------------
  // The attempt a submission reports

  /** What `handleSubmitTest` builds from the answers and the remaining time it sees. */
  function SubmittedAttempt(test: AssessmentTest, answers: seq<int>, timeRemaining: int, completedAt: string): (r: TestAttempt)
    requires |test.questions| > 0
    ensures r.testId == test.id && r.answers == answers && r.completedAt == completedAt
    ensures r.score == CalculateScore(answers, CorrectAnswers(test)) && 0 <= r.score <= 100
    ensures r.passed <==> r.score >= test.passingScore
    ensures r.timeSpent + timeRemaining == test.timeLimit * 60
  {
    var score := CalculateScore(answers, CorrectAnswers(test));
    TestAttempt(test.id, score, score >= test.passingScore, answers, completedAt, test.timeLimit * 60 - timeRemaining)
  }

  /** The attempt the expiring timer actually reports. The interval is installed when the test
      starts and is not renewed while answers change, so the submission it triggers sees
      the answers and the time of the moment the test started: a blank sheet and the full
      time limit. */
  function StaleAutoSubmitAttempt(test: AssessmentTest, completedAt: string): (r: TestAttempt)
    requires |test.questions| > 0
    ensures r.answers == BlankAnswers(|test.questions|)
    ensures r.score == CalculateScore(BlankAnswers(|test.questions|), CorrectAnswers(test))
    ensures r.passed <==> r.score >= test.passingScore
    ensures r.timeSpent == 0
  {
    SubmittedAttempt(test, BlankAnswers(|test.questions|), test.timeLimit * 60, completedAt)
  }

  /** On a shipped test the expiring timer, as written, reports a score of 0, a failure and no
      time spent, even for a learner who answered every question correctly; submitting the
      current sheet reports 100 and a pass. */
  lemma StaleAutoSubmitLosesAnswers(test: AssessmentTest, completedAt: string)
    requires ShippedShape(test)
    ensures StaleAutoSubmitAttempt(test, completedAt).score == 0
    ensures !StaleAutoSubmitAttempt(test, completedAt).passed
    ensures SubmittedAttempt(test, CorrectAnswers(test), 1, completedAt).score == 100
    ensures SubmittedAttempt(test, CorrectAnswers(test), 1, completedAt).passed
  {
    var keys := CorrectAnswers(test);
    assert forall i :: 0 <= i < |keys| ==> keys[i] >= 0 by {
      forall i | 0 <= i < |keys| ensures keys[i] >= 0 {
        assert test.questions[i] in test.questions;
      }
    }
    UnansweredScoresZero(keys);
    assert BlankAnswers(|test.questions|) == seq(|keys|, _ => -1);
    PerfectScore(keys);
  }

  // ---------------------------------------------------------------------------------
  // The session

  /** The session's state, as one value. */
  datatype SessionState = SessionState(
    currentQuestionIndex: int,
    answers: seq<int>,
    timeRemaining: int,           // seconds
    testStarted: bool,
    testCompleted: bool,
    testResult: Option<TestAttempt>,
    reports: seq<TestAttempt>)    // the `onTestComplete` calls

  class Session {
    const test: AssessmentTest
    var currentQuestionIndex: int
    var answers: seq<int>
    var timeRemaining: int
    var testStarted: bool
    var testCompleted: bool
    var testResult: Option<TestAttempt>
    var reports: seq<TestAttempt>

    function State(): SessionState
      reads this
    {
      SessionState(currentQuestionIndex, answers, timeRemaining, testStarted, testCompleted, testResult, reports)
    }

    /** What every reachable state satisfies: one slot per question, the index on a question,
        the countdown between 0 and the limit, and a result exactly once completed. */
    predicate Valid()
      reads this
    {
      |test.questions| > 0
      && |answers| == |test.questions|
      && 0 <= currentQuestionIndex < |test.questions|
      && 0 <= timeRemaining <= test.timeLimit * 60
      && (testCompleted <==> testResult.Some?)
      && (testCompleted ==> testStarted)
      && |reports| <= 1
      && (testResult.Some? ==> reports == [testResult.value])
      && (testResult.None? ==> reports == [])
    }

    /** The initial state: on the first question, nothing answered, the full time limit,
        not started. */
    constructor(test: AssessmentTest)
      requires |test.questions| > 0
      ensures this.test == test && Valid()
      ensures State() == SessionState(0, BlankAnswers(|test.questions|), test.timeLimit * 60, false, false, None, [])
    {
      this.test := test;
      currentQuestionIndex := 0;
      answers := BlankAnswers(|test.questions|);
      timeRemaining := test.timeLimit * 60;
      testStarted := false;
      testCompleted := false;
      testResult := None;
      reports := [];
    }

    /** `isLastQuestion`. */
    predicate IsLastQuestion()
      reads this
      ensures Valid() ==> (IsLastQuestion() <==> currentQuestionIndex + 1 == |answers|)
      ensures Valid() && |test.questions| == 1 ==> IsLastQuestion()
    {
      currentQuestionIndex == |test.questions| - 1
    }

    /** The Previous button is enabled off the first question. */
    predicate CanGoPrevious()
      reads this
      ensures Valid() ==> (CanGoPrevious() <==> 0 < currentQuestionIndex < |test.questions|)
      ensures Valid() && |test.questions| == 1 ==> !CanGoPrevious()
    {
      currentQuestionIndex != 0
    }

    /** The Next button is enabled once the shown question is answered. */
    predicate CanGoNext()
      reads this
      requires Valid()
      ensures AnsweredCount(answers) == 0 ==> !CanGoNext()
      ensures AllAnswered(answers) ==> CanGoNext()
    {
      answers[currentQuestionIndex] != Unanswered
    }

    /** The Submit button, shown on the last question, is enabled once every question is
        answered. */
    predicate CanSubmit()
      reads this
      ensures CanSubmit() <==> AnsweredCount(answers) == |answers|
      ensures Valid() ==> (CanSubmit() <==> ProgressPercentage(answers, |test.questions|) == 100.0)
      ensures Valid() && CanSubmit() ==> CanGoNext()
    {
      AllAnswered(answers)
    }

    /** `handleStartTest`. */
    method StartTest()
      requires Valid()
      modifies this
      ensures Valid()
      ensures State() == old(State()).(testStarted := true)
    {
      testStarted := true;
    }

    /** `handleAnswerChange`: replace one slot. */
    method AnswerChange(questionIndex: int, answerIndex: int)
      requires Valid() && 0 <= questionIndex < |answers|
      modifies this
      ensures Valid()
      ensures State() == old(State()).(answers := old(answers)[questionIndex := answerIndex])
      ensures |answers| == |old(answers)| && answers[questionIndex] == answerIndex
      ensures forall i :: 0 <= i < |answers| && i != questionIndex ==> answers[i] == old(answers)[i]
    {
      var newAnswers := answers;
      newAnswers := newAnswers[questionIndex := answerIndex];
      answers := newAnswers;
    }

    /** `handleNextQuestion`: one question on, unless on the last one. */
    method NextQuestion()
      requires Valid()
      modifies this
      ensures Valid()
      ensures State() == old(State()).(currentQuestionIndex :=
                if old(currentQuestionIndex) < |test.questions| - 1 then old(currentQuestionIndex) + 1
                else old(currentQuestionIndex))
    {
      if !IsLastQuestion() {
        currentQuestionIndex := currentQuestionIndex + 1;
      }
    }

    /** `handlePreviousQuestion`: one question back, unless on the first one. */
    method PreviousQuestion()
      requires Valid()
      modifies this
      ensures Valid()
      ensures State() == old(State()).(currentQuestionIndex :=
                if old(currentQuestionIndex) > 0 then old(currentQuestionIndex) - 1 else 0)
    {
      if currentQuestionIndex > 0 {
        currentQuestionIndex := currentQuestionIndex - 1;
      }
    }

    /** A click on a question's number in the navigator. */
    method GoToQuestion(index: int)
      requires Valid() && 0 <= index < |test.questions|
      modifies this
      ensures Valid()
      ensures State() == old(State()).(currentQuestionIndex := index)
    {
      currentQuestionIndex := index;
    }

    /** `handleSubmitTest`: score the current sheet, store and report the attempt. */
    method SubmitTest(completedAt: string)
      requires Valid() && testStarted && !testCompleted
      modifies this
      ensures Valid()
      ensures State() == old(State()).(testCompleted := true,
                                       testResult := Some(SubmittedAttempt(test, old(answers), old(timeRemaining), completedAt)),
                                       reports := old(reports) + [SubmittedAttempt(test, old(answers), old(timeRemaining), completedAt)])
    {
      var correctAnswers := CorrectAnswers(test);
      var score := CalculateScore(answers, correctAnswers);
      var passed := score >= test.passingScore;
      var testTimeSpent := test.timeLimit * 60 - timeRemaining;
      var attempt := TestAttempt(test.id, score, passed, answers, completedAt, testTimeSpent);
      testResult := Some(attempt);
      testCompleted := true;
      reports := reports + [attempt];
    }

    /** One second of the timer. It runs only between start and completion; at one second
        or less it submits the current sheet and the countdown reads 0, otherwise the
        countdown goes down by one. */
    method Tick(completedAt: string)
      requires Valid()
      modifies this
      ensures Valid()
      ensures !old(testStarted) || old(testCompleted) ==> State() == old(State())
      ensures old(testStarted) && !old(testCompleted) && old(timeRemaining) > 1 ==>
                State() == old(State()).(timeRemaining := old(timeRemaining) - 1)
      ensures old(testStarted) && !old(testCompleted) && old(timeRemaining) <= 1 ==>
                State() == old(State()).(timeRemaining := 0, testCompleted := true,
                                         testResult := Some(SubmittedAttempt(test, old(answers), old(timeRemaining), completedAt)),
                                         reports := [SubmittedAttempt(test, old(answers), old(timeRemaining), completedAt)])
    {
      if !testStarted || testCompleted {
        return;
      }
      if timeRemaining <= 1 {
        SubmitTest(completedAt);
        timeRemaining := 0;
      } else {
        timeRemaining := timeRemaining - 1;
      }
    }
  }

  /** A completed session stays as it is: a tick after completion changes nothing, so the
      attempt is reported at most once. */
  method TickAfterCompletion(s: Session, completedAt: string)
    requires s.Valid() && s.testCompleted
    modifies s
    ensures s.State() == old(s.State()) && |s.reports| == 1
  {
    s.Tick(completedAt);
  }

  /** From a started test with `t` seconds left, `t` ticks (at least one) submit exactly once,
      with the sheet as it then is. */
  method RunOutTheClock(s: Session, completedAt: string) returns (ticks: nat)
    requires s.Valid() && s.testStarted && !s.testCompleted
    modifies s
    ensures s.Valid() && s.testCompleted && s.timeRemaining == 0
    ensures ticks == if old(s.timeRemaining) <= 1 then 1 else old(s.timeRemaining)
    ensures s.answers == old(s.answers)
    ensures s.reports == [SubmittedAttempt(s.test, old(s.answers), if old(s.timeRemaining) <= 1 then old(s.timeRemaining) else 1, completedAt)]
  {
    ticks := 0;
    ghost var t0 := s.timeRemaining;
    while !s.testCompleted
      invariant s.Valid() && s.testStarted && s.answers == old(s.answers)
      invariant !s.testCompleted ==> s.timeRemaining == t0 - ticks && (t0 <= 1 ==> ticks == 0) && (t0 > 1 ==> ticks < t0)
      invariant s.testCompleted ==> s.timeRemaining == 0 && ticks == (if t0 <= 1 then 1 else t0)
      invariant s.testCompleted ==> s.reports == [SubmittedAttempt(s.test, old(s.answers), if t0 <= 1 then t0 else 1, completedAt)]
      decreases s.timeRemaining + (if s.testCompleted then 0 else 1)
    {
      s.Tick(completedAt);
      ticks := ticks + 1;
    }
  }
}
