/** The assessment catalogue of src/data/assessmentTests.ts: the five shipped tests, the
    table that assigns tests to developer paths, and the lookups and scoring over them.
    Question and option wording, explanations and titles are display text and are left
    out; a question keeps its id, its number of options, its correct option and its level. */
module AssessmentTests {
  import opened Wrappers
  import opened Seqs
  import Text

  datatype QuestionDifficulty = Easy | Medium | Hard

  datatype TestQuestion = TestQuestion(
    id: string,
    optionCount: nat,
    correctAnswer: int,
    difficulty: QuestionDifficulty)

  datatype AssessmentTest = AssessmentTest(
    id: string,
    prerequisiteFor: seq<string>,   // the video ids a pass unlocks
    passingScore: int,              // percentage needed to pass
    timeLimit: nat,                 // minutes
    questions: seq<TestQuestion>,
    category: string)

  /** What a finished test reports. `completedAt` is an ISO time stamp supplied by the caller. */
  datatype TestAttempt = TestAttempt(
    testId: string,
    score: int,
    passed: bool,
    answers: seq<int>,
    completedAt: string,
    timeSpent: int)                 // seconds

  /** The correct option of every question, in order. */
  function CorrectAnswers(t: AssessmentTest): (r: seq<int>)
    ensures |r| == |t.questions|
    ensures forall i :: 0 <= i < |r| ==> r[i] == t.questions[i].correctAnswer
  {
    seq(|t.questions|, i requires 0 <= i < |t.questions| => t.questions[i].correctAnswer)
  }

  // ---------------------------------------------------------------------------------
  // The shipped tests

  const HtmlCssBasicsTest := AssessmentTest(
    "html-css-basics-test", ["fe-4", "fe-5"], 85, 15,
    [TestQuestion("html-1", 4, 2, Easy), TestQuestion("html-2", 4, 1, Medium),
     TestQuestion("css-1", 4, 1, Easy), TestQuestion("css-2", 4, 2, Medium),
     TestQuestion("css-3", 4, 1, Medium), TestQuestion("css-4", 4, 1, Hard)],
    "Frontend Development")

  const JavascriptFundamentalsTest := AssessmentTest(
    "javascript-fundamentals-test", ["fe-6", "fe-7"], 85, 20,
    [TestQuestion("js-1", 4, 1, Medium), TestQuestion("js-2", 4, 1, Easy),
     TestQuestion("js-3", 4, 1, Easy), TestQuestion("js-4", 4, 1, Medium),
     TestQuestion("js-5", 4, 2, Hard)],
    "Frontend Development")

  const ReactAdvancedTest := AssessmentTest(
    "react-advanced-test", ["fe-8"], 85, 25,
    [TestQuestion("react-1", 4, 1, Medium), TestQuestion("react-2", 4, 1, Medium),
     TestQuestion("react-3", 4, 2, Hard)],
    "Frontend Development")

  const NodejsBasicsTest := AssessmentTest(
    "nodejs-basics-test", ["be-2", "be-3"], 85, 18,
    [TestQuestion("node-1", 4, 1, Easy), TestQuestion("node-2", 4, 2, Easy),
     TestQuestion("node-3", 4, 1, Medium), TestQuestion("node-4", 4, 0, Medium)],
    "Backend Development")

  const ExpressApiTest := AssessmentTest(
    "express-api-test", ["be-4", "be-5"], 85, 20,
    [TestQuestion("express-1", 4, 1, Easy), TestQuestion("express-2", 4, 2, Easy),
     TestQuestion("express-3", 4, 1, Medium)],
    "Backend Development")

  const FrontendDeveloperTests := [HtmlCssBasicsTest, JavascriptFundamentalsTest, ReactAdvancedTest]
  const BackendDeveloperTests := [NodejsBasicsTest, ExpressApiTest]

  /** `allAssessmentTests`, in declaration order. */
  const AllAssessmentTests: seq<(string, seq<AssessmentTest>)> := [
    ("frontend-developer", FrontendDeveloperTests),
    ("backend-developer", BackendDeveloperTests),
    ("fullstack-developer", FrontendDeveloperTests + BackendDeveloperTests),
    ("ui-developer", [FrontendDeveloperTests[0]]),
    ("javascript-developer", [FrontendDeveloperTests[1]]),
    ("devops-engineer", [BackendDeveloperTests[0]])
  ]

  /** Every test of the table, path list after path list. */
  function AllTestsInTableOrder(): seq<AssessmentTest> {
    Concat(Values(AllAssessmentTests))
  }

  // ---------------------------------------------------------------------------------
  // Lookups

  /** `getTestsForPath`: the path's list, or the empty list for an unknown path. */
  function GetTestsForPath(pathId: string): (r: seq<AssessmentTest>)
    ensures (forall i :: 0 <= i < |AllAssessmentTests| ==> AllAssessmentTests[i].0 != pathId) ==> r == []
    ensures forall i :: 0 <= i < |AllAssessmentTests| && AllAssessmentTests[i].0 == pathId
                        ==> r == AllAssessmentTests[i].1
  {
    TableKeysDistinct();
    forall i | 0 <= i < |AllAssessmentTests| && AllAssessmentTests[i].0 == pathId
      ensures Lookup(AllAssessmentTests, pathId) == Some(AllAssessmentTests[i].1)
    {
      LookupDistinct(AllAssessmentTests, i);
    }
    Lookup(AllAssessmentTests, pathId).GetOr([])
  }

  lemma TableKeysDistinct()
    ensures KeysDistinct(AllAssessmentTests)
  {
  }

  /** The test `getTestById` finds: the first one with that id, scanning the path lists in
      table order. */
  function TestById(testId: string): (r: Option<AssessmentTest>)
    ensures r.Some? ==> r.value.id == testId && r.value in AllTestsInTableOrder()
    ensures r.None? <==> forall t :: t in AllTestsInTableOrder() ==> t.id != testId
  {
    var all := AllTestsInTableOrder();
    var r := Find(all, (t: AssessmentTest) => t.id == testId);
    assert r.None? ==> forall t :: t in all ==> t.id != testId by {
      if r.None? {
        forall t | t in all ensures t.id != testId {
          var i :| 0 <= i < |all| && all[i] == t;
        }
      }
    }
    r
  }

  /** `getTestById`: the for-of loop over the path lists with an early return. */
  method GetTestById(testId: string) returns (r: Option<AssessmentTest>)
    ensures r == TestById(testId)
  {
    var lists := Values(AllAssessmentTests);
    var p := (t: AssessmentTest) => t.id == testId;
    var k := 0;
    while k < |lists|
      invariant 0 <= k <= |lists|
      invariant Find(Concat(lists[..k]), p).None?
    {
      assert lists[..k + 1][..k] == lists[..k];
      FindAppend(Concat(lists[..k]), lists[k], p);
      var test := Find(lists[k], p);
      if test.Some? {
        FindAppend(Concat(lists[..k + 1]), Concat(lists[k + 1..]), p);
        ConcatSplit(lists, k + 1);
        return test;
      }
      k := k + 1;
    }
    assert lists[..k] == lists;
    return None;
  }

  /** `getUnlockedVideosByTest`: a failed test unlocks nothing, nor does an unknown id; a
      passed test unlocks the videos it lists. */
  function UnlockedVideosByTest(testId: string, passed: bool): (r: seq<string>)
    ensures !passed ==> r == []
    ensures passed && TestById(testId).None? ==> r == []
    ensures passed && TestById(testId).Some? ==> r == TestById(testId).value.prerequisiteFor
  {
    if !passed then []
    else
      match TestById(testId)
      case None => []
      case Some(t) => t.prerequisiteFor
  }

  // ---------------------------------------------------------------------------------
  // Scoring

  /** The number of positions where the answer equals the correct option. An answer past the
      end of `correctAnswers` compares with `undefined` and never matches. */
  function CountCorrect(answers: seq<int>, correctAnswers: seq<int>): (c: nat)
    ensures c <= |answers| && c <= |correctAnswers|
    ensures c == |answers| <==> |answers| <= |correctAnswers|
                                 && forall i :: 0 <= i < |answers| ==> answers[i] == correctAnswers[i]
    ensures c == 0 <==> forall i :: 0 <= i < |answers| && i < |correctAnswers| ==> answers[i] != correctAnswers[i]
    decreases |answers|
  {
    if answers == [] || correctAnswers == [] then 0
    else
      var rest := CountCorrect(answers[1..], correctAnswers[1..]);
      assert forall i :: 1 <= i < |answers| && i < |correctAnswers| ==>
        answers[1..][i - 1] == answers[i] && correctAnswers[1..][i - 1] == correctAnswers[i];
      (if answers[0] == correctAnswers[0] then 1 else 0) + rest
  }

  /** `calculateScore`: `Math.round(100 * correct / n)` written as the integer quotient
      `(200 * correct + n) / (2 * n)`. The source divides by `n` without a guard, so `n > 0` is
      its precondition. The result is the nearest integer to the percentage, halves up. */
  function CalculateScore(answers: seq<int>, correctAnswers: seq<int>): (r: int)
    requires |correctAnswers| > 0
    ensures 0 <= r <= 100
    ensures var n := |correctAnswers|; var c := CountCorrect(answers, correctAnswers);
            2 * n * r - n <= 200 * c < 2 * n * r + n
  {
    var n := |correctAnswers|;
    var c := CountCorrect(answers, correctAnswers);
    RoundedPercentage(c, n);
    (200 * c + n) / (2 * n)
  }

  /** The arithmetic behind the score: the quotient brackets the percentage and stays in
      0..100 while `c <= n`. */
  lemma RoundedPercentage(c: nat, n: nat)
    requires 0 < n && c <= n
    ensures var r := (200 * c + n) / (2 * n);
            0 <= r <= 100 && 2 * n * r - n <= 200 * c < 2 * n * r + n
  {
    var m := 2 * n;
    var a := 200 * c + n;
    var r := a / m;
    assert m * r <= a < m * r + m;
    assert m * 101 == 202 * n;
    if r < 0 {
      MulMono(m, r, -1);
      assert false;
    }
    if r > 100 {
      MulMono(m, 101, r);
      assert false;
    }
    assert m * r == 2 * n * r;
  }

  lemma MulMono(m: int, x: int, y: int)
    requires m >= 0 && x <= y
    ensures m * x <= m * y
  {
    assert m * y - m * x == m * (y - x);
  }

  /** The integer form agrees with `Math.round` on the real percentage. */
  lemma CalculateScoreIsRound(answers: seq<int>, correctAnswers: seq<int>)
    requires |correctAnswers| > 0
    ensures CalculateScore(answers, correctAnswers)
         == Text.RoundHalfUp(100.0 * CountCorrect(answers, correctAnswers) as real / |correctAnswers| as real)
  {
    var n := |correctAnswers|;
    var c := CountCorrect(answers, correctAnswers);
    var r := CalculateScore(answers, correctAnswers);
    RealBracket(c, n, r);
    Text.RoundHalfUpUnique(100.0 * c as real / n as real, r);
  }

  /** The integer bracket `2nr - n <= 200c < 2nr + n`, read over the reals. */
  lemma RealBracket(c: nat, n: nat, r: int)
    requires 0 < n && 2 * n * r - n <= 200 * c < 2 * n * r + n
    ensures r as real - 0.5 <= 100.0 * c as real / n as real < r as real + 0.5
  {
    var nr, rr, cr := n as real, r as real, c as real;
    var p := n * r;
    Text.CastMul(n, r);
    assert 2.0 * (p as real) - nr <= 200.0 * cr < 2.0 * (p as real) + nr;
    var x := 100.0 * cr / nr;
    assert x * nr == 100.0 * cr;
    var below := x - (rr - 0.5);
    var above := (rr + 0.5) - x;
    assert below * nr == 100.0 * cr - rr * nr + 0.5 * nr;
    assert above * nr == rr * nr + 0.5 * nr - 100.0 * cr;
    Text.SignOfProduct(below, nr);
    Text.SignOfProduct(above, nr);
  }

  /** Answering every question correctly scores 100. */
  lemma PerfectScore(correctAnswers: seq<int>)
    requires |correctAnswers| > 0
    ensures CalculateScore(correctAnswers, correctAnswers) == 100
  {
    var n := |correctAnswers|;
    assert CountCorrect(correctAnswers, correctAnswers) == n;
    var r := CalculateScore(correctAnswers, correctAnswers);
    if r < 100 {
      MulMono(2 * n, r, 99);
      assert false;
    }
  }

  /** Leaving every question unanswered (-1) scores 0 when every correct option is an index. */
  lemma UnansweredScoresZero(correctAnswers: seq<int>)
    requires |correctAnswers| > 0
    requires forall i :: 0 <= i < |correctAnswers| ==> correctAnswers[i] >= 0
    ensures CalculateScore(seq(|correctAnswers|, _ => -1), correctAnswers) == 0
  {
    var unanswered := seq(|correctAnswers|, _ => -1);
    var n := |correctAnswers|;
    assert CountCorrect(unanswered, correctAnswers) == 0;
    var r := CalculateScore(unanswered, correctAnswers);
    if r > 0 {
      MulMono(2 * n, 1, r);
      assert false;
    }
  }

  /** Four of five right is 80. */
  lemma FourOfFive()
    ensures CalculateScore([0, 1, 2, -1, 0], [0, 1, 2, 3, 0]) == 80
  {
    assert CountCorrect([0, 1, 2, -1, 0], [0, 1, 2, 3, 0]) == 4;
  }

  // ---------------------------------------------------------------------------------
  // Facts about the shipped catalogue

  /** The shape every shipped test has: it needs 85%, it has questions, and each question's
      correct option is one of its options. */
  predicate ShippedShape(t: AssessmentTest) {
    t.passingScore == 85 && |t.questions| > 0
    && forall q :: q in t.questions ==> 0 <= q.correctAnswer < q.optionCount
  }

  /** Every shipped test needs 85% and has questions whose correct option is one of its
      options. */
  lemma ShippedTestsWellFormed()
    ensures forall t :: t in AllTestsInTableOrder() ==> t.passingScore == 85
    ensures forall t :: t in AllTestsInTableOrder() ==> |t.questions| > 0
    ensures forall t, q :: t in AllTestsInTableOrder() && q in t.questions ==>
              0 <= q.correctAnswer < q.optionCount
  {
    AllTestsAreShipped();
    HtmlCssShape();
    JavascriptShape();
    ReactShape();
    NodejsShape();
    ExpressShape();
    forall t | t in AllTestsInTableOrder() ensures ShippedShape(t) {
    }
  }

  lemma HtmlCssShape() ensures ShippedShape(HtmlCssBasicsTest) { }
  lemma JavascriptShape() ensures ShippedShape(JavascriptFundamentalsTest) { }
  lemma ReactShape() ensures ShippedShape(ReactAdvancedTest) { }
  lemma NodejsShape() ensures ShippedShape(NodejsBasicsTest) { }
  lemma ExpressShape() ensures ShippedShape(ExpressApiTest) { }

  /** Every test in the table is one of the five shipped tests. */
  lemma AllTestsAreShipped()
    ensures forall t :: t in AllTestsInTableOrder() ==>
              t in [HtmlCssBasicsTest, JavascriptFundamentalsTest, ReactAdvancedTest,
                    NodejsBasicsTest, ExpressApiTest]
  {
    var lists := Values(AllAssessmentTests);
    ConcatMembers(lists, [HtmlCssBasicsTest, JavascriptFundamentalsTest, ReactAdvancedTest,
                          NodejsBasicsTest, ExpressApiTest]);
  }

  /** The UI path offers the HTML & CSS test only. */
  lemma UiPathTests()
    ensures GetTestsForPath("ui-developer") == [HtmlCssBasicsTest]
  {
    assert AllAssessmentTests[3].0 == "ui-developer";
  }

  /** The full-stack path offers the frontend tests followed by the backend tests. */
  lemma FullstackPathTests()
    ensures GetTestsForPath("fullstack-developer") == FrontendDeveloperTests + BackendDeveloperTests
  {
    assert AllAssessmentTests[2].0 == "fullstack-developer";
  }

  /** A path without an entry offers no test. */
  lemma UnknownPathTests()
    ensures GetTestsForPath("data-scientist") == []
  {
  }

  /** The frontend list comes first, so its tests are found there. */
  lemma FrontendTestsComeFirst(testId: string)
    ensures TestById(testId) == if Find(FrontendDeveloperTests, (t: AssessmentTest) => t.id == testId).Some?
                                then Find(FrontendDeveloperTests, (t: AssessmentTest) => t.id == testId)
                                else Find(Concat(Values(AllAssessmentTests)[1..]), (t: AssessmentTest) => t.id == testId)
  {
    var lists := Values(AllAssessmentTests);
    assert lists == [FrontendDeveloperTests] + lists[1..];
    ConcatCons(FrontendDeveloperTests, lists[1..]);
    FindAppend(FrontendDeveloperTests, Concat(lists[1..]), (t: AssessmentTest) => t.id == testId);
  }

  /** A frontend test is found by its id. */
  lemma ReactTestById()
    ensures TestById("react-advanced-test") == Some(ReactAdvancedTest)
  {
    var p := (t: AssessmentTest) => t.id == "react-advanced-test";
    FrontendTestsComeFirst("react-advanced-test");
    assert !p(FrontendDeveloperTests[0]) && !p(FrontendDeveloperTests[1]) && p(FrontendDeveloperTests[2]);
    assert FindIndex(FrontendDeveloperTests, p) == Some(2);
  }

  /** An id no shipped test has is not found. */
  lemma UnknownTestById()
    ensures TestById("unknown-test") == None
    ensures UnlockedVideosByTest("unknown-test", true) == []
  {
    AllTestsAreShipped();
  }

  /** Passing the HTML & CSS test unlocks fe-4 and fe-5; failing it unlocks nothing. */
  lemma HtmlCssUnlocks()
    ensures UnlockedVideosByTest("html-css-basics-test", true) == ["fe-4", "fe-5"]
    ensures UnlockedVideosByTest("html-css-basics-test", false) == []
  {
    var p := (t: AssessmentTest) => t.id == "html-css-basics-test";
    FrontendTestsComeFirst("html-css-basics-test");
    assert p(FrontendDeveloperTests[0]);
    assert FindIndex(FrontendDeveloperTests, p) == Some(0);
  }
}
