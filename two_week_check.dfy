/** `TwoWeekCheckView`: ten questions answered 1 to 4, the first five about
    anxiety and the last five about depression; each half is summed and
    read on the bands 0-5, 6-10, 11-15 and 16-20. A check taken less than 14
    days ago is shown again instead of a new one. Dates are day numbers. */
module TwoWeekCheck {
  import opened Wrappers
  import opened Calendar

  const QUESTION_COUNT: nat := 10
  const HALF: nat := 5
  const LAST_QUESTION: nat := 9
  const RECHECK_DAYS: int := 14
  const MIN_ANSWER: int := 1
  const MAX_ANSWER: int := 4

  // ---------------------------------------------------------------------------
  // Scores and levels
  // ---------------------------------------------------------------------------

  /** `reduce(0, +)`. */
  function Sum(xs: seq<int>): int
  {
    if xs == [] then 0 else Sum(xs[..|xs| - 1]) + xs[|xs| - 1]
  }

  /** `answers.prefix(5)`. */
  function FirstHalf(answers: seq<int>): seq<int>
  {
    if |answers| < HALF then answers else answers[..HALF]
  }

  /** `answers.suffix(5)`. */
  function LastHalf(answers: seq<int>): seq<int>
  {
    if |answers| < HALF then answers else answers[|answers| - HALF..]
  }

  function GadScore(answers: seq<int>): int
  {
    Sum(FirstHalf(answers))
  }

  function PhqScore(answers: seq<int>): int
  {
    Sum(LastHalf(answers))
  }

  /** The four bands, and `Unknown` for a sum outside 0...20. */
  datatype Severity = Minimal | Mild | Moderate | Severe | Unknown

  function SeverityOf(score: int): Severity
  {
    if 0 <= score <= 5 then Minimal
    else if 6 <= score <= 10 then Mild
    else if 11 <= score <= 15 then Moderate
    else if 16 <= score <= 20 then Severe
    else Unknown
  }

  /** The position of a band in the scale. */
  function Rank(s: Severity): nat
  {
    match s
    case Minimal => 0
    case Mild => 1
    case Moderate => 2
    case Severe => 3
    case Unknown => 4
  }

  /** `getGADScoreLevel()`. */
  function GadLevel(answers: seq<int>): string
  {
    match SeverityOf(GadScore(answers))
    case Minimal => "Minimal Anxiety"
    case Mild => "Mild Anxiety"
    case Moderate => "Moderate Anxiety"
    case Severe => "Severe Anxiety"
    case Unknown => "Unknown"
  }

  /** `getPHQScoreLevel()`. */
  function PhqLevel(answers: seq<int>): string
  {
    match SeverityOf(PhqScore(answers))
    case Minimal => "Minimal Depression"
    case Mild => "Mild Depression"
    case Moderate => "Moderate Depression"
    case Severe => "Severe Depression"
    case Unknown => "Unknown"
  }

  /** The bands are exact at their edges, cover 0...20 in order, and a
      higher sum within 0...20 never reads as a lower band. */
  lemma SeverityBands(low: int, high: int)
    ensures SeverityOf(5) == Minimal && SeverityOf(6) == Mild
    ensures SeverityOf(10) == Mild && SeverityOf(11) == Moderate
    ensures SeverityOf(15) == Moderate && SeverityOf(16) == Severe
    ensures SeverityOf(0) == Minimal && SeverityOf(20) == Severe
    ensures SeverityOf(-1) == Unknown && SeverityOf(21) == Unknown
    ensures 0 <= low <= high <= 20 ==> Rank(SeverityOf(low)) <= Rank(SeverityOf(high))
    ensures (SeverityOf(low) == Unknown) <==> (low < 0 || low > 20)
  {
  }

  /** Every answer lies between 1 and 4. */
  predicate AllAnswered(xs: seq<int>)
  {
    forall i | 0 <= i < |xs| :: MIN_ANSWER <= xs[i] <= MAX_ANSWER
  }

  lemma SumOfFive(a: int, b: int, c: int, d: int, e: int)
    ensures Sum([a, b, c, d, e]) == a + b + c + d + e
  {
    assert [a, b, c, d, e][..4] == [a, b, c, d];
    assert [a, b, c, d][..3] == [a, b, c];
    assert [a, b, c][..2] == [a, b];
    assert [a, b][..1] == [a];
    assert [a][..0] == [];
    assert Sum([a]) == a;
    assert Sum([a, b]) == a + b;
    assert Sum([a, b, c]) == a + b + c;
    assert Sum([a, b, c, d]) == a + b + c + d;
  }

  lemma {:induction false} SumOfAnswered(xs: seq<int>)
    requires AllAnswered(xs)
    ensures MIN_ANSWER * |xs| <= Sum(xs) <= MAX_ANSWER * |xs|
  {
    if xs != [] {
      SumOfAnswered(xs[..|xs| - 1]);
    }
  }

  /** A fully answered questionnaire scores 5 to 20 on each half, so neither
      level reads "Unknown". */
  lemma AnsweredLevelsKnown(answers: seq<int>)
    requires |answers| == QUESTION_COUNT && AllAnswered(answers)
    ensures 5 <= GadScore(answers) <= 20 && 5 <= PhqScore(answers) <= 20
    ensures GadLevel(answers) != "Unknown" && PhqLevel(answers) != "Unknown"
  {
    SumOfAnswered(FirstHalf(answers));
    SumOfAnswered(LastHalf(answers));
  }

  // ---------------------------------------------------------------------------
  // The summary
  // ---------------------------------------------------------------------------

  /** The anxiety paragraph of `getSummary()`. The source switches on the
      level's label; each label names exactly one band and "Unknown" falls to
      the default, so the paragraph is chosen here by the band. */
  function AnxietyParagraph(band: Severity): string
  {
    match band
    case Minimal =>
      "Your anxiety levels are minimal. It's great that you're experiencing low anxiety! Continue practicing good habits to maintain your well-being."
    case Mild =>
      "You have mild anxiety, which can be managed with some focused self-care. Let's explore simple techniques to help you stay calm."
    case Moderate =>
      "Your anxiety levels are moderate, indicating a need for more structured support. We can work on strategies to manage your anxiety effectively."
    case Severe =>
      "You're experiencing severe anxiety, and it's important to seek professional help. Let's make sure you have access to the necessary support."
    case Unknown => ""
  }

  /** The depression paragraph of `getSummary()`, chosen by band likewise. */
  function DepressionParagraph(band: Severity): string
  {
    match band
    case Minimal =>
      "Your depression levels are minimal. It's wonderful that you're feeling good. Keep up the positive lifestyle choices."
    case Mild =>
      "You have mild depression, which can be addressed with some targeted self-care strategies. Let's find ways to uplift your mood."
    case Moderate =>
      "Your depression is moderate, indicating that you could benefit from more structured help. We can focus on improving your mood together."
    case Severe =>
      "You're experiencing severe depression, and it's important to seek professional help. Let's make sure you have access to the necessary support."
    case Unknown => ""
  }

  const PARAGRAPH_BREAK: string := "\n\n"

  /** `getSummary()`: the anxiety paragraph, a blank line, the depression
      paragraph; a level outside the four bands contributes nothing. */
  function Summary(answers: seq<int>): string
  {
    AnxietyParagraph(SeverityOf(GadScore(answers))) + PARAGRAPH_BREAK + DepressionParagraph(SeverityOf(PhqScore(answers)))
  }

  /** The summary depends on the two bands only; a sum outside every band
      leaves its paragraph empty. */
  lemma SummaryByBands(answers: seq<int>, other: seq<int>)
    ensures SeverityOf(GadScore(answers)) == SeverityOf(GadScore(other))
              && SeverityOf(PhqScore(answers)) == SeverityOf(PhqScore(other)) ==>
            Summary(answers) == Summary(other)
    ensures SeverityOf(GadScore(answers)) == Unknown ==>
      Summary(answers) == PARAGRAPH_BREAK + DepressionParagraph(SeverityOf(PhqScore(answers)))
    ensures SeverityOf(PhqScore(answers)) == Unknown ==>
      Summary(answers) == AnxietyParagraph(SeverityOf(GadScore(answers))) + PARAGRAPH_BREAK
  {
    assert [] + PARAGRAPH_BREAK == PARAGRAPH_BREAK;
    assert PARAGRAPH_BREAK + [] == PARAGRAPH_BREAK;
  }

  // ---------------------------------------------------------------------------
  // Reconstructing answers from stored scores
  // ---------------------------------------------------------------------------

  /** Swift's `/` on `Int`, which truncates toward zero. */
  function TruncDiv(a: int, b: int): int
    requires b > 0
  {
    if a >= 0 then a / b else -((-a) / b)
  }

  /** `min(4, max(1, score / 5))`. */
  function ReconstructedAnswer(score: int): (answer: int)
    ensures MIN_ANSWER <= answer <= MAX_ANSWER
  {
    var q := TruncDiv(score, HALF);
    if q < MIN_ANSWER then MIN_ANSWER else if q > MAX_ANSWER then MAX_ANSWER else q
  }

  /** The ten answers `reconstructAnswers` fills in. */
  function Reconstructed(gadScore: int, phqScore: int): (answers: seq<int>)
    ensures |answers| == QUESTION_COUNT && AllAnswered(answers)
  {
    var answers := seq(QUESTION_COUNT, i requires 0 <= i < QUESTION_COUNT =>
      if i < HALF then ReconstructedAnswer(gadScore) else ReconstructedAnswer(phqScore));
    assert forall i | 0 <= i < QUESTION_COUNT ::
      answers[i] == if i < HALF then ReconstructedAnswer(gadScore) else ReconstructedAnswer(phqScore);
    answers
  }

  /** `reconstructAnswers(gadScore:phqScore:)`: two loops over a fresh array
      of ten zeros. */
  method ReconstructAnswers(gadScore: int, phqScore: int) returns (answers: array<int>)
    ensures fresh(answers)
    ensures answers[..] == Reconstructed(gadScore, phqScore)
  {
    answers := new int[QUESTION_COUNT](_ => 0);
    var i := 0;
    while i < HALF
      invariant 0 <= i <= HALF
      invariant forall j | 0 <= j < i :: answers[j] == ReconstructedAnswer(gadScore)
    {
      answers[i] := ReconstructedAnswer(gadScore);
      i := i + 1;
    }
    i := HALF;
    while i < QUESTION_COUNT
      invariant HALF <= i <= QUESTION_COUNT
      invariant forall j | 0 <= j < HALF :: answers[j] == ReconstructedAnswer(gadScore)
      invariant forall j | HALF <= j < i :: answers[j] == ReconstructedAnswer(phqScore)
    {
      answers[i] := ReconstructedAnswer(phqScore);
      i := i + 1;
    }
  }

  /** Reconstruction does not give the stored score back: a check scored 7
      on both halves ("Mild") is shown again as five 1s per half, which reads
      as "Minimal". */
  lemma ReconstructionChangesLevel()
    ensures var taken := [2, 2, 1, 1, 1, 2, 2, 1, 1, 1];
            && GadScore(taken) == 7 && GadLevel(taken) == "Mild Anxiety"
            && PhqScore(taken) == 7 && PhqLevel(taken) == "Mild Depression"
            && GadScore(Reconstructed(7, 7)) == 5 && GadLevel(Reconstructed(7, 7)) == "Minimal Anxiety"
            && PhqScore(Reconstructed(7, 7)) == 5 && PhqLevel(Reconstructed(7, 7)) == "Minimal Depression"
  {
    var taken := [2, 2, 1, 1, 1, 2, 2, 1, 1, 1];
    assert FirstHalf(taken) == [2, 2, 1, 1, 1];
    assert LastHalf(taken) == [2, 2, 1, 1, 1];
    SumOfFive(2, 2, 1, 1, 1);
    var shown := Reconstructed(7, 7);
    assert ReconstructedAnswer(7) == 1;
    assert FirstHalf(shown) == [1, 1, 1, 1, 1];
    assert LastHalf(shown) == [1, 1, 1, 1, 1];
    SumOfFive(1, 1, 1, 1, 1);
  }

  /** Five answers between 1 and 4 that add up to `score`: the quotient of
      `score` by 5 everywhere, plus one on the first `score % 5` answers. */
  function BalancedAnswers(score: int): (answers: seq<int>)
    requires 5 <= score <= 20
    ensures |answers| == HALF && AllAnswered(answers) && Sum(answers) == score
  {
    var q := score / HALF;
    var r := score % HALF;
    var answers := seq(HALF, i requires 0 <= i < HALF => if i < r then q + 1 else q);
    assert answers == [answers[0], answers[1], answers[2], answers[3], answers[4]];
    SumOfFive(answers[0], answers[1], answers[2], answers[3], answers[4]);
    answers
  }

  /** Ten answers rebuilt from two stored scores, each half adding up to
      its score. */
  function BalancedReconstructed(gadScore: int, phqScore: int): (answers: seq<int>)
    requires 5 <= gadScore <= 20 && 5 <= phqScore <= 20
    ensures |answers| == QUESTION_COUNT && AllAnswered(answers)
  {
    BalancedAnswers(gadScore) + BalancedAnswers(phqScore)
  }

  /** Rebuilding a taken check from its stored scores with
      `BalancedReconstructed` gives back its scores, hence its levels and
      its summary. */
  lemma BalancedKeepsLevels(taken: seq<int>)
    requires |taken| == QUESTION_COUNT && AllAnswered(taken)
    ensures 5 <= GadScore(taken) <= 20 && 5 <= PhqScore(taken) <= 20
    ensures var shown := BalancedReconstructed(GadScore(taken), PhqScore(taken));
            && GadScore(shown) == GadScore(taken) && PhqScore(shown) == PhqScore(taken)
            && GadLevel(shown) == GadLevel(taken) && PhqLevel(shown) == PhqLevel(taken)
            && Summary(shown) == Summary(taken)
  {
    AnsweredLevelsKnown(taken);
    var g := BalancedAnswers(GadScore(taken));
    var p := BalancedAnswers(PhqScore(taken));
    assert FirstHalf(g + p) == g;
    assert LastHalf(g + p) == p;
  }

  // ---------------------------------------------------------------------------
  // The screen
  // ---------------------------------------------------------------------------

  /** Which of the three screens the view shows. */
  datatype Screen = SummaryScreen | IntroductionScreen | QuestionsScreen

  /** The stored scores `saveResults` hands to
      `storeTwoWeekCheckAndGeneratePlan`. */
  datatype Submission = Submission(userID: string, gadScore: int, gadScoreLevel: string, phqScore: int, phqScoreLevel: string)

  /** The latest stored check as `fetchLatestTwoWeekCheck` reports it: every
      field may be missing. */
  datatype LatestCheck = LatestCheck(date: Option<int>, gadScore: Option<int>, phqScore: Option<int>)

  /** `checkForExistingResults`: whether the last check is recent enough to
      be shown instead of a new one. */
  predicate ShowsPreviousResults(latest: LatestCheck, today: int)
  {
    latest.date.Some? && DaysBetween(latest.date.value, today) < RECHECK_DAYS
  }

  function OrZero(x: Option<int>): int
  {
    match x case Some(v) => v case None => 0
  }

  class TwoWeekCheckView {
    var currentQuestionIndex: int
    var answers: array<int>
    var showSummary: bool
    var showIntroduction: bool
    var showResults: bool
    var selectedAnswer: Option<int>
    /** The `checkCompleted` binding. */
    var checkCompleted: bool
    var showErrorAlert: bool
    var errorMessage: string
    /** The checks handed to the store, in order. */
    var submissions: seq<Submission>

    /** Ten answers, each 0 (unanswered) to 4; the index on a question; every
        question before the current one answered. */
    predicate Valid()
      reads this, answers
    {
      && answers.Length == QUESTION_COUNT
      && 0 <= currentQuestionIndex <= LAST_QUESTION
      && (forall j | 0 <= j < QUESTION_COUNT :: 0 <= answers[j] <= MAX_ANSWER)
      && (forall j | 0 <= j < currentQuestionIndex :: MIN_ANSWER <= answers[j])
    }

    constructor ()
      ensures Valid() && fresh(answers)
      ensures answers[..] == seq(QUESTION_COUNT, _ => 0) && currentQuestionIndex == 0
      ensures !showSummary && showIntroduction && !showResults && selectedAnswer == None
      ensures !checkCompleted && !showErrorAlert && submissions == []
    {
      currentQuestionIndex := 0;
      answers := new int[QUESTION_COUNT](_ => 0);
      showSummary := false;
      showIntroduction := true;
      showResults := false;
      selectedAnswer := None;
      checkCompleted := false;
      showErrorAlert := false;
      errorMessage := "";
      submissions := [];
    }

    /** The screen the body shows. */
    function CurrentScreen(): Screen
      reads this
    {
      if showResults || showSummary then SummaryScreen
      else if showIntroduction then IntroductionScreen
      else QuestionsScreen
    }

    /** The "Previous" button is enabled past the first question. */
    predicate PreviousEnabled()
      reads this
    {
      currentQuestionIndex != 0
    }

    /** The "Next"/"Submit" button is enabled once the question is answered. */
    predicate NextEnabled()
      reads this, answers
      requires Valid()
    {
      answers[currentQuestionIndex] != 0
    }

    /** The introduction's button: the questions show, unless the summary
        is already up. */
    method StartQuestions()
      modifies this`showIntroduction
      ensures !showIntroduction
      ensures CurrentScreen() == if old(showResults || showSummary) then SummaryScreen else QuestionsScreen
      ensures answers == old(answers) && currentQuestionIndex == old(currentQuestionIndex)
      ensures showSummary == old(showSummary) && showResults == old(showResults)
      ensures submissions == old(submissions) && checkCompleted == old(checkCompleted)
    {
      showIntroduction := false;
    }

    /** `selectAnswer(score)`, from one of the four answer buttons: only the
        current answer changes. */
    method SelectAnswer(score: int)
      requires Valid() && MIN_ANSWER <= score <= MAX_ANSWER
      modifies answers
      ensures Valid()
      ensures answers[..] == old(answers[..])[currentQuestionIndex := score]
    {
      answers[currentQuestionIndex] := score;
    }

    /** `previousQuestion()`: back one question, never below the first. */
    method PreviousQuestion()
      requires Valid()
      modifies this`currentQuestionIndex, this`selectedAnswer
      ensures Valid() && answers == old(answers) && answers[..] == old(answers[..])
      ensures currentQuestionIndex == if old(currentQuestionIndex) > 0 then old(currentQuestionIndex) - 1 else 0
      ensures old(currentQuestionIndex) > 0 ==> selectedAnswer == Some(answers[currentQuestionIndex])
      ensures old(currentQuestionIndex) == 0 ==> selectedAnswer == old(selectedAnswer)
      ensures showSummary == old(showSummary) && submissions == old(submissions)
      ensures showIntroduction == old(showIntroduction) && showResults == old(showResults)
    {
      if currentQuestionIndex > 0 {
        currentQuestionIndex := currentQuestionIndex - 1;
        selectedAnswer := Some(answers[currentQuestionIndex]);
      }
    }

    /** `saveResults()`: with a signed-in user, the scores and levels of the
        answers are handed to the store. */
    method SaveResults(userID: Option<string>)
      requires Valid()
      modifies this`submissions
      ensures submissions == old(submissions) +
        (if userID.None? || userID.value == [] then []
         else [Submission(userID.value, GadScore(answers[..]), GadLevel(answers[..]), PhqScore(answers[..]), PhqLevel(answers[..]))])
      ensures Valid() && answers == old(answers) && currentQuestionIndex == old(currentQuestionIndex)
      ensures showSummary == old(showSummary) && showIntroduction == old(showIntroduction) && showResults == old(showResults)
    {
      if userID.None? || userID.value == [] {
        return;
      }
      var a := answers[..];
      submissions := submissions + [Submission(userID.value, GadScore(a), GadLevel(a), PhqScore(a), PhqLevel(a))];
    }

    /** `nextQuestion()`, from the enabled button: forward one question, or
        at the last one submit and show the summary. A submitted check is
        fully answered, so both of its levels are among the four bands. */
    method NextQuestion(userID: Option<string>)
      requires Valid() && NextEnabled()
      modifies this`currentQuestionIndex, this`submissions, this`showSummary
      ensures Valid() && answers == old(answers) && answers[..] == old(answers[..])
      ensures old(currentQuestionIndex) < LAST_QUESTION ==>
        currentQuestionIndex == old(currentQuestionIndex) + 1 && submissions == old(submissions) && showSummary == old(showSummary)
      ensures old(currentQuestionIndex) == LAST_QUESTION ==>
        && currentQuestionIndex == LAST_QUESTION && showSummary && CurrentScreen() == SummaryScreen
        && AllAnswered(answers[..])
        && submissions == old(submissions) +
             (if userID.None? || userID.value == [] then []
              else [Submission(userID.value, GadScore(answers[..]), GadLevel(answers[..]), PhqScore(answers[..]), PhqLevel(answers[..]))])
      ensures forall s | s in submissions[|old(submissions)|..] :: s.gadScoreLevel != "Unknown" && s.phqScoreLevel != "Unknown"
    {
      if currentQuestionIndex < LAST_QUESTION {
        currentQuestionIndex := currentQuestionIndex + 1;
      } else {
        assert AllAnswered(answers[..]);
        AnsweredLevelsKnown(answers[..]);
        SaveResults(userID);
        showSummary := true;
      }
    }

    /** The completion of `storeTwoWeekCheckAndGeneratePlan`: an error
        raises the alert; success completes the check and shows the
        summary. */
    method SaveCompleted(error: Option<Error>)
      modifies this`errorMessage, this`showErrorAlert, this`checkCompleted, this`showSummary
      ensures error.Some? ==>
        && showErrorAlert && errorMessage == "Failed to save results. Please try again."
        && checkCompleted == old(checkCompleted) && showSummary == old(showSummary)
      ensures error.None? ==>
        && checkCompleted && showSummary && CurrentScreen() == SummaryScreen
        && errorMessage == old(errorMessage) && showErrorAlert == old(showErrorAlert)
      ensures answers == old(answers) && currentQuestionIndex == old(currentQuestionIndex) && submissions == old(submissions)
      ensures showIntroduction == old(showIntroduction) && showResults == old(showResults)
    {
      if error.Some? {
        errorMessage := "Failed to save results. Please try again.";
        showErrorAlert := true;
      } else {
        checkCompleted := true;
        showSummary := true;
      }
    }

    /** `onAppear` with `checkForExistingResults`: with no user nothing
        happens; a check from fewer than 14 days ago is shown again from its
        scores (a missing score counting as 0), otherwise the introduction
        is shown. */
    method OnAppear(userID: Option<string>, latest: LatestCheck, today: int)
      requires Valid()
      modifies this`answers, this`showResults, this`showIntroduction
      ensures Valid()
      ensures userID.None? ==> answers == old(answers) && showResults == old(showResults) && showIntroduction == old(showIntroduction)
      ensures userID.Some? && ShowsPreviousResults(latest, today) ==>
        && fresh(answers) && answers[..] == Reconstructed(OrZero(latest.gadScore), OrZero(latest.phqScore))
        && showResults && showIntroduction == old(showIntroduction) && CurrentScreen() == SummaryScreen
      ensures userID.Some? && !ShowsPreviousResults(latest, today) ==>
        && answers == old(answers) && showIntroduction && showResults == old(showResults)
        && CurrentScreen() == if old(showResults || showSummary) then SummaryScreen else IntroductionScreen
      ensures currentQuestionIndex == old(currentQuestionIndex) && submissions == old(submissions) && showSummary == old(showSummary)
    {
      if userID.None? {
        return;
      }
      if latest.date.Some? {
        var daysSinceLastCheck := DaysBetween(latest.date.value, today);
        if daysSinceLastCheck < RECHECK_DAYS {
          answers := ReconstructAnswers(OrZero(latest.gadScore), OrZero(latest.phqScore));
          showResults := true;
        } else {
          showIntroduction := true;
        }
      } else {
        showIntroduction := true;
      }
    }
  }
}
