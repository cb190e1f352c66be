/**
 * src/components/PawMood.tsx: the five-question mood-reading quiz. The
 * component's state slots are the fields of `PawMoodGame`; the score bands
 * are pure functions of the score.
 */
module PawMood {
  import opened Wrappers
  import opened Types

  const MaxQuestions: nat := 5

  /** One entry of the answer log. */
  datatype Answer = Answer(question: int, correct: bool, scenario: string, selectedMood: string, correctMood: string)

  /** The number of correct entries in an answer log. */
  function CountCorrect(answers: seq<Answer>): (n: nat)
    ensures n <= |answers|
  {
    if answers == [] then 0
    else (if answers[0].correct then 1 else 0) + CountCorrect(answers[1..])
  }

  /** Appending one entry adds one exactly when that entry is correct. */
  lemma {:induction false} CountCorrectAppend(answers: seq<Answer>, a: Answer)
    ensures CountCorrect(answers + [a]) == CountCorrect(answers) + (if a.correct then 1 else 0)
  {
    if answers != [] {
      assert (answers + [a])[1..] == answers[1..] + [a];
      CountCorrectAppend(answers[1..], a);
    }
  }

  /** The score is full exactly when every answer was correct, and zero exactly when none was. */
  lemma {:induction false} CountCorrectExtremes(answers: seq<Answer>)
    ensures CountCorrect(answers) == |answers| <==> forall i :: 0 <= i < |answers| ==> answers[i].correct
    ensures CountCorrect(answers) == 0 <==> forall i :: 0 <= i < |answers| ==> !answers[i].correct
  {
    if answers != [] {
      CountCorrectExtremes(answers[1..]);
      assert forall i :: 1 <= i < |answers| ==> answers[i] == answers[1..][i - 1];
    }
  }

  /** `perm` lists every index below `n` exactly once. */
  predicate IsPermutation(perm: seq<nat>, n: nat) {
    && |perm| == n
    && (forall i :: 0 <= i < n ==> perm[i] < n)
    && (forall i, j :: 0 <= i < j < n ==> perm[i] != perm[j])
    && (forall v: nat :: v < n ==> v in perm)
  }

  /** The options in the order `perm` picks them: the outcome of the random-comparator sort. */
  function Permute<T>(s: seq<T>, perm: seq<nat>): (r: seq<T>)
    requires IsPermutation(perm, |s|)
    ensures |r| == |s|
  {
    seq(|s|, i requires 0 <= i < |s| => s[perm[i]])
  }

  /** Dropping the position of the largest index leaves a permutation of the smaller indices. */
  function Without(perm: seq<nat>, k: nat): (rest: seq<nat>)
    requires k < |perm|
    ensures |rest| == |perm| - 1
    ensures forall i :: 0 <= i < |rest| ==> rest[i] == if i < k then perm[i] else perm[i + 1]
  {
    perm[..k] + perm[k + 1..]
  }

  lemma WithoutIsPermutation(perm: seq<nat>, n: nat, k: nat)
    requires IsPermutation(perm, n) && k < n && perm[k] == n - 1
    ensures IsPermutation(Without(perm, k), n - 1)
  {
    var rest := Without(perm, k);
    forall v: nat | v < n - 1 ensures v in rest {
      assert v in perm;
      var j :| 0 <= j < n && perm[j] == v;
      if j < k {
        assert rest[j] == v;
      } else {
        assert rest[j - 1] == v;
      }
    }
  }

  /** Shuffling by `perm` is shuffling the first n-1 elements by the rest of `perm` and putting the last at position `k`. */
  lemma PermuteSplit<T>(s: seq<T>, perm: seq<nat>, k: nat)
    requires |s| > 0 && IsPermutation(perm, |s|) && k < |s| && perm[k] == |s| - 1
    requires IsPermutation(Without(perm, k), |s| - 1)
    ensures Permute(s, perm) ==
      Permute(s[..|s| - 1], Without(perm, k))[..k] + [s[|s| - 1]] + Permute(s[..|s| - 1], Without(perm, k))[k..]
  {
  }

  /** Inserting one element anywhere adds it once to the multiset. */
  lemma MultisetInsert<T>(r: seq<T>, k: nat, x: T)
    requires k <= |r|
    ensures multiset(r[..k] + [x] + r[k..]) == multiset(r) + multiset{x}
  {
    assert r == r[..k] + r[k..];
  }

  /** A shuffle keeps every option, each as often as before. */
  lemma {:induction false} PermuteMultiset<T>(s: seq<T>, perm: seq<nat>)
    requires IsPermutation(perm, |s|)
    ensures multiset(Permute(s, perm)) == multiset(s)
    decreases |s|
  {
    var n := |s|;
    if n == 0 {
      return;
    }
    assert n - 1 in perm;
    var k :| 0 <= k < n && perm[k] == n - 1;
    var init, rest := s[..n - 1], Without(perm, k);
    WithoutIsPermutation(perm, n, k);
    PermuteMultiset(init, rest);
    PermuteSplit(s, perm, k);
    MultisetInsert(Permute(init, rest), k, s[n - 1]);
    assert s == init + [s[n - 1]];
  }

  const NoScenarioAlert := "Failed to generate scenario. Please try again."
  const ErrorAlert := "Error generating scenario. Please try again."

  /** The result of one `generateNewScenario` request. */
  datatype ScenarioOutcome =
    | Generated(scenario: PetMoodScenario)
    | NoScenario       // the generator returned `null`
    | GenerationError  // reading the pet's stored personality threw

  /** The score as a percentage, `(score / maxQuestions) * 100`. */
  function Percentage(score: nat): (p: real)
    ensures p == 20.0 * score as real
  {
    (score as real / MaxQuestions as real) * 100.0
  }

  datatype Color = Green | Yellow | Red

  /** `getScoreColor`. */
  function ScoreColor(score: nat): (c: Color)
    ensures c == Green <==> score >= 4
    ensures c == Yellow <==> score == 3
    ensures c == Red <==> score <= 2
  {
    var p := Percentage(score);
    if p >= 80.0 then Green else if p >= 60.0 then Yellow else Red
  }

  /** Which of the four final messages `getScoreMessage` picks. */
  datatype Verdict = Perfect | Excellent | Good | KeepPracticing

  function ScoreVerdict(score: nat): (v: Verdict)
    ensures v == Perfect <==> score == MaxQuestions
    ensures v == Excellent <==> score >= 4 && score != MaxQuestions
    ensures v == Good <==> score == 3
    ensures v == KeepPracticing <==> score <= 2
  {
    var p := Percentage(score);
    if p == 100.0 then Perfect
    else if p >= 80.0 then Excellent
    else if p >= 60.0 then Good
    else KeepPracticing
  }

  /** The colour of the score and the message agree: green for the top two messages, yellow for "Good", red otherwise. */
  lemma ColorMatchesVerdict(score: nat)
    ensures ScoreColor(score) == Green <==> ScoreVerdict(score) in {Perfect, Excellent}
    ensures ScoreColor(score) == Yellow <==> ScoreVerdict(score) == Good
    ensures ScoreColor(score) == Red <==> ScoreVerdict(score) == KeepPracticing
  {
  }

  /** `m` holds `name` starting at position `i`. */
  predicate NamesAt(m: string, name: string, i: nat) {
    i + |name| <= |m| && m[i..i + |name|] == name
  }

  /** The fixed parts of the three messages that name the pet, one prefix and one suffix per band. */
  const PerfectPrefix := "Perfect! You know "
  const PerfectSuffix := " inside and out! \U{1F3C6}"
  const ExcellentPrefix := "Excellent! You're really in tune with "
  const ExcellentSuffix := "! \U{1F31F}"
  const GoodPrefix := "Good job! You're learning "
  const GoodSuffix := "'s moods well! \U{1F44D}"
  const KeepPracticingOpening := "Keep practicing!"
  const KeepPracticingMessage := KeepPracticingOpening + " Every pet parent learns over time! \U{1F4AA}"

  /** `m` is `name` framed by `prefix` and `suffix`. */
  predicate Framed(m: string, prefix: string, name: string, suffix: string) {
    && |m| == |prefix| + |name| + |suffix|
    && NamesAt(m, prefix, 0)
    && NamesAt(m, name, |prefix|)
    && NamesAt(m, suffix, |prefix| + |name|)
  }

  /**
   * `getScoreMessage`: which band's text is shown is decided by how the
   * message opens; the three upper bands name the pet between the band's
   * fixed prefix and suffix, and the lowest band is the fixed encouragement.
   */
  function ScoreMessage(score: nat, petName: string): (m: string)
    ensures ScoreVerdict(score) == Perfect <==> NamesAt(m, PerfectPrefix, 0)
    ensures ScoreVerdict(score) == Excellent <==> NamesAt(m, ExcellentPrefix, 0)
    ensures ScoreVerdict(score) == Good <==> NamesAt(m, GoodPrefix, 0)
    ensures ScoreVerdict(score) == KeepPracticing <==> m == KeepPracticingMessage
    ensures ScoreVerdict(score) == Perfect ==> Framed(m, PerfectPrefix, petName, PerfectSuffix)
    ensures ScoreVerdict(score) == Excellent ==> Framed(m, ExcellentPrefix, petName, ExcellentSuffix)
    ensures ScoreVerdict(score) == Good ==> Framed(m, GoodPrefix, petName, GoodSuffix)
  {
    var m := match ScoreVerdict(score)
      case Perfect => Named(PerfectPrefix, petName, PerfectSuffix)
      case Excellent => Named(ExcellentPrefix, petName, ExcellentSuffix)
      case Good => Named(GoodPrefix, petName, GoodSuffix)
      case KeepPracticing => KeepPracticingMessage;
    OpeningsDiffer(m);
    m
  }

  /** No message opens with two of the band prefixes, and none that opens with one is the lowest band's text. */
  lemma OpeningsDiffer(m: string)
    ensures NamesAt(m, PerfectPrefix, 0) ==> !NamesAt(m, ExcellentPrefix, 0) && !NamesAt(m, GoodPrefix, 0)
    ensures NamesAt(m, ExcellentPrefix, 0) ==> !NamesAt(m, GoodPrefix, 0)
    ensures m == KeepPracticingMessage ==>
      !NamesAt(m, PerfectPrefix, 0) && !NamesAt(m, ExcellentPrefix, 0) && !NamesAt(m, GoodPrefix, 0)
  {
    if m != [] {
      assert NamesAt(m, PerfectPrefix, 0) ==> m[0] == m[0..|PerfectPrefix|][0] == 'P';
      assert NamesAt(m, ExcellentPrefix, 0) ==> m[0] == m[0..|ExcellentPrefix|][0] == 'E';
      assert NamesAt(m, GoodPrefix, 0) ==> m[0] == m[0..|GoodPrefix|][0] == 'G';
      assert m == KeepPracticingMessage ==> m[0] == KeepPracticingOpening[0] == 'K';
    }
  }

  /** A message with the pet's name between a prefix and a suffix. */
  function Named(prefix: string, petName: string, suffix: string): (m: string)
    ensures Framed(m, prefix, petName, suffix)
    ensures m[..|prefix|] == prefix && m[|prefix| + |petName|..] == suffix
  {
    var m := prefix + petName + suffix;
    assert m[..|prefix|] == prefix;
    assert m[|prefix|..|prefix| + |petName|] == petName;
    assert m[|prefix| + |petName|..] == suffix;
    m
  }

  /**
   * The log entry for choosing `mood` on question `question`: correct exactly
   * when a scenario is shown and `mood` is its correct mood; with no scenario
   * the texts are empty.
   */
  function AnswerFor(scenario: Option<PetMoodScenario>, question: int, mood: string): (a: Answer)
    ensures a.question == question && a.selectedMood == mood
    ensures a.correct <==> scenario.Some? && mood == scenario.value.correct_mood
    ensures scenario.Some? ==> a.scenario == scenario.value.scenario && a.correctMood == scenario.value.correct_mood
    ensures scenario.None? ==> a.scenario == "" && a.correctMood == ""
  {
    match scenario
    case Some(sc) => Answer(question, mood == sc.correct_mood, sc.scenario, mood, sc.correct_mood)
    case None => Answer(question, false, "", mood, "")
  }

  /** The log lists questions in order, none past `current`. */
  ghost predicate LogOrdered(answers: seq<Answer>, current: int) {
    && (forall i :: 0 <= i < |answers| ==> 1 <= answers[i].question <= current)
    && (forall i, j :: 0 <= i < j < |answers| ==> answers[i].question <= answers[j].question)
  }

  /** Logging the current question keeps the log ordered. */
  lemma LogStaysOrdered(answers: seq<Answer>, entry: Answer, current: int)
    requires LogOrdered(answers, current) && 1 <= current && entry.question == current
    ensures LogOrdered(answers + [entry], current)
  {
  }

  /** The value of every state slot of the component. */
  datatype Quiz = Quiz(
    currentScenario: Option<PetMoodScenario>,
    isLoading: bool,
    selectedMood: string,
    showResult: bool,
    score: nat,
    currentQuestion: int,
    gameComplete: bool,
    answers: seq<Answer>)

  class PawMoodGame {
    var currentScenario: Option<PetMoodScenario>
    var isLoading: bool
    var selectedMood: string
    var showResult: bool
    var score: nat
    var currentQuestion: int
    var gameComplete: bool
    var answers: seq<Answer>

    function Snap(): Quiz
      reads this
    {
      Quiz(currentScenario, isLoading, selectedMood, showResult, score, currentQuestion, gameComplete, answers)
    }

    /**
     * The score counts the correct entries of the log, the question counter
     * stays in 1..5, and the log lists questions in order, none past the
     * current one.
     */
    ghost predicate Valid()
      reads this
    {
      && score == CountCorrect(answers)
      && 1 <= currentQuestion <= MaxQuestions
      && LogOrdered(answers, currentQuestion)
    }

    /** The initial `useState` values (before the mount effect asks for the first scenario). */
    constructor ()
      ensures Valid()
      ensures Snap() == Quiz(None, false, "", false, 0, 1, false, [])
    {
      currentScenario, isLoading, selectedMood, showResult := None, false, "", false;
      score, currentQuestion, gameComplete, answers := 0, 1, false, [];
    }

    /**
     * `generateNewScenario`: clear the selection and the result; a generated
     * scenario is shown with its options shuffled by `perm`; otherwise the
     * previous scenario stays and an alert says why.
     */
    method GenerateNewScenario(outcome: ScenarioOutcome, perm: seq<nat>) returns (alert: Option<string>)
      requires Valid()
      requires outcome.Generated? ==> IsPermutation(perm, |outcome.scenario.mood_options|)
      modifies this
      ensures Valid()
      ensures Snap() == old(Snap()).(
        selectedMood := "", showResult := false, isLoading := false,
        currentScenario := if outcome.Generated? then
          Some(outcome.scenario.(mood_options := Permute(outcome.scenario.mood_options, perm)))
        else old(currentScenario))
      ensures outcome.Generated? ==>
        alert.None? && multiset(currentScenario.value.mood_options) == multiset(outcome.scenario.mood_options)
      ensures outcome.NoScenario? ==> alert == Some(NoScenarioAlert)
      ensures outcome.GenerationError? ==> alert == Some(ErrorAlert)
    {
      isLoading, selectedMood, showResult := true, "", false;
      alert := None;
      match outcome {
        case Generated(scenario) =>
          var shuffled := Permute(scenario.mood_options, perm);
          PermuteMultiset(scenario.mood_options, perm);
          currentScenario := Some(scenario.(mood_options := shuffled));
        case NoScenario =>
          alert := Some(NoScenarioAlert);
        case GenerationError =>
          alert := Some(ErrorAlert);
      }
      isLoading := false;
    }

    /**
     * `handleMoodSelection`: ignored while the result is shown; otherwise
     * latch the result, score a match with the correct mood and log one entry
     * for the current question.
     */
    method HandleMoodSelection(mood: string)
      requires Valid()
      modifies this
      ensures Valid()
      ensures old(showResult) ==> Snap() == old(Snap())
      ensures !old(showResult) ==>
        var entry := AnswerFor(old(currentScenario), old(currentQuestion), mood);
        Snap() == old(Snap()).(
          selectedMood := mood, showResult := true,
          score := old(score) + (if entry.correct then 1 else 0),
          answers := old(answers) + [entry])
    {
      if showResult {
        return;
      }
      var entry := AnswerFor(currentScenario, currentQuestion, mood);
      CountCorrectAppend(answers, entry);
      LogStaysOrdered(answers, entry, currentQuestion);
      selectedMood, showResult := mood, true;
      score := score + (if entry.correct then 1 else 0);
      answers := answers + [entry];
    }

    /** `handleNextQuestion`: after the last question the game is complete; otherwise move on and ask for a scenario. */
    method HandleNextQuestion(outcome: ScenarioOutcome, perm: seq<nat>) returns (alert: Option<string>)
      requires Valid()
      requires outcome.Generated? ==> IsPermutation(perm, |outcome.scenario.mood_options|)
      modifies this
      ensures Valid()
      ensures old(currentQuestion) >= MaxQuestions ==> alert.None? && Snap() == old(Snap()).(gameComplete := true)
      ensures old(currentQuestion) < MaxQuestions ==> Snap() == old(Snap()).(
        currentQuestion := old(currentQuestion) + 1,
        selectedMood := "", showResult := false, isLoading := false,
        currentScenario := if outcome.Generated? then
          Some(outcome.scenario.(mood_options := Permute(outcome.scenario.mood_options, perm)))
        else old(currentScenario))
    ensures old(currentQuestion) < MaxQuestions ==>
      alert == match outcome
        case Generated(_) => None
        case NoScenario => Some(NoScenarioAlert)
        case GenerationError => Some(ErrorAlert)
    ensures old(currentQuestion) < MaxQuestions && outcome.Generated? ==>
      multiset(currentScenario.value.mood_options) == multiset(outcome.scenario.mood_options)
    {
      alert := None;
      if currentQuestion >= MaxQuestions {
        gameComplete := true;
      } else {
        currentQuestion := currentQuestion + 1;
        alert := GenerateNewScenario(outcome, perm);
      }
    }

    /** `handlePlayAgain`: reset score, counter, completion and log, then ask for a scenario. */
    method HandlePlayAgain(outcome: ScenarioOutcome, perm: seq<nat>) returns (alert: Option<string>)
      requires Valid()
      requires outcome.Generated? ==> IsPermutation(perm, |outcome.scenario.mood_options|)
      modifies this
      ensures Valid()
      ensures Snap() == old(Snap()).(
        score := 0, currentQuestion := 1, gameComplete := false, answers := [],
        selectedMood := "", showResult := false, isLoading := false,
        currentScenario := if outcome.Generated? then
          Some(outcome.scenario.(mood_options := Permute(outcome.scenario.mood_options, perm)))
        else old(currentScenario))
    ensures alert == match outcome
        case Generated(_) => None
        case NoScenario => Some(NoScenarioAlert)
        case GenerationError => Some(ErrorAlert)
    ensures outcome.Generated? ==>
      multiset(currentScenario.value.mood_options) == multiset(outcome.scenario.mood_options)
    {
      score := 0;
      currentQuestion := 1;
      gameComplete := false;
      answers := [];
      alert := GenerateNewScenario(outcome, perm);
    }
  }
}
