/** The practice-test session (PracticeTest): the questions of one level,
    the recorded answers and revealed results keyed by question id, the
    current index and the fill-in text box, with the score, the completion
    summary and its banner. */
module PracticeTest {
  import opened Text
  import opened QuestionBank
  import opened Options

  // ---------------------------------------------------------------
  // Score
  // ---------------------------------------------------------------

  /** The ids of a list of questions. */
  function Ids(qs: seq<Question>): set<int> {
    set q | q in qs :: q.id
  }

  /** `questions.find(qq => qq.id === id)`: the first question with the id. */
  function Find(qs: seq<Question>, id: int): (r: Option<Question>)
    ensures r.Some? ==> r.value in qs && r.value.id == id
    ensures r.Some? ==> exists i :: 0 <= i < |qs| && qs[i] == r.value && forall j :: 0 <= j < i ==> qs[j].id != id
    ensures r.None? <==> id !in Ids(qs)
  {
    if qs == [] then None
    else if qs[0].id == id then Some(qs[0])
    else
      var r := Find(qs[1..], id);
      assert Ids(qs) == {qs[0].id} + Ids(qs[1..]);
      r
  }

  /** The stored answer is exactly the question's correct answer. */
  predicate Correct(qs: seq<Question>, id: int, ans: string) {
    var q := Find(qs, id);
    q.Some? && q.value.correctAnswer == ans
  }

  /** `Object.keys(answers).length`. */
  function TotalAnswered(answers: map<int, string>): nat {
    |answers.Keys|
  }

  /** The answered ids whose answer is correct, case-sensitively. */
  function CorrectIds(qs: seq<Question>, answers: map<int, string>): (ids: set<int>)
    ensures ids <= answers.Keys
    ensures forall id :: id in ids <==> id in answers && Correct(qs, id, answers[id])
  {
    set id | id in answers.Keys && Correct(qs, id, answers[id])
  }

  /** `correctCount`. */
  function CorrectCount(qs: seq<Question>, answers: map<int, string>): nat {
    |CorrectIds(qs, answers)|
  }

  /** A list of questions has no more ids than entries. */
  lemma {:induction false} IdsBound(qs: seq<Question>)
    ensures |Ids(qs)| <= |qs|
  {
    if qs != [] {
      assert Ids(qs) == {qs[0].id} + Ids(qs[1..]);
      IdsBound(qs[1..]);
    }
  }

  /** A subset is no larger than its superset. */
  lemma SubsetBound(a: set<int>, b: set<int>)
    requires a <= b
    ensures |a| <= |b|
  {
    assert b == a + (b - a);
  }

  /** While answers are only recorded for the session's questions,
      0 <= correctCount <= totalAnswered <= number of questions. */
  lemma ScoreBounds(qs: seq<Question>, answers: map<int, string>)
    requires answers.Keys <= Ids(qs)
    ensures CorrectCount(qs, answers) <= TotalAnswered(answers) <= |qs|
  {
    SubsetBound(CorrectIds(qs, answers), answers.Keys);
    SubsetBound(answers.Keys, Ids(qs));
    IdsBound(qs);
  }

  // ---------------------------------------------------------------
  // Completion banner
  // ---------------------------------------------------------------

  datatype Banner = Excellent | GoodEffort | KeepGoing

  /** `Math.ceil(total * 0.8)` and `Math.ceil(total * 0.5)`, as exact
      rational ceilings. */
  function Ceil80(total: nat): nat { (4 * total + 4) / 5 }

  function Ceil50(total: nat): nat { (total + 1) / 2 }

  function BannerFor(correct: nat, total: nat): Banner {
    if correct >= Ceil80(total) then Excellent
    else if correct >= Ceil50(total) then GoodEffort
    else KeepGoing
  }

  /** The banner thresholds in integer form: at least four fifths correct is
      "Excellent work!", else at least half is "Good effort", else "Keep going". */
  lemma BannerThresholds(correct: nat, total: nat)
    ensures BannerFor(correct, total) == Excellent <==> 5 * correct >= 4 * total
    ensures BannerFor(correct, total) == GoodEffort <==> 5 * correct < 4 * total && 2 * correct >= total
    ensures BannerFor(correct, total) == KeepGoing <==> 2 * correct < total
  {
    CeilingDivision(4 * total, 5, correct);
    CeilingDivision(total, 2, correct);
  }

  /** `c >= ceil(x / d)` exactly when `d * c >= x`. */
  lemma CeilingDivision(x: nat, d: nat, c: nat)
    requires d == 2 || d == 5
    ensures c >= (x + d - 1) / d <==> d * c >= x
  {
  }

  /** With the five questions of every level: 4 or 5 correct is
      "Excellent", 3 is "Good effort", 2 or fewer "Keep going". */
  lemma BannerForFive(correct: nat)
    requires correct <= 5
    ensures BannerFor(correct, 5) == (if correct >= 4 then Excellent else if correct == 3 then GoodEffort else KeepGoing)
  {
    BannerThresholds(correct, 5);
  }

  /** Outside the inherited keys the intended label selects the questions
      the page selects. */
  lemma SessionAgrees(level: Option<string>)
    ensures !(level.Some? && level.value in PrototypeKeys) ==>
      Select(Label(LevelLabel(level))) == Select(LevelLabelAsWritten(level))
  {
    if !(level.Some? && level.value in PrototypeKeys) {
      LevelLabelAgrees(level);
    }
  }

  // ---------------------------------------------------------------
  // The session
  // ---------------------------------------------------------------

  /** The page mounted on the route's level: the level's questions, with the
      intended label; by `SessionAgrees` these are the page's own questions
      on every level but the inherited keys. */
  method Mount(level: Option<string>) returns (session: TestSession)
    ensures fresh(session) && session.Valid()
    ensures session.questions == Select(Label(LevelLabel(level)))
    ensures session.currentIdx == 0 && session.answers == map[]
    ensures session.showResult == {} && session.fillInput == []
  {
    var qs := Select(Label(LevelLabel(level)));
    session := new TestSession(qs);
  }

  class TestSession {
    const questions: seq<Question>
    var currentIdx: int
    var answers: map<int, string>
    var showResult: set<int>
    var fillInput: string

    /** Answers and revealed results are written and cleared together, only
        for the session's questions, and the index stays on a question. */
    predicate Valid()
      reads this
    {
      && answers.Keys == showResult
      && showResult <= Ids(questions)
      && 0 <= currentIdx
      && (questions != [] ==> currentIdx < |questions|)
      && (questions == [] ==> currentIdx == 0)
    }

    /** A session over the given questions, on the first one, with nothing
        answered or typed. */
    constructor (qs: seq<Question>)
      ensures Valid()
      ensures questions == qs
      ensures currentIdx == 0 && answers == map[] && showResult == {} && fillInput == []
    {
      questions, currentIdx := qs, 0;
      answers, showResult, fillInput := map[], {}, [];
    }

    /** `questions[currentIdx]`, absent when there are no questions. */
    function Current(): (q: Option<Question>)
      reads this
      requires Valid()
      ensures q.None? <==> questions == []
      ensures q.Some? ==> q.value == questions[currentIdx]
    {
      if currentIdx < |questions| then Some(questions[currentIdx]) else None
    }

    /** The score shown in the header and the summary. */
    function Score(): (c: nat)
      reads this
      requires Valid()
      ensures c <= TotalAnswered(answers) <= |questions|
    {
      ScoreBounds(questions, answers);
      CorrectCount(questions, answers)
    }

    /** The summary is shown once every question has an answer. */
    predicate Complete()
      reads this
    {
      TotalAnswered(answers) == |questions|
    }

    /** submitAnswer: nothing happens without a question or once its result
        is revealed; otherwise the answer is recorded for the current
        question's id only and its result revealed. */
    method SubmitAnswer(ans: string)
      requires Valid()
      modifies this
      ensures Valid()
      ensures currentIdx == old(currentIdx) && fillInput == old(fillInput)
      ensures old(Current()).None? || old(Current()).value.id in old(showResult) ==>
        answers == old(answers) && showResult == old(showResult)
      ensures old(Current()).Some? && old(Current()).value.id !in old(showResult) ==>
        var id := old(Current()).value.id;
        answers == old(answers)[id := ans] && showResult == old(showResult) + {id}
    {
      if currentIdx < |questions| {
        var id := questions[currentIdx].id;
        if id !in showResult {
          answers := answers[id := ans];
          showResult := showResult + {id};
        }
      }
    }

    /** Two submits in a row: the first answer is the one recorded, and the
        second, whatever it is, changes nothing. */
    method SubmitTwice(first: string, second: string)
      requires Valid()
      modifies this
      ensures Valid()
      ensures currentIdx == old(currentIdx) && fillInput == old(fillInput)
      ensures old(Current()).None? || old(Current()).value.id in old(showResult) ==>
        answers == old(answers) && showResult == old(showResult)
      ensures old(Current()).Some? && old(Current()).value.id !in old(showResult) ==>
        var id := old(Current()).value.id;
        answers == old(answers)[id := first] && showResult == old(showResult) + {id}
    {
      SubmitAnswer(first);
      SubmitAnswer(second);
    }

    /** The fill-in Submit button and the Enter key: the text, trimmed and
        lower-cased, is submitted unless it trims to nothing. */
    method SubmitFill()
      requires Valid()
      modifies this
      ensures Valid()
      ensures currentIdx == old(currentIdx) && fillInput == old(fillInput)
      ensures Trim(old(fillInput)) == [] ==> answers == old(answers) && showResult == old(showResult)
      ensures old(Current()).None? || old(Current()).value.id in old(showResult) ==>
        answers == old(answers) && showResult == old(showResult)
      ensures Trim(old(fillInput)) != [] && old(Current()).Some? && old(Current()).value.id !in old(showResult) ==>
        var id := old(Current()).value.id;
        answers == old(answers)[id := ToLower(Trim(old(fillInput)))] && showResult == old(showResult) + {id}
    {
      var t := Trim(fillInput);
      if t != [] {
        SubmitAnswer(ToLower(t));
      }
    }

    /** Typing in the fill-in box, or picking one of its hints. */
    method SetFill(text: string)
      requires Valid()
      modifies this
      ensures Valid()
      ensures fillInput == text
      ensures currentIdx == old(currentIdx) && answers == old(answers) && showResult == old(showResult)
    {
      fillInput := text;
    }

    /** goNext: one question on, except at the last; the text box is cleared
        on a move. */
    method GoNext()
      requires Valid()
      modifies this
      ensures Valid()
      ensures old(currentIdx) < |questions| - 1 ==> currentIdx == old(currentIdx) + 1 && fillInput == []
      ensures old(currentIdx) >= |questions| - 1 ==> currentIdx == old(currentIdx) && fillInput == old(fillInput)
      ensures answers == old(answers) && showResult == old(showResult)
    {
      if currentIdx < |questions| - 1 {
        currentIdx := currentIdx + 1;
        fillInput := [];
      }
    }

    /** goPrev: one question back, except at the first. */
    method GoPrev()
      requires Valid()
      modifies this
      ensures Valid()
      ensures old(currentIdx) > 0 ==> currentIdx == old(currentIdx) - 1 && fillInput == []
      ensures old(currentIdx) == 0 ==> currentIdx == 0 && fillInput == old(fillInput)
      ensures answers == old(answers) && showResult == old(showResult)
    {
      if currentIdx > 0 {
        currentIdx := currentIdx - 1;
        fillInput := [];
      }
    }

    /** A progress dot: any question, answered or not. */
    method JumpTo(i: int)
      requires Valid() && 0 <= i < |questions|
      modifies this
      ensures Valid()
      ensures currentIdx == i && fillInput == []
      ensures answers == old(answers) && showResult == old(showResult)
    {
      currentIdx := i;
      fillInput := [];
    }

    /** Retry: back to the first question with nothing answered. */
    method Retry()
      requires Valid()
      modifies this
      ensures Valid()
      ensures currentIdx == 0 && answers == map[] && showResult == {} && fillInput == []
      ensures Score() == 0 && (Complete() <==> questions == [])
    {
      answers := map[];
      showResult := {};
      currentIdx := 0;
      fillInput := [];
    }
  }

  /** A bank question answered through the fill-in box: its stored answer
      typed in any letter case and with any white space around it is
      recorded as exactly the stored answer, so it counts as correct. */
  lemma FillInAnswerMatches(q: Question, before: string, typed: string, after: string)
    requires q in Bank() && q.kind == FillBlank
    requires AllSpace(before) && AllSpace(after) && ToLower(typed) == q.correctAnswer
    ensures q.correctAnswer != []
    ensures ToLower(Trim(before + typed + after)) == q.correctAnswer
  {
    BankInvariant();
    var k :| 0 <= k < |Bank()| && Bank()[k] == q;
    assert WellFormed(Bank()[k]);
    assert q.correctAnswer in q.blanks.value;
    NonEmptyAnswers(q);
    var n := |typed| - 1;
    LowerCharSpace(typed[0]);
    LowerCharSpace(typed[n]);
    assert q.correctAnswer[0] == LowerChar(typed[0]);
    assert q.correctAnswer[n] == LowerChar(typed[n]);
    TrimPadded(before, typed, after);
  }

  /** No fill-in answer of the bank is empty. */
  lemma NonEmptyAnswers(q: Question)
    requires q in Bank()
    ensures q.correctAnswer != []
  {
    var k :| 0 <= k < |Bank()| && Bank()[k] == q;
    assert |Bank()| == 20;
  }
}
