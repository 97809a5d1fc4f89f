/**
 * The assessment wizard: the question list, the index of the question on
 * screen, the table of answers given so far, and the submission that turns
 * the answers into a skill vector in the store.
 */
module ChatAssessment {
  import opened Types
  import opened Store
  import opened QuestionCard

  /** `answers.filter(a => a.questionId !== questionId)` */
  function WithoutQuestion(answers: seq<AssessmentAnswer>, questionId: string): (r: seq<AssessmentAnswer>)
    ensures |r| <= |answers|
    ensures forall i :: 0 <= i < |r| ==> r[i].questionId != questionId
    ensures forall x :: x in r <==> x in answers && x.questionId != questionId
  {
    if |answers| == 0 then []
    else if answers[0].questionId == questionId then WithoutQuestion(answers[1..], questionId)
    else
      assert answers == [answers[0]] + answers[1..];
      [answers[0]] + WithoutQuestion(answers[1..], questionId)
  }

  lemma {:induction false} WithoutQuestionAppend(a: seq<AssessmentAnswer>, b: seq<AssessmentAnswer>, questionId: string)
    ensures WithoutQuestion(a + b, questionId) == WithoutQuestion(a, questionId) + WithoutQuestion(b, questionId)
  {
    if |a| == 0 {
      assert a + b == b;
    } else {
      assert (a + b)[1..] == a[1..] + b;
      WithoutQuestionAppend(a[1..], b, questionId);
    }
  }

  lemma {:induction false} WithoutQuestionIdempotent(answers: seq<AssessmentAnswer>, questionId: string)
    ensures WithoutQuestion(WithoutQuestion(answers, questionId), questionId) == WithoutQuestion(answers, questionId)
  {
    if |answers| > 0 {
      WithoutQuestionIdempotent(answers[1..], questionId);
    }
  }

  /** `handleAnswer`: drop any earlier answer to the same question, then append the new one. */
  function RecordAnswer(answers: seq<AssessmentAnswer>, a: AssessmentAnswer): (r: seq<AssessmentAnswer>)
    ensures |r| > 0 && r[|r| - 1] == a
    ensures forall i :: 0 <= i < |r| - 1 ==> r[i].questionId != a.questionId
    ensures forall x :: x in r && x.questionId != a.questionId <==> x in answers && x.questionId != a.questionId
  {
    WithoutQuestion(answers, a.questionId) + [a]
  }

  /** The answers to every other question are exactly the old ones, in their old order. */
  lemma RecordAnswerKeepsOthers(answers: seq<AssessmentAnswer>, a: AssessmentAnswer)
    ensures WithoutQuestion(RecordAnswer(answers, a), a.questionId) == WithoutQuestion(answers, a.questionId)
  {
    WithoutQuestionAppend(WithoutQuestion(answers, a.questionId), [a], a.questionId);
    WithoutQuestionIdempotent(answers, a.questionId);
    assert WithoutQuestion([a], a.questionId) == [];
  }

  /** Answering the same question twice with the same answer is answering it once. */
  lemma RecordAnswerIdempotent(answers: seq<AssessmentAnswer>, a: AssessmentAnswer)
    ensures RecordAnswer(RecordAnswer(answers, a), a) == RecordAnswer(answers, a)
  {
    RecordAnswerKeepsOthers(answers, a);
  }

  /** `answers.find(a => a.questionId === id)` */
  function FindAnswer(answers: seq<AssessmentAnswer>, questionId: string): (r: Option<AssessmentAnswer>)
    ensures r.None? <==> forall i :: 0 <= i < |answers| ==> answers[i].questionId != questionId
    ensures r.Some? ==> exists k :: 0 <= k < |answers| && answers[k] == r.value && r.value.questionId == questionId
                                    && forall j :: 0 <= j < k ==> answers[j].questionId != questionId
  {
    if |answers| == 0 then None
    else if answers[0].questionId == questionId then Some(answers[0])
    else
      var r := FindAnswer(answers[1..], questionId);
      assert forall j :: 1 <= j < |answers| ==> answers[j] == answers[1..][j - 1];
      r
  }

  /** `getCurrentAnswer`: the answer to the question on screen, none past the end of the list. */
  function CurrentAnswer(answers: seq<AssessmentAnswer>, questions: seq<AssessmentQuestion>, index: int): (r: Option<AssessmentAnswer>)
    ensures !(0 <= index < |questions|) ==> r.None?
    ensures 0 <= index < |questions| ==> r == FindAnswer(answers, questions[index].id)
  {
    if 0 <= index < |questions| then FindAnswer(answers, questions[index].id) else None
  }

  /** After answering the question on screen, the wizard hands that answer back to the card. */
  lemma AnswerReadBack(answers: seq<AssessmentAnswer>, questions: seq<AssessmentQuestion>, index: int, v: AnswerValue)
    requires 0 <= index < |questions|
    ensures var a := AssessmentAnswer(questions[index].id, v);
            && CurrentAnswer(RecordAnswer(answers, a), questions, index) == Some(a)
            && InitialValue(questions[index], CurrentAnswer(RecordAnswer(answers, a), questions, index)) == v
  {
    var a := AssessmentAnswer(questions[index].id, v);
    var r := RecordAnswer(answers, a);
    assert FindAnswer(r, a.questionId).Some?;
  }

  /** The props the wizard passes to the card on screen. */
  datatype Position = Position(isFirst: bool, isLast: bool, questionNumber: int, totalQuestions: int)

  class Wizard {
    const store: AppStore
    var questions: seq<AssessmentQuestion>
    var currentQuestion: int
    var answers: seq<AssessmentAnswer>
    var isSubmitted: bool
    var showResults: bool

    /** The index is on a question whenever there are questions. */
    ghost predicate Valid()
      reads this
    {
      0 <= currentQuestion && (|questions| > 0 ==> currentQuestion < |questions|)
    }

    constructor (store: AppStore)
      ensures this.store == store && Valid()
      ensures questions == [] && currentQuestion == 0 && answers == [] && !isSubmitted && !showResults
    {
      this.store := store;
      questions := [];
      currentQuestion := 0;
      answers := [];
      isSubmitted := false;
      showResults := false;
    }

    /** `loadQuestions` with the API reply as input: the loading flag brackets the update. */
    method LoadQuestions(reply: ApiResponse<seq<AssessmentQuestion>>)
      modifies this, store
      ensures questions == (if reply.success && reply.data.Some? then reply.data.value else old(questions))
      ensures currentQuestion == old(currentQuestion) && answers == old(answers)
      ensures isSubmitted == old(isSubmitted) && showResults == old(showResults)
      ensures !store.isLoading && store.user == old(store.user) && store.skillVector == old(store.skillVector)
      ensures store.recommendations == old(store.recommendations) && store.currentCareer == old(store.currentCareer)
      ensures store.watchProgress == old(store.watchProgress)
      ensures old(currentQuestion) == 0 ==> Valid()
    {
      store.SetLoading(true);
      if reply.success && reply.data.Some? {
        questions := reply.data.value;
      }
      store.SetLoading(false);
    }

    method HandleAnswer(a: AssessmentAnswer)
      modifies this
      ensures answers == RecordAnswer(old(answers), a)
      ensures questions == old(questions) && currentQuestion == old(currentQuestion)
      ensures isSubmitted == old(isSubmitted) && showResults == old(showResults)
    {
      answers := WithoutQuestion(answers, a.questionId) + [a];
    }

    /**
     * `handleNext`: before the last question, advance; on it, submit when a
     * user is signed in.  The submission's reply is an input; `submitted`
     * says whether a submission was made.
     */
    method HandleNext(reply: ApiResponse<SkillVector>) returns (submitted: bool)
      modifies this, store
      ensures old(currentQuestion) < |questions| - 1 ==>
        currentQuestion == old(currentQuestion) + 1 && !submitted && store.skillVector == old(store.skillVector)
        && isSubmitted == old(isSubmitted) && showResults == old(showResults)
      ensures old(currentQuestion) >= |questions| - 1 ==> currentQuestion == old(currentQuestion)
      ensures old(currentQuestion) >= |questions| - 1 ==> (submitted <==> old(store.user).Some?)
      ensures !submitted ==> isSubmitted == old(isSubmitted) && showResults == old(showResults)
                             && store.skillVector == old(store.skillVector) && store.isLoading == old(store.isLoading)
      ensures submitted ==> isSubmitted && !store.isLoading
      ensures submitted ==>
        if reply.success && reply.data.Some? then store.skillVector == reply.data && showResults
        else store.skillVector == old(store.skillVector) && showResults == old(showResults)
      ensures questions == old(questions) && answers == old(answers)
      ensures store.user == old(store.user) && store.recommendations == old(store.recommendations)
      ensures store.currentCareer == old(store.currentCareer) && store.watchProgress == old(store.watchProgress)
      ensures old(Valid()) ==> Valid()
    {
      submitted := false;
      if currentQuestion < |questions| - 1 {
        currentQuestion := currentQuestion + 1;
        return;
      }
      if store.user.None? {
        return;
      }
      submitted := true;
      store.SetLoading(true);
      isSubmitted := true;
      if reply.success && reply.data.Some? {
        store.SetSkillVector(reply.data.value);
        showResults := true;
      }
      store.SetLoading(false);
    }

    method HandlePrevious()
      modifies this
      ensures currentQuestion == (if old(currentQuestion) > 0 then old(currentQuestion) - 1 else old(currentQuestion))
      ensures questions == old(questions) && answers == old(answers)
      ensures isSubmitted == old(isSubmitted) && showResults == old(showResults)
      ensures old(Valid()) ==> Valid()
    {
      if currentQuestion > 0 {
        currentQuestion := currentQuestion - 1;
      }
    }

    function CardPosition(): (p: Position)
      reads this
      ensures p.isFirst <==> currentQuestion == 0
      ensures p.isLast <==> currentQuestion == |questions| - 1
      ensures p.questionNumber == currentQuestion + 1 && p.totalQuestions == |questions|
    {
      Position(currentQuestion == 0, currentQuestion == |questions| - 1, currentQuestion + 1, |questions|)
    }

    /** On a valid wizard the card's number lies in 1..total, first means number 1 and last means number total. */
    lemma PositionInRange()
      requires Valid() && |questions| > 0
      ensures var p := CardPosition();
              && 1 <= p.questionNumber <= p.totalQuestions
              && (p.isFirst <==> p.questionNumber == 1)
              && (p.isLast <==> p.questionNumber == p.totalQuestions)
    {
    }
  }
}
