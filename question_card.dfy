/**
 * One question of the assessment wizard: the value the card starts from,
 * whether it counts as answered, the answer it reports, the progress
 * percentage, the slider's bounds and its two buttons.
 */
module QuestionCard {
  import opened Types
  import opened JsNumbers

  /** `answer?.value ?? (type === 'slider' ? 5 : '')` */
  function InitialValue(q: AssessmentQuestion, answer: Option<AssessmentAnswer>): (v: AnswerValue)
    ensures answer.Some? ==> v == answer.value.value
    ensures answer.None? && q.kind == Slider ==> v == Num(5.0)
    ensures answer.None? && q.kind != Slider ==> v == Str("")
  {
    if answer.Some? then answer.value.value
    else if q.kind == Slider then Num(5.0)
    else Str("")
  }

  /** `currentValue !== '' && currentValue !== undefined`: any number counts, and so does any non-empty text. */
  predicate IsAnswered(v: AnswerValue) {
    v != Str("")
  }

  /** A slider starts answered; a text or choice question without an earlier answer does not. */
  lemma InitialAnswered(q: AssessmentQuestion, answer: Option<AssessmentAnswer>)
    ensures answer.None? ==> (IsAnswered(InitialValue(q, answer)) <==> q.kind == Slider)
    ensures answer.Some? && answer.value.value.Num? ==> IsAnswered(InitialValue(q, answer))
  {
  }

  /** `Math.round(questionNumber / totalQuestions * 100)` */
  function ProgressPercent(questionNumber: int, totalQuestions: int): (p: Num)
    ensures 1 <= questionNumber <= totalQuestions ==>
      var share := questionNumber as real / totalQuestions as real * 100.0;
      && p.Fin? && 0.0 <= p.v <= 100.0 && share - 0.5 < p.v <= share + 0.5
    ensures 1 <= questionNumber == totalQuestions ==> p == Fin(100.0)
    ensures totalQuestions == 0 && questionNumber > 0 ==> p == PosInf
  {
    if 1 <= questionNumber <= totalQuestions then
      PercentOf(questionNumber as real, totalQuestions as real);
      Round(Scale(Div(questionNumber as real, totalQuestions as real), 100.0))
    else Round(Scale(Div(questionNumber as real, totalQuestions as real), 100.0))
  }

  /** `question.min || 1`: an absent or zero minimum falls back to 1. */
  function SliderMin(q: AssessmentQuestion): (m: real)
    ensures q.min.Some? && q.min.value != 0.0 ==> m == q.min.value
    ensures q.min.None? || q.min.value == 0.0 ==> m == 1.0
  {
    if q.min.Some? && q.min.value != 0.0 then q.min.value else 1.0
  }

  /** `question.max || 10`: an absent or zero maximum falls back to 10. */
  function SliderMax(q: AssessmentQuestion): (m: real)
    ensures q.max.Some? && q.max.value != 0.0 ==> m == q.max.value
    ensures q.max.None? || q.max.value == 0.0 ==> m == 10.0
  {
    if q.max.Some? && q.max.value != 0.0 then q.max.value else 10.0
  }

  /** What the two navigation buttons look like. */
  datatype Buttons = Buttons(previousDisabled: bool, nextDisabled: bool, nextLabel: string)

  function NavigationButtons(isFirst: bool, isLast: bool, current: AnswerValue): (b: Buttons)
    ensures b.previousDisabled <==> isFirst
    ensures b.nextDisabled <==> current == Str("")
    ensures b.nextLabel == (if isLast then "Complete" else "Next")
  {
    Buttons(isFirst, !IsAnswered(current), if isLast then "Complete" else "Next")
  }

  /** The card's local state: the question it shows and the value entered so far. */
  class Card {
    const question: AssessmentQuestion
    var currentValue: AnswerValue

    constructor (question: AssessmentQuestion, answer: Option<AssessmentAnswer>)
      ensures this.question == question && currentValue == InitialValue(question, answer)
    {
      this.question := question;
      currentValue := InitialValue(question, answer);
    }

    /** Keeps the new value and reports it, tagged with the question's id. */
    method HandleAnswer(v: AnswerValue) returns (reported: AssessmentAnswer)
      modifies this
      ensures currentValue == v
      ensures reported == AssessmentAnswer(question.id, v)
    {
      currentValue := v;
      reported := AssessmentAnswer(question.id, v);
    }
  }
}
