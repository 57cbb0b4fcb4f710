/** The domain entities Question and Answer and the validity their `validate` tags declare. */
module QA {
  import opened Strconv
  import opened Constraints

  /** Go's `time.Time`, kept opaque: the model only copies it. `ticks` counts from Go's zero time. */
  datatype Time = Instant(ticks: int)

  /** The zero `time.Time`, which a struct literal that omits `CreatedAt` carries. */
  const ZeroTime: Time := Instant(0)

  datatype Question = Question(id: UInt64, text: string, createdAt: Time)

  datatype Answer = Answer(id: UInt64, questionId: UInt64, userId: UInt64, text: string, createdAt: Time)

  /** `validate:"required,min=3,max=500"` on Question.Text. */
  const QuestionTextRules: seq<Rule> := [Required, Min(3), Max(500)]

  /** `validate:"required,min=1,max=1000"` on Answer.Text. */
  const AnswerTextRules: seq<Rule> := [Required, Min(1), Max(1000)]

  /** Every `validate` tag of Question holds; ID and CreatedAt carry none. */
  predicate ValidQuestion(q: Question) {
    Satisfies(q.text, QuestionTextRules)
  }

  /** Every `validate` tag of Answer holds: QuestionID and UserID are `required`, Text is bounded. */
  predicate ValidAnswer(a: Answer) {
    RequiredUint(a.questionId) && RequiredUint(a.userId) && Satisfies(a.text, AnswerTextRules)
  }

  /** A valid Question is one whose text has 3 to 500 characters. */
  lemma ValidQuestionBounds(q: Question)
    ensures ValidQuestion(q) <==> 3 <= |q.text| <= 500
  {
    RequiredMinMax(q.text, 3, 500);
  }

  /** A valid Answer names a non-zero question and user and has 1 to 1000 characters of text. */
  lemma ValidAnswerBounds(a: Answer)
    ensures ValidAnswer(a) <==> a.questionId != 0 && a.userId != 0 && 1 <= |a.text| <= 1000
  {
    RequiredMinMax(a.text, 1, 1000);
  }

  /** Validity does not depend on ID or CreatedAt. */
  lemma ValidityIgnoresIdAndTime(q: Question, a: Answer, id: UInt64, t: Time)
    ensures ValidQuestion(q) == ValidQuestion(q.(id := id, createdAt := t))
    ensures ValidAnswer(a) == ValidAnswer(a.(id := id, createdAt := t))
  {
  }
}
