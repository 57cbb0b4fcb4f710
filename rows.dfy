/** The storage rows and the six mappers between rows and domain entities. */
module Rows {
  import opened Strconv
  import opened QA
  import opened Auth

  /** `varchar(n)` widths of the text columns. */
  const QuestionTextWidth: nat := 500
  const AnswerTextWidth: nat := 1000
  const UsernameWidth: nat := 32
  const PasswordHashWidth: nat := 255

  datatype QuestionRow = QuestionRow(id: UInt64, text: string, createdAt: Time)

  datatype AnswerRow = AnswerRow(id: UInt64, questionId: UInt64, userId: UInt64, text: string, createdAt: Time)

  datatype UserRow = UserRow(id: UInt64, username: string, passwordHash: string)

  function ToDomainQuestion(q: QuestionRow): Question {
    Question(q.id, q.text, q.createdAt)
  }

  function ToDTOQuestion(q: Question): QuestionRow {
    QuestionRow(q.id, q.text, q.createdAt)
  }

  function ToDomainAnswer(a: AnswerRow): Answer {
    Answer(a.id, a.questionId, a.userId, a.text, a.createdAt)
  }

  function ToDTOAnswer(a: Answer): AnswerRow {
    AnswerRow(a.id, a.questionId, a.userId, a.text, a.createdAt)
  }

  function ToDomainUser(u: UserRow): User {
    User(u.id, u.username, u.passwordHash)
  }

  function ToDTOUser(u: User): UserRow {
    UserRow(u.id, u.username, u.passwordHash)
  }

  /** The question mappers are mutual inverses and keep ID, Text and CreatedAt. */
  lemma QuestionRoundTrip(q: Question, r: QuestionRow)
    ensures ToDomainQuestion(ToDTOQuestion(q)) == q
    ensures ToDTOQuestion(ToDomainQuestion(r)) == r
    ensures ToDTOQuestion(q).id == q.id && ToDTOQuestion(q).createdAt == q.createdAt
    ensures ToDomainQuestion(r).id == r.id && ToDomainQuestion(r).createdAt == r.createdAt
  {
  }

  /** The answer mappers are mutual inverses and keep every field, the two foreign keys included. */
  lemma AnswerRoundTrip(a: Answer, r: AnswerRow)
    ensures ToDomainAnswer(ToDTOAnswer(a)) == a
    ensures ToDTOAnswer(ToDomainAnswer(r)) == r
    ensures ToDTOAnswer(a).questionId == a.questionId && ToDTOAnswer(a).userId == a.userId
    ensures ToDTOAnswer(a).id == a.id && ToDTOAnswer(a).createdAt == a.createdAt
    ensures ToDomainAnswer(r).id == r.id && ToDomainAnswer(r).createdAt == r.createdAt
  {
  }

  /** The user mappers are mutual inverses and keep ID, Username and PasswordHash. */
  lemma UserRoundTrip(u: User, r: UserRow)
    ensures ToDomainUser(ToDTOUser(u)) == u
    ensures ToDTOUser(ToDomainUser(r)) == r
    ensures ToDTOUser(u).id == u.id && ToDTOUser(u).username == u.username
    ensures ToDTOUser(u).passwordHash == u.passwordHash
  {
  }

  /** The row mappers are injective, so distinct entities are never stored as the same row. */
  lemma MappersInjective(q1: Question, q2: Question, a1: Answer, a2: Answer, u1: User, u2: User)
    ensures ToDTOQuestion(q1) == ToDTOQuestion(q2) ==> q1 == q2
    ensures ToDTOAnswer(a1) == ToDTOAnswer(a2) ==> a1 == a2
    ensures ToDTOUser(u1) == ToDTOUser(u2) ==> u1 == u2
  {
  }

  /** A valid entity's text fits its column: the domain max bounds equal the varchar widths. */
  lemma ValidEntitiesFitColumns(q: Question, a: Answer, u: User)
    ensures ValidQuestion(q) ==> |ToDTOQuestion(q).text| <= QuestionTextWidth
    ensures ValidAnswer(a) ==> |ToDTOAnswer(a).text| <= AnswerTextWidth
    ensures ValidUser(u) ==> |ToDTOUser(u).username| <= UsernameWidth
  {
    ValidQuestionBounds(q);
    ValidAnswerBounds(a);
    ValidUserBounds(u);
  }

  /** The widths are tight: a valid text may use the whole column. */
  lemma ColumnWidthsAreTight(q: Question, a: Answer, u: User)
    requires |q.text| == QuestionTextWidth && |a.text| == AnswerTextWidth && |u.username| == UsernameWidth
    requires a.questionId != 0 && a.userId != 0
    ensures ValidQuestion(q) && ValidAnswer(a) && ValidUser(u)
  {
  }
}
