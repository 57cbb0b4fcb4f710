/**
 * What a handler sees and produces, as values: the request method, the decoded body, the
 * service's answer, the one service call it makes and the one response it writes.
 */
module Http {
  import opened Wrappers
  import opened Strconv
  import opened QA
  import opened HandlerDto
  import V = Validator

  const MethodGet: string := "GET"
  const MethodPost: string := "POST"
  const MethodDelete: string := "DELETE"

  const StatusOK: int := 200
  const StatusBadRequest: int := 400
  const StatusMethodNotAllowed: int := 405
  const StatusInternalServerError: int := 500

  /** The sentinel errors of package `transport`, as the strings the handlers send. */
  const ErrEmptyReqBody: string := "request body is empty"
  const ErrFailedToDecodeReqBody: string := "failed to decode request body"

  /** The message every handler passes to `http.Error` for a wrong method. */
  const MethodNotAllowedText: string := "method not allowed"

  /** The outcome of `json.NewDecoder(r.Body).Decode(&req)`: io.EOF, any other error, or a value. */
  datatype DecodeResult<T> = Eof | Malformed | Decoded(req: T)

  /** What a service method returned: a non-nil error, or its result. */
  datatype ServiceResult<T> = ServiceError | ServiceOk(value: T)

  /** The struct passed to `transport.WriteJSON`. */
  datatype Payload =
    | Envelope(response: V.ValidationResponse)
    | AddQuestion(addQuestion: AddQuestionResponse)
    | GetQuestions(getQuestions: GetQuestionResponse)
    | QA(qa: QAResponse)
    | DeleteQuestion(deleteQuestion: DeleteQuestionResponse)
    | AddAnswer(addAnswer: AddAnswerResponse)
    | GetAnswer(getAnswer: GetAnswerResponse)
  {
    /** The embedded ValidationResponse, i.e. the JSON `status` and `errors` members. */
    function Env(): V.ValidationResponse {
      match this
      case Envelope(r) => r
      case AddQuestion(r) => r.envelope
      case GetQuestions(r) => r.envelope
      case QA(r) => r.envelope
      case DeleteQuestion(r) => r.envelope
      case AddAnswer(r) => r.envelope
      case GetAnswer(r) => r.envelope
    }
  }

  /** `http.Error(w, message, code)` (plain text) or `transport.WriteJSON(w, code, payload)`. */
  datatype Response = PlainText(code: int, message: string) | Json(code: int, payload: Payload)

  /** The service method a handler invoked, with its argument. */
  datatype Call =
    | CreateQuestion(question: Question)
    | GetAllQuestions
    | GetQuestionWithAnswers(questionId: UInt64)
    | DeleteQuestionById(questionId: UInt64)
    | CreateAnswer(answer: Answer)
    | GetAnswerById(answerId: UInt64)
    | DeleteAnswerById(answerId: UInt64)

  /** One request's effect: the service call made (None when the handler returned before it) and the response. */
  datatype Exchange = Exchange(call: Option<Call>, response: Response)

  function MethodNotAllowed(): Exchange {
    Exchange(None, PlainText(StatusMethodNotAllowed, MethodNotAllowedText))
  }
}
