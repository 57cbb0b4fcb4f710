/**
 * The three answer handlers of handlers/answers.go and their response builders, modelled as
 * the question handlers are. Unlike those, a path id that does not parse gives status 500,
 * and add-answer checks the id before it reads the body and validates nothing.
 */
module AnswerHandlers {
  import opened Wrappers
  import opened Strconv
  import opened QA
  import opened HandlerDto
  import opened Http
  import opened QuestionHandlers
  import V = Validator

  /**
   * The `http.Error` texts of an id that does not parse, spelled as in the source; add-answer
   * uses BadIdText, the text the question handlers use.
   */
  const GetAnswerBadIdText: string := "internal server erro"
  const DeleteAnswerBadIdText: string := "internal server error"

  /** With no authentication, every answer is attributed to user 1. */
  const StubUserId: UInt64 := 1

  function AddAnswerResponseErr(msg: string): Response {
    Json(StatusBadRequest, AddAnswer(AddAnswerResponse(V.Error(msg), 0)))
  }

  function AddAnswerResponseOK(id: UInt64): Response {
    Json(StatusOK, AddAnswer(AddAnswerResponse(V.OK(), id)))
  }

  function GetAnswerResponseOK(a: Answer): Response {
    Json(StatusOK, GetAnswer(GetAnswerResponse(V.OK(), AnswerResponse(a.text, a.createdAt))))
  }

  /** deleteAnswerResponseOK writes a GetAnswerResponse whose answer part is left zero. */
  function DeleteAnswerResponseOK(): Response {
    Json(StatusOK, GetAnswer(GetAnswerResponse(V.OK(), AnswerResponse("", ZeroTime))))
  }

  /** The Answer the handler hands to the service: only UserID, Text and QuestionID are set. */
  function NewAnswer(questionId: UInt64, req: AnswerRequest): Answer {
    Answer(0, questionId, StubUserId, req.text, ZeroTime)
  }

  /** POST /questions/{id}/answers. */
  function AddAnswerHandler(verb: string, idStr: string, body: DecodeResult<AnswerRequest>, svc: ServiceResult<UInt64>): Exchange {
    if verb != MethodPost then MethodNotAllowed()
    else match Atoi(idStr)
      case None => Exchange(None, PlainText(StatusInternalServerError, BadIdText))
      case Some(questId) =>
        match body
        case Eof => Exchange(None, AddAnswerResponseErr(ErrEmptyReqBody))
        case Malformed => Exchange(None, AddAnswerResponseErr(ErrFailedToDecodeReqBody))
        case Decoded(req) =>
          var call := Some(CreateAnswer(NewAnswer(ToUint64(questId), req)));
          match svc
          case ServiceError => Exchange(call, AddQuestionResponseErr(ErrFailedToDecodeReqBody))
          case ServiceOk(answerId) => Exchange(call, AddAnswerResponseOK(answerId))
  }

  /** GET of one answer (not routed by the server's main program). */
  function GetAnswerHandler(verb: string, idStr: string, svc: ServiceResult<Answer>): Exchange {
    if verb != MethodGet then MethodNotAllowed()
    else match Atoi(idStr)
      case None => Exchange(None, PlainText(StatusInternalServerError, GetAnswerBadIdText))
      case Some(answerId) =>
        var call := Some(GetAnswerById(ToUint64(answerId)));
        match svc
        case ServiceError => Exchange(call, GetQuestionResponseErr(ErrFailedToDecodeReqBody))
        case ServiceOk(a) => Exchange(call, GetAnswerResponseOK(a))
  }

  /** DELETE of one answer (not routed by the server's main program). */
  function DeleteAnswerHandler(verb: string, idStr: string, svc: ServiceResult<()>): Exchange {
    if verb != MethodDelete then MethodNotAllowed()
    else match Atoi(idStr)
      case None => Exchange(None, PlainText(StatusInternalServerError, DeleteAnswerBadIdText))
      case Some(answerId) =>
        var call := Some(DeleteAnswerById(ToUint64(answerId)));
        match svc
        case ServiceError => Exchange(call, DeleteQuestionResponseErr(ErrFailedToDecodeReqBody))
        case ServiceOk(_) => Exchange(call, DeleteAnswerResponseOK())
  }

  // ---- properties of the handlers ----

  /** Every answer handler answers a wrong method with plain-text 405 and calls no service. */
  lemma WrongMethodRejected(verb: string, idStr: string, body: DecodeResult<AnswerRequest>,
                            added: ServiceResult<UInt64>, got: ServiceResult<Answer>, deleted: ServiceResult<()>)
    ensures verb != MethodPost ==> AddAnswerHandler(verb, idStr, body, added) == Exchange(None, PlainText(405, "method not allowed"))
    ensures verb != MethodGet ==> GetAnswerHandler(verb, idStr, got) == Exchange(None, PlainText(405, "method not allowed"))
    ensures verb != MethodDelete ==> DeleteAnswerHandler(verb, idStr, deleted) == Exchange(None, PlainText(405, "method not allowed"))
  {
  }

  /** An id Atoi rejects gives plain-text 500 and no call, whatever the body. */
  lemma BadIdIs500(idStr: string, body: DecodeResult<AnswerRequest>,
                   added: ServiceResult<UInt64>, got: ServiceResult<Answer>, deleted: ServiceResult<()>)
    requires Atoi(idStr).None?
    ensures AddAnswerHandler("POST", idStr, body, added) == Exchange(None, PlainText(500, "intreranl server error"))
    ensures GetAnswerHandler("GET", idStr, got) == Exchange(None, PlainText(500, "internal server erro"))
    ensures DeleteAnswerHandler("DELETE", idStr, deleted) == Exchange(None, PlainText(500, "internal server error"))
  {
  }

  /** With a good id, an empty or malformed body gives 400 with an AddAnswerResponse error and no call. */
  lemma AddAnswerDecodeFailures(idStr: string, svc: ServiceResult<UInt64>)
    requires Atoi(idStr).Some?
    ensures AddAnswerHandler("POST", idStr, Eof, svc)
         == Exchange(None, Json(400, AddAnswer(AddAnswerResponse(V.Error("request body is empty"), 0))))
    ensures AddAnswerHandler("POST", idStr, Malformed, svc)
         == Exchange(None, Json(400, AddAnswer(AddAnswerResponse(V.Error("failed to decode request body"), 0))))
  {
  }

  /**
   * Any decoded body reaches the service, empty text included: the answer sent carries user 1,
   * the wrapped path id, the request's text, and a zero ID and time.
   */
  lemma AddAnswerCallsService(idStr: string, req: AnswerRequest, svc: ServiceResult<UInt64>)
    requires Atoi(idStr).Some?
    ensures AddAnswerHandler("POST", idStr, Decoded(req), svc).call
         == Some(CreateAnswer(Answer(0, ToUint64(Atoi(idStr).value), 1, req.text, ZeroTime)))
  {
  }

  /** The service is called exactly when method, id and body all pass; nothing checks the text. */
  lemma AddAnswerCallsServiceIff(verb: string, idStr: string, body: DecodeResult<AnswerRequest>, svc: ServiceResult<UInt64>)
    ensures AddAnswerHandler(verb, idStr, body, svc).call.Some? <==> verb == MethodPost && Atoi(idStr).Some? && body.Decoded?
  {
  }

  /** Because nothing is validated, the service can receive an Answer that breaks the entity's own rules. */
  lemma AddAnswerForwardsInvalidAnswer(svc: ServiceResult<UInt64>)
    ensures var x := AddAnswerHandler("POST", "0", Decoded(AnswerRequest("")), svc);
            x.call.Some? && x.call.value.CreateAnswer? && !ValidAnswer(x.call.value.answer)
  {
  }

  /** Service failure gives 400 with an AddQuestionResponse error; success gives 200 OK with the returned ID. */
  lemma AddAnswerServiceOutcome(idStr: string, req: AnswerRequest, answerId: UInt64)
    requires Atoi(idStr).Some?
    ensures AddAnswerHandler("POST", idStr, Decoded(req), ServiceError).response
         == Json(400, AddQuestion(AddQuestionResponse(V.Error("failed to decode request body"), "", ZeroTime)))
    ensures AddAnswerHandler("POST", idStr, Decoded(req), ServiceOk(answerId)).response
         == Json(200, AddAnswer(AddAnswerResponse(V.OK(), answerId)))
  {
  }

  /** Get answer: failure has the list-questions error shape (no data); success carries the answer's text and time. */
  lemma GetAnswerOutcome(idStr: string, a: Answer)
    requires Atoi(idStr).Some?
    ensures GetAnswerHandler("GET", idStr, ServiceError)
         == Exchange(Some(GetAnswerById(ToUint64(Atoi(idStr).value))),
                     Json(400, GetQuestions(GetQuestionResponse(V.Error("failed to decode request body"), None))))
    ensures GetAnswerHandler("GET", idStr, ServiceOk(a)).response
         == Json(200, GetAnswer(GetAnswerResponse(V.OK(), AnswerResponse(a.text, a.createdAt))))
  {
  }

  /** Delete answer: 400 with an error envelope on failure, 200 with an OK envelope on success. */
  lemma DeleteAnswerOutcome(idStr: string, svc: ServiceResult<()>)
    requires Atoi(idStr).Some?
    ensures DeleteAnswerHandler("DELETE", idStr, svc).call == Some(DeleteAnswerById(ToUint64(Atoi(idStr).value)))
    ensures DeleteAnswerHandler("DELETE", idStr, svc).response.code == (if svc.ServiceOk? then 200 else 400)
    ensures DeleteAnswerHandler("DELETE", idStr, svc).response.payload.Env()
         == if svc.ServiceOk? then V.OK() else V.Error("failed to decode request body")
  {
  }
}
