/**
 * The four question handlers of handlers/questions.go and their response builders. Each
 * handler is an early-return pipeline (verb, path id, body, validation, service call,
 * response); it is modelled as a function of those inputs to the one Exchange it produces.
 * The Go names are kept: GetQuestionHandler lists all questions, GetAllQuestionHandler
 * returns one question with its answers.
 */
module QuestionHandlers {
  import opened Wrappers
  import opened Strconv
  import opened QA
  import opened HandlerDto
  import opened Http
  import V = Validator

  /** The `http.Error` text of a path id that does not parse, spelled as in the source. */
  const BadIdText: string := "intreranl server error"
  const GetQuestFailed: string := "failed to get quest"

  function AddQuestionResponseOK(text: string, created: Time): Response {
    Json(StatusOK, AddQuestion(AddQuestionResponse(V.OK(), text, created)))
  }

  function AddQuestionResponseErr(msg: string): Response {
    Json(StatusBadRequest, AddQuestion(AddQuestionResponse(V.Error(msg), "", ZeroTime)))
  }

  function GetQuestionResponseErr(msg: string): Response {
    Json(StatusBadRequest, GetQuestions(GetQuestionResponse(V.Error(msg), None)))
  }

  /** getQAResponseErr writes a GetQuestionResponse, not a QAResponse. */
  function GetQAResponseErr(msg: string): Response {
    Json(StatusBadRequest, GetQuestions(GetQuestionResponse(V.Error(msg), None)))
  }

  function DeleteQuestionResponseErr(msg: string): Response {
    Json(StatusBadRequest, DeleteQuestion(DeleteQuestionResponse(V.Error(msg))))
  }

  /** deleteQuestionResponseOK writes status 400 although the envelope is OK. */
  function DeleteQuestionResponseOK(): Response {
    Json(StatusBadRequest, DeleteQuestion(DeleteQuestionResponse(V.OK())))
  }

  /** One element of GetQuestionResponse.Data: only Text and CreatedAt are set. */
  function QuestionItem(q: Question): AddQuestionResponse {
    AddQuestionResponse(V.Zero(), q.text, q.createdAt)
  }

  /** The slice getQuestionResponseOK appends, one element per question, in order. */
  function QuestionItems(qs: seq<Question>): (data: seq<AddQuestionResponse>)
    ensures |data| == |qs|
    ensures forall i :: 0 <= i < |qs| ==> data[i].text == qs[i].text && data[i].createdAt == qs[i].createdAt
    ensures forall i :: 0 <= i < |qs| ==> data[i].envelope == V.Zero()
  {
    if qs == [] then [] else QuestionItems(qs[..|qs| - 1]) + [QuestionItem(qs[|qs| - 1])]
  }

  function AnswerItem(a: Answer): AnswerResponse {
    AnswerResponse(a.text, a.createdAt)
  }

  /** The slice getQAResponseOK appends, one element per answer, in order. */
  function AnswerItems(answers: seq<Answer>): (items: seq<AnswerResponse>)
    ensures |items| == |answers|
    ensures forall i :: 0 <= i < |answers| ==> items[i].text == answers[i].text && items[i].createdAt == answers[i].createdAt
  {
    if answers == [] then [] else AnswerItems(answers[..|answers| - 1]) + [AnswerItem(answers[|answers| - 1])]
  }

  /** The 200 response to a listing: an OK envelope and a present list of one item per question. */
  function QuestionListOK(qs: seq<Question>): Response {
    Json(StatusOK, GetQuestions(GetQuestionResponse(V.OK(), Some(QuestionItems(qs)))))
  }

  /** The 200 response to a get-with-answers: an OK envelope, the question and its answers in order. */
  function QuestionWithAnswersOK(q: Question, answers: seq<Answer>): Response {
    Json(StatusOK, QA(QAResponse(V.OK(), QAData(QuestionResponse(q.text, q.createdAt), AnswerItems(answers)))))
  }

  /** getQuestionResponseOK: the list is built by appending in a loop, starting from an empty, non-nil slice. */
  method GetQuestionResponseOK(qs: seq<Question>) returns (r: Response)
    ensures r == QuestionListOK(qs)
  {
    var data: seq<AddQuestionResponse> := [];
    for i := 0 to |qs|
      invariant data == QuestionItems(qs[..i])
    {
      data := data + [AddQuestionResponse(V.Zero(), qs[i].text, qs[i].createdAt)];
      assert qs[..i + 1][..i] == qs[..i];
    }
    assert qs[..|qs|] == qs;
    r := Json(StatusOK, GetQuestions(GetQuestionResponse(V.OK(), Some(data))));
  }

  /** getQAResponseOK: the question's text and time, and its answers appended in a loop. */
  method GetQAResponseOK(q: Question, answers: seq<Answer>) returns (r: Response)
    ensures r == QuestionWithAnswersOK(q, answers)
  {
    var items: seq<AnswerResponse> := [];
    for i := 0 to |answers|
      invariant items == AnswerItems(answers[..i])
    {
      items := items + [AnswerResponse(answers[i].text, answers[i].createdAt)];
      assert answers[..i + 1][..i] == answers[..i];
    }
    assert answers[..|answers|] == answers;
    r := Json(StatusOK, QA(QAResponse(V.OK(), QAData(QuestionResponse(q.text, q.createdAt), items))));
  }

  /** POST /questions. */
  function AddQuestionHandler(verb: string, body: DecodeResult<AddQuestionRequest>, svc: ServiceResult<Question>): Exchange {
    if verb != MethodPost then MethodNotAllowed()
    else match body
      case Eof => Exchange(None, AddQuestionResponseErr(ErrEmptyReqBody))
      case Malformed => Exchange(None, AddQuestionResponseErr(ErrFailedToDecodeReqBody))
      case Decoded(req) =>
        var failures := ValidateAddQuestionRequest(req);
        if failures != [] then Exchange(None, Json(StatusBadRequest, Envelope(V.ValidationErrorOf(failures))))
        else
          var call := Some(CreateQuestion(Question(0, req.text, ZeroTime)));
          match svc
          case ServiceError => Exchange(call, AddQuestionResponseErr(ErrFailedToDecodeReqBody))
          case ServiceOk(created) => Exchange(call, AddQuestionResponseOK(created.text, created.createdAt))
  }

  /** GET /questions: every question. */
  function GetQuestionHandler(verb: string, svc: ServiceResult<seq<Question>>): Exchange {
    if verb != MethodGet then MethodNotAllowed()
    else
      var call := Some(GetAllQuestions);
      match svc
      case ServiceError => Exchange(call, GetQuestionResponseErr(ErrFailedToDecodeReqBody))
      case ServiceOk(qs) => Exchange(call, QuestionListOK(qs))
  }

  /** GET /questions/{id}: one question with its answers. */
  function GetAllQuestionHandler(verb: string, idStr: string, svc: ServiceResult<(Question, seq<Answer>)>): Exchange {
    if verb != MethodGet then MethodNotAllowed()
    else match Atoi(idStr)
      case None => Exchange(None, PlainText(StatusMethodNotAllowed, BadIdText))
      case Some(id) =>
        var call := Some(GetQuestionWithAnswers(ToUint64(id)));
        match svc
        case ServiceError => Exchange(call, GetQAResponseErr(GetQuestFailed))
        case ServiceOk((q, answers)) =>
          Exchange(call, QuestionWithAnswersOK(q, answers))
  }

  /** DELETE /questions/{id}. */
  function DeleteQuestionHandler(verb: string, idStr: string, svc: ServiceResult<()>): Exchange {
    if verb != MethodDelete then MethodNotAllowed()
    else match Atoi(idStr)
      case None => Exchange(None, PlainText(StatusMethodNotAllowed, BadIdText))
      case Some(id) =>
        var call := Some(DeleteQuestionById(ToUint64(id)));
        match svc
        case ServiceError => Exchange(call, DeleteQuestionResponseErr(ErrFailedToDecodeReqBody))
        case ServiceOk(_) => Exchange(call, DeleteQuestionResponseOK())
  }

  // ---- properties of the handlers ----

  /** Every question handler answers a wrong method with plain-text 405 and calls no service. */
  lemma WrongMethodRejected(verb: string, idStr: string, body: DecodeResult<AddQuestionRequest>,
                            created: ServiceResult<Question>, all: ServiceResult<seq<Question>>,
                            withAnswers: ServiceResult<(Question, seq<Answer>)>, deleted: ServiceResult<()>)
    ensures verb != MethodPost ==> AddQuestionHandler(verb, body, created) == Exchange(None, PlainText(405, "method not allowed"))
    ensures verb != MethodGet ==> GetQuestionHandler(verb, all) == Exchange(None, PlainText(405, "method not allowed"))
    ensures verb != MethodGet ==> GetAllQuestionHandler(verb, idStr, withAnswers) == Exchange(None, PlainText(405, "method not allowed"))
    ensures verb != MethodDelete ==> DeleteQuestionHandler(verb, idStr, deleted) == Exchange(None, PlainText(405, "method not allowed"))
  {
  }

  /** An empty body and a malformed body give 400 with two different single-entry errors. */
  lemma AddQuestionDecodeFailures(svc: ServiceResult<Question>)
    ensures AddQuestionHandler("POST", Eof, svc)
         == Exchange(None, Json(400, AddQuestion(AddQuestionResponse(V.Error("request body is empty"), "", ZeroTime))))
    ensures AddQuestionHandler("POST", Malformed, svc)
         == Exchange(None, Json(400, AddQuestion(AddQuestionResponse(V.Error("failed to decode request body"), "", ZeroTime))))
  {
  }

  /**
   * The service is called exactly when the method is POST, the body decoded and its text has
   * 3 to 500 characters; the question it receives is then valid, with ID 0 and a zero time.
   */
  lemma AddQuestionCallsServiceIff(verb: string, body: DecodeResult<AddQuestionRequest>, svc: ServiceResult<Question>)
    ensures AddQuestionHandler(verb, body, svc).call.Some?
        <==> verb == MethodPost && body.Decoded? && 3 <= |body.req.text| <= 500
    ensures AddQuestionHandler(verb, body, svc).call.Some? ==>
              var q := Question(0, body.req.text, ZeroTime);
              AddQuestionHandler(verb, body, svc).call == Some(CreateQuestion(q)) && ValidQuestion(q)
  {
    if body.Decoded? {
      ValidateAddQuestionRequestIff(body.req);
    }
  }

  /** An invalid text gives 400 with the ValidationError envelope, one entry keyed "Text". */
  lemma AddQuestionInvalidText(req: AddQuestionRequest, svc: ServiceResult<Question>)
    requires !(3 <= |req.text| <= 500)
    ensures AddQuestionHandler("POST", Decoded(req), svc).call == None
    ensures AddQuestionHandler("POST", Decoded(req), svc).response.code == 400
    ensures |req.text| == 0 ==>
              AddQuestionHandler("POST", Decoded(req), svc).response.payload
              == Envelope(V.ValidationResponse("Error", Some(map["Text" := "Это поле обязательно"])))
    ensures 1 <= |req.text| <= 2 ==>
              AddQuestionHandler("POST", Decoded(req), svc).response.payload
              == Envelope(V.ValidationResponse("Error", Some(map["Text" := "Минимум 3 символов"])))
    ensures 500 < |req.text| ==>
              AddQuestionHandler("POST", Decoded(req), svc).response.payload
              == Envelope(V.ValidationResponse("Error", Some(map["Text" := ""])))
  {
    ValidateAddQuestionRequestIff(req);
    ValidateAddQuestionRequestFailures(req);
    assert V.TagMessage("min", "3") == "Минимум 3 символов";
  }

  /** A valid request: 400 with the decode-error text on service failure, else 200 echoing the returned question. */
  lemma AddQuestionServiceOutcome(req: AddQuestionRequest, svc: ServiceResult<Question>)
    requires 3 <= |req.text| <= 500
    ensures svc.ServiceError? ==>
              AddQuestionHandler("POST", Decoded(req), svc).response
              == Json(400, AddQuestion(AddQuestionResponse(V.Error("failed to decode request body"), "", ZeroTime)))
    ensures svc.ServiceOk? ==>
              AddQuestionHandler("POST", Decoded(req), svc).response
              == Json(200, AddQuestion(AddQuestionResponse(V.OK(), svc.value.text, svc.value.createdAt)))
  {
  }

  /** Status 200 and an "OK" envelope both mean the same thing: the service was called and succeeded. */
  lemma AddQuestionSuccessIff(verb: string, body: DecodeResult<AddQuestionRequest>, svc: ServiceResult<Question>)
    ensures var x := AddQuestionHandler(verb, body, svc);
            x.response.code == 200 <==> x.call.Some? && svc.ServiceOk?
    ensures var x := AddQuestionHandler(verb, body, svc);
            (x.response.Json? && x.response.payload.Env().status == "OK") <==> x.response.code == 200
  {
  }

  /** The handler test's cases: a valid question, malformed JSON, and a failing service. */
  lemma AddQuestionTestCases(t: Time)
    ensures AddQuestionHandler("POST", Decoded(AddQuestionRequest("Почему небо голубое?")),
                               ServiceOk(Question(123, "Почему небо голубое?", t)))
         == Exchange(Some(CreateQuestion(Question(0, "Почему небо голубое?", ZeroTime))),
                     Json(200, AddQuestion(AddQuestionResponse(V.OK(), "Почему небо голубое?", t))))
    ensures AddQuestionHandler("POST", Malformed, ServiceError)
         == Exchange(None, Json(400, AddQuestion(AddQuestionResponse(V.Error("failed to decode request body"), "", ZeroTime))))
    ensures AddQuestionHandler("POST", Decoded(AddQuestionRequest("Этот вопрос упадёт")), ServiceError)
         == Exchange(Some(CreateQuestion(Question(0, "Этот вопрос упадёт", ZeroTime))),
                     Json(400, AddQuestion(AddQuestionResponse(V.Error("failed to decode request body"), "", ZeroTime))))
  {
  }

  /** Listing: 200 with one item per question in the service's order (empty but present for none), else 400 with no data. */
  lemma GetQuestionOutcome(svc: ServiceResult<seq<Question>>)
    ensures var r := GetQuestionHandler("GET", svc).response;
            svc.ServiceOk? ==>
              && r.code == 200 && r.payload.getQuestions.envelope == V.OK()
              && r.payload.getQuestions.data.Some?
              && |r.payload.getQuestions.data.value| == |svc.value|
              && (forall i :: 0 <= i < |svc.value| ==>
                    r.payload.getQuestions.data.value[i].text == svc.value[i].text
                    && r.payload.getQuestions.data.value[i].createdAt == svc.value[i].createdAt)
    ensures GetQuestionHandler("GET", ServiceOk([])).response.payload.getQuestions.data == Some([])
    ensures GetQuestionHandler("GET", ServiceError).response
         == Json(400, GetQuestions(GetQuestionResponse(V.Error("failed to decode request body"), None)))
    ensures GetQuestionHandler("GET", svc).call == Some(GetAllQuestions)
  {
  }

  /**
   * Get-with-answers and delete read the id alike: an id Atoi rejects gives plain-text 405 and
   * no call; any other id reaches the service as its uint64 wrap-around.
   */
  lemma QuestionIdHandling(idStr: string, withAnswers: ServiceResult<(Question, seq<Answer>)>, deleted: ServiceResult<()>)
    ensures Atoi(idStr).None? ==> GetAllQuestionHandler("GET", idStr, withAnswers) == Exchange(None, PlainText(405, "intreranl server error"))
    ensures Atoi(idStr).None? ==> DeleteQuestionHandler("DELETE", idStr, deleted) == Exchange(None, PlainText(405, "intreranl server error"))
    ensures Atoi(idStr).Some? && Atoi(idStr).value < 0 ==>
              GetAllQuestionHandler("GET", idStr, withAnswers).call == Some(GetQuestionWithAnswers(Atoi(idStr).value + TwoTo64))
              && DeleteQuestionHandler("DELETE", idStr, deleted).call == Some(DeleteQuestionById(Atoi(idStr).value + TwoTo64))
    ensures Atoi(idStr).Some? && Atoi(idStr).value >= 0 ==>
              GetAllQuestionHandler("GET", idStr, withAnswers).call == Some(GetQuestionWithAnswers(Atoi(idStr).value))
              && DeleteQuestionHandler("DELETE", idStr, deleted).call == Some(DeleteQuestionById(Atoi(idStr).value))
  {
  }

  /** The id "-1" asks the service for question 2^64 - 1; "abc" and "" are rejected. */
  lemma QuestionIdExamples(withAnswers: ServiceResult<(Question, seq<Answer>)>)
    ensures GetAllQuestionHandler("GET", "-1", withAnswers).call == Some(GetQuestionWithAnswers(0xFFFF_FFFF_FFFF_FFFF))
    ensures GetAllQuestionHandler("GET", "abc", withAnswers).call == None
    ensures GetAllQuestionHandler("GET", "", withAnswers).response == PlainText(405, "intreranl server error")
  {
  }

  /**
   * The path id is parsed before it reaches the service, so distinct strings with the same
   * value ("5", "05", "+5") request the same question.
   */
  lemma NonCanonicalIdsCoincide(withAnswers: ServiceResult<(Question, seq<Answer>)>)
    ensures GetAllQuestionHandler("GET", "05", withAnswers).call == Some(GetQuestionWithAnswers(5))
    ensures GetAllQuestionHandler("GET", "+5", withAnswers).call == Some(GetQuestionWithAnswers(5))
    ensures GetAllQuestionHandler("GET", "5", withAnswers).call == Some(GetQuestionWithAnswers(5))
  {
    AtoiNonCanonical();
    AtoiSigned("5");
  }

  /** Get-with-answers: 200 with the question and its answers in the service's order, else 400 "failed to get quest" without data. */
  lemma GetAllQuestionOutcome(idStr: string, q: Question, answers: seq<Answer>)
    requires Atoi(idStr).Some?
    ensures var r := GetAllQuestionHandler("GET", idStr, ServiceOk((q, answers))).response;
            r.code == 200 && r.payload.qa.envelope == V.OK()
            && r.payload.qa.data.question == QuestionResponse(q.text, q.createdAt)
            && |r.payload.qa.data.answers| == |answers|
            && forall i :: 0 <= i < |answers| ==>
                 r.payload.qa.data.answers[i] == AnswerResponse(answers[i].text, answers[i].createdAt)
    ensures GetAllQuestionHandler("GET", idStr, ServiceError).response
         == Json(400, GetQuestions(GetQuestionResponse(V.Error("failed to get quest"), None)))
  {
  }

  /** Delete writes status 400 whatever the service says; only the envelope tells success from failure. */
  lemma DeleteQuestionAlways400(idStr: string, svc: ServiceResult<()>)
    requires Atoi(idStr).Some?
    ensures DeleteQuestionHandler("DELETE", idStr, svc).response.code == 400
    ensures DeleteQuestionHandler("DELETE", idStr, svc).response.payload.Env()
         == if svc.ServiceOk? then V.OK() else V.Error("failed to decode request body")
  {
  }
}
