/** The request and response structs of the HTTP handlers (package `handlerdto`). */
module HandlerDto {
  import opened Wrappers
  import opened Strconv
  import opened Constraints
  import opened QA
  import V = Validator

  /** Body of POST /questions; `validate:"required,min=3,max=500"` on Text. */
  datatype AddQuestionRequest = AddQuestionRequest(text: string)

  /** Body of POST /questions/{id}/answers; its shape is inferred from `req.Text`. */
  datatype AnswerRequest = AnswerRequest(text: string)

  datatype QuestionResponse = QuestionResponse(text: string, createdAt: Time)

  datatype AnswerResponse = AnswerResponse(text: string, createdAt: Time)

  /** Embeds ValidationResponse; also the element type of GetQuestionResponse.Data. */
  datatype AddQuestionResponse = AddQuestionResponse(envelope: V.ValidationResponse, text: string, createdAt: Time)

  /** `data` is None where the Go slice is nil (JSON `null`). */
  datatype GetQuestionResponse = GetQuestionResponse(envelope: V.ValidationResponse, data: Option<seq<AddQuestionResponse>>)

  datatype QAData = QAData(question: QuestionResponse, answers: seq<AnswerResponse>)

  datatype QAResponse = QAResponse(envelope: V.ValidationResponse, data: QAData)

  datatype DeleteQuestionResponse = DeleteQuestionResponse(envelope: V.ValidationResponse)

  /** Inferred from its uses: the envelope and the created answer's ID. */
  datatype AddAnswerResponse = AddAnswerResponse(envelope: V.ValidationResponse, id: UInt64)

  /** Inferred from its uses: the envelope and an embedded AnswerResponse. */
  datatype GetAnswerResponse = GetAnswerResponse(envelope: V.ValidationResponse, answer: AnswerResponse)

  const AddQuestionRequestRules: seq<Rule> := [Required, Min(3), Max(500)]

  /** `validator.New().Struct(req)` on an AddQuestionRequest: the list of failures, empty when valid. */
  function ValidateAddQuestionRequest(req: AddQuestionRequest): seq<FieldError> {
    match FirstFailure("Text", AddQuestionRequestRules, req.text)
    case None => []
    case Some(e) => [e]
  }

  /** The request validates exactly when its text has 3 to 500 characters, the bounds of a valid Question. */
  lemma ValidateAddQuestionRequestIff(req: AddQuestionRequest)
    ensures ValidateAddQuestionRequest(req) == [] <==> 3 <= |req.text| <= 500
    ensures ValidateAddQuestionRequest(req) == [] <==> ValidQuestion(Question(0, req.text, ZeroTime))
  {
    RequiredMinMax(req.text, 3, 500);
    ValidQuestionBounds(Question(0, req.text, ZeroTime));
  }

  /** Which single failure each invalid text length produces. */
  lemma ValidateAddQuestionRequestFailures(req: AddQuestionRequest)
    ensures |req.text| == 0 ==> ValidateAddQuestionRequest(req) == [FieldError("Text", "required", "")]
    ensures 1 <= |req.text| <= 2 ==> ValidateAddQuestionRequest(req) == [FieldError("Text", "min", "3")]
    ensures 500 < |req.text| ==> ValidateAddQuestionRequest(req) == [FieldError("Text", "max", "500")]
  {
    RequiredMinMaxFailure("Text", req.text, 3, 500);
    assert Strconv.Itoa(3) == "3";
    assert Strconv.NatToDecimal(50) == "50";
    assert Strconv.Itoa(500) == "500";
  }
}
