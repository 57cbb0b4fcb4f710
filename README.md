# Question–answer service: request handling and response envelope

This project models the sequential core of a small Go HTTP service that stores questions and
answers. It covers:

- the JSON **response envelope** (`ValidationResponse`: a status word plus an optional map of
  error messages) and the way field-validation failures become Russian messages;
- the **domain entities** `Question`, `Answer` and `User` and the validity their `validate`
  tags declare (`required`, `min`, `max`, with lengths counted in characters);
- the **storage row mappers** between domain entities and database rows;
- the seven **HTTP handlers**. Each one is a chain of early returns: method check, path-id
  parse, body decode, validation, service call, response. It is modelled as a function from
  abstract inputs to an `Exchange`: the single service call it made (if any) and the single
  response it wrote;
- the **response-writer middleware**, a class that remembers the last status code and counts
  the bytes written.

## How the model is organised

| Dafny module (file) | models |
|---|---|
| `Wrappers` (wrappers.dfy) | `Option`, used for nil maps, nil slices and parse failures |
| `Strconv` (strconv.dfy) | `strconv.Atoi` on 64-bit `int`, `strconv.Itoa` as its inverse, and the conversion `uint64(id)` with wrap-around |
| `Constraints` (constraints.dfy) | the part of go-playground validation the tags use: `required`, `min=n` and `max=n` on strings, checked in order, first failure reported; `required` on `uint64` |
| `Validator` (validator.dfy) | `pkg/validator/response.go` |
| `QA` (qa_model.dfy) | `internal/domain/qa/model.go` |
| `Auth` (auth.dfy) | `internal/domain/users/model.go` (package `auth`) |
| `Rows` (rows.dfy) | `internal/infrastructure/storage/postgres/dto/dto.go` |
| `HandlerDto` (handler_dto.dfy) | the request/response structs of `handlers/dto`, plus validation of `AddQuestionRequest` |
| `Http` (http.dfy) | methods, status codes, the `transport` error strings, decode outcomes, service outcomes, service calls, responses |
| `QuestionHandlers` (questions.dfy) | `handlers/questions.go` |
| `AnswerHandlers` (answers.dfy) | `handlers/answers.go` |
| `Middleware` (response_writer.dfy) | `middleware/response_writer.go` |

How each Go operation maps to Dafny:
- `OK`, `Error` and `ValidationError` are `Validator.OK`, `Validator.Error` and
  `Validator.ValidationError`. `ValidationError` is a method with the source's loop, proved
  equal to `Validator.ValidationErrorOf`, which is built from `Validator.ErrorMessages`.
- The four handlers in questions.go are the functions `AddQuestionHandler`,
  `GetQuestionHandler` (lists all questions), `GetAllQuestionHandler` (one question with its
  answers) and `DeleteQuestionHandler`. These keep the odd Go names.
- The builders in questions.go are `AddQuestionResponseOK`/`Err`, `GetQuestionResponseErr`,
  `GetQAResponseErr` and `DeleteQuestionResponseOK`/`Err`. The two builders with loops are the
  methods `GetQuestionResponseOK` and `GetQAResponseOK`; each is proved to give the response
  function the handler writes (`QuestionListOK`, `QuestionWithAnswersOK`), built from the recursive
  functions `QuestionItems` and `AnswerItems`.
- The handlers in answers.go are `AddAnswerHandler`, `GetAnswerHandler` and
  `DeleteAnswerHandler`, with builders `AddAnswerResponseOK`/`Err`, `GetAnswerResponseOK` and
  `DeleteAnswerResponseOK`.
- The six mappers in dto.go keep their Go names in `Rows`.
- `NewWrapResponseWriter`, `WriteHeader`, `Write`, `Status` and `BytesWritten` are the
  constructor and methods of `Middleware.ResponseWriter`.

Inputs the model treats abstractly:
- The HTTP method is a string.
- The path id is a string, as the router passes it.
- JSON decoding is reduced to its outcome: `Eof`, `Malformed` or `Decoded(req)`.
- Each service method's result is a parameter: `ServiceError` or `ServiceOk(value)`. The
  service is consulted only when the handler reaches the call.
- The inner `http.ResponseWriter` is a class whose `Write` accepts some prefix of the buffer
  (`0 <= n <= |b|`) and reports an error whenever it accepts less than all of it, as Go's
  `io.Writer` contract requires.

Quirks of the code, modelled as written:
- A bad path id gives 405 in questions.go (internal/infrastructure/http/handlers/questions.go:135 and :172) but 500 in
  answers.go.
- A successful question delete writes status 400 with an `OK` envelope.
- The add-question and add-answer service failures send "failed to decode request body".
- Add-answer validates nothing, so an empty text and question id 0 reach the service.
- The add-answer service failure writes an `AddQuestionResponse`; its decode failures
  write an `AddAnswerResponse`.
- The get-answer failure writes a `GetQuestionResponse`.
- The delete-answer success writes a `GetAnswerResponse` with a zero answer.
- The error texts keep the source's misspellings: "intreranl server error" and
  "internal server erro".
- A failed `max` tag gives an empty message: the tag switch of
  pkg/validator/response.go:41-50 has no `max` case, so the bound is never interpolated.

A note on the error map:
- go-playground reports at most one failure per field (the first failing tag). The
  envelope's map keeps the last failure for each field. With only the one-field request
  validated, the two rules can never both apply.

## Model

| member | source | states |
|---|---|---|
| `Strconv.Atoi` | internal/infrastructure/http/handlers/questions.go:130-137 | a parse succeeds only for optional sign plus at least one decimal digit, and its value is within the signed 64-bit range; the converse and the value are stated by `AtoiDigits` and `AtoiSigned` |
| `Strconv.AtoiSigned` | internal/infrastructure/http/handlers/questions.go:130 | a leading `+` is ignored and a leading `-` negates the digits' value, accepted down to -2^63 and rejected below it |
| `Strconv.AtoiBounds` | internal/infrastructure/http/handlers/answers.go:32 | -2^63 and 2^63-1 are read, and -2^63-1 and 2^63 are range errors |
| `Strconv.AtoiNonCanonical` | internal/infrastructure/http/handlers/answers.go:32 | "+5", "-05" and "007" are read as 5, -5 and 7 |
| `Strconv.AtoiItoa` | internal/infrastructure/http/handlers/questions.go:130 | every 64-bit integer written in canonical decimal is read back as itself |
| `Strconv.AtoiDigits` | internal/infrastructure/http/handlers/answers.go:32 | an unsigned digit string in range (leading zeros allowed) parses to its decimal value |
| `Strconv.AtoiRejects` | internal/infrastructure/http/handlers/answers.go:32-39 | any non-digit character other than a leading sign makes the parse fail |
| `Strconv.AtoiRejectsEmptyAndSign` | internal/infrastructure/http/handlers/answers.go:94-101 | the empty string and a lone `+` or `-` are rejected |
| `Strconv.AtoiRange` | internal/infrastructure/http/handlers/answers.go:132-139 | an unsigned digit string above 2^63-1 is a range error |
| `Strconv.ToUint64` | internal/infrastructure/http/handlers/questions.go:139 | `uint64(id)` keeps non-negative ids and maps a negative id to id + 2^64 |
| `Strconv.ToUint64Injective` | internal/infrastructure/http/handlers/questions.go:176 | two different parsed ids (int64 values) never reach the service as the same uint64; distinct strings with the same value do (see `NonCanonicalIdsCoincide`) |
| `Constraints.FirstFailure` | internal/infrastructure/http/handlers/questions.go:59-64 | no failure is reported exactly when all of the field's rules hold; otherwise the one reported is the first rule in tag order that fails, with its tag name and parameter |
| `Constraints.RequiredMinMax` | internal/domain/qa/model.go:8 | `required,min=lo,max=hi` holds exactly for non-empty strings whose length is in [lo, hi] |
| `Constraints.RequiredMinMaxFailure` | internal/infrastructure/http/handlers/dto/question.go:13 | for `required,min=lo,max=hi`: empty gives `required`, too short gives `min` with param lo, too long gives `max` with param hi |
| `Validator.ErrorMessages` | pkg/validator/response.go:32-53 | the map's keys are exactly the failing field names; each field keeps the message of its last failure |
| `Validator.ExtendMessages` | pkg/validator/response.go:52 | writing one more failure adds its field and makes its message that field's entry, leaving the others as they were |
| `Validator.ValidationError` | pkg/validator/response.go:31-59 | the loop gives status "Error" and a non-nil map with keys equal to the failing fields, where the last failure per field wins |
| `Validator.OKHasNoErrors` | pkg/validator/response.go:25-29 | `OK()` has status "OK" and a nil error map |
| `Validator.ErrorHasOneEntry` | pkg/validator/response.go:18-23 | `Error(msg)` has status "Error" and exactly one entry, `"error"` mapped to msg |
| `Validator.NoFailuresStillError` | pkg/validator/response.go:55-58 | an empty failure list still gives status "Error", with an empty but non-nil map |
| `Validator.TagMessages` | pkg/validator/response.go:39-50 | each of `required`, `alphanum`, `min`, `oneof` gets its fixed message (param spliced in for `min` and `oneof`); `max` and every other tag give "" |
| `Validator.EmptyMessageIff` | pkg/validator/response.go:39-50 | a message is empty exactly when the tag has no case in the switch |
| `Validator.LaterFailureWins` | pkg/validator/response.go:52 | when two successive failures share a field, the later one's message is kept |
| `QA.ValidQuestionBounds` | internal/domain/qa/model.go:8 | a Question is valid exactly when its text has 3 to 500 characters |
| `QA.ValidAnswerBounds` | internal/domain/qa/model.go:14-16 | an Answer is valid exactly when QuestionID and UserID are non-zero and its text has 1 to 1000 characters |
| `QA.ValidityIgnoresIdAndTime` | internal/domain/qa/model.go:6-18 | changing ID or CreatedAt never changes the validity of a Question or an Answer |
| `Auth.ValidUserBounds` | internal/domain/users/model.go:6 | a User is valid exactly when its username has 3 to 32 characters |
| `Rows.QuestionRoundTrip` | internal/infrastructure/storage/postgres/dto/dto.go:32-46 | the question mappers are mutual inverses and copy ID and CreatedAt unchanged |
| `Rows.AnswerRoundTrip` | internal/infrastructure/storage/postgres/dto/dto.go:49-67 | the answer mappers are mutual inverses and keep ID, QuestionID, UserID and CreatedAt |
| `Rows.UserRoundTrip` | internal/infrastructure/storage/postgres/dto/dto.go:70-84 | the user mappers are mutual inverses and keep ID, Username and PasswordHash |
| `Rows.MappersInjective` | internal/infrastructure/storage/postgres/dto/dto.go:40-67 | distinct entities never map to the same row |
| `Rows.ValidEntitiesFitColumns` | internal/infrastructure/storage/postgres/dto/dto.go:11-29 | a valid question, answer or user's text fits in varchar(500), varchar(1000) or varchar(32) |
| `Rows.ColumnWidthsAreTight` | internal/infrastructure/storage/postgres/dto/dto.go:13-27 | a text that fills its column exactly is still valid, so the widths equal the domain max bounds |
| `HandlerDto.ValidateAddQuestionRequestIff` | internal/infrastructure/http/handlers/dto/question.go:12-14 | a request passes validation exactly when its text has 3 to 500 characters, which is exactly when the Question built from it is valid |
| `HandlerDto.ValidateAddQuestionRequestFailures` | internal/infrastructure/http/handlers/dto/question.go:13 | empty text gives the one failure (Text, required); 1-2 characters give (Text, min, "3"); over 500 give (Text, max, "500") |
| `QuestionHandlers.QuestionItems` | internal/infrastructure/http/handlers/questions.go:209-222 | the data list has one element per question, in order, each holding only that question's text and created_at |
| `QuestionHandlers.AnswerItems` | internal/infrastructure/http/handlers/questions.go:233-252 | the answers list has one element per answer, in order, with its text and created_at |
| `QuestionHandlers.GetQuestionResponseOK` | internal/infrastructure/http/handlers/questions.go:209-222 | the loop gives `QuestionListOK`: 200 with an OK envelope and a non-nil data list equal to the element-wise list, the response the listing handler writes |
| `QuestionHandlers.GetQAResponseOK` | internal/infrastructure/http/handlers/questions.go:233-252 | the loop gives `QuestionWithAnswersOK`: 200 with an OK envelope, the question's text and time, and the answers in order, the response the get-with-answers handler writes |
| `QuestionHandlers.WrongMethodRejected` | internal/infrastructure/http/handlers/questions.go:26-29 | every question handler (also lines 88-91, 119-122, 157-160) answers a wrong method with plain-text 405 and makes no service call |
| `QuestionHandlers.AddQuestionDecodeFailures` | internal/infrastructure/http/handlers/questions.go:39-55 | an empty body gives 400 with `Error("request body is empty")`, a malformed one 400 with `Error("failed to decode request body")`, and neither calls the service |
| `QuestionHandlers.AddQuestionCallsServiceIff` | internal/infrastructure/http/handlers/questions.go:59-70 | CreateQuestion is called exactly when the method is POST, the body decoded and the text has 3 to 500 characters; the question passed is valid, with ID 0 and zero time |
| `QuestionHandlers.AddQuestionInvalidText` | internal/infrastructure/http/handlers/questions.go:59-64 | an invalid text gives 400 with the ValidationError envelope and no call: `{"Text":"Это поле обязательно"}`, `{"Text":"Минимум 3 символов"}` or `{"Text":""}` |
| `QuestionHandlers.AddQuestionServiceOutcome` | internal/infrastructure/http/handlers/questions.go:70-81 | service failure gives 400 with `Error("failed to decode request body")`; success gives 200, OK, and the returned question's text and created_at |
| `QuestionHandlers.AddQuestionSuccessIff` | internal/infrastructure/http/handlers/questions.go:24-83 | status 200 holds exactly when the service was called and succeeded, and exactly when the response is JSON with status "OK" |
| `QuestionHandlers.AddQuestionTestCases` | internal/infrastructure/http/handlers/question_test.go:35-68 | the three test cases give their exact exchange: success calls the service once and echoes the question with 200; invalid JSON gives 400, the decode error, an empty text and no call; a failing service gives 400 after one call |
| `QuestionHandlers.GetQuestionOutcome` | internal/infrastructure/http/handlers/questions.go:100-111 | listing always calls the service; success gives 200 with data of the same length and order (present and empty for no questions); failure gives 400 with data nil |
| `QuestionHandlers.QuestionIdHandling` | internal/infrastructure/http/handlers/questions.go:130-139 | for get-with-answers and delete, an unparsable id gives plain-text 405 and no call; a parsed id is passed wrapped to uint64 |
| `QuestionHandlers.QuestionIdExamples` | internal/infrastructure/http/handlers/questions.go:130-139 | id "-1" requests question 2^64-1; "abc" and "" are rejected |
| `QuestionHandlers.NonCanonicalIdsCoincide` | internal/infrastructure/http/handlers/questions.go:130-139 | "5", "05" and "+5" all request question 5 |
| `QuestionHandlers.GetAllQuestionOutcome` | internal/infrastructure/http/handlers/questions.go:139-150 | success gives 200 with the question and its answers in the service's order; failure gives 400 with `Error("failed to get quest")` and data nil |
| `QuestionHandlers.DeleteQuestionAlways400` | internal/infrastructure/http/handlers/questions.go:176-186 | delete writes 400 on both failure and success; the envelope is OK exactly on success |
| `AnswerHandlers.WrongMethodRejected` | internal/infrastructure/http/handlers/answers.go:21-24 | every answer handler (also lines 88-92, 126-130) answers a wrong method with plain-text 405 and no call |
| `AnswerHandlers.BadIdIs500` | internal/infrastructure/http/handlers/answers.go:32-39 | an unparsable id gives plain-text 500 and no call in all three answer handlers, before the body is read |
| `AnswerHandlers.AddAnswerDecodeFailures` | internal/infrastructure/http/handlers/answers.go:42-58 | an empty body gives 400 `Error("request body is empty")`, a malformed body 400 `Error("failed to decode request body")`, with no call |
| `AnswerHandlers.AddAnswerCallsService` | internal/infrastructure/http/handlers/answers.go:60-66 | the answer sent has UserID 1, QuestionID equal to the wrapped path id, the request's text, and ID 0 with zero time |
| `AnswerHandlers.AddAnswerCallsServiceIff` | internal/infrastructure/http/handlers/answers.go:19-66 | CreateAnswer is called exactly when method, id and decode all pass; no field validation stands in between |
| `AnswerHandlers.AddAnswerForwardsInvalidAnswer` | internal/infrastructure/http/handlers/answers.go:41-66 | an empty text for question "0" reaches the service as an Answer that breaks the entity's own validity rules |
| `AnswerHandlers.AddAnswerServiceOutcome` | internal/infrastructure/http/handlers/answers.go:66-77 | service failure gives 400 `Error("failed to decode request body")` in an AddQuestionResponse; success gives 200 OK with the returned ID |
| `AnswerHandlers.GetAnswerOutcome` | internal/infrastructure/http/handlers/answers.go:103-114 | failure gives 400 in the list-questions shape with data nil; success gives 200 OK with the answer's text and created_at |
| `AnswerHandlers.DeleteAnswerOutcome` | internal/infrastructure/http/handlers/answers.go:141-152 | the wrapped id is passed to DeleteAnswer; failure gives 400 with an error envelope, success 200 with an OK envelope |
| `Middleware.InnerWriter.Write` | internal/infrastructure/http/middleware/response_writer.go:21 | the inner writer accepts a prefix of at most len(b) bytes and reports an error if it accepts fewer |
| `Middleware.ResponseWriter.constructor` | internal/infrastructure/http/middleware/response_writer.go:11-13 | a fresh wrapper has status 200 and has counted no bytes |
| `Middleware.ResponseWriter.WriteHeader` | internal/infrastructure/http/middleware/response_writer.go:15-18 | the status becomes the code (so the last call wins), the code is forwarded to the inner writer, and the byte count is unchanged |
| `Middleware.ResponseWriter.Write` | internal/infrastructure/http/middleware/response_writer.go:20-24 | the count grows by exactly the n the inner writer returned, error or not; the status is unchanged |
| `Middleware.ResponseWriter.Status` | internal/infrastructure/http/middleware/response_writer.go:26-28 | returns the recorded status without changing anything |
| `Middleware.ResponseWriter.BytesWritten` | internal/infrastructure/http/middleware/response_writer.go:30-32 | returns the count, which is the sum of the accepted n's and never exceeds the total length offered |
| `Middleware.AcceptedAtMostOffered` | internal/infrastructure/http/middleware/response_writer.go:22 | if each write accepts at most what it is offered, the accepted total is at most the offered total |

## Left out

- JSON encoding and decoding (`encoding/json`, `transport.WriteJSON`). Bodies are abstract decode outcomes and responses are values, so header writes, `Content-Type`, and an encoding error that `WriteJSON` returns and the handlers ignore are not modelled.
- `http.Error` appends a newline to its message and sets a plain-text content type. The model keeps only the message and the code.
- go-playground's reflection. Only the three tags the validated structs use (`required`, `min`, `max`) are modelled. `alphanum` and `oneof` appear only as messages. The type assertion to `ValidationErrors` cannot fail for a struct value, so it is not modelled.
- Strings are sequences of Unicode scalar values, so a length is a rune count. A Go string with invalid UTF-8 bytes cannot be represented.
- The service and storage layers (`service.go`, `storage.go`, `postgres.go`) are pure delegation to code that is not shown. They appear only as the result parameter of each handler. Cascading deletes, ordering by id and id assignment by the store are therefore out of scope.
- A service that returns a nil pointer with a nil error makes the Go handler panic. In the model, a successful service result always carries a value.
- Logging, including the shared `log = log.With(...)` reassignment. That is a hazard between concurrent requests, not part of one request's logic.
- Routing, configuration and bootstrap (`main.go`, `config.go`), and the request-id middleware (`req_id.go`).
- The unused builders `getAnswerResponseErr` and `deleteAnswerResponseErr`. The duplicate declarations in `handlers/dto/dto.go` and `internal/questionAnswer/model.go` are not modelled either; one copy of each type is.
- `time.Time` is an opaque value (`QA.Time`) that is only copied. `ZeroTime` stands for Go's zero time.
- The inner writer's own handling of repeated `WriteHeader` calls (Go keeps only the first one and logs the rest). The inner writer is a recorder of what it was sent.
- Middleware.ResponseWriter.Write: the count uses unbounded integers, so a Go `int` overflow after 2^63 bytes is not modelled.
- Rows.ValidEntitiesFitColumns: the password-hash column width (255) has no domain rule to compare with, so no bound is stated for it.
