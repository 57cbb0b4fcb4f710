/**
 * The response envelope shared by every JSON response: a status word and, on failure, a
 * map from field name (or "error") to a human-readable message.
 */
module Validator {
  import opened Wrappers
  import opened Constraints

  const StatusOK: string := "OK"
  const StatusError: string := "Error"

  /** `ValidationResponse`; `errors` is None where the Go map is nil (JSON `null`). */
  datatype ValidationResponse = ValidationResponse(status: string, errors: Option<map<string, string>>)

  /** The zero value of the struct, which an embedding struct carries when nothing sets it. */
  function Zero(): ValidationResponse {
    ValidationResponse("", None)
  }

  /** `OK()`. */
  function OK(): ValidationResponse {
    ValidationResponse(StatusOK, None)
  }

  /** `Error(msg)`. */
  function Error(msg: string): ValidationResponse {
    ValidationResponse(StatusError, Some(map["error" := msg]))
  }

  const RequiredMessage: string := "Это поле обязательно"
  const AlphanumMessage: string := "Допустимы только латинские буквы и цифры"

  /** The message for one failed tag; a tag the switch has no case for (`max` among them) gives "". */
  function TagMessage(tag: string, param: string): string {
    if tag == "required" then RequiredMessage
    else if tag == "alphanum" then AlphanumMessage
    else if tag == "min" then "Минимум " + param + " символов"
    else if tag == "oneof" then "Ввидите валидное значение: " + param
    else ""
  }

  function Message(e: FieldError): string {
    TagMessage(e.tag, e.param)
  }

  /** The field names that occur in a list of failures. */
  function Fields(errs: seq<FieldError>): set<string> {
    set i | 0 <= i < |errs| :: errs[i].field
  }

  /** No failure after position i names the same field as the one at i. */
  predicate LastFor(errs: seq<FieldError>, i: int)
    requires 0 <= i < |errs|
  {
    forall j :: i < j < |errs| ==> errs[j].field != errs[i].field
  }

  /**
   * The map `ValidationError` fills in: the failures are visited in order and each one
   * overwrites the entry of its field, so for every field the last failure's message stays.
   */
  function ErrorMessages(errs: seq<FieldError>): (m: map<string, string>)
    ensures m.Keys == Fields(errs)
    ensures forall i :: 0 <= i < |errs| && LastFor(errs, i) ==> m[errs[i].field] == Message(errs[i])
  {
    if errs == [] then map[]
    else
      var init, last := errs[..|errs| - 1], errs[|errs| - 1];
      assert errs == init + [last];
      var m := ErrorMessages(init);
      ExtendMessages(init, last, m);
      m[last.field := Message(last)]
  }

  /** One more failure: its field joins the key set and its message becomes that field's entry. */
  lemma ExtendMessages(init: seq<FieldError>, last: FieldError, m: map<string, string>)
    requires m.Keys == Fields(init)
    requires forall i :: 0 <= i < |init| && LastFor(init, i) ==> m[init[i].field] == Message(init[i])
    ensures m[last.field := Message(last)].Keys == Fields(init + [last])
    ensures forall i :: 0 <= i < |init + [last]| && LastFor(init + [last], i) ==>
              m[last.field := Message(last)][(init + [last])[i].field] == Message((init + [last])[i])
  {
    var errs, m' := init + [last], m[last.field := Message(last)];
    assert Fields(errs) == Fields(init) + {last.field} by {
      assert forall i :: 0 <= i < |init| ==> errs[i] == init[i];
      assert errs[|init|] == last;
    }
    forall i | 0 <= i < |errs| && LastFor(errs, i) ensures m'[errs[i].field] == Message(errs[i]) {
      if i < |init| {
        assert errs[|init|] == last;
        assert errs[i] == init[i];
        assert LastFor(init, i) by {
          forall j | i < j < |init| ensures init[j].field != init[i].field {
            assert errs[j] == init[j];
          }
        }
      }
    }
  }

  /** The value `ValidationError(errs)` returns. */
  function ValidationErrorOf(errs: seq<FieldError>): ValidationResponse {
    ValidationResponse(StatusError, Some(ErrorMessages(errs)))
  }

  /** `ValidationError`: one loop over the failures, writing each message into the map in place. */
  method ValidationError(errs: seq<FieldError>) returns (r: ValidationResponse)
    ensures r == ValidationErrorOf(errs)
    ensures r.status == StatusError && r.errors.Some? && r.errors.value.Keys == Fields(errs)
    ensures forall i :: 0 <= i < |errs| && LastFor(errs, i) ==> r.errors.value[errs[i].field] == Message(errs[i])
  {
    var errorsMap: map<string, string> := map[];
    for i := 0 to |errs|
      invariant errorsMap == ErrorMessages(errs[..i])
    {
      var e := errs[i];
      errorsMap := errorsMap[e.field := TagMessage(e.tag, e.param)];
      assert errs[..i + 1][..i] == errs[..i];
    }
    assert errs[..|errs|] == errs;
    r := ValidationResponse(StatusError, Some(errorsMap));
  }

  /** OK carries status "OK" and no error map. */
  lemma OKHasNoErrors()
    ensures OK().status == StatusOK && OK().errors == None
  {
  }

  /** Error(msg) carries status "Error" and exactly one entry, "error" mapped to msg. */
  lemma ErrorHasOneEntry(msg: string)
    ensures Error(msg).status == StatusError && Error(msg).errors.Some?
    ensures Error(msg).errors.value.Keys == {"error"} && Error(msg).errors.value["error"] == msg
  {
  }

  /** Even with no failures ValidationError reports "Error", with an empty (non-nil) map. */
  lemma NoFailuresStillError()
    ensures ValidationErrorOf([]) == ValidationResponse(StatusError, Some(map[]))
  {
  }

  /** The four tags with a case, and the empty message for every other tag. */
  lemma TagMessages(tag: string, param: string)
    ensures TagMessage("required", param) == "Это поле обязательно"
    ensures TagMessage("alphanum", param) == "Допустимы только латинские буквы и цифры"
    ensures TagMessage("min", param) == "Минимум " + param + " символов"
    ensures TagMessage("oneof", param) == "Ввидите валидное значение: " + param
    ensures TagMessage("max", param) == ""
    ensures tag !in {"required", "alphanum", "min", "oneof"} ==> TagMessage(tag, param) == ""
  {
  }

  /** A message is empty exactly when the tag has no case (the cased messages are never empty). */
  lemma EmptyMessageIff(tag: string, param: string)
    ensures TagMessage(tag, param) == "" <==> tag !in {"required", "alphanum", "min", "oneof"}
  {
  }

  /** Of two failures for one field, the later one's message is the one kept. */
  lemma {:induction false} LaterFailureWins(errs: seq<FieldError>, a: FieldError, b: FieldError)
    requires a.field == b.field
    ensures ErrorMessages(errs + [a, b]) == ErrorMessages(errs)[b.field := Message(b)]
  {
    var s := errs + [a, b];
    assert s[..|s| - 1] == errs + [a];
    assert (errs + [a])[..|errs|] == errs;
  }
}
