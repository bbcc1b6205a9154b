/** The `spHeader` envelope the portal wraps around its JSON replies, and the
    two accessors the client reads it with. */
module Envelope {
  import opened Wrappers
  import opened PyJson

  const SpHeaderKey: string := "spHeader"
  const SuccessKey: string := "success"
  const CsrfKey: string := "csrf"
  const AuthLevelKey: string := "authLevel"
  const ErrorsKey: string := "errors"
  const MessageKey: string := "message"

  /** The shape the portal is trusted to send: an object whose `spHeader`,
      when present, is itself an object. */
  predicate WellFormed(result: Json) {
    result.Obj? && (SpHeaderKey in result.fields ==> result.fields[SpHeaderKey].Obj?)
  }

  /** `result` is an object with an object `spHeader` that holds `key`. */
  predicate HasField(result: Json, key: string) {
    && result.Obj?
    && SpHeaderKey in result.fields
    && result.fields[SpHeaderKey].Obj?
    && key in result.fields[SpHeaderKey].fields
  }

  /** Reference reading of a header field: `result.spHeader.key` when it is
      there, otherwise None. */
  function HeaderField(result: Json, key: string): Json {
    if HasField(result, key) then result.fields[SpHeaderKey].fields[key] else Null
  }

  /** The envelope's error list is a non-empty list whose first entry is an
      object carrying a `message`. */
  predicate HasMessage(result: Json) {
    var errors := HeaderField(result, ErrorsKey);
    && errors.Arr?
    && |errors.items| > 0
    && errors.items[0].Obj?
    && MessageKey in errors.items[0].fields
  }

  /** Reference reading of the first error message. */
  function Message(result: Json): Json
    requires HasMessage(result)
  {
    HeaderField(result, ErrorsKey).items[0].fields[MessageKey]
  }

  /** `getSpHeaderValue`: the header field when both `spHeader` and the key are
      present, None when either is missing, and a TypeError only when the
      reply is not shaped like an envelope. */
  function GetSpHeaderValue(result: Json, valueKey: string): (r: Result<Json, PyError>)
    ensures WellFormed(result) ==> r == Ok(HeaderField(result, valueKey))
    ensures r.Ok? ==> r.value == HeaderField(result, valueKey)
    ensures r.Err? ==> r.error == TypeError && !WellFormed(result)
    ensures result.Null? || result.Bool? || result.Num? ==> r == Err(TypeError)
  {
    var hasHeader :- Contains(result, SpHeaderKey);
    if !hasHeader then Ok(Null)
    else
      var header :- Subscript(result, SpHeaderKey);
      var hasValue :- Contains(header, valueKey);
      if !hasValue then Ok(Null) else Subscript(header, valueKey)
  }

  /** `getErrorValue`: only ValueError and IndexError are caught, so an empty
      error list gives None while a missing list (None[0]) raises TypeError
      and an entry without `message` raises KeyError. */
  function GetErrorValue(result: Json): (r: Result<Json, PyError>)
    ensures HasMessage(result) ==> r == Ok(Message(result))
    ensures r.Ok? && r.value != Null ==> HasMessage(result) && r.value == Message(result)
    ensures r.Err? ==> r.error == TypeError || r.error == KeyError
    ensures WellFormed(result) && HeaderField(result, ErrorsKey) == Arr([]) ==> r == Ok(Null)
    ensures WellFormed(result) && HeaderField(result, ErrorsKey) == Null ==> r == Err(TypeError)
    ensures r == Ok(Null) ==>
      || HeaderField(result, ErrorsKey) == Arr([])
      || HeaderField(result, ErrorsKey) == Str("")
      || (HasMessage(result) && Message(result) == Null)
    ensures WellFormed(result) && HeaderField(result, ErrorsKey).Arr? && |HeaderField(result, ErrorsKey).items| > 0
            && !HeaderField(result, ErrorsKey).items[0].Obj?
            ==> r == Err(TypeError)
    ensures WellFormed(result) && !HasMessage(result)
            && HeaderField(result, ErrorsKey).Arr? && |HeaderField(result, ErrorsKey).items| > 0
            && HeaderField(result, ErrorsKey).items[0].Obj?
            ==> r == Err(KeyError)
  {
    CatchValueOrIndex(ErrorsMessage(result))
  }

  /** The unguarded expression `getSpHeaderValue(result, "errors")[0]["message"]`. */
  function ErrorsMessage(result: Json): Result<Json, PyError> {
    var errors :- GetSpHeaderValue(result, ErrorsKey);
    var entry :- First(errors);
    Subscript(entry, MessageKey)
  }

  /** `except (ValueError, IndexError): return None`. */
  function CatchValueOrIndex(r: Result<Json, PyError>): Result<Json, PyError> {
    if r.Err? && (r.error == ValueError || r.error == IndexError) then Ok(Null) else r
  }
}
