/**
 * Form validation results as zod's `error.flatten().fieldErrors` gives
 * them: for each failing field, in schema order, its messages in order.
 */
module Forms {
  import opened Wrappers
  import opened JsArray

  datatype FieldError = FieldError(field: string, messages: seq<string>)

  type FieldErrors = seq<FieldError>

  /** The entry for one field; a field with no failing rule has none. */
  function Issues(field: string, messages: seq<string>): (e: FieldErrors)
    ensures e == [] <==> messages == []
  {
    if messages == [] then [] else [FieldError(field, messages)]
  }

  /** The message when `failed`, else nothing: one rule of a field. */
  function Rule(failed: bool, message: string): seq<string> {
    if failed then [message] else []
  }

  predicate HasField(errors: FieldErrors, field: string) {
    exists i :: 0 <= i < |errors| && errors[i].field == field
  }

  /** `errors[field]`: the messages of the field, if it has an entry. */
  function MessagesOf(errors: FieldErrors, field: string): (r: Option<seq<string>>)
    ensures r.Some? <==> HasField(errors, field)
  {
    match Find(errors, (e: FieldError) => e.field == field)
    case None => None
    case Some(e) => Some(e.messages)
  }

  /** No field appears twice, as in a JavaScript object. */
  predicate DistinctFields(errors: FieldErrors) {
    forall i, j :: 0 <= i < j < |errors| ==> errors[i].field != errors[j].field
  }
}
