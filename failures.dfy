/**
 * The `catch` clauses of the page handlers: which message a thrown value
 * becomes, including the clean-up of create-instance errors.
 */
module Failures {
  import opened Wrappers
  import opened JsString
  import opened Api

  /**
   * The clause most handlers share: an `Error`'s message, else a thrown
   * string, else the handler's own `fallback`.
   */
  function CaughtMessage(e: Thrown, fallback: string): (r: string)
    ensures e.JsError? ==> r == e.message
    ensures e.JsText? ==> r == e.text
    ensures e.OtherValue? ==> r == fallback
  {
    match e
    case JsError(m) => m
    case JsText(t) => t
    case OtherValue => fallback
  }

  /**
   * The narrower clause of the course list and the instance detail page: an
   * `Error`'s message, else `fallback`, even for a thrown string.
   */
  function ErrorMessageOr(e: Thrown, fallback: string): (r: string)
    ensures e.JsError? ==> r == e.message
    ensures !e.JsError? ==> r == fallback
  {
    if e.JsError? then e.message else fallback
  }

  /**
   * The two clauses agree on every `Error`; on a thrown string only the
   * first shows the string, and on any other value both show the fallback.
   */
  lemma CatchClausesCompared(e: Thrown, fallback: string)
    ensures e.JsError? ==> CaughtMessage(e, fallback) == ErrorMessageOr(e, fallback) == e.message
    ensures e.JsText? ==> CaughtMessage(e, fallback) == e.text && ErrorMessageOr(e, fallback) == fallback
    ensures e.OtherValue? ==> CaughtMessage(e, fallback) == ErrorMessageOr(e, fallback) == fallback
  {
  }

  /** The marker the create-instance handlers look for. */
  const CreateInstanceMarker := "Failed to create instance:"

  /**
   * `message.includes(marker) ? message.split(marker)[1].trim() : message`:
   * the text after the first marker, up to the next one, trimmed. The shown
   * text never contains the marker, and a message without it is shown as is.
   */
  function CleanCreateInstanceError(m: string): (r: string)
    ensures !Includes(r, CreateInstanceMarker)
    ensures !Includes(m, CreateInstanceMarker) ==> r == m
    ensures Includes(m, CreateInstanceMarker) ==> r == Trim(SplitSecond(m, CreateInstanceMarker))
  {
    if Includes(m, CreateInstanceMarker) then
      var segment := SplitSecond(m, CreateInstanceMarker);
      TrimKeepsAbsence(segment, CreateInstanceMarker);
      Trim(segment)
    else m
  }

  /** The whole `catch` clause of both create-instance handlers. */
  function CreateInstanceFailureMessage(e: Thrown): (r: string)
    ensures e.JsError? ==> r == CleanCreateInstanceError(e.message) && !Includes(r, CreateInstanceMarker)
    ensures e.JsError? && !Includes(e.message, CreateInstanceMarker) ==> r == e.message
    ensures e.JsText? ==> r == e.text
    ensures e.OtherValue? ==> r == "Failed to create instance."
  {
    match e
    case JsError(m) => CleanCreateInstanceError(m)
    case JsText(t) => t
    case OtherValue => "Failed to create instance."
  }

  /**
   * The API's own fallback for a failed create, `"Failed to create
   * instance: " + statusText`, is shown as the trimmed status text whenever
   * the status text does not itself contain the marker.
   */
  lemma FallbackShownAsStatusText(statusText: string)
    requires !Includes(statusText, CreateInstanceMarker)
    ensures CleanCreateInstanceError(CreateInstancePrefix + statusText) == Trim(statusText)
  {
    var m := CreateInstancePrefix + statusText;
    var marker := CreateInstanceMarker;
    assert m == marker + (" " + statusText);
    assert OccursAt(m, marker, 0) by {
      assert m[0..|marker|] == marker;
    }
    assert IndexOf(m, marker) == Some(0);
    var rest := m[|marker|..];
    assert rest == " " + statusText;
    IncludesPastPrefix(" ", statusText, marker);
    var segment := SplitSecond(m, marker);
    assert segment == rest;
    TrimSkipsWhitespace(" ", statusText);
  }

  /** A server `detail` that does not mention the marker is shown word for word. */
  lemma DetailShownWhole(detail: string)
    requires !Includes(detail, CreateInstanceMarker)
    ensures CreateInstanceFailureMessage(JsError(detail)) == detail
  {
  }
}
