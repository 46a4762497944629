/**
 * The contact form's submit handler up to the network call: the three fields are
 * trimmed, and the form is only sent when none of them is empty.
 */
module ContactForm {
  import opened Text

  /** The status text shown when a field is empty. */
  const FieldsRequired: string := "// All fields required before transmission."

  /** What the handler does: show the error status and stop, or go on to send the trimmed fields. */
  datatype Submission =
    | Refused(status: string)
    | Transmit(name: string, email: string, message: string)

  /** The field check of the submit handler. */
  function Submit(name: string, email: string, message: string): (r: Submission)
    ensures r.Refused? <==> Trim(name) == "" || Trim(email) == "" || Trim(message) == ""
    ensures r.Refused? ==> r.status == FieldsRequired
    ensures r.Transmit? ==> r == Transmit(Trim(name), Trim(email), Trim(message))
  {
    var n, e, m := Trim(name), Trim(email), Trim(message);
    if n == "" || e == "" || m == "" then Refused(FieldsRequired) else Transmit(n, e, m)
  }

  /** A field holding only whitespace (or nothing) blocks the submission. */
  lemma BlankFieldRefused(name: string, email: string, message: string)
    requires || (forall k :: 0 <= k < |name| ==> IsWhitespace(name[k]))
             || (forall k :: 0 <= k < |email| ==> IsWhitespace(email[k]))
             || (forall k :: 0 <= k < |message| ==> IsWhitespace(message[k]))
    ensures Submit(name, email, message) == Refused(FieldsRequired)
  {
    if forall k :: 0 <= k < |name| ==> IsWhitespace(name[k]) {
      TrimAllWhitespace(name);
    } else if forall k :: 0 <= k < |email| ==> IsWhitespace(email[k]) {
      TrimAllWhitespace(email);
    } else {
      TrimAllWhitespace(message);
    }
  }

  /** What is sent is non-empty and already trimmed: trimming it again changes nothing. */
  lemma {:induction false} TransmittedFields(name: string, email: string, message: string)
    requires Submit(name, email, message).Transmit?
    ensures var r := Submit(name, email, message);
      && r.name != "" && r.email != "" && r.message != ""
      && Trim(r.name) == r.name && Trim(r.email) == r.email && Trim(r.message) == r.message
  {
    TrimIdempotent(name);
    TrimIdempotent(email);
    TrimIdempotent(message);
  }
}
