/**
 * The contact form on the client: its own copy of the contact schema, the
 * default (empty) values, and the submit flow that raises `isSubmitting`,
 * posts, toasts, resets the form after an ok response only, and lowers
 * `isSubmitting` whatever the outcome.
 */
module ContactForm {
  import opened Common
  import ContactRoute

  const NAME_MIN := 2
  const SUBJECT_MIN := 5
  const MESSAGE_MIN := 10

  /** The four form fields. */
  datatype FormValues = FormValues(name: string, email: string, subject: string, message: string)

  /** The form's default values: all empty. */
  const DEFAULT_VALUES := FormValues("", "", "", "")

  /** The client schema; `isEmail` is the email-format check. */
  predicate ClientAccepts(v: FormValues, isEmail: string -> bool) {
    |v.name| >= NAME_MIN && isEmail(v.email) && |v.subject| >= SUBJECT_MIN && |v.message| >= MESSAGE_MIN
  }

  /** The JSON body the form posts. */
  function ToBody(v: FormValues): ContactRoute.ContactBody {
    ContactRoute.ContactBody(Some(v.name), Some(v.email), Some(v.subject), Some(v.message))
  }

  /**
   * Client and server schemas have the same bounds: the client accepts a form
   * exactly when the server would parse its body, and then to the same fields.
   */
  lemma ClientServerAgree(v: FormValues, isEmail: string -> bool)
    ensures ClientAccepts(v, isEmail) <==> ContactRoute.Parse(ToBody(v), isEmail).Some?
    ensures ClientAccepts(v, isEmail) ==>
              ContactRoute.Parse(ToBody(v), isEmail).value == ContactRoute.ContactSubmission(v.name, v.email, v.subject, v.message)
    ensures NAME_MIN == ContactRoute.NAME_MIN && SUBJECT_MIN == ContactRoute.SUBJECT_MIN
            && MESSAGE_MIN == ContactRoute.MESSAGE_MIN
  {
  }

  /** The default values fail validation whatever the email check says. */
  lemma DefaultsRejected(isEmail: string -> bool)
    ensures !ClientAccepts(DEFAULT_VALUES, isEmail)
  {
  }

  /** The two toasts the flow can show. */
  datatype Toast = SentToast | ErrorToast

  /** What the `fetch` produced: a network failure, or a response with its `ok` flag. */
  datatype SubmitResponse = NetworkFailure | Received(ok: bool)

  class ContactSection {
    var values: FormValues
    var isSubmitting: bool
    /** Every toast shown so far, oldest first. */
    var toasts: seq<Toast>

    constructor ()
      ensures values == DEFAULT_VALUES && !isSubmitting && toasts == []
    {
      values := DEFAULT_VALUES;
      isSubmitting := false;
      toasts := [];
    }

    /** The submit button is disabled while a submission is in flight. */
    predicate SubmitDisabled()
      reads this
    {
      isSubmitting
    }

    /** The user edits the fields. */
    method Edit(v: FormValues)
      modifies this
      ensures values == v && isSubmitting == old(isSubmitting) && toasts == old(toasts)
    {
      values := v;
    }

    /**
     * A click on the submit button: nothing while it is disabled; otherwise
     * the client schema runs, and a valid form starts the submission, raising
     * `isSubmitting` and returning the values to post.
     */
    method PressSubmit(isEmail: string -> bool) returns (sent: Option<FormValues>)
      modifies this
      ensures values == old(values) && toasts == old(toasts)
      ensures sent.Some? <==> !old(isSubmitting) && ClientAccepts(old(values), isEmail)
      ensures sent.Some? ==> sent.value == values && isSubmitting
      ensures sent.None? ==> isSubmitting == old(isSubmitting)
      ensures old(SubmitDisabled()) ==> sent.None? && SubmitDisabled()
      ensures sent.Some? ==> SubmitDisabled()
    {
      if isSubmitting || !ClientAccepts(values, isEmail) {
        return None;
      }
      isSubmitting := true;
      sent := Some(values);
    }

    /**
     * The end of a submission: an ok response shows the success toast and
     * resets the form to its defaults; a failure or a non-ok response shows
     * the error toast and keeps the fields. `isSubmitting` is false afterwards.
     */
    method Complete(response: SubmitResponse)
      modifies this
      ensures !isSubmitting
      ensures response == Received(true) ==> values == DEFAULT_VALUES && toasts == old(toasts) + [SentToast]
      ensures response != Received(true) ==> values == old(values) && toasts == old(toasts) + [ErrorToast]
    {
      if response == Received(true) {
        toasts := toasts + [SentToast];
        values := DEFAULT_VALUES;
      } else {
        toasts := toasts + [ErrorToast];
      }
      isSubmitting := false;
    }
  }

  /**
   * A whole submission from an idle form: a valid form is posted, shows
   * exactly one toast (success on an ok response, error otherwise), and is
   * idle again afterwards, reset only when the response was ok; an invalid
   * form changes nothing.
   */
  method SubmitOnce(form: ContactSection, isEmail: string -> bool, response: SubmitResponse)
    returns (sent: Option<FormValues>)
    requires !form.isSubmitting
    modifies form
    ensures !form.isSubmitting
    ensures sent.Some? <==> ClientAccepts(old(form.values), isEmail)
    ensures sent.Some? && response == Received(true) ==> form.values == DEFAULT_VALUES
    ensures sent.Some? && response != Received(true) ==> form.values == old(form.values)
    ensures sent.Some? ==> sent.value == old(form.values)
    ensures sent.Some? ==>
              form.toasts == old(form.toasts) + [if response == Received(true) then SentToast else ErrorToast]
    ensures sent.None? ==> form.values == old(form.values) && form.toasts == old(form.toasts)
  {
    sent := form.PressSubmit(isEmail);
    if sent.Some? {
      form.Complete(response);
    }
  }
}
