/** The feedback form (app/feedback/page.tsx): the payload it sends and its two flags. */
module Feedback {
  import opened Wrappers
  import opened Api

  /** The four feedback types, by their form value. */
  const FeedbackTypes: seq<string> := ["general", "bug", "feature", "content"]

  /** The type the select starts with. */
  const DefaultFeedbackType: string := "general"

  lemma FeedbackTypesFacts()
    ensures |FeedbackTypes| == 4
    ensures forall i, j :: 0 <= i < j < |FeedbackTypes| ==> FeedbackTypes[i] != FeedbackTypes[j]
  {
  }

  /** The select's initial value is one of the listed types, the first. */
  lemma DefaultTypeListed()
    ensures DefaultFeedbackType in FeedbackTypes && DefaultFeedbackType == FeedbackTypes[0]
  {
  }

  /** The four form fields as the browser hands them over. */
  datatype FormFields = FormFields(name: string, email: string, feedbackType: string, message: string)

  /** The request body: exactly the four fields, taken unchanged from the form. */
  function Payload(form: FormFields): (r: FeedbackData)
    ensures r.name == form.name && r.email == form.email
    ensures r.feedbackType == form.feedbackType && r.message == form.message
  {
    FeedbackData(form.name, form.email, form.feedbackType, form.message)
  }

  /** The body carries every field: different forms send different bodies. */
  lemma PayloadInjective(a: FormFields, b: FormFields)
    ensures Payload(a) == Payload(b) ==> a == b
  {
  }

  /**
   * The page's state. A reply is `Success(ok)` with the response's `ok` flag,
   * or `Failure` when the request itself failed.
   */
  class FeedbackForm {
    var isSubmitting: bool
    var submitted: bool

    constructor ()
      ensures !isSubmitting && !submitted
    {
      isSubmitting := false;
      submitted := false;
    }

    /** The start of `handleSubmit`: the request is under way and its body is built. */
    method BeginSubmit(form: FormFields) returns (body: FeedbackData)
      modifies this
      ensures isSubmitting && submitted == old(submitted)
      ensures body == Payload(form)
    {
      isSubmitting := true;
      body := Payload(form);
    }

    /** The end of `handleSubmit`: only an ok reply marks the form submitted; the request is over in every case. */
    method CompleteSubmit(reply: Result<bool, ApiError>)
      modifies this
      ensures !isSubmitting
      ensures reply == Success(true) ==> submitted
      ensures reply != Success(true) ==> submitted == old(submitted)
    {
      if reply.Success? && reply.value {
        submitted := true;
      }
      isSubmitting := false;
    }

    /** "Send Another Feedback" brings the form back. */
    method SendAnother()
      modifies this
      ensures !submitted && isSubmitting == old(isSubmitting)
    {
      submitted := false;
    }
  }

  /** A whole attempt from a shown form that is refused or fails leaves the form shown and idle. */
  method FailedSubmitKeepsForm(f: FeedbackForm, form: FormFields, reply: Result<bool, ApiError>) returns (body: FeedbackData)
    requires !f.submitted && reply != Success(true)
    modifies f
    ensures !f.submitted && !f.isSubmitting && body == Payload(form)
  {
    body := f.BeginSubmit(form);
    f.CompleteSubmit(reply);
  }
}
