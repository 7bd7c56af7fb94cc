/**
 * The Portal Gate contact page (src/pages/Contact.tsx): the form record, the
 * submitting flag, and the submit handler with the network call abstracted
 * to its outcome.
 */
module ContactForm {
  import opened Wrappers
  import ContactApi

  datatype Field = Name | Email | Subject | Message

  datatype FormData = FormData(name: string, email: string, subject: string, message: string) {

    function Get(f: Field): string {
      match f
      case Name => name
      case Email => email
      case Subject => subject
      case Message => message
    }

    /** `{ ...prev, [f]: v }`: the named field takes the new value, the other three keep theirs. */
    function With(f: Field, v: string): (r: FormData)
      ensures r.Get(f) == v
      ensures forall g | g != f :: r.Get(g) == Get(g)
    {
      match f
      case Name => this.(name := v)
      case Email => this.(email := v)
      case Subject => this.(subject := v)
      case Message => this.(message := v)
    }
  }

  const EmptyForm := FormData("", "", "", "")

  /** What `fetch` and `response.json()` came to: a parsed reply, or an exception from either. */
  datatype FetchOutcome = Responded(ok: bool, success: Option<bool>) | Threw

  datatype Toast = SentToast | FailedToast

  /**
   * `response.ok && data.success`, with `success` read for truthiness: only an
   * ok reply whose payload says `success: true` counts; an exception, a non-ok
   * status, and an absent or false `success` all fail.
   */
  predicate Succeeded(o: FetchOutcome): (b: bool)
    ensures b <==> o == Responded(true, Some(true))
  {
    o.Responded? && o.ok && o.success == Some(true)
  }

  /** The POST that `JSON.stringify(formData)` produces: every field is sent, empty or not. */
  function RequestOf(fd: FormData): (req: ContactApi.Request)
    ensures req.verb == "POST"
    ensures ContactApi.AllFieldsPresent(req.body) <==> forall f: Field :: fd.Get(f) != ""
  {
    assert fd.Get(Name) == fd.name && fd.Get(Email) == fd.email;
    assert fd.Get(Subject) == fd.subject && fd.Get(Message) == fd.message;
    ContactApi.Request("POST", ContactApi.Body(Some(fd.name), Some(fd.email), Some(fd.subject), Some(fd.message)))
  }

  /** How the browser reports a reply: `ok` for a 2xx status, and the payload's `success`. */
  function OutcomeOf(r: ContactApi.Response): FetchOutcome {
    Responded(200 <= r.status < 300, r.success)
  }

  /**
   * Whether the browser lets the submit event through: all four inputs carry
   * `required`, and the e-mail input's format check is supplied as `emailFormatOk`.
   */
  predicate Submittable(fd: FormData, emailFormatOk: bool) {
    (forall f: Field :: fd.Get(f) != "") && emailFormatOk
  }

  class ContactPage {
    var formData: FormData
    var isSubmitting: bool
    /** The toasts shown so far, oldest first. */
    var toasts: seq<Toast>
    /** The request sent by the pending handleSubmit, if one is awaiting its outcome. */
    ghost var pending: Option<ContactApi.Request>

    /** `isSubmitting` holds exactly while a sent request awaits its outcome. */
    ghost predicate Valid()
      reads this
    {
      isSubmitting <==> pending.Some?
    }

    constructor ()
      ensures Valid()
      ensures formData == EmptyForm && !isSubmitting && toasts == [] && pending == None
    {
      formData := EmptyForm;
      isSubmitting := false;
      toasts := [];
      pending := None;
    }

    /** The submit button is disabled exactly while a sent request is waiting for its outcome. */
    function SubmitDisabled(): (disabled: bool)
      requires Valid()
      reads this
      ensures disabled <==> pending.Some?
    {
      isSubmitting
    }

    /** handleInputChange for the input named `f`. */
    method HandleInputChange(f: Field, v: string)
      requires Valid()
      modifies this
      ensures Valid()
      ensures formData == old(formData).With(f, v)
      ensures isSubmitting == old(isSubmitting) && toasts == old(toasts) && pending == old(pending)
    {
      formData := formData.With(f, v);
    }

    /**
     * A press of the submit button, up to the `fetch` call: nothing happens if
     * the button is disabled or the browser's validation blocks the event;
     * otherwise `isSubmitting` is set and the request for the current form is sent.
     */
    method Submit(emailFormatOk: bool) returns (sent: Option<ContactApi.Request>)
      requires Valid()
      modifies this
      ensures Valid()
      ensures sent.Some? <==> !old(SubmitDisabled()) && Submittable(old(formData), emailFormatOk)
      ensures sent.Some? ==> isSubmitting && pending == sent && sent.value == RequestOf(formData)
      ensures sent.None? ==> isSubmitting == old(isSubmitting) && pending == old(pending)
      ensures formData == old(formData) && toasts == old(toasts)
    {
      if isSubmitting || !Submittable(formData, emailFormatOk) {
        return None;
      }
      isSubmitting := true;
      sent := Some(RequestOf(formData));
      pending := sent;
    }

    /**
     * The rest of handleSubmit once the network call settles: clear the form
     * and toast on success, keep the form and show the destructive toast on any
     * failure, and clear `isSubmitting` in `finally`. Edits made while the
     * request was in flight are what a failure keeps and a success discards.
     */
    method Settle(outcome: FetchOutcome)
      requires Valid() && pending.Some?
      modifies this
      ensures Valid()
      ensures !isSubmitting && pending == None
      ensures formData == if Succeeded(outcome) then EmptyForm else old(formData)
      ensures toasts == old(toasts) + [if Succeeded(outcome) then SentToast else FailedToast]
    {
      if Succeeded(outcome) {
        toasts := toasts + [SentToast];
        formData := EmptyForm;
      } else {
        toasts := toasts + [FailedToast];
      }
      isSubmitting := false;
      pending := None;
    }
  }

  /** The page counts a reply as a success exactly when the handler answered 200. */
  lemma {:induction false} SuccessIffHandlerAccepted(req: ContactApi.Request, tryThrows: bool)
    ensures Succeeded(OutcomeOf(ContactApi.Handle(req, tryThrows))) <==> ContactApi.Handle(req, tryThrows).status == 200
  {
    var r := ContactApi.Handle(req, tryThrows);
    if r.status == 200 {
      assert r.success == Some(true);
    }
  }

  /** A request the browser lets through always has its four fields, so the handler never answers 400 or 405 to it. */
  lemma FormRequestsPassValidation(fd: FormData, emailFormatOk: bool, tryThrows: bool)
    requires Submittable(fd, emailFormatOk)
    ensures ContactApi.Handle(RequestOf(fd), tryThrows).status in {200, 500}
    ensures Succeeded(OutcomeOf(ContactApi.Handle(RequestOf(fd), tryThrows))) <==> !tryThrows
  {
    SuccessIffHandlerAccepted(RequestOf(fd), tryThrows);
  }

  /** The handler's 400 and 405 replies always take the page's failure path. */
  lemma RejectionsTakeFailurePath(req: ContactApi.Request, tryThrows: bool)
    requires ContactApi.Handle(req, tryThrows).status in {400, 405}
    ensures !Succeeded(OutcomeOf(ContactApi.Handle(req, tryThrows)))
  {
    SuccessIffHandlerAccepted(req, tryThrows);
  }

  /** A whole exchange: fill in the form, submit, and let the handler answer. */
  method SubmitScenario(tryThrows: bool)
  {
    var page := new ContactPage();
    page.HandleInputChange(Name, "Ada");
    page.HandleInputChange(Email, "ada@example.com");
    page.HandleInputChange(Subject, "Hello");
    var blocked := page.Submit(true);
    assert page.formData.Get(Message) == "" && blocked == None && !page.isSubmitting;
    page.HandleInputChange(Message, "A quest");
    var sent := page.Submit(true);
    assert sent.Some? && page.SubmitDisabled();
    var again := page.Submit(true);
    assert again == None;
    var reply := ContactApi.Handle(sent.value, tryThrows);
    FormRequestsPassValidation(page.formData, true, tryThrows);
    var filled := page.formData;
    page.Settle(OutcomeOf(reply));
    assert !page.isSubmitting;
    assert page.formData == if tryThrows then filled else EmptyForm;
  }
}
