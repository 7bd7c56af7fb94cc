/**
 * The serverless contact endpoint (api/contact.ts): a decision from the
 * request method and the four body fields to one JSON response.
 */
module ContactApi {
  import opened Wrappers

  /** The destructured body; a property the client did not send is None. */
  datatype Body = Body(name: Option<string>, email: Option<string>, subject: Option<string>, message: Option<string>)

  /** `verb` is req.method. */
  datatype Request = Request(verb: string, body: Body)

  /** The status code and JSON payload written to the response; `success` is absent on 405 and 400. */
  datatype Response = Response(status: nat, message: string, success: Option<bool>)

  const MethodNotAllowed := Response(405, "Method not allowed", None)
  const FieldsRequired := Response(400, "All fields are required", None)
  const Sent := Response(200, "Message sent successfully", Some(true))
  const SendFailed := Response(500, "Failed to send message", Some(false))

  /** JavaScript truthiness of a string-valued property: present and not "". */
  predicate Truthy(f: Option<string>) {
    f.Some? && f.value != ""
  }

  predicate AllFieldsPresent(b: Body) {
    Truthy(b.name) && Truthy(b.email) && Truthy(b.subject) && Truthy(b.message)
  }

  /**
   * The handler. `tryThrows` stands for an exception inside the try block
   * (logging or writing the 200 response), which the catch turns into 500.
   */
  function Handle(req: Request, tryThrows: bool): (r: Response)
    ensures r.status == 405 <==> req.verb != "POST"
    ensures r.status == 400 <==> req.verb == "POST" && !AllFieldsPresent(req.body)
    ensures r.status == 200 <==> req.verb == "POST" && AllFieldsPresent(req.body) && !tryThrows
    ensures r.status == 500 <==> req.verb == "POST" && AllFieldsPresent(req.body) && tryThrows
    ensures r.success.Some? <==> r.status == 200 || r.status == 500
    ensures r.success == Some(true) <==> r.status == 200
  {
    if req.verb != "POST" then MethodNotAllowed
    else if !AllFieldsPresent(req.body) then FieldsRequired
    else if tryThrows then SendFailed
    else Sent
  }

  /** Every request gets exactly one of the four responses. */
  lemma OneOfFourResponses(req: Request, tryThrows: bool)
    ensures Handle(req, tryThrows) in {MethodNotAllowed, FieldsRequired, Sent, SendFailed}
  {
  }

  /** The method is checked before the body: a non-POST request is 405 whatever its fields. */
  lemma MethodCheckedFirst(verb: string, b1: Body, b2: Body, t1: bool, t2: bool)
    requires verb != "POST"
    ensures Handle(Request(verb, b1), t1) == Handle(Request(verb, b2), t2) == MethodNotAllowed
  {
  }

  /** Validation is presence only: any two non-empty e-mail values get the same response. */
  lemma NoEmailFormatCheck(req: Request, e1: string, e2: string, tryThrows: bool)
    requires e1 != "" && e2 != ""
    ensures Handle(req.(body := req.body.(email := Some(e1))), tryThrows)
         == Handle(req.(body := req.body.(email := Some(e2))), tryThrows)
  {
  }

  /** A POST whose fields are all non-empty is accepted unless the try block throws. */
  lemma CompleteSubmissionAccepted(name: string, email: string, subject: string, message: string)
    requires name != "" && email != "" && subject != "" && message != ""
    ensures Handle(Request("POST", Body(Some(name), Some(email), Some(subject), Some(message))), false) == Sent
  {
  }
}
