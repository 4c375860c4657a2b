/**
 * The request handler of the booking-notification function: the preflight short-circuit,
 * required-field validation, the outbound e-mail it asks the provider to send, and the
 * mapping of the provider's reply (or of an earlier failure) to the HTTP response.
 * Reading the body, the provider call and the environment are inputs to this model.
 */
module Handler {
  import opened Wrappers
  import opened Strings
  import opened Template

  /** The parsed request body; every field may be missing, as in the JSON the client sends. */
  datatype BookingRequest = BookingRequest(
    adminEmail: Option<string>,
    customerName: Option<string>,
    phoneNumber: Option<string>,
    location: Option<string>,
    service: Option<string>,
    problemDescription: Option<string>,
    preferredDate: Option<string>,
    preferredTime: Option<string>)

  /** The result of reading the body as JSON: a record, or the message of the error thrown. */
  datatype Body = Parsed(booking: BookingRequest) | Malformed(message: string)

  datatype HttpRequest = HttpRequest(httpMethod: string, body: Body)

  type Header = (string, string)

  const CorsHeaders: seq<Header> := [
    ("Access-Control-Allow-Origin", "*"),
    ("Access-Control-Allow-Headers",
     "authorization, x-client-info, apikey, content-type, x-supabase-client-platform, " +
     "x-supabase-client-platform-version, x-supabase-client-runtime, x-supabase-client-runtime-version")]

  const JsonHeaders: seq<Header> := [("Content-Type", "application/json")] + CorsHeaders

  const Sender: string := "QuickServe <onboarding@resend.dev>"
  const SubjectPrefix: string := "\U{1F514} New Booking Request - "
  const MissingFieldsMessage: string := "Missing required fields"
  const SendFailurePrefix: string := "Failed to send email: "

  /** The message handed to the e-mail provider. It keeps the template inputs; its `html`
      member is the document they render to. */
  datatype Email = Email(from: string, to: seq<string>, subject: string, content: EmailFields) {
    function Html(): string {
      EmailHtml(content)
    }
  }

  /** What the handler decides before any reply from the provider. */
  datatype Outcome = Preflight | Fail(message: string) | Send(email: Email)

  /** The provider's answer: a success status with its JSON body, a failure status with its
      body text, or an exception (the network call failed, or reading the body of either
      answer failed). */
  datatype ProviderReply = Delivered(data: string) | Rejected(errorText: string) | Thrown(message: string)

  /** Response bodies: plain text, the provider's JSON passed through, or `{error: message}`. */
  datatype ResponseBody = Text(text: string) | Json(data: string) | ErrorJson(message: string)

  datatype Response = Response(status: int, headers: seq<Header>, body: ResponseBody)

  /** The five fields the handler checks, in the order it checks them. */
  function RequiredFields(b: BookingRequest): seq<Option<string>> {
    [b.adminEmail, b.customerName, b.phoneNumber, b.location, b.service]
  }

  /** All five required fields are truthy: none of them is absent or "". */
  predicate HasRequiredFields(b: BookingRequest)
    ensures HasRequiredFields(b) <==> None !in RequiredFields(b) && Some("") !in RequiredFields(b)
  {
    Truthy(b.adminEmail) && Truthy(b.customerName) && Truthy(b.phoneNumber) &&
    Truthy(b.location) && Truthy(b.service)
  }

  /** The template inputs of a validated request. */
  function Fields(b: BookingRequest): EmailFields
    requires HasRequiredFields(b)
  {
    EmailFields(b.customerName.value, b.phoneNumber.value, b.location.value, b.service.value,
                b.problemDescription, b.preferredDate, TimeLabel(b.preferredTime))
  }

  /** The notification e-mail of a validated request: one recipient, and a subject that
      names the service. */
  function Notification(b: BookingRequest): (e: Email)
    requires HasRequiredFields(b)
    ensures |e.to| == 1 && Infix(b.service.value, e.subject)
  {
    InfixOf(SubjectPrefix, b.service.value, "");
    assert SubjectPrefix + b.service.value + "" == SubjectPrefix + b.service.value;
    Email(Sender, [b.adminEmail.value], SubjectPrefix + b.service.value, Fields(b))
  }

  /** The handler up to the provider call: a preflight exactly for OPTIONS, a send exactly
      for a parsed body with all required fields. */
  function Handle(req: HttpRequest): (o: Outcome)
    ensures o.Preflight? <==> req.httpMethod == "OPTIONS"
    ensures o.Send? <==> req.httpMethod != "OPTIONS" && req.body.Parsed? && HasRequiredFields(req.body.booking)
  {
    if req.httpMethod == "OPTIONS" then Preflight
    else match req.body
      case Malformed(message) => Fail(message)
      case Parsed(b) => if HasRequiredFields(b) then Send(Notification(b)) else Fail(MissingFieldsMessage)
  }

  /** The e-mails the handler sends for a request. */
  function Sends(req: HttpRequest): (sent: seq<Email>)
    ensures |sent| <= 1
  {
    if Handle(req).Send? then [Handle(req).email] else []
  }

  /** The answer to a preflight: success, with the CORS headers. */
  function PreflightResponse(): (r: Response)
    ensures r.status == 200 && r.headers == CorsHeaders
  {
    Response(200, CorsHeaders, Text("ok"))
  }

  /** The response of the handler's catch block: an error carrying the message, with the
      CORS headers. */
  function ErrorResponse(message: string): (r: Response)
    ensures r.status == 500 && r.body.ErrorJson? && r.body.message == message
    ensures forall h :: h in CorsHeaders ==> h in r.headers
  {
    Response(500, JsonHeaders, ErrorJson(message))
  }

  /** The response once the provider has answered: success exactly when it delivered. */
  function DeliveryResponse(reply: ProviderReply): (r: Response)
    ensures r.status == 200 <==> reply.Delivered?
    ensures r.headers == JsonHeaders
  {
    match reply
    case Delivered(data) => Response(200, JsonHeaders, Json(data))
    case Rejected(errorText) => ErrorResponse(SendFailurePrefix + errorText)
    case Thrown(message) => ErrorResponse(message)
  }

  /** The whole handler; `deliver` stands for the provider call and is used only for a send. */
  function Serve(req: HttpRequest, deliver: Email -> ProviderReply): (r: Response)
    ensures forall h :: h in CorsHeaders ==> h in r.headers
    ensures r.status == 200 || r.status == 500
  {
    match Handle(req)
    case Preflight => PreflightResponse()
    case Fail(message) => ErrorResponse(message)
    case Send(email) => DeliveryResponse(deliver(email))
  }

  // ---------------------------------------------------------------------------
  // Properties of the handler
  // ---------------------------------------------------------------------------

  /** An OPTIONS request gets "ok" with the CORS headers, whatever its body and whatever the
      provider would do; nothing is sent. */
  lemma PreflightShortCircuit(req: HttpRequest, deliver: Email -> ProviderReply,
                              otherBody: Body, otherDeliver: Email -> ProviderReply)
    requires req.httpMethod == "OPTIONS"
    ensures Handle(req) == Preflight && Sends(req) == []
    ensures Serve(req, deliver) == Response(200, CorsHeaders, Text("ok"))
    ensures Serve(req, deliver) == Serve(req.(body := otherBody), otherDeliver)
  {
  }

  /** Exactly one e-mail is sent if and only if the request is not a preflight, its body parsed,
      and all five required fields are truthy; otherwise none is. */
  lemma SendIff(req: HttpRequest)
    ensures |Sends(req)| == 1 <==>
      req.httpMethod != "OPTIONS" && req.body.Parsed? && HasRequiredFields(req.body.booking)
    ensures |Sends(req)| == 0 <==> !Handle(req).Send?
  {
  }

  /** A request missing a required field (absent or "") fails with "Missing required fields",
      sends nothing, and is answered 500 with `{error: "Missing required fields"}`. */
  lemma MissingFieldRejected(req: HttpRequest, deliver: Email -> ProviderReply)
    requires req.httpMethod != "OPTIONS" && req.body.Parsed?
    requires None in RequiredFields(req.body.booking) || Some("") in RequiredFields(req.body.booking)
    ensures Handle(req) == Fail(MissingFieldsMessage) && Sends(req) == []
    ensures Serve(req, deliver) == Response(500, JsonHeaders, ErrorJson("Missing required fields"))
  {
  }

  /** A body that is not a JSON record fails with the parser's message, sends nothing, and is
      answered 500 like every other failure. */
  lemma MalformedBodyRejected(req: HttpRequest, deliver: Email -> ProviderReply)
    requires req.httpMethod != "OPTIONS" && req.body.Malformed?
    ensures Handle(req) == Fail(req.body.message) && Sends(req) == []
    ensures Serve(req, deliver) == Response(500, JsonHeaders, ErrorJson(req.body.message))
  {
  }

  /** The one e-mail of an accepted request: fixed sender, the admin address as the only
      recipient, the service in the subject, and as body the document of the request's values. */
  lemma NotificationEnvelope(req: HttpRequest)
    requires req.httpMethod != "OPTIONS" && req.body.Parsed? && HasRequiredFields(req.body.booking)
    ensures var b := req.body.booking;
      |Sends(req)| == 1 &&
      Sends(req)[0].from == "QuickServe <onboarding@resend.dev>" &&
      Sends(req)[0].to == [b.adminEmail.value] &&
      Sends(req)[0].subject == "\U{1F514} New Booking Request - " + b.service.value &&
      Sends(req)[0].Html() ==
        EmailHtml(EmailFields(b.customerName.value, b.phoneNumber.value, b.location.value, b.service.value,
                              b.problemDescription, b.preferredDate, TimeLabel(b.preferredTime)))
  {
  }

  /** The document of an accepted request shows every required value verbatim in its block,
      and both the call link and the chat link of the phone number. */
  lemma NotificationShowsRequired(b: BookingRequest)
    requires HasRequiredFields(b)
    ensures var html := Notification(b).Html();
      Infix(FieldHtml(CustomerNameHeading, b.customerName.value), html) &&
      Infix(FieldHtml(PhoneNumberHeading, PhoneLink(b.phoneNumber.value)), html) &&
      Infix(FieldHtml(LocationHeading, b.location.value), html) &&
      Infix(FieldHtml(ServiceHeading, b.service.value), html) &&
      Infix("tel:" + b.phoneNumber.value, html) &&
      Infix("https://wa.me/91" + b.phoneNumber.value, html)
  {
    RequiredFieldsVerbatim(Head, Tail, Fields(b));
    CallLinksAlwaysPresent(Head, Tail, Fields(b));
  }

  /** In the e-mail of an accepted request, the problem-description block changes the document
      exactly when the field is truthy, and is in the document when it is. */
  lemma NotificationProblemBlock(b: BookingRequest)
    requires HasRequiredFields(b)
    ensures Notification(b).Html() == Notification(b.(problemDescription := None)).Html()
      <==> !Truthy(b.problemDescription)
    ensures Truthy(b.problemDescription) ==>
      Infix(FieldHtml(ProblemHeading, b.problemDescription.value), Notification(b).Html())
  {
    assert Fields(b.(problemDescription := None)) == Fields(b).(problemDescription := None);
    ProblemBlockIff(Head, Tail, Fields(b));
  }

  /** The same for the preferred-date block. */
  lemma NotificationDateBlock(b: BookingRequest)
    requires HasRequiredFields(b)
    ensures Notification(b).Html() == Notification(b.(preferredDate := None)).Html()
      <==> !Truthy(b.preferredDate)
    ensures Truthy(b.preferredDate) ==>
      Infix(FieldHtml(DateHeading, b.preferredDate.value), Notification(b).Html())
  {
    assert Fields(b.(preferredDate := None)) == Fields(b).(preferredDate := None);
    DateBlockIff(Head, Tail, Fields(b));
  }

  /** The preferred-time block changes the document exactly when the keyword is one of the
      three, and then shows the keyword's label. */
  lemma NotificationTimeBlock(b: BookingRequest)
    requires HasRequiredFields(b)
    ensures Notification(b).Html() == Notification(b.(preferredTime := None)).Html()
      <==> b.preferredTime !in {Some("morning"), Some("afternoon"), Some("evening")}
    ensures TimeLabel(b.preferredTime) != "" ==>
      Infix(FieldHtml(TimeHeading, TimeLabel(b.preferredTime)), Notification(b).Html())
  {
    assert Fields(b.(preferredTime := None)) == Fields(b).(timeLabel := "");
    TimeBlockIff(Head, Tail, Fields(b));
    TimeLabelTable(b.preferredTime);
  }

  /** The response to an accepted request follows the provider's reply: its JSON passed through
      with status 200, or status 500 with "Failed to send email: " and its error text, or status
      500 with the message of the exception. */
  lemma ReplyMapping(req: HttpRequest, deliver: Email -> ProviderReply)
    requires Handle(req).Send?
    ensures var reply := deliver(Sends(req)[0]);
      var r := Serve(req, deliver);
      (r.status == 200 <==> reply.Delivered?) &&
      (reply.Delivered? ==> r == Response(200, JsonHeaders, Json(reply.data))) &&
      (reply.Rejected? ==> r == Response(500, JsonHeaders, ErrorJson("Failed to send email: " + reply.errorText))) &&
      (reply.Thrown? ==> r == Response(500, JsonHeaders, ErrorJson(reply.message)))
  {
  }

  /** No distinction by cause: the status is 200 exactly for a preflight or a delivered e-mail,
      and every other request, bad input or provider failure alike, gets 500. */
  lemma StatusCollapse(req: HttpRequest, deliver: Email -> ProviderReply)
    ensures Serve(req, deliver).status == 200 <==>
      req.httpMethod == "OPTIONS" || (|Sends(req)| == 1 && deliver(Sends(req)[0]).Delivered?)
    ensures req.httpMethod != "OPTIONS" ==> Serve(req, deliver).headers == JsonHeaders
  {
  }

}
