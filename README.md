# Booking notification relay: a Dafny model

QuickServe's `send-booking-notification` function takes a booking request posted by the web
client and e-mails it to the shop's administrator through the Resend e-mail API. This project
models the function's single request handler as pure functions. The model covers:

- the CORS preflight short-circuit;
- the check that five required fields are present;
- the mapping from the preferred-time keyword to its display label;
- the HTML e-mail document, built from constant markup and the request's values;
- the outbound message (sender, recipients, subject, body);
- the mapping from the provider's reply, or from an earlier failure, to the HTTP response.

Modules:

- `Wrappers` holds `Option`. A request field that JavaScript would see as `undefined` is `None`.
  `Template.Truthy` is JavaScript truthiness for a string: defined and non-empty.
- `Strings` defines `Infix` (substring) and `Concat` (joining a list of chunks), with the
  lemmas the template proofs use.
- `Template` has the time label and the e-mail document. The constant markup is the text of the
  template character by character, whitespace and emoji included (as Unicode characters; see
  "Left out"). Values are spliced in verbatim, without
  escaping. The document is a list of chunks: head, the four required field blocks, the three
  optional slots, the two call-to-action links, tail. Its properties are proved of `Layout`
  for any head and tail markup, so `EmailHtml` (the real head and tail) inherits them.
- `Handler` has the parsed request, the outcome of the handler (`Preflight`, `Fail(message)` or
  `Send(email)`), the provider reply and the HTTP response. `Serve` is the whole handler. The
  provider call is a function parameter that is consulted only for a send. `Sends` lists the
  e-mails a request causes (zero or one). An `Email` keeps the template inputs of its request
  (`content`), and its member `Html()` is the document they render to, which is the `html`
  field the code sends. Keeping the inputs lets the handler's properties that do not concern
  the document be stated without expanding it.

Two details of the code that the model follows as written:

- When the provider answers with a failure status, the code puts its error text into the 500
  body as `"Failed to send email: " + text`. It is not only logged.
- On success the body is `JSON.stringify(await res.json())`: the provider's JSON is parsed and
  serialised again. `Json(data)` passes `data` through as an opaque value.

## Model

| member | source | states |
|---|---|---|
| Template.Truthy | supabase/functions/send-booking-notification/index.ts:41 | a field is truthy if and only if it is present and not "", as `!x` tests a string |
| Template.TimeLabel | supabase/functions/send-booking-notification/index.ts:45-51 | the label is always one of the three fixed labels or "" |
| Template.TimeLabelTable | supabase/functions/send-booking-notification/index.ts:45-51 | "morning", "afternoon" and "evening" give their own label, each if and only if; every other value, absent included, gives "" |
| Template.TimeLabelRoundTrip | supabase/functions/send-booking-notification/index.ts:45-51 | a non-empty label determines its keyword (TimeSlot inverts TimeLabel), and TimeSlot recognises exactly the three labels |
| Template.OptionalBlock | supabase/functions/send-booking-notification/index.ts:92-109 | the conditional part of an optional field is empty if and only if the field is not truthy |
| Template.FieldHtmlShows | supabase/functions/send-booking-notification/index.ts:76-79 | a field block contains its heading, its value element and the value itself |
| Template.RequiredFieldsVerbatim | supabase/functions/send-booking-notification/index.ts:76-91 | the blocks of customer name, phone (as a tel: link), location and service are in the document, each value verbatim in its value element |
| Template.CallLinksAlwaysPresent | supabase/functions/send-booking-notification/index.ts:110-111 | the document always contains "tel:" + phone and "https://wa.me/91" + phone, with nothing in between |
| Template.OptionalSlotShows | supabase/functions/send-booking-notification/index.ts:92-97 | an optional slot grows by exactly its block and contains the field block when the field is truthy |
| Template.ProblemBlockIff | supabase/functions/send-booking-notification/index.ts:92-97 | removing the problem description changes the document if and only if it is truthy; when truthy its block is in the document |
| Template.DateBlockIff | supabase/functions/send-booking-notification/index.ts:98-103 | the same for the preferred date |
| Template.TimeBlockIff | supabase/functions/send-booking-notification/index.ts:104-109 | the same for the time label: the time block is there if and only if the label is non-empty |
| Template.Layout | supabase/functions/send-booking-notification/index.ts:53-119 | the document in template order; its contract is stated by RequiredFieldsVerbatim, CallLinksAlwaysPresent and the three BlockIff lemmas, for any head and tail markup |
| Template.EmailHtml | supabase/functions/send-booking-notification/index.ts:53-119 | Layout with the template's own head (lines 53-75) and tail (lines 112-119); the Layout lemmas apply to it, and the Notification lemmas below state them for a request |
| Template.ProblemBlockForgeable | supabase/functions/send-booking-notification/index.ts:76-97 | since nothing is escaped, a customer name holding the markup of a problem-description block puts that block's text in the document while the field is absent or "" |
| Handler.HasRequiredFields | supabase/functions/send-booking-notification/index.ts:41 | the check passes if and only if none of the five required fields is absent or "" |
| Handler.Handle | supabase/functions/send-booking-notification/index.ts:23-43 | the outcome is the preflight exactly for OPTIONS, and a send exactly when the body parsed and all five required fields are truthy |
| Handler.Notification | supabase/functions/send-booking-notification/index.ts:127-131 | the message has exactly one recipient and its subject contains the service; NotificationEnvelope gives its exact fields |
| Handler.PreflightResponse | supabase/functions/send-booking-notification/index.ts:24 | status 200 with exactly the two CORS headers |
| Handler.ErrorResponse | supabase/functions/send-booking-notification/index.ts:148-156 | status 500 with `{error: message}` for the given message, and both CORS headers present |
| Handler.DeliveryResponse | supabase/functions/send-booking-notification/index.ts:135-147 | status 200 if and only if the provider delivered; JSON and CORS headers whatever the reply |
| Handler.Sends | supabase/functions/send-booking-notification/index.ts:121-133 | a request causes at most one send |
| Handler.Serve | supabase/functions/send-booking-notification/index.ts:22-158 | every response carries both CORS headers, and its status is 200 or 500 |
| Handler.PreflightShortCircuit | supabase/functions/send-booking-notification/index.ts:23-25 | OPTIONS gives 200, body "ok" and the CORS headers; nothing is sent; the response depends on neither the body nor the provider |
| Handler.SendIff | supabase/functions/send-booking-notification/index.ts:23-43 | exactly one e-mail is sent if and only if the request is not OPTIONS, the body parsed and all five required fields are truthy; otherwise none |
| Handler.MissingFieldRejected | supabase/functions/send-booking-notification/index.ts:41-43 | a required field absent or "" gives Fail("Missing required fields"), no send, and 500 with `{error: "Missing required fields"}` and JSON headers, whatever the provider does |
| Handler.MalformedBodyRejected | supabase/functions/send-booking-notification/index.ts:28-37 | a body that does not read as a JSON record gives Fail with the parser's message, no send, and 500 |
| Handler.NotificationEnvelope | supabase/functions/send-booking-notification/index.ts:127-131 | the one send of an accepted request has sender "QuickServe <onboarding@resend.dev>", recipients exactly [adminEmail], subject "🔔 New Booking Request - " + service, and the rendered document as body |
| Handler.NotificationShowsRequired | supabase/functions/send-booking-notification/index.ts:76-111 | the sent document shows the four required values in their blocks and both phone links |
| Handler.NotificationProblemBlock | supabase/functions/send-booking-notification/index.ts:92-97 | in the sent document, dropping the problem description changes the document if and only if it is truthy; when truthy its block is there |
| Handler.NotificationDateBlock | supabase/functions/send-booking-notification/index.ts:98-103 | the same for the preferred date |
| Handler.NotificationTimeBlock | supabase/functions/send-booking-notification/index.ts:104-109 | dropping the preferred time changes the document if and only if it is "morning", "afternoon" or "evening"; then the block with its label is there |
| Handler.ReplyMapping | supabase/functions/send-booking-notification/index.ts:135-147 | for a send: status 200 if and only if the provider delivered; its data is passed through with JSON and CORS headers; a rejection gives 500 with "Failed to send email: " + its text; an exception gives 500 with its message |
| Handler.StatusCollapse | supabase/functions/send-booking-notification/index.ts:144-156 | status 200 exactly for a preflight or a delivered send; every other response is 500, and every non-preflight response has the JSON and CORS headers |

## Left out

- The call to api.resend.com and the `Authorization: Bearer` header built from the `RESEND_API_KEY` environment variable: network and environment access. The call is the `deliver` parameter and its reply is a `ProviderReply`. A missing key only shows up as whatever the provider replies.
- `req.json()` and `JSON.stringify`: foreign library calls. The body is given already parsed (`Parsed`) or as the parser's error message (`Malformed`). A JSON value that does not destructure also lands in `Malformed`.
- JSON field values other than strings (numbers, booleans, null, objects) and their truthiness. Every field is an optional string.
- `console.log`, `console.error` and `serve(handler)`: logging and runtime wiring.
- async/await sequencing: there is no concurrency.
- Headers the runtime adds on its own (such as the default Content-Type of the plain-text preflight response). The serialised text of the `{error: message}` body is not modelled either: `ErrorJson(message)` stands for it.
- A concrete worked request, for example "a@b.com", "Repair", "evening". Letting the verifier evaluate the template on literal values is too costly. `SendIff`, `NotificationEnvelope`, `TimeLabelTable` and the three `Notification…Block` lemmas state the same facts for every request.
- Template.ProblemBlockIff, Template.DateBlockIff, Template.TimeBlockIff: the "only if" half is stated as "the document equals the one rendered without the field". It is not stated as "the block's text is absent". Because values are not escaped, that text can come from another field (`ProblemBlockForgeable`).
- The string representation. A Dafny `string` is a sequence of Unicode scalar values; a JavaScript string is a sequence of UTF-16 code units. A character outside the Basic Multilingual Plane, such as the bell of the subject, is one Dafny character but two code units, and a JSON string holding an unpaired surrogate (`"\ud800"`) has no Dafny counterpart. Lengths in the lemmas (`ConcatUpdateLength`, `OptionalSlotShows`) count characters, not JavaScript's `.length`.
