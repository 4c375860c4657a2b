/**
 * The notification e-mail of the booking handler: the preferred-time label and
 * the HTML document built from the request fields. Every constant chunk is the
 * exact text of the template, whitespace included; field values are spliced in
 * as they are, with no escaping.
 */
module Template {
  import opened Wrappers
  import opened Strings

  /** JavaScript truthiness of an optional string field: defined and non-empty. */
  predicate Truthy(f: Option<string>)
    ensures Truthy(f) <==> f != None && f != Some("")
  {
    f.Some? && f.value != ""
  }

  // ---------------------------------------------------------------------------
  // Preferred-time label
  // ---------------------------------------------------------------------------

  const MorningLabel: string := "Morning (8 AM - 12 PM)"
  const AfternoonLabel: string := "Afternoon (12 PM - 4 PM)"
  const EveningLabel: string := "Evening (4 PM - 8 PM)"

  /** The display label of a preferred-time keyword; "" for anything else. */
  function TimeLabel(preferredTime: Option<string>): (shown: string)
    ensures shown in {MorningLabel, AfternoonLabel, EveningLabel, ""}
  {
    if preferredTime == Some("morning") then MorningLabel
    else if preferredTime == Some("afternoon") then AfternoonLabel
    else if preferredTime == Some("evening") then EveningLabel
    else ""
  }

  /** The keyword a label stands for: the inverse of TimeLabel on its non-empty results. */
  function TimeSlot(text: string): (slot: Option<string>)
  {
    if text == MorningLabel then Some("morning")
    else if text == AfternoonLabel then Some("afternoon")
    else if text == EveningLabel then Some("evening")
    else None
  }

  /** The whole mapping: three keywords to three distinct labels, everything else to "". */
  lemma TimeLabelTable(preferredTime: Option<string>)
    ensures TimeLabel(preferredTime) == MorningLabel <==> preferredTime == Some("morning")
    ensures TimeLabel(preferredTime) == AfternoonLabel <==> preferredTime == Some("afternoon")
    ensures TimeLabel(preferredTime) == EveningLabel <==> preferredTime == Some("evening")
    ensures TimeLabel(preferredTime) == "" <==>
      preferredTime !in {Some("morning"), Some("afternoon"), Some("evening")}
  {
  }

  /** TimeSlot undoes TimeLabel, and TimeLabel undoes TimeSlot on the three labels. */
  lemma TimeLabelRoundTrip(preferredTime: Option<string>, text: string)
    ensures TimeLabel(preferredTime) != "" ==> TimeSlot(TimeLabel(preferredTime)) == preferredTime
    ensures TimeSlot(text).Some? ==> TimeLabel(TimeSlot(text)) == text
    ensures TimeSlot(text).None? <==> text !in {MorningLabel, AfternoonLabel, EveningLabel}
  {
  }

  // ---------------------------------------------------------------------------
  // Markup chunks
  // ---------------------------------------------------------------------------

  const Indent: string := "            "
  const InnerIndent: string := "              "

  const CustomerNameHeading: string := "\U{1F464} Customer Name"
  const PhoneNumberHeading: string := "\U{1F4DE} Phone Number"
  const LocationHeading: string := "\U{1F4CD} Location"
  const ServiceHeading: string := "\U{1F527} Service Required"
  const ProblemHeading: string := "\U{1F4DD} Problem Description"
  const DateHeading: string := "\U{1F4C5} Preferred Date"
  const TimeHeading: string := "\U{23F0} Preferred Time"

  /** Everything of the document before the first field block. */
  const Head: string :=
    "\n" +
    "      <!DOCTYPE html>\n" +
    "      <html>\n" +
    "      <head>\n" +
    "        <style>\n" +
    "          body { font-family: Arial, sans-serif; line-height: 1.6; color: #333; }\n" +
    "          .container { max-width: 600px; margin: 0 auto; padding: 20px; }\n" +
    "          .header { background: linear-gradient(135deg, #dc2626, #b91c1c); color: white; padding: 20px; border-radius: 8px 8px 0 0; }\n" +
    "          .content { background: #f9fafb; padding: 20px; border: 1px solid #e5e7eb; }\n" +
    "          .field { margin-bottom: 15px; }\n" +
    "          .label { font-weight: bold; color: #dc2626; }\n" +
    "          .value { margin-top: 4px; }\n" +
    "          .cta { background: #dc2626; color: white; padding: 12px 24px; text-decoration: none; border-radius: 6px; display: inline-block; margin-top: 15px; }\n" +
    "          .footer { padding: 15px; text-align: center; color: #6b7280; font-size: 12px; }\n" +
    "        </style>\n" +
    "      </head>\n" +
    "      <body>\n" +
    "        <div class=\"container\">\n" +
    "          <div class=\"header\">\n" +
    "            <h1 style=\"margin: 0;\">\U{1F6E0}\U{FE0F} New Booking Request</h1>\n" +
    "            <p style=\"margin: 10px 0 0 0;\">QuickServe - Coimbatore</p>\n" +
    "          </div>\n" +
    "          <div class=\"content\">\n"

  /** Everything of the document after the call-to-action links. */
  const Tail: string :=
    "          </div>\n" +
    "          <div class=\"footer\">\n" +
    "            <p>This is an automated notification from QuickServe booking system.</p>\n" +
    "          </div>\n" +
    "        </div>\n" +
    "      </body>\n" +
    "      </html>\n" +
    "    "

  /** The value element of a field block; the value is not escaped. */
  function ValueDiv(value: string): string {
    Concat(["<div class=\"value\">", value, "</div>"])
  }

  /** The chunks of one labelled field block. */
  function FieldParts(heading: string, value: string): seq<string> {
    [Indent, "<div class=\"field\">\n",
     InnerIndent, "<div class=\"label\">", heading, "</div>\n",
     InnerIndent, ValueDiv(value), "\n",
     Indent, "</div>\n"]
  }

  /** One labelled field block. */
  function FieldHtml(heading: string, value: string): string {
    Concat(FieldParts(heading, value))
  }

  /** The call link of a phone number: the number after "tel:", as it is. */
  function TelUri(phoneNumber: string): string {
    "tel:" + phoneNumber
  }

  /** The chat link of a phone number: the number after the country code 91, as it is. */
  function WhatsAppUri(phoneNumber: string): string {
    "https://wa.me/91" + phoneNumber
  }

  /** The value shown in the phone field: the number, linked to its call URI. */
  function PhoneLink(phoneNumber: string): string {
    Concat(["<a href=\"", TelUri(phoneNumber), "\">", phoneNumber, "</a>"])
  }

  /** The conditional part of an optional field: its block when the value is truthy, else nothing. */
  function OptionalBlock(heading: string, field: Option<string>): (block: string)
    ensures block == "" <==> !Truthy(field)
  {
    if Truthy(field) then Concat(["\n", FieldHtml(heading, field.value), Indent]) else ""
  }

  /** The template line that holds an optional field. */
  function OptionalSlot(heading: string, field: Option<string>): string {
    Concat([Indent, OptionalBlock(heading, field), "\n"])
  }

  /** The chunks of the two call-to-action links, always present. */
  function CallLinkParts(phoneNumber: string): seq<string> {
    [Indent, "<a href=\"", TelUri(phoneNumber), "\" class=\"cta\">\U{1F4DE} Call Customer Now</a>\n",
     Indent, "<a href=\"", WhatsAppUri(phoneNumber),
     "\" class=\"cta\" style=\"margin-left: 10px;\">\U{1F4AC} WhatsApp</a>\n"]
  }

  /** What the template interpolates: the four validated required values, the two optional
      fields as received, and the derived time label. */
  datatype EmailFields = EmailFields(
    customerName: string,
    phoneNumber: string,
    location: string,
    service: string,
    problemDescription: Option<string>,
    preferredDate: Option<string>,
    timeLabel: string)

  /** The chunks of a document with the given opening and closing markup, in template order:
      head, the four required blocks, the three optional slots, the call links, tail. */
  function LayoutParts(head: string, tail: string, f: EmailFields): seq<string> {
    [head,
     FieldHtml(CustomerNameHeading, f.customerName),
     FieldHtml(PhoneNumberHeading, PhoneLink(f.phoneNumber)),
     FieldHtml(LocationHeading, f.location),
     FieldHtml(ServiceHeading, f.service),
     OptionalSlot(ProblemHeading, f.problemDescription),
     OptionalSlot(DateHeading, f.preferredDate),
     OptionalSlot(TimeHeading, Some(f.timeLabel)),
     Concat(CallLinkParts(f.phoneNumber)),
     tail]
  }

  function Layout(head: string, tail: string, f: EmailFields): string {
    Concat(LayoutParts(head, tail, f))
  }

  /** The e-mail document of the handler. The properties below are proved of Layout for any
      opening and closing markup, so they hold of this one in particular. */
  function EmailHtml(f: EmailFields): string {
    Layout(Head, Tail, f)
  }

  // ---------------------------------------------------------------------------
  // Properties of the document
  // ---------------------------------------------------------------------------

  /** A field block shows its heading and its value, the value verbatim inside its value element. */
  lemma FieldHtmlShows(heading: string, value: string)
    ensures Infix(heading, FieldHtml(heading, value))
    ensures Infix(ValueDiv(value), FieldHtml(heading, value))
    ensures Infix(value, FieldHtml(heading, value))
  {
    ConcatInfix(FieldParts(heading, value), 4);
    ConcatInfix(FieldParts(heading, value), 7);
    ConcatInfix(["<div class=\"value\">", value, "</div>"], 1);
    InfixTrans(value, ValueDiv(value), FieldHtml(heading, value));
  }

  /** Every required value is embedded verbatim, each in its own labelled block. */
  lemma RequiredFieldsVerbatim(head: string, tail: string, f: EmailFields)
    ensures var html := Layout(head, tail, f);
      Infix(FieldHtml(CustomerNameHeading, f.customerName), html) &&
      Infix(FieldHtml(PhoneNumberHeading, PhoneLink(f.phoneNumber)), html) &&
      Infix(FieldHtml(LocationHeading, f.location), html) &&
      Infix(FieldHtml(ServiceHeading, f.service), html) &&
      Infix(ValueDiv(f.customerName), html) && Infix(ValueDiv(f.location), html) &&
      Infix(ValueDiv(f.service), html) && Infix(f.phoneNumber, html)
  {
    var parts := LayoutParts(head, tail, f);
    var html := Concat(parts);
    ConcatInfix(parts, 1);
    ConcatInfix(parts, 2);
    ConcatInfix(parts, 3);
    ConcatInfix(parts, 4);
    FieldHtmlShows(CustomerNameHeading, f.customerName);
    InfixTrans(ValueDiv(f.customerName), parts[1], html);
    FieldHtmlShows(LocationHeading, f.location);
    InfixTrans(ValueDiv(f.location), parts[3], html);
    FieldHtmlShows(ServiceHeading, f.service);
    InfixTrans(ValueDiv(f.service), parts[4], html);
    FieldHtmlShows(PhoneNumberHeading, PhoneLink(f.phoneNumber));
    ConcatInfix(["<a href=\"", TelUri(f.phoneNumber), "\">", f.phoneNumber, "</a>"], 3);
    InfixTrans(f.phoneNumber, PhoneLink(f.phoneNumber), parts[2]);
    InfixTrans(f.phoneNumber, parts[2], html);
  }

  /** The call link "tel:<number>" and the chat link "https://wa.me/91<number>" are always in the
      document, the number appended with no separator and no normalisation. */
  lemma CallLinksAlwaysPresent(head: string, tail: string, f: EmailFields)
    ensures Infix("tel:" + f.phoneNumber, Layout(head, tail, f))
    ensures Infix("https://wa.me/91" + f.phoneNumber, Layout(head, tail, f))
  {
    var parts := LayoutParts(head, tail, f);
    var links := CallLinkParts(f.phoneNumber);
    ConcatInfix(parts, 8);
    ConcatInfix(links, 2);
    ConcatInfix(links, 6);
    assert links[2] == TelUri(f.phoneNumber) && links[6] == WhatsAppUri(f.phoneNumber);
    assert parts[8] == Concat(links);
    InfixTrans(TelUri(f.phoneNumber), Concat(links), Concat(parts));
    InfixTrans(WhatsAppUri(f.phoneNumber), Concat(links), Concat(parts));
  }

  /** An optional slot grows by exactly its block, and holds the block when the field is truthy. */
  lemma OptionalSlotShows(heading: string, field: Option<string>)
    ensures |OptionalSlot(heading, field)| == |OptionalSlot(heading, None)| + |OptionalBlock(heading, field)|
    ensures Truthy(field) ==> Infix(FieldHtml(heading, field.value), OptionalSlot(heading, field))
  {
    ConcatUpdateLength([Indent, OptionalBlock(heading, None), "\n"], 1, OptionalBlock(heading, field));
    assert [Indent, OptionalBlock(heading, None), "\n"][1 := OptionalBlock(heading, field)]
        == [Indent, OptionalBlock(heading, field), "\n"];
    if Truthy(field) {
      ConcatInfix(["\n", FieldHtml(heading, field.value), Indent], 1);
      ConcatInfix([Indent, OptionalBlock(heading, field), "\n"], 1);
      InfixTrans(FieldHtml(heading, field.value), OptionalBlock(heading, field), OptionalSlot(heading, field));
    }
  }

  /** The problem-description block is in the document if and only if the field is truthy:
      leaving the field out changes the document exactly when it is truthy, and then its block is there. */
  lemma ProblemBlockIff(head: string, tail: string, f: EmailFields)
    ensures Layout(head, tail, f) == Layout(head, tail, f.(problemDescription := None))
      <==> !Truthy(f.problemDescription)
    ensures Truthy(f.problemDescription) ==>
      Infix(FieldHtml(ProblemHeading, f.problemDescription.value), Layout(head, tail, f))
  {
    var parts := LayoutParts(head, tail, f);
    var without := LayoutParts(head, tail, f.(problemDescription := None));
    assert parts == without[5 := OptionalSlot(ProblemHeading, f.problemDescription)];
    ConcatUpdateLength(without, 5, OptionalSlot(ProblemHeading, f.problemDescription));
    OptionalSlotShows(ProblemHeading, f.problemDescription);
    if Truthy(f.problemDescription) {
      ConcatInfix(parts, 5);
      InfixTrans(FieldHtml(ProblemHeading, f.problemDescription.value), parts[5], Concat(parts));
    }
  }

  /** The preferred-date block is in the document if and only if the field is truthy. */
  lemma DateBlockIff(head: string, tail: string, f: EmailFields)
    ensures Layout(head, tail, f) == Layout(head, tail, f.(preferredDate := None))
      <==> !Truthy(f.preferredDate)
    ensures Truthy(f.preferredDate) ==>
      Infix(FieldHtml(DateHeading, f.preferredDate.value), Layout(head, tail, f))
  {
    var parts := LayoutParts(head, tail, f);
    var without := LayoutParts(head, tail, f.(preferredDate := None));
    assert parts == without[6 := OptionalSlot(DateHeading, f.preferredDate)];
    ConcatUpdateLength(without, 6, OptionalSlot(DateHeading, f.preferredDate));
    OptionalSlotShows(DateHeading, f.preferredDate);
    if Truthy(f.preferredDate) {
      ConcatInfix(parts, 6);
      InfixTrans(FieldHtml(DateHeading, f.preferredDate.value), parts[6], Concat(parts));
    }
  }

  /** The preferred-time block is in the document if and only if the time label is non-empty. */
  lemma TimeBlockIff(head: string, tail: string, f: EmailFields)
    ensures Layout(head, tail, f) == Layout(head, tail, f.(timeLabel := ""))
      <==> f.timeLabel == ""
    ensures f.timeLabel != "" ==>
      Infix(FieldHtml(TimeHeading, f.timeLabel), Layout(head, tail, f))
  {
    var parts := LayoutParts(head, tail, f);
    var without := LayoutParts(head, tail, f.(timeLabel := ""));
    assert OptionalSlot(TimeHeading, Some("")) == OptionalSlot(TimeHeading, None);
    assert parts == without[7 := OptionalSlot(TimeHeading, Some(f.timeLabel))];
    ConcatUpdateLength(without, 7, OptionalSlot(TimeHeading, Some(f.timeLabel)));
    OptionalSlotShows(TimeHeading, Some(f.timeLabel));
    if f.timeLabel != "" {
      ConcatInfix(parts, 7);
      InfixTrans(FieldHtml(TimeHeading, f.timeLabel), parts[7], Concat(parts));
    }
  }

  /** Because values are not escaped, a required value can carry the markup of an optional block:
      the problem-description block's text can be in the document while the field is not truthy. */
  lemma ProblemBlockForgeable(head: string, tail: string, f: EmailFields, value: string)
    requires f.customerName == FieldHtml(ProblemHeading, value) && !Truthy(f.problemDescription)
    ensures Infix(FieldHtml(ProblemHeading, value), Layout(head, tail, f))
  {
    RequiredFieldsVerbatim(head, tail, f);
    FieldHtmlShows(CustomerNameHeading, f.customerName);
    InfixTrans(f.customerName, FieldHtml(CustomerNameHeading, f.customerName), Layout(head, tail, f));
  }

}
