/**
 * The inbound email webhook route: the body is parsed by content type and then
 * normalised by the first provider format it matches (Resend, SendGrid, Mailgun,
 * Postmark, then a generic shape); an unrecognised payload is acknowledged and ignored.
 */
module EmailWebhook {
  import opened Wrappers
  import opened Json
  import opened WebhookCommon

  const FailureMessage := "Failed to process email webhook"

  /** `JSON.parse`: None when the text is not JSON. */
  type JsonParser = string -> Option<Value>
  /** `new URLSearchParams(text).entries()`. */
  type FormParser = string -> seq<(string, string)>

  datatype Attachment = Attachment(filename: Value, contentType: Value, size: Value)

  /** `EmailTriggerData`: the fields are what the payload held (after the `||` defaults), not necessarily strings. */
  datatype EmailTriggerData = EmailTriggerData(
    provider: string, from: Value, to: Value, subject: Value, body: Value, html: Value, cc: Value,
    replyTo: Value, date: Value, messageId: Value, attachments: seq<Attachment>, raw: Value)

  function AttachmentValue(a: Attachment): Value {
    Obj(map["filename" := a.filename, "contentType" := a.contentType, "size" := a.size])
  }

  function ToValue(d: EmailTriggerData): (r: Value)
    ensures r.Obj? && "provider" in r.fields && "raw" in r.fields
    ensures r.fields["provider"] == Str(d.provider) && r.fields["raw"] == d.raw
  {
    var head := map["provider" := Str(d.provider), "from" := d.from, "to" := d.to, "subject" := d.subject,
                    "body" := d.body, "html" := d.html];
    var tail := map["cc" := d.cc, "replyTo" := d.replyTo, "date" := d.date, "messageId" := d.messageId,
                    "attachments" := Arr(seq(|d.attachments|, i requires 0 <= i < |d.attachments| =>
                                               AttachmentValue(d.attachments[i]))),
                    "raw" := d.raw];
    Obj(head + tail)
  }

  /** `Array.isArray(v) ? v.join(", ") : (v || "")`. */
  function JoinedOr(v: Value): (r: Value)
    ensures v.Arr? ==> r == Str(Join(v.items, ", "))
    ensures !v.Arr? ==> r == Or(v, Str(""))
  {
    if v.Arr? then Str(Join(v.items, ", ")) else Or(v, Str(""))
  }

  function ResendAttachment(a: Value): Attachment {
    Attachment(Or3(OptGet(a, "filename"), OptGet(a, "name"), Str("")),
               Or3(OptGet(a, "content_type"), OptGet(a, "type"), Str("")), OptGet(a, "size"))
  }

  function PostmarkAttachment(a: Value): Attachment {
    Attachment(Or(OptGet(a, "Name"), Str("")), Or(OptGet(a, "ContentType"), Str("")), OptGet(a, "ContentLength"))
  }

  /** `Array.isArray(v) ? v.map(...) : []`; reading a field of a null element throws (None). */
  function Attachments(v: Value, postmark: bool): (r: Option<seq<Attachment>>)
    ensures !v.Arr? ==> r == Some([])
    ensures v.Arr? ==> (r.None? <==> exists i | 0 <= i < |v.items| :: IsNullish(v.items[i]))
    ensures r.Some? && v.Arr? ==> |r.value| == |v.items|
  {
    if !v.Arr? then Some([])
    else if exists i | 0 <= i < |v.items| :: IsNullish(v.items[i]) then None
    else Some(seq(|v.items|, i requires 0 <= i < |v.items| =>
                if postmark then PostmarkAttachment(v.items[i]) else ResendAttachment(v.items[i])))
  }

  function F(payload: Value, key: string): Value {
    OptGet(payload, key)
  }

  predicate IsResend(p: Value) { F(p, "type") == Str("email.received") && Truthy(F(p, "data")) }
  predicate IsSendGrid(p: Value) { Truthy(F(p, "envelope")) || (Truthy(F(p, "charsets")) && Truthy(F(p, "from"))) }
  predicate IsMailgun(p: Value) { Truthy(F(p, "sender")) && Truthy(F(p, "recipient")) && F(p, "body-plain") != Undefined }
  predicate IsPostmark(p: Value) { Truthy(F(p, "From")) && F(p, "TextBody") != Undefined }
  predicate IsGeneric(p: Value) { Truthy(F(p, "from")) || Truthy(F(p, "sender")) || Truthy(F(p, "email")) }

  function Resend(p: Value): Option<EmailTriggerData> {
    var d := F(p, "data");
    match Attachments(F(d, "attachments"), false)
    case None => None
    case Some(attachments) =>
      Some(EmailTriggerData("resend", Or(F(d, "from"), Str("")), JoinedOr(F(d, "to")), Or(F(d, "subject"), Str("")),
                            Or3(F(d, "text"), F(d, "plain_text"), Str("")), Or(F(d, "html"), Str("")), JoinedOr(F(d, "cc")),
                            Or3(F(d, "reply_to"), F(d, "replyTo"), Str("")), Or3(F(d, "created_at"), F(d, "date"), Str("")),
                            Or(F(d, "message_id"), Str("")), attachments, p))
  }

  function SendGrid(p: Value): EmailTriggerData {
    EmailTriggerData("sendgrid", Or(F(p, "from"), Str("")), Or(F(p, "to"), Str("")), Or(F(p, "subject"), Str("")),
                     Or(F(p, "text"), Str("")), Or(F(p, "html"), Str("")), Or(F(p, "cc"), Str("")),
                     Or(F(p, "from"), Str("")), Or3(F(p, "Date"), F(p, "date"), Str("")),
                     Or3(F(p, "Message-Id"), F(p, "message_id"), Str("")), [], p)
  }

  function Mailgun(p: Value): EmailTriggerData {
    EmailTriggerData("mailgun", Or3(F(p, "sender"), F(p, "from"), Str("")), Or(F(p, "recipient"), Str("")),
                     Or(F(p, "subject"), Str("")), Or(F(p, "body-plain"), Str("")), Or(F(p, "body-html"), Str("")),
                     Or3(F(p, "Cc"), F(p, "cc"), Str("")), Or3(F(p, "Reply-To"), F(p, "sender"), Str("")),
                     Or3(F(p, "Date"), F(p, "date"), Str("")), Or(F(p, "Message-Id"), Str("")), [], p)
  }

  function Postmark(p: Value): Option<EmailTriggerData> {
    match Attachments(F(p, "Attachments"), true)
    case None => None
    case Some(attachments) =>
      Some(EmailTriggerData("postmark", Or3(F(F(p, "FromFull"), "Email"), F(p, "From"), Str("")),
                            Or3(F(F(p, "ToFull"), "Email"), F(p, "To"), Str("")), Or(F(p, "Subject"), Str("")),
                            Or(F(p, "TextBody"), Str("")), Or(F(p, "HtmlBody"), Str("")), Or(F(p, "Cc"), Str("")),
                            Or3(F(p, "ReplyTo"), F(p, "From"), Str("")), Or(F(p, "Date"), Str("")),
                            Or(F(p, "MessageID"), Str("")), attachments, p))
  }

  function Generic(p: Value): EmailTriggerData {
    var body := Or(F(p, "body"), Or(F(p, "text"), Or(F(p, "message"), Or(F(p, "content"), Str("")))));
    EmailTriggerData("generic", Or(F(p, "from"), Or(F(p, "sender"), Or(F(p, "email"), Str("")))),
                     Or3(F(p, "to"), F(p, "recipient"), Str("")), Or(F(p, "subject"), Str("")), body,
                     Or(F(p, "html"), Str("")), Or(F(p, "cc"), Str("")), Or3(F(p, "replyTo"), F(p, "reply_to"), Str("")),
                     Or(F(p, "date"), Str("")), Or3(F(p, "messageId"), F(p, "message_id"), Str("")), [], p)
  }

  /** `normalizeEmailPayload`: Ok(None) for an unrecognised payload, Err when reading a field throws. */
  function Normalize(p: Value): Result<Option<EmailTriggerData>, string> {
    if IsNullish(p) then Err(FailureMessage)
    else if IsResend(p) then (match Resend(p) case None => Err(FailureMessage) case Some(d) => Ok(Some(d)))
    else if IsSendGrid(p) then Ok(Some(SendGrid(p)))
    else if IsMailgun(p) then Ok(Some(Mailgun(p)))
    else if IsPostmark(p) then (match Postmark(p) case None => Err(FailureMessage) case Some(d) => Ok(Some(d)))
    else if IsGeneric(p) then Ok(Some(Generic(p)))
    else Ok(None)
  }

  /** The provider tag of the first format a payload matches, "" for none. */
  function FirstFormat(p: Value): string {
    if IsResend(p) then "resend"
    else if IsSendGrid(p) then "sendgrid"
    else if IsMailgun(p) then "mailgun"
    else if IsPostmark(p) then "postmark"
    else if IsGeneric(p) then "generic"
    else ""
  }

  /** The body by content type; text that is not JSON under any other type becomes `{ body: text }`. */
  function ParsePayload(request: HttpRequest, parseJson: JsonParser, parseForm: FormParser): (r: Parsed)
    ensures var contentType := Lookup(request.headers, "content-type");
      r.Unreadable? <==> if Contains(contentType, "multipart/form-data") then request.form.None? else request.text.None?
    ensures var contentType := Lookup(request.headers, "content-type");
      r.InvalidJson? ==> !Contains(contentType, "multipart/form-data") && Contains(contentType, "application/json")
  {
    var contentType := Lookup(request.headers, "content-type");
    if Contains(contentType, "multipart/form-data") then
      (match request.form case None => Unreadable case Some(entries) => Parsed(FieldsObject(Fields(entries))))
    else
      match request.text
      case None => Unreadable
      case Some(text) =>
        if Contains(contentType, "application/json") then
          (match parseJson(text) case None => InvalidJson case Some(v) => Parsed(v))
        else if Contains(contentType, "application/x-www-form-urlencoded") then
          Parsed(FieldsObject(Fields(TextEntries(parseForm(text)))))
        else
          match parseJson(text) case None => Parsed(Obj(map["body" := Str(text)])) case Some(v) => Parsed(v)
  }

  /** `POST`. */
  function Post(request: HttpRequest, parseJson: JsonParser, parseForm: FormParser, dispatch: Dispatch): (r: RouteResult)
    ensures |r.started| <= 1
    ensures forall run | run in r.started :: run.workflowId == Lookup(request.query, "workflowId") && run.workflowId != ""
  {
    var workflowId := Lookup(request.query, "workflowId");
    if workflowId == "" then Respond(400, ErrorBody(MissingWorkflowId))
    else
      match ParsePayload(request, parseJson, parseForm)
      case InvalidJson => Respond(400, ErrorBody("Invalid JSON"))
      case Unreadable => Failure(FailureMessage)
      case Parsed(payload) =>
        match Normalize(payload)
        case Err(m) => Failure(m)
        case Ok(None) => Respond(200, Ignored)
        case Ok(Some(d)) =>
          Start(RunRequest(workflowId, Obj(map["email" := ToValue(d)])), dispatch,
                Obj(map["success" := Bool(true), "provider" := Str(d.provider)]), FailureMessage)
  }

  /** `GET`: a fixed status document. */
  function Get(query: map<string, string>): (r: RouteResult)
    ensures r.status == 200 && r.started == []
  {
    var workflowId := Lookup(query, "workflowId");
    Respond(200, Obj(map[
      "status" := Str("ok"), "message" := Str("Email webhook endpoint is active"),
      "workflowId" := Str(if workflowId != "" then workflowId else "not specified"),
      "supportedProviders" := Arr([Str("resend"), Str("sendgrid"), Str("mailgun"), Str("postmark"), Str("generic")])]))
  }

  // ---- Properties ----

  /** The first matching format wins: a recognised payload carries the tag of the first format it matches,
      and a payload matching none is not recognised. Only Resend and Postmark can throw, on a null attachment. */
  lemma FirstMatchWins(p: Value)
    requires !IsNullish(p)
    ensures Normalize(p).Ok? && Normalize(p).value.Some? ==> Normalize(p).value.value.provider == FirstFormat(p)
    ensures Normalize(p) == Ok(None) <==> FirstFormat(p) == ""
    ensures Normalize(p).Err? ==> FirstFormat(p) in {"resend", "postmark"}
  {
  }

  /** Every recognised payload keeps the original as `raw`; SendGrid, Mailgun and generic payloads never carry attachments. */
  lemma RawAndAttachments(p: Value)
    requires Normalize(p).Ok? && Normalize(p).value.Some?
    ensures var d := Normalize(p).value.value;
      && d.raw == p
      && (d.provider in {"sendgrid", "mailgun", "generic"} ==> d.attachments == [])
  {
  }

  /** Resend's array-valued `to` and `cc` are joined with ", ". */
  lemma ResendJoinsRecipients(p: Value)
    requires !IsNullish(p) && IsResend(p) && Normalize(p).Ok?
    ensures var d := Normalize(p).value.value;
      var data := F(p, "data");
      && (F(data, "to").Arr? ==> d.to == Str(Join(F(data, "to").items, ", ")))
      && (F(data, "cc").Arr? ==> d.cc == Str(Join(F(data, "cc").items, ", ")))
  {
  }

  /** Text that is not JSON, under a content type that is neither JSON nor a form, is wrapped as `{ body }`,
      which matches no format: the delivery is ignored. */
  lemma FallbackBodyIgnored(request: HttpRequest, parseJson: JsonParser, parseForm: FormParser, dispatch: Dispatch)
    requires Lookup(request.query, "workflowId") != ""
    requires var contentType := Lookup(request.headers, "content-type");
      !Contains(contentType, "multipart/form-data") && !Contains(contentType, "application/json") &&
      !Contains(contentType, "application/x-www-form-urlencoded")
    requires request.text.Some? && parseJson(request.text.value).None?
    ensures Post(request, parseJson, parseForm, dispatch) == Respond(200, Ignored)
  {
    var p := Obj(map["body" := Str(request.text.value)]);
    assert FirstFormat(p) == "";
  }

  /** A missing workflow id, and invalid JSON under a JSON content type, are answered 400 without a run. */
  lemma Rejections(request: HttpRequest, parseJson: JsonParser, parseForm: FormParser, dispatch: Dispatch)
    ensures Lookup(request.query, "workflowId") == "" ==>
      Post(request, parseJson, parseForm, dispatch) == Respond(400, ErrorBody(MissingWorkflowId))
    ensures var contentType := Lookup(request.headers, "content-type");
      Lookup(request.query, "workflowId") != "" && !Contains(contentType, "multipart/form-data") &&
      Contains(contentType, "application/json") && request.text.Some? && parseJson(request.text.value).None? ==>
      Post(request, parseJson, parseForm, dispatch) == Respond(400, ErrorBody("Invalid JSON"))
    ensures var contentType := Lookup(request.headers, "content-type");
      Lookup(request.query, "workflowId") != "" &&
      (if Contains(contentType, "multipart/form-data") then request.form.None? else request.text.None?) ==>
      Post(request, parseJson, parseForm, dispatch) == Failure(FailureMessage)
  {
  }

  /** A recognised payload starts exactly one run with `{ email: normalized }`; an unrecognised one starts none. */
  lemma OneRunPerEmail(request: HttpRequest, parseJson: JsonParser, parseForm: FormParser, dispatch: Dispatch)
    requires Lookup(request.query, "workflowId") != ""
    requires ParsePayload(request, parseJson, parseForm).Parsed?
    ensures var p := ParsePayload(request, parseJson, parseForm).payload;
      var r := Post(request, parseJson, parseForm, dispatch);
      && (Normalize(p) == Ok(None) ==> r == Respond(200, Ignored))
      && (Normalize(p).Ok? && Normalize(p).value.Some? ==>
            r.started == [RunRequest(Lookup(request.query, "workflowId"), Obj(map["email" := ToValue(Normalize(p).value.value)]))]
            && (dispatch(r.started[0]) ==> r.body == Obj(map["success" := Bool(true), "provider" := Str(Normalize(p).value.value.provider)])))
  {
  }
}
