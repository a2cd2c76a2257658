/**
 * The WhatsApp webhook route: the Meta verification handshake (`GET`) and inbound
 * messages (`POST`) from Twilio (form-encoded) or the Meta Cloud API (JSON),
 * normalised into `{ provider, from, body, senderName, raw }`.
 */
module WhatsAppWebhook {
  import opened Wrappers
  import opened Json
  import opened WebhookCommon

  const FailureMessage := "Failed to process WhatsApp message"

  /** `JSON.parse`: None when the text is not JSON. */
  type JsonParser = string -> Option<Value>
  /** `new URLSearchParams(text).entries()`. */
  type FormParser = string -> seq<(string, string)>

  /** `GET`: the challenge is echoed (as the text body) only for `subscribe` with the workflow id as token. */
  function Get(query: map<string, string>): (r: RouteResult)
    ensures r.started == []
  {
    var mode := Lookup(query, "hub.mode");
    var token := Lookup(query, "hub.verify_token");
    if mode != "" && token != "" then
      if mode == "subscribe" && token == Lookup(query, "workflowId") then Respond(200, Str(Lookup(query, "hub.challenge")))
      else Respond(403, ErrorBody("Forbidden"))
    else Respond(400, ErrorBody("Bad Request"))
  }

  /** The body text, whatever the content type, then the payload by content type: JSON,
      URL-encoded fields, or `{}`. */
  function ParsePayload(request: HttpRequest, parseJson: JsonParser, parseForm: FormParser): (r: Parsed)
    ensures r.Unreadable? <==> request.text.None?
    ensures r.InvalidJson? ==> Contains(Lookup(request.headers, "content-type"), "application/json")
  {
    match request.text
    case None => Unreadable
    case Some(text) =>
      var contentType := Lookup(request.headers, "content-type");
      if Contains(contentType, "application/json") then
        (match parseJson(text) case None => InvalidJson case Some(v) => Parsed(v))
      else if Contains(contentType, "application/x-www-form-urlencoded") then
        Parsed(FieldsObject(Fields(TextEntries(parseForm(text)))))
      else Parsed(Obj(map[]))
  }

  /** `payload.From?.replace("whatsapp:", "")`: a TypeError (None) when `From` is neither a string nor nullish. */
  function TwilioSender(from: Value): (r: Option<Value>)
    ensures IsNullish(from) ==> r == Some(Undefined)
    ensures from.Str? ==> r == Some(Str(ReplaceFirst(from.s, "whatsapp:", "")))
  {
    if from.Str? then Some(Str(ReplaceFirst(from.s, "whatsapp:", "")))
    else if IsNullish(from) then Some(Undefined)
    else None
  }

  predicate IsTwilio(payload: Value) {
    Truthy(OptGet(payload, "SmsMessageSid")) || Truthy(OptGet(payload, "MessageSid"))
  }

  predicate IsMeta(payload: Value) {
    OptGet(payload, "object") == Str("whatsapp_business_account")
  }

  /** `change?.value?.<key>?.[0]` of the first change of the first entry. */
  function FirstOf(payload: Value, key: string): Value {
    var change := OptIndex(OptGet(OptIndex(OptGet(payload, "entry"), 0), "changes"), 0);
    OptIndex(OptGet(OptGet(change, "value"), key), 0)
  }

  function Normalized(provider: string, from: Value, body: Value, senderName: Value, payload: Value): Value {
    Obj(map["provider" := Str(provider), "from" := from, "body" := body, "senderName" := senderName, "raw" := payload])
  }

  /** The trigger data: Ok(None) when the payload is neither a Twilio message nor a Meta message, Err on a TypeError. */
  function Normalize(payload: Value): Result<Option<Value>, string> {
    if IsNullish(payload) then Err(FailureMessage)
    else if IsTwilio(payload) then
      match TwilioSender(OptGet(payload, "From"))
      case None => Err(FailureMessage)
      case Some(from) =>
        Ok(Some(Normalized("twilio", Or(from, Str("")), Or(OptGet(payload, "Body"), Str("")),
                           Or(OptGet(payload, "ProfileName"), Str("Unknown")), payload)))
    else if IsMeta(payload) then
      var message := FirstOf(payload, "messages");
      var contact := FirstOf(payload, "contacts");
      if Truthy(message) then
        Ok(Some(Normalized("meta", Or(OptGet(message, "from"), Str("")),
                           Or(OptGet(OptGet(message, "text"), "body"), Str("")),
                           Or(OptGet(OptGet(contact, "profile"), "name"), Str("Unknown")), payload)))
      else Ok(None)
    else Ok(None)
  }

  /** `POST`. */
  function Post(request: HttpRequest, parseJson: JsonParser, parseForm: FormParser, dispatch: Dispatch): (r: RouteResult)
    ensures |r.started| <= 1
    ensures forall run | run in r.started :: run.workflowId == Lookup(request.query, "workflowId") && run.workflowId != ""
  {
    var workflowId := Lookup(request.query, "workflowId");
    if workflowId == "" then Respond(400, ErrorBody(MissingWorkflowId))
    else
      match ParsePayload(request, parseJson, parseForm)
      case Unreadable => Failure(FailureMessage)
      case InvalidJson => Respond(400, ErrorBody("Invalid JSON"))
      case Parsed(payload) =>
        match Normalize(payload)
        case Err(m) => Failure(m)
        case Ok(None) => Respond(200, Ignored)
        case Ok(Some(triggerData)) =>
          Start(RunRequest(workflowId, Obj(map["whatsapp" := triggerData])), dispatch, Accepted, FailureMessage)
  }

  // ---- Properties ----

  /** With both mode and token present: 200 with the challenge iff the mode is `subscribe` and the token is
      the workflow id, 403 otherwise. Without either: 400. No branch starts a run. */
  lemma VerifyHandshake(query: map<string, string>)
    ensures var r := Get(query);
      var mode := Lookup(query, "hub.mode");
      var token := Lookup(query, "hub.verify_token");
      && r.started == []
      && (mode != "" && token != "" ==>
            (r.status == 200 <==> mode == "subscribe" && token == Lookup(query, "workflowId"))
            && (r.status == 200 ==> r.body == Str(Lookup(query, "hub.challenge")))
            && (r.status != 200 ==> r.status == 403))
      && (mode == "" || token == "" ==> r == Respond(400, ErrorBody("Bad Request")))
  {
  }

  /** A missing workflow id and invalid JSON are answered 400 without a run, and a body that cannot
      be read is answered by the catch-all 500; a body of any other content type is read as `{}` and
      so ignored. */
  lemma Rejections(request: HttpRequest, parseJson: JsonParser, parseForm: FormParser, dispatch: Dispatch)
    ensures Lookup(request.query, "workflowId") == "" ==>
      Post(request, parseJson, parseForm, dispatch) == Respond(400, ErrorBody(MissingWorkflowId))
    ensures var contentType := Lookup(request.headers, "content-type");
      Lookup(request.query, "workflowId") != "" && Contains(contentType, "application/json") &&
      request.text.Some? && parseJson(request.text.value).None? ==>
      Post(request, parseJson, parseForm, dispatch) == Respond(400, ErrorBody("Invalid JSON"))
    ensures var contentType := Lookup(request.headers, "content-type");
      Lookup(request.query, "workflowId") != "" && request.text.Some? && !Contains(contentType, "application/json") &&
      !Contains(contentType, "application/x-www-form-urlencoded") ==>
      Post(request, parseJson, parseForm, dispatch) == Respond(200, Ignored)
    ensures Lookup(request.query, "workflowId") != "" && request.text.None? ==>
      Post(request, parseJson, parseForm, dispatch) == Failure(FailureMessage)
  {
    var contentType := Lookup(request.headers, "content-type");
    if Lookup(request.query, "workflowId") != "" && request.text.None? {
      assert ParsePayload(request, parseJson, parseForm) == Unreadable;
    } else if Lookup(request.query, "workflowId") != "" {
      var text := request.text.value;
      if Contains(contentType, "application/json") {
        if parseJson(text).None? {
          assert ParsePayload(request, parseJson, parseForm) == InvalidJson;
        }
      } else if !Contains(contentType, "application/x-www-form-urlencoded") {
        assert ParsePayload(request, parseJson, parseForm) == Parsed(Obj(map[]));
        assert Normalize(Obj(map[])) == Ok(None);
      }
    }
  }

  /** Twilio is tested first: a payload with a message SID is Twilio even when it also looks like Meta;
      `whatsapp:` is removed from the sender, and the body and name default to "" and "Unknown". */
  lemma TwilioFirst(payload: Value, number: string)
    requires !IsNullish(payload) && IsTwilio(payload) && OptGet(payload, "From") == Str("whatsapp:" + number)
    ensures var r := Normalize(payload);
      && r.Ok? && r.value.Some? && r.value.value.fields["provider"] == Str("twilio")
      && r.value.value.fields["from"] == Or(Str(number), Str(""))
      && r.value.value.fields["raw"] == payload
      && (!Truthy(OptGet(payload, "Body")) ==> r.value.value.fields["body"] == Str(""))
      && (!Truthy(OptGet(payload, "ProfileName")) ==> r.value.value.fields["senderName"] == Str("Unknown"))
  {
    ReplaceLeadingPattern("whatsapp:", number);
  }

  /** Meta is recognised only by its `object` tag together with a first message. */
  lemma MetaNeedsMessage(payload: Value)
    requires !IsNullish(payload) && !IsTwilio(payload)
    ensures var r := Normalize(payload);
      && r.Ok?
      && (r.value.Some? <==> IsMeta(payload) && Truthy(FirstOf(payload, "messages")))
      && (r.value.Some? ==> r.value.value.fields["provider"] == Str("meta") && r.value.value.fields["raw"] == payload)
  {
  }

  /** A run is requested exactly when the payload normalises, with `{ whatsapp: triggerData }`; a payload
      that does not normalise is acknowledged with 200 and ignored. */
  lemma OneRunPerMessage(request: HttpRequest, parseJson: JsonParser, parseForm: FormParser, dispatch: Dispatch)
    requires Lookup(request.query, "workflowId") != ""
    requires ParsePayload(request, parseJson, parseForm).Parsed?
    ensures var payload := ParsePayload(request, parseJson, parseForm).payload;
      var r := Post(request, parseJson, parseForm, dispatch);
      && (Normalize(payload) == Ok(None) ==> r == Respond(200, Ignored))
      && (Normalize(payload).Ok? && Normalize(payload).value.Some? ==>
            r.started == [RunRequest(Lookup(request.query, "workflowId"),
                                     Obj(map["whatsapp" := Normalize(payload).value.value]))])
      && |r.started| <= 1
  {
  }
}
