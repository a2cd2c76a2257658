/**
 * The WhatsApp node's executor: it checks its configuration, renders the
 * message and the phone numbers, and sends one message through Twilio or the
 * Meta Cloud API.
 */
module WhatsAppExecutor {
  import opened Wrappers
  import opened Json
  import opened ExecCommon

  const ProviderRequired := "WhatsApp Node: Provider is required"
  const ToNumberRequired := "WhatsApp Node: To number is required"
  const ContentRequired := "WhatsApp Node: Message content is required"
  const VariableRequired := "WhatsApp Node: Variable name is required"
  const UnknownProvider := "WhatsApp Node: Unknown provider: "

  const BodyLimit := 1600

  function TwilioUrl(accountSid: string): string {
    "https://api.twilio.com/2010-04-01/Accounts/" + accountSid + "/Messages.json"
  }

  function MetaUrl(phoneNumberId: string): string {
    "https://graph.facebook.com/v21.0/" + phoneNumberId + "/messages"
  }

  /** The Twilio request: Basic credentials and a form with `whatsapp:`-prefixed numbers. */
  function TwilioRequest(accountSid: string, authToken: string, fromNumber: string, toNumber: string,
                         content: string, base64: string -> string): Request {
    Request(TwilioUrl(accountSid),
            [("Authorization", "Basic " + base64(accountSid + ":" + authToken)),
             ("Content-Type", "application/x-www-form-urlencoded")],
            Form([("From", "whatsapp:" + fromNumber), ("To", "whatsapp:" + toNumber),
                  ("Body", Prefix(content, BodyLimit))]))
  }

  /** `sendViaTwilio`: the effects inside the step and its result. */
  function SendViaTwilio(data: Value, content: string, toNumber: string, fromNumber: string, context: Context,
                         http: Http, base64: string -> string): (o: Outcome)
    ensures var ready := Field(data, "accountSid") != "" && Field(data, "authToken") != "" && fromNumber != "";
      && (!ready ==> o.trace == [] && o.result.Err? && o.result.error.NonRetriableError?)
      && (ready ==> o.trace == [Send(TwilioRequest(Field(data, "accountSid"), Field(data, "authToken"), fromNumber,
                                                   toNumber, content, base64))])
  {
    var accountSid := Field(data, "accountSid");
    var authToken := Field(data, "authToken");
    if accountSid == "" then Outcome([], Err(NonRetriableError("WhatsApp Node: Account SID is required for Twilio")))
    else if authToken == "" then Outcome([], Err(NonRetriableError("WhatsApp Node: Auth Token is required for Twilio")))
    else if fromNumber == "" then Outcome([], Err(NonRetriableError("WhatsApp Node: From number is required for Twilio")))
    else
      var request := TwilioRequest(accountSid, authToken, fromNumber, toNumber, content, base64);
      var sent := [Send(request)];
      match http(request)
      case NetworkFailure(reason) => Outcome(sent, Err(PlainError(reason)))
      case Response(ok, _, statusText, json) =>
        if !ok then
          match Prop(json, "message")
          case Err(e) => Outcome(sent, Err(e))
          case Ok(message) =>
            Outcome(sent, Err(NonRetriableError("WhatsApp Node (Twilio): " + ToJsString(Or(message, Str(statusText))))))
        else if IsNullish(json) then Outcome(sent, Err(PlainError(TypeErrorMessage)))
        else
          Outcome(sent, Ok(Put(context, Field(data, "variableName"), Obj(map[
            "provider" := Str("twilio"),
            "messageSid" := OptGet(json, "sid"),
            "status" := OptGet(json, "status"),
            "to" := OptGet(json, "to"),
            "from" := OptGet(json, "from"),
            "body" := OptGet(json, "body"),
            "dateCreated" := OptGet(json, "date_created")]))))
  }

  /** The Meta request: a Bearer token and a JSON text message. */
  function MetaRequest(accessToken: string, phoneNumberId: string, toNumber: string, content: string): Request {
    Request(MetaUrl(phoneNumberId),
            [("Authorization", "Bearer " + accessToken), ("Content-Type", "application/json")],
            JsonBody(Obj(map[
              "messaging_product" := Str("whatsapp"),
              "to" := Str(toNumber),
              "type" := Str("text"),
              "text" := Obj(map["body" := Str(Prefix(content, BodyLimit))])])))
  }

  /** `sendViaMeta`: the effects inside the step and its result. The result's `to` is the
      configured, unrendered number. */
  function SendViaMeta(data: Value, content: string, toNumber: string, context: Context, http: Http): (o: Outcome)
    ensures var ready := Field(data, "accessToken") != "" && Field(data, "phoneNumberId") != "";
      && (!ready ==> o.trace == [] && o.result.Err? && o.result.error.NonRetriableError?)
      && (ready ==> o.trace == [Send(MetaRequest(Field(data, "accessToken"), Field(data, "phoneNumberId"), toNumber, content))])
  {
    var accessToken := Field(data, "accessToken");
    var phoneNumberId := Field(data, "phoneNumberId");
    if accessToken == "" then Outcome([], Err(NonRetriableError("WhatsApp Node: Access Token is required for Meta")))
    else if phoneNumberId == "" then Outcome([], Err(NonRetriableError("WhatsApp Node: Phone Number ID is required for Meta")))
    else
      var request := MetaRequest(accessToken, phoneNumberId, toNumber, content);
      var sent := [Send(request)];
      match http(request)
      case NetworkFailure(reason) => Outcome(sent, Err(PlainError(reason)))
      case Response(ok, _, statusText, json) =>
        if !ok then
          if IsNullish(json) then Outcome(sent, Err(PlainError(TypeErrorMessage)))
          else
            var message := OptGet(OptGet(json, "error"), "message");
            Outcome(sent, Err(NonRetriableError("WhatsApp Node (Meta): " + ToJsString(Or(message, Str(statusText))))))
        else if IsNullish(json) then Outcome(sent, Err(PlainError(TypeErrorMessage)))
        else
          Outcome(sent, Ok(Put(context, Field(data, "variableName"), Obj(map[
            "provider" := Str("meta"),
            "messageId" := OptGet(OptIndex(OptGet(json, "messages"), 0), "id"),
            "status" := Str("sent"),
            "to" := OptGet(data, "toNumber"),
            "contacts" := OptGet(json, "contacts")]))))
  }

  /** The `whatsapp-message` step: dispatch on the provider. */
  function MessageStep(data: Value, content: string, toNumber: string, fromNumber: string, context: Context,
                       http: Http, base64: string -> string): Outcome {
    var provider := Field(data, "provider");
    if provider == "twilio" then SendViaTwilio(data, content, toNumber, fromNumber, context, http, base64)
    else if provider == "meta" then SendViaMeta(data, content, toNumber, context, http)
    else Outcome([], Err(NonRetriableError(UnknownProvider + provider)))
  }

  /** `whatsappExecutor`. */
  function Execute(data: Value, context: Context, text: Text, http: Http, base64: string -> string): (o: Outcome)
    ensures StatusBracketed(o)
  {
    if Field(data, "provider") == "" then Reject(ProviderRequired)
    else if Field(data, "toNumber") == "" then Reject(ToNumberRequired)
    else if Field(data, "content") == "" then Reject(ContentRequired)
    else if Field(data, "variableName") == "" then Reject(VariableRequired)
    else
      var content := text.decode(text.render(Field(data, "content"), context));
      var toNumber := text.render(Field(data, "toNumber"), context);
      var fromNumber := if Field(data, "fromNumber") != "" then text.render(Field(data, "fromNumber"), context) else "";
      Finish(MessageStep(data, content, toNumber, fromNumber, context, http, base64))
  }

  // ---- Properties ----

  /** The four common fields are checked in order before anything is sent. */
  lemma ValidationOrder(data: Value, context: Context, text: Text, http: Http, base64: string -> string)
    ensures var o := Execute(data, context, text, http, base64);
      && Publishes(o.trace)[0] == Loading
      && (Field(data, "provider") == "" ==> o == Reject(ProviderRequired))
      && (Field(data, "provider") != "" && Field(data, "toNumber") == "" ==> o == Reject(ToNumberRequired))
      && (Field(data, "provider") != "" && Field(data, "toNumber") != "" && Field(data, "content") == "" ==>
            o == Reject(ContentRequired))
      && ((&& Field(data, "provider") != "" && Field(data, "toNumber") != "" && Field(data, "content") != ""
           && Field(data, "variableName") == "") ==> o == Reject(VariableRequired))
  {
    var o := Execute(data, context, text, http, base64);
    if Field(data, "provider") != "" && Field(data, "toNumber") != "" && Field(data, "content") != "" &&
       Field(data, "variableName") != "" {
      assert Publishes(o.trace)[0] == Loading;
    }
  }

  /** Every call publishes `loading`, then exactly one terminal status: `success` exactly when it
      returns; at most one message is sent; every error thrown is the one the step threw. */
  lemma StatusTrace(data: Value, context: Context, text: Text, http: Http, base64: string -> string)
    ensures var o := Execute(data, context, text, http, base64);
      && Publishes(o.trace) == [Loading, if o.result.Ok? then Success else Error]
      && Sends(o.trace) <= 1
      && (o.result.Ok? ==> Sends(o.trace) == 1)
  {
    var content := text.decode(text.render(Field(data, "content"), context));
    var toNumber := text.render(Field(data, "toNumber"), context);
    var fromNumber := if Field(data, "fromNumber") != "" then text.render(Field(data, "fromNumber"), context) else "";
    if Field(data, "provider") != "" && Field(data, "toNumber") != "" && Field(data, "content") != "" &&
       Field(data, "variableName") != "" {
      assert Execute(data, context, text, http, base64) ==
             Finish(MessageStep(data, content, toNumber, fromNumber, context, http, base64));
      StepTrace(data, content, toNumber, fromNumber, context, http, base64);
    }
  }

  /** The step publishes nothing and sends at most one request, exactly one when it succeeds. */
  lemma StepTrace(data: Value, content: string, toNumber: string, fromNumber: string, context: Context,
                  http: Http, base64: string -> string)
    ensures var o := MessageStep(data, content, toNumber, fromNumber, context, http, base64);
      && Publishes(o.trace) == []
      && Sends(o.trace) <= 1
      && (o.result.Ok? ==> Sends(o.trace) == 1)
  {
    var o := MessageStep(data, content, toNumber, fromNumber, context, http, base64);
    assert o.trace == [] || (|o.trace| == 1 && o.trace[0].Send?);
    if o.trace != [] {
      assert Sends(o.trace) == 1 + Sends([]);
    }
  }

  /** Only `twilio` and `meta` send; any other provider throws a non-retriable error and sends nothing. */
  lemma ProviderDispatch(data: Value, content: string, toNumber: string, fromNumber: string, context: Context,
                         http: Http, base64: string -> string)
    ensures var o := MessageStep(data, content, toNumber, fromNumber, context, http, base64);
      var p := Field(data, "provider");
      && (p != "twilio" && p != "meta" ==>
            o == Outcome([], Err(NonRetriableError(UnknownProvider + p))))
      && (forall e | e in o.trace :: e.Send? &&
            (p == "twilio" ==> e.request.url == TwilioUrl(Field(data, "accountSid"))) &&
            (p == "meta" ==> e.request.url == MetaUrl(Field(data, "phoneNumberId"))))
  {
  }

  /** Twilio checks accountSid, authToken and the rendered fromNumber, in that order, before sending;
      the request prefixes both numbers with `whatsapp:` and carries at most 1600 characters of body. */
  lemma TwilioChecksAndRequest(data: Value, content: string, toNumber: string, fromNumber: string, context: Context,
                               http: Http, base64: string -> string)
    ensures var o := SendViaTwilio(data, content, toNumber, fromNumber, context, http, base64);
      var sid := Field(data, "accountSid");
      var token := Field(data, "authToken");
      && (sid == "" ==> o.result == Err(NonRetriableError("WhatsApp Node: Account SID is required for Twilio")))
      && (sid != "" && token == "" ==> o.result == Err(NonRetriableError("WhatsApp Node: Auth Token is required for Twilio")))
      && (sid != "" && token != "" && fromNumber == "" ==>
            o.result == Err(NonRetriableError("WhatsApp Node: From number is required for Twilio")))
      && (sid == "" || token == "" || fromNumber == "" ==> o.trace == [])
      && (sid != "" && token != "" && fromNumber != "" ==>
            var r := TwilioRequest(sid, token, fromNumber, toNumber, content, base64);
            && o.trace == [Send(r)]
            && r.body == Form([("From", "whatsapp:" + fromNumber), ("To", "whatsapp:" + toNumber),
                               ("Body", Prefix(content, 1600))])
            && |Prefix(content, 1600)| <= 1600
            && content[..|Prefix(content, 1600)|] == Prefix(content, 1600))
  {
  }

  /** Meta checks accessToken then phoneNumberId before sending, and sends at most 1600 characters. */
  lemma MetaChecksAndRequest(data: Value, content: string, toNumber: string, context: Context, http: Http)
    ensures var o := SendViaMeta(data, content, toNumber, context, http);
      var at := Field(data, "accessToken");
      var pid := Field(data, "phoneNumberId");
      && (at == "" ==> o.result == Err(NonRetriableError("WhatsApp Node: Access Token is required for Meta")))
      && (at != "" && pid == "" ==> o.result == Err(NonRetriableError("WhatsApp Node: Phone Number ID is required for Meta")))
      && (at == "" || pid == "" ==> o.trace == [])
      && (at != "" && pid != "" ==> o.trace == [Send(MetaRequest(at, pid, toNumber, content))])
  {
    if Field(data, "accessToken") == "" {
      assert SendViaMeta(data, content, toNumber, context, http) ==
             Outcome([], Err(NonRetriableError("WhatsApp Node: Access Token is required for Meta")));
    } else if Field(data, "phoneNumberId") == "" {
      assert SendViaMeta(data, content, toNumber, context, http) ==
             Outcome([], Err(NonRetriableError("WhatsApp Node: Phone Number ID is required for Meta")));
    }
  }

  /** A non-OK reply from either provider is a non-retriable error (when the error body can be read). */
  lemma NotOkIsNonRetriable(data: Value, content: string, toNumber: string, fromNumber: string, context: Context,
                            http: Http, base64: string -> string)
    ensures var o := MessageStep(data, content, toNumber, fromNumber, context, http, base64);
      && (o.trace != [] && http(o.trace[0].request).Response? && !http(o.trace[0].request).ok
          && !IsNullish(http(o.trace[0].request).json)
          ==> o.result.Err? && o.result.error.NonRetriableError?)
  {
  }

  /** A successful result is the context plus `[variableName]`, tagged with its provider; nothing
      else in the context changes. */
  lemma SuccessResult(data: Value, context: Context, text: Text, http: Http, base64: string -> string)
    requires Execute(data, context, text, http, base64).result.Ok?
    ensures var r := Execute(data, context, text, http, base64).result.value;
      var v := Field(data, "variableName");
      && r.Keys == context.Keys + {v}
      && (forall k | k in context && k != v :: r[k] == context[k])
      && r[v].Obj? && "provider" in r[v].fields
      && r[v].fields["provider"] == Str(Field(data, "provider"))
  {
    var content := text.decode(text.render(Field(data, "content"), context));
    var toNumber := text.render(Field(data, "toNumber"), context);
    var fromNumber := if Field(data, "fromNumber") != "" then text.render(Field(data, "fromNumber"), context) else "";
    assert Execute(data, context, text, http, base64).result ==
           MessageStep(data, content, toNumber, fromNumber, context, http, base64).result;
    if Field(data, "provider") == "twilio" {
      TwilioTagged(data, content, toNumber, fromNumber, context, http, base64);
    } else {
      MetaTagged(data, content, toNumber, context, http);
    }
  }

  /** `r` is `context` plus `[v]`, an object tagged with `provider`. */
  predicate Tagged(r: Context, context: Context, v: string, provider: string) {
    && r.Keys == context.Keys + {v}
    && (forall k | k in context && k != v :: r[k] == context[k])
    && r[v].Obj? && "provider" in r[v].fields && r[v].fields["provider"] == Str(provider)
  }

  lemma TwilioTagged(data: Value, content: string, toNumber: string, fromNumber: string, context: Context,
                     http: Http, base64: string -> string)
    requires SendViaTwilio(data, content, toNumber, fromNumber, context, http, base64).result.Ok?
    ensures Tagged(SendViaTwilio(data, content, toNumber, fromNumber, context, http, base64).result.value,
                   context, Field(data, "variableName"), "twilio")
  {
  }

  lemma MetaTagged(data: Value, content: string, toNumber: string, context: Context, http: Http)
    requires SendViaMeta(data, content, toNumber, context, http).result.Ok?
    ensures Tagged(SendViaMeta(data, content, toNumber, context, http).result.value,
                   context, Field(data, "variableName"), "meta")
  {
  }
}
