/**
 * The Telegram webhook route: it extracts the chat, sender and text of a message
 * update and starts the workflow with them; other updates are acknowledged and ignored.
 */
module TelegramWebhook {
  import opened Wrappers
  import opened Json
  import opened WebhookCommon

  const FailureMessage := "Failed to process Telegram message"

  /** The trigger data of a message update; `chat` and `from` are known to be non-nullish. */
  function TriggerData(payload: Value, message: Value): (r: Value)
    ensures r.Obj? && r.fields.Keys == {"chatId", "text", "username", "firstName", "lastName", "messageId", "date", "raw"}
    ensures r.fields["raw"] == payload
  {
    Obj(MessageFields(payload, message) + SenderFields(OptGet(message, "from")))
  }

  /** The fields read from the message itself, with the raw update. */
  function MessageFields(payload: Value, message: Value): (m: map<string, Value>)
    ensures m.Keys == {"chatId", "text", "messageId", "date", "raw"}
    ensures m["raw"] == payload
  {
    map[
      "chatId" := OptGet(OptGet(message, "chat"), "id"),
      "text" := Or(OptGet(message, "text"), Str("")),
      "messageId" := OptGet(message, "message_id"),
      "date" := OptGet(message, "date"),
      "raw" := payload]
  }

  /** The sender's names, each defaulting to "". */
  function SenderFields(from: Value): (m: map<string, Value>)
    ensures m.Keys == {"username", "firstName", "lastName"}
  {
    map[
      "username" := Or(OptGet(from, "username"), Str("")),
      "firstName" := Or(OptGet(from, "first_name"), Str("")),
      "lastName" := Or(OptGet(from, "last_name"), Str(""))]
  }

  /**
   * `POST`. `body` is `request.json()`, None when the body is not JSON; reading a
   * property of a null payload, chat or sender throws and is answered with 500.
   */
  function Post(query: map<string, string>, body: Option<Value>, dispatch: Dispatch): (r: RouteResult)
    ensures |r.started| <= 1
    ensures forall run | run in r.started :: run.workflowId == Lookup(query, "workflowId") && run.workflowId != ""
  {
    var workflowId := Lookup(query, "workflowId");
    if workflowId == "" then Respond(400, ErrorBody(MissingWorkflowId))
    else
      match body
      case None => Failure(FailureMessage)
      case Some(payload) =>
        if IsNullish(payload) then Failure(FailureMessage)
        else
          var message := OptGet(payload, "message");
          if !Truthy(message) then Respond(200, Ignored)
          else if IsNullish(OptGet(message, "chat")) || IsNullish(OptGet(message, "from")) then Failure(FailureMessage)
          else
            Start(RunRequest(workflowId, Obj(map["telegram" := TriggerData(payload, message)])), dispatch, Accepted,
                  FailureMessage)
  }

  // ---- Properties ----

  /** Without a workflow id the route answers 400 and starts nothing. */
  lemma MissingWorkflowIdRejected(query: map<string, string>, body: Option<Value>, dispatch: Dispatch)
    requires Lookup(query, "workflowId") == ""
    ensures Post(query, body, dispatch) == RouteResult(400, ErrorBody(MissingWorkflowId), [])
  {
  }

  /** An update without a message (an edit, a channel post) is acknowledged with 200 and ignored. */
  lemma NonMessageIgnored(query: map<string, string>, payload: Value, dispatch: Dispatch)
    requires Lookup(query, "workflowId") != "" && !IsNullish(payload) && !Truthy(OptGet(payload, "message"))
    ensures Post(query, Some(payload), dispatch) == RouteResult(200, Ignored, [])
  {
  }

  /** A message update starts exactly one run, with `{ telegram: triggerData }`; the strings
      default to "", the ids and date are copied, and the whole payload is kept as `raw`. */
  lemma MessageStartsOneRun(query: map<string, string>, payload: Value, dispatch: Dispatch)
    requires Lookup(query, "workflowId") != "" && !IsNullish(payload)
    requires var message := OptGet(payload, "message");
      Truthy(message) && !IsNullish(OptGet(message, "chat")) && !IsNullish(OptGet(message, "from"))
    ensures var r := Post(query, Some(payload), dispatch);
      var message := OptGet(payload, "message");
      && |r.started| == 1
      && r.started[0].workflowId == Lookup(query, "workflowId")
      && r.started[0].initialData.Obj? && r.started[0].initialData.fields.Keys == {"telegram"}
      && var t := r.started[0].initialData.fields["telegram"];
      && t.Obj?
      && t.fields["chatId"] == OptGet(OptGet(message, "chat"), "id")
      && t.fields["messageId"] == OptGet(message, "message_id") && t.fields["date"] == OptGet(message, "date")
      && t.fields["raw"] == payload
      && (forall k | k in {"text", "username", "firstName", "lastName"} :: Truthy(t.fields[k]) || t.fields[k] == Str(""))
      && (Truthy(OptGet(message, "text")) ==> t.fields["text"] == OptGet(message, "text"))
      && (Truthy(OptGet(OptGet(message, "from"), "username")) ==>
            t.fields["username"] == OptGet(OptGet(message, "from"), "username"))
      && (Truthy(OptGet(OptGet(message, "from"), "first_name")) ==>
            t.fields["firstName"] == OptGet(OptGet(message, "from"), "first_name"))
      && (Truthy(OptGet(OptGet(message, "from"), "last_name")) ==>
            t.fields["lastName"] == OptGet(OptGet(message, "from"), "last_name"))
  {
    var message := OptGet(payload, "message");
    assert Post(query, Some(payload), dispatch).started ==
           [RunRequest(Lookup(query, "workflowId"), Obj(map["telegram" := TriggerData(payload, message)]))];
    TriggerDataFields(payload, message);
  }

  /** The values of the trigger data: ids and date copied, names and text defaulted to "". */
  lemma TriggerDataFields(payload: Value, message: Value)
    ensures var t := TriggerData(payload, message);
      && t.fields["chatId"] == OptGet(OptGet(message, "chat"), "id")
      && t.fields["messageId"] == OptGet(message, "message_id") && t.fields["date"] == OptGet(message, "date")
      && (forall k | k in {"text", "username", "firstName", "lastName"} :: Truthy(t.fields[k]) || t.fields[k] == Str(""))
      && (Truthy(OptGet(message, "text")) ==> t.fields["text"] == OptGet(message, "text"))
      && (Truthy(OptGet(OptGet(message, "from"), "username")) ==>
            t.fields["username"] == OptGet(OptGet(message, "from"), "username"))
      && (Truthy(OptGet(OptGet(message, "from"), "first_name")) ==>
            t.fields["firstName"] == OptGet(OptGet(message, "from"), "first_name"))
      && (Truthy(OptGet(OptGet(message, "from"), "last_name")) ==>
            t.fields["lastName"] == OptGet(OptGet(message, "from"), "last_name"))
  {
    var m := MessageFields(payload, message);
    var from := SenderFields(OptGet(message, "from"));
    assert "chatId" !in from && "messageId" !in from && "date" !in from && "text" !in from;
  }


  /** A run is requested only for a message update, and never more than one. */
  lemma RunsOnlyForMessages(query: map<string, string>, body: Option<Value>, dispatch: Dispatch)
    ensures var r := Post(query, body, dispatch);
      && |r.started| <= 1
      && (|r.started| == 1 <==>
            Lookup(query, "workflowId") != "" && body.Some? && !IsNullish(body.value) &&
            Truthy(OptGet(body.value, "message")) && !IsNullish(OptGet(OptGet(body.value, "message"), "chat")) &&
            !IsNullish(OptGet(OptGet(body.value, "message"), "from")))
  {
  }
}
