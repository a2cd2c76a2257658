/**
 * The Slack node's executor: it posts the rendered, entity-decoded message to an
 * incoming-webhook URL and stores the first 2000 characters under the variable
 * name. The variable name is checked only after the message was posted.
 */
module SlackExecutor {
  import opened Wrappers
  import opened Json
  import opened ExecCommon

  const StoredLimit := 2000

  function WebhookRequest(webhookUrl: string, content: string): Request {
    Request(webhookUrl, [("Content-Type", "application/json")], JsonBody(Obj(map["content" := Str(content)])))
  }

  /** The `slack-webhook` step. */
  function WebhookStep(data: Value, content: string, context: Context, http: Http): (o: Outcome)
    ensures Field(data, "webhookUrl") == "" ==>
      o == Outcome([Publish(Error)], Err(NonRetriableError("Slack node: Webhook URL is required")))
    ensures Field(data, "webhookUrl") != "" ==> |o.trace| >= 1 && o.trace[0] == Send(WebhookRequest(Field(data, "webhookUrl"), content))
  {
    var webhookUrl := Field(data, "webhookUrl");
    if webhookUrl == "" then Outcome([Publish(Error)], Err(NonRetriableError("Slack node: Webhook URL is required")))
    else
      var sent := [Send(WebhookRequest(webhookUrl, content))];
      match KyJson(http(WebhookRequest(webhookUrl, content)))
      case Err(e) => Outcome(sent, Err(e))
      case Ok(_) =>
        if Field(data, "variableName") == "" then
          Outcome(sent + [Publish(Error)], Err(NonRetriableError("Slack Node: Variable name is missing")))
        else
          Outcome(sent, Ok(Put(context, Field(data, "variableName"),
                               Obj(map["messageContent" := Str(Prefix(content, StoredLimit))]))))
  }

  /** The message as posted: rendered and entity-decoded. */
  function Content(data: Value, context: Context, text: Text): string {
    text.decode(text.render(Field(data, "content"), context))
  }

  /** `slackExecutor`. */
  function Execute(data: Value, context: Context, text: Text, http: Http): (o: Outcome)
    ensures StatusBracketed(o)
  {
    if Field(data, "content") == "" then Reject("Slack Node: Message Content is required")
    else Finish(WebhookStep(data, Content(data, context, text), context, http))
  }

  // ---- Properties ----

  /** Without content nothing is sent; without a webhook URL `error` is published twice. */
  lemma ValidationOrder(data: Value, context: Context, text: Text, http: Http)
    ensures Field(data, "content") == "" ==> Execute(data, context, text, http) == Reject("Slack Node: Message Content is required")
    ensures Field(data, "content") != "" && Field(data, "webhookUrl") == "" ==>
      var o := Execute(data, context, text, http);
      && Sends(o.trace) == 0 && Publishes(o.trace) == [Loading, Error, Error]
      && o.result == Err(NonRetriableError("Slack node: Webhook URL is required"))
  {
    if Field(data, "content") != "" && Field(data, "webhookUrl") == "" {
      assert Publishes([Publish(Error)]) == [Error] && Sends([Publish(Error)]) == 0 by {
        assert [Publish(Error)][1..] == [];
      }
    }
  }

  /** A missing variable name is noticed only after the message was posted successfully. */
  lemma PostsBeforeVariableCheck(data: Value, context: Context, text: Text, http: Http)
    requires Field(data, "content") != "" && Field(data, "webhookUrl") != "" && Field(data, "variableName") == ""
    requires http(WebhookRequest(Field(data, "webhookUrl"), Content(data, context, text))).Response?
    requires http(WebhookRequest(Field(data, "webhookUrl"), Content(data, context, text))).ok
    ensures var o := Execute(data, context, text, http);
      && Sends(o.trace) == 1 && Publishes(o.trace) == [Loading, Error, Error]
      && o.result == Err(NonRetriableError("Slack Node: Variable name is missing"))
  {
    var request := WebhookRequest(Field(data, "webhookUrl"), Content(data, context, text));
    TraceSingle(Send(request));
    TraceSingle(Publish(Error));
    TraceConcat([Send(request)], [Publish(Error)]);
  }

  /** The whole message is posted, but only its first 2000 characters are stored. */
  lemma PostedWholeStoredPrefix(data: Value, context: Context, text: Text, http: Http)
    requires Execute(data, context, text, http).result.Ok?
    ensures var o := Execute(data, context, text, http);
      var content := Content(data, context, text);
      var v := Field(data, "variableName");
      && Send(WebhookRequest(Field(data, "webhookUrl"), content)) in o.trace
      && v != "" && o.result.value.Keys == context.Keys + {v}
      && (forall k | k in context && k != v :: o.result.value[k] == context[k])
      && o.result.value[v] == Obj(map["messageContent" := Str(Prefix(content, StoredLimit))])
      && Prefix(content, StoredLimit) <= content && |Prefix(content, StoredLimit)| <= StoredLimit
  {
    var step := WebhookStep(data, Content(data, context, text), context, http);
    assert Execute(data, context, text, http).trace[1] == step.trace[0];
  }

  /** A success publishes `loading` then `success` and nothing else. */
  lemma SuccessPublishes(data: Value, context: Context, text: Text, http: Http)
    requires Execute(data, context, text, http).result.Ok?
    ensures Publishes(Execute(data, context, text, http).trace) == [Loading, Success]
  {
    var step := WebhookStep(data, Content(data, context, text), context, http);
    TraceSingle(step.trace[0]);
  }
}
