/**
 * The Telegram node's executor: it renders, decodes and trims the message, sends
 * it to the Bot API with Markdown, and resends it as plain text once when Telegram
 * cannot parse the Markdown. A check that fails inside the step publishes `error`
 * itself and the surrounding catch publishes it again.
 */
module TelegramExecutor {
  import opened Wrappers
  import opened Json
  import opened ExecCommon

  const BotTokenRequired := "Telegram Node: Bot token is required"
  const ChatIdRequired := "Telegram Node: Chat ID is required"
  const ContentRequired := "Telegram Node: Message content is required"
  const VariableRequired := "Telegram Node: Variable name is required"

  const MessageLimit := 4096
  const ParseFailure := "can't parse entities"
  const EmptyContentMessage :=
    "Telegram Node: The message content resulted in an empty string. Please check your variables (e.g., use {{Test.text}} instead of {{ai.text}})."

  function SendUrl(botToken: string): string {
    "https://api.telegram.org/bot" + botToken + "/sendMessage"
  }

  /** The `sendMessage` call; `parse_mode` is left out of the JSON when no parse mode is given. */
  function SendRequest(botToken: string, chatId: string, content: string, markdown: bool): (r: Request)
    ensures r.url == SendUrl(botToken) && r.body.JsonBody? && r.body.json.Obj?
    ensures "text" in r.body.json.fields && "chat_id" in r.body.json.fields
    ensures r.body.json.fields["text"] == Str(Prefix(content, MessageLimit))
    ensures r.body.json.fields["chat_id"] == Str(chatId)
    ensures markdown <==> "parse_mode" in r.body.json.fields
  {
    var fields := map["chat_id" := Str(chatId), "text" := Str(Prefix(content, MessageLimit))];
    Request(SendUrl(botToken), [("Content-Type", "application/json")],
            JsonBody(Obj(if markdown then fields["parse_mode" := Str("Markdown")] else fields)))
  }

  /** `ky(url, { throwHttpErrors: false })` then `.json()`: only a transport failure throws. */
  function ResponseJson(reply: Reply): (r: Result<Value, ExecError>)
    ensures r.Err? <==> reply.NetworkFailure?
    ensures reply.Response? ==> r == Ok(reply.json)
  {
    match reply
    case NetworkFailure(reason) => Err(PlainError(reason))
    case Response(_, _, _, json) => Ok(json)
  }

  /** The retry condition: not ok, error code 400, and a description mentioning "can't parse entities". */
  predicate MarkdownRejected(responseData: Value) {
    var description := OptGet(responseData, "description");
    && !Truthy(OptGet(responseData, "ok"))
    && OptGet(responseData, "error_code") == Num(400)
    && description.Str? && Contains(description.s, ParseFailure)
  }

  function ApiErrorMessage(responseData: Value): string {
    "Telegram Node Error: " + ToJsString(Or(OptGet(responseData, "description"), Str("Failed to send message")))
    + " (" + ToJsString(OptGet(responseData, "error_code")) + ")"
  }

  /** What the step does with the final response data, after the requests in `sent`. */
  function Respond(responseData: Value, sent: seq<Effect>, data: Value, context: Context): (o: Outcome)
    ensures IsNullish(responseData) ==> o == Outcome(sent, Err(PlainError(TypeErrorMessage)))
    ensures !IsNullish(responseData) && !Truthy(OptGet(responseData, "ok")) ==>
      o == Outcome(sent + [Publish(Error)], Err(NonRetriableError(ApiErrorMessage(responseData))))
    ensures o.result.Ok? ==> Truthy(OptGet(responseData, "ok")) && o.trace == sent
    ensures o.trace == sent || o.trace == sent + [Publish(Error)]
  {
    if IsNullish(responseData) then Outcome(sent, Err(PlainError(TypeErrorMessage)))
    else if !Truthy(OptGet(responseData, "ok")) then
      Outcome(sent + [Publish(Error)], Err(NonRetriableError(ApiErrorMessage(responseData))))
    else
      var result := OptGet(responseData, "result");
      if IsNullish(result) then Outcome(sent, Err(PlainError(TypeErrorMessage)))
      else
        Outcome(sent, Ok(Put(context, Field(data, "variableName"), Obj(map[
          "messageId" := OptGet(result, "message_id"), "date" := OptGet(result, "date"),
          "chat" := OptGet(result, "chat"), "text" := OptGet(result, "text")]))))
  }

  /** The `telegram-execution` step. */
  function DeliveryStep(data: Value, content: string, context: Context, text: Text, http: Http): Outcome {
    var botToken := Field(data, "botToken");
    if botToken == "" then Outcome([Publish(Error)], Err(NonRetriableError(BotTokenRequired)))
    else if Field(data, "chatId") == "" then
      Outcome([Publish(Error)], Err(NonRetriableError(ChatIdRequired)))
    else
      var chatId := text.render(Field(data, "chatId"), context);
      var first := SendRequest(botToken, chatId, content, true);
      match ResponseJson(http(first))
      case Err(e) => Outcome([Send(first)], Err(e))
      case Ok(firstData) =>
        if IsNullish(firstData) then Outcome([Send(first)], Err(PlainError(TypeErrorMessage)))
        else if MarkdownRejected(firstData) then
          var second := SendRequest(botToken, chatId, content, false);
          match ResponseJson(http(second))
          case Err(e) => Outcome([Send(first), Send(second)], Err(e))
          case Ok(secondData) => Respond(secondData, [Send(first), Send(second)], data, context)
        else Respond(firstData, [Send(first)], data, context)
  }

  /** The message as sent: rendered, entity-decoded and trimmed. */
  function Content(data: Value, context: Context, text: Text): string {
    Trim(text.decode(text.render(Field(data, "content"), context)))
  }

  /** `telegramExecutor`. */
  function Execute(data: Value, context: Context, text: Text, http: Http): (o: Outcome)
    ensures StatusBracketed(o)
  {
    if Field(data, "content") == "" then Reject(ContentRequired)
    else if Field(data, "variableName") == "" then Reject(VariableRequired)
    else if Content(data, context, text) == "" then Reject(EmptyContentMessage)
    else Finish(DeliveryStep(data, Content(data, context, text), context, text, http))
  }

  // ---- Properties ----

  /** The checks before the step run in order; a message is refused exactly when it renders to white space only,
      and otherwise the delivery step runs on the trimmed message. */
  lemma ValidationOrder(data: Value, context: Context, text: Text, http: Http)
    ensures Field(data, "content") == "" ==>
      Execute(data, context, text, http) == Reject(ContentRequired)
    ensures Field(data, "content") != "" && Field(data, "variableName") == "" ==>
      Execute(data, context, text, http) == Reject(VariableRequired)
    ensures var rendered := text.decode(text.render(Field(data, "content"), context));
      (Field(data, "content") != "" && Field(data, "variableName") != "" &&
       forall i | 0 <= i < |rendered| :: IsSpace(rendered[i])) ==>
      Execute(data, context, text, http) == Reject(EmptyContentMessage)
    ensures var rendered := text.decode(text.render(Field(data, "content"), context));
      (Field(data, "content") != "" && Field(data, "variableName") != "" &&
       exists i | 0 <= i < |rendered| :: !IsSpace(rendered[i])) ==>
      Execute(data, context, text, http) == Finish(DeliveryStep(data, Content(data, context, text), context, text, http))
  {
    TrimEmpty(text.decode(text.render(Field(data, "content"), context)));
  }

  /** The plain-text retry happens exactly when the Markdown attempt came back as a parse failure,
      and it resends the same chat and text without `parse_mode`. */
  lemma RetryOnlyOnParseFailure(data: Value, content: string, context: Context, text: Text, http: Http)
    requires Field(data, "botToken") != "" && Field(data, "chatId") != ""
    ensures var o := DeliveryStep(data, content, context, text, http);
      var first := SendRequest(Field(data, "botToken"), text.render(Field(data, "chatId"), context), content, true);
      var reply := http(first);
      && o.trace[0] == Send(first)
      && (Sends(o.trace) == 2 <==> reply.Response? && !IsNullish(reply.json) && MarkdownRejected(reply.json))
      && (Sends(o.trace) == 2 ==>
            o.trace[1] == Send(SendRequest(Field(data, "botToken"), text.render(Field(data, "chatId"), context), content, false)))
  {
    var o := DeliveryStep(data, content, context, text, http);
    var first := SendRequest(Field(data, "botToken"), text.render(Field(data, "chatId"), context), content, true);
    var second := SendRequest(Field(data, "botToken"), text.render(Field(data, "chatId"), context), content, false);
    assert Sends([Publish(Error)]) == 0 by { assert [Publish(Error)][1..] == []; }
    assert Sends([Send(first)]) == 1 by { assert [Send(first)][1..] == []; }
    assert Sends([Send(first), Send(second)]) == 2 by {
      assert [Send(first), Send(second)][1..] == [Send(second)];
      assert [Send(second)][1..] == [];
    }
    var reply := http(first);
    if reply.Response? && !IsNullish(reply.json) && MarkdownRejected(reply.json) {
      TraceConcat([Send(first), Send(second)], [Publish(Error)]);
      assert o.trace == [Send(first), Send(second)] || o.trace == [Send(first), Send(second), Publish(Error)];
    } else {
      TraceConcat([Send(first)], [Publish(Error)]);
      assert o.trace == [Send(first)] || o.trace == [Send(first), Publish(Error)];
    }
  }

  /** Every request carries at most 4096 characters: the message's first 4096. */
  lemma MessageTruncated(data: Value, content: string, context: Context, text: Text, http: Http)
    ensures var o := DeliveryStep(data, content, context, text, http);
      forall i | 0 <= i < |o.trace| && o.trace[i].Send? ::
        && o.trace[i].request.body.JsonBody? && o.trace[i].request.body.json.Obj?
        && "text" in o.trace[i].request.body.json.fields
        && o.trace[i].request.body.json.fields["text"] == Str(Prefix(content, MessageLimit))
        && |Prefix(content, MessageLimit)| <= MessageLimit
  {
    var o := DeliveryStep(data, content, context, text, http);
    var chatId := text.render(Field(data, "chatId"), context);
    var first := SendRequest(Field(data, "botToken"), chatId, content, true);
    var second := SendRequest(Field(data, "botToken"), chatId, content, false);
    forall i | 0 <= i < |o.trace| && o.trace[i].Send?
      ensures o.trace[i] == Send(first) || o.trace[i] == Send(second)
    {
      if http(first).Response? && MarkdownRejected(http(first).json) {
        assert o.trace[..2] == [Send(first), Send(second)] || o.trace == [Send(first)] || o.trace == [Publish(Error)];
      }
    }
  }

  /** A check failing inside the step, and a response that is not ok, publish `error` twice:
      once in the step and once in the catch. */
  lemma ErrorPublishedTwice(data: Value, context: Context, text: Text, http: Http)
    requires Field(data, "content") != "" && Field(data, "variableName") != "" && Content(data, context, text) != ""
    requires Field(data, "botToken") == "" || Field(data, "chatId") == ""
    ensures Publishes(Execute(data, context, text, http).trace) == [Loading, Error, Error]
    ensures Execute(data, context, text, http).result.error.NonRetriableError?
  {
    var step := DeliveryStep(data, Content(data, context, text), context, text, http);
    assert Execute(data, context, text, http) == Finish(step);
    assert step.trace == [Publish(Error)];
    assert Publishes(step.trace) == [Error] by { assert step.trace[1..] == []; }
  }

  /** A final response that is not ok ends the run with a non-retriable `Telegram Node Error: …` and two
      `error` publishes, whether or not the plain-text retry happened. */
  lemma NotOkIsNonRetriable(data: Value, content: string, responseData: Value, sent: seq<Effect>, context: Context)
    requires !IsNullish(responseData) && !Truthy(OptGet(responseData, "ok"))
    requires Publishes(sent) == []
    ensures var o := Finish(Respond(responseData, sent, data, context));
      && o.result == Err(NonRetriableError(ApiErrorMessage(responseData)))
      && Publishes(o.trace) == [Loading, Error, Error]
  {
    TraceConcat(sent, [Publish(Error)]);
    assert Publishes([Publish(Error)]) == [Error] by { assert [Publish(Error)][1..] == []; }
  }

  /** A success publishes `loading` then `success` only, and stores the message under the variable name. */
  lemma SuccessResult(data: Value, context: Context, text: Text, http: Http)
    requires Execute(data, context, text, http).result.Ok?
    ensures var o := Execute(data, context, text, http);
      var v := Field(data, "variableName");
      && v != ""
      && o.result.value.Keys == context.Keys + {v}
      && (forall k | k in context && k != v :: o.result.value[k] == context[k])
      && o.result.value[v].Obj? && o.result.value[v].fields.Keys == {"messageId", "date", "chat", "text"}
      && Publishes(o.trace) == [Loading, Success]
  {
    var content := Content(data, context, text);
    assert Execute(data, context, text, http) == Finish(DeliveryStep(data, content, context, text, http));
    DeliveryStores(data, content, context, text, http);
  }

  /** A successful delivery step publishes nothing itself and stores the message under the variable name. */
  lemma DeliveryStores(data: Value, content: string, context: Context, text: Text, http: Http)
    requires DeliveryStep(data, content, context, text, http).result.Ok?
    ensures var o := DeliveryStep(data, content, context, text, http);
      var v := Field(data, "variableName");
      && o.result.value.Keys == context.Keys + {v}
      && (forall k | k in context && k != v :: o.result.value[k] == context[k])
      && o.result.value[v].Obj? && o.result.value[v].fields.Keys == {"messageId", "date", "chat", "text"}
      && Publishes(o.trace) == []
  {
    var chatId := text.render(Field(data, "chatId"), context);
    var first := SendRequest(Field(data, "botToken"), chatId, content, true);
    var second := SendRequest(Field(data, "botToken"), chatId, content, false);
    var firstData := http(first).json;
    if MarkdownRejected(firstData) {
      TraceSingle(Send(first));
      TraceSingle(Send(second));
      TraceConcat([Send(first)], [Send(second)]);
      assert [Send(first)] + [Send(second)] == [Send(first), Send(second)];
      RespondStores(http(second).json, [Send(first), Send(second)], data, context);
    } else {
      TraceSingle(Send(first));
      RespondStores(firstData, [Send(first)], data, context);
    }
  }

  /** A successful response stores exactly the four message fields under the variable name. */
  lemma RespondStores(responseData: Value, sent: seq<Effect>, data: Value, context: Context)
    requires Respond(responseData, sent, data, context).result.Ok?
    ensures var r := Respond(responseData, sent, data, context).result.value;
      var v := Field(data, "variableName");
      && r.Keys == context.Keys + {v}
      && (forall k | k in context && k != v :: r[k] == context[k])
      && r[v].Obj? && r[v].fields.Keys == {"messageId", "date", "chat", "text"}
  {
  }
}
