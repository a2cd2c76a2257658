/** The Telegram node's configuration form. */
module TelegramForm {
  import opened Json
  import opened FormCommon

  datatype Values = Values(variableName: string, botToken: string, chatId: string, content: string)

  const ContentLimit := 4096

  function Issues(v: Values): (r: seq<Issue>)
    ensures forall issue | issue in r :: issue.path in {"variableName", "botToken", "chatId", "content"}
  {
    VariableNameIssues(v.variableName)
    + Required("botToken", v.botToken, "Bot token is required")
    + Required("chatId", v.chatId, "Chat ID is required")
    + Required("content", v.content, "Message content is required")
    + AtMost("content", v.content, ContentLimit, "Telegram messages cannot exceed 4096 characters")
  }

  predicate Valid(v: Values) {
    Issues(v) == []
  }

  function Defaults(data: Value): Values {
    Values(StrOr(OptGet(data, "variableName"), ""), StrOr(OptGet(data, "botToken"), ""),
           StrOr(OptGet(data, "chatId"), ""), StrOr(OptGet(data, "content"), ""))
  }

  // ---- Properties ----

  lemma ValidIff(v: Values)
    ensures Valid(v) <==>
      IsIdentifier(v.variableName) && v.botToken != "" && v.chatId != "" && 1 <= |v.content| <= ContentLimit
  {
  }

  /** A new node's form is all empty, and each of its four fields has an issue. */
  lemma EmptyDefaults()
    ensures var v := Defaults(Obj(map[]));
      && v == Values("", "", "", "")
      && Issues(v) == [Issue("variableName", VariableNameRequired), Issue("variableName", VariableNameFormat),
                       Issue("botToken", "Bot token is required"), Issue("chatId", "Chat ID is required"),
                       Issue("content", "Message content is required")]
  {
  }
}
