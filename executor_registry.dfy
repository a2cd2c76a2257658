/**
 * The executor registry: a constant table from node type to the executor that
 * runs nodes of that type, and the lookup that fails on a type with no entry.
 */
module ExecutorRegistry {
  import opened Wrappers
  import opened Graph

  /** The executors the table can name. */
  datatype ExecutorId =
    | ManualTriggerExecutor | HttpRequestExecutor | GoogleFormTriggerExecutor | StripeTriggerExecutor
    | GeminiExecutor | AnthropicExecutor | OpenAiExecutor | DiscordExecutor | SlackExecutor
    | WhatsAppExecutor | WhatsAppTriggerExecutor | TelegramExecutor | TelegramTriggerExecutor
    | GitHubExecutor | GitHubTriggerExecutor
    | ConditionExecutor | EmailExecutor | CronTriggerExecutor | WebhookTriggerExecutor | EmailTriggerExecutor

  /** The table as written: sixteen entries, none for the types in `Missing`. */
  function Registry(t: NodeType): Option<ExecutorId> {
    match t
    case MANUAL_TRIGGER => Some(ManualTriggerExecutor)
    case INITIAL => Some(ManualTriggerExecutor)
    case HTTP_REQUEST => Some(HttpRequestExecutor)
    case GOOGLE_FORM_TRIGGER => Some(GoogleFormTriggerExecutor)
    case STRIPE_TRIGGER => Some(StripeTriggerExecutor)
    case GEMINI => Some(GeminiExecutor)
    case ANTHROPIC => Some(AnthropicExecutor)
    case OPENAI => Some(OpenAiExecutor)
    case DISCORD => Some(DiscordExecutor)
    case SLACK => Some(SlackExecutor)
    case WHATSAPP => Some(WhatsAppExecutor)
    case WHATSAPP_TRIGGER => Some(WhatsAppTriggerExecutor)
    case TELEGRAM => Some(TelegramExecutor)
    case TELEGRAM_TRIGGER => Some(TelegramTriggerExecutor)
    case GITHUB => Some(GitHubExecutor)
    case GITHUB_TRIGGER => Some(GitHubTriggerExecutor)
    case _ => None
  }

  /** The message `getExecutor` throws for a type with no entry. */
  function NoExecutorMessage(t: NodeType): string {
    "No executor found for node type: " + t.Name()
  }

  /** `getExecutor` as written, against `Registry`. */
  function GetExecutor(t: NodeType): (r: Result<ExecutorId, string>)
    ensures r.Ok? <==> Registry(t).Some?
    ensures Registry(t).Some? ==> r.value == Registry(t).value
    ensures Registry(t).None? ==> r == Err(NoExecutorMessage(t))
  {
    match Registry(t)
    case Some(e) => Ok(e)
    case None => Err(NoExecutorMessage(t))
  }

  /** The node types the table leaves out. */
  const Missing: set<NodeType> := {CONDITION, EMAIL, CRON_TRIGGER, WEBHOOK, EMAIL_TRIGGER}

  /** The two start-node types share one executor. */
  lemma InitialIsManualTrigger()
    ensures GetExecutor(INITIAL).Ok? && GetExecutor(MANUAL_TRIGGER).Ok?
    ensures GetExecutor(INITIAL) == GetExecutor(MANUAL_TRIGGER)
  {
  }

  /** Exactly the five `Missing` types are rejected, each with its own message. */
  lemma RegistryDomain(t: NodeType)
    ensures GetExecutor(t).Err? <==> t in Missing
    ensures t in Missing ==> GetExecutor(t) == Err("No executor found for node type: " + t.Name())
  {
  }

  /** As written, a condition node can never be run: its lookup always fails. */
  lemma ConditionHasNoExecutor()
    ensures GetExecutor(CONDITION) == Err("No executor found for node type: " + "CONDITION")
    ensures GetExecutor(EMAIL) == Err("No executor found for node type: " + "EMAIL")
  {
  }

  /** The table with the five missing executors added, as the total `Record<NodeType, …>` type promises. */
  function CorrectedRegistry(t: NodeType): Option<ExecutorId> {
    match t
    case CONDITION => Some(ConditionExecutor)
    case EMAIL => Some(EmailExecutor)
    case CRON_TRIGGER => Some(CronTriggerExecutor)
    case WEBHOOK => Some(WebhookTriggerExecutor)
    case EMAIL_TRIGGER => Some(EmailTriggerExecutor)
    case _ => Registry(t)
  }

  /** The lookup against the corrected table: total, and in agreement with the written table on its entries. */
  function GetExecutorCorrected(t: NodeType): (r: Result<ExecutorId, string>)
    ensures r.Ok?
    ensures GetExecutor(t).Ok? ==> r == GetExecutor(t)
    ensures t == CONDITION ==> r == Ok(ConditionExecutor)
    ensures t == EMAIL ==> r == Ok(EmailExecutor)
  {
    match CorrectedRegistry(t)
    case Some(e) => Ok(e)
    case None => Err(NoExecutorMessage(t))
  }
}
