# NodeWeave workflow engine, modelled in Dafny

NodeWeave is a workflow-automation application. A user draws a workflow: a
graph of nodes (triggers, a condition, and actions that call WhatsApp,
e-mail, Telegram, GitHub or Slack), joined by connections that leave a
named output port of one node and enter another node. A run starts from
an event (a webhook delivery, a cron tick, a manual trigger). The engine
sorts the nodes topologically and starts with the roots active. It walks
the sorted list, running each active node's executor on the run context.
After a node runs, it activates the node's children; a condition node
activates only the branch its result selects.

This project models that engine and the pure logic around it:

- the graph utilities (topological sort with its self-edges and
  deduplication, the adjacency map);
- the run orchestrator and the execution record it keeps;
- the executor registry;
- the condition evaluator and the action executors, each as a trace of
  status publishes and outgoing requests;
- the cron scheduler tick;
- the webhook routes that turn provider payloads into runs;
- the node configuration schemas of the dialogs;
- the execution list's pagination and the workflow-usage figures.

Foreign libraries and services are parameters of the model, not part of it:

- template rendering and HTML-entity decoding;
- the topological-sort package;
- cron parsing and ISO date formatting;
- `JSON.parse` and form decoding;
- HTTP;
- the mail transport;
- credential lookup and decryption;
- the database reads;
- run dispatch.

Each is a total function (the failures this leaves out are listed under "## Left out"), and where the code relies on a property of one,
that property is an explicit `requires`.

Files, one module each:

| file | models |
|---|---|
| `wrappers.dfy` | `Option` and `Result` |
| `json.dfy` | the JavaScript values the engine handles: truthiness, property access, `String()`, `trim`, `includes`, `indexOf`, `replace`, `slice` |
| `graph.dfy` | nodes, connections and node types |
| `inngest_utils.dfy` | `src/inngest/utils.ts` |
| `executor_registry.dfy` | `src/app/features/executions/lib/executor-registry.ts` |
| `workflow_run.dfy` | `src/inngest/functions.ts` |
| `scheduler.dfy` | `src/inngest/functions/scheduler.ts` |
| `exec_common.dfy` | the status trace, the request/reply model and the error kinds the executors share |
| `condition_executor.dfy`, `whatsapp_executor.dfy`, `email_executor.dfy`, `telegram_executor.dfy`, `github_executor.dfy`, `slack_executor.dfy` | the executors |
| `webhook_common.dfy`, `email_webhook.dfy`, `whatsapp_webhook.dfy`, `github_webhook.dfy`, `telegram_webhook.dfy` | the webhook routes |
| `form_common.dfy`, `email_form.dfy`, `whatsapp_form.dfy`, `telegram_form.dfy`, `condition_form.dfy`, `github_form.dfy` | the dialog schemas |
| `pagination.dfy` | `src/app/features/executions/server/routers.ts` |
| `usage.dfy` | `src/app/features/workflows/hooks/use-workflow-usage.ts` |

## Model

| member | source | states |
|---|---|---|
| InngestUtils.ConnectionEdges | src/inngest/utils.ts:14-17 | one `[from, to]` edge per connection, in connection order |
| InngestUtils.NodeById | src/inngest/utils.ts:45 | the node map lookup finds a node exactly when some node has the id, and the node it finds has that id |
| InngestUtils.MapToNodes | src/inngest/utils.ts:47 | the ids of the result are the sorted ids that belong to a node, in order; ids with no node are dropped; every result node is an input node |
| InngestUtils.TopologicalSort | src/inngest/utils.ts:6-48 | the method computes `SortSpec`. With no connections it returns the nodes unchanged. Otherwise it fails exactly when the sorter fails; a message containing "Cyclic" becomes "Workflow contains a cycle" and any other is passed on. A result holds only input nodes, with no id twice |
| InngestUtils.EndpointsMembers | src/inngest/utils.ts:19-24 | an id is in `connectedNodeIds` exactly when it is the source or target of some connection |
| InngestUtils.SelfEdgesMembers | src/inngest/utils.ts:26-30 | the extra edges are exactly the self-edges `[id, id]` of the node ids that are no connection's endpoint |
| InngestUtils.SelfEdgeForIsolated | src/inngest/utils.ts:26-30 | a node that touches no connection is still a vertex of the sort input, through its self-edge |
| InngestUtils.SortInputVertices | src/inngest/utils.ts:14-30 | every edge handed to the sorter is a connection's edge or a node's self-edge |
| InngestUtils.DedupMembers | src/inngest/utils.ts:37 | deduplication keeps exactly the ids it was given |
| InngestUtils.DedupDistinct | src/inngest/utils.ts:37 | after deduplication no id occurs twice |
| InngestUtils.DedupKeepsOrder | src/inngest/utils.ts:37 | deduplication keeps the order of first occurrences |
| InngestUtils.KeepInMembers | src/inngest/utils.ts:45-47 | the filter keeps exactly the ids that have a node |
| InngestUtils.KeepInDistinct | src/inngest/utils.ts:45-47 | the filter keeps distinct ids distinct |
| InngestUtils.KeepInKeepsOrder | src/inngest/utils.ts:45-47 | the filter keeps the relative order of the ids it keeps |
| InngestUtils.NoConnectionsKeepsOrder | src/inngest/utils.ts:10-12 | with zero connections the stored node list is returned unchanged |
| InngestUtils.OutputFromInput | src/inngest/utils.ts:35-47 | the output holds only input nodes, no id twice, and only ids the sorter listed |
| InngestUtils.EveryNodeSorted | src/inngest/utils.ts:14-47 | given a sorter that accepts the self-edges and lists every vertex, every node of the workflow is in the output, isolated nodes included |
| InngestUtils.ConnectionsRespected | src/inngest/utils.ts:14-47 | given a sorter that succeeds and orders the connections' own edges (nothing is asked of the self-edges), for each connection a→b between two distinct nodes, a comes before b in the output |
| InngestUtils.BuildAdjacencyMap | src/inngest/utils.ts:69-86 | the loop builds exactly the map the connections describe (`Represents`): one key per source, one port per used output, each port listing its targets in input order with duplicates kept. For every connection, its target is on its port |
| InngestUtils.PushStep | src/inngest/utils.ts:72-83 | one loop iteration (create the key, create the port, push the target) keeps the map exact for the longer connection list |
| InngestUtils.TargetsMembers | src/inngest/utils.ts:72-83 | a connection's target lies on its own port of its own source |
| InngestUtils.AdjacencyFromConnections | src/inngest/utils.ts:72-83 | no key without a connection: every source key, port and target comes from some connection |
| InngestUtils.TargetsCount | src/inngest/utils.ts:82 | a port list has one entry per connection on that source and port |
| InngestUtils.AdjacencyHasEveryConnection | src/inngest/utils.ts:72-83 | every connection is found in the map, under its source node and output port |
| ExecutorRegistry.GetExecutor | src/app/features/executions/lib/executor-registry.ts:38-46 | returns the table entry when one exists, and otherwise throws "No executor found for node type: <t>" |
| ExecutorRegistry.InitialIsManualTrigger | src/app/features/executions/lib/executor-registry.ts:20-21 | `INITIAL` and `MANUAL_TRIGGER` resolve to the same executor |
| ExecutorRegistry.RegistryDomain | src/app/features/executions/lib/executor-registry.ts:19-43 | the lookup fails exactly for CONDITION, EMAIL, CRON_TRIGGER, WEBHOOK and EMAIL_TRIGGER |
| ExecutorRegistry.ConditionHasNoExecutor | src/app/features/executions/lib/executor-registry.ts:19-43 | as written, CONDITION and EMAIL nodes have no executor |
| ExecutorRegistry.GetExecutorCorrected | src/app/features/executions/lib/executor-registry.ts:19-46 | the corrected lookup is total and agrees with the written table on every entry the table has |
| WorkflowRun.RunSteps | src/inngest/functions.ts:125-133 | one `RunNode` step per executor call, in call order |
| WorkflowRun.ActivateAll | src/inngest/functions.ts:144-146 | `targets.forEach(add)` adds exactly the listed targets to the activated set |
| WorkflowRun.ActivatePorts | src/inngest/functions.ts:151-155 | every target on every port is added |
| WorkflowRun.ActivateChildren | src/inngest/functions.ts:136-157 | the new activated set is the old one plus `NewlyActive`, the children or the chosen branch. The context loses the two internal keys only for a condition node that has outputs |
| WorkflowRun.WalkNodes | src/inngest/functions.ts:119-158 | the loop computes `Walk`, the function the lemmas below are about |
| WorkflowRun.Walk | src/inngest/functions.ts:119-158 | the loop over the sorted nodes as a recursion; WalkNodes is the loop proved equal to it, and WalkGrows, WalkFollowsOrder, WalkOnlyRunsEnabled and WalkThreadsContext state what it keeps |
| WorkflowRun.ExecuteWorkflow | src/inngest/functions.ts:59-175 | the handler computes `Run`. A missing event id or workflow id throws a non-retriable error before any step. A completed run returns the workflow id, and its last step is the SUCCESS update with the final context |
| WorkflowRun.Run | src/inngest/functions.ts:59-175 | the handler's steps and result; ExecuteWorkflow is the handler proved equal to it, and MissingIdsRejected, RunGuarantees, RunRecordsSuccess, RunRecordsFailure and FailedRunLeavesCreated state what it does |
| WorkflowRun.AdjacencyAgrees | src/inngest/functions.ts:136-156 | the adjacency map gives the same children and port targets as the connections |
| WorkflowRun.CalledNodes | src/inngest/functions.ts:125-133 | the nodes of the calls, in call order |
| WorkflowRun.WalkGrows | src/inngest/functions.ts:119-158 | the walk only appends calls, and the activated set only grows |
| WorkflowRun.WalkFollowsOrder | src/inngest/functions.ts:119-133 | the nodes run, in call order, form a subsequence of the sorted list |
| WorkflowRun.WalkOnlyRunsEnabled | src/inngest/functions.ts:112-157 | a node runs only when it is a root or a child of a node that ran before it |
| WorkflowRun.WalkThreadsContext | src/inngest/functions.ts:106-150 | each executor receives the context the previous executor returned, cleaned of the internal keys where that applies; the walk ends with the last one |
| WorkflowRun.SkipsInactive | src/inngest/functions.ts:121-123 | a node that is not active is skipped without calling its executor |
| WorkflowRun.ActivatesAllChildren | src/inngest/functions.ts:125-156 | a non-condition node is called once with the current context; its result becomes the context and all its children become active |
| WorkflowRun.ActivatesChosenBranch | src/inngest/functions.ts:138-150 | after a condition node, only the targets of `source-true` (truthy `__conditionResult`) or of `source-false` become active. The two internal keys are deleted only when the node has outputs |
| WorkflowRun.ConditionStopsRunAsWritten | src/app/features/executions/lib/executor-registry.ts:38-43 | with the table as written, an active condition node stops the run with "No executor found for node type: CONDITION" |
| WorkflowRun.ConditionRunsWhenCorrected | src/inngest/functions.ts:125-133 | with the corrected table, an active condition node calls the condition executor |
| WorkflowRun.RunGuarantees | src/inngest/functions.ts:59-175 | a run with both ids first creates the execution; a missing workflow fails with "No Workflow found". Otherwise the walk starts from the roots and `initialData` or `{}`, runs a subsequence of the sorted nodes, each justified by activation, no node twice when there are connections, threads the context, and returns it |
| WorkflowRun.MissingIdsRejected | src/inngest/functions.ts:63-69 | a missing event id or workflow id throws the non-retriable "Event ID is missing" or "Workflow ID is missing" before any step |
| WorkflowRun.CreateRecord | src/inngest/functions.ts:71-78 | creating an execution adds exactly one record keyed by the event id; a duplicate event id is refused |
| WorkflowRun.CompleteRecord | src/inngest/functions.ts:160-169 | the record with this event id and workflow id becomes SUCCESS with the output; nothing else changes; a missing record is refused |
| WorkflowRun.OnFailure | src/inngest/functions.ts:28-37 | the failure hook sets FAILED with the error message and stack on the record with the event id; nothing else changes |
| WorkflowRun.OnFailureIdempotent | src/inngest/functions.ts:28-37 | running the failure hook twice leaves the same table as running it once |
| WorkflowRun.ApplyRunSteps | src/inngest/functions.ts:80-158 | the preparation steps and the node runs write no execution record |
| WorkflowRun.ApplyNoRecords | src/inngest/functions.ts:80-158 | steps other than create and update leave the execution table as it was |
| WorkflowRun.RunRecordsSuccess | src/inngest/functions.ts:71-169 | a completed run leaves exactly one new record, SUCCESS, holding the final context |
| WorkflowRun.RunRecordsFailure | src/inngest/functions.ts:28-78 | a failed run, followed by the failure hook, leaves exactly one new record, FAILED, holding the error message |
| WorkflowRun.FailedRunLeavesCreated | src/inngest/functions.ts:71-169 | a run that fails after creating its execution leaves that record RUNNING until the failure handler runs |
| WorkflowRun.BranchFollowsCondition | src/inngest/functions.ts:138-143 | the branch taken after a condition node is the one its operator evaluation selects |
| Scheduler.StartOfMinute | src/inngest/functions/scheduler.ts:25-27 | "now" is truncated to the whole minute: a multiple of 60000 ms, at most the clock and less than a minute before it |
| Scheduler.Tick | src/inngest/functions/scheduler.ts:25-65 | the loop queues `EventsFor` the due triggers. It sends one batch holding all of them, and only when there is at least one; `triggered` is their number, which EventCount equates with the number of due triggers |
| Scheduler.EventsConcat | src/inngest/functions/scheduler.ts:31-57 | each trigger is judged on its own: the events for two trigger lists joined are the two event lists joined |
| Scheduler.EventsFor | src/inngest/functions/scheduler.ts:31-57 | no more events than triggers, each the execute event carrying the tick's trigger time; EventsExactlyDue and EventCount state which triggers are queued and how many |
| Scheduler.EventsExactlyDue | src/inngest/functions/scheduler.ts:31-53 | wherever a trigger sits in the list, it contributes exactly its own event if it is due and nothing otherwise. Each event is `workflows/execute.workflow` with `{triggerTime: ISO(now)}` for a due trigger's workflow. Every due trigger, one with a cron string whose next run after now − 60 s is now, has its event |
| Scheduler.EventsPerTrigger | src/inngest/functions/scheduler.ts:31-53 | the events of `a + [t] + b` are those of `a`, then `t`'s event if `t` is due, then those of `b` |
| Scheduler.EventCount | src/inngest/functions/scheduler.ts:31-65 | the number of queued events, and so `triggered`, equals the number of due triggers counted independently |
| Scheduler.TriggerIsolated | src/inngest/functions/scheduler.ts:32-56 | a trigger without a cron string, or whose cron fails to parse, adds nothing and does not disturb the others |
| Scheduler.StartOfMinuteIdempotent | src/inngest/functions/scheduler.ts:27 | truncating an already truncated time changes nothing |
| ExecCommon.KyJson | src/app/features/executions/components/github/executor.ts:95-105 | a request made through `ky` yields JSON exactly for an OK response; anything else throws a plain error |
| ExecCommon.Put | src/app/features/executions/components/condition/executor.ts:111-119 | `{...context, [key]: value}` sets one key and keeps all others |
| ExecCommon.Prop | src/app/features/executions/components/whatsapp/executor.ts:152-154 | reading a property throws a TypeError exactly on a null or undefined base |
| ExecCommon.Reject | src/app/features/executions/components/condition/executor.ts:32-40 | a failed check publishes `loading` then `error`, sends nothing, and throws a non-retriable error with the message |
| ExecCommon.Finish | src/app/features/executions/components/slack/executor.ts:26-98 | wrapping a step publishes `loading`, then the step's own publishes, then `success` or `error` by its result; the result and the sends are the step's |
| ExecCommon.TraceConcat | src/app/features/executions/components/slack/executor.ts:26-98 | the sends and publishes of two trace pieces joined are those of each piece, joined |
| ExecCommon.FinalStatus | src/app/features/executions/components/slack/executor.ts:82-97 | a trace that begins with `loading` and ends by publishing `success` for a result or `error` for an error is bracketed (`StatusBracketed`); every Execute below states this of itself |
| ConditionExecutor.ParseOperator | src/app/features/executions/components/condition/executor.ts:69-102 | exactly the ten operator names are recognised |
| ConditionExecutor.Evaluate | src/app/features/executions/components/condition/executor.ts:69-102 | the `switch` on the operator name; its cases are stated by ContainsEmpty, AffixContained, AbsentRightOperand, Complements, NumericComparisons and UnknownOperatorFalse (an unknown name is false), and ConditionForm.HiddenOperandIgnored and ShownOperandMatters relate it to the dialog |
| ConditionExecutor.ValidationOrder | src/app/features/executions/components/condition/executor.ts:25-109 | `loading` is published first. variableName, leftOperand and operator are checked in that order; the first missing one publishes `error` and throws its non-retriable message. Otherwise `success` is published exactly once and the run continues |
| ConditionExecutor.ContainsEmpty | src/app/features/executions/components/condition/executor.ts:76-78 | every string includes "" |
| ConditionExecutor.AffixContained | src/app/features/executions/components/condition/executor.ts:76-99 | a string that starts or ends with a pattern contains it |
| ConditionExecutor.AbsentRightOperand | src/app/features/executions/components/condition/executor.ts:63-99 | with no right operand: `equals` is false, `not_equals` true, `contains` true, `not_contains` false, and `starts_with` and `ends_with` true |
| ConditionExecutor.Complements | src/app/features/executions/components/condition/executor.ts:70-93 | `not_equals` and `not_contains` are the negations of `equals` and `contains`. `equals` holds exactly when the rendered right operand equals the left. `is_empty` holds iff the left is "", and `is_not_empty` is its negation, whatever the right operand |
| ConditionExecutor.NumericComparisons | src/app/features/executions/components/condition/executor.ts:82-87 | `greater_than` and `less_than` never both hold; both are false when the left operand does not parse (NaN); an absent right operand compares against "0" |
| ConditionExecutor.UnknownOperatorFalse | src/app/features/executions/components/condition/executor.ts:100-101 | an unrecognised operator yields false |
| ConditionExecutor.ResultContext | src/app/features/executions/components/condition/executor.ts:111-119 | the result is the input context plus `[variableName]: {result}`, `__conditionResult` and `__conditionNodeId: nodeId`; all other keys are unchanged |
| ConditionExecutor.Execute | src/app/features/executions/components/condition/executor.ts:16-119 | `loading` is published first and the last status is `success` exactly when a context is returned (`StatusBracketed`); the check order is ValidationOrder and the returned context ResultContext |
| WhatsAppExecutor.SendViaTwilio | src/app/features/executions/components/whatsapp/executor.ts:112-171 | without accountSid, authToken or a sender it sends nothing and throws a non-retriable error; otherwise it makes the single Twilio request |
| WhatsAppExecutor.SendViaMeta | src/app/features/executions/components/whatsapp/executor.ts:174-230 | without accessToken or phoneNumberId it sends nothing and throws a non-retriable error; otherwise it makes the single Meta request |
| WhatsAppExecutor.ValidationOrder | src/app/features/executions/components/whatsapp/executor.ts:25-71 | `loading` comes first. provider, toNumber, content and variableName are checked in that order; the first one missing publishes `error` and throws its non-retriable message before any send |
| WhatsAppExecutor.StatusTrace | src/app/features/executions/components/whatsapp/executor.ts:25-108 | the publishes are `loading`, then `success` or `error` by the result. There is at most one send, and exactly one on success |
| WhatsAppExecutor.StepTrace | src/app/features/executions/components/whatsapp/executor.ts:82-90 | the step publishes nothing itself and sends at most once |
| WhatsAppExecutor.ProviderDispatch | src/app/features/executions/components/whatsapp/executor.ts:83-190 | `twilio` sends only to the Twilio messages URL of the account and `meta` only to the Meta URL of the phone number. Any other provider sends nothing and throws "WhatsApp Node: Unknown provider: <p>" |
| WhatsAppExecutor.TwilioChecksAndRequest | src/app/features/executions/components/whatsapp/executor.ts:120-150 | accountSid, authToken and the sender are required in that order, each with its own message, before any request. The form carries `whatsapp:`-prefixed From and To and the first 1600 characters of the content |
| WhatsAppExecutor.MetaChecksAndRequest | src/app/features/executions/components/whatsapp/executor.ts:182-210 | accessToken then phoneNumberId are required, each with its own message, before the single request carrying the first 1600 characters |
| WhatsAppExecutor.NotOkIsNonRetriable | src/app/features/executions/components/whatsapp/executor.ts:152-216 | a non-OK reply from either provider throws a non-retriable error |
| WhatsAppExecutor.SuccessResult | src/app/features/executions/components/whatsapp/executor.ts:159-229 | success returns the context plus `[variableName]`, tagged with the provider; every other key is unchanged |
| WhatsAppExecutor.Execute | src/app/features/executions/components/whatsapp/executor.ts:17-108 | `loading` first, last status `success` exactly for a result (`StatusBracketed`); the checks are ValidationOrder, the trace StatusTrace and StepTrace, the provider choice ProviderDispatch, the result SuccessResult |
| WhatsAppExecutor.TwilioTagged | src/app/features/executions/components/whatsapp/executor.ts:159-170 | a Twilio success stores a record tagged `provider: "twilio"` under the variable name and keeps every other key |
| WhatsAppExecutor.MetaTagged | src/app/features/executions/components/whatsapp/executor.ts:220-229 | a Meta success stores a record tagged `provider: "meta"` under the variable name and keeps every other key |
| EmailExecutor.SendViaResend | src/app/features/executions/components/email/executor.ts:122-173 | without credentialId it looks up and sends nothing. Otherwise the credential is looked up first, and a missing one throws "Credential not found" before any send; there is at most one send |
| EmailExecutor.SecureOption | src/app/features/executions/components/email/executor.ts:211 | `smtpSecure ?? false`: false for null or undefined, the configured value otherwise |
| EmailExecutor.SendViaSmtp | src/app/features/executions/components/email/executor.ts:175-236 | the first missing setting among host, port, username, password, variableName and from throws its non-retriable message with no transport use; otherwise exactly one mail is sent |
| EmailExecutor.ValidationOrder | src/app/features/executions/components/email/executor.ts:29-76 | provider, to, subject and body are checked in that order; the first missing one publishes `loading` then `error` and throws its non-retriable message |
| EmailExecutor.StepErrorsWrapped | src/app/features/executions/components/email/executor.ts:92-119 | the publishes are `loading`, the step's, then `success` or `error`. Any step error, non-retriable ones included, is rethrown as the plain `Error("Failed to send email: <message>")` |
| EmailExecutor.InvalidProviderWrapped | src/app/features/executions/components/email/executor.ts:93-118 | a provider other than `resend` and `smtp` ends in "Failed to send email: Email Node: Invalid provider" |
| EmailExecutor.ResendSendsBeforeVariableCheck | src/app/features/executions/components/email/executor.ts:146-162 | with a credential but no variableName, Resend still sends the message and then fails on the variable name |
| EmailExecutor.ResendFromDefault | src/app/features/executions/components/email/executor.ts:143-158 | the Resend request carries the decrypted key and `from` defaulting to "onboarding@resend.dev" |
| EmailExecutor.SmtpRequiresSettings | src/app/features/executions/components/email/executor.ts:183-216 | an SMTP send succeeds only with host, port, username, password, variableName and from all set; `secure` defaults to false |
| EmailExecutor.SuccessResult | src/app/features/executions/components/email/executor.ts:164-235 | success returns the context plus `[variableName]` with status "sent"; only the SMTP path adds `response`; every other key is unchanged |
| EmailExecutor.Execute | src/app/features/executions/components/email/executor.ts:21-119 | `loading` first, last status `success` exactly for a result (`StatusBracketed`); the checks are ValidationOrder, the wrapping of step errors StepErrorsWrapped and InvalidProviderWrapped, the result SuccessResult |
| EmailExecutor.SmtpMissing | src/app/features/executions/components/email/executor.ts:183-205 | no message exactly when host, a truthy port, user name, password, variable name and sender are all set; SmtpRequiresSettings ties it to the SMTP send |
| EmailExecutor.ResendStores | src/app/features/executions/components/email/executor.ts:164-171 | a Resend success stores `{ id, to, subject, status: "sent" }` under the variable name, without `response` |
| EmailExecutor.SmtpStores | src/app/features/executions/components/email/executor.ts:226-235 | an SMTP success stores the same record with the transport's `response` added |
| TelegramExecutor.SendRequest | src/app/features/executions/components/telegram/executor.ts:83-97 | the request goes to the bot's `sendMessage` URL with the rendered chat id and the first 4096 characters; `parse_mode` is present exactly for the Markdown attempt |
| TelegramExecutor.ResponseJson | src/app/features/executions/components/telegram/executor.ts:91-99 | with `throwHttpErrors: false`, every HTTP response yields its JSON and only a network failure throws |
| TelegramExecutor.Respond | src/app/features/executions/components/telegram/executor.ts:121-140 | a response that is not ok publishes `error` and throws "Telegram Node Error: <description or default> (<code>)" as non-retriable. Success requires `ok`; null response data throws a TypeError |
| TelegramExecutor.ValidationOrder | src/app/features/executions/components/telegram/executor.ts:18-57 | content, then variableName, are required before anything is sent. A message is refused exactly when its render is all white space (so it trims to ""); otherwise the delivery step runs on the trimmed message |
| TelegramExecutor.RetryOnlyOnParseFailure | src/app/features/executions/components/telegram/executor.ts:113-119 | the first send uses Markdown. A second, plain send happens exactly when the first reply is not ok, has code 400 and a description containing "can't parse entities"; there are never more than two |
| TelegramExecutor.MessageTruncated | src/app/features/executions/components/telegram/executor.ts:88 | every send carries the first 4096 characters of the content |
| TelegramExecutor.ErrorPublishedTwice | src/app/features/executions/components/telegram/executor.ts:61-157 | a missing botToken or chatId, checked inside the step, publishes `error` there and again in the catch, and throws a non-retriable error |
| TelegramExecutor.NotOkIsNonRetriable | src/app/features/executions/components/telegram/executor.ts:121-157 | a reply that stays not ok throws the non-retriable API error, with `error` published twice |
| TelegramExecutor.SuccessResult | src/app/features/executions/components/telegram/executor.ts:132-148 | success returns the context plus `[variableName]: {messageId, date, chat, text}` and publishes `loading` then `success` |
| TelegramExecutor.Execute | src/app/features/executions/components/telegram/executor.ts:11-157 | `loading` first, last status `success` exactly for a result (`StatusBracketed`); the checks are ValidationOrder, retries RetryOnlyOnParseFailure, the failure trace ErrorPublishedTwice and NotOkIsNonRetriable, the result SuccessResult |
| TelegramExecutor.DeliveryStores | src/app/features/executions/components/telegram/executor.ts:132-148 | a successful delivery step publishes nothing itself and stores `messageId`, `date`, `chat` and `text` under the variable name, keeping every other key |
| TelegramExecutor.RespondStores | src/app/features/executions/components/telegram/executor.ts:132-148 | an ok response stores exactly those four fields under the variable name, keeping every other key |
| GitHubExecutor.ValidationOrder | src/app/features/executions/components/github/executor.ts:28-63 | `loading` comes first. variableName, then credentialId, then all of owner, repo, issueNumber and commentBody are required, each failure publishing `error` and throwing its non-retriable message before the credential lookup |
| GitHubExecutor.CredentialScopedToUser | src/app/features/executions/components/github/executor.ts:65-82 | the credential is looked up by id and owner together; when the lookup finds none, nothing is sent, `error` is published and "GitHub Node: Credential not found" is thrown |
| GitHubExecutor.CommentPosted | src/app/features/executions/components/github/executor.ts:84-104 | exactly one request is sent, to `/repos/{owner}/{repo}/issues/{issueNumber}/comments` built from the rendered fields, carrying the decrypted token |
| GitHubExecutor.RequestFailure | src/app/features/executions/components/github/executor.ts:90-129 | the run succeeds exactly on an OK reply with a non-null body; a failed post publishes `error` last and rethrows the request's error |
| GitHubExecutor.SuccessResult | src/app/features/executions/components/github/executor.ts:107-120 | success returns the context plus `[variableName]: {commentUrl, commentId}`; every other key is unchanged |
| GitHubExecutor.Execute | src/app/features/executions/components/github/executor.ts:19-129 | the checks, the credential lookup, the request and the reply in source order; StatusDiscipline, ValidationOrder, CredentialScopedToUser, CommentPosted, RequestFailure and SuccessResult state what it does |
| GitHubExecutor.Complete | src/app/features/executions/components/github/executor.ts:55 | owner, repo, issue number and comment body all set; ValidationOrder states that a configuration failing it is refused with the required-fields message once the variable name and credential are set, and GitHubForm.ValidFormPassesExecutorChecks that a valid form passes it |
| GitHubExecutor.AnsweredTrace | src/app/features/executions/components/github/executor.ts:105-129 | what `Answered` adds after the request keeps the trace so far as a prefix, sends nothing more, and publishes `error`, `success`, or `success` then `error` for a null reply; the result is a value exactly for a non-null reply |
| GitHubExecutor.StatusDiscipline | src/app/features/executions/components/github/executor.ts:28-129 | `loading` first, last status `success` exactly when a result is returned, on every modelled path including the null reply (a throwing `decrypt` is under "## Left out") |
| SlackExecutor.WebhookStep | src/app/features/executions/components/slack/executor.ts:47-80 | without a webhook URL the step publishes `error` and throws before any post; otherwise its first effect is the post of the rendered content |
| SlackExecutor.ValidationOrder | src/app/features/executions/components/slack/executor.ts:26-98 | content is required before the step. A missing webhook URL sends nothing, publishes `error` twice (in the step and in the catch) and throws its non-retriable message |
| SlackExecutor.PostsBeforeVariableCheck | src/app/features/executions/components/slack/executor.ts:58-72 | a missing variableName fails only after the message was posted: one send, then the non-retriable error |
| SlackExecutor.PostedWholeStoredPrefix | src/app/features/executions/components/slack/executor.ts:43-79 | the whole rendered and decoded content is posted. The result is the context plus `[variableName]: {messageContent}` holding its first 2000 characters; every other key is unchanged |
| SlackExecutor.SuccessPublishes | src/app/features/executions/components/slack/executor.ts:82-89 | a successful run publishes `loading` then `success` |
| SlackExecutor.Execute | src/app/features/executions/components/slack/executor.ts:18-98 | `loading` first, last status `success` exactly for a result (`StatusBracketed`); the checks are ValidationOrder, the order of post and check PostsBeforeVariableCheck, the message PostedWholeStoredPrefix, the publishes SuccessPublishes |
| WebhookCommon.Lookup | src/app/api/webhooks/telegram/route.ts:7-8 | a query parameter read by `searchParams.get`, or a header read by `headers.get(name) \|\| ""` (email `route.ts:149`): the entry when present, "" when absent |
| WebhookCommon.Respond | src/app/api/webhooks/email/route.ts:143-205 | a reply with the given status and body that starts no run |
| WebhookCommon.Failure | src/app/api/webhooks/telegram/route.ts:52-58 | the catch-all reply: status 500 and no run |
| WebhookCommon.Start | src/app/api/webhooks/telegram/route.ts:43-57 | a route that dispatches starts exactly that one run; it answers 200 with its success body when the dispatch succeeds and 500 when it throws |
| WebhookCommon.CollectFields | src/app/api/webhooks/email/route.ts:155-174 | the loop over form entries yields `Fields`: the string entries, a later entry overwriting an earlier one with the same key, files skipped |
| WebhookCommon.TextEntries | src/app/api/webhooks/email/route.ts:171-174 | URL-encoded pairs become text entries one for one |
| WebhookCommon.FieldsObject | src/app/api/webhooks/email/route.ts:150-174 | the collected fields as a payload object, one string property per field |
| WebhookCommon.FieldsLastWins | src/app/api/webhooks/email/route.ts:156-160 | a key is in the payload exactly when some string entry has it, and its value is the last such entry's |
| TelegramWebhook.TriggerData | src/app/api/webhooks/telegram/route.ts:31-40 | the trigger data has exactly chatId, text, username, firstName, lastName, messageId, date and raw; raw is the payload |
| TelegramWebhook.TriggerDataFields | src/app/api/webhooks/telegram/route.ts:31-40 | chatId, messageId and date are the message's values; text, username, firstName and lastName copy the message's or sender's value when it is truthy, and none of them is a falsy value other than "" |
| TelegramWebhook.MessageFields | src/app/api/webhooks/telegram/route.ts:31-40 | the chat id, text, message id and date read from the message, with the whole update as `raw` |
| TelegramWebhook.SenderFields | src/app/api/webhooks/telegram/route.ts:31-40 | the sender's user name, first and last name |
| TelegramWebhook.MissingWorkflowIdRejected | src/app/api/webhooks/telegram/route.ts:10-15 | a missing workflowId gives 400 and starts no run |
| TelegramWebhook.NonMessageIgnored | src/app/api/webhooks/telegram/route.ts:22-28 | an update with no message gives 200 `ignored` and starts no run |
| TelegramWebhook.MessageStartsOneRun | src/app/api/webhooks/telegram/route.ts:31-50 | a message starts exactly one run of the workflow with `{telegram: triggerData}`. chatId, messageId and date are copied from the message and raw is the payload. text, username, firstName and lastName copy a truthy source value, and none of them is a falsy value other than "" |
| TelegramWebhook.RunsOnlyForMessages | src/app/api/webhooks/telegram/route.ts:5-59 | at most one run starts, and one starts exactly when there is a workflowId and a message with a chat and a sender |
| TelegramWebhook.Post | src/app/api/webhooks/telegram/route.ts:5-58 | at most one run, and only for the queried, non-empty workflow id; MissingWorkflowIdRejected, NonMessageIgnored, MessageStartsOneRun and RunsOnlyForMessages state when and with what |
| EmailWebhook.ToValue | src/app/api/webhooks/email/route.ts:5-18 | the normalised e-mail as an object carries its provider tag and the raw payload |
| EmailWebhook.JoinedOr | src/app/api/webhooks/email/route.ts:32-36 | an array of recipients is joined with ", "; anything else is `v \|\| ""` |
| EmailWebhook.Attachments | src/app/api/webhooks/email/route.ts:40-109 | a non-array gives no attachments; an array gives one per element, and reading a null element throws |
| EmailWebhook.Get | src/app/api/webhooks/email/route.ts:217-227 | the verification GET always answers 200 and starts no run |
| EmailWebhook.FirstMatchWins | src/app/api/webhooks/email/route.ts:24-134 | Resend, SendGrid, Mailgun, Postmark and generic are tried in that order and the first match gives the provider tag; no match gives null; only the Resend and Postmark branches can throw |
| EmailWebhook.Normalize | src/app/api/webhooks/email/route.ts:24-134 | the provider formats tried in order; FirstMatchWins, RawAndAttachments and ResendJoinsRecipients state which format is taken and what it keeps |
| EmailWebhook.RawAndAttachments | src/app/api/webhooks/email/route.ts:47-129 | every result keeps the original payload as `raw`; SendGrid, Mailgun and generic results have no attachments |
| EmailWebhook.ResendJoinsRecipients | src/app/api/webhooks/email/route.ts:32-36 | for Resend, array-valued `to` and `cc` are joined with ", " |
| EmailWebhook.FallbackBodyIgnored | src/app/api/webhooks/email/route.ts:116-205 | a body of another content type that is not JSON becomes `{body: text}`, which normalises to null, so the route answers 200 `ignored` |
| EmailWebhook.Rejections | src/app/api/webhooks/email/route.ts:140-212 | a missing workflowId gives 400; a JSON content type with invalid JSON gives 400 "Invalid JSON"; a body that cannot be read (the form entries under multipart, the text otherwise) gives the catch-all 500 |
| EmailWebhook.OneRunPerEmail | src/app/api/webhooks/email/route.ts:186-206 | an unrecognised payload gives 200 `ignored` with no run; a recognised one starts exactly one run with `{email: normalized}` and answers with its provider |
| EmailWebhook.ParsePayload | src/app/api/webhooks/email/route.ts:149-183 | the body cannot be read exactly when the read its content type needs fails (the form data for multipart, the text otherwise); invalid JSON is reported only under a JSON content type that is not multipart; FallbackBodyIgnored covers other text |
| EmailWebhook.Post | src/app/api/webhooks/email/route.ts:137-214 | at most one run, and only for the queried, non-empty workflow id; Rejections and OneRunPerEmail state when and with what |
| WhatsAppWebhook.TwilioSender | src/app/api/webhooks/whatsapp/route.ts:74 | `From?.replace("whatsapp:", "")`: only the first `whatsapp:` is removed; an absent sender stays undefined |
| WhatsAppWebhook.VerifyHandshake | src/app/api/webhooks/whatsapp/route.ts:5-23 | with mode and token both present, the answer is 200 with the challenge iff mode is `subscribe` and the token equals the workflowId, otherwise 403; with either missing it is 400. No run starts |
| WhatsAppWebhook.Get | src/app/api/webhooks/whatsapp/route.ts:5-28 | a verification request never starts a run; VerifyHandshake states when the challenge is echoed |
| WhatsAppWebhook.Rejections | src/app/api/webhooks/whatsapp/route.ts:36-118 | a missing workflowId gives 400; a body text that cannot be read gives the catch-all 500; a JSON content type with invalid JSON gives 400 "Invalid JSON"; any other content type leaves the payload `{}`, which is ignored with 200 |
| WhatsAppWebhook.TwilioFirst | src/app/api/webhooks/whatsapp/route.ts:71-79 | a payload with a message SID is Twilio, tested before Meta. Its `from` loses the `whatsapp:` prefix, body defaults to "" and senderName to "Unknown"; raw is the payload |
| WhatsAppWebhook.MetaNeedsMessage | src/app/api/webhooks/whatsapp/route.ts:81-96 | without a SID, a payload is normalised exactly when `object` is `whatsapp_business_account` and a first message exists; the result is tagged `meta` and keeps the payload as raw |
| WhatsAppWebhook.OneRunPerMessage | src/app/api/webhooks/whatsapp/route.ts:98-110 | no trigger data gives 200 `ignored` and no run; otherwise exactly one run starts with `{whatsapp: triggerData}` |
| WhatsAppWebhook.ParsePayload | src/app/api/webhooks/whatsapp/route.ts:44-65 | the body cannot be read exactly when reading its text fails; invalid JSON is reported only under a JSON content type |
| WhatsAppWebhook.Normalize | src/app/api/webhooks/whatsapp/route.ts:67-96 | Twilio first, then Meta; TwilioFirst and MetaNeedsMessage state the choice and what it needs |
| WhatsAppWebhook.Post | src/app/api/webhooks/whatsapp/route.ts:31-118 | at most one run, and only for the queried, non-empty workflow id; Rejections and OneRunPerMessage state when and with what |
| GitHubWebhook.EventFields | src/app/api/webhooks/github/route.ts:37-75 | `push` adds repository, pusher, commits, ref, before and after; `pull_request` and `issues` add action, the item, repository, sender and number; any other event adds nothing. Every added field except number is the payload's field of that name (`pullRequest` reads `pull_request`) |
| GitHubWebhook.PushFields | src/app/api/webhooks/github/route.ts:38-48 | a push keeps exactly the repository, pusher, commits, ref, before and after of the payload |
| GitHubWebhook.ItemFields | src/app/api/webhooks/github/route.ts:50-70 | a pull request or issue keeps the action, repository and sender, the item under its name, and the item's number |
| GitHubWebhook.ReservedKeysFree | src/app/api/webhooks/github/route.ts:31-75 | no event field is named `eventType` or `raw`, so the spread keeps both |
| GitHubWebhook.Rejections | src/app/api/webhooks/github/route.ts:10-28 | a missing workflowId gives 400 before the body is read; a JSON body without an `x-github-event` header gives 400 |
| GitHubWebhook.TriggerDataShape | src/app/api/webhooks/github/route.ts:31-75 | the trigger data always holds the event type and the raw payload; another event holds nothing else; a push holds exactly the six push fields besides |
| GitHubWebhook.NumberSource | src/app/api/webhooks/github/route.ts:50-70 | number comes from `pull_request.number` or `issue.number` by optional chaining; action, sender and repository come from the payload |
| GitHubWebhook.OneRunPerDelivery | src/app/api/webhooks/github/route.ts:8-85 | at most one run starts, and one does exactly when the workflowId, a JSON body and the event header are present and a payload-reading event does not have a null payload; that run carries `{github: triggerData}` |
| GitHubWebhook.Post | src/app/api/webhooks/github/route.ts:5-93 | at most one run, and only for the queried, non-empty workflow id; Rejections and OneRunPerDelivery state when and with what |
| FormCommon.Required | src/app/features/executions/components/github/dialog.tsx:45-49 | `z.string().min(1, message)` yields no issue iff the value is non-empty, and otherwise exactly one issue with that path and message |
| FormCommon.AtMost | src/app/features/executions/components/telegram/dialog.tsx:40 | `.max(limit, message)` yields no issue iff the length is at most the limit |
| FormCommon.VariableNameIssues | src/app/features/executions/components/telegram/dialog.tsx:29-34 | no issue iff the name matches `^[A-Za-z_$][A-Za-z0-9_$]*$`; an empty name gets both the "required" and the pattern issue; every issue is on variableName |
| FormCommon.PatternExamples | src/app/features/executions/components/whatsapp/dialog.tsx:56 | the E.164 pattern accepts `+14155238886` and `+919876543210` and refuses a missing plus, a leading zero and a lone country digit; `{{whatsapp.from}}` is a template and `{{}}` is not; `1abc` is not an identifier and `$result_2` is |
| EmailForm.SettingIssues | src/app/features/executions/components/email/dialog.tsx:39-51 | provider, variable name and port raise no issue iff the provider is resend or smtp, the name is an identifier and the port is not negative; a port issue is the positivity message |
| EmailForm.MessageIssues | src/app/features/executions/components/email/dialog.tsx:57-61 | from, to, subject and body raise no issue iff all four are non-empty, and every issue sits on one of those four paths |
| EmailForm.BaseIssues | src/app/features/executions/components/email/dialog.tsx:39-61 | the base object parses iff the provider is resend or smtp, the variable name is an identifier, the port is not negative and from, to, subject and body are non-empty; issues stay on those paths and a port issue is the positivity message |
| EmailForm.SmtpIssues | src/app/features/executions/components/email/dialog.tsx:75-107 | for smtp, each of host, port, username and password carries its "required" issue exactly when it is missing |
| EmailForm.Defaults | src/app/features/executions/components/email/dialog.tsx:129-142 | the dialog starts with provider resend, port 587 and smtpSecure true when nothing is stored |
| EmailForm.ValidIff | src/app/features/executions/components/email/dialog.tsx:39-108 | the form is valid iff the base fields are valid, resend has a credential and smtp has host, port, username and password |
| EmailForm.ProviderFieldsSeparate | src/app/features/executions/components/email/dialog.tsx:64-107 | resend adds only the credential issue; smtp never adds one on credentialId |
| EmailForm.SmtpIssuePerField | src/app/features/executions/components/email/dialog.tsx:75-107 | for smtp, an SMTP field's issue (other than the port's positivity message) is reported iff the refinement reports it |
| EmailForm.UnknownProviderAborts | src/app/features/executions/components/email/dialog.tsx:40-62 | an unknown provider stops the parse before the refinement; the first issue is "Please select a provider" |
| EmailForm.EmptyDefaults | src/app/features/executions/components/email/dialog.tsx:129-142 | the defaults of an unconfigured node are resend, 587 and secure, and they do not validate |
| EmailForm.ProviderIssues | src/app/features/executions/components/email/dialog.tsx:64-107 | under `resend` only the credential is reported, otherwise only SMTP settings |
| EmailForm.Issues | src/app/features/executions/components/email/dialog.tsx:39-108 | every issue is reported at a field of the form: the base fields always, the credential only under `resend`, the SMTP settings only under `smtp`; ValidIff states when there are none |
| WhatsAppForm.ProviderIssues | src/app/features/executions/components/whatsapp/dialog.tsx:35-37 | no issue iff the provider is twilio or meta |
| WhatsAppForm.ToNumberIssues | src/app/features/executions/components/whatsapp/dialog.tsx:52-60 | no issue iff the number is non-empty and is E.164 or holds a template |
| WhatsAppForm.ContentIssues | src/app/features/executions/components/whatsapp/dialog.tsx:61-64 | no issue iff the content has 1 to 1600 characters |
| WhatsAppForm.BaseIssues | src/app/features/executions/components/whatsapp/dialog.tsx:34-64 | the base object parses iff provider, variable name, recipient and content are all valid, and issues stay on those paths |
| WhatsAppForm.SidIssues | src/app/features/executions/components/whatsapp/dialog.tsx:68-80 | an empty SID gets "required", a non-matching one gets the format message, a matching `AC` + 32 lower-case hex one nothing |
| WhatsAppForm.SenderIssues | src/app/features/executions/components/whatsapp/dialog.tsx:90-102 | no issue iff the sender is E.164 or holds a template |
| WhatsAppForm.TwilioIssues | src/app/features/executions/components/whatsapp/dialog.tsx:67-103 | no Twilio issue iff the SID matches, the auth token is present and the sender is valid |
| WhatsAppForm.MetaIssues | src/app/features/executions/components/whatsapp/dialog.tsx:106-122 | no Meta issue iff access token and phone number ID are present |
| WhatsAppForm.Defaults | src/app/features/executions/components/whatsapp/dialog.tsx:143-153 | the provider defaults to twilio and the sender to `+14155238886` |
| WhatsAppForm.ValidIff | src/app/features/executions/components/whatsapp/dialog.tsx:34-123 | valid iff the base fields are valid and the chosen provider's fields are |
| WhatsAppForm.AccountSidIssues | src/app/features/executions/components/whatsapp/dialog.tsx:68-80 | for twilio, an accountSid issue is reported iff the SID rule reports it |
| WhatsAppForm.SidIssuesExclusive | src/app/features/executions/components/whatsapp/dialog.tsx:68-80 | the "required" and the format issue never both appear; each appears exactly in its own case |
| WhatsAppForm.ProviderFieldsSeparate | src/app/features/executions/components/whatsapp/dialog.tsx:66-122 | meta never reports Twilio fields and twilio never reports Meta fields |
| WhatsAppForm.DefaultSender | src/app/features/executions/components/whatsapp/dialog.tsx:143-153 | the default sender of an unconfigured node raises no sender issue |
| WhatsAppForm.Issues | src/app/features/executions/components/whatsapp/dialog.tsx:34-123 | every issue is reported at a field of the form: the common fields always, the Twilio fields only under `twilio`, the Meta fields only under `meta`; ValidIff states when there are none |
| TelegramForm.ValidIff | src/app/features/executions/components/telegram/dialog.tsx:28-41 | valid iff the variable name is an identifier, bot token and chat ID are present and the content has 1 to 4096 characters |
| TelegramForm.EmptyDefaults | src/app/features/executions/components/telegram/dialog.tsx:60-66 | an unconfigured node starts with empty fields and exactly the five issues, in field order |
| TelegramForm.Issues | src/app/features/executions/components/telegram/dialog.tsx:28-41 | every issue is reported at one of the four fields; ValidIff states when there are none |
| ConditionForm.Defaults | src/app/features/executions/components/condition/dialog.tsx:67-73 | the operator defaults to `equals` |
| ConditionForm.ValidIff | src/app/features/executions/components/condition/dialog.tsx:34-48 | valid iff the variable name is an identifier, the left operand is present and the operator is one of the ten |
| ConditionForm.OperatorsMatchExecutor | src/app/features/executions/components/condition/dialog.tsx:42-46 | the dialog offers exactly the operators the condition executor knows |
| ConditionForm.HiddenOperandIgnored | src/app/features/executions/components/condition/dialog.tsx:89 | for `is_empty` and `is_not_empty`, whose right operand the dialog hides, the executor's verdict does not depend on it |
| ConditionForm.ShownOperandMatters | src/app/features/executions/components/condition/dialog.tsx:89 | for each of the eight operators whose right operand the dialog shows, some left operand gets a different verdict with a right operand than without one (the numeric two given a `parseFloat` that reads "0", "1" and "2"); with HiddenOperandIgnored, the operand is hidden exactly when it cannot matter |
| ConditionForm.DefaultOperator | src/app/features/executions/components/condition/dialog.tsx:71-89 | the default operator `equals` shows the right operand |
| ConditionForm.Issues | src/app/features/executions/components/condition/dialog.tsx:34-48 | every issue is reported at the variable name, the left operand or the operator (the right operand has no rule); ValidIff states when there are none |
| GitHubForm.ValidIff | src/app/features/executions/components/github/dialog.tsx:38-50 | valid iff the variable name is an identifier and credential, owner, repo, issue number and comment body are all present |
| GitHubForm.ValidFormPassesExecutorChecks | src/app/features/executions/components/github/dialog.tsx:38-50 | a valid form, once saved as node data, passes every presence check the GitHub executor makes |
| GitHubForm.EmptyDefaults | src/app/features/executions/components/github/dialog.tsx:74-82 | an unconfigured node starts with all fields empty, which is not valid |
| GitHubForm.Issues | src/app/features/executions/components/github/dialog.tsx:38-50 | every issue is reported at one of the six fields; ValidIff states when there are none |
| Pagination.ParseInput | src/app/features/executions/server/routers.ts:29-37 | the input parses iff the page size is absent or between 1 and 100; an absent page becomes 1 and an absent size 5 (src/config/constants.ts:1-6); a size below 1 or above 100 gives its own error |
| Pagination.WhereFor | src/app/features/executions/server/routers.ts:42-45 | the filter always restricts to the user's executions, and restricts to a workflow exactly when a non-empty workflowId is given |
| Pagination.Ordered | src/app/features/executions/server/routers.ts:52-54 | the rows come back sorted by startedAt and are a permutation of the input |
| Pagination.Filter | src/app/features/executions/server/routers.ts:42-51 | each row occurs as often as in the table when it matches the filter, and not at all otherwise |
| Pagination.Window | src/app/features/executions/server/routers.ts:49-50 | `skip`/`take` returns the rows from position skip on, at most take of them, and is refused for a negative skip |
| Pagination.CeilDiv | src/app/features/executions/server/routers.ts:69 | the result is the least page count whose pages hold every row |
| Pagination.Summary | src/app/features/executions/server/routers.ts:69-71 | totalPages is the ceiling of count over size; hasNextPage iff page < totalPages; hasPreviousPage iff page > 1; page, size and count are echoed |
| Pagination.GetMany | src/app/features/executions/server/routers.ts:28-82 | an input error is passed on; a page below 1 makes the query fail; otherwise totalCount is the number of the user's matching executions |
| Pagination.ListedItems | src/app/features/executions/server/routers.ts:42-63 | a listed page has at most pageSize items, newest first, each an execution of the user (and of the requested workflow) taken from the table |
| Pagination.NextPageIff | src/app/features/executions/server/routers.ts:69-70 | for a page of at least 1, hasNextPage iff page × size < totalCount |
| Pagination.PageNonEmptyIff | src/app/features/executions/server/routers.ts:49-69 | the page's window is non-empty iff page ≤ totalPages |
| Pagination.PagesConcatenate | src/app/features/executions/server/routers.ts:49-50 | the first n pages, concatenated, are the first n × size rows |
| Pagination.AllPagesListEverything | src/app/features/executions/server/routers.ts:49-69 | pages 1 to totalPages together list every row exactly once, in order |
| Pagination.EmptyWorkflowIdIgnored | src/app/features/executions/server/routers.ts:44 | an empty workflowId filters like no workflowId |
| Pagination.NodeExecutionsOf | src/app/features/executions/server/routers.ts:19-23 | each node execution of the given execution occurs as often as in the table, and no other |
| Pagination.FindOwned | src/app/features/executions/server/routers.ts:10-11 | `findFirstOrThrow` finds a row of the table with that id owned by the user, and throws (None) iff there is none |
| Pagination.GetOne | src/app/features/executions/server/routers.ts:7-26 | none iff the user owns no execution with the id; otherwise that execution, with its node executions sorted by startedAt ascending and a permutation of the stored ones |
| Pagination.OtherUsersHidden | src/app/features/executions/server/routers.ts:11 | an execution owned by somebody else is never returned |
| Usage.WorkflowCount | src/app/features/workflows/hooks/use-workflow-usage.ts:21 | an absent total counts as 0 |
| Usage.UsageOf | src/app/features/workflows/hooks/use-workflow-usage.ts:21-26 | premium users have no limit and 0 %; free users have a limit of 10 (src/config/constants.ts:8-11); near the limit iff free and at least 8; at the limit iff free and at least 10 |
| Usage.AtLimitImpliesNearLimit | src/app/features/workflows/hooks/use-workflow-usage.ts:25-26 | being at the limit implies being near it |
| Usage.FreeRemaining | src/app/features/workflows/hooks/use-workflow-usage.ts:23 | a free user's remaining count is 0 iff at the limit, and below the limit it adds up with the count to 10 |
| Usage.FreePercentage | src/app/features/workflows/hooks/use-workflow-usage.ts:24 | a free user's percentage lies in 0..100, is 100 iff at the limit and is 10 × count below it |
| Usage.AbsentCountIsZero | src/app/features/workflows/hooks/use-workflow-usage.ts:21-26 | with no data yet the count is 0, neither flag is set and the percentage is 0 |

## Left out

- Persistence and durability: the Prisma reads and writes, `step.run` memoisation and retries, `inngest.send`, `createId` and `sendWorkflowExecution` are not modelled; reads are parameters, writes and dispatched runs are recorded values.
- Trigger executors: they hand the context back unchanged, so the orchestrator treats them as the identity.
- Realtime channels and their token actions: a status publish is an entry in the effect trace, nothing more.
- The generic webhook route is not part of this model: its decisions depend on a database query.
- React UI: the dialogs' markup, the node components, the list views and the once-only analytics refs of the usage hook (`use-workflow-usage.ts:29-49`).
- Logging, the analytics module, prefetching and the tRPC app router.
- Concurrency: runs do not share state, and a run has no internal parallelism.
- Floating point: `parseFloat` is a parameter returning an optional real; JSON numbers are integers; `toFixed` displays are left out.
- InngestUtils.EveryNodeSorted: it assumes a sorter that accepts the self-edge `[id, id]` given to each isolated node and lists that node. A sorting package that rejects a self-edge as a cycle fails the whole sort instead; when its message contains "Cyclic", `TopologicalSort` then returns "Workflow contains a cycle" for any workflow with an isolated node. `ConnectionsRespected` does not depend on this, since it asks the sorter only to order the connections' own edges.
- Template compile failures: `render` is total, so a template Handlebars cannot compile is not modelled. In the email, WhatsApp, GitHub, Slack and condition executors, and for the Telegram content, compilation runs after `loading` is published and outside the `try`; such a failure would end the run with a plain (retriable) error and a trace of only `[loading]`, with no `error` publish. The Telegram chat id is compiled inside its step, where a failure would instead publish `error` and be rethrown.
- Decryption failures: `decrypt` is total, so a stored credential it cannot decrypt is not modelled. In the GitHub executor (github/executor.ts:84) it runs after `loading` and before the `try`; a throw there would end the run with a plain (retriable) error and a trace of only `[loading]`. In the Resend step of the email executor (email/executor.ts:143) it runs inside the `try`, where a throw would publish `error` and come out as "Failed to send email: <message>".
- GitHubExecutor.StatusDiscipline: holds on every modelled path; the two unmodelled throws above (template compilation and `decrypt`) would leave the trace at `[loading]`.
- ExecCommon.KyJson: the message of a non-OK response is "Request failed with status code <status> <statusText>", as older `ky` releases word it; `ky` 1.x appends the method and URL and drops an empty status text. The version in use is not part of this model, and no property rests on the exact text.
- String lengths and `slice` count characters, not UTF-16 code units.
- Header lookup: header names are modelled as already lower-cased keys.
- A `response.json()` that fails on a non-JSON reply is not modelled; the reply is a parsed value.
- ExecCommon.Field: a node-data field that is not a string counts as missing.
- WorkflowRun.CreateRecord: the initial status RUNNING is the database schema's default, which is not part of this model.
- TelegramExecutor.RetryOnlyOnParseFailure: a description that is not a string never matches "can't parse entities".
- Why a request body cannot be read is not modelled: a `request.text()` or `request.formData()` that rejects is a body of None, and a `request.json()` that rejects is a payload of None; each route answers these with its catch-all 500.
- EmailForm.BaseIssues: the port is an integer with 0 for absent; a fractional port is not modelled, and the positivity message is zod's default "Number must be greater than 0".
- ConditionForm.ValidIff: the operator issue uses zod's default enum message "Invalid enum value".
- Pagination.ParseInput: page and pageSize are integers, though zod would accept fractions; the two size errors are kinds rather than zod's message text.
- Pagination.GetMany: a page below 1 gives a negative `skip`, which the database is taken to refuse; that refusal lives in Prisma, not in this code.
- Pagination.Ordered: rows with equal startedAt may come back in any order, since the query promises none.
- Pagination.GetOne: the `workflow` include (id and name) is not part of the result.
- Usage.UsageOf: `isPremium` is a boolean; the subscription query's loading state is left out.

## Findings

| source | as written | input that shows it | evidently intended | confidence | as-written member | corrected member |
|---|---|---|---|---|---|---|
| src/app/features/executions/lib/executor-registry.ts:19-43 | the table has no entry for CONDITION, EMAIL, CRON_TRIGGER, WEBHOOK or EMAIL_TRIGGER, so `getExecutor` throws for them | a workflow with an active CONDITION node: the run stops with "No executor found for node type: CONDITION", though the orchestrator has a CONDITION branch | the table is total, as its type `Record<NodeType, NodeExecutor>` demands, and condition nodes run and choose a branch | not executed | ExecutorRegistry.ConditionHasNoExecutor, WorkflowRun.ConditionStopsRunAsWritten | ExecutorRegistry.GetExecutorCorrected, WorkflowRun.ConditionRunsWhenCorrected, WorkflowRun.BranchFollowsCondition |
