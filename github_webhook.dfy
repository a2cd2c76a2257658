/**
 * The GitHub webhook route: the `x-github-event` header selects which parts of the
 * payload are copied into the trigger data; the event type and the raw payload are
 * always kept.
 */
module GitHubWebhook {
  import opened Wrappers
  import opened Json
  import opened WebhookCommon

  const FailureMessage := "Failed to process GitHub webhook"
  const MissingEvent := "Missing x-github-event header"

  /** The fields an event type adds to `{ eventType, raw }`, read from a non-nullish payload. */
  function EventFields(eventType: string, payload: Value): (r: map<string, Value>)
    ensures eventType == "push" ==> r.Keys == {"repository", "pusher", "commits", "ref", "before", "after"}
    ensures eventType == "pull_request" ==> r.Keys == {"action", "pullRequest", "repository", "sender", "number"}
    ensures eventType == "issues" ==> r.Keys == {"action", "issue", "repository", "sender", "number"}
    ensures eventType !in {"push", "pull_request", "issues"} ==> r == map[]
    ensures eventType == "push" ==> forall k | k in r :: r[k] == OptGet(payload, k)
    ensures eventType == "pull_request" ==>
      && r["pullRequest"] == OptGet(payload, "pull_request")
      && forall k | k in r && k != "number" && k != "pullRequest" :: r[k] == OptGet(payload, k)
    ensures eventType == "issues" ==> forall k | k in r && k != "number" :: r[k] == OptGet(payload, k)
  {
    if eventType == "push" then PushFields(payload)
    else if eventType == "pull_request" then ItemFields(payload, "pull_request", "pullRequest")
    else if eventType == "issues" then ItemFields(payload, "issue", "issue")
    else map[]
  }

  /** A push: the repository, the pusher, the commits and the ref with its two commit ids. */
  function PushFields(payload: Value): (r: map<string, Value>)
    ensures r.Keys == {"repository", "pusher", "commits", "ref", "before", "after"}
    ensures forall k | k in r :: r[k] == OptGet(payload, k)
  {
    map["repository" := OptGet(payload, "repository"), "pusher" := OptGet(payload, "pusher"),
        "commits" := OptGet(payload, "commits"), "ref" := OptGet(payload, "ref"),
        "before" := OptGet(payload, "before"), "after" := OptGet(payload, "after")]
  }

  /** A pull request or an issue: the payload's `item` is stored as `name`, and its number beside it. */
  function ItemFields(payload: Value, item: string, name: string): (r: map<string, Value>)
    requires name !in {"action", "repository", "sender", "number"}
    ensures r.Keys == {"action", name, "repository", "sender", "number"}
    ensures r["number"] == OptGet(OptGet(payload, item), "number")
    ensures r[name] == OptGet(payload, item)
    ensures forall k | k in r && k != "number" && k != name :: r[k] == OptGet(payload, k)
  {
    map["action" := OptGet(payload, "action"), name := OptGet(payload, item),
        "repository" := OptGet(payload, "repository"), "sender" := OptGet(payload, "sender"),
        "number" := OptGet(OptGet(payload, item), "number")]
  }

  function TriggerData(eventType: string, payload: Value): Value {
    Obj(map["eventType" := Str(eventType), "raw" := payload] + EventFields(eventType, payload))
  }

  /** The three event types whose fields are read from the payload. */
  predicate ReadsPayload(eventType: string) {
    eventType == "push" || eventType == "pull_request" || eventType == "issues"
  }

  /**
   * `POST`. `body` is `request.json()`, None when the body is not JSON; it is read
   * before the header is checked. Reading a field of a null payload throws.
   */
  function Post(query: map<string, string>, headers: map<string, string>, body: Option<Value>, dispatch: Dispatch): (r: RouteResult)
    ensures |r.started| <= 1
    ensures forall run | run in r.started :: run.workflowId == Lookup(query, "workflowId") && run.workflowId != ""
  {
    var workflowId := Lookup(query, "workflowId");
    if workflowId == "" then Respond(400, ErrorBody(MissingWorkflowId))
    else
      match body
      case None => Failure(FailureMessage)
      case Some(payload) =>
        var eventType := Lookup(headers, "x-github-event");
        if eventType == "" then Respond(400, ErrorBody(MissingEvent))
        else if ReadsPayload(eventType) && IsNullish(payload) then Failure(FailureMessage)
        else Start(RunRequest(workflowId, Obj(map["github" := TriggerData(eventType, payload)])), dispatch, Accepted,
                   FailureMessage)
  }

  // ---- Properties ----

  /** A missing workflow id, or a missing event header on a JSON body, is answered 400 with no run. */
  lemma Rejections(query: map<string, string>, headers: map<string, string>, body: Option<Value>, dispatch: Dispatch)
    ensures Lookup(query, "workflowId") == "" ==>
      Post(query, headers, body, dispatch) == RouteResult(400, ErrorBody(MissingWorkflowId), [])
    ensures Lookup(query, "workflowId") != "" && body.Some? && Lookup(headers, "x-github-event") == "" ==>
      Post(query, headers, body, dispatch) == RouteResult(400, ErrorBody(MissingEvent), [])
  {
  }

  /** The trigger data always holds the event type and the raw payload; other event types hold nothing else. */
  lemma TriggerDataShape(eventType: string, payload: Value)
    ensures var t := TriggerData(eventType, payload);
      && t.Obj? && t.fields["eventType"] == Str(eventType) && t.fields["raw"] == payload
      && (!ReadsPayload(eventType) ==> t.fields.Keys == {"eventType", "raw"})
      && (eventType == "push" ==>
            t.fields.Keys == {"eventType", "raw", "repository", "pusher", "commits", "ref", "before", "after"})
  {
    var e := EventFields(eventType, payload);
    ReservedKeysFree(eventType, payload);
    assert TriggerData(eventType, payload).fields.Keys == {"eventType", "raw"} + e.Keys;
  }

  /** No event field is called `eventType` or `raw`, so the union keeps both. */
  lemma ReservedKeysFree(eventType: string, payload: Value)
    ensures "eventType" !in EventFields(eventType, payload) && "raw" !in EventFields(eventType, payload)
  {
    var e := EventFields(eventType, payload);
    if eventType == "push" {
      assert e.Keys == {"repository", "pusher", "commits", "ref", "before", "after"};
    } else if eventType == "pull_request" {
      assert e.Keys == {"action", "pullRequest", "repository", "sender", "number"};
    } else if eventType == "issues" {
      assert e.Keys == {"action", "issue", "repository", "sender", "number"};
    }
  }


  /** Pull requests and issues take `number` from the pull request, or the issue, respectively. */
  lemma NumberSource(eventType: string, payload: Value)
    requires eventType in {"pull_request", "issues"}
    ensures var t := TriggerData(eventType, payload);
      && t.fields["number"] == OptGet(OptGet(payload, if eventType == "issues" then "issue" else "pull_request"), "number")
      && t.fields["action"] == OptGet(payload, "action") && t.fields["sender"] == OptGet(payload, "sender")
      && t.fields["repository"] == OptGet(payload, "repository")
  {
  }

  /** Every accepted delivery starts exactly one run with `{ github: triggerData }` and nothing else. */
  lemma OneRunPerDelivery(query: map<string, string>, headers: map<string, string>, body: Option<Value>, dispatch: Dispatch)
    ensures var r := Post(query, headers, body, dispatch);
      && |r.started| <= 1
      && (|r.started| == 1 <==>
            Lookup(query, "workflowId") != "" && body.Some? && Lookup(headers, "x-github-event") != "" &&
            !(ReadsPayload(Lookup(headers, "x-github-event")) && IsNullish(body.value)))
      && (|r.started| == 1 ==>
            r.started[0] == RunRequest(Lookup(query, "workflowId"),
                                       Obj(map["github" := TriggerData(Lookup(headers, "x-github-event"), body.value)])))
  {
  }
}
