/**
 * The GitHub node's executor: it posts a comment on an issue or pull request with
 * a token stored as the user's credential. Templates are rendered but, unlike the
 * other executors, not entity-decoded.
 */
module GitHubExecutor {
  import opened Wrappers
  import opened Json
  import opened ExecCommon

  const RequiredMessage := "GitHub Node: Owner, repo, issue number, and comment body are required"

  const CredentialMissing := "GitHub node: Credential is required"
  const VariableMissing := "GitHub Node: Variable name is missing"
  const CredentialNotFound := "GitHub Node: Credential not found"
  const ApiBase := "https://api.github.com/repos/"
  const AcceptHeader := "application/vnd.github+json"
  const ApiVersion := "2022-11-28"

  /** `prisma.credential.findUnique({ where: { id, userId } })`: the encrypted value, if the user owns it. */
  type Credentials = (string, string) -> Option<string>

  function CommentUrl(owner: string, repo: string, issueNumber: string): string {
    ApiBase + owner + "/" + repo + "/issues/" + issueNumber + "/comments"
  }

  function CommentRequest(token: string, owner: string, repo: string, issueNumber: string, commentBody: string): Request {
    Request(CommentUrl(owner, repo, issueNumber),
            [("Authorization", "Bearer " + token), ("Accept", AcceptHeader),
             ("X-GitHub-Api-Version", ApiVersion), ("Content-Type", "application/json")],
            JsonBody(Obj(map["body" := Str(commentBody)])))
  }

  predicate Complete(data: Value) {
    Field(data, "owner") != "" && Field(data, "repo") != "" && Field(data, "issueNumber") != "" && Field(data, "commentBody") != ""
  }

  /** The comment request built from the decrypted token and the rendered fields. */
  function RequestFor(data: Value, context: Context, token: string, render: (string, Context) -> string): Request {
    CommentRequest(token, render(Field(data, "owner"), context), render(Field(data, "repo"), context),
                   render(Field(data, "issueNumber"), context), render(Field(data, "commentBody"), context))
  }

  /** `githubExecutor`. */
  function Execute(data: Value, context: Context, userId: string, render: (string, Context) -> string,
                   credentials: Credentials, decrypt: string -> string, http: Http): Outcome {
    var credentialId := Field(data, "credentialId");
    if Field(data, "variableName") == "" then Reject(VariableMissing)
    else if credentialId == "" then Reject(CredentialMissing)
    else if !Complete(data) then Reject(RequiredMessage)
    else
      var lookup := [Publish(Loading), CredentialLookup(credentialId)];
      match credentials(credentialId, userId)
      case None => Outcome(lookup + [Publish(Error)], Err(NonRetriableError(CredentialNotFound)))
      case Some(encrypted) =>
        var request := RequestFor(data, context, decrypt(encrypted), render);
        Answered(lookup + [Send(request)], KyJson(http(request)), context, Field(data, "variableName"))
  }

  /** What follows the request: `success` is published before the reply is inspected, so a null
      reply publishes `success` and then `error`. */
  function Answered(sent: seq<Effect>, reply: Result<Value, ExecError>, context: Context, variableName: string): Outcome {
    match reply
    case Err(e) => Outcome(sent + [Publish(Error)], Err(e))
    case Ok(response) =>
      if IsNullish(response) then Outcome(sent + [Publish(Success), Publish(Error)], Err(PlainError(TypeErrorMessage)))
      else
        Outcome(sent + [Publish(Success)], Ok(Put(context, variableName, Obj(map[
          "commentUrl" := OptGet(response, "html_url"), "commentId" := OptGet(response, "id")]))))
  }

  // ---- Properties ----

  /** The configuration checks run in order, before the credential is looked up. */
  lemma ValidationOrder(data: Value, context: Context, userId: string, render: (string, Context) -> string,
                        credentials: Credentials, decrypt: string -> string, http: Http)
    ensures var o := Execute(data, context, userId, render, credentials, decrypt, http);
      && (Field(data, "variableName") == "" ==> o == Reject(VariableMissing))
      && (Field(data, "variableName") != "" && Field(data, "credentialId") == "" ==>
            o == Reject(CredentialMissing))
      && (Field(data, "variableName") != "" && Field(data, "credentialId") != "" && !Complete(data) ==>
            o == Reject(RequiredMessage))
  {
  }

  /** The credential is looked up for the running user only: another user's credential is not found,
      and nothing is sent. */
  lemma CredentialScopedToUser(data: Value, context: Context, userId: string, render: (string, Context) -> string,
                               credentials: Credentials, decrypt: string -> string, http: Http)
    requires Field(data, "variableName") != "" && Field(data, "credentialId") != "" && Complete(data)
    requires credentials(Field(data, "credentialId"), userId).None?
    ensures var o := Execute(data, context, userId, render, credentials, decrypt, http);
      && o.result == Err(NonRetriableError(CredentialNotFound))
      && Sends(o.trace) == 0 && Publishes(o.trace) == [Loading, Error]
  {
    var lookup := [Publish(Loading), CredentialLookup(Field(data, "credentialId"))];
    TraceSingle(Publish(Loading));
    TraceSingle(CredentialLookup(Field(data, "credentialId")));
    TraceSingle(Publish(Error));
    TraceConcat([Publish(Loading)], [CredentialLookup(Field(data, "credentialId"))]);
    TraceConcat(lookup, [Publish(Error)]);
  }

  /** The reply adds publishes only: whatever was sent before stays the trace's prefix, and the
      statuses it adds are `success`, `error`, or `success` then `error` for a null reply. */
  lemma AnsweredTrace(sent: seq<Effect>, reply: Result<Value, ExecError>, context: Context, variableName: string)
    ensures var o := Answered(sent, reply, context, variableName);
      && |o.trace| > |sent| && o.trace[..|sent|] == sent
      && Sends(o.trace) == Sends(sent)
      && Publishes(o.trace) == Publishes(sent) + (if reply.Err? then [Error]
                                                else if IsNullish(reply.value) then [Success, Error]
                                                else [Success])
      && (o.result.Ok? <==> reply.Ok? && !IsNullish(reply.value))
  {
    var o := Answered(sent, reply, context, variableName);
    var tail := if reply.Err? then [Publish(Error)]
                else if IsNullish(reply.value) then [Publish(Success), Publish(Error)]
                else [Publish(Success)];
    assert o.trace == sent + tail;
    TraceSingle(Publish(Success));
    TraceSingle(Publish(Error));
    if reply.Ok? && IsNullish(reply.value) {
      TraceConcat([Publish(Success)], [Publish(Error)]);
    }
    TraceConcat(sent, tail);
  }

  /** A found credential leads to exactly one comment request, to the rendered issue's comments URL
      with the decrypted token. */
  lemma CommentPosted(data: Value, context: Context, userId: string, render: (string, Context) -> string,
                      credentials: Credentials, decrypt: string -> string, http: Http)
    requires Field(data, "variableName") != "" && Field(data, "credentialId") != "" && Complete(data)
    requires credentials(Field(data, "credentialId"), userId).Some?
    ensures var o := Execute(data, context, userId, render, credentials, decrypt, http);
      var request := RequestFor(data, context, decrypt(credentials(Field(data, "credentialId"), userId).value), render);
      && o.trace[2] == Send(request)
      && request.url == CommentUrl(render(Field(data, "owner"), context), render(Field(data, "repo"), context),
                                   render(Field(data, "issueNumber"), context))
      && Sends(o.trace) == 1
  {
    var request := RequestFor(data, context, decrypt(credentials(Field(data, "credentialId"), userId).value), render);
    var lookup := [Publish(Loading), CredentialLookup(Field(data, "credentialId"))];
    var sent := lookup + [Send(request)];
    TraceSingle(Publish(Loading));
    TraceSingle(CredentialLookup(Field(data, "credentialId")));
    TraceSingle(Send(request));
    TraceConcat([Publish(Loading)], [CredentialLookup(Field(data, "credentialId"))]);
    TraceConcat(lookup, [Send(request)]);
    AnsweredTrace(sent, KyJson(http(request)), context, Field(data, "variableName"));
    assert sent[2] == Send(request);
  }

  /** A rejected or failed request ends with `error`, and its error is thrown as it came. */
  lemma RequestFailure(data: Value, context: Context, userId: string, render: (string, Context) -> string,
                       credentials: Credentials, decrypt: string -> string, http: Http)
    requires Field(data, "variableName") != "" && Field(data, "credentialId") != "" && Complete(data)
    requires credentials(Field(data, "credentialId"), userId).Some?
    ensures var reply := http(RequestFor(data, context, decrypt(credentials(Field(data, "credentialId"), userId).value), render));
      var o := Execute(data, context, userId, render, credentials, decrypt, http);
      && (o.result.Ok? <==> reply.Response? && reply.ok && !IsNullish(reply.json))
      && (!(reply.Response? && reply.ok) ==> o.result == Err(KyJson(reply).error) && o.trace[|o.trace| - 1] == Publish(Error))
  {
  }

  /** `loading` comes first and the last status is `success` exactly when the comment was posted and
      its reply read; a null reply is the one path that publishes `success` and then `error`. */
  lemma StatusDiscipline(data: Value, context: Context, userId: string, render: (string, Context) -> string,
                         credentials: Credentials, decrypt: string -> string, http: Http)
    ensures StatusBracketed(Execute(data, context, userId, render, credentials, decrypt, http))
  {
    var o := Execute(data, context, userId, render, credentials, decrypt, http);
    var credentialId := Field(data, "credentialId");
    if Field(data, "variableName") != "" && credentialId != "" && Complete(data) {
      var lookup := [Publish(Loading), CredentialLookup(credentialId)];
      TraceSingle(Publish(Loading));
      TraceSingle(CredentialLookup(credentialId));
      TraceConcat([Publish(Loading)], [CredentialLookup(credentialId)]);
      if credentials(credentialId, userId).None? {
        FinalStatus(lookup, o);
      } else {
        var request := RequestFor(data, context, decrypt(credentials(credentialId, userId).value), render);
        var sent := lookup + [Send(request)];
        TraceConcat(lookup, [Send(request)]);
        TraceSingle(Send(request));
        assert Publishes(sent) == [Loading];
        var reply := KyJson(http(request));
        AnsweredTrace(sent, reply, context, Field(data, "variableName"));
        Bracketed(o, if reply.Err? then [Error] else if IsNullish(reply.value) then [Success, Error] else [Success]);
      }
    }
  }

  lemma Bracketed(o: Outcome, after: seq<Status>)
    requires Publishes(o.trace) == [Loading] + after
    requires |after| >= 1 && after[|after| - 1] == (if o.result.Ok? then Success else Error)
    ensures StatusBracketed(o)
  {
  }

  /** A success stores `{ commentUrl, commentId }` under the variable name. */
  lemma SuccessResult(data: Value, context: Context, userId: string, render: (string, Context) -> string,
                      credentials: Credentials, decrypt: string -> string, http: Http)
    requires Execute(data, context, userId, render, credentials, decrypt, http).result.Ok?
    ensures var r := Execute(data, context, userId, render, credentials, decrypt, http).result.value;
      var v := Field(data, "variableName");
      && r.Keys == context.Keys + {v}
      && (forall k | k in context && k != v :: r[k] == context[k])
      && r[v].Obj? && r[v].fields.Keys == {"commentUrl", "commentId"}
  {
  }
}
