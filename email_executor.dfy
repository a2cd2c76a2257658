/**
 * The email node's executor: it checks its configuration, renders and decodes
 * the recipient, subject and body, and sends through the Resend API or an SMTP
 * transport. Every failure of the send step is rethrown as a plain error.
 */
module EmailExecutor {
  import opened Wrappers
  import opened Json
  import opened ExecCommon

  const ResendUrl := "https://api.resend.com/emails"
  const DefaultFrom := "onboarding@resend.dev"

  /** The stored credential's encrypted value, looked up by id only. */
  type Credentials = string -> Option<string>

  /** The nodemailer transport options. */
  datatype SmtpConfig = SmtpConfig(host: string, port: Value, secure: Value, user: string, pass: string)

  datatype Mail = Mail(from: string, to: string, subject: string, html: string)

  /** `transporter.sendMail`: the `info` object, or the message of the error it throws. */
  type Mailer = (SmtpConfig, Mail) -> Result<Value, string>

  /** The foreign services the executor uses. */
  datatype Services = Services(credentials: Credentials, decrypt: string -> string, http: Http, mailer: Mailer)

  function ResendRequest(apiKey: string, from: string, to: string, subject: string, body: string): Request {
    Request(ResendUrl,
            [("Authorization", "Bearer " + apiKey), ("Content-Type", "application/json")],
            JsonBody(Obj(map["from" := Str(from), "to" := Str(to), "subject" := Str(subject), "html" := Str(body)])))
  }

  /** `sendViaResend`. The variable name is checked only after the message was sent. */
  function SendViaResend(data: Value, to: string, subject: string, body: string, context: Context, services: Services): (o: Outcome)
    ensures Field(data, "credentialId") == "" ==>
      o == Outcome([], Err(NonRetriableError("Email Node: Credential is required for Resend")))
    ensures Field(data, "credentialId") != "" ==> |o.trace| >= 1 && o.trace[0] == CredentialLookup(Field(data, "credentialId"))
    ensures Field(data, "credentialId") != "" && services.credentials(Field(data, "credentialId")).None? ==>
      o == Outcome([CredentialLookup(Field(data, "credentialId"))], Err(NonRetriableError("Credential not found")))
    ensures Sends(o.trace) <= 1
  {
    var credentialId := Field(data, "credentialId");
    if credentialId == "" then Outcome([], Err(NonRetriableError("Email Node: Credential is required for Resend")))
    else
      var lookup := [CredentialLookup(credentialId)];
      match services.credentials(credentialId)
      case None => Outcome(lookup, Err(NonRetriableError("Credential not found")))
      case Some(encrypted) =>
        var apiKey := services.decrypt(encrypted);
        var from := if Field(data, "from") != "" then Field(data, "from") else DefaultFrom;
        var request := ResendRequest(apiKey, from, to, subject, body);
        var trace := lookup + [Send(request)];
        assert Sends(trace) == 1 by {
          assert [Send(request)][1..] == [] && lookup[1..] == [];
          TraceConcat(lookup, [Send(request)]);
        }
        match KyJson(services.http(request))
        case Err(e) => Outcome(trace, Err(e))
        case Ok(response) =>
          if Field(data, "variableName") == "" then Outcome(trace, Err(NonRetriableError("Email Node: Variable name is missing")))
          else if IsNullish(response) then Outcome(trace, Err(PlainError(TypeErrorMessage)))
          else
            Outcome(trace, Ok(Put(context, Field(data, "variableName"), Obj(map[
              "id" := OptGet(response, "id"), "to" := Str(to), "subject" := Str(subject), "status" := Str("sent")]))))
  }

  /** The first SMTP setting that is missing, in the order they are checked. */
  function SmtpMissing(data: Value): (r: Option<string>)
    ensures r.None? <==>
      && Field(data, "smtpHost") != "" && Truthy(OptGet(data, "smtpPort")) && Field(data, "smtpUsername") != ""
      && Field(data, "smtpPassword") != "" && Field(data, "variableName") != "" && Field(data, "from") != ""
  {
    if Field(data, "smtpHost") == "" then Some("Email Node: SMTP Host is required")
    else if !Truthy(OptGet(data, "smtpPort")) then Some("Email Node: SMTP Port is required")
    else if Field(data, "smtpUsername") == "" then Some("Email Node: SMTP Username is required")
    else if Field(data, "smtpPassword") == "" then Some("Email Node: SMTP Password is required")
    else if Field(data, "variableName") == "" then Some("Email Node: Variable name is missing")
    else if Field(data, "from") == "" then Some("Email Node: From email is required")
    else None
  }

  /** `data.smtpSecure ?? false`. */
  function SecureOption(v: Value): (r: Value)
    ensures IsNullish(v) ==> r == Bool(false)
    ensures !IsNullish(v) ==> r == v
  {
    if IsNullish(v) then Bool(false) else v
  }

  function SmtpConfigOf(data: Value): SmtpConfig {
    SmtpConfig(Field(data, "smtpHost"), OptGet(data, "smtpPort"), SecureOption(OptGet(data, "smtpSecure")),
               Field(data, "smtpUsername"), Field(data, "smtpPassword"))
  }

  /** `sendViaSMTP`: every setting is checked before the transport is created. */
  function SendViaSmtp(data: Value, to: string, subject: string, body: string, context: Context, services: Services): (o: Outcome)
    ensures SmtpMissing(data).Some? ==> o == Outcome([], Err(NonRetriableError(SmtpMissing(data).value)))
    ensures SmtpMissing(data).None? ==> o.trace == [SmtpSend(Field(data, "smtpHost"), to)]
  {
    match SmtpMissing(data)
    case Some(m) => Outcome([], Err(NonRetriableError(m)))
    case None =>
      var trace := [SmtpSend(Field(data, "smtpHost"), to)];
      match services.mailer(SmtpConfigOf(data), Mail(Field(data, "from"), to, subject, body))
      case Err(m) => Outcome(trace, Err(PlainError(m)))
      case Ok(info) =>
        if IsNullish(info) then Outcome(trace, Err(PlainError(TypeErrorMessage)))
        else
          Outcome(trace, Ok(Put(context, Field(data, "variableName"), Obj(map[
            "id" := OptGet(info, "messageId"), "to" := Str(to), "subject" := Str(subject),
            "status" := Str("sent"), "response" := OptGet(info, "response")]))))
  }

  /** The `send-email` step: dispatch on the provider. */
  function SendStep(data: Value, to: string, subject: string, body: string, context: Context, services: Services): Outcome {
    var provider := Field(data, "provider");
    if provider == "resend" then SendViaResend(data, to, subject, body, context, services)
    else if provider == "smtp" then SendViaSmtp(data, to, subject, body, context, services)
    else Outcome([], Err(NonRetriableError("Email Node: Invalid provider")))
  }

  /** `emailExecutor`. */
  function Execute(data: Value, context: Context, text: Text, services: Services): (o: Outcome)
    ensures StatusBracketed(o)
  {
    if Field(data, "provider") == "" then Reject("Email Node: Provider is required")
    else if Field(data, "to") == "" then Reject("Email Node: To is required")
    else if Field(data, "subject") == "" then Reject("Email Node: Subject is required")
    else if Field(data, "body") == "" then Reject("Email Node: Body is required")
    else
      var compile := (template: string) => text.decode(text.render(template, context));
      var step := SendStep(data, compile(Field(data, "to")), compile(Field(data, "subject")), compile(Field(data, "body")),
                           context, services);
      var finished := Finish(step);
      match step.result
      case Ok(_) => finished
      case Err(e) => Outcome(finished.trace, Err(PlainError("Failed to send email: " + e.message)))
  }

  // ---- Properties ----

  /** The four common fields are checked in order, each before anything is looked up or sent. */
  lemma ValidationOrder(data: Value, context: Context, text: Text, services: Services)
    ensures var o := Execute(data, context, text, services);
      && (Field(data, "provider") == "" ==> o == Reject("Email Node: Provider is required"))
      && (Field(data, "provider") != "" && Field(data, "to") == "" ==> o == Reject("Email Node: To is required"))
      && (Field(data, "provider") != "" && Field(data, "to") != "" && Field(data, "subject") == "" ==>
            o == Reject("Email Node: Subject is required"))
      && ((Field(data, "provider") != "" && Field(data, "to") != "" && Field(data, "subject") != "" &&
           Field(data, "body") == "") ==> o == Reject("Email Node: Body is required"))
  {
    if Field(data, "provider") != "" && Field(data, "to") != "" && Field(data, "subject") != "" {
      if Field(data, "body") == "" {
        assert Execute(data, context, text, services) == Reject("Email Node: Body is required");
      }
    }
  }

  /** `loading` comes first and exactly one terminal status last; every error from the send step,
      even a non-retriable one, is rethrown as a plain `Failed to send email: …` error. */
  lemma StepErrorsWrapped(data: Value, context: Context, text: Text, services: Services)
    requires Field(data, "provider") != "" && Field(data, "to") != "" && Field(data, "subject") != "" && Field(data, "body") != ""
    ensures var compile := (template: string) => text.decode(text.render(template, context));
      var step := SendStep(data, compile(Field(data, "to")), compile(Field(data, "subject")), compile(Field(data, "body")),
                           context, services);
      var o := Execute(data, context, text, services);
      && Publishes(o.trace) == [Loading] + Publishes(step.trace) + [if o.result.Ok? then Success else Error]
      && (step.result.Ok? ==> o.result == step.result)
      && (step.result.Err? ==> o.result == Err(PlainError("Failed to send email: " + step.result.error.message)))
  {
  }

  /** An unknown provider fails inside the step, so it too ends as a plain error. */
  lemma InvalidProviderWrapped(data: Value, context: Context, text: Text, services: Services)
    requires Field(data, "provider") !in {"", "resend", "smtp"}
    requires Field(data, "to") != "" && Field(data, "subject") != "" && Field(data, "body") != ""
    ensures Execute(data, context, text, services).result == Err(PlainError("Failed to send email: Email Node: Invalid provider"))
  {
    assert "Failed to send email: " + "Email Node: Invalid provider" == "Failed to send email: Email Node: Invalid provider";
  }

  /** On the Resend path a missing variable name fails only after the message was sent. */
  lemma ResendSendsBeforeVariableCheck(data: Value, to: string, subject: string, body: string, context: Context,
                                       services: Services)
    requires Field(data, "credentialId") != "" && services.credentials(Field(data, "credentialId")).Some?
    requires Field(data, "variableName") == ""
    ensures var o := SendViaResend(data, to, subject, body, context, services);
      && Sends(o.trace) == 1
      && o.result.Err?
      && (services.http(o.trace[1].request).Response? && services.http(o.trace[1].request).ok ==>
            o.result == Err(NonRetriableError("Email Node: Variable name is missing")))
  {
    var o := SendViaResend(data, to, subject, body, context, services);
    assert o.trace[1..] == [o.trace[1]];
  }

  /** Resend sends from the configured address, or `onboarding@resend.dev` when none is set. */
  lemma ResendFromDefault(data: Value, to: string, subject: string, body: string, context: Context, services: Services)
    requires Field(data, "credentialId") != "" && services.credentials(Field(data, "credentialId")).Some?
    ensures var o := SendViaResend(data, to, subject, body, context, services);
      var from := if Field(data, "from") == "" then "onboarding@resend.dev" else Field(data, "from");
      o.trace[1] == Send(ResendRequest(services.decrypt(services.credentials(Field(data, "credentialId")).value),
                                       from, to, subject, body))
  {
  }

  /** SMTP succeeds only with all six settings, and `secure` defaults to false. */
  lemma SmtpRequiresSettings(data: Value, to: string, subject: string, body: string, context: Context, services: Services)
    ensures SendViaSmtp(data, to, subject, body, context, services).result.Ok? ==>
      && Field(data, "smtpHost") != "" && Truthy(OptGet(data, "smtpPort")) && Field(data, "smtpUsername") != ""
      && Field(data, "smtpPassword") != "" && Field(data, "variableName") != "" && Field(data, "from") != ""
    ensures IsNullish(OptGet(data, "smtpSecure")) ==> SmtpConfigOf(data).secure == Bool(false)
  {
  }

  /** A result is the context plus `[variableName]: { id, to, subject, status: "sent" }`, with
      `response` added on the SMTP path only. */
  lemma SuccessResult(data: Value, context: Context, text: Text, services: Services)
    requires Execute(data, context, text, services).result.Ok?
    ensures var r := Execute(data, context, text, services).result.value;
      var v := Field(data, "variableName");
      && r.Keys == context.Keys + {v}
      && (forall k | k in context && k != v :: r[k] == context[k])
      && r[v].Obj? && "status" in r[v].fields && r[v].fields["status"] == Str("sent")
      && (Field(data, "provider") == "smtp" <==> "response" in r[v].fields)
  {
    var to := text.decode(text.render(Field(data, "to"), context));
    var subject := text.decode(text.render(Field(data, "subject"), context));
    var body := text.decode(text.render(Field(data, "body"), context));
    var step := SendStep(data, to, subject, body, context, services);
    assert Execute(data, context, text, services).result == step.result;
    if Field(data, "provider") == "smtp" {
      SmtpStores(data, to, subject, body, context, services);
    } else {
      ResendStores(data, to, subject, body, context, services);
    }
  }

  /** `r` is `context` plus `[v]`, a sent-mail record. */
  predicate SentRecord(r: Context, context: Context, v: string) {
    && r.Keys == context.Keys + {v}
    && (forall k | k in context && k != v :: r[k] == context[k])
    && r[v].Obj? && "status" in r[v].fields && r[v].fields["status"] == Str("sent")
  }

  lemma ResendStores(data: Value, to: string, subject: string, body: string, context: Context, services: Services)
    requires SendViaResend(data, to, subject, body, context, services).result.Ok?
    ensures var r := SendViaResend(data, to, subject, body, context, services).result.value;
      SentRecord(r, context, Field(data, "variableName")) && "response" !in r[Field(data, "variableName")].fields
  {
  }

  lemma SmtpStores(data: Value, to: string, subject: string, body: string, context: Context, services: Services)
    requires SendViaSmtp(data, to, subject, body, context, services).result.Ok?
    ensures var r := SendViaSmtp(data, to, subject, body, context, services).result.value;
      SentRecord(r, context, Field(data, "variableName")) && "response" in r[Field(data, "variableName")].fields
  {
  }

}
