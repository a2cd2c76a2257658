/**
 * The email node's configuration form: the base object schema, then the
 * provider-dependent required fields, which are checked only when the base parse
 * did not abort on an unknown provider.
 */
module EmailForm {
  import opened Json
  import opened FormCommon

  /** The form values; an absent optional field is `""` (strings) or `0` (the port), which the checks treat alike. */
  datatype Values = Values(
    provider: string, variableName: string, smtpHost: string, smtpPort: int, smtpUsername: string,
    smtpPassword: string, smtpSecure: bool, credentialId: string, from: string, to: string, subject: string, body: string)

  const Providers := {"resend", "smtp"}
  const PositivePortMessage := "Number must be greater than 0"

  /** The issues of the provider, variable name and port fields. */
  function SettingIssues(v: Values): (r: seq<Issue>)
    ensures r == [] <==> v.provider in Providers && IsIdentifier(v.variableName) && v.smtpPort >= 0
    ensures forall issue | issue in r :: issue.path in {"provider", "variableName", "smtpPort"}
    ensures forall issue | issue in r && issue.path == "smtpPort" :: issue.message == PositivePortMessage
  {
    (if v.provider in Providers then [] else [Issue("provider", "Please select a provider")])
    + VariableNameIssues(v.variableName)
    + (if v.smtpPort < 0 then [Issue("smtpPort", PositivePortMessage)] else [])
  }

  /** The issues of the message fields: each is required. */
  function MessageIssues(v: Values): (r: seq<Issue>)
    ensures r == [] <==> v.from != "" && v.to != "" && v.subject != "" && v.body != ""
    ensures forall issue | issue in r :: issue.path in {"from", "to", "subject", "body"}
  {
    Required("from", v.from, "From email is required")
    + Required("to", v.to, "To email is required")
    + Required("subject", v.subject, "Subject is required")
    + Required("body", v.body, "Body is required")
  }

  /** The object schema's own issues, field by field. A port of 0 stands for an absent one and passes here. */
  function BaseIssues(v: Values): (r: seq<Issue>)
    ensures r == [] <==>
      v.provider in Providers && IsIdentifier(v.variableName) && v.smtpPort >= 0 &&
      v.from != "" && v.to != "" && v.subject != "" && v.body != ""
    ensures forall issue | issue in r ::
      issue.path in {"provider", "variableName", "smtpPort", "from", "to", "subject", "body"}
    ensures forall issue | issue in r && issue.path == "smtpPort" :: issue.message == PositivePortMessage
  {
    SettingIssues(v) + MessageIssues(v)
  }

  /** The SMTP settings the refinement requires, each reported at its own field. */
  function SmtpIssues(v: Values): (r: seq<Issue>)
    ensures r == [] <==> v.smtpHost != "" && v.smtpPort != 0 && v.smtpUsername != "" && v.smtpPassword != ""
    ensures forall issue | issue in r :: issue.path in {"smtpHost", "smtpPort", "smtpUsername", "smtpPassword"}
    ensures Issue("smtpHost", "SMTP Host is required") in r <==> v.smtpHost == ""
    ensures Issue("smtpPort", "SMTP Port is required") in r <==> v.smtpPort == 0
    ensures Issue("smtpUsername", "SMTP Username is required") in r <==> v.smtpUsername == ""
    ensures Issue("smtpPassword", "SMTP Password is required") in r <==> v.smtpPassword == ""
  {
    Required("smtpHost", v.smtpHost, "SMTP Host is required")
    + (if v.smtpPort == 0 then [Issue("smtpPort", "SMTP Port is required")] else [])
    + Required("smtpUsername", v.smtpUsername, "SMTP Username is required")
    + Required("smtpPassword", v.smtpPassword, "SMTP Password is required")
  }

  /** The `superRefine` issues. */
  function ProviderIssues(v: Values): (r: seq<Issue>)
    ensures v.provider == "resend" ==> forall issue | issue in r :: issue.path == "credentialId"
    ensures v.provider != "resend" ==> forall issue | issue in r :: issue.path in {"smtpHost", "smtpPort", "smtpUsername", "smtpPassword"}
  {
    if v.provider == "resend" then Required("credentialId", v.credentialId, "Credential is required for Resend")
    else if v.provider == "smtp" then SmtpIssues(v)
    else []
  }

  /** All issues: an unknown provider aborts the parse before the refinement runs. */
  function Issues(v: Values): (r: seq<Issue>)
    ensures forall issue | issue in r ::
      issue.path in {"provider", "variableName", "smtpPort", "from", "to", "subject", "body"} ||
      (v.provider == "resend" && issue.path == "credentialId") ||
      (v.provider == "smtp" && issue.path in {"smtpHost", "smtpPort", "smtpUsername", "smtpPassword"})
  {
    if v.provider in Providers then BaseIssues(v) + ProviderIssues(v) else BaseIssues(v)
  }

  predicate Valid(v: Values) {
    Issues(v) == []
  }

  /** The dialog's default values from a node's stored data. */
  function Defaults(data: Value): (v: Values)
    ensures !Truthy(OptGet(data, "provider")) ==> v.provider == "resend"
    ensures !Truthy(OptGet(data, "smtpPort")) ==> v.smtpPort == 587
    ensures IsNullish(OptGet(data, "smtpSecure")) ==> v.smtpSecure
  {
    var port := OptGet(data, "smtpPort");
    var secure := OptGet(data, "smtpSecure");
    Values(StrOr(OptGet(data, "provider"), "resend"), StrOr(OptGet(data, "variableName"), ""),
           StrOr(OptGet(data, "smtpHost"), ""), if port.Num? && port.n != 0 then port.n else 587,
           StrOr(OptGet(data, "smtpUsername"), ""), StrOr(OptGet(data, "smtpPassword"), ""),
           if secure.Bool? then secure.b else true, StrOr(OptGet(data, "credentialId"), ""),
           StrOr(OptGet(data, "from"), ""), StrOr(OptGet(data, "to"), ""), StrOr(OptGet(data, "subject"), ""),
           StrOr(OptGet(data, "body"), ""))
  }

  // ---- Properties ----

  /** The form is valid exactly when every field rule and the chosen provider's required fields hold. */
  lemma ValidIff(v: Values)
    ensures Valid(v) <==>
      && v.provider in Providers && IsIdentifier(v.variableName) && v.smtpPort >= 0
      && v.from != "" && v.to != "" && v.subject != "" && v.body != ""
      && (v.provider == "resend" ==> v.credentialId != "")
      && (v.provider == "smtp" ==> v.smtpHost != "" && v.smtpPort != 0 && v.smtpUsername != "" && v.smtpPassword != "")
  {
  }

  /** Resend never requires an SMTP field and SMTP never requires a credential. */
  lemma ProviderFieldsSeparate(v: Values)
    ensures v.provider == "resend" ==>
      forall issue | issue in ProviderIssues(v) :: issue == Issue("credentialId", "Credential is required for Resend")
    ensures v.provider == "smtp" ==> forall issue | issue in ProviderIssues(v) :: issue.path != "credentialId"
  {
  }

  /** Under SMTP each missing setting adds its own issue at its own field. */
  lemma SmtpIssuePerField(v: Values, path: string, message: string)
    requires v.provider == "smtp"
    requires path in {"smtpHost", "smtpPort", "smtpUsername", "smtpPassword"} && message != PositivePortMessage
    ensures Issue(path, message) in Issues(v) <==> Issue(path, message) in SmtpIssues(v)
  {
    assert Issues(v) == BaseIssues(v) + SmtpIssues(v);
    assert Issue(path, message) !in BaseIssues(v);
  }

  /** An unknown provider is reported once, and no provider-specific rule runs. */
  lemma UnknownProviderAborts(v: Values)
    requires v.provider !in Providers
    ensures Issues(v) == BaseIssues(v) && Issues(v)[0] == Issue("provider", "Please select a provider")
  {
  }

  /** A new node's form starts with Resend, port 587 and a secure connection, and is not yet valid. */
  lemma EmptyDefaults()
    ensures var v := Defaults(Obj(map[]));
      && v.provider == "resend" && v.smtpPort == 587 && v.smtpSecure
      && !Valid(v)
  {
    var v := Defaults(Obj(map[]));
    assert Issues(v)[0] == Issue("variableName", VariableNameRequired);
  }
}
