/**
 * The WhatsApp node's configuration form: the common fields, then the Twilio or
 * Meta credentials the chosen provider needs.
 */
module WhatsAppForm {
  import opened Json
  import opened FormCommon

  datatype Values = Values(
    provider: string, variableName: string, accountSid: string, authToken: string, fromNumber: string,
    accessToken: string, phoneNumberId: string, toNumber: string, content: string)

  const Providers := {"twilio", "meta"}
  const ContentLimit := 1600
  const ToNumberFormat := "Phone number must be in E.164 format (e.g., +919876543210) or a variable like {{whatsapp.from}}"
  const SenderFormat := "Phone number must be in E.164 format (e.g., +14155238886) or a variable like {{whatsapp.from}}"
  const ContentTooLong := "WhatsApp messages cannot exceed 1600 characters"
  const SidRequired := "Account SID is required for Twilio"
  const SidFormat := "Account SID must start with 'AC' followed by 32 hex characters"

  /** A phone number in E.164 form, or a value that holds a `{{…}}` template. */
  predicate PhoneOrTemplate(s: string) {
    IsE164(s) || HasTemplate(s)
  }

  function ProviderIssues(v: Values): (r: seq<Issue>)
    ensures r == [] <==> v.provider in Providers
    ensures forall issue | issue in r :: issue.path == "provider"
  {
    if v.provider in Providers then [] else [Issue("provider", "Please select a provider")]
  }

  function ToNumberIssues(v: Values): (r: seq<Issue>)
    ensures r == [] <==> v.toNumber != "" && PhoneOrTemplate(v.toNumber)
    ensures forall issue | issue in r :: issue.path == "toNumber"
  {
    Required("toNumber", v.toNumber, "To number is required")
    + (if PhoneOrTemplate(v.toNumber) then []
       else [Issue("toNumber", ToNumberFormat)])
  }

  function ContentIssues(v: Values): (r: seq<Issue>)
    ensures r == [] <==> 1 <= |v.content| <= ContentLimit
    ensures forall issue | issue in r :: issue.path == "content"
  {
    Required("content", v.content, "Message content is required")
    + AtMost("content", v.content, ContentLimit, ContentTooLong)
  }

  /** The object schema's own issues, field by field. */
  function BaseIssues(v: Values): (r: seq<Issue>)
    ensures r == [] <==>
      v.provider in Providers && IsIdentifier(v.variableName) && v.toNumber != "" && PhoneOrTemplate(v.toNumber) &&
      1 <= |v.content| <= ContentLimit
    ensures forall issue | issue in r :: issue.path in {"provider", "variableName", "toNumber", "content"}
  {
    ProviderIssues(v) + VariableNameIssues(v.variableName) + ToNumberIssues(v) + ContentIssues(v)
  }

  function SidIssues(v: Values): (r: seq<Issue>)
    ensures v.accountSid == "" ==> r == [Issue("accountSid", SidRequired)]
    ensures v.accountSid != "" && !IsTwilioSid(v.accountSid) ==> r == [Issue("accountSid", SidFormat)]
    ensures IsTwilioSid(v.accountSid) ==> r == []
  {
    if v.accountSid == "" then [Issue("accountSid", SidRequired)]
    else if !IsTwilioSid(v.accountSid) then [Issue("accountSid", SidFormat)]
    else []
  }

  function SenderIssues(v: Values): (r: seq<Issue>)
    ensures r == [] <==> PhoneOrTemplate(v.fromNumber)
    ensures forall issue | issue in r :: issue.path == "fromNumber"
  {
    if v.fromNumber == "" then [Issue("fromNumber", "From number is required for Twilio")]
    else if !PhoneOrTemplate(v.fromNumber) then
      [Issue("fromNumber", SenderFormat)]
    else []
  }

  /** The `superRefine` issues for Twilio. */
  function TwilioIssues(v: Values): (r: seq<Issue>)
    ensures r == [] <==> IsTwilioSid(v.accountSid) && v.authToken != "" && PhoneOrTemplate(v.fromNumber)
    ensures forall issue | issue in r :: issue.path in {"accountSid", "authToken", "fromNumber"}
  {
    SidIssues(v) + Required("authToken", v.authToken, "Auth Token is required for Twilio") + SenderIssues(v)
  }

  /** The `superRefine` issues for Meta. */
  function MetaIssues(v: Values): (r: seq<Issue>)
    ensures r == [] <==> v.accessToken != "" && v.phoneNumberId != ""
    ensures forall issue | issue in r :: issue.path in {"accessToken", "phoneNumberId"}
  {
    Required("accessToken", v.accessToken, "Access Token is required for Meta")
    + Required("phoneNumberId", v.phoneNumberId, "Phone Number ID is required for Meta")
  }

  function Issues(v: Values): (r: seq<Issue>)
    ensures forall issue | issue in r ::
      issue.path in {"provider", "variableName", "toNumber", "content"} ||
      (v.provider == "twilio" && issue.path in {"accountSid", "authToken", "fromNumber"}) ||
      (v.provider == "meta" && issue.path in {"accessToken", "phoneNumberId"})
  {
    if v.provider == "twilio" then BaseIssues(v) + TwilioIssues(v)
    else if v.provider == "meta" then BaseIssues(v) + MetaIssues(v)
    else BaseIssues(v)
  }

  predicate Valid(v: Values) {
    Issues(v) == []
  }

  function Defaults(data: Value): (v: Values)
    ensures !Truthy(OptGet(data, "provider")) ==> v.provider == "twilio"
    ensures !Truthy(OptGet(data, "fromNumber")) ==> v.fromNumber == "+14155238886"
  {
    Values(StrOr(OptGet(data, "provider"), "twilio"), StrOr(OptGet(data, "variableName"), ""),
           StrOr(OptGet(data, "accountSid"), ""), StrOr(OptGet(data, "authToken"), ""),
           StrOr(OptGet(data, "fromNumber"), "+14155238886"), StrOr(OptGet(data, "accessToken"), ""),
           StrOr(OptGet(data, "phoneNumberId"), ""), StrOr(OptGet(data, "toNumber"), ""), StrOr(OptGet(data, "content"), ""))
  }

  // ---- Properties ----

  lemma {:induction false} ValidIff(v: Values)
    ensures Valid(v) <==>
      && BaseIssues(v) == []
      && (v.provider == "twilio" ==> IsTwilioSid(v.accountSid) && v.authToken != "" && PhoneOrTemplate(v.fromNumber))
      && (v.provider == "meta" ==> v.accessToken != "" && v.phoneNumberId != "")
    ensures BaseIssues(v) == [] <==>
      && v.provider in Providers && IsIdentifier(v.variableName)
      && v.toNumber != "" && PhoneOrTemplate(v.toNumber) && 1 <= |v.content| <= ContentLimit
  {
    if v.provider == "twilio" {
      assert Issues(v) == BaseIssues(v) + TwilioIssues(v);
    } else if v.provider == "meta" {
      assert Issues(v) == BaseIssues(v) + MetaIssues(v);
    }
  }

  /** Under Twilio the account-SID issues are exactly those of the SID rule. */
  lemma AccountSidIssues(v: Values, m: string)
    requires v.provider == "twilio"
    ensures Issue("accountSid", m) in Issues(v) <==> Issue("accountSid", m) in SidIssues(v)
  {
    var rest := Required("authToken", v.authToken, "Auth Token is required for Twilio") + SenderIssues(v);
    assert Issues(v) == BaseIssues(v) + (SidIssues(v) + rest);
    assert Issue("accountSid", m) !in BaseIssues(v);
    assert Issue("accountSid", m) !in rest;
  }

  /** The account SID gets either the "required" issue or the format issue, never both. */
  lemma SidIssuesExclusive(v: Values)
    requires v.provider == "twilio"
    ensures var issues := Issues(v);
      && !(Issue("accountSid", SidRequired) in issues && Issue("accountSid", SidFormat) in issues)
      && (Issue("accountSid", SidRequired) in issues <==> v.accountSid == "")
      && (Issue("accountSid", SidFormat) in issues <==> v.accountSid != "" && !IsTwilioSid(v.accountSid))
  {
    AccountSidIssues(v, SidRequired);
    AccountSidIssues(v, SidFormat);
    assert v.accountSid == "" ==> !IsTwilioSid(v.accountSid);
  }

  /** Meta never checks the Twilio fields, and Twilio never checks Meta's. */
  lemma ProviderFieldsSeparate(v: Values)
    ensures v.provider == "meta" ==>
      forall issue | issue in Issues(v) :: issue.path !in {"accountSid", "authToken", "fromNumber"}
    ensures v.provider == "twilio" ==> forall issue | issue in Issues(v) :: issue.path !in {"accessToken", "phoneNumberId"}
  {
  }

  /** The suggested sender is a valid E.164 number: a new Twilio form has no sender issue. */
  lemma DefaultSender()
    ensures var v := Defaults(Obj(map[]));
      v.provider == "twilio" && v.fromNumber == "+14155238886" &&
      forall issue | issue in Issues(v) :: issue.path != "fromNumber"
  {
    PatternExamples();
  }
}
