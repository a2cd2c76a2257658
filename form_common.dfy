/**
 * What the node configuration forms share: validation issues, the variable-name
 * rule, and the phone-number, template and Twilio SID patterns.
 * Issues are listed in the order the schema reports them: the object's fields in
 * declaration order, each field's checks in order, then the cross-field checks.
 */
module FormCommon {
  /** A validation issue: the field it is reported at and its message. */
  datatype Issue = Issue(path: string, message: string)

  const VariableNameRequired := "Variable name is required"
  const VariableNameFormat :=
    "Variable name must start with a letter or underscore and contains only letters, numbers, and underscores."

  predicate IsLetter(c: char) { ('A' <= c <= 'Z') || ('a' <= c <= 'z') }
  predicate IsDigit(c: char) { '0' <= c <= '9' }
  predicate IsHex(c: char) { IsDigit(c) || ('a' <= c <= 'f') }

  /** `/^[A-Za-z_$][A-Za-z0-9_$]*$/`. */
  predicate IsIdentifier(s: string) {
    && |s| >= 1
    && (IsLetter(s[0]) || s[0] == '_' || s[0] == '$')
    && forall i | 1 <= i < |s| :: IsLetter(s[i]) || IsDigit(s[i]) || s[i] == '_' || s[i] == '$'
  }

  /** `/^\+[1-9]\d{1,14}$/`: a plus sign and 2 to 15 digits, the first not 0. */
  predicate IsE164(s: string) {
    && 3 <= |s| <= 16
    && s[0] == '+' && '1' <= s[1] <= '9'
    && forall i | 2 <= i < |s| :: IsDigit(s[i])
  }

  predicate IsLineTerminator(c: char) {
    c == '\n' || c == '\r' || c == '\U{2028}' || c == '\U{2029}'
  }

  /** `{{` at `i`, `}}` at `j`, and between them at least one character, none ending a line. */
  predicate TemplateAt(s: string, i: nat, j: nat) {
    && i + 2 < j && j + 2 <= |s|
    && s[i] == '{' && s[i + 1] == '{' && s[j] == '}' && s[j + 1] == '}'
    && forall k | i + 2 <= k < j :: !IsLineTerminator(s[k])
  }

  /** `/\{\{.+?\}\}/`. */
  predicate HasTemplate(s: string) {
    exists i: nat, j: nat | i < j <= |s| :: TemplateAt(s, i, j)
  }

  /** `/^AC[a-f0-9]{32}$/`: lower-case hex only. */
  predicate IsTwilioSid(s: string) {
    |s| == 34 && s[0] == 'A' && s[1] == 'C' && forall i | 2 <= i < 34 :: IsHex(s[i])
  }

  /** `.min(1, message)`. */
  function Required(path: string, value: string, message: string): (r: seq<Issue>)
    ensures r == [] <==> value != ""
    ensures r != [] ==> r == [Issue(path, message)]
  {
    if value == "" then [Issue(path, message)] else []
  }

  /** `.max(limit, message)`, counting characters. */
  function AtMost(path: string, value: string, limit: nat, message: string): (r: seq<Issue>)
    ensures r == [] <==> |value| <= limit
    ensures forall issue | issue in r :: issue.path == path
  {
    if |value| > limit then [Issue(path, message)] else []
  }

  /** The variable-name field: `.min(1)` then the pattern; both are reported for "". */
  function VariableNameIssues(v: string): (r: seq<Issue>)
    ensures r == [] <==> IsIdentifier(v)
    ensures v == "" ==> r == [Issue("variableName", VariableNameRequired), Issue("variableName", VariableNameFormat)]
    ensures forall i | 0 <= i < |r| :: r[i].path == "variableName"
  {
    Required("variableName", v, VariableNameRequired) +
    (if IsIdentifier(v) then [] else [Issue("variableName", VariableNameFormat)])
  }

  /** Sanity of the phone and template patterns on the values the forms suggest. */
  lemma PatternExamples()
    ensures IsE164("+14155238886") && IsE164("+919876543210")
    ensures !IsE164("14155238886") && !IsE164("+04155238886") && !IsE164("+1")
    ensures HasTemplate("{{whatsapp.from}}")
    ensures !HasTemplate("{{}}")
    ensures !IsIdentifier("1abc") && IsIdentifier("$result_2")
  {
    assert TemplateAt("{{whatsapp.from}}", 0, 15);
    assert !IsE164("+1") by { assert |"+1"| == 2; }
    assert "1abc"[0] == '1';
  }
}
