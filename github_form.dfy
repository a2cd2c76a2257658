/** The GitHub node's configuration form. The issue number is free text. */
module GitHubForm {
  import opened Json
  import opened FormCommon
  import ExecCommon
  import GitHubExecutor

  datatype Values = Values(variableName: string, credentialId: string, owner: string, repo: string,
                           issueNumber: string, commentBody: string)

  function Issues(v: Values): (r: seq<Issue>)
    ensures forall issue | issue in r ::
      issue.path in {"variableName", "credentialId", "owner", "repo", "issueNumber", "commentBody"}
  {
    VariableNameIssues(v.variableName)
    + Required("credentialId", v.credentialId, "GitHub Credential is required")
    + Required("owner", v.owner, "Repository owner is required")
    + Required("repo", v.repo, "Repository name is required")
    + Required("issueNumber", v.issueNumber, "Issue/PR number is required")
    + Required("commentBody", v.commentBody, "Comment body is required")
  }

  predicate Valid(v: Values) {
    Issues(v) == []
  }

  function Defaults(data: Value): Values {
    Values(StrOr(OptGet(data, "variableName"), ""), StrOr(OptGet(data, "credentialId"), ""),
           StrOr(OptGet(data, "owner"), ""), StrOr(OptGet(data, "repo"), ""),
           StrOr(OptGet(data, "issueNumber"), ""), StrOr(OptGet(data, "commentBody"), ""))
  }

  /** The node data the dialog saves. */
  function Saved(v: Values): Value {
    Obj(map["variableName" := Str(v.variableName), "credentialId" := Str(v.credentialId), "owner" := Str(v.owner),
            "repo" := Str(v.repo), "issueNumber" := Str(v.issueNumber), "commentBody" := Str(v.commentBody)])
  }

  // ---- Properties ----

  /** Valid exactly when the variable name is an identifier and the other five fields are non-empty:
      any non-empty issue number, numeric or not, is accepted. */
  lemma ValidIff(v: Values)
    ensures Valid(v) <==>
      IsIdentifier(v.variableName) && v.credentialId != "" && v.owner != "" && v.repo != "" &&
      v.issueNumber != "" && v.commentBody != ""
  {
  }

  /** Data saved from a valid form passes every check the executor makes before the credential lookup. */
  lemma ValidFormPassesExecutorChecks(v: Values)
    requires Valid(v)
    ensures var data := Saved(v);
      && ExecCommon.Field(data, "variableName") != "" && ExecCommon.Field(data, "credentialId") != ""
      && GitHubExecutor.Complete(data)
  {
    ValidIff(v);
  }

  /** A new node's form is all empty. */
  lemma EmptyDefaults()
    ensures Defaults(Obj(map[])) == Values("", "", "", "", "", "") && !Valid(Defaults(Obj(map[])))
  {
  }
}
