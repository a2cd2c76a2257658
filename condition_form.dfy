/** The condition node's configuration form, and when its right operand is shown. */
module ConditionForm {
  import opened Wrappers
  import opened Json
  import opened FormCommon
  import ConditionExecutor

  datatype Values = Values(variableName: string, leftOperand: string, operator: string, rightOperand: string)

  const Operators := {
    "equals", "not_equals", "contains", "not_contains", "greater_than", "less_than",
    "is_empty", "is_not_empty", "starts_with", "ends_with"}

  /** The right operand has no rule of its own. */
  function Issues(v: Values): (r: seq<Issue>)
    ensures forall issue | issue in r :: issue.path in {"variableName", "leftOperand", "operator"}
  {
    VariableNameIssues(v.variableName)
    + Required("leftOperand", v.leftOperand, "Left operand is required")
    + (if v.operator in Operators then [] else [Issue("operator", "Invalid enum value")])
  }

  predicate Valid(v: Values) {
    Issues(v) == []
  }

  /** `showRightOperand`. */
  predicate ShowRightOperand(operator: string) {
    operator != "is_empty" && operator != "is_not_empty"
  }

  function Defaults(data: Value): (v: Values)
    ensures !Truthy(OptGet(data, "operator")) ==> v.operator == "equals"
  {
    Values(StrOr(OptGet(data, "variableName"), ""), StrOr(OptGet(data, "leftOperand"), ""),
           StrOr(OptGet(data, "operator"), "equals"), StrOr(OptGet(data, "rightOperand"), ""))
  }

  // ---- Properties ----

  lemma ValidIff(v: Values)
    ensures Valid(v) <==> IsIdentifier(v.variableName) && v.leftOperand != "" && v.operator in Operators
  {
  }

  /** The form offers exactly the operators the executor evaluates. */
  lemma OperatorsMatchExecutor()
    ensures Operators == ConditionExecutor.OperatorNames
  {
  }

  /** The hidden right operand does not matter: `is_empty` and `is_not_empty` ignore it
      (with ShownOperandMatters, the right operand is hidden exactly when it cannot change the result). */
  lemma HiddenOperandIgnored(v: Values, left: string, right: Option<string>, parseFloat: ConditionExecutor.ParseFloat)
    requires v.operator in Operators && !ShowRightOperand(v.operator)
    ensures ConditionExecutor.Evaluate(v.operator, left, right, parseFloat) ==
            ConditionExecutor.Evaluate(v.operator, left, None, parseFloat)
  {
  }

  /** Every shown right operand can change the result: some left operand evaluates differently with
      it than without it (for the numeric comparisons, given a `parseFloat` that reads "0", "1" and "2"). */
  lemma ShownOperandMatters(operator: string, parseFloat: ConditionExecutor.ParseFloat)
    requires operator in Operators && ShowRightOperand(operator)
    requires parseFloat("0") == Some(0.0) && parseFloat("1") == Some(1.0) && parseFloat("2") == Some(2.0)
    ensures exists left: string, right: string ::
      ConditionExecutor.Evaluate(operator, left, Some(right), parseFloat) !=
      ConditionExecutor.Evaluate(operator, left, None, parseFloat)
  {
    if operator == "equals" || operator == "not_equals" {
      assert ConditionExecutor.Evaluate(operator, "a", Some("a"), parseFloat) !=
             ConditionExecutor.Evaluate(operator, "a", None, parseFloat);
    } else if operator == "greater_than" || operator == "less_than" {
      assert ConditionExecutor.Evaluate(operator, "1", Some("2"), parseFloat) !=
             ConditionExecutor.Evaluate(operator, "1", None, parseFloat);
    } else {
      assert !Contains("a", "b") by {
        forall i: nat | i <= 1 ensures !MatchesAt("a", "b", i) {
          if i == 0 { assert "a"[0..1][0] != "b"[0]; }
        }
      }
      ConditionExecutor.ContainsEmpty("a");
      assert "a"[..0] == "" && "a"[|"a"| - 0..] == "";
      assert !ConditionExecutor.StartsWith("a", "b") by { assert "a"[..1][0] != "b"[0]; }
      assert !ConditionExecutor.EndsWith("a", "b") by { assert "a"[1 - 1..][0] != "b"[0]; }
      assert ConditionExecutor.Evaluate(operator, "a", Some("b"), parseFloat) !=
             ConditionExecutor.Evaluate(operator, "a", None, parseFloat);
    }
  }

  /** A new node's form uses `equals`, which shows the right operand. */
  lemma DefaultOperator()
    ensures Defaults(Obj(map[])).operator == "equals" && ShowRightOperand("equals")
  {
  }
}
