/**
 * The condition node's executor: it checks its configuration, renders both
 * operands against the context, applies one of ten string operators, and
 * returns the context extended with the result and two keys the orchestrator
 * reads to pick a branch.
 */
module ConditionExecutor {
  import opened Wrappers
  import opened Json
  import opened ExecCommon

  datatype Operator =
    | EqualsOp | NotEqualsOp | ContainsOp | NotContainsOp | GreaterThanOp | LessThanOp
    | IsEmptyOp | IsNotEmptyOp | StartsWithOp | EndsWithOp

  /** The operator a configured name selects; any other name selects none. */
  function ParseOperator(name: string): (r: Option<Operator>)
    ensures r.Some? <==> name in OperatorNames
  {
    if name == "equals" then Some(EqualsOp)
    else if name == "not_equals" then Some(NotEqualsOp)
    else if name == "contains" then Some(ContainsOp)
    else if name == "not_contains" then Some(NotContainsOp)
    else if name == "greater_than" then Some(GreaterThanOp)
    else if name == "less_than" then Some(LessThanOp)
    else if name == "is_empty" then Some(IsEmptyOp)
    else if name == "is_not_empty" then Some(IsNotEmptyOp)
    else if name == "starts_with" then Some(StartsWithOp)
    else if name == "ends_with" then Some(EndsWithOp)
    else None
  }

  const OperatorNames: set<string> := {
    "equals", "not_equals", "contains", "not_contains", "greater_than", "less_than",
    "is_empty", "is_not_empty", "starts_with", "ends_with"}

  /** `parseFloat`: a number, or `None` for NaN. */
  type ParseFloat = string -> Option<real>

  /** `s.startsWith(p)`. */
  predicate StartsWith(s: string, p: string) {
    |p| <= |s| && s[..|p|] == p
  }

  /** `s.endsWith(p)`. */
  predicate EndsWith(s: string, p: string) {
    |p| <= |s| && s[|s| - |p|..] == p
  }

  /** `rightOperand || d`: the rendered right operand unless it is undefined or "". */
  function RightOr(right: Option<string>, d: string): string {
    if right.Some? && right.value != "" then right.value else d
  }

  /** `a < b` on two `parseFloat` results: false when either is NaN. */
  predicate Less(a: Option<real>, b: Option<real>) {
    a.Some? && b.Some? && a.value < b.value
  }

  /** The `switch` on the operator name; `right` is `None` when no right operand is configured. */
  function Evaluate(operator: string, left: string, right: Option<string>, parseFloat: ParseFloat): bool {
    match ParseOperator(operator)
    case None => false
    case Some(op) =>
      match op
      case EqualsOp => right == Some(left)
      case NotEqualsOp => right != Some(left)
      case ContainsOp => Contains(left, RightOr(right, ""))
      case NotContainsOp => !Contains(left, RightOr(right, ""))
      case GreaterThanOp => Less(parseFloat(RightOr(right, "0")), parseFloat(left))
      case LessThanOp => Less(parseFloat(left), parseFloat(RightOr(right, "0")))
      case IsEmptyOp => left == ""
      case IsNotEmptyOp => left != ""
      case StartsWithOp => StartsWith(left, RightOr(right, ""))
      case EndsWithOp => EndsWith(left, RightOr(right, ""))
  }

  /** The returned context: the input plus `[variableName]: { result }`, `__conditionResult` and `__conditionNodeId`. */
  function WithResult(context: Context, variableName: string, nodeId: string, result: bool): Context {
    Put(Put(Put(context, variableName, Obj(map["result" := Bool(result)])),
            "__conditionResult", Bool(result)),
        "__conditionNodeId", Str(nodeId))
  }

  /** `conditionExecutor`: the publishes it makes and the context it returns or error it throws. */
  function Execute(data: Value, nodeId: string, context: Context, render: (string, Context) -> string,
                   parseFloat: ParseFloat): (o: Outcome)
    ensures StatusBracketed(o)
  {
    var variableName := Field(data, "variableName");
    var leftTemplate := Field(data, "leftOperand");
    var operator := Field(data, "operator");
    var rightTemplate := Field(data, "rightOperand");
    if variableName == "" then Reject("Condition Node: Variable name is missing")
    else if leftTemplate == "" then Reject("Condition Node: Left operand is missing")
    else if operator == "" then Reject("Condition Node: Operator is missing")
    else
      var left := render(leftTemplate, context);
      var right := if rightTemplate != "" then Some(render(rightTemplate, context)) else None;
      var result := Evaluate(operator, left, right, parseFloat);
      Outcome([Publish(Loading), Publish(Success)], Ok(WithResult(context, variableName, nodeId, result)))
  }

  // ---- Properties ----

  /** `loading` is published first; the first missing field among variableName, leftOperand and
      operator publishes `error` and throws a non-retriable error naming it; otherwise `success` is
      published once. */
  lemma ValidationOrder(data: Value, nodeId: string, context: Context, render: (string, Context) -> string,
                        parseFloat: ParseFloat)
    ensures var o := Execute(data, nodeId, context, render, parseFloat);
      && o.trace[0] == Publish(Loading)
      && (Field(data, "variableName") == "" ==> o == Reject("Condition Node: Variable name is missing"))
      && (Field(data, "variableName") != "" && Field(data, "leftOperand") == "" ==>
            o == Reject("Condition Node: Left operand is missing"))
      && (Field(data, "variableName") != "" && Field(data, "leftOperand") != "" && Field(data, "operator") == "" ==>
            o == Reject("Condition Node: Operator is missing"))
      && (o.result.Err? <==> Field(data, "variableName") == "" || Field(data, "leftOperand") == "" || Field(data, "operator") == "")
      && (o.result.Err? ==> o.result.error.NonRetriableError? && o.trace == [Publish(Loading), Publish(Error)])
      && (o.result.Ok? ==> o.trace == [Publish(Loading), Publish(Success)])
  {
  }

  /** Any string contains the empty string. */
  lemma ContainsEmpty(s: string)
    ensures Contains(s, "")
  {
    assert MatchesAt(s, "", 0);
  }

  /** A prefix or a suffix is contained. */
  lemma AffixContained(s: string, p: string)
    ensures StartsWith(s, p) ==> Contains(s, p)
    ensures EndsWith(s, p) ==> Contains(s, p)
  {
    if StartsWith(s, p) { assert MatchesAt(s, p, 0); }
    if EndsWith(s, p) { assert MatchesAt(s, p, |s| - |p|); }
  }

  /** With no right operand, `equals` is false and `not_equals` true; `contains`, `starts_with` and
      `ends_with` hold and `not_contains` fails, because the empty string is used. */
  lemma AbsentRightOperand(left: string, parseFloat: ParseFloat)
    ensures !Evaluate("equals", left, None, parseFloat)
    ensures Evaluate("not_equals", left, None, parseFloat)
    ensures Evaluate("contains", left, None, parseFloat)
    ensures !Evaluate("not_contains", left, None, parseFloat)
    ensures Evaluate("starts_with", left, None, parseFloat)
    ensures Evaluate("ends_with", left, None, parseFloat)
  {
    ContainsEmpty(left);
    assert left[|left| - 0..] == "";
  }

  /** `equals` and `not_equals`, and `contains` and `not_contains`, are complements;
      `equals` holds iff the right operand is configured and renders to the left one. */
  lemma Complements(left: string, right: Option<string>, parseFloat: ParseFloat)
    ensures Evaluate("equals", left, right, parseFloat) <==> !Evaluate("not_equals", left, right, parseFloat)
    ensures Evaluate("contains", left, right, parseFloat) <==> !Evaluate("not_contains", left, right, parseFloat)
    ensures Evaluate("equals", left, right, parseFloat) <==> right.Some? && right.value == left
    ensures Evaluate("is_empty", left, right, parseFloat) <==> left == ""
    ensures Evaluate("is_not_empty", left, right, parseFloat) <==> left != ""
  {
  }

  /** `greater_than` and `less_than` compare numerically, never both hold, and are false when
      either side is not a number; a missing right operand compares against 0. */
  lemma NumericComparisons(left: string, right: Option<string>, parseFloat: ParseFloat)
    ensures !(Evaluate("greater_than", left, right, parseFloat) && Evaluate("less_than", left, right, parseFloat))
    ensures parseFloat(left).None? ==>
      !Evaluate("greater_than", left, right, parseFloat) && !Evaluate("less_than", left, right, parseFloat)
    ensures right.None? ==>
      (Evaluate("greater_than", left, right, parseFloat) <==> Less(parseFloat("0"), parseFloat(left)))
  {
  }

  /** An unrecognised operator name yields false. */
  lemma UnknownOperatorFalse(operator: string, left: string, right: Option<string>, parseFloat: ParseFloat)
    requires operator !in OperatorNames
    ensures !Evaluate(operator, left, right, parseFloat)
  {
  }

  /** On success the context gains the three keys and every other key is unchanged. */
  lemma ResultContext(data: Value, nodeId: string, context: Context, render: (string, Context) -> string,
                      parseFloat: ParseFloat)
    requires Execute(data, nodeId, context, render, parseFloat).result.Ok?
    ensures var r := Execute(data, nodeId, context, render, parseFloat).result.value;
      var v := Field(data, "variableName");
      && r.Keys == context.Keys + {v, "__conditionResult", "__conditionNodeId"}
      && r["__conditionNodeId"] == Str(nodeId)
      && r["__conditionResult"].Bool?
      && (v != "__conditionResult" && v != "__conditionNodeId" ==>
            r[v] == Obj(map["result" := r["__conditionResult"]]))
      && (forall k | k in context && k != v && k != "__conditionResult" && k != "__conditionNodeId" :: r[k] == context[k])
  {
  }
}
