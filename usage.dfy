/**
 * The workflow-usage figures the editor shows: how many workflows a user has
 * against the free plan's limit, and the two warning flags.
 */
module Usage {
  import opened Wrappers

  const FreeUserMaxWorkflows := 10
  const SoftLimitWarningThreshold := 8

  /** A count or `Infinity`. */
  datatype Limit = Unbounded | Bounded(n: nat)

  datatype WorkflowUsage = WorkflowUsage(
    workflowCount: nat,
    maxWorkflows: Limit,
    remainingWorkflows: Limit,
    usagePercentage: real,
    isNearLimit: bool,
    isAtLimit: bool)

  /** `workflows?.totalCount || 0`: an absent list (still loading, or failed) counts as none. */
  function WorkflowCount(totalCount: Option<nat>): (r: nat)
    ensures totalCount.None? ==> r == 0
    ensures totalCount.Some? ==> r == totalCount.value
  {
    totalCount.GetOr(0)
  }

  function Max(a: int, b: int): int { if a >= b then a else b }
  function MinReal(a: real, b: real): real { if a <= b then a else b }

  /** The derived usage values, for a premium or a free user. */
  function UsageOf(totalCount: Option<nat>, isPremium: bool): (u: WorkflowUsage)
    ensures u.workflowCount == WorkflowCount(totalCount)
    ensures isPremium ==> u.maxWorkflows.Unbounded? && u.remainingWorkflows.Unbounded?
    ensures isPremium ==> u.usagePercentage == 0.0
    ensures !isPremium ==> u.maxWorkflows == Bounded(FreeUserMaxWorkflows)
    ensures u.isNearLimit <==> !isPremium && u.workflowCount >= SoftLimitWarningThreshold
    ensures u.isAtLimit <==> !isPremium && u.workflowCount >= FreeUserMaxWorkflows
  {
    var count := WorkflowCount(totalCount);
    if isPremium then WorkflowUsage(count, Unbounded, Unbounded, 0.0, false, false)
    else
      WorkflowUsage(
        count,
        Bounded(FreeUserMaxWorkflows),
        Bounded(Max(0, FreeUserMaxWorkflows - count)),
        MinReal(100.0, (count as real / FreeUserMaxWorkflows as real) * 100.0),
        count >= SoftLimitWarningThreshold,
        count >= FreeUserMaxWorkflows)
  }

  /** Reaching the limit always raises the softer warning too. */
  lemma AtLimitImpliesNearLimit(totalCount: Option<nat>, isPremium: bool)
    ensures UsageOf(totalCount, isPremium).isAtLimit ==> UsageOf(totalCount, isPremium).isNearLimit
  {
  }

  /** Free plan: what remains and what is used add up to the limit while under it; nothing remains at it. */
  lemma FreeRemaining(totalCount: Option<nat>)
    ensures var u := UsageOf(totalCount, false);
      u.remainingWorkflows.Bounded? &&
      (u.remainingWorkflows.n == 0 <==> u.isAtLimit) &&
      (!u.isAtLimit ==> u.remainingWorkflows.n + u.workflowCount == FreeUserMaxWorkflows)
  {
  }

  /** Free plan: the percentage stays within 0 to 100, is 100 exactly at the limit, and is 10 per workflow below it. */
  lemma FreePercentage(totalCount: Option<nat>)
    ensures var u := UsageOf(totalCount, false);
      0.0 <= u.usagePercentage <= 100.0 &&
      (u.usagePercentage == 100.0 <==> u.isAtLimit) &&
      (!u.isAtLimit ==> u.usagePercentage == 10.0 * u.workflowCount as real)
  {
  }

  /** An absent count reads as an empty account: no warning on either plan. */
  lemma AbsentCountIsZero(isPremium: bool)
    ensures var u := UsageOf(None, isPremium);
      u.workflowCount == 0 && !u.isNearLimit && !u.isAtLimit && u.usagePercentage == 0.0
  {
  }
}
