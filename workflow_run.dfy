/**
 * The run orchestrator: the handler of the `workflows/execute.workflow` event,
 * and its `onFailure` hook.
 *
 * A run validates the event, records an execution, sorts the nodes, then walks
 * them in sorted order. The roots are activated first. Each activated node's
 * executor is called with the current context, and its result replaces the
 * context. The node's children are then activated: the chosen branch for a
 * condition node, every port otherwise.
 *
 * Executors, the executor lookup, the sorter and the database are parameters.
 * `Walk` states the loop over connections; `ExecuteWorkflow` runs it over the
 * adjacency map, as the handler does.
 */
module WorkflowRun {
  import opened Wrappers
  import opened Json
  import opened Graph
  import opened ExecCommon
  import opened InngestUtils
  import opened ExecutorRegistry
  import ConditionExecutor

  const ConditionResultKey := "__conditionResult"
  const ConditionNodeIdKey := "__conditionNodeId"
  const TruePort := "source-true"
  const FalsePort := "source-false"

  /** The triggering event; "" stands for a missing id, `None` for absent or falsy `initialData`. */
  datatype Event = Event(id: string, workflowId: string, initialData: Option<Context>)

  /** One executor call: the executor, the node (its data, id and type), the owner and the context. */
  datatype Invocation = Invocation(executor: ExecutorId, node: Node, userId: string, context: Context)

  /** The executors: the new context, or the error they throw. */
  type Invoke = Invocation -> Result<Context, ExecError>

  /** The executor lookup (`getExecutor`): an executor, or the message it throws. */
  type Lookup = NodeType -> Result<ExecutorId, string>

  /** `prisma.workflow.findUniqueOrThrow` by id. */
  type Database = string -> Option<Workflow>

  const WorkflowNotFound := "No Workflow found"

  /** The durable steps a run performs, in order. */
  datatype Step =
    | CreateExecution(workflowId: string, eventId: string)
    | PrepareWorkflow
    | FindUserId
    | RunNode(invocation: Invocation)
    | UpdateExecution(eventId: string, workflowId: string, output: Context)

  datatype RunOutput = RunOutput(workflowId: string, result: Context)

  // ---- The walk, stated over the connections ----

  /** Some connection leaves `id` (the adjacency map has an entry for it). */
  predicate HasOutputs(conns: seq<Connection>, id: string) {
    exists c | c in conns :: c.fromNodeId == id
  }

  /** The targets of every connection leaving `id`. */
  function ChildTargets(conns: seq<Connection>, id: string): set<string> {
    set c | c in conns && c.fromNodeId == id :: c.toNodeId
  }

  /** The targets of the connections leaving `id` on `port`. */
  function PortTargets(conns: seq<Connection>, id: string, port: string): set<string> {
    set c | c in conns && c.fromNodeId == id && c.fromOutput == port :: c.toNodeId
  }

  /** The ids no connection points to. */
  function Incoming(conns: seq<Connection>): set<string> {
    set c | c in conns :: c.toNodeId
  }

  /** The initial activated set: the sorted nodes with no incoming connection, whatever their type. */
  function Roots(sorted: seq<Node>, conns: seq<Connection>): set<string> {
    set n | n in sorted && n.id !in Incoming(conns) :: n.id
  }

  /** `event.data.initialData || {}`. */
  function InitialContext(e: Event): Context {
    match e.initialData
    case Some(c) => c
    case None => map[]
  }

  /** The port a condition node's result selects: a truthy `__conditionResult` picks `source-true`. */
  function ConditionPort(ctx: Context): string {
    if ConditionResultKey in ctx && Truthy(ctx[ConditionResultKey]) then TruePort else FalsePort
  }

  /** The context after a node's children were activated: a condition node with outputs drops the two internal keys. */
  function CleanContext(node: Node, conns: seq<Connection>, ctx: Context): Context {
    if node.nodeType == CONDITION && HasOutputs(conns, node.id) then ctx - {ConditionResultKey, ConditionNodeIdKey}
    else ctx
  }

  /** The nodes activated after `node` returned `ctx`. */
  function NewlyActive(node: Node, conns: seq<Connection>, ctx: Context): set<string> {
    if !HasOutputs(conns, node.id) then {}
    else if node.nodeType == CONDITION then PortTargets(conns, node.id, ConditionPort(ctx))
    else ChildTargets(conns, node.id)
  }

  datatype WalkState = WalkState(active: set<string>, context: Context, calls: seq<Invocation>)

  /** The end of a walk: the final state, or the calls made and the error that stopped it. */
  datatype WalkEnd = Done(state: WalkState) | Failed(calls: seq<Invocation>, error: ExecError)

  /** One iteration of the loop for `node`. */
  function StepNode(node: Node, conns: seq<Connection>, userId: string, lookup: Lookup, invoke: Invoke, st: WalkState): WalkEnd {
    if node.id !in st.active then Done(st)
    else
      match lookup(node.nodeType)
      case Err(m) => Failed(st.calls, PlainError(m))
      case Ok(ex) =>
        var inv := Invocation(ex, node, userId, st.context);
        match invoke(inv)
        case Err(e) => Failed(st.calls + [inv], e)
        case Ok(ctx) =>
          Done(WalkState(st.active + NewlyActive(node, conns, ctx), CleanContext(node, conns, ctx), st.calls + [inv]))
  }

  /** The loop over the sorted nodes. */
  function Walk(nodes: seq<Node>, conns: seq<Connection>, userId: string, lookup: Lookup, invoke: Invoke, st: WalkState): WalkEnd
    decreases |nodes|
  {
    if nodes == [] then Done(st)
    else
      match StepNode(nodes[0], conns, userId, lookup, invoke, st)
      case Failed(calls, e) => Failed(calls, e)
      case Done(st') => Walk(nodes[1..], conns, userId, lookup, invoke, st')
  }

  function RunSteps(calls: seq<Invocation>): (steps: seq<Step>)
    ensures |steps| == |calls|
    ensures forall k | 0 <= k < |calls| :: steps[k] == RunNode(calls[k])
  {
    seq(|calls|, k requires 0 <= k < |calls| => RunNode(calls[k]))
  }

  /** The steps performed and the value returned or error thrown by a run. */
  function Run(event: Event, db: Database, sorter: Sorter, lookup: Lookup, invoke: Invoke)
    : (seq<Step>, Result<RunOutput, ExecError>)
  {
    if event.id == "" then ([], Err(NonRetriableError("Event ID is missing")))
    else if event.workflowId == "" then ([], Err(NonRetriableError("Workflow ID is missing")))
    else
      var created := [CreateExecution(event.workflowId, event.id)];
      match db(event.workflowId)
      case None => (created, Err(PlainError(WorkflowNotFound)))
      case Some(w) =>
        match SortSpec(w.nodes, w.connections, sorter)
        case Err(m) => (created, Err(PlainError(m)))
        case Ok(sorted) =>
          var prepared := created + [PrepareWorkflow, FindUserId];
          var st0 := WalkState(Roots(sorted, w.connections), InitialContext(event), []);
          match Walk(sorted, w.connections, w.userId, lookup, invoke, st0)
          case Failed(calls, e) => (prepared + RunSteps(calls), Err(e))
          case Done(st) =>
            (prepared + RunSteps(st.calls) + [UpdateExecution(event.id, event.workflowId, st.context)],
             Ok(RunOutput(event.workflowId, st.context)))
  }

  // ---- The handler ----

  /** `targets.forEach(id => executableNodes.add(id))`. */
  method ActivateAll(executable: set<string>, targets: seq<string>) returns (r: set<string>)
    ensures r == executable + (set t | t in targets)
  {
    r := executable;
    var i := 0;
    while i < |targets|
      invariant 0 <= i <= |targets|
      invariant r == executable + (set t | t in targets[..i])
    {
      assert targets[..i + 1] == targets[..i] + [targets[i]];
      r := r + {targets[i]};
      i := i + 1;
    }
    assert targets[..i] == targets;
  }

  /** Every target on every port of an adjacency entry. */
  function AllTargets(outs: map<string, seq<string>>): set<string> {
    set p, t | p in outs && t in outs[p] :: t
  }

  /** `for (const targets of nodeOutputs.values()) targets.forEach(...)`. */
  method ActivatePorts(executable: set<string>, outs: map<string, seq<string>>) returns (r: set<string>)
    ensures r == executable + AllTargets(outs)
  {
    r := executable;
    var remaining := outs.Keys;
    while remaining != {}
      invariant remaining <= outs.Keys
      invariant r == executable + (set p, t | p in outs && p !in remaining && t in outs[p] :: t)
      decreases |remaining|
    {
      var port :| port in remaining;
      ghost var before := r;
      r := ActivateAll(r, outs[port]);
      remaining := remaining - {port};
      assert (set p, t | p in outs && p !in remaining && t in outs[p] :: t) ==
        (set p, t | p in outs && p !in remaining + {port} && t in outs[p] :: t) + (set t | t in outs[port]);
    }
  }

  /** Lines 136-157: activate the children of `node`, which just returned `context`. */
  method ActivateChildren(node: Node, adjacency: Adjacency, ghost conns: seq<Connection>,
                          executableNodes: set<string>, context: Context)
    returns (executable: set<string>, cleaned: Context)
    requires Represents(adjacency, conns)
    ensures executable == executableNodes + NewlyActive(node, conns, context)
    ensures cleaned == CleanContext(node, conns, context)
  {
    executable, cleaned := executableNodes, context;
    AdjacencyAgrees(adjacency, conns, node.id);
    if node.id in adjacency {
      var nodeOutputs := adjacency[node.id];
      if node.nodeType == CONDITION {
        var conditionResult := ConditionResultKey in context && Truthy(context[ConditionResultKey]);
        var outputToEnable := if conditionResult then TruePort else FalsePort;
        if outputToEnable in nodeOutputs {
          executable := ActivateAll(executable, nodeOutputs[outputToEnable]);
        }
        cleaned := context - {ConditionResultKey, ConditionNodeIdKey};
      } else {
        executable := ActivatePorts(executable, nodeOutputs);
      }
    }
  }

  /** Lines 119-158: the loop over the sorted nodes. */
  method WalkNodes(sortedNodes: seq<Node>, ghost conns: seq<Connection>, adjacency: Adjacency, userId: string,
                   lookup: Lookup, invoke: Invoke, executable0: set<string>, context0: Context)
    returns (end: WalkEnd)
    requires Represents(adjacency, conns)
    ensures end == Walk(sortedNodes, conns, userId, lookup, invoke, WalkState(executable0, context0, []))
  {
    var executableNodes, context := executable0, context0;
    ghost var st0 := WalkState(executable0, context0, []);
    var calls: seq<Invocation> := [];
    var i := 0;
    while i < |sortedNodes|
      invariant 0 <= i <= |sortedNodes|
      invariant Walk(sortedNodes[i..], conns, userId, lookup, invoke, WalkState(executableNodes, context, calls))
        == Walk(sortedNodes, conns, userId, lookup, invoke, st0)
    {
      var node := sortedNodes[i];
      ghost var st := WalkState(executableNodes, context, calls);
      assert sortedNodes[i..][1..] == sortedNodes[i + 1..];
      if node.id !in executableNodes {
        i := i + 1;
        continue;
      }
      var executor := lookup(node.nodeType);
      if executor.Err? {
        return Failed(calls, PlainError(executor.error));
      }
      var inv := Invocation(executor.value, node, userId, context);
      calls := calls + [inv];
      var returned := invoke(inv);
      if returned.Err? {
        return Failed(calls, returned.error);
      }
      executableNodes, context := ActivateChildren(node, adjacency, conns, executableNodes, returned.value);
      i := i + 1;
    }
    return Done(WalkState(executableNodes, context, calls));
  }

  method ExecuteWorkflow(event: Event, db: Database, sorter: Sorter, lookup: Lookup, invoke: Invoke)
    returns (steps: seq<Step>, result: Result<RunOutput, ExecError>)
    ensures (steps, result) == Run(event, db, sorter, lookup, invoke)
    ensures event.id == "" || event.workflowId == "" ==> steps == [] && result.Err? && result.error.NonRetriableError?
    ensures result.Ok? ==>
      && result.value.workflowId == event.workflowId
      && steps[|steps| - 1] == UpdateExecution(event.id, event.workflowId, result.value.result)
  {
    var inngestEventId := event.id;
    var workflowId := event.workflowId;
    if inngestEventId == "" {
      return [], Err(NonRetriableError("Event ID is missing"));
    }
    if workflowId == "" {
      return [], Err(NonRetriableError("Workflow ID is missing"));
    }
    steps := [CreateExecution(workflowId, inngestEventId)];

    var found := db(workflowId);
    if found.None? {
      return steps, Err(PlainError(WorkflowNotFound));
    }
    var workflow := found.value;
    var sortResult := TopologicalSort(workflow.nodes, workflow.connections, sorter);
    if sortResult.Err? {
      return steps, Err(PlainError(sortResult.error));
    }
    var sortedNodes := sortResult.value;
    var connections := workflow.connections;
    steps := steps + [PrepareWorkflow, FindUserId];
    var userId := workflow.userId;

    var context := InitialContext(event);
    var adjacency := BuildAdjacencyMap(connections);
    var incomingConnections := set c | c in connections :: c.toNodeId;
    var executableNodes := set n | n in sortedNodes && n.id !in incomingConnections :: n.id;

    var end := WalkNodes(sortedNodes, connections, adjacency, userId, lookup, invoke, executableNodes, context);
    match end
    case Failed(calls, e) =>
      steps := steps + RunSteps(calls);
      result := Err(e);
    case Done(st) =>
      steps := steps + RunSteps(st.calls) + [UpdateExecution(inngestEventId, workflowId, st.context)];
      result := Ok(RunOutput(workflowId, st.context));
  }

  /** The adjacency map built from the connections answers the walk's questions the same way. */
  lemma AdjacencyAgrees(adjacency: Adjacency, conns: seq<Connection>, id: string)
    requires Represents(adjacency, conns)
    ensures id in adjacency <==> HasOutputs(conns, id)
    ensures id in adjacency ==> AllTargets(adjacency[id]) == ChildTargets(conns, id)
    ensures forall port | id in adjacency ::
      (if port in adjacency[id] then set t | t in adjacency[id][port] else {}) == PortTargets(conns, id, port)
  {
    AdjacencyFromConnections(conns, id, "", "");
    if HasOutputs(conns, id) {
      var c :| c in conns && c.fromNodeId == id;
      TargetsMembers(conns, c);
    }
    if id in adjacency {
      forall t ensures t in AllTargets(adjacency[id]) <==> t in ChildTargets(conns, id) {
        if t in AllTargets(adjacency[id]) {
          var p :| p in adjacency[id] && t in adjacency[id][p];
          AdjacencyFromConnections(conns, id, p, t);
        }
        if t in ChildTargets(conns, id) {
          var c :| c in conns && c.fromNodeId == id && c.toNodeId == t;
          TargetsMembers(conns, c);
        }
      }
      forall port ensures (if port in adjacency[id] then set t | t in adjacency[id][port] else {}) == PortTargets(conns, id, port) {
        forall t ensures t in PortTargets(conns, id, port) ==> port in adjacency[id] && t in adjacency[id][port] {
          if t in PortTargets(conns, id, port) {
            var c :| c in conns && c.fromNodeId == id && c.fromOutput == port && c.toNodeId == t;
            TargetsMembers(conns, c);
          }
        }
        if port in adjacency[id] {
          forall t | t in adjacency[id][port] ensures t in PortTargets(conns, id, port) {
            AdjacencyFromConnections(conns, id, port, t);
          }
        }
      }
    }
  }

  // ---- What the walk guarantees ----

  /** The calls a walk ended with. */
  function EndCalls(end: WalkEnd): seq<Invocation> {
    match end
    case Done(st) => st.calls
    case Failed(calls, _) => calls
  }

  /** The nodes of a list of calls. */
  function CalledNodes(calls: seq<Invocation>): (r: seq<Node>)
    ensures |r| == |calls|
    ensures forall k | 0 <= k < |calls| :: r[k] == calls[k].node
  {
    seq(|calls|, k requires 0 <= k < |calls| => calls[k].node)
  }

  /** `xs` is `ys` with some elements left out, order kept. */
  predicate IsSubsequence<T(==)>(xs: seq<T>, ys: seq<T>)
    decreases |ys|
  {
    if xs == [] then true
    else if ys == [] then false
    else if xs[0] == ys[0] then IsSubsequence(xs[1..], ys[1..])
    else IsSubsequence(xs, ys[1..])
  }

  lemma {:induction false} SubsequenceDropFirst<T>(xs: seq<T>, ys: seq<T>)
    requires xs != [] && IsSubsequence(xs, ys)
    ensures IsSubsequence(xs[1..], ys)
    decreases |ys|, 1
  {
    if xs[1..] != [] && ys != [] {
      if xs[0] == ys[0] {
        SubsequenceSkip(xs[1..], ys);
      } else {
        SubsequenceDropFirst(xs, ys[1..]);
        SubsequenceSkip(xs[1..], ys);
      }
    }
  }

  /** A subsequence of the tail is a subsequence of the whole. */
  lemma {:induction false} SubsequenceSkip<T>(xs: seq<T>, ys: seq<T>)
    requires ys != [] && IsSubsequence(xs, ys[1..])
    ensures IsSubsequence(xs, ys)
    decreases |ys|, 0
  {
    if xs != [] && xs[0] == ys[0] {
      SubsequenceDropFirst(xs, ys[1..]);
    }
  }

  lemma {:induction false} SubsequenceMembers<T>(xs: seq<T>, ys: seq<T>, x: T)
    requires IsSubsequence(xs, ys) && x in xs
    ensures x in ys
    decreases |ys|
  {
    if xs[0] == ys[0] {
      if x != xs[0] { SubsequenceMembers(xs[1..], ys[1..], x); }
    } else {
      SubsequenceMembers(xs, ys[1..], x);
    }
  }

  /** A subsequence of a node list with distinct ids has distinct ids. */
  lemma {:induction false} SubsequenceDistinct(xs: seq<Node>, ys: seq<Node>)
    requires IsSubsequence(xs, ys) && Distinct(IdSeq(ys))
    ensures Distinct(IdSeq(xs))
    decreases |ys|
  {
    if xs != [] {
      if xs[0] == ys[0] {
        SubsequenceDistinct(xs[1..], ys[1..]);
        forall k | 1 <= k < |xs| ensures xs[k].id != xs[0].id {
          SubsequenceMembers(xs[1..], ys[1..], xs[k]);
          var j :| 0 <= j < |ys[1..]| && ys[1..][j] == xs[k];
          assert IdSeq(ys)[j + 1] == xs[k].id;
        }
      } else {
        SubsequenceDistinct(xs, ys[1..]);
      }
    }
  }

  /** The calls only grow and the activated set only grows. */
  lemma {:induction false} WalkGrows(nodes: seq<Node>, conns: seq<Connection>, userId: string,
                                      lookup: Lookup, invoke: Invoke, st: WalkState)
    ensures st.calls <= EndCalls(Walk(nodes, conns, userId, lookup, invoke, st))
    ensures Walk(nodes, conns, userId, lookup, invoke, st).Done? ==>
      st.active <= Walk(nodes, conns, userId, lookup, invoke, st).state.active
    decreases |nodes|
  {
    if nodes != [] {
      match StepNode(nodes[0], conns, userId, lookup, invoke, st)
      case Failed(_, _) =>
      case Done(st') => WalkGrows(nodes[1..], conns, userId, lookup, invoke, st');
    }
  }

  /** Nodes are called in sorted order, each at most at its own turn: the called nodes form a
      subsequence of the sorted list. */
  lemma {:induction false} WalkFollowsOrder(nodes: seq<Node>, conns: seq<Connection>, userId: string,
                                             lookup: Lookup, invoke: Invoke, st: WalkState)
    ensures var calls := EndCalls(Walk(nodes, conns, userId, lookup, invoke, st));
      st.calls <= calls && IsSubsequence(CalledNodes(calls[|st.calls|..]), nodes)
    decreases |nodes|
  {
    var calls := EndCalls(Walk(nodes, conns, userId, lookup, invoke, st));
    WalkGrows(nodes, conns, userId, lookup, invoke, st);
    if nodes != [] {
      match StepNode(nodes[0], conns, userId, lookup, invoke, st)
      case Failed(c, _) =>
        if c != st.calls {
          assert CalledNodes(calls[|st.calls|..]) == [nodes[0]];
          assert IsSubsequence(CalledNodes(calls[|st.calls|..])[1..], nodes[1..]);
        } else {
          assert CalledNodes(calls[|st.calls|..]) == [];
        }
      case Done(st') =>
        WalkFollowsOrder(nodes[1..], conns, userId, lookup, invoke, st');
        var rest := CalledNodes(calls[|st'.calls|..]);
        if st'.calls == st.calls {
          SubsequenceSkip(rest, nodes);
        } else {
          assert st'.calls == st.calls + [st'.calls[|st.calls|]];
          assert CalledNodes(calls[|st.calls|..]) == [nodes[0]] + rest;
        }
    }
  }

  /** The targets of the connections leaving any node called in `calls`. */
  function Enabled(conns: seq<Connection>, calls: seq<Invocation>): set<string> {
    if calls == [] then {} else Enabled(conns, calls[..|calls| - 1]) + ChildTargets(conns, calls[|calls| - 1].node.id)
  }

  /** Every call is of a root or of a target of a connection leaving an earlier call. */
  predicate Justified(roots: set<string>, conns: seq<Connection>, calls: seq<Invocation>) {
    forall k | 0 <= k < |calls| :: calls[k].node.id in roots + Enabled(conns, calls[..k])
  }

  /** A node runs only when it is a root or a child of a node that ran before it. */
  lemma {:induction false} WalkOnlyRunsEnabled(nodes: seq<Node>, conns: seq<Connection>, userId: string,
                                                lookup: Lookup, invoke: Invoke, st: WalkState, roots: set<string>)
    requires Justified(roots, conns, st.calls)
    requires st.active <= roots + Enabled(conns, st.calls)
    ensures Justified(roots, conns, EndCalls(Walk(nodes, conns, userId, lookup, invoke, st)))
    ensures Walk(nodes, conns, userId, lookup, invoke, st).Done? ==>
      Walk(nodes, conns, userId, lookup, invoke, st).state.active <=
        roots + Enabled(conns, Walk(nodes, conns, userId, lookup, invoke, st).state.calls)
    decreases |nodes|
  {
    if nodes != [] {
      var n := nodes[0];
      var step := StepNode(n, conns, userId, lookup, invoke, st);
      if n.id in st.active && lookup(n.nodeType).Ok? {
        var inv := Invocation(lookup(n.nodeType).value, n, userId, st.context);
        var calls' := st.calls + [inv];
        assert calls'[..|st.calls|] == st.calls;
        assert calls'[..|calls'| - 1] == st.calls;
        forall k | 0 <= k < |calls'| ensures calls'[k].node.id in roots + Enabled(conns, calls'[..k]) {
          if k < |st.calls| {
            assert calls'[..k] == st.calls[..k];
          }
        }
        assert Justified(roots, conns, calls');
        if step.Done? {
          var ctx := invoke(inv).value;
          assert NewlyActive(n, conns, ctx) <= ChildTargets(conns, n.id);
          WalkOnlyRunsEnabled(nodes[1..], conns, userId, lookup, invoke, step.state, roots);
        }
      } else if step.Done? {
        WalkOnlyRunsEnabled(nodes[1..], conns, userId, lookup, invoke, step.state, roots);
      }
    }
  }

  /** The context is threaded: the first call gets `ctx0`, each later call gets what the previous
      call returned (cleaned of the condition keys), and the final context is the last result. */
  predicate Threaded(ctx0: Context, calls: seq<Invocation>, conns: seq<Connection>, invoke: Invoke, ctx: Context) {
    && (calls == [] ==> ctx == ctx0)
    && (calls != [] ==>
          && calls[0].context == ctx0
          && invoke(calls[|calls| - 1]).Ok?
          && ctx == CleanContext(calls[|calls| - 1].node, conns, invoke(calls[|calls| - 1]).value))
    && (forall k | 0 <= k < |calls| - 1 ::
          invoke(calls[k]).Ok? && calls[k + 1].context == CleanContext(calls[k].node, conns, invoke(calls[k]).value))
  }

  lemma {:induction false} WalkThreadsContext(nodes: seq<Node>, conns: seq<Connection>, userId: string,
                                               lookup: Lookup, invoke: Invoke, st: WalkState, ctx0: Context)
    requires Threaded(ctx0, st.calls, conns, invoke, st.context)
    ensures Walk(nodes, conns, userId, lookup, invoke, st).Done? ==>
      var st' := Walk(nodes, conns, userId, lookup, invoke, st).state;
      Threaded(ctx0, st'.calls, conns, invoke, st'.context)
    decreases |nodes|
  {
    if nodes != [] {
      match StepNode(nodes[0], conns, userId, lookup, invoke, st)
      case Failed(_, _) =>
      case Done(st') =>
        if st'.calls != st.calls {
          var calls' := st'.calls;
          assert calls'[..|calls'| - 1] == st.calls;
          forall k | 0 <= k < |calls'| - 1
            ensures invoke(calls'[k]).Ok? && calls'[k + 1].context == CleanContext(calls'[k].node, conns, invoke(calls'[k]).value)
          {
            assert calls'[k] == st.calls[k];
          }
        }
        WalkThreadsContext(nodes[1..], conns, userId, lookup, invoke, st', ctx0);
    }
  }

  /** A node that is not activated is skipped: no call, nothing changes. */
  lemma SkipsInactive(node: Node, conns: seq<Connection>, userId: string, lookup: Lookup, invoke: Invoke, st: WalkState)
    requires node.id !in st.active
    ensures StepNode(node, conns, userId, lookup, invoke, st) == Done(st)
  {
  }

  /** After a node other than a condition runs, the targets on every port are activated, and the
      context is its result. */
  lemma {:induction false} ActivatesAllChildren(node: Node, conns: seq<Connection>, userId: string,
                                                 lookup: Lookup, invoke: Invoke, st: WalkState)
    requires node.id in st.active && node.nodeType != CONDITION
    requires lookup(node.nodeType).Ok?
    requires invoke(Invocation(lookup(node.nodeType).value, node, userId, st.context)).Ok?
    ensures var inv := Invocation(lookup(node.nodeType).value, node, userId, st.context);
      StepNode(node, conns, userId, lookup, invoke, st) ==
        Done(WalkState(st.active + ChildTargets(conns, node.id), invoke(inv).value, st.calls + [inv]))
  {
    if !HasOutputs(conns, node.id) {
      assert ChildTargets(conns, node.id) == {};
    }
  }

  /** After a condition node runs, only the targets of the port its result selects are activated,
      and the two internal keys are removed exactly when the node has outputs. */
  lemma {:induction false} ActivatesChosenBranch(node: Node, conns: seq<Connection>, userId: string,
                                                  lookup: Lookup, invoke: Invoke, st: WalkState)
    requires node.id in st.active && node.nodeType == CONDITION
    requires lookup(node.nodeType).Ok?
    requires invoke(Invocation(lookup(node.nodeType).value, node, userId, st.context)).Ok?
    ensures var inv := Invocation(lookup(node.nodeType).value, node, userId, st.context);
      var ctx := invoke(inv).value;
      var port := if ConditionResultKey in ctx && Truthy(ctx[ConditionResultKey]) then "source-true" else "source-false";
      var st' := StepNode(node, conns, userId, lookup, invoke, st).state;
      && StepNode(node, conns, userId, lookup, invoke, st).Done?
      && st'.active == st.active + PortTargets(conns, node.id, port)
      && st'.calls == st.calls + [inv]
      && (HasOutputs(conns, node.id) ==> st'.context == ctx - {"__conditionResult", "__conditionNodeId"})
      && (!HasOutputs(conns, node.id) ==> st'.context == ctx)
  {
    var inv := Invocation(lookup(node.nodeType).value, node, userId, st.context);
    var ctx := invoke(inv).value;
    if !HasOutputs(conns, node.id) {
      assert PortTargets(conns, node.id, ConditionPort(ctx)) == {};
    }
  }

  /** With the table as written, any activated condition node stops the run with the lookup error. */
  lemma ConditionStopsRunAsWritten(node: Node, conns: seq<Connection>, userId: string, invoke: Invoke, st: WalkState)
    requires node.id in st.active && node.nodeType == CONDITION
    ensures StepNode(node, conns, userId, GetExecutor, invoke, st) ==
      Failed(st.calls, PlainError("No executor found for node type: " + "CONDITION"))
  {
    ConditionHasNoExecutor();
  }

  /** With the corrected table, an activated condition node is handed to the condition executor. */
  lemma ConditionRunsWhenCorrected(node: Node, conns: seq<Connection>, userId: string, invoke: Invoke, st: WalkState)
    requires node.id in st.active && node.nodeType == CONDITION
    ensures EndCalls(StepNode(node, conns, userId, GetExecutorCorrected, invoke, st)) ==
      st.calls + [Invocation(ConditionExecutor, node, userId, st.context)]
  {
  }

  // ---- What a run guarantees ----

  /** A run without an event id or a workflow id throws a non-retriable error before any step. */
  lemma MissingIdsRejected(event: Event, db: Database, sorter: Sorter, lookup: Lookup, invoke: Invoke)
    requires event.id == "" || event.workflowId == ""
    ensures Run(event, db, sorter, lookup, invoke) ==
      ([], Err(NonRetriableError(if event.id == "" then "Event ID is missing" else "Workflow ID is missing")))
  {
  }

  /** A run that gets past validation records its execution first; one that completes records
      SUCCESS with the final context last and returns that context; a run whose sorted nodes have
      distinct ids calls each node at most once, in sorted order, and only a root or a child of an
      earlier call. */
  lemma RunGuarantees(event: Event, db: Database, sorter: Sorter, lookup: Lookup, invoke: Invoke)
    requires event.id != "" && event.workflowId != ""
    ensures var (steps, _) := Run(event, db, sorter, lookup, invoke);
      |steps| >= 1 && steps[0] == CreateExecution(event.workflowId, event.id)
    ensures db(event.workflowId).None? ==> Run(event, db, sorter, lookup, invoke).1 == Err(PlainError(WorkflowNotFound))
    ensures db(event.workflowId).Some? ==>
      var w := db(event.workflowId).value;
      SortSpec(w.nodes, w.connections, sorter).Ok? ==>
        var sorted := SortSpec(w.nodes, w.connections, sorter).value;
        var end := Walk(sorted, w.connections, w.userId, lookup, invoke,
                        WalkState(Roots(sorted, w.connections), InitialContext(event), []));
        && IsSubsequence(CalledNodes(EndCalls(end)), sorted)
        && Justified(Roots(sorted, w.connections), w.connections, EndCalls(end))
        && (|w.connections| > 0 ==> Distinct(IdSeq(CalledNodes(EndCalls(end)))))
        && (end.Done? ==> Threaded(InitialContext(event), end.state.calls, w.connections, invoke, end.state.context))
        && (end.Done? ==> Run(event, db, sorter, lookup, invoke).1 == Ok(RunOutput(event.workflowId, end.state.context)))
  {
    if db(event.workflowId).Some? {
      var w := db(event.workflowId).value;
      if SortSpec(w.nodes, w.connections, sorter).Ok? {
        var sorted := SortSpec(w.nodes, w.connections, sorter).value;
        var st0 := WalkState(Roots(sorted, w.connections), InitialContext(event), []);
        var end := Walk(sorted, w.connections, w.userId, lookup, invoke, st0);
        WalkFollowsOrder(sorted, w.connections, w.userId, lookup, invoke, st0);
        assert EndCalls(end)[0..] == EndCalls(end);
        WalkOnlyRunsEnabled(sorted, w.connections, w.userId, lookup, invoke, st0, Roots(sorted, w.connections));
        WalkThreadsContext(sorted, w.connections, w.userId, lookup, invoke, st0, InitialContext(event));
        if |w.connections| > 0 {
          OutputFromInput(w.nodes, w.connections, sorter);
          SubsequenceDistinct(CalledNodes(EndCalls(end)), sorted);
        }
      }
    }
  }

  // ---- Execution records and the failure hook ----

  datatype ExecutionStatus = RUNNING | SUCCESS | FAILED

  /** A stored execution (the completion time is left out). */
  datatype Execution = Execution(
    workflowId: string, inngestEventId: string, status: ExecutionStatus,
    output: Option<Context>, error: Option<string>, errorStack: Option<string>)

  /** The execution table, keyed by its unique `inngestEventId`. */
  type Executions = map<string, Execution>

  const RecordNotFound := "Record to update not found"

  /** `prisma.execution.create({ data: { workflowId, inngestEventId } })`; the status starts at RUNNING. */
  function CreateRecord(store: Executions, workflowId: string, eventId: string): (r: Result<Executions, string>)
    ensures r.Ok? <==> eventId !in store
    ensures r.Ok? ==> r.value.Keys == store.Keys + {eventId} && r.value[eventId].status == RUNNING
  {
    if eventId in store then Err("Unique constraint failed on inngestEventId")
    else Ok(store[eventId := Execution(workflowId, eventId, RUNNING, None, None, None)])
  }

  /** The `update-execution` step: where `{ inngestEventId, workflowId }`, status SUCCESS and the output. */
  function CompleteRecord(store: Executions, eventId: string, workflowId: string, output: Context): (r: Result<Executions, string>)
    ensures r.Ok? <==> eventId in store && store[eventId].workflowId == workflowId
    ensures r.Ok? ==> r.value.Keys == store.Keys
    ensures r.Ok? ==> r.value[eventId].status == SUCCESS && r.value[eventId].output == Some(output)
    ensures r.Ok? ==> forall k | k in store && k != eventId :: r.value[k] == store[k]
  {
    if eventId in store && store[eventId].workflowId == workflowId then
      Ok(store[eventId := store[eventId].(status := SUCCESS, output := Some(output))])
    else Err(RecordNotFound)
  }

  /** The `onFailure` hook: where `{ inngestEventId }`, status FAILED with the error's message and stack. */
  function OnFailure(store: Executions, eventId: string, message: string, stack: Option<string>): (r: Result<Executions, string>)
    ensures r.Ok? <==> eventId in store
    ensures r.Ok? ==> r.value.Keys == store.Keys
    ensures r.Ok? ==>
      r.value[eventId] == store[eventId].(status := FAILED, error := Some(message), errorStack := stack)
    ensures r.Ok? ==> forall k | k in store && k != eventId :: r.value[k] == store[k]
  {
    if eventId in store then Ok(store[eventId := store[eventId].(status := FAILED, error := Some(message), errorStack := stack)])
    else Err(RecordNotFound)
  }

  /** Applying the failure hook twice is the same as once. */
  lemma OnFailureIdempotent(store: Executions, eventId: string, message: string, stack: Option<string>)
    requires OnFailure(store, eventId, message, stack).Ok?
    ensures OnFailure(OnFailure(store, eventId, message, stack).value, eventId, message, stack) ==
      OnFailure(store, eventId, message, stack)
  {
    var once := OnFailure(store, eventId, message, stack).value;
    assert once[eventId := once[eventId].(status := FAILED, error := Some(message), errorStack := stack)] == once;
  }

  /** The effect of a run's steps on the execution table. */
  function ApplySteps(store: Executions, steps: seq<Step>): Result<Executions, string>
    decreases |steps|
  {
    if steps == [] then Ok(store)
    else
      var next := match steps[0]
        case CreateExecution(wf, eid) => CreateRecord(store, wf, eid)
        case UpdateExecution(eid, wf, out) => CompleteRecord(store, eid, wf, out)
        case _ => Ok(store);
      match next
      case Err(m) => Err(m)
      case Ok(s) => ApplySteps(s, steps[1..])
  }

  lemma {:induction false} ApplyRunSteps(store: Executions, calls: seq<Invocation>)
    ensures ApplySteps(store, [PrepareWorkflow, FindUserId] + RunSteps(calls)) == Ok(store)
    ensures forall rest: seq<Step> :: ApplySteps(store, [PrepareWorkflow, FindUserId] + RunSteps(calls) + rest) == ApplySteps(store, rest)
  {
    var pre := [PrepareWorkflow, FindUserId] + RunSteps(calls);
    ApplyNoRecords(store, pre);
  }

  lemma {:induction false} ApplyNoRecords(store: Executions, steps: seq<Step>)
    requires forall k | 0 <= k < |steps| :: !steps[k].CreateExecution? && !steps[k].UpdateExecution?
    ensures ApplySteps(store, steps) == Ok(store)
    ensures forall rest: seq<Step> :: ApplySteps(store, steps + rest) == ApplySteps(store, rest)
  {
    if steps == [] {
      forall rest: seq<Step> ensures ApplySteps(store, steps + rest) == ApplySteps(store, rest) {
        assert steps + rest == rest;
      }
    } else {
      ApplyNoRecords(store, steps[1..]);
      forall rest: seq<Step> ensures ApplySteps(store, steps + rest) == ApplySteps(store, rest) {
        assert (steps + rest)[1..] == steps[1..] + rest;
      }
    }
  }

  /** A completed run leaves its execution SUCCESS with the final context as output. */
  lemma RunRecordsSuccess(event: Event, db: Database, sorter: Sorter, lookup: Lookup, invoke: Invoke, store: Executions)
    requires event.id !in store
    requires Run(event, db, sorter, lookup, invoke).1.Ok?
    ensures ApplySteps(store, Run(event, db, sorter, lookup, invoke).0) ==
      Ok(store[event.id := Execution(event.workflowId, event.id, SUCCESS,
                                     Some(Run(event, db, sorter, lookup, invoke).1.value.result), None, None)])
  {
    assert event.id != "" && event.workflowId != "";
    assert db(event.workflowId).Some?;
    var w := db(event.workflowId).value;
    assert SortSpec(w.nodes, w.connections, sorter).Ok?;
    var sorted := SortSpec(w.nodes, w.connections, sorter).value;
    var end := Walk(sorted, w.connections, w.userId, lookup, invoke,
                    WalkState(Roots(sorted, w.connections), InitialContext(event), []));
    assert end.Done?;
    var ctx := end.state.context;
    var tail := [PrepareWorkflow, FindUserId] + RunSteps(end.state.calls);
    var update := UpdateExecution(event.id, event.workflowId, ctx);
    var steps := [CreateExecution(event.workflowId, event.id)] + tail + [update];
    assert [CreateExecution(event.workflowId, event.id)] + [PrepareWorkflow, FindUserId] + RunSteps(end.state.calls) + [update]
      == steps;
    assert Run(event, db, sorter, lookup, invoke) == (steps, Ok(RunOutput(event.workflowId, ctx)));
    var created := store[event.id := Execution(event.workflowId, event.id, RUNNING, None, None, None)];
    assert steps[1..] == tail + [update];
    assert ApplySteps(store, steps) == ApplySteps(created, tail + [update]);
    ApplyRunSteps(created, end.state.calls);
    assert ApplySteps(created, [update]) == CompleteRecord(created, event.id, event.workflowId, ctx);
    assert created[event.id := created[event.id].(status := SUCCESS, output := Some(ctx))] ==
      store[event.id := Execution(event.workflowId, event.id, SUCCESS, Some(ctx), None, None)];
  }

  /** A run that failed after recording its execution, followed by the failure hook, leaves the
      execution FAILED with the error's message and stack. */
  lemma RunRecordsFailure(event: Event, db: Database, sorter: Sorter, lookup: Lookup, invoke: Invoke,
                          store: Executions, stack: Option<string>)
    requires event.id !in store
    requires Run(event, db, sorter, lookup, invoke).1.Err? && Run(event, db, sorter, lookup, invoke).0 != []
    ensures var (steps, result) := Run(event, db, sorter, lookup, invoke);
      && ApplySteps(store, steps).Ok?
      && OnFailure(ApplySteps(store, steps).value, event.id, result.error.message, stack) ==
           Ok(store[event.id := Execution(event.workflowId, event.id, FAILED, None, Some(result.error.message), stack)])
  {
    var (steps, result) := Run(event, db, sorter, lookup, invoke);
    FailedRunLeavesCreated(event, db, sorter, lookup, invoke, store);
    var created := store[event.id := Execution(event.workflowId, event.id, RUNNING, None, None, None)];
    var m := result.error.message;
    assert created[event.id := created[event.id].(status := FAILED, error := Some(m), errorStack := stack)] ==
      store[event.id := Execution(event.workflowId, event.id, FAILED, None, Some(m), stack)];
  }

  /** A failed run that got as far as recording its execution leaves that record RUNNING. */
  lemma FailedRunLeavesCreated(event: Event, db: Database, sorter: Sorter, lookup: Lookup, invoke: Invoke,
                               store: Executions)
    requires event.id !in store
    requires Run(event, db, sorter, lookup, invoke).1.Err? && Run(event, db, sorter, lookup, invoke).0 != []
    ensures ApplySteps(store, Run(event, db, sorter, lookup, invoke).0) ==
      Ok(store[event.id := Execution(event.workflowId, event.id, RUNNING, None, None, None)])
  {
    var steps := Run(event, db, sorter, lookup, invoke).0;
    var first := [CreateExecution(event.workflowId, event.id)];
    var created := store[event.id := Execution(event.workflowId, event.id, RUNNING, None, None, None)];
    assert event.id != "" && event.workflowId != "";
    assert ApplySteps(store, first) == Ok(created) by {
      assert first[1..] == [];
    }
    match db(event.workflowId)
    case None =>
      assert steps == first;
    case Some(w) =>
      match SortSpec(w.nodes, w.connections, sorter)
      case Err(_) =>
        assert steps == first;
      case Ok(sorted) =>
        var end := Walk(sorted, w.connections, w.userId, lookup, invoke,
                        WalkState(Roots(sorted, w.connections), InitialContext(event), []));
        assert end.Failed?;
        var rest := [PrepareWorkflow, FindUserId] + RunSteps(end.calls);
        assert steps == first + rest;
        assert (first + rest)[0] == CreateExecution(event.workflowId, event.id);
        assert (first + rest)[1..] == rest;
        ApplyRunSteps(created, end.calls);
  }

  /** The branch the orchestrator takes after a condition node is the one its evaluation chose. */
  lemma BranchFollowsCondition(data: Value, nodeId: string, context: Context, render: (string, Context) -> string,
                               parseFloat: ConditionExecutor.ParseFloat)
    requires ConditionExecutor.Execute(data, nodeId, context, render, parseFloat).result.Ok?
    ensures var ctx := ConditionExecutor.Execute(data, nodeId, context, render, parseFloat).result.value;
      var left := render(Field(data, "leftOperand"), context);
      var rt := Field(data, "rightOperand");
      var right := if rt != "" then Some(render(rt, context)) else None;
      ConditionPort(ctx) ==
        if ConditionExecutor.Evaluate(Field(data, "operator"), left, right, parseFloat) then "source-true" else "source-false"
  {
  }
}
