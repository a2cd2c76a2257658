/**
 * The graph helpers of the execution engine.
 *
 * `topologicalSort` orders a workflow's nodes from its connections. The sort
 * itself is done by the `toposort` package, which is a parameter here
 * (`Sorter`); `TopologicalOrder` is the contract the package is expected to
 * meet, and the ordering theorems assume it.
 */
module InngestUtils {
  import opened Wrappers
  import opened Json
  import opened Graph

  /** A `[from, to]` pair handed to the sorter. */
  type Edge = (string, string)

  /** The sorting package: vertex ids in order, or the message of the error it throws. */
  type Sorter = seq<Edge> -> Result<seq<string>, string>

  const CycleMessage := "Workflow contains a cycle"

  /** `connections.map(conn => [conn.fromNodeId, conn.toNodeId])`. */
  function ConnectionEdges(conns: seq<Connection>): (edges: seq<Edge>)
    ensures |edges| == |conns|
    ensures forall k | 0 <= k < |conns| :: edges[k] == (conns[k].fromNodeId, conns[k].toNodeId)
  {
    seq(|conns|, k requires 0 <= k < |conns| => (conns[k].fromNodeId, conns[k].toNodeId))
  }

  /** Every id that is an endpoint of some connection (`connectedNodeIds`). */
  function Endpoints(conns: seq<Connection>): set<string> {
    if conns == [] then {}
    else Endpoints(conns[..|conns| - 1]) + {conns[|conns| - 1].fromNodeId, conns[|conns| - 1].toNodeId}
  }

  /** A self-edge `[id, id]` for each node, in node order, that is no connection's endpoint. */
  function SelfEdges(nodes: seq<Node>, connected: set<string>): seq<Edge> {
    if nodes == [] then []
    else
      var last := nodes[|nodes| - 1];
      SelfEdges(nodes[..|nodes| - 1], connected) + (if last.id !in connected then [(last.id, last.id)] else [])
  }

  /** The edge list the sorter receives. */
  function SortInput(nodes: seq<Node>, conns: seq<Connection>): seq<Edge> {
    ConnectionEdges(conns) + SelfEdges(nodes, Endpoints(conns))
  }

  /** Index of the first occurrence of `x`. */
  function FirstIndex<T(==)>(xs: seq<T>, x: T): (i: nat)
    requires x in xs
    ensures i < |xs| && xs[i] == x
    ensures forall k | 0 <= k < i :: xs[k] != x
  {
    if xs[0] == x then 0 else 1 + FirstIndex(xs[1..], x)
  }

  /** `[...new Set(xs)]`: the first occurrence of each element, in order. */
  function Dedup(xs: seq<string>): seq<string> {
    if xs == [] then []
    else
      var d := Dedup(xs[..|xs| - 1]);
      if xs[|xs| - 1] in d then d else d + [xs[|xs| - 1]]
  }

  /** The elements of `xs` that belong to `s`, in order. */
  function KeepIn(xs: seq<string>, s: set<string>): seq<string> {
    if xs == [] then [] else (if xs[0] in s then [xs[0]] else []) + KeepIn(xs[1..], s)
  }

  /** `new Map(nodes.map(n => [n.id, n])).get(id)`: a later node with the same id wins. */
  function NodeById(nodes: seq<Node>, id: string): (r: Option<Node>)
    ensures r.None? <==> id !in NodeIds(nodes)
    ensures r.Some? ==> r.value in nodes && r.value.id == id
  {
    if nodes == [] then None
    else if nodes[|nodes| - 1].id == id then Some(nodes[|nodes| - 1])
    else
      var r := NodeById(nodes[..|nodes| - 1], id);
      assert NodeIds(nodes) == NodeIds(nodes[..|nodes| - 1]) + {nodes[|nodes| - 1].id} by {
        assert nodes == nodes[..|nodes| - 1] + [nodes[|nodes| - 1]];
      }
      r
  }

  /** `sortedNodeIds.map(id => nodeMap.get(id)!).filter(Boolean)`. */
  function MapToNodes(ids: seq<string>, nodes: seq<Node>): (r: seq<Node>)
    ensures IdSeq(r) == KeepIn(ids, NodeIds(nodes))
    ensures forall n | n in r :: n in nodes
  {
    if ids == [] then []
    else
      var rest := MapToNodes(ids[1..], nodes);
      match NodeById(nodes, ids[0])
      case None => rest
      case Some(n) =>
        IdSeqCons(n, rest);
        [n] + rest
  }

  lemma IdSeqCons(n: Node, rest: seq<Node>)
    ensures IdSeq([n] + rest) == [n.id] + IdSeq(rest)
  {
  }

  /** What `topologicalSort` returns or throws, as a function of its inputs and the sorter. */
  function SortSpec(nodes: seq<Node>, conns: seq<Connection>, sorter: Sorter): Result<seq<Node>, string> {
    if |conns| == 0 then Ok(nodes)
    else
      match sorter(SortInput(nodes, conns))
      case Err(m) => Err(if Contains(m, "Cyclic") then CycleMessage else m)
      case Ok(ids) => Ok(MapToNodes(Dedup(ids), nodes))
  }

  /** The contract of the sorting package: every vertex is listed, and every edge's source
      precedes its target (self-edges only ask that the vertex be listed). */
  predicate TopologicalOrder(edges: seq<Edge>, ids: seq<string>) {
    forall e | e in edges ::
      e.0 in ids && e.1 in ids && (e.0 != e.1 ==> FirstIndex(ids, e.0) < FirstIndex(ids, e.1))
  }

  method TopologicalSort(nodes: seq<Node>, connections: seq<Connection>, sorter: Sorter)
    returns (r: Result<seq<Node>, string>)
    ensures r == SortSpec(nodes, connections, sorter)
    ensures |connections| == 0 ==> r == Ok(nodes)
    ensures r.Ok? ==> forall n | n in r.value :: n in nodes
    ensures r.Ok? && |connections| > 0 ==> Distinct(IdSeq(r.value))
    ensures |connections| > 0 ==> (r.Err? <==> sorter(SortInput(nodes, connections)).Err?)
    ensures |connections| > 0 && r.Err? ==>
      var m := sorter(SortInput(nodes, connections)).error;
      r.error == if Contains(m, "Cyclic") then CycleMessage else m
  {
    if |connections| == 0 {
      return Ok(nodes);
    }
    var edges := ConnectionEdges(connections);

    var connected: set<string> := {};
    var i := 0;
    while i < |connections|
      invariant 0 <= i <= |connections|
      invariant connected == Endpoints(connections[..i])
    {
      assert connections[..i + 1][..i] == connections[..i];
      connected := connected + {connections[i].fromNodeId, connections[i].toNodeId};
      i := i + 1;
    }
    assert connections[..i] == connections;

    var j := 0;
    while j < |nodes|
      invariant 0 <= j <= |nodes|
      invariant edges == ConnectionEdges(connections) + SelfEdges(nodes[..j], connected)
    {
      assert nodes[..j + 1][..j] == nodes[..j];
      if nodes[j].id !in connected {
        edges := edges + [(nodes[j].id, nodes[j].id)];
      }
      j := j + 1;
    }
    assert nodes[..j] == nodes;

    match sorter(edges)
    case Err(m) =>
      if Contains(m, "Cyclic") {
        r := Err(CycleMessage);
      } else {
        r := Err(m);
      }
    case Ok(ids) =>
      var sortedIds := Dedup(ids);
      DedupDistinct(ids);
      KeepInDistinct(sortedIds, NodeIds(nodes));
      r := Ok(MapToNodes(sortedIds, nodes));
  }

  // ---- Lemmas about the edge list ----

  lemma {:induction false} EndpointsMembers(conns: seq<Connection>, x: string)
    ensures x in Endpoints(conns) <==> exists c | c in conns :: x == c.fromNodeId || x == c.toNodeId
  {
    if conns != [] {
      var p := conns[..|conns| - 1];
      EndpointsMembers(p, x);
      assert conns == p + [conns[|conns| - 1]];
      if x in Endpoints(p) {
        var c :| c in p && (x == c.fromNodeId || x == c.toNodeId);
        assert c in conns;
      }
    }
  }

  lemma {:induction false} SelfEdgesMembers(nodes: seq<Node>, connected: set<string>, e: Edge)
    ensures e in SelfEdges(nodes, connected) <==>
      e.0 == e.1 && e.0 !in connected && e.0 in NodeIds(nodes)
  {
    if nodes != [] {
      var p := nodes[..|nodes| - 1];
      SelfEdgesMembers(p, connected, e);
      assert nodes == p + [nodes[|nodes| - 1]];
      assert NodeIds(nodes) == NodeIds(p) + {nodes[|nodes| - 1].id};
    }
  }

  /** Each node that is an endpoint of no connection is still a vertex of the sort input,
      through its self-edge; and every self-edge belongs to such a node. */
  lemma SelfEdgeForIsolated(nodes: seq<Node>, conns: seq<Connection>, n: Node)
    requires n in nodes
    requires forall c | c in conns :: c.fromNodeId != n.id && c.toNodeId != n.id
    ensures (n.id, n.id) in SortInput(nodes, conns)
  {
    EndpointsMembers(conns, n.id);
    SelfEdgesMembers(nodes, Endpoints(conns), (n.id, n.id));
  }

  /** Every vertex of the sort input is either a node or an endpoint of a connection. */
  lemma SortInputVertices(nodes: seq<Node>, conns: seq<Connection>, e: Edge)
    requires e in SortInput(nodes, conns)
    ensures (e.0 in NodeIds(nodes) && e.0 == e.1) || exists c | c in conns :: e == (c.fromNodeId, c.toNodeId)
  {
    var ce := ConnectionEdges(conns);
    if e in ce {
      var k :| 0 <= k < |ce| && ce[k] == e;
      assert conns[k] in conns;
    } else {
      SelfEdgesMembers(nodes, Endpoints(conns), e);
    }
  }

  // ---- Lemmas about deduplication and filtering ----

  lemma {:induction false} DedupMembers(xs: seq<string>, x: string)
    ensures x in Dedup(xs) <==> x in xs
  {
    if xs != [] {
      var p := xs[..|xs| - 1];
      DedupMembers(p, x);
      assert xs == p + [xs[|xs| - 1]];
    }
  }

  lemma {:induction false} DedupDistinct(xs: seq<string>)
    ensures Distinct(Dedup(xs))
  {
    if xs != [] {
      DedupDistinct(xs[..|xs| - 1]);
    }
  }

  lemma {:induction false} FirstIndexSnoc(p: seq<string>, z: string, a: string)
    requires a in p
    ensures FirstIndex(p + [z], a) == FirstIndex(p, a)
  {
    if p[0] != a {
      assert (p + [z])[1..] == p[1..] + [z];
      FirstIndexSnoc(p[1..], z, a);
    }
  }

  /** Deduplication keeps the relative order of first occurrences. */
  lemma {:induction false} DedupKeepsOrder(xs: seq<string>, a: string, b: string)
    requires a in xs && b in xs
    requires FirstIndex(xs, a) < FirstIndex(xs, b)
    ensures a in Dedup(xs) && b in Dedup(xs)
    ensures FirstIndex(Dedup(xs), a) < FirstIndex(Dedup(xs), b)
  {
    DedupMembers(xs, a);
    DedupMembers(xs, b);
    var p := xs[..|xs| - 1];
    var z := xs[|xs| - 1];
    assert xs == p + [z];
    var d := Dedup(p);
    if b in p {
      assert a in p;
      FirstIndexSnoc(p, z, a);
      FirstIndexSnoc(p, z, b);
      DedupKeepsOrder(p, a, b);
      if z !in d {
        FirstIndexSnoc(d, z, a);
        FirstIndexSnoc(d, z, b);
      }
    } else {
      // b is the last element and occurs nowhere earlier
      assert b == z;
      DedupMembers(p, b);
      assert a in p;
      DedupMembers(p, a);
      assert Dedup(xs) == d + [z];
      FirstIndexSnoc(d, z, a);
      assert FirstIndex(d + [z], z) == |d|;
    }
  }

  lemma {:induction false} KeepInMembers(xs: seq<string>, s: set<string>, x: string)
    ensures x in KeepIn(xs, s) <==> x in xs && x in s
  {
    if xs != [] {
      KeepInMembers(xs[1..], s, x);
      assert xs == [xs[0]] + xs[1..];
    }
  }

  lemma {:induction false} KeepInDistinct(xs: seq<string>, s: set<string>)
    requires Distinct(xs)
    ensures Distinct(KeepIn(xs, s))
  {
    if xs != [] {
      KeepInDistinct(xs[1..], s);
      KeepInMembers(xs[1..], s, xs[0]);
    }
  }

  /** Filtering keeps the relative order of the elements it keeps. */
  lemma {:induction false} KeepInKeepsOrder(xs: seq<string>, s: set<string>, a: string, b: string)
    requires a in xs && b in xs && a in s && b in s
    requires FirstIndex(xs, a) < FirstIndex(xs, b)
    ensures a in KeepIn(xs, s) && b in KeepIn(xs, s)
    ensures FirstIndex(KeepIn(xs, s), a) < FirstIndex(KeepIn(xs, s), b)
  {
    KeepInMembers(xs, s, a);
    KeepInMembers(xs, s, b);
    var k := KeepIn(xs, s);
    if xs[0] == a {
      assert k[0] == a;
    } else {
      assert xs[0] != b;
      KeepInKeepsOrder(xs[1..], s, a, b);
      KeepInMembers(xs[1..], s, a);
      if xs[0] in s {
        assert k == [xs[0]] + KeepIn(xs[1..], s);
      } else {
        assert k == KeepIn(xs[1..], s);
      }
    }
  }

  // ---- What topologicalSort promises ----

  /** With zero connections the stored node order is returned unchanged. */
  lemma NoConnectionsKeepsOrder(nodes: seq<Node>, sorter: Sorter)
    ensures SortSpec(nodes, [], sorter) == Ok(nodes)
  {
  }

  /** Only input nodes are returned; ids with no node are dropped; no id repeats. */
  lemma {:induction false} OutputFromInput(nodes: seq<Node>, conns: seq<Connection>, sorter: Sorter)
    requires |conns| > 0
    requires SortSpec(nodes, conns, sorter).Ok?
    ensures var out := SortSpec(nodes, conns, sorter).value;
      && (forall n | n in out :: n in nodes)
      && Distinct(IdSeq(out))
      && (forall id | id in IdSeq(out) :: id in NodeIds(nodes) && id in sorter(SortInput(nodes, conns)).value)
  {
    var ids := sorter(SortInput(nodes, conns)).value;
    var out := SortSpec(nodes, conns, sorter).value;
    DedupDistinct(ids);
    KeepInDistinct(Dedup(ids), NodeIds(nodes));
    forall id | id in IdSeq(out) ensures id in NodeIds(nodes) && id in ids {
      KeepInMembers(Dedup(ids), NodeIds(nodes), id);
      DedupMembers(ids, id);
    }
  }

  /** Given a sorter that lists every vertex, every node of the workflow is in the output:
      the self-edges are what keep isolated nodes in the order. */
  lemma EveryNodeSorted(nodes: seq<Node>, conns: seq<Connection>, sorter: Sorter)
    requires |conns| > 0
    requires sorter(SortInput(nodes, conns)).Ok?
    requires TopologicalOrder(SortInput(nodes, conns), sorter(SortInput(nodes, conns)).value)
    ensures SortSpec(nodes, conns, sorter).Ok?
    ensures forall n | n in nodes :: n.id in IdSeq(SortSpec(nodes, conns, sorter).value)
  {
    var edges := SortInput(nodes, conns);
    var ids := sorter(edges).value;
    forall n | n in nodes ensures n.id in IdSeq(SortSpec(nodes, conns, sorter).value) {
      EndpointsMembers(conns, n.id);
      if n.id in Endpoints(conns) {
        var c :| c in conns && (n.id == c.fromNodeId || n.id == c.toNodeId);
        var k :| 0 <= k < |conns| && conns[k] == c;
        assert ConnectionEdges(conns)[k] in edges;
      } else {
        SelfEdgesMembers(nodes, Endpoints(conns), (n.id, n.id));
        assert (n.id, n.id) in edges;
      }
      assert n.id in ids;
      DedupMembers(ids, n.id);
      KeepInMembers(Dedup(ids), NodeIds(nodes), n.id);
    }
  }

  /** Given a sorter that orders the connections' own edges (nothing is asked of the self-edges),
      every connection between two distinct nodes of the workflow has its source node before its
      target node in the output. */
  lemma ConnectionsRespected(nodes: seq<Node>, conns: seq<Connection>, sorter: Sorter, c: Connection)
    requires |conns| > 0
    requires sorter(SortInput(nodes, conns)).Ok?
    requires TopologicalOrder(ConnectionEdges(conns), sorter(SortInput(nodes, conns)).value)
    requires c in conns && c.fromNodeId != c.toNodeId
    requires c.fromNodeId in NodeIds(nodes) && c.toNodeId in NodeIds(nodes)
    ensures SortSpec(nodes, conns, sorter).Ok?
    ensures var out := IdSeq(SortSpec(nodes, conns, sorter).value);
      c.fromNodeId in out && c.toNodeId in out && FirstIndex(out, c.fromNodeId) < FirstIndex(out, c.toNodeId)
  {
    var edges := SortInput(nodes, conns);
    var ids := sorter(edges).value;
    var k :| 0 <= k < |conns| && conns[k] == c;
    assert ConnectionEdges(conns)[k] in ConnectionEdges(conns);
    DedupKeepsOrder(ids, c.fromNodeId, c.toNodeId);
    KeepInKeepsOrder(Dedup(ids), NodeIds(nodes), c.fromNodeId, c.toNodeId);
  }

  // ---- buildAdjacencyMap ----

  /** `fromNodeId -> fromOutput -> [toNodeId]`. */
  type Adjacency = map<string, map<string, seq<string>>>

  /** The source ids of the connections. */
  function FromIds(conns: seq<Connection>): set<string> {
    if conns == [] then {} else FromIds(conns[..|conns| - 1]) + {conns[|conns| - 1].fromNodeId}
  }

  /** The output ports used by connections leaving `from`. */
  function PortsOf(conns: seq<Connection>, from: string): set<string> {
    if conns == [] then {}
    else
      var c := conns[|conns| - 1];
      PortsOf(conns[..|conns| - 1], from) + (if c.fromNodeId == from then {c.fromOutput} else {})
  }

  /** The targets of the connections leaving `from` on `port`, in input order, duplicates kept. */
  function Targets(conns: seq<Connection>, from: string, port: string): seq<string> {
    if conns == [] then []
    else
      var c := conns[|conns| - 1];
      Targets(conns[..|conns| - 1], from, port) + (if c.fromNodeId == from && c.fromOutput == port then [c.toNodeId] else [])
  }

  /** `adjacency` is exactly the map the connections `conns` describe. */
  predicate Represents(adjacency: Adjacency, conns: seq<Connection>) {
    && adjacency.Keys == FromIds(conns)
    && (forall from | from in adjacency :: adjacency[from].Keys == PortsOf(conns, from))
    && (forall from, port | from in adjacency && port in adjacency[from] ::
          adjacency[from][port] == Targets(conns, from, port))
  }

  method BuildAdjacencyMap(connections: seq<Connection>) returns (adjacency: Adjacency)
    ensures Represents(adjacency, connections)
    ensures forall c | c in connections ::
      c.fromNodeId in adjacency && c.fromOutput in adjacency[c.fromNodeId] &&
      c.toNodeId in adjacency[c.fromNodeId][c.fromOutput]
  {
    adjacency := map[];
    var i := 0;
    while i < |connections|
      invariant 0 <= i <= |connections|
      invariant Represents(adjacency, connections[..i])
    {
      ghost var before := adjacency;
      adjacency := AddConnection(adjacency, connections[i]);
      assert connections[..i + 1] == connections[..i] + [connections[i]];
      PushStep(before, connections[..i], connections[i], adjacency);
      i := i + 1;
    }
    assert connections[..i] == connections;
    AdjacencyHasEveryConnection(adjacency, connections);
  }

  /** `adjacency` with `c.toNodeId` pushed onto the list of `c`'s source and port. */
  function Pushed(adjacency: Adjacency, c: Connection): Adjacency {
    var outs := if c.fromNodeId in adjacency then adjacency[c.fromNodeId] else map[];
    var list := if c.fromOutput in outs then outs[c.fromOutput] else [];
    adjacency[c.fromNodeId := outs[c.fromOutput := list + [c.toNodeId]]]
  }

  /** One pass of the loop body: create the source's map and the port's list when missing, then push. */
  method AddConnection(adjacency: Adjacency, conn: Connection) returns (after: Adjacency)
    ensures after == Pushed(adjacency, conn)
  {
    after := adjacency;
    if conn.fromNodeId !in after {
      after := after[conn.fromNodeId := map[]];
    }
    var nodeOutputs := after[conn.fromNodeId];
    ghost var outs := nodeOutputs;
    assert outs == if conn.fromNodeId in adjacency then adjacency[conn.fromNodeId] else map[];
    ghost var list := if conn.fromOutput in outs then outs[conn.fromOutput] else [];
    if conn.fromOutput !in nodeOutputs {
      nodeOutputs := nodeOutputs[conn.fromOutput := []];
    }
    assert nodeOutputs[conn.fromOutput] == list;
    assert nodeOutputs[conn.fromOutput := list + [conn.toNodeId]] == outs[conn.fromOutput := list + [conn.toNodeId]];
    after := after[conn.fromNodeId := nodeOutputs[conn.fromOutput := nodeOutputs[conn.fromOutput] + [conn.toNodeId]]];
  }

  lemma AdjacencyHasEveryConnection(adjacency: Adjacency, connections: seq<Connection>)
    requires Represents(adjacency, connections)
    ensures forall c | c in connections ::
      c.fromNodeId in adjacency && c.fromOutput in adjacency[c.fromNodeId] &&
      c.toNodeId in adjacency[c.fromNodeId][c.fromOutput]
  {
    forall c | c in connections
      ensures c.fromNodeId in adjacency && c.fromOutput in adjacency[c.fromNodeId]
      ensures c.toNodeId in adjacency[c.fromNodeId][c.fromOutput]
    {
      TargetsMembers(connections, c);
    }
  }

  /** One iteration of the loop: pushing `c.toNodeId` onto its port keeps the map exact. */
  lemma PushStep(before: Adjacency, conns: seq<Connection>, c: Connection, after: Adjacency)
    requires Represents(before, conns)
    requires after == Pushed(before, c)
    ensures Represents(after, conns + [c])
  {
    var all := conns + [c];
    assert all[..|all| - 1] == conns;
    assert FromIds(all) == FromIds(conns) + {c.fromNodeId};
    forall from | from in after ensures after[from].Keys == PortsOf(all, from) {
      assert PortsOf(all, from) == PortsOf(conns, from) + (if c.fromNodeId == from then {c.fromOutput} else {});
      if from == c.fromNodeId && from !in before {
        assert PortsOf(conns, from) == {} by { PortsEmpty(conns, from); }
      }
    }
    forall from, port | from in after && port in after[from]
      ensures after[from][port] == Targets(all, from, port)
    {
      assert Targets(all, from, port) == Targets(conns, from, port) +
        (if c.fromNodeId == from && c.fromOutput == port then [c.toNodeId] else []);
      if from == c.fromNodeId && port == c.fromOutput && (from !in before || port !in before[from]) {
        TargetsEmpty(conns, from, port);
      }
    }
  }

  lemma {:induction false} PortsEmpty(conns: seq<Connection>, from: string)
    requires from !in FromIds(conns)
    ensures PortsOf(conns, from) == {}
  {
    if conns != [] {
      PortsEmpty(conns[..|conns| - 1], from);
    }
  }

  lemma {:induction false} TargetsEmpty(conns: seq<Connection>, from: string, port: string)
    requires from !in FromIds(conns) || port !in PortsOf(conns, from)
    ensures Targets(conns, from, port) == []
  {
    if conns != [] {
      TargetsEmpty(conns[..|conns| - 1], from, port);
    }
  }

  /** Each connection's target lies on its own port; hence that port and its source exist. */
  lemma {:induction false} TargetsMembers(conns: seq<Connection>, c: Connection)
    requires c in conns
    ensures c.toNodeId in Targets(conns, c.fromNodeId, c.fromOutput)
    ensures c.fromNodeId in FromIds(conns) && c.fromOutput in PortsOf(conns, c.fromNodeId)
  {
    var p := conns[..|conns| - 1];
    assert conns == p + [conns[|conns| - 1]];
    if c != conns[|conns| - 1] {
      TargetsMembers(p, c);
    }
  }

  /** No key without a connection: every source key, every port and every listed target comes
      from some connection. */
  lemma {:induction false} AdjacencyFromConnections(conns: seq<Connection>, from: string, port: string, to: string)
    ensures from in FromIds(conns) ==> exists c | c in conns :: c.fromNodeId == from
    ensures port in PortsOf(conns, from) ==> exists c | c in conns :: c.fromNodeId == from && c.fromOutput == port
    ensures to in Targets(conns, from, port) ==>
      exists c | c in conns :: c == Connection(from, to, port)
  {
    if conns != [] {
      var p := conns[..|conns| - 1];
      var last := conns[|conns| - 1];
      assert conns == p + [last];
      AdjacencyFromConnections(p, from, port, to);
      assert last in conns;
      if from in FromIds(p) { var c :| c in p && c.fromNodeId == from; assert c in conns; }
      if port in PortsOf(p, from) { var c :| c in p && c.fromNodeId == from && c.fromOutput == port; assert c in conns; }
      if to in Targets(p, from, port) { var c :| c in p && c == Connection(from, to, port); assert c in conns; }
    }
  }

  /** A port list holds one entry per matching connection: duplicates are kept. */
  lemma {:induction false} TargetsCount(conns: seq<Connection>, from: string, port: string)
    ensures |Targets(conns, from, port)| == |set k | 0 <= k < |conns| && conns[k].fromNodeId == from && conns[k].fromOutput == port|
  {
    var s := set k | 0 <= k < |conns| && conns[k].fromNodeId == from && conns[k].fromOutput == port;
    if conns != [] {
      var n := |conns| - 1;
      var p := conns[..n];
      TargetsCount(p, from, port);
      var s' := set k | 0 <= k < |p| && p[k].fromNodeId == from && p[k].fromOutput == port;
      assert forall k | 0 <= k < n :: p[k] == conns[k];
      if conns[n].fromNodeId == from && conns[n].fromOutput == port {
        assert s == s' + {n};
        assert n !in s';
      } else {
        assert s == s';
      }
    }
  }
}
