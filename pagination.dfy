/**
 * The executions router: the paginated execution list (`getMany`) and the
 * single execution with its node executions (`getOne`). The database is a
 * table of rows; the model computes what the two Prisma queries select.
 */
module Pagination {
  import opened Wrappers

  const DefaultPage := 1
  const DefaultPageSize := 5
  const MaxPageSize := 100
  const MinPageSize := 1

  /** The raw `getMany` input: absent fields take their defaults. */
  datatype Input = Input(page: Option<int>, pageSize: Option<int>, workflowId: Option<string>)

  /** The validated input. The page number is not range-checked by the schema. */
  datatype Params = Params(page: int, pageSize: int, workflowId: Option<string>)

  /** The bound of the page-size schema that an input breaks. */
  datatype InputError = PageSizeTooSmall | PageSizeTooLarge

  /** The input schema: defaults first, then the `[1, 100]` bound on the page size. */
  function ParseInput(input: Input): (r: Result<Params, InputError>)
    ensures r.Ok? <==> input.pageSize.None? || MinPageSize <= input.pageSize.value <= MaxPageSize
    ensures r.Ok? ==> r.value.page == input.page.GetOr(DefaultPage)
    ensures r.Ok? ==> r.value.pageSize == input.pageSize.GetOr(DefaultPageSize)
    ensures r.Ok? ==> r.value.workflowId == input.workflowId
    ensures r == Err(PageSizeTooSmall) <==> input.pageSize.Some? && input.pageSize.value < MinPageSize
    ensures r == Err(PageSizeTooLarge) <==> input.pageSize.Some? && input.pageSize.value > MaxPageSize
  {
    var size := input.pageSize.GetOr(DefaultPageSize);
    if size < MinPageSize then Err(PageSizeTooSmall)
    else if size > MaxPageSize then Err(PageSizeTooLarge)
    else Ok(Params(input.page.GetOr(DefaultPage), size, input.workflowId))
  }

  /** A stored execution, reduced to what the queries look at. */
  datatype Execution = Execution(id: string, workflowId: string, ownerId: string, startedAt: int)

  /** A stored node execution of one execution. */
  datatype NodeExecution = NodeExecution(executionId: string, nodeId: string, startedAt: int)

  /** The `where` object: the owner filter, and a workflow filter only for a non-empty id. */
  datatype Where = Where(userId: string, workflowId: Option<string>)

  function WhereFor(userId: string, workflowId: Option<string>): (w: Where)
    ensures w.userId == userId
    ensures w.workflowId.Some? <==> workflowId.Some? && workflowId.value != ""
    ensures w.workflowId.Some? ==> w.workflowId == workflowId
  {
    if workflowId.Some? && workflowId.value != "" then Where(userId, workflowId) else Where(userId, None)
  }

  predicate Matches(w: Where, e: Execution) {
    e.ownerId == w.userId && (w.workflowId.Some? ==> e.workflowId == w.workflowId.value)
  }

  /** `a` may come before `b`: newest first, or oldest first. */
  predicate Before(a: int, b: int, newestFirst: bool) {
    if newestFirst then a >= b else a <= b
  }

  predicate SortedBy<T>(s: seq<T>, key: T -> int, newestFirst: bool) {
    forall i, j | 0 <= i < j < |s| :: Before(key(s[i]), key(s[j]), newestFirst)
  }

  function Insert<T>(x: T, s: seq<T>, key: T -> int, newestFirst: bool): (r: seq<T>)
    requires SortedBy(s, key, newestFirst)
    ensures SortedBy(r, key, newestFirst)
    ensures multiset(r) == multiset(s) + multiset{x}
    ensures forall y | y in r :: y == x || y in s
  {
    if s == [] then [x]
    else if Before(key(x), key(s[0]), newestFirst) then [x] + s
    else
      var rest := Insert(x, s[1..], key, newestFirst);
      assert s == [s[0]] + s[1..];
      assert forall y | y in rest :: Before(key(s[0]), key(y), newestFirst);
      [s[0]] + rest
  }

  /** `orderBy: { startedAt }`: the same rows, ordered by the key. Ties keep no promised order. */
  function Ordered<T>(s: seq<T>, key: T -> int, newestFirst: bool): (r: seq<T>)
    ensures SortedBy(r, key, newestFirst)
    ensures multiset(r) == multiset(s)
  {
    if s == [] then []
    else
      assert s == [s[0]] + s[1..];
      Insert(s[0], Ordered(s[1..], key, newestFirst), key, newestFirst)
  }

  /** The rows a `where` selects, in table order. */
  function Filter(table: seq<Execution>, w: Where): (r: seq<Execution>)
    ensures forall e :: multiset(r)[e] == if Matches(w, e) then multiset(table)[e] else 0
  {
    if table == [] then []
    else
      assert table == [table[0]] + table[1..];
      (if Matches(w, table[0]) then [table[0]] else []) + Filter(table[1..], w)
  }

  function StartedAt(e: Execution): int { e.startedAt }

  /**
   * `skip`/`take`: up to `take` rows after the first `skip`. A negative skip,
   * which a page number below 1 produces, is refused by the database (None).
   */
  function Window<T>(s: seq<T>, skip: int, take: nat): (r: Option<seq<T>>)
    ensures r.None? <==> skip < 0
    ensures r.Some? ==> |r.value| == if skip >= |s| then 0 else Min(take, |s| - skip)
    ensures r.Some? ==> forall i | 0 <= i < |r.value| :: r.value[i] == s[skip + i]
  {
    if skip < 0 then None
    else if skip >= |s| then Some([])
    else Some(s[skip..skip + Min(take, |s| - skip)])
  }

  function Min(a: int, b: int): int { if a <= b then a else b }

  /** `Math.ceil(totalCount / pageSize)`. */
  function CeilDiv(total: nat, size: nat): (r: nat)
    requires size >= 1
    ensures r * size >= total
    ensures r == 0 || (r - 1) * size < total
  {
    (total + size - 1) / size
  }

  datatype PageInfo = PageInfo(
    page: int, pageSize: int, totalCount: nat, totalPages: nat, hasNextPage: bool, hasPreviousPage: bool)

  /** The page arithmetic returned next to the items. */
  function Summary(page: int, pageSize: int, totalCount: nat): (r: PageInfo)
    requires pageSize >= MinPageSize
    ensures r.totalPages * pageSize >= totalCount
    ensures r.totalPages == 0 || (r.totalPages - 1) * pageSize < totalCount
    ensures r.hasNextPage <==> page < r.totalPages
    ensures r.hasPreviousPage <==> page > 1
    ensures (r.page, r.pageSize, r.totalCount) == (page, pageSize, totalCount)
  {
    var totalPages := CeilDiv(totalCount, pageSize);
    PageInfo(page, pageSize, totalCount, totalPages, page < totalPages, page > 1)
  }

  datatype ListError = BadInput(input: InputError) | BadSkip

  datatype Listing = Listing(items: seq<Execution>, info: PageInfo)

  /** `getMany` against the execution table, for the signed-in user. */
  function GetMany(userId: string, input: Input, table: seq<Execution>): (r: Result<Listing, ListError>)
    ensures ParseInput(input).Err? ==> r == Err(BadInput(ParseInput(input).error))
    ensures ParseInput(input).Ok? ==>
      var p := ParseInput(input).value;
      (r.Err? <==> p.page < 1) &&
      (r.Ok? ==> r.value.info.totalCount == |Filter(table, WhereFor(userId, p.workflowId))|)
  {
    match ParseInput(input)
    case Err(e) => Err(BadInput(e))
    case Ok(p) =>
      var w := WhereFor(userId, p.workflowId);
      var matched := Filter(table, w);
      match Window(Ordered(matched, StartedAt, true), (p.page - 1) * p.pageSize, p.pageSize)
      case None => Err(BadSkip)
      case Some(items) => Ok(Listing(items, Summary(p.page, p.pageSize, |matched|)))
  }

  /** A window keeps the order of the rows it was cut from and draws only from them. */
  lemma WindowOfSorted<T>(s: seq<T>, skip: int, take: nat, key: T -> int, newestFirst: bool)
    requires skip >= 0 && SortedBy(s, key, newestFirst)
    ensures SortedBy(Window(s, skip, take).value, key, newestFirst)
    ensures forall x | x in Window(s, skip, take).value :: x in s
  {
  }

  /** Every listed execution is one of the user's, of the requested workflow, newest first, at most a page. */
  lemma ListedItems(userId: string, input: Input, table: seq<Execution>)
    requires GetMany(userId, input, table).Ok?
    ensures var l := GetMany(userId, input, table).value;
      |l.items| <= l.info.pageSize &&
      SortedBy(l.items, StartedAt, true) &&
      forall e | e in l.items :: e in table && e.ownerId == userId &&
        (input.workflowId.Some? && input.workflowId.value != "" ==> e.workflowId == input.workflowId.value)
  {
    var p := ParseInput(input).value;
    var w := WhereFor(userId, p.workflowId);
    var matched := Filter(table, w);
    var ordered := Ordered(matched, StartedAt, true);
    var skip := (p.page - 1) * p.pageSize;
    var items := Window(ordered, skip, p.pageSize).value;
    assert GetMany(userId, input, table).value.items == items;
    WindowOfSorted(ordered, skip, p.pageSize, StartedAt, true);
    forall e | e in items
      ensures e in table && Matches(w, e)
    {
      assert e in multiset(ordered);
      assert multiset(matched)[e] > 0;
    }
  }

  /** For a page from 1 on, there is a next page exactly when rows remain after this one. */
  lemma NextPageIff(page: int, pageSize: int, totalCount: nat)
    requires page >= 1 && pageSize >= MinPageSize
    ensures Summary(page, pageSize, totalCount).hasNextPage <==> page * pageSize < totalCount
  {
    var t := CeilDiv(totalCount, pageSize);
    if page < t {
      assert page <= t - 1;
      assert page * pageSize <= (t - 1) * pageSize;
    } else {
      assert t <= page;
      assert t * pageSize <= page * pageSize;
    }
  }

  lemma MulMonotone(a: int, b: int, k: nat)
    requires a <= b
    ensures a * k <= b * k
  {
  }

  /** Pages 1 to `totalPages` are the non-empty ones; later pages are empty. */
  lemma PageNonEmptyIff<T>(s: seq<T>, page: int, pageSize: int)
    requires page >= 1 && pageSize >= MinPageSize
    ensures var w := Window(s, (page - 1) * pageSize, pageSize).value;
      w != [] <==> page <= Summary(page, pageSize, |s|).totalPages
  {
    var t := CeilDiv(|s|, pageSize);
    var skip := (page - 1) * pageSize;
    assert Window(s, skip, pageSize).value != [] <==> skip < |s|;
    if page <= t {
      MulMonotone(page - 1, t - 1, pageSize);
    } else {
      MulMonotone(t, page - 1, pageSize);
    }
  }

  /** Consecutive pages join up: the first `n` pages are the first `n * pageSize` rows. */
  lemma {:induction false} PagesConcatenate<T>(s: seq<T>, n: nat, pageSize: int)
    requires pageSize >= MinPageSize
    ensures Pages(s, n, pageSize) == s[..Min(n * pageSize, |s|)]
  {
    if n > 0 {
      PagesConcatenate(s, n - 1, pageSize);
      var lo := Min((n - 1) * pageSize, |s|);
      var w := Window(s, (n - 1) * pageSize, pageSize).value;
      assert (n - 1) * pageSize <= n * pageSize;
      assert s[..lo] + w == s[..Min(n * pageSize, |s|)];
    }
  }

  /** Pages 1 to `n`, one after the other. */
  function Pages<T>(s: seq<T>, n: nat, pageSize: int): seq<T>
    requires pageSize >= MinPageSize
  {
    if n == 0 then [] else Pages(s, n - 1, pageSize) + Window(s, (n - 1) * pageSize, pageSize).value
  }

  /** Walking all `totalPages` pages lists every matching row exactly once. */
  lemma AllPagesListEverything<T>(s: seq<T>, pageSize: int)
    requires pageSize >= MinPageSize
    ensures Pages(s, CeilDiv(|s|, pageSize), pageSize) == s
  {
    PagesConcatenate(s, CeilDiv(|s|, pageSize), pageSize);
  }

  /** An empty workflow id filters nothing, like an absent one. */
  lemma EmptyWorkflowIdIgnored(userId: string)
    ensures WhereFor(userId, Some("")) == WhereFor(userId, None) == Where(userId, None)
  {
  }

  /** The detail view of one execution, with its node executions oldest first. */
  datatype Detail = Detail(execution: Execution, nodeExecutions: seq<NodeExecution>)

  function NodeStartedAt(n: NodeExecution): int { n.startedAt }

  /** The node executions stored for one execution, in table order. */
  function NodeExecutionsOf(nodes: seq<NodeExecution>, executionId: string): (r: seq<NodeExecution>)
    ensures forall n :: multiset(r)[n] == if n.executionId == executionId then multiset(nodes)[n] else 0
  {
    if nodes == [] then []
    else
      assert nodes == [nodes[0]] + nodes[1..];
      (if nodes[0].executionId == executionId then [nodes[0]] else []) + NodeExecutionsOf(nodes[1..], executionId)
  }

  /** The first stored execution with this id owned by the user, if any. */
  function FindOwned(table: seq<Execution>, id: string, userId: string): (r: Option<Execution>)
    ensures r.Some? ==> r.value in table && r.value.id == id && r.value.ownerId == userId
    ensures r.None? <==> forall e | e in table :: !(e.id == id && e.ownerId == userId)
  {
    if table == [] then None
    else if table[0].id == id && table[0].ownerId == userId then Some(table[0])
    else
      var r := FindOwned(table[1..], id, userId);
      assert forall e | e in table[1..] :: e in table;
      assert forall e | e in table :: e == table[0] || e in table[1..];
      r
  }

  /** `getOne`: `findFirstOrThrow` throws (None) when the user owns no execution with the id. */
  function GetOne(userId: string, id: string, table: seq<Execution>, nodes: seq<NodeExecution>): (r: Option<Detail>)
    ensures r.None? <==> forall e | e in table :: !(e.id == id && e.ownerId == userId)
    ensures r.Some? ==> r.value.execution in table && r.value.execution.id == id && r.value.execution.ownerId == userId
    ensures r.Some? ==> SortedBy(r.value.nodeExecutions, NodeStartedAt, false)
    ensures r.Some? ==> multiset(r.value.nodeExecutions) == multiset(NodeExecutionsOf(nodes, id))
  {
    match FindOwned(table, id, userId)
    case None => None
    case Some(e) => Some(Detail(e, Ordered(NodeExecutionsOf(nodes, e.id), NodeStartedAt, false)))
  }

  /** Another user's execution is never shown, whatever its id. */
  lemma OtherUsersHidden(userId: string, id: string, table: seq<Execution>, nodes: seq<NodeExecution>)
    requires forall e | e in table && e.id == id :: e.ownerId != userId
    ensures GetOne(userId, id, table, nodes).None?
  {
  }
}
