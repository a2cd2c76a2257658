/**
 * What every node executor shares: the run context it threads, the statuses it
 * publishes, the two kinds of error it throws, and the trace of ordered effects
 * (publishes, requests to providers, credential lookups) a call produces.
 */
module ExecCommon {
  import opened Json

  /** The run context: variable name to value. */
  type Context = map<string, Value>

  /** The `status` of a `{ nodeId, status }` realtime publish. */
  datatype Status = Loading | Success | Error

  /** `NonRetriableError` (configuration errors) versus a plain `Error` (eligible for retry). */
  datatype ExecError = NonRetriableError(message: string) | PlainError(message: string)

  /** A request body: URL-encoded form fields in append order, or a JSON document. */
  datatype Body = Form(fields: seq<(string, string)>) | JsonBody(json: Value) | NoBody

  datatype Request = Request(url: string, headers: seq<(string, string)>, body: Body)

  /** What an HTTP client hands back: a transport failure, or a response. */
  datatype Reply =
    | NetworkFailure(reason: string)
    | Response(ok: bool, status: int, statusText: string, json: Value)

  /** One ordered, externally visible effect of an executor call. */
  datatype Effect =
    | Publish(status: Status)
    | Send(request: Request)
    | CredentialLookup(credentialId: string)
    | SmtpSend(host: string, to: string)

  /** The effect trace and the outcome (new context or thrown error) of one executor call. */
  datatype Outcome = Outcome(trace: seq<Effect>, result: Result<Context, ExecError>)

  import opened Wrappers

  /** Foreign text functions every executor uses: Handlebars rendering and HTML-entity decoding. */
  datatype Text = Text(render: (string, Context) -> string, decode: string -> string)

  /** `ky.post(...).json()`: a transport failure or a non-2xx status is thrown as a plain error. */
  function KyJson(reply: Reply): (r: Result<Value, ExecError>)
    ensures r.Ok? <==> reply.Response? && reply.ok
    ensures r.Err? ==> r.error.PlainError?
  {
    match reply
    case NetworkFailure(reason) => Err(PlainError(reason))
    case Response(ok, status, statusText, json) =>
      if ok then Ok(json)
      else Err(PlainError("Request failed with status code " + IntToString(status) + " " + statusText))
  }

  /** The number of `Send` effects in a trace. */
  function Sends(trace: seq<Effect>): nat {
    if trace == [] then 0 else (if trace[0].Send? then 1 else 0) + Sends(trace[1..])
  }

  /** The publishes of a trace, in order. */
  function Publishes(trace: seq<Effect>): seq<Status> {
    if trace == [] then []
    else (if trace[0].Publish? then [trace[0].status] else []) + Publishes(trace[1..])
  }

  /** The status discipline of an executor call: `loading` first, and a last status that is
      `success` exactly when the call returns and `error` when it throws. */
  predicate StatusBracketed(o: Outcome) {
    var p := Publishes(o.trace);
    |p| >= 2 && p[0] == Loading && p[|p| - 1] == (if o.result.Ok? then Success else Error)
  }

  /** A trace that has started with `loading` and ends with the status its result calls for keeps the discipline. */
  lemma FinalStatus(sent: seq<Effect>, o: Outcome)
    requires |Publishes(sent)| >= 1 && Publishes(sent)[0] == Loading
    requires o.trace == sent + [Publish(if o.result.Ok? then Success else Error)]
    ensures StatusBracketed(o)
  {
    var last := [Publish(if o.result.Ok? then Success else Error)];
    TraceConcat(sent, last);
    assert Publishes(last) == [last[0].status] by { assert last[1..] == []; }
  }

  /** A configured string field of a node's data; "" when it is absent, empty or not a string. */
  function Field(data: Value, key: string): string {
    StrOr(OptGet(data, key), "")
  }

  /** `{ ...context, [key]: value }`. */
  function Put(context: Context, key: string, value: Value): (r: Context)
    ensures r.Keys == context.Keys + {key} && r[key] == value
    ensures forall k | k in context && k != key :: r[k] == context[k]
  {
    context[key := value]
  }

  /** An HTTP client (`fetch`, `ky`): the reply to a request. */
  type Http = Request -> Reply

  const TypeErrorMessage := "Cannot read properties of null or undefined"

  /** `v.k` in JavaScript: a TypeError when `v` is null or undefined. */
  function Prop(v: Value, k: string): (r: Result<Value, ExecError>)
    ensures r.Err? <==> IsNullish(v)
    ensures r.Ok? ==> r.value == OptGet(v, k)
  {
    if IsNullish(v) then Err(PlainError(TypeErrorMessage)) else Ok(OptGet(v, k))
  }

  /** A configuration check failing before the step: `error` is published and a non-retriable error thrown. */
  function Reject(message: string): (o: Outcome)
    ensures Publishes(o.trace) == [Loading, Error] && Sends(o.trace) == 0
    ensures o.result == Err(NonRetriableError(message))
    ensures StatusBracketed(o)
  {
    Outcome([Publish(Loading), Publish(Error)], Err(NonRetriableError(message)))
  }

  /** `loading`, then the step, then `success` with its result, or `error` and the step's error rethrown. */
  function Finish(step: Outcome): (o: Outcome)
    ensures o.result == step.result
    ensures Sends(o.trace) == Sends(step.trace)
    ensures Publishes(o.trace) == [Loading] + Publishes(step.trace) + [if step.result.Ok? then Success else Error]
    ensures StatusBracketed(o)
  {
    var trace := [Publish(Loading)] + step.trace + [Publish(if step.result.Ok? then Success else Error)];
    TraceConcat([Publish(Loading)], step.trace);
    TraceConcat([Publish(Loading)] + step.trace, [Publish(if step.result.Ok? then Success else Error)]);
    Outcome(trace, step.result)
  }

  lemma TraceSingle(e: Effect)
    ensures Sends([e]) == if e.Send? then 1 else 0
    ensures Publishes([e]) == if e.Publish? then [e.status] else []
  {
    assert [e][1..] == [];
  }

  lemma {:induction false} TraceConcat(a: seq<Effect>, b: seq<Effect>)
    ensures Sends(a + b) == Sends(a) + Sends(b)
    ensures Publishes(a + b) == Publishes(a) + Publishes(b)
  {
    if a != [] {
      assert (a + b)[1..] == a[1..] + b;
      TraceConcat(a[1..], b);
    } else {
      assert a + b == b;
    }
  }
}
