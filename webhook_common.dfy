/**
 * What the inbound webhook routes share: the request as a route sees it, the
 * JSON reply it returns, the workflow runs it asks for, and the loop that
 * flattens form entries into a payload object.
 */
module WebhookCommon {
  import opened Wrappers
  import opened Json

  /** The argument of `sendWorkflowExecution`. */
  datatype RunRequest = RunRequest(workflowId: string, initialData: Value)

  /** `sendWorkflowExecution`: whether sending the run's event succeeded (false: it threw). */
  type Dispatch = RunRequest -> bool

  /** A form entry: a text value or an uploaded file. */
  datatype FormValue = FormText(text: string) | FormFile

  /**
   * An incoming request: query parameters, headers (lower-case names), the body as
   * text (None when `request.text()` rejects), and the multipart entries (None when
   * `request.formData()` rejects).
   */
  datatype HttpRequest = HttpRequest(query: map<string, string>, headers: map<string, string>, text: Option<string>,
                                     form: Option<seq<(string, FormValue)>>)

  /** A body read by content type: a payload, text that is not JSON under a JSON content type,
      or a body that could not be read at all (the route's catch-all answers that). */
  datatype Parsed = Parsed(payload: Value) | InvalidJson | Unreadable

  /** The status and JSON body of the response, and the runs requested, in order. */
  datatype RouteResult = RouteResult(status: int, body: Value, started: seq<RunRequest>)

  const MissingWorkflowId := "Missing required query parameter: workflowId"

  /** `url.searchParams.get(key)` and `request.headers.get(name) || ""`: the entry, with "" for a
      missing one (both are falsy). */
  function Lookup(entries: map<string, string>, key: string): (r: string)
    ensures key !in entries ==> r == ""
    ensures key in entries ==> r == entries[key]
  {
    if key in entries then entries[key] else ""
  }

  function ErrorBody(message: string): Value {
    Obj(map["error" := Str(message)])
  }

  /** A reply that starts no run. */
  function Respond(status: int, body: Value): (r: RouteResult)
    ensures r.started == [] && r.status == status && r.body == body
  {
    RouteResult(status, body, [])
  }

  /** The catch-all reply `{ success: false, error }` with status 500. */
  function Failure(message: string): (r: RouteResult)
    ensures r.status == 500 && r.started == []
  {
    RouteResult(500, Obj(map["success" := Bool(false), "error" := Str(message)]), [])
  }

  const Ignored := Obj(map["success" := Bool(true), "ignored" := Bool(true)])
  const Accepted := Obj(map["success" := Bool(true)])

  /** Request one run; a failing send is caught and answered with the route's 500 reply. */
  function Start(run: RunRequest, dispatch: Dispatch, success: Value, failureMessage: string): (r: RouteResult)
    ensures r.started == [run]
    ensures dispatch(run) <==> r.status == 200
    ensures dispatch(run) ==> r.body == success
    ensures !dispatch(run) ==> r.status == 500 && r.body == Failure(failureMessage).body
  {
    if dispatch(run) then RouteResult(200, success, [run])
    else RouteResult(500, Failure(failureMessage).body, [run])
  }

  /** The fields of a form, later entries overwriting earlier ones, files skipped. */
  function Fields(entries: seq<(string, FormValue)>): map<string, string> {
    if entries == [] then map[]
    else
      var last := entries[|entries| - 1];
      var before := Fields(entries[..|entries| - 1]);
      if last.1.FormText? then before[last.0 := last.1.text] else before
  }

  /** `for (const [key, value] of entries) if (typeof value === "string") payload[key] = value`. */
  method CollectFields(entries: seq<(string, FormValue)>) returns (payload: map<string, string>)
    ensures payload == Fields(entries)
  {
    payload := map[];
    var i := 0;
    while i < |entries|
      invariant 0 <= i <= |entries|
      invariant payload == Fields(entries[..i])
    {
      assert entries[..i + 1][..i] == entries[..i];
      if entries[i].1.FormText? {
        payload := payload[entries[i].0 := entries[i].1.text];
      }
      i := i + 1;
    }
    assert entries[..i] == entries;
  }

  /** URL-encoded pairs as form entries: every value is text. */
  function TextEntries(pairs: seq<(string, string)>): (r: seq<(string, FormValue)>)
    ensures |r| == |pairs|
    ensures forall i | 0 <= i < |pairs| :: r[i] == (pairs[i].0, FormText(pairs[i].1))
  {
    seq(|pairs|, i requires 0 <= i < |pairs| => (pairs[i].0, FormText(pairs[i].1)))
  }

  /** The payload object built from the collected fields. */
  function FieldsObject(fields: map<string, string>): (r: Value)
    ensures r.Obj? && r.fields.Keys == fields.Keys
    ensures forall k | k in fields :: r.fields[k] == Str(fields[k])
  {
    Obj(map k | k in fields :: Str(fields[k]))
  }

  /** A key is present exactly when some text entry has it, and it holds the value of the last such entry. */
  lemma {:induction false} FieldsLastWins(entries: seq<(string, FormValue)>, key: string)
    ensures key in Fields(entries) <==> exists i | 0 <= i < |entries| :: entries[i].0 == key && entries[i].1.FormText?
    ensures key in Fields(entries) ==>
      exists i | 0 <= i < |entries| ::
        && entries[i].0 == key && entries[i].1 == FormText(Fields(entries)[key])
        && forall j | i < j < |entries| :: !(entries[j].0 == key && entries[j].1.FormText?)
  {
    if entries != [] {
      var n := |entries| - 1;
      var before := entries[..n];
      FieldsLastWins(before, key);
      if entries[n].0 == key && entries[n].1.FormText? {
        assert entries[n].1 == FormText(Fields(entries)[key]);
      } else {
        assert entries[..n] == before;
        assert (key in Fields(entries)) == (key in Fields(before));
        assert key in Fields(before) ==> Fields(entries)[key] == Fields(before)[key];
        if key in Fields(entries) {
          var i :| 0 <= i < |before| && before[i].0 == key && before[i].1 == FormText(Fields(before)[key])
                   && forall j | i < j < |before| :: !(before[j].0 == key && before[j].1.FormText?);
          assert entries[i] == before[i];
          assert forall j | i < j < |entries| :: !(entries[j].0 == key && entries[j].1.FormText?) by {
            forall j | i < j < |entries|
              ensures !(entries[j].0 == key && entries[j].1.FormText?)
            {
              if j < n { assert entries[j] == before[j]; }
            }
          }
        } else {
          forall i | 0 <= i < |entries|
            ensures !(entries[i].0 == key && entries[i].1.FormText?)
          {
            if i < n { assert entries[i] == before[i]; }
          }
        }
      }
    }
  }
}
