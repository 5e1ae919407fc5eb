/**
 * The remote source gateway: `fetchInitialTasks` tries three endpoints in a
 * fixed order and takes the first response whose body, once normalised, is a
 * non-empty array. The network and `res.json()` are outside the model: what
 * each endpoint answers is the parameter `fetch`.
 */
module Api {
  import opened Wrappers

  /** A parsed JSON value. Numbers are integers in this model. */
  datatype Json =
    | JNull
    | JBool(b: bool)
    | JNum(n: int)
    | JStr(s: string)
    | JArr(items: seq<Json>)
    | JObj(fields: map<string, Json>)

  /** JavaScript truthiness of a parsed value: `null`, `false`, `0` and `""`
      are falsy; every array and object, even an empty one, is truthy. */
  predicate Truthy(v: Json) {
    match v
    case JNull => false
    case JBool(b) => b
    case JNum(n) => n != 0
    case JStr(s) => s != ""
    case JArr(_) => true
    case JObj(_) => true
  }

  /** What one candidate answered: the request was rejected, or a response
      came with a status and a body that `res.json()` parsed (`None` when the
      body is not JSON and `res.json()` rejects). */
  datatype Attempt = NetworkError | Response(status: int, body: Option<Json>)

  /** `res.ok`: a 2xx status. */
  predicate Ok(status: int) {
    200 <= status <= 299
  }

  const ApiBase: string := "https://jsl-kanban-api.vercel.app"

  /** The endpoints, in the order they are tried. */
  const Candidates: seq<string> := [ApiBase, ApiBase + "/tasks", ApiBase + "/api/tasks"]

  /** `Array.isArray(data) ? data : data.tasks || data.data || []`; `None`
      where reading a property throws, which happens only on `null`. */
  function Normalise(data: Json): (r: Option<Json>)
    ensures r.None? <==> data.JNull?
    ensures data.JArr? ==> r == Some(data)
    ensures data.JObj? && "tasks" in data.fields && Truthy(data.fields["tasks"]) ==>
      r == Some(data.fields["tasks"])
    ensures (data.JObj? && !("tasks" in data.fields && Truthy(data.fields["tasks"]))
             && "data" in data.fields && Truthy(data.fields["data"])) ==>
      r == Some(data.fields["data"])
    ensures (data.JObj? && !("tasks" in data.fields && Truthy(data.fields["tasks"]))
             && !("data" in data.fields && Truthy(data.fields["data"]))) ==>
      r == Some(JArr([]))
    ensures !data.JNull? && !data.JArr? && !data.JObj? ==> r == Some(JArr([]))
  {
    match data
    case JNull => None
    case JArr(_) => Some(data)
    case JObj(fields) =>
      if "tasks" in fields && Truthy(fields["tasks"]) then Some(fields["tasks"])
      else if "data" in fields && Truthy(fields["data"]) then Some(fields["data"])
      else Some(JArr([]))
    case _ => Some(JArr([]))
  }

  /** The tasks a candidate yields, or `None` when the loop moves on: no
      response, a non-2xx status, a body that is not JSON, a `null` body, or
      a normalised value that is not a non-empty array. */
  function Accepted(a: Attempt): (r: Option<seq<Json>>)
    ensures r.Some? ==> |r.value| > 0
    ensures r.Some? ==> a.Response? && Ok(a.status) && a.body.Some? && Normalise(a.body.value) == Some(JArr(r.value))
    ensures r.Some? <==>
      && a.Response? && Ok(a.status) && a.body.Some?
      && Normalise(a.body.value).Some? && Normalise(a.body.value).value.JArr?
      && |Normalise(a.body.value).value.items| > 0
  {
    match a
    case NetworkError => None
    case Response(status, body) =>
      if !Ok(status) || body.None? then None
      else match Normalise(body.value)
        case Some(JArr(items)) => if |items| > 0 then Some(items) else None
        case _ => None
  }

  /** A bare non-empty array in a 2xx response is used as it is. */
  lemma BareArrayAccepted(status: int, items: seq<Json>)
    requires Ok(status) && |items| > 0
    ensures Accepted(Response(status, Some(JArr(items)))) == Some(items)
  {
  }

  /** A non-empty `tasks` array in a 2xx response is used, whatever `data`
      holds. */
  lemma TasksFieldAccepted(status: int, fields: map<string, Json>, items: seq<Json>)
    requires Ok(status) && |items| > 0
    requires "tasks" in fields && fields["tasks"] == JArr(items)
    ensures Accepted(Response(status, Some(JObj(fields)))) == Some(items)
  {
  }

  /** An empty `tasks` array is truthy, so it hides a non-empty `data` array
      and the candidate is refused. */
  lemma EmptyTasksShadowsData(status: int, fields: map<string, Json>)
    requires Ok(status)
    requires "tasks" in fields && fields["tasks"] == JArr([])
    ensures Accepted(Response(status, Some(JObj(fields)))) == None
  {
  }

  /** A non-empty `data` array is used when `tasks` is missing or falsy. */
  lemma DataUsedWhenTasksFalsy(status: int, fields: map<string, Json>, items: seq<Json>)
    requires Ok(status) && |items| > 0
    requires "tasks" !in fields || !Truthy(fields["tasks"])
    requires "data" in fields && fields["data"] == JArr(items)
    ensures Accepted(Response(status, Some(JObj(fields)))) == Some(items)
  {
  }

  datatype FetchResult = Fetched(tasks: seq<Json>) | FetchFailure

  /** The first candidate among `urls` that is accepted, or a failure when
      none is. */
  function FirstAccepted(fetch: string -> Attempt, urls: seq<string>): (r: FetchResult)
    ensures r.FetchFailure? <==> forall i :: 0 <= i < |urls| ==> Accepted(fetch(urls[i])).None?
    ensures r.Fetched? ==> |r.tasks| > 0 && exists i :: 0 <= i < |urls| && Accepted(fetch(urls[i])) == Some(r.tasks)
  {
    if urls == [] then FetchFailure
    else
      assert forall i :: 1 <= i < |urls| ==> urls[i] == urls[1..][i - 1];
      match Accepted(fetch(urls[0]))
      case Some(tasks) => Fetched(tasks)
      case None => FirstAccepted(fetch, urls[1..])
  }

  /** When every url before position `k` is refused and the one at `k` is
      accepted, the search stops at `k`. */
  lemma {:induction false} FirstAcceptedAt(fetch: string -> Attempt, urls: seq<string>, k: nat, tasks: seq<Json>)
    requires k < |urls|
    requires forall i :: 0 <= i < k ==> Accepted(fetch(urls[i])).None?
    requires Accepted(fetch(urls[k])) == Some(tasks)
    ensures FirstAccepted(fetch, urls) == Fetched(tasks)
  {
    if k > 0 {
      assert forall i :: 0 <= i < k - 1 ==> urls[1..][i] == urls[i + 1];
      FirstAcceptedAt(fetch, urls[1..], k - 1, tasks);
    }
  }

  /** `fetchInitialTasks`: `tried` lists the endpoints requested, in order.
      Each is requested only after every earlier one was refused, and the
      loop stops at the first accepted one. */
  method FetchInitialTasks(fetch: string -> Attempt) returns (r: FetchResult, tried: seq<string>)
    ensures 1 <= |tried| <= |Candidates| && tried == Candidates[..|tried|]
    ensures forall i :: 0 <= i < |tried| - 1 ==> Accepted(fetch(tried[i])).None?
    ensures r.Fetched? ==> Accepted(fetch(tried[|tried| - 1])) == Some(r.tasks)
    ensures r.FetchFailure? ==> tried == Candidates && Accepted(fetch(tried[|tried| - 1])).None?
    ensures r == FirstAccepted(fetch, Candidates)
  {
    tried := [];
    var i := 0;
    while i < |Candidates|
      invariant 0 <= i <= |Candidates|
      invariant tried == Candidates[..i]
      invariant forall k :: 0 <= k < i ==> Accepted(fetch(Candidates[k])).None?
    {
      var url := Candidates[i];
      tried := tried + [url];
      var res := fetch(url);
      if res.NetworkError? || !Ok(res.status) || res.body.None? {
        i := i + 1;
        continue;
      }
      var tasks := Normalise(res.body.value);
      if tasks.None? {
        i := i + 1;
        continue;
      }
      if tasks.value.JArr? && |tasks.value.items| > 0 {
        FirstAcceptedAt(fetch, Candidates, i, tasks.value.items);
        return Fetched(tasks.value.items), tried;
      }
      i := i + 1;
    }
    r := FetchFailure;
  }

  /** The first two endpoints answer 500 and 404, the third a `data` wrapper:
      the wrapped list is the result. */
  lemma ThirdCandidateScenario(task: Json)
    ensures var fetch := (url: string) =>
              if url == Candidates[0] then Response(500, None)
              else if url == Candidates[1] then Response(404, None)
              else Response(200, Some(JObj(map["data" := JArr([task])])));
            FirstAccepted(fetch, Candidates) == Fetched([task])
  {
    var fetch := (url: string) =>
      if url == Candidates[0] then Response(500, None)
      else if url == Candidates[1] then Response(404, None)
      else Response(200, Some(JObj(map["data" := JArr([task])])));
    assert Candidates[2] != Candidates[0] && Candidates[2] != Candidates[1] by {
      assert |Candidates[2]| > |Candidates[1]| > |Candidates[0]|;
    }
    assert Candidates[1] != Candidates[0];
    assert Candidates[1..][1..] == [Candidates[2]];
  }
}
