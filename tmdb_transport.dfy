/** One logical request of the movie-database client (tmdb/api.py): how a
    single physical attempt is classified, how the five-attempt retry budget
    settles, and the synchronous client's simpler outcome.

    The network is an oracle: `net(request, k)` is what the k-th physical
    attempt of `request` gets back. URL building, sessions, rate limiting
    and back-off waits are not part of this model. */
module Transport {
  import opened Wrappers
  import opened Text
  import opened Values

  /** Query parameters; a Python `None` value is `JNull`. */
  type Params = map<string, Json>

  datatype Request = Request(path: string, params: Params)

  /** What one physical attempt gets back. */
  datatype Response =
    | Received(body: Json)        // 2xx and a decoded JSON body
    | HttpError(status: int)      // a client response error carrying a status
    | TimedOut                    // the request's own timeout fired
    | ClientFailure               // any other client error (connection refused, ...)

  /** The network, answering the k-th attempt (k = 1, 2, ...) of a request. */
  type Net = (Request, nat) -> Response

  /** The network as the synchronous client sees it (its transport adapter
      does its own retrying, so there is one answer per request). */
  type SyncNet = Request -> Response

  /** Exceptions that leave the client instead of being folded into a result. */
  datatype Failure =
    | Unauthorized(status: int)   // 401/403 re-raised
    | InvalidLiteral(text: string) // ValueError from int() on a path segment
    | InvalidBatchSize            // ValueError from range() with step 0
    | MissingId                   // KeyError: a fetched record without 'id'
    | Malformed                   // KeyError/TypeError on a page of unexpected shape
    | EmptyPageList               // IndexError from [0] on an empty page list
    | InvalidIdsType              // ValueError for an ids_type other than movie/person

  /** How one physical attempt ends. */
  datatype Attempt =
    | Returned(value: Json)            // the coroutine returns this value
    | Retryable(status: Option<int>)   // a RetryableError is raised
    | Raised(failure: Failure)         // any other exception escapes

  const AuthStatuses: set<int> := {401, 403}
  const RetryStatuses: set<int> := {429, 500, 502, 503, 504}
  const NotFound := 404
  const MaxAttempts := 5

  /** `int(path.split('/')[-1])`. */
  function IdFromPath(path: string): Result<Json, Failure> {
    var segment := LastSegment(path);
    match ParseInt(segment)
    case Some(n) => Ok(JInt(n))
    case None => Err(InvalidLiteral(segment))
  }

  /** A path built as `'{kind}/{id}'` gives its id back. */
  lemma IdFromBuiltPath(kind: string, id: int)
    ensures IdFromPath(kind + "/" + IntToString(id)) == Ok(JInt(id))
  {
    ParseIntToString(id);
    if id < 0 {
      NatToStringDigits(-id);
      assert forall i :: 1 <= i < |IntToString(id)| ==> IsDigit(IntToString(id)[i]);
    } else {
      NatToStringDigits(id);
    }
    assert '/' !in IntToString(id);
    LastSegmentAfterSlash(kind, IntToString(id));
  }

  /** One attempt of the asynchronous `_fetch_data`. */
  function ClassifyAttempt(response: Response, path: string, byId: bool): (a: Attempt)
    // a body is returned as it is
    ensures response.Received? ==> a == Returned(response.body)
    // 401/403 escape, are never retried, and nothing else is an authorisation failure
    ensures response.HttpError? && response.status in AuthStatuses ==> a == Raised(Unauthorized(response.status))
    ensures a.Raised? && a.failure.Unauthorized? ==> response == HttpError(a.failure.status) && a.failure.status in AuthStatuses
    // exactly 429/5xx and timeouts are retried
    ensures a.Retryable? <==> (response.HttpError? && response.status in RetryStatuses) || response.TimedOut?
    ensures a.Retryable? ==> a.status != Some(NotFound)
    // by id: 404 gives the id in the path, every other failure gives 0
    ensures byId && response == HttpError(NotFound) ==>
      (match IdFromPath(path) case Ok(v) => a == Returned(v) case Err(e) => a == Raised(e))
    ensures byId && IsPlainFailure(response) && response != HttpError(NotFound) ==> a == Returned(JInt(0))
    // not by id: every such failure gives None
    ensures !byId && IsPlainFailure(response) ==> a == Returned(JNull)
  {
    match response
    case Received(body) => Returned(body)
    case HttpError(status) =>
      if status in AuthStatuses then Raised(Unauthorized(status))
      else if status in RetryStatuses then Retryable(Some(status))
      else if byId then
        if status == NotFound then
          (match IdFromPath(path) case Ok(v) => Returned(v) case Err(e) => Raised(e))
        else Returned(JInt(0))
      else Returned(JNull)
    case TimedOut => Retryable(None)
    case ClientFailure => if byId then Returned(JInt(0)) else Returned(JNull)
  }

  /** A failure that is neither an authorisation failure nor retried. */
  predicate IsPlainFailure(response: Response) {
    response.ClientFailure?
    || (response.HttpError? && response.status !in AuthStatuses && response.status !in RetryStatuses)
  }

  /** `retry_error_callback`: the value returned once the last attempt raised
      a RetryableError with the given status. */
  function Exhausted(path: string, byId: bool, status: Option<int>): Result<Json, Failure> {
    if byId && path != "" then
      if status == Some(NotFound) then IdFromPath(path) else Ok(JInt(0))
    else Ok(JNull)
  }

  /** The retried `_fetch_data` from attempt `k` on. */
  function FetchFrom(net: Net, request: Request, byId: bool, k: nat): Result<Json, Failure>
    requires 1 <= k <= MaxAttempts
    decreases MaxAttempts - k
  {
    match ClassifyAttempt(net(request, k), request.path, byId)
    case Returned(v) => Ok(v)
    case Raised(f) => Err(f)
    case Retryable(status) =>
      if k == MaxAttempts then Exhausted(request.path, byId, status)
      else FetchFrom(net, request, byId, k + 1)
  }

  /** One logical request of the asynchronous client. */
  function FetchData(net: Net, request: Request, byId: bool): Result<Json, Failure> {
    FetchFrom(net, request, byId, 1)
  }

  /** The attempts made from attempt `k` on, in order. */
  function Trace(net: Net, request: Request, byId: bool, k: nat): seq<Attempt>
    requires 1 <= k <= MaxAttempts
    decreases MaxAttempts - k
  {
    var a := ClassifyAttempt(net(request, k), request.path, byId);
    if a.Retryable? && k < MaxAttempts then [a] + Trace(net, request, byId, k + 1) else [a]
  }

  /** What the last attempt of a trace settles the request to. */
  function Settle(last: Attempt, path: string, byId: bool): Result<Json, Failure> {
    match last
    case Returned(v) => Ok(v)
    case Raised(f) => Err(f)
    case Retryable(status) => Exhausted(path, byId, status)
  }

  /** The retry budget: between one and five attempts; every attempt but the
      last raised a RetryableError; fewer than five means the last did not;
      and the outcome is settled by the last attempt alone. */
  lemma {:induction false} TraceShape(net: Net, request: Request, byId: bool, k: nat)
    requires 1 <= k <= MaxAttempts
    ensures var t := Trace(net, request, byId, k);
      && 1 <= |t| <= MaxAttempts - k + 1
      && (forall i :: 0 <= i < |t| ==> t[i] == ClassifyAttempt(net(request, k + i), request.path, byId))
      && (forall i :: 0 <= i < |t| - 1 ==> t[i].Retryable?)
      && (k + |t| - 1 < MaxAttempts ==> !t[|t| - 1].Retryable?)
      && FetchFrom(net, request, byId, k) == Settle(t[|t| - 1], request.path, byId)
    decreases MaxAttempts - k
  {
    var a := ClassifyAttempt(net(request, k), request.path, byId);
    if a.Retryable? && k < MaxAttempts {
      TraceShape(net, request, byId, k + 1);
      var rest := Trace(net, request, byId, k + 1);
      assert Trace(net, request, byId, k) == [a] + rest;
      forall i | 1 <= i < |rest| + 1
        ensures ([a] + rest)[i] == ClassifyAttempt(net(request, k + i), request.path, byId)
      {
        assert ([a] + rest)[i] == rest[i - 1];
      }
    }
  }

  /** Five retryable attempts in a row: a by-id request settles to the
      marker 0, any other request to None. */
  lemma ExhaustedMarker(net: Net, request: Request, byId: bool)
    requires forall k :: 1 <= k <= MaxAttempts ==> ClassifyAttempt(net(request, k), request.path, byId).Retryable?
    ensures FetchData(net, request, byId) == if byId && request.path != "" then Ok(JInt(0)) else Ok(JNull)
  {
    TraceShape(net, request, byId, 1);
    var t := Trace(net, request, byId, 1);
    assert t[|t| - 1] == ClassifyAttempt(net(request, |t|), request.path, byId);
  }

  /** A request answered with retryable errors `j` times and then with a body
      returns that body after exactly `j + 1` attempts. */
  lemma {:induction false} RetriedThenReceived(net: Net, request: Request, byId: bool, j: nat, body: Json, k: nat)
    requires 1 <= k <= j + 1 <= MaxAttempts
    requires forall i :: k <= i <= j ==> ClassifyAttempt(net(request, i), request.path, byId).Retryable?
    requires net(request, j + 1) == Received(body)
    ensures FetchFrom(net, request, byId, k) == Ok(body)
    ensures |Trace(net, request, byId, k)| == j + 2 - k
    decreases MaxAttempts - k
  {
    if k <= j {
      RetriedThenReceived(net, request, byId, j, body, k + 1);
    }
  }

  /** An authorisation failure on the first attempt is raised at once. */
  lemma UnauthorizedNotRetried(net: Net, request: Request, byId: bool)
    requires net(request, 1).HttpError? && net(request, 1).status in AuthStatuses
    ensures Trace(net, request, byId, 1) == [Raised(Unauthorized(net(request, 1).status))]
    ensures FetchData(net, request, byId) == Err(Unauthorized(net(request, 1).status))
  {
  }

  /** The query parameters of a by-id request (`_fetch_by_id`, both clients). */
  function ByIdParams(language: Option<string>, expand: Option<seq<string>>): (p: Params)
    ensures "language" in p <==> language.Some?
    ensures language.Some? ==> p["language"] == JStr(language.value)
    ensures "append_to_response" in p <==> expand.Some?
    ensures expand.Some? ==> p["append_to_response"] == JStr(Join(",", expand.value))
    ensures p.Keys <= {"language", "append_to_response"}
  {
    (if language.Some? then map["language" := JStr(language.value)] else map[])
    + (if expand.Some? then map["append_to_response" := JStr(Join(",", expand.value))] else map[])
  }

  /** The synchronous `TMDB._fetch_data`: a body is returned, 401/403 is
      re-raised, and every other failure returns None. */
  function SyncFetchData(net: SyncNet, request: Request): (r: Result<Json, Failure>)
    ensures r.Err? <==> net(request).HttpError? && net(request).status in AuthStatuses
    ensures r.Err? ==> r.error == Unauthorized(net(request).status)
    ensures net(request).Received? ==> r == Ok(net(request).body)
    ensures !net(request).Received? && r.Ok? ==> r.value == JNull
  {
    match net(request)
    case Received(body) => Ok(body)
    case HttpError(status) => if status in AuthStatuses then Err(Unauthorized(status)) else Ok(JNull)
    case _ => Ok(JNull)
  }

  /** The synchronous `_fetch_by_id`: one request with the by-id parameters. */
  function SyncFetchById(net: SyncNet, path: string, language: Option<string>, expand: Option<seq<string>>): (r: Result<Json, Failure>)
    ensures var sent := Request(path, ByIdParams(language, expand));
      && (r.Err? <==> net(sent).HttpError? && net(sent).status in AuthStatuses)
      && (net(sent).Received? ==> r == Ok(net(sent).body))
      && (!net(sent).Received? && r.Ok? ==> r.value == JNull)
  {
    SyncFetchData(net, Request(path, ByIdParams(language, expand)))
  }
}
