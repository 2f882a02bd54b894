// The data-fetching defaults: how a failed query is retried and after how long,
// how a non-ok response becomes an error message, what a query does with a 401,
// and which headers and body a request carries.

module QueryClient {
  import opened Text
  import opened Js

  // ---- retrying -------------------------------------------------------------------

  /** `error?.response?.status >= 400 && < 500`: a client error is never retried. */
  predicate IsClientError(status: Option<int>) {
    status.Some? && 400 <= status.value < 500
  }

  /** The queries' `retry` option: no retry on a client error, otherwise up to two. */
  function Retry(failureCount: nat, status: Option<int>): bool {
    if IsClientError(status) then false else failureCount < 2
  }

  /** Mutations are retried exactly once. */
  const MutationRetries: nat := 1

  const MaxRetryDelay: nat := 30000

  function Pow2(n: nat): (r: nat)
    ensures r >= 1
  {
    if n == 0 then 1 else 2 * Pow2(n - 1)
  }

  /** `retryDelay`: `Math.min(1000 * 2 ** attemptIndex, 30000)`. */
  function RetryDelay(attempt: nat): nat {
    var d := 1000 * Pow2(attempt);
    if d < MaxRetryDelay then d else MaxRetryDelay
  }

  lemma {:induction false} Pow2Monotone(a: nat, b: nat)
    requires a <= b
    ensures Pow2(a) <= Pow2(b)
    decreases b
  {
    if a < b {
      Pow2Monotone(a, b - 1);
    }
  }

  /**
   * The first retry waits one second, delays never shrink from one attempt to
   * the next, never exceed 30 seconds, and reach the cap from attempt index 5
   * (the sixth retry) on.
   */
  lemma RetryDelayRules(a: nat, b: nat)
    ensures RetryDelay(0) == 1000
    ensures RetryDelay(a) <= MaxRetryDelay
    ensures a <= b ==> RetryDelay(a) <= RetryDelay(b)
    ensures a >= 5 ==> RetryDelay(a) == MaxRetryDelay
    ensures a < 5 ==> RetryDelay(a) == 1000 * Pow2(a)
  {
    if a <= b {
      Pow2Monotone(a, b);
    }
    if a >= 5 {
      Pow2Monotone(5, a);
      assert Pow2(5) == 32;
    } else {
      Pow2Monotone(a, 4);
      assert Pow2(4) == 16;
    }
  }

  /** A query is tried at most three times unless it fails with a client error, which is tried once. */
  lemma RetryRules(failureCount: nat, status: Option<int>)
    ensures IsClientError(status) ==> !Retry(failureCount, status)
    ensures !IsClientError(status) ==> (Retry(failureCount, status) <==> failureCount < 2)
    ensures failureCount >= 2 ==> !Retry(failureCount, status)
  {
  }

  // ---- responses ------------------------------------------------------------------

  /** A fetch response: its status code, its body text and its status text. */
  datatype Response = Response(status: int, body: string, statusText: string)

  /** `res.ok`. */
  predicate IsOk(res: Response) {
    200 <= res.status <= 299
  }

  /** `throwIfResNotOk(res)`: nothing for an ok response, otherwise the message thrown. */
  function ThrowIfResNotOk(res: Response): (r: Option<string>)
    ensures r.None? <==> IsOk(res)
  {
    if IsOk(res) then None
    else Some(IntToString(res.status) + ": " + (if res.body != "" then res.body else res.statusText))
  }

  /** The message starts with the status and ends with the body, or with the status text when the body is empty. */
  lemma ThrowIfResNotOkMessage(res: Response)
    requires !IsOk(res)
    ensures IsPrefix(IntToString(res.status) + ": ", ThrowIfResNotOk(res).value)
    ensures IsSuffix(if res.body != "" then res.body else res.statusText, ThrowIfResNotOk(res).value)
  {
    var head := IntToString(res.status) + ": ";
    var tail := if res.body != "" then res.body else res.statusText;
    var m := ThrowIfResNotOk(res).value;
    assert m == head + tail;
    assert m[..|head|] == head;
    assert m[|m| - |tail|..] == tail;
  }

  // ---- queries ----------------------------------------------------------------------

  datatype UnauthorizedBehavior = ReturnNull | Throw

  /** What a query resolves to: null, a thrown error, or the parsed body. */
  datatype QueryResult = Null | Failed(message: string) | Data(json: Json)

  /** The path of a query: its key joined with "/". */
  function QueryPath(queryKey: seq<string>): string {
    Join(queryKey, "/")
  }

  /** `getQueryFn({ on401 })` applied to the response of the query's fetch and its parsed body. */
  function QueryFn(on401: UnauthorizedBehavior, res: Response, json: Json): QueryResult {
    if on401 == ReturnNull && res.status == 401 then Null
    else if ThrowIfResNotOk(res).Some? then Failed(ThrowIfResNotOk(res).value)
    else Data(json)
  }

  /**
   * With "returnNull" a 401 resolves to null; every other non-ok status (and
   * a 401 under "throw") throws; an ok response yields its body.
   */
  lemma QueryFnRules(on401: UnauthorizedBehavior, res: Response, json: Json)
    ensures QueryFn(on401, res, json) == Null <==> on401 == ReturnNull && res.status == 401
    ensures QueryFn(on401, res, json).Failed? <==> !IsOk(res) && !(on401 == ReturnNull && res.status == 401)
    ensures QueryFn(on401, res, json).Data? <==> IsOk(res)
    ensures QueryFn(on401, res, json).Data? ==> QueryFn(on401, res, json).json == json
    ensures on401 == Throw && res.status == 401 ==>
      QueryFn(on401, res, json) == Failed("401: " + (if res.body != "" then res.body else res.statusText))
  {
    if on401 == Throw && res.status == 401 {
      assert IntToString(401) == "401" by {
        assert NatToString(401) == NatToString(40) + [DigitChar(1)];
        assert NatToString(40) == NatToString(4) + [DigitChar(0)];
      }
    }
  }

  /** A key whose parts hold no "/" is recovered from its path: the path names the query. */
  lemma QueryPathSplits(queryKey: seq<string>)
    requires |queryKey| >= 1
    requires forall i :: 0 <= i < |queryKey| ==> '/' !in queryKey[i]
    ensures Split(QueryPath(queryKey), '/') == queryKey
  {
    SplitJoin(queryKey, '/');
  }

  // ---- errors seen by the retry callback ---------------------------------------------

  /** A thrown error as the `retry` callback reads it: its message and `error?.response?.status`. */
  datatype QueryError = QueryError(message: string, responseStatus: Option<int>)

  /** The `retry` callback applied to the error a failed query threw. */
  function RetryAfter(failureCount: nat, error: QueryError): bool {
    Retry(failureCount, error.responseStatus)
  }

  /** The error `throwIfResNotOk` throws: `new Error(message)`, which has no `response`. */
  function ThrownBy(res: Response): QueryError
    requires !IsOk(res)
  {
    QueryError(ThrowIfResNotOk(res).value, None)
  }

  /**
   * As written: a query answered with a client error (a 404, say) throws an
   * error without a `response`, so the callback cannot see the status and
   * retries it twice like any other failure.
   */
  lemma QueryClientErrorsAreRetried(res: Response, json: Json, failureCount: nat)
    requires 400 <= res.status < 500
    ensures QueryFn(Throw, res, json) == Failed(ThrownBy(res).message)
    ensures RetryAfter(failureCount, ThrownBy(res)) <==> failureCount < 2
  {
  }

  /** The error as the callback expects it: the message with the response's status attached. */
  function ThrownWithStatus(res: Response): QueryError
    requires !IsOk(res)
  {
    QueryError(ThrowIfResNotOk(res).value, Some(res.status))
  }

  /**
   * Corrected: with the status attached, a client error is never retried,
   * and any other failed response is retried while failureCount < 2.
   */
  lemma StatusCarryingErrorsRetryRules(res: Response, failureCount: nat)
    requires !IsOk(res)
    ensures 400 <= res.status < 500 ==> !RetryAfter(failureCount, ThrownWithStatus(res))
    ensures !(400 <= res.status < 500) ==> (RetryAfter(failureCount, ThrownWithStatus(res)) <==> failureCount < 2)
    ensures ThrownWithStatus(res).message == ThrownBy(res).message
  {
  }

  // ---- requests ---------------------------------------------------------------------

  /** The options `apiRequest` passes to fetch (the URL is resolved from the route against the base). */
  datatype Request = Request(verb: string, route: string, headers: seq<(string, string)>, body: Option<Json>, credentials: string)

  /** The request `apiRequest(verb, route, data)` sends; the body is the JSON text of `data`. */
  function ApiRequestOptions(verb: string, route: string, data: Json): (r: Request)
    ensures r.credentials == "include" && r.verb == verb && r.route == route
  {
    Request(verb, route,
      if Truthy(data) then [("Content-Type", "application/json")] else [],
      if Truthy(data) then Some(data) else None,
      "include")
  }

  /** `apiRequest`: the response if it is ok, otherwise the message thrown. */
  function ApiRequest(res: Response): (r: Outcome<Response>) {
    if IsOk(res) then Returns(res) else Throws
  }

  /**
   * The JSON content type and a body are sent exactly when there is data
   * (a falsy value such as 0 or "" counts as none); only an ok response is
   * returned.
   */
  lemma ApiRequestRules(verb: string, route: string, data: Json, res: Response)
    ensures ApiRequestOptions(verb, route, data).headers != [] <==> Truthy(data)
    ensures Truthy(data) ==> (ApiRequestOptions(verb, route, data).headers == [("Content-Type", "application/json")] &&
      ApiRequestOptions(verb, route, data).body == Some(data))
    ensures ApiRequestOptions(verb, route, data).body.None? <==> !Truthy(data)
    ensures ApiRequest(res).Returns? <==> ThrowIfResNotOk(res).None?
  {
  }
}
