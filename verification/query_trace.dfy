/** The retry loop of `Client.QueryTrace` (sto/client.go). The HTTP exchange of one
    attempt (`doRequest`) is abstracted as an oracle from the attempt index to that
    attempt's outcome; sleeping is recorded as a list of delays in whole seconds. */
module QueryTrace {
  import opened Wrappers
  import opened Request
  import opened Response
  import opened ClientConfig

  /** Why one attempt failed, one case per error return of `doRequest`. */
  datatype AttemptError =
    | CreateRequestFailed
    | RequestFailed
    | ReadFailed
    | BadStatus(statusCode: int, body: string)
    | UnmarshalFailed(body: string)

  /** What one attempt produced. An error never comes with a response and a decoded
      response never comes with an error, as in `doRequest`. */
  datatype Outcome =
    | Failed(error: AttemptError)
    | Received(response: TraceQueryResponse)

  /** The error `QueryTrace` returns. */
  datatype QueryError =
    | InvalidRequest(reason: ValidationError)
    | AttemptFailed(cause: AttemptError)

  /** What a call returns, `(resp, err)`, together with how many attempts it made and the
      seconds it slept between them. */
  datatype Run = Run(response: Option<TraceQueryResponse>, error: Option<QueryError>,
                     attempts: nat, delays: seq<nat>)

  /** The `doRequest` stand-in: attempt `i` has outcome `oracle(i)`. */
  type Oracle = nat -> Outcome

  /** An attempt that ends the loop: no error and no retry hint. */
  predicate Clean(o: Outcome) {
    o.Received? && !ShouldRetry(o.response)
  }

  function ResponseOf(o: Outcome): (resp: Option<TraceQueryResponse>) {
    if o.Received? then Some(o.response) else None
  }

  function ErrorOf(o: Outcome): (err: Option<QueryError>) {
    if o.Failed? then Some(AttemptFailed(o.error)) else None
  }

  /** The linear back-off schedule: one second, two seconds, ..., `n` seconds. */
  function Ramp(n: nat): (r: seq<nat>)
    ensures |r| == n
    ensures forall k :: 0 <= k < n ==> r[k] == k + 1
  {
    if n == 0 then [] else Ramp(n - 1) + [n]
  }

  /** What the loop promises once the request has passed validation: a negative retry
      bound means no attempt and `(nil, nil)`; otherwise it makes attempts until the first
      clean one or until `maxRetries + 1` attempts are spent, returns the last attempt's
      outcome verbatim, and slept `1, 2, ...` seconds after every attempt but the last. */
  ghost predicate RetryContract(oracle: Oracle, maxRetries: int, run: Run) {
    if maxRetries < 0 then
      run == Run(None, None, 0, [])
    else
      && 1 <= run.attempts <= maxRetries + 1
      && (forall k :: 0 <= k < run.attempts - 1 ==> !Clean(oracle(k)))
      && (Clean(oracle(run.attempts - 1)) || run.attempts == maxRetries + 1)
      && run.response == ResponseOf(oracle(run.attempts - 1))
      && run.error == ErrorOf(oracle(run.attempts - 1))
      && run.delays == Ramp(run.attempts - 1)
  }

  /** The whole call: an invalid request is refused before any attempt or sleep. */
  ghost predicate QueryContract(c: Client, req: TraceQueryRequest, oracle: Oracle, run: Run) {
    match Validate(req)
    case Some(e) => run == Run(None, Some(InvalidRequest(e)), 0, [])
    case None => RetryContract(oracle, c.maxRetries, run)
  }

  /** Attempts `i` to `maxRetries`, stopping at the first clean outcome. The result counts
      only the attempts from `i` on and the sleeps taken after them. */
  function AttemptsFrom(oracle: Oracle, maxRetries: nat, i: nat): (r: Run)
    requires i <= maxRetries
    ensures 1 <= r.attempts <= maxRetries + 1 - i
    ensures forall k :: i <= k < i + r.attempts - 1 ==> !Clean(oracle(k))
    ensures Clean(oracle(i + r.attempts - 1)) || i + r.attempts - 1 == maxRetries
    ensures r.response == ResponseOf(oracle(i + r.attempts - 1))
    ensures r.error == ErrorOf(oracle(i + r.attempts - 1))
    ensures |r.delays| == r.attempts - 1
    ensures forall k :: 0 <= k < |r.delays| ==> r.delays[k] == i + k + 1
    decreases maxRetries - i
  {
    var o := oracle(i);
    if Clean(o) || i == maxRetries then
      Run(ResponseOf(o), ErrorOf(o), 1, [])
    else
      var rest := AttemptsFrom(oracle, maxRetries, i + 1);
      Run(rest.response, rest.error, rest.attempts + 1, [i + 1] + rest.delays)
  }

  /** `QueryTrace` as a function: validate, then run the bounded retry loop. */
  function Query(c: Client, req: TraceQueryRequest, oracle: Oracle): (r: Run)
    ensures QueryContract(c, req, oracle, r)
  {
    match Validate(req)
    case Some(e) => Run(None, Some(InvalidRequest(e)), 0, [])
    case None =>
      if c.maxRetries < 0 then Run(None, None, 0, [])
      else AttemptsFrom(oracle, c.maxRetries, 0)
  }

  /** The contract leaves no freedom: at most one run meets it. */
  lemma RetryContractIsDeterministic(oracle: Oracle, maxRetries: int, r1: Run, r2: Run)
    requires RetryContract(oracle, maxRetries, r1) && RetryContract(oracle, maxRetries, r2)
    ensures r1 == r2
  {
  }

  /** `QueryTrace` as the source writes it: a counted loop that breaks on a clean attempt
      and sleeps `i + 1` seconds after attempt `i` unless it was the last allowed one. */
  method QueryTraceLoop(c: Client, req: TraceQueryRequest, oracle: Oracle) returns (run: Run)
    ensures QueryContract(c, req, oracle, run)
    ensures run == Query(c, req, oracle)
  {
    var invalid := Validate(req);
    if invalid.Some? {
      return Run(None, Some(InvalidRequest(invalid.value)), 0, []);
    }
    var resp: Option<TraceQueryResponse> := None;
    var lastErr: Option<QueryError> := None;
    var delays: seq<nat> := [];
    var i := 0;
    while i <= c.maxRetries
      invariant 0 <= i && (c.maxRetries >= 0 ==> i <= c.maxRetries + 1)
      invariant forall k :: 0 <= k < i ==> !Clean(oracle(k))
      invariant i == 0 ==> resp == None && lastErr == None
      invariant i > 0 ==> resp == ResponseOf(oracle(i - 1)) && lastErr == ErrorOf(oracle(i - 1))
      invariant c.maxRetries >= 0 && i == c.maxRetries + 1 ==> delays == Ramp(c.maxRetries)
      invariant i <= c.maxRetries ==> delays == Ramp(i)
      invariant c.maxRetries < 0 ==> i == 0 && delays == []
      decreases c.maxRetries + 1 - i
    {
      var o := oracle(i);
      resp, lastErr := ResponseOf(o), ErrorOf(o);
      if Clean(o) {
        i := i + 1;
        break;
      }
      if i < c.maxRetries {
        delays := delays + [i + 1];
      }
      i := i + 1;
    }
    run := Run(resp, lastErr, i, delays);
    RetryContractIsDeterministic(oracle, c.maxRetries, run, Query(c, req, oracle));
  }

  /** Exactly one of `(resp, err)` is non-nil, except when a negative retry bound makes
      the loop run zero times and the call returns `(nil, nil)`. */
  lemma ResponseOrError(c: Client, req: TraceQueryRequest, oracle: Oracle)
    ensures var r := Query(c, req, oracle);
            Validate(req) == None ==> (r.response.Some? != r.error.Some? <==> c.maxRetries >= 0)
    ensures var r := Query(c, req, oracle);
            Validate(req) == None && c.maxRetries < 0 ==> r.response == None && r.error == None
    ensures var r := Query(c, req, oracle);
            Validate(req) != None ==> r.response == None && r.error.Some? && r.error.value.InvalidRequest?
  {
  }

  /** The loop stops at the first clean attempt `k` and returns that response with a nil
      error, having slept `1, ..., k` seconds. */
  lemma StopsAtFirstClean(c: Client, req: TraceQueryRequest, oracle: Oracle, k: nat)
    requires Validate(req) == None && k <= c.maxRetries
    requires Clean(oracle(k)) && forall j :: 0 <= j < k ==> !Clean(oracle(j))
    ensures var r := Query(c, req, oracle);
            r.attempts == k + 1 && r.response == Some(oracle(k).response) && r.error == None
            && r.delays == Ramp(k)
  {
  }

  /** When no attempt is clean (every attempt fails or carries a retry hint), the loop
      spends all `maxRetries + 1` attempts and returns the last outcome unchanged. */
  lemma ExhaustsRetries(c: Client, req: TraceQueryRequest, oracle: Oracle)
    requires Validate(req) == None && c.maxRetries >= 0
    requires forall j :: 0 <= j <= c.maxRetries ==> !Clean(oracle(j))
    ensures var r := Query(c, req, oracle);
            r.attempts == c.maxRetries + 1
            && r.response == ResponseOf(oracle(c.maxRetries))
            && r.error == ErrorOf(oracle(c.maxRetries))
            && r.delays == Ramp(c.maxRetries)
  {
  }

  /** A server that always asks for a retry gets `maxRetries + 1` identical requests and
      the caller receives its last, still retry-hinted, response with a nil error. */
  lemma AlwaysRetryHinted(c: Client, req: TraceQueryRequest, hinted: TraceQueryResponse)
    requires Validate(req) == None && c.maxRetries >= 0 && ShouldRetry(hinted)
    ensures var r := Query(c, req, (i: nat) => Received(hinted));
            r.attempts == c.maxRetries + 1 && r.response == Some(hinted) && r.error == None
  {
    ExhaustsRetries(c, req, (i: nat) => Received(hinted));
  }

  /** A retry hint on the first attempt and a clean answer on the second: one retry, one
      one-second sleep, and the second response is returned. */
  lemma RetryThenSuccess(c: Client, req: TraceQueryRequest, hinted: TraceQueryResponse,
                         clean: TraceQueryResponse)
    requires Validate(req) == None && c.maxRetries >= 1
    requires ShouldRetry(hinted) && !ShouldRetry(clean)
    ensures var r := Query(c, req, (i: nat) => if i == 0 then Received(hinted) else Received(clean));
            r.attempts == 2 && r.response == Some(clean) && r.error == None && r.delays == [1]
  {
    var oracle := (i: nat) => if i == 0 then Received(hinted) else Received(clean);
    StopsAtFirstClean(c, req, oracle, 1);
  }

  /** The sum of a list of delays, in seconds. */
  function TotalDelay(delays: seq<nat>): (total: nat) {
    if |delays| == 0 then 0 else TotalDelay(delays[..|delays| - 1]) + delays[|delays| - 1]
  }

  /** Sleeping `1, ..., n` seconds takes `n(n+1)/2` seconds in all. */
  lemma {:induction false} RampTotal(n: nat)
    ensures 2 * TotalDelay(Ramp(n)) == n * (n + 1)
  {
    if n > 0 {
      RampTotal(n - 1);
      var r := Ramp(n);
      assert r[..n - 1] == Ramp(n - 1);
      assert TotalDelay(r) == TotalDelay(Ramp(n - 1)) + n;
      assert 2 * TotalDelay(r) == (n - 1) * n + 2 * n;
    }
  }

  /** The sleeps of one call are a prefix of `1, 2, ..., maxRetries`, none follows the
      final attempt, and together they never exceed `maxRetries(maxRetries+1)/2` seconds. */
  lemma BackoffSchedule(c: Client, req: TraceQueryRequest, oracle: Oracle)
    ensures var r := Query(c, req, oracle);
            && |r.delays| <= (if c.maxRetries < 0 then 0 else c.maxRetries)
            && (r.attempts == 0 ==> r.delays == [])
            && (r.attempts > 0 ==> |r.delays| == r.attempts - 1)
            && (forall k :: 0 <= k < |r.delays| ==> r.delays[k] == k + 1)
            && (c.maxRetries >= 0 ==> 2 * TotalDelay(r.delays) <= c.maxRetries * (c.maxRetries + 1))
  {
    var r := Query(c, req, oracle);
    if Validate(req) == None && c.maxRetries >= 0 {
      var n := r.attempts - 1;
      RampTotal(n);
      TriangleMonotone(n, c.maxRetries);
    }
  }

  /** `n(n+1)` grows with `n`. */
  lemma TriangleMonotone(n: nat, m: nat)
    requires n <= m
    ensures n * (n + 1) <= m * (m + 1)
  {
    assert n * (n + 1) <= n * (m + 1);
  }

  /** Two outcomes that differ at most in the response's `success` field. */
  predicate SameButSuccessFlag(o1: Outcome, o2: Outcome) {
    match o1
    case Failed(e) => o2 == Failed(e)
    case Received(r) => o2.Received? && o2.response == r.(success := o2.response.success)
  }

  /** Outcomes that differ only in `success` are equally clean and carry the same error. */
  lemma CleanIgnoresSuccessFlag(o1: Outcome, o2: Outcome)
    requires SameButSuccessFlag(o1, o2)
    ensures Clean(o1) == Clean(o2) && ErrorOf(o1) == ErrorOf(o2)
  {
    if o1.Received? {
      assert o2.response.needRetry == o1.response.needRetry;
    }
  }

  /** The loop never looks at `success`: rewriting that field in any attempt's response
      changes neither the number of attempts, the sleeps, nor the error. */
  lemma {:induction false} SuccessFlagIgnoredFrom(o1: Oracle, o2: Oracle, maxRetries: nat, i: nat)
    requires i <= maxRetries
    requires forall k :: SameButSuccessFlag(o1(k), o2(k))
    ensures var r1 := AttemptsFrom(o1, maxRetries, i);
            var r2 := AttemptsFrom(o2, maxRetries, i);
            r1.attempts == r2.attempts && r1.delays == r2.delays && r1.error == r2.error
    decreases maxRetries - i
  {
    CleanIgnoresSuccessFlag(o1(i), o2(i));
    if !Clean(o1(i)) && i < maxRetries {
      SuccessFlagIgnoredFrom(o1, o2, maxRetries, i + 1);
    }
  }

  /** `QueryTrace` consults only `needRetry`, never `success`. */
  lemma SuccessFlagIgnored(c: Client, req: TraceQueryRequest, o1: Oracle, o2: Oracle)
    requires forall k :: SameButSuccessFlag(o1(k), o2(k))
    ensures var r1 := Query(c, req, o1);
            var r2 := Query(c, req, o2);
            r1.attempts == r2.attempts && r1.delays == r2.delays && r1.error == r2.error
            && r1.response.Some? == r2.response.Some?
            && (r1.response.Some? ==> r2.response.value == r1.response.value.(success := r2.response.value.success))
  {
    if Validate(req) == None && c.maxRetries >= 0 {
      SuccessFlagIgnoredFrom(o1, o2, c.maxRetries, 0);
    }
  }
}
