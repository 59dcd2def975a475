# STO trace-query client: request validation, construction and the retry loop

This project models the pure core of the Go client for STO's logistics trace-query API
(`sto/client.go`): checking a `TraceQueryRequest`, the two string-encoded response flags,
building a `Client` from defaults and functional options, and the bounded, linearly
backed-off retry loop of `QueryTrace`.

The HTTP exchange of one attempt (`doRequest`) is replaced by an oracle, a function from
the attempt index to that attempt's outcome: either an error (one case per error return of
`doRequest`) or a decoded response. That shape keeps the source's invariant that an error
never comes with a response and a response never comes with an error. `time.Sleep` is
recorded, not performed: each sleep is appended, in whole seconds, to the run's list of delays.

Modules:
- `Wrappers`: `Option`, standing for Go's nil-able values.
- `Request`: `TraceQueryRequest` and `Validate`.
- `Response`: `TraceInfo`, `TraceQueryResponse`, `IsSuccess` and `ShouldRetry`.
- `ClientConfig`: `Client`, the option constructors, `NewClient`, and last-writer-wins lemmas.
- `QueryTrace`: attempt outcomes and `Run` (response, error, attempt count, delays).
  It holds the functional loop (`AttemptsFrom`, `Query`) and the imperative loop
  (`QueryTraceLoop`). Both are proved to meet one declarative contract (`RetryContract`),
  and that contract admits exactly one run.

Behaviour of the source that is easy to misread, and that the model keeps:
- The field comment on `Order` (sto/client.go:106) and the error message (line 116) name
  only `asc` and `desc`. The check at line 115 also accepts the empty string.
- The loop at line 214 retries every error from `doRequest`, decode failures included.
- The loop at line 208 accepts a negative retry bound. Then it makes no attempt and returns
  `(nil, nil)`, the only case where both results are nil (`QueryTrace.ResponseOrError`).

## Model

| member | source | states |
|---|---|---|
| `Request.Validate` | sto/client.go:111-119 | An empty waybill list is always the reported error, whatever the order holds. With waybills present, the request is accepted exactly when the order is `""`, `"asc"` or `"desc"`, and otherwise the order error is reported. |
| `Request.OrderIsCaseSensitive` | sto/client.go:115-117 | The order check is exact and case-sensitive: `"ASC"`, `"Desc"` and `" asc"` are refused, while `""`, `"asc"` and `"desc"` are accepted. |
| `Request.ValidateIgnoresWaybillContents` | sto/client.go:112 | Validation depends only on the order and on whether the list is empty, never on the waybill numbers themselves. |
| `Response.FlagsReadOnlyTheirOwnField` | sto/client.go:164-171 | `IsSuccess` holds iff `success` is exactly `"true"`, and is unaffected by `needRetry`. `ShouldRetry` holds iff `needRetry` is exactly `"true"`, and is unaffected by `success`. |
| `Response.FlagsAreExactMatches` | sto/client.go:164-171 | Other spellings of truth (`"True"`, `"TRUE"`, `"1"`, `""`) read as false for both flags. |
| `ClientConfig.ApplyAll` | sto/client.go:76-78 | Applying the library's options never changes the credentials or the debug flag. |
| `ClientConfig.ApplyAllSetting` | sto/client.go:76-78 | For each of timeout, retry bound and transport: after the options run, the setting holds the value written by the last option that targets it, or its starting value if no option does. |
| `ClientConfig.ApplyAllTimeout` | sto/client.go:44-48 | After the options run, the timeout is the value of the last `WithTimeout`, or unchanged if there is none. |
| `ClientConfig.ApplyAllMaxRetries` | sto/client.go:51-55 | After the options run, the retry bound is the value of the last `WithMaxRetries`, or unchanged if there is none. |
| `ClientConfig.ApplyAllHttpClient` | sto/client.go:58-62 | After the options run, the transport is the value of the last `WithHTTPClient`, which may be nil, or unchanged if there is none. |
| `ClientConfig.ApplyAllConcat` | sto/client.go:76-78 | Options run left to right: running `a ++ b` equals running `a` and then `b`. |
| `ClientConfig.NewClient` | sto/client.go:65-87 | With the library's options, credentials are stored unchanged and debug is off. Timeout and retry bound default to 30 s and 3, and otherwise take the last option's value. A non-nil transport from the last transport option is kept. Otherwise a default transport bound to the final timeout is created, so the transport is never nil. |
| `ClientConfig.NewClientDefaults` | sto/client.go:65-87 | With no options the client is the credentials, debug off, a 30 s timeout, 3 retries and a default transport with a 30 s timeout. |
| `ClientConfig.LastOptionWins` | sto/client.go:76-85 | Later options overwrite earlier ones. A nil transport option followed by a later timeout yields a default transport with that later timeout. A supplied transport is kept even when a timeout option follows it. |
| `QueryTrace.Ramp` | sto/client.go:218-220 | The back-off schedule has `n` entries, and entry `k` is `k+1` seconds. |
| `QueryTrace.AttemptsFrom` | sto/client.go:207-221 | Starting at attempt `i`, the loop makes 1 to `maxRetries+1-i` attempts, and every attempt but the last was unclean. It stops at a clean attempt or at attempt `maxRetries`, and returns that attempt's response and error. After the attempt at index `i+k` it slept `i+k+1` seconds, and it never sleeps after its last attempt. |
| `QueryTrace.Query` | sto/client.go:174-224 | An invalid request returns `(nil, validation error)` with no attempt and no sleep. A negative bound returns `(nil, nil)` with no attempt. Otherwise the loop makes between 1 and `maxRetries+1` attempts. It stops at the first clean attempt or after `maxRetries+1` attempts, and returns the last attempt's outcome verbatim. The delays are `1..attempts-1`. |
| `QueryTrace.QueryTraceLoop` | sto/client.go:204-223 | The counted loop with `break`, as the source writes it, meets the same contract as `Query` and returns the same run. |
| `QueryTrace.RetryContractIsDeterministic` | sto/client.go:208-223 | At most one result satisfies the loop's contract, so the contract fixes the attempt count, the result and the delays completely. |
| `QueryTrace.ResponseOrError` | sto/client.go:204-223 | For a valid request, exactly one of response and error is non-nil iff `maxRetries >= 0`. With a negative bound both are nil. An invalid request gives a nil response and a validation error. |
| `QueryTrace.StopsAtFirstClean` | sto/client.go:213-216 | If attempt `k <= maxRetries` is the first with no error and no retry hint, the call makes `k+1` attempts. It returns that response with a nil error after sleeping `1..k` seconds. |
| `QueryTrace.ExhaustsRetries` | sto/client.go:208-223 | If no attempt up to `maxRetries` is clean, the call makes exactly `maxRetries+1` attempts. It returns the last attempt's response and error unchanged, after sleeping `1..maxRetries` seconds. |
| `QueryTrace.AlwaysRetryHinted` | sto/client.go:213-216 | Against a server that always sets the retry hint, the call makes `maxRetries+1` attempts and returns the last hinted response with a nil error. |
| `QueryTrace.RetryThenSuccess` | sto/client.go:213-220 | A hinted first answer followed by a clean second answer, with `maxRetries >= 1`, gives two attempts and one 1-second sleep, and returns the second response. |
| `QueryTrace.RampTotal` | sto/client.go:218-220 | Sleeping through the schedule `1..n` takes `n(n+1)/2` seconds in total. |
| `QueryTrace.BackoffSchedule` | sto/client.go:218-220 | The sleeps are a prefix of `1, 2, …, maxRetries`, one fewer than the attempts, so there is none after the final attempt. Their total never exceeds `maxRetries(maxRetries+1)/2` seconds. |
| `QueryTrace.CleanIgnoresSuccessFlag` | sto/client.go:214 | Two attempt outcomes that differ only in `success` are either both clean or both unclean, and they carry the same error. |
| `QueryTrace.SuccessFlagIgnoredFrom` | sto/client.go:214 | From any attempt on, outcomes that differ only in `success` give the same attempt count, delays and error. |
| `QueryTrace.SuccessFlagIgnored` | sto/client.go:214 | The loop never consults `success`. Rewriting it in any response changes neither the attempts, the sleeps nor the error, and changes the returned response only in that field. |

## Left out

- `doRequest` (sto/client.go:227-276) is network I/O. It is represented only by the per-attempt outcome oracle: request creation, the User-Agent header, `client.Do`, reading the body, the status check and JSON decoding are not modelled.
- JSON encoding of the request (lines 181-184) is library behaviour. Its error branch cannot fire for a struct of strings, so the model has no marshal-failure path.
- The `data_digest` signature (MD5 then base64, lines 187-189), the query parameters, URL encoding and the request URL (lines 192-202) are calls into Go's hashing and encoding libraries. They are built once before the loop, and every attempt sends the same request. The oracle therefore depends only on the attempt index.
- Debug output (lines 209-211, 228-232, 260-263) is console output only.
- `EnableDebug` / `DisableDebug` and the `sync.RWMutex` (lines 90-102, 244-247) exist for concurrency. The model is sequential, so the unlocked reads of `Debug` at lines 209 and 228 are outside it.
- Decoding a response body into `TraceQueryResponse` and its `data` map is JSON library behaviour. The datatypes are modelled, the decoder is not.
- `QueryTrace.Query`: uses unbounded integers for the loop counter and the delays. It does not reproduce Go's `int` wrap-around of `i++` when `maxRetries` is the largest `int`, where the source loop never ends by count. It also does not reproduce the `int64` overflow of `time.Duration(i+1) * time.Second` beyond about 9.2 billion seconds.
- `QueryTrace.QueryTraceLoop`: same integer simplification as `Query`. Its counter is the number of attempts made, which is one more than the source's `i` when the loop breaks.
- `ClientConfig.ApplyAll`: options are limited to the library's three constructors (`WithTimeout`, `WithMaxRetries`, `WithHTTPClient`). In the source an option is any `func(*Client)` (line 41), so a caller's own closure could also write `AppKey`, `AppSecret`, `FromCode` or `Debug`. The model promises that credentials and debug are unchanged only for the library's options.
- `ClientConfig.NewClient`: same restriction to the library's three option constructors. A caller's own closure could change the credentials or turn debug on before the transport is set up. A nil option would panic at line 77, and the model has no nil option.
- `Request.Validate`: a request is always a value here. A nil `*TraceQueryRequest` passed to `QueryTrace` panics at line 112, and the model cannot express that.
