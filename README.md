# Health status holder and `/health` renderer

A model of the Go package `health`. The package keeps one process-wide
health state and renders it as an HTTP response. The state is a status
string (`"UP"`, `"DOWN"` or anything else stored through `SetStatus`), a
free-text reason and an output-mode flag (`useJSON`). External
collaborators, such as a periodic dependency monitor, write the state
through `SetStatus`, `SetReason`, `SetHealthy` and `SetUnhealthy`. Request
handlers read it and render a status code, a body (plain text
`status + ": " + reason`, or a JSON object whose `reason` field is omitted
when empty) and the `Content-Type` and `X-Request-ID` headers.

The project has four modules:

- `Wrappers` (`wrappers.dfy`) holds the `Option` type.
- `HealthState` (`state.dfy`) holds the state as a value and the setter calls
  as commands. `Run` gives the state after any sequence of calls. Lemmas
  cover each call, whole sequences of calls, and the "reason is cleared while
  UP" invariant together with what breaks it.
- `HealthRender` (`render.dfy`) holds the read side as pure functions of a
  snapshot. These are `getStatus` (here `RenderStatus`),
  `GetResponseStatusCodeAndBody`, `ServeHTTP`, `HealthHandler` and
  `JSONHealthHandler`. The JSON body is the abstract `responseBody` record
  under the `omitempty` rule, and `Unmarshal` states how a client reads it
  back. `SplitAtSeparator` is the inverse of the plain-text body.
- `HealthHandlers` (`handlers.dfy`) holds the mutable side. The class
  `HealthHandler` has the fields `status`, `reason` and `useJSON`, and its
  setters write them in place. The class `Health` owns the singleton
  `handler` and returns it from `Handle()`. The package-level setters and
  getters all act on that one instance, so they are methods of its class.

On three points the code behaves differently from what a reader might expect,
and the model follows the code:

- The status is an arbitrary string, not a two-valued enum.
  `RenderStatus` gives 200 only for `"UP"`, and `JSONHealthHandler` gives
  503 only for `"DOWN"`. So for any other stored status the two report
  different codes (`CodesDisagreeOnOtherStatus`).
- The reason appears in both body forms whatever the status is. It is not
  reserved for DOWN. A reason left over from `SetStatus(Up)` after
  `SetUnhealthy("x")` is rendered (`SetStatusKeepsStaleReason`).
- The healthy plain-text body is `"UP: "`, with the trailing separator, as
  the tests expect (`PlainTextBodies`).

## Model

| member | source | states |
|---|---|---|
| `HealthState.Apply` | health.go:168-197 | one setter call never changes the output mode; `SetReason` keeps the status and `SetStatus` keeps the reason (the full result of each call is stated by `ApplyFieldwise`) |
| `HealthState.ApplyFieldwise` | health.go:168-197 | every call's result agrees field by field with an independent per-field reference (`StatusAfter`, `ReasonAfter`), with the mode untouched |
| `HealthState.SetHealthyResult` | health.go:189-192 | after `SetHealthy` the state is UP with reason "" and the prior mode |
| `HealthState.SetUnhealthyResult` | health.go:194-197 | after `SetUnhealthy(r)` the state is DOWN with reason `r` (any `r`, including "") and the prior mode |
| `HealthState.SetHealthyIdempotent` | health.go:189-192 | calling `SetHealthy` twice leaves the same state as calling it once |
| `HealthState.SetStatusKeepsStaleReason` | health_test.go:336-348 | `SetStatus(Up)` after `SetUnhealthy("x")` gives UP with reason "x": `SetStatus` does not clear the reason |
| `HealthState.WithMode` | health.go:199-202 | `WithJSON(v)` sets the mode to `v` and leaves status and reason as they were |
| `HealthState.RunSnoc` | health.go:168-197 | running a sequence of calls and then one more is applying that call to the state the sequence left |
| `HealthState.RunAppend` | health.go:168-197 | running two sequences of calls one after the other is running their concatenation |
| `HealthState.RunKeepsMode` | health.go:168-197 | no sequence of setter calls changes the output mode |
| `HealthState.RunEndsHealthyOrUnhealthy` | health.go:189-197 | after any sequence whose last call is `SetHealthy` the state is UP with reason "", and after one ending in `SetUnhealthy(r)` it is DOWN with reason `r`, whatever came before |
| `HealthState.HealthyUnhealthyKeepReasonCleared` | health.go:189-197 | if only `SetHealthy`/`SetUnhealthy` are called, the state keeps "status UP implies reason empty" |
| `HealthState.IndependentSettersBreakReasonCleared` | health.go:175-180 | a lone `SetReason` from the initial state breaks that invariant |
| `HealthRender.Marshal` | health.go:32-35 | the JSON object carries the status and carries `reason` exactly when it is non-empty, unchanged |
| `HealthRender.MarshalRoundTrip` | health_test.go:90-115 | for status and reason that are valid UTF-8, reading an encoded body back (absent field as "") gives the original status and reason |
| `HealthRender.PlainTextRoundTrip` | health.go:145 | the plain-text body splits at its first ": " back into (status, reason) whenever the status holds no ": " |
| `HealthRender.UpDownHaveNoSeparator` | health.go:24-25 | "UP" and "DOWN" hold no separator, so their text bodies read back |
| `HealthRender.RenderStatus` | health.go:126-155 | mode is passed through; code is 200 exactly when status is UP, else 503; body is JSON exactly in JSON mode, carrying the encoded `responseBody`, else the text `status: reason` |
| `HealthRender.GetResponseStatusCodeAndBody` | health.go:121-124 | gives the code (200 exactly when UP) and the body that `ServeHTTP` writes |
| `HealthRender.ForwardedRequestId` | health.go:72-74 | the `X-Request-ID` header is set exactly when the context's `request_id` is a non-empty string, and then equals it |
| `HealthRender.ServeHTTP` | health.go:46-56 | Content-Type `application/json` exactly in JSON mode; no request id header; code and body as `getStatus` computes them |
| `HealthRender.HealthHandler` | health.go:61-82 | what `ServeHTTP` writes plus the forwarded request id; the returned error is always nil |
| `HealthRender.JSONHealthHandler` | health.go:86-119 | always Content-Type JSON and a JSON body of the stored status and reason; code 503 exactly when status is DOWN, else 200; request id forwarded; error always nil |
| `HealthRender.JsonBodyCarriesStateFields` | health.go:139-143 | the JSON body carries the status string and the reason exactly when non-empty, for every status; in JSON mode both handlers write the same body |
| `HealthRender.JsonHandlerIgnoresMode` | health.go:89-98 | `JSONHealthHandler`'s response is the same whatever `useJSON` is |
| `HealthRender.CodesAgreeOnUpAndDown` | health.go:108-112 | for UP and DOWN the code rule of `getStatus` and that of `JSONHealthHandler` agree (200 for UP, 503 for DOWN), in every mode |
| `HealthRender.CodesDisagreeOnOtherStatus` | health.go:148-152 | for any other stored status `getStatus` gives 503 while `JSONHealthHandler` gives 200 |
| `HealthRender.CodesDisagreeExample` | health.go:110 | concretely, status "DEGRADED" gives 503 plain and 200 from the JSON handler |
| `HealthRender.PlainTextBodies` | health_test.go:24-37 | the healthy plain body is "UP: ", the unhealthy one "DOWN: " + reason, and the latter reads back as (DOWN, reason) |
| `HealthRender.UnhealthyJsonScenario` | health_test.go:45-51 | `SetUnhealthy("Test reason")` in JSON mode serves 503, Content-Type JSON, body {status DOWN, reason "Test reason"} |
| `HealthRender.HealthyJsonScenario` | health_test.go:226-241 | a healthy state serves 200 and a JSON body with status UP and no reason field |
| `HealthHandlers.HealthHandler.Snapshot` | health.go:37-43 | the snapshot holds exactly the object's three fields |
| `HealthHandlers.HealthHandler.constructor` | health.go:26-29 | the handler starts UP, with reason "" and plain-text mode |
| `HealthHandlers.HealthHandler.SetStatus` | health.go:168-173 | writes only `status`; reason and mode unchanged |
| `HealthHandlers.HealthHandler.SetReason` | health.go:175-180 | writes only `reason`; status and mode unchanged |
| `HealthHandlers.HealthHandler.SetHealthy` | health.go:189-192 | leaves UP with reason "", mode unchanged, by the two writes in order |
| `HealthHandlers.HealthHandler.SetUnhealthy` | health.go:194-197 | leaves DOWN with the given reason, mode unchanged, by the two writes in order |
| `HealthHandlers.HealthHandler.GetStatus` | health.go:161-166 | returns the stored status without changing anything |
| `HealthHandlers.HealthHandler.GetReason` | health.go:182-187 | returns the stored reason without changing anything |
| `HealthHandlers.HealthHandler.WithJSON` | health.go:199-202 | sets only `useJSON` and returns the same object |
| `HealthHandlers.Health.constructor` | health.go:23-30 | the package's singleton is a fresh handler in the initial state |
| `HealthHandlers.Health.Handle` | health.go:157-159 | returns the singleton itself |
| `HealthHandlers.ConfigureAndServe` | health_test.go:75-79 | a mode set through `Handle().WithJSON(v)` changes only the mode of the package's `handler`, and `ServeHTTP` on the returned handle serves what the singleton's state renders |
| `HealthHandlers.RecoverAndServe` | health_test.go:24-30 | `SetUnhealthy` then `SetHealthy` on the singleton, then plain `ServeHTTP`, gives 200 and "UP: " |

## Left out

- The `sync.RWMutex` and concurrent use are not modelled. Calls are taken one at a time. `SetHealthy` and `SetUnhealthy` take the lock twice, so under concurrency another writer can run between their two writes. The sequential model does not capture that.
- `encoding/json.Marshal` is not modelled. The body is the abstract object: the JSON text, its escaping and its ignored error are left out.
- `net/http` is not modelled. `ResponseWriter`, the order of `WriteHeader` and `Write`, and the ignored error of `Write` are left out. A response is a plain record.
- `context.Context` is not modelled. The lookup `ctx.Value("request_id").(string)` is a parameter of type `Option<string>`, where a missing or non-string value is `None`.
- The constants `LoggerKey` and `RequestIDKey` are not modelled, because nothing uses them.
- Go strings are byte sequences; the model uses Dafny strings (sequences of characters), so it covers only status and reason strings that are valid UTF-8. It leaves out `json.Marshal`'s replacement of invalid bytes with U+FFFD, by which `SetUnhealthy("\xff")` in JSON mode serves the reason `"\ufffd"`.
- HealthRender.MarshalRoundTrip: holds for valid UTF-8 strings only; in Go, a stored reason with invalid bytes does not read back unchanged from the JSON body.
- `Up` and `Down` are exported package variables that any importer could reassign, which would change what `SetHealthy` stores and what `getStatus` compares against. The model treats them as the fixed constants "UP" and "DOWN"; nothing in the package reassigns them.
- example.go is not part of this model. It holds only a commented-out usage snippet.
- example/main.go and example/health_check_dep/main.go are not part of this model. They hold server wiring, signal handling, sleeps and a ticker-driven monitor that only calls `SetHealthy`/`SetUnhealthy`.
