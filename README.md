# trouble-maker: fault decision and counters, in Dafny

trouble-maker is a fault-injecting HTTP proxy. For each request it walks the
configured `failures`; every failure whose path pattern matches the request path
draws one random sample and, when the sample does not exceed the failure's
`frequency`, either sleeps its `delay` and goes on (Delay), or sleeps its `delay`
and answers with an empty 500 (Error) or 504 (Timeout). A request that is not
answered this way is forwarded to `http://<proxy_address><path and query>` with its
method, version, headers and body. A separate `metrics` module holds named `u32`
counters and a four-line summary rendering.

This project models both pieces and proves their properties.

- `wrappers.dfy` — `Option`.
- `faults.dfy` (module `Faults`) — `FailureType`, `Failure`, `Configuration`; the
  three `inject_*` decisions; `Scan`/`Decide`, a recursive function that follows the
  loop of `new_service` step by step; and `Reference`, a closed form of the same
  decision built from the first firing Error/Timeout (`FirstEnding`), the number of
  matches before an index (`MatchesBefore`) and the sum of the delays that fire
  (`DelaySum`).
- `fault_properties.dfy` (module `FaultProperties`) — lemmas: the scan equals the
  closed form; ordering, early exit, continuation, skipping, delay accumulation and
  sample counting; the frequency edge cases.
- `service.dfy` (module `Service`) — requests, the upstream URI, `Proxy` (the URI
  built by appending to a string, the fields copied one by one) and `NewService`
  (the `for` loop with early returns, proved equal to `Decide`).
- `decimal.dfy` (module `Decimal`) — decimal rendering of a number, as `{}` prints a
  `u32`, and its inverse.
- `metrics.dfy` (module `Metrics`) — the `Counter` class, the `Metrics` class of six
  counters, the summary rendering and a parser that reads it back.
- `metrics_tests.dfy` (module `MetricsTests`) — the unit tests of `src/metrics.rs` as
  verified client code, and the general n − m law behind two of them.

Foreign parts are parameters: regular-expression matching is a total function
`matches(pattern, path)`; the random numbers are `draws`, where `draws(k)` is the
k-th sample a request draws; `thread::sleep` is a delay added to the decision's
`totalDelay`; `f32` values are reals.

## Behaviour as coded

The model follows `src/main.rs` as written:

- The scan does not stop at the first matching pattern. Every matching failure is
  consulted, each with its own sample, until an Error or Timeout fires. Delays of
  several matching Delay failures add up, and a matching Error or Timeout that does
  not fire lets the scan go on (`DecideAppend`, `UnfiredEndingContinues`).
- `src/main.rs` never uses the `Metrics` counters. Nothing in the request path
  increments `requests`, `delays`, `errors` or `timeouts`, and the
  `ConcurrentRequests` and `ShedRequests` counters are never used to admit or shed
  a request. The model therefore keeps the counters separate from the request path.
- A failure fires when `sample <= frequency`. A frequency of 0.0 therefore still fires
  on a sample of exactly 0.0, which `rand::random::<f32>()` can return
  (`ZeroFrequencyFiresOnZeroOnly`).
- `Counter::decrement` on 0 is a `u32` underflow: a panic in a debug build, a
  wrap-around to 4294967295 in a release build. The model requires `value > 0`
  instead.
- The summary line for timeouts reads `Timedout Requets:`, with the source's spelling.

## Model

| member | source | states |
|---|---|---|
| Faults.InjectDelay | src/main.rs:123-128 | sleeps the failure's delay exactly when the sample is at most the frequency; a non-zero sleep only happens then |
| Faults.InjectError | src/main.rs:130-142 | yields a response iff the sample is at most the frequency; that response is a 500 with an empty body after sleeping the failure's delay |
| Faults.InjectTimeout | src/main.rs:144-156 | yields a response iff the sample is at most the frequency; that response is a 504 with an empty body after sleeping the failure's delay |
| Faults.FirstEnding | src/main.rs:63-81 | the index of the first Error or Timeout that fires is one that does fire, and no failure before it ends the scan |
| FaultProperties.DecideIsReference | src/main.rs:61-86 | the loop's decision equals the closed form: first firing Error/Timeout, sum of firing delays up to it, one sample per matching failure |
| FaultProperties.FirstFiringEndingAnswers | src/main.rs:63-81 | the first Error or Timeout that fires answers with its own response (500 for Error, 504 for Timeout), after the delays of all failures that fired up to and including it, having drawn one sample per matching failure up to it |
| FaultProperties.NoFiringEndingForwards | src/main.rs:63-85 | when no Error or Timeout fires the request is forwarded after all firing delays, having drawn exactly one sample per matching failure |
| FaultProperties.ForwardIff | src/main.rs:63-85 | a request is forwarded if and only if no matching Error or Timeout fires |
| FaultProperties.DelaysOnlyForward | src/main.rs:73-75 | Delay failures never produce a response |
| FaultProperties.NoMatchForwards | src/main.rs:63-85 | a path no pattern matches is forwarded with no delay and no sample drawn |
| FaultProperties.DecideAppend | src/main.rs:63-83 | failures are consulted in list order: a later list is consulted only if the earlier one did not answer, and then with the delay slept and samples drawn so far |
| FaultProperties.LaterFailuresIgnored | src/main.rs:68-80 | once an Error or Timeout has answered, failures after it change nothing |
| FaultProperties.NonMatchingSkipped | src/main.rs:64-66 | a failure whose pattern does not match is skipped and draws no sample |
| FaultProperties.ScanFromState | src/main.rs:63-83 | continuing the scan after `s` ms slept and `d` samples drawn is deciding afresh on the samples from the `d`-th on, then adding `s` and `d` |
| FaultProperties.MatchingDelayContinues | src/main.rs:73-75 | a matching Delay draws one sample, adds its delay when it fires, and the rest of the list decides on the remaining samples |
| FaultProperties.UnfiredEndingContinues | src/main.rs:68-80 | a matching Error or Timeout that does not fire draws one sample, adds no delay, and the rest of the list decides on the remaining samples |
| FaultProperties.FiredEndingAnswers | src/main.rs:68-80 | a matching Error or Timeout that fires answers at once, after its own delay, with one sample drawn |
| FaultProperties.FullFrequencyFires | src/main.rs:124-125 | with a sample in [0, 1), a frequency of 1.0 or more always fires |
| FaultProperties.FullFrequencyEndingNeverForwards | src/main.rs:63-81 | with samples in [0, 1), a path matched by an Error or Timeout of frequency 1.0 or more is never forwarded |
| FaultProperties.ZeroFrequencyFiresOnZeroOnly | src/main.rs:131-132 | with a sample in [0, 1), frequency 0.0 fires exactly when the sample is 0.0 |
| FaultProperties.ZeroFrequencyEndingsForward | src/main.rs:63-85 | with positive samples, Errors and Timeouts of frequency 0.0 never answer, so the request is forwarded |
| FaultProperties.TimeoutExample | src/main.rs:144-153 | a Timeout on "/test" with frequency 1.0 and delay 500 answers 504 with an empty body after 500 ms |
| FaultProperties.DrawsAtMostMatches | src/main.rs:63-83 | a request never draws more samples than there are failures matching its path |
| Service.UpstreamUriRoundTrip | src/main.rs:91-98 | the path and query can be read back from the upstream URI: it is "http://" plus the address plus the path and query |
| Service.UpstreamUriInjective | src/main.rs:91-98 | different paths and queries go to different upstream URIs |
| Service.Proxy | src/main.rs:88-104 | the URI is "http://" ++ address ++ path and query when present, "http://" ++ address otherwise; method, version, headers and body are those of the incoming request |
| Service.NewService | src/main.rs:61-86 | the time slept, the samples drawn and the synthetic-or-forwarded reply are those of the fault decision; a forwarded request is the incoming one with only the URI replaced |
| Decimal.NatToString | src/metrics.rs:54-55 | the decimal text of a count is non-empty, all digits, with no leading zero |
| Decimal.ReadNatToString | src/metrics.rs:54-55 | the decimal text of a count, followed by a non-digit, reads back as that count |
| Metrics.Counter.constructor | src/metrics.rs:11-13 | a new counter has the given name and value 0 |
| Metrics.Counter.Increment | src/metrics.rs:14-17 | the value rises by exactly 1 and the new value is returned; requires no `u32` overflow |
| Metrics.Counter.Decrement | src/metrics.rs:19-22 | the value falls by exactly 1 and the new value is returned; requires no `u32` underflow |
| Metrics.Metrics.constructor | src/metrics.rs:36-45 | six fresh, distinct counters named Requests, Delays, Errors, Timeouts, ConcurrentRequests and ShedRequests, all at 0 |
| Metrics.Metrics.IncrementCounter | src/metrics.rs:26-33 | incrementing one counter of a `Metrics` raises it by 1 and leaves the other five unchanged |
| Metrics.Metrics.DecrementCounter | src/metrics.rs:26-33 | decrementing one counter of a `Metrics` lowers it by 1 and leaves the other five unchanged |
| Metrics.DisplayRoundTrip | src/metrics.rs:52-57 | the four counts shown (requests, delays, errors, timeouts) can be read back from the rendering |
| Metrics.DisplayShowsExactlyFourCounts | src/metrics.rs:52-57 | two snapshots render alike iff requests, delays, errors and timeouts agree: concurrent and shed requests are not shown |
| Metrics.Metrics.Fmt | src/metrics.rs:52-57 | the rendering of a `Metrics` reads back as its requests, delays, errors and timeouts values |
| Metrics.DisplayExample | src/metrics.rs:54-55 | the rendering is "Request Count: R.\nDelayed Requests: D.\nErrored Requests: E.\nTimedout Requets: T.\n" |
| MetricsTests.NewCounterIsZero | src/metrics.rs:63-67 | a new counter reads 0 |
| MetricsTests.IncrementThreeTimes | src/metrics.rs:69-76 | three increments give 3 |
| MetricsTests.NewMetricsAllZero | src/metrics.rs:78-87 | every counter of a new `Metrics` reads 0 |
| MetricsTests.IncrementThreeDecrementTwo | src/metrics.rs:89-98 | three increments and two decrements give 1 |
| MetricsTests.IncrementThenDecrement | src/metrics.rs:89-98 | n increments followed by m ≤ n decrements give n − m |

## Left out

- Regular expressions (`Regex::new`, `is_match`, the panic on a bad pattern): a foreign library; matching is the parameter `matches`.
- `rand::random`: a foreign call; the samples are the parameter `draws`.
- `f32` arithmetic of `frequency` and the sample: reals are used; rounding is not modelled.
- `thread::sleep`: the time slept is returned as a number of milliseconds; no waiting happens.
- hyper, futures and `http::Uri`: the client, the server, `service_fn`, `Body`, `Response::builder` and `uri.parse::<Uri>().unwrap()` are network I/O and library wrappers. The incoming URI is represented by its `path()` and `path_and_query()`; the outgoing URI is the string before it is parsed, so the parse failure panic is not modelled.
- `Service.Proxy`: the default values of `Request::new` are modelled as a fixed placeholder request, as they are all overwritten except the body.
- Logging: `log_request`, `Configuration::print`, `info!`.
- Configuration loading (`init`, and all of `src/config.rs`, whose records duplicate those of `src/main.rs`): file I/O.
- `listener_address` and `main`: binding the listener is I/O; the address is carried in `Configuration` but not used.
- `Metrics::to_json`: a wrapper over `serde_json`.
- Per-connection configuration cloning and the async runtime: concurrency plumbing.
- Counter updates in the request path, and admission or shedding by the `ConcurrentRequests` and `ShedRequests` counters: `src/main.rs` has none of them.
- Metrics.Counter.Increment: requires `value < 4294967295` instead of modelling the overflow panic (debug) or wrap-around (release).
- Metrics.Counter.Decrement: requires `value > 0` instead of modelling the underflow panic (debug) or wrap-around (release).
- Metrics.Metrics.IncrementCounter: stands for a caller writing `metrics.<field>.increment()` on the public fields; `Metrics` has no such method of its own.
