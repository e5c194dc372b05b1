# XhrLoader: a verified model of hls.js's XHR request loader

`XhrLoader` (src/utils/xhr-loader.js) fetches one resource, optionally a byte range,
through the browser's `XMLHttpRequest`. One logical load may take several physical
attempts. Around the browser object the loader keeps:

- a per-attempt **request timer** that only *notifies* the caller (`onTimeout`);
- a **retry policy**: a non-2xx answer is retried while `stats.retry < config.maxRetry`,
  after a delay that starts at `config.retryDelay` and doubles up to 64000 ms;
- **abort/destroy** semantics: an `aborted` flag that makes late completions inert, and
  both timers cleared;
- **statistics**: `trequest`, `tfirst`, `loaded`, `total`, `tload`, `retry`;
- a `Range: bytes=<start>-<end-1>` header (inclusive last-byte-pos, section 14.1.2 of
  RFC 9110).

The model has seven modules:

- `Wrappers`: `Option`, for JavaScript's `undefined`.
- `Decimal`: how JavaScript writes an integer into a string, and a parser that reads it
  back.
- `LoadPolicy`: the 2xx test, the backoff step and its closed form, and the Range header
  value with a parser and a round-trip lemma.
- `LoaderSpec`: the loader's fields as a value (`LoaderState`) and one pure step function
  per handler. It also holds `Event`, `Step` and `Run` for sequences of caller calls and
  browser events.
- `LoaderProperties`: lemmas about the step functions. They cover each handler, the
  invariant kept over every run (retry bound, backoff schedule, first-byte time), silence
  after `abort`, and at most one final callback per load.
- `Xhr`: class `XhrLoader`. Its fields are updated in place, in the source's order. Each
  method ensures `State() == <step>(old(State()))`, so the lemmas above apply to it.
- `Scenarios`: clients that drive a fresh loader through whole loads.

Browser objects are abstracted as follows:

- The XMLHttpRequest is `Option<XhrRequest(url, range, done, cancelled)>`. `done` stands
  for readyState 4; `cancelled` means `xhr.abort()` was called.
- Timers are `Disarmed | Armed(delay)`.
- `performance.now()` is an integer argument `now`.
- Each callback invocation is appended to `calls`, with a copy of the stats it received.

The browser's own actions are methods that call the handlers:

- `Respond`: readyState 4 followed by `loadend`.
- `Progress`.
- `FireRequestTimer`.
- `FireRetryTimer`.

In these corner cases the code behaves as follows, and the model follows it:

- `loadprogress` and `loadtimeout` do not test `stats.aborted`. After `abort`, silence
  comes from two things: the request is cancelled, so it delivers no more progress, and
  both timers are cleared (`AbortSilences`). The flag is not what silences them.
- A Range header is sent when `context.rangeEnd` is truthy. So `rangeEnd == 0` sends no
  header, whatever `rangeStart` is.
- A new attempt resets only `tfirst` and `loaded`. `total`, `tload`, `retry` and
  `aborted` carry over.
- `load` does not clear a pending retry timer. If `load` is called again during a backoff
  without `abort`, the old timer still starts an attempt, and two final callbacks can
  follow (`ReloadDuringBackoff`). "At most one final callback" holds for loads started
  with no retry pending and no earlier request still live (`AtMostOneTerminal`).
- If the first progress event of an attempt has `max(now, trequest) == 0`, `tfirst` stays
  0 and the next event sets it again. This is the `tfirst === 0` test taken literally.

## Model

| member | source | states |
|---|---|---|
| `Decimal.NatToString` | src/utils/xhr-loader.js:57 | the numeral of a natural is all digits, never empty, and starts with '0' only for 0 |
| `Decimal.NatToStringRoundTrip` | src/utils/xhr-loader.js:57 | reading the digits of a written natural gives the natural back |
| `Decimal.IntToString` | src/utils/xhr-loader.js:57 | an integer is written as a minus sign exactly when negative, then digits |
| `Decimal.IntToStringRoundTrip` | src/utils/xhr-loader.js:57 | parsing a written integer gives the integer back |
| `LoadPolicy.IsSuccess` | src/utils/xhr-loader.js:86-87 | a status is a success exactly when it is a 3-digit code of class 2xx |
| `LoadPolicy.NextDelay` | src/utils/xhr-loader.js:101 | one backoff step never exceeds 64000, is either the cap or double the delay, and never shrinks a non-negative delay below min(d, 64000) |
| `LoadPolicy.DelayAfterBounded` | src/utils/xhr-loader.js:38-101 | `DelayAfter(d, n)`, the delay after n backoff steps, is within 64000 once n >= 1, and never below d when d is already within the cap |
| `LoadPolicy.DelayAfterClosedForm` | src/utils/xhr-loader.js:38-101 | after n >= 1 backoff steps from d the delay is min(2^n * d, 64000) |
| `LoadPolicy.CapReached` | src/utils/xhr-loader.js:101 | from any positive delay, 16 or more steps sit at the 64000 cap |
| `LoadPolicy.FindSeparator` | src/utils/xhr-loader.js:57 | the result is the first '-' at or after k (or the end) |
| `LoadPolicy.RangeHeaderValue` | src/utils/xhr-loader.js:57 | the header `bytes=<start>-<end-1>` parses back to the inclusive range start..end-1, which holds end-start bytes |
| `LoadPolicy.ByteRangeSpecRoundTrip` | src/utils/xhr-loader.js:56-58 | writing any first and last byte as `bytes=<first>-<last>` and parsing it gives both back, negative values included |
| `LoaderSpec.RangeFor` | src/utils/xhr-loader.js:56-58 | a Range header is present exactly when rangeEnd is set and non-zero, and then it denotes rangeStart..rangeEnd-1 |
| `LoaderSpec.AbortStep` | src/utils/xhr-loader.js:20-31 | `abort` as a state change; no contract of its own, its properties are `AbortClearsTimers` and `AbortIdempotent` |
| `LoaderSpec.DestroyStep` | src/utils/xhr-loader.js:15-18 | `destroy` as a state change; stated by `DestroyIdempotent` |
| `LoaderSpec.AttemptStep` | src/utils/xhr-loader.js:42-69 | `loadInternal` as a state change; stated by `AttemptKeepsRetryState` |
| `LoaderSpec.LoadStep` | src/utils/xhr-loader.js:33-40 | `load` as a state change; stated by `LoadStartsFirstAttempt` |
| `LoaderSpec.LoadEndStep` | src/utils/xhr-loader.js:71-109 | `loadend` as a state change; stated by `AbortedCompletionIsNoop`, `CompletionClearsRequestTimer`, `SuccessfulCompletion`, `FailureNeverSucceeds`, `RetryIffBelowMax`, `RetryTransition` and `PermanentFailure` |
| `LoaderSpec.TimeoutStep` | src/utils/xhr-loader.js:111-114 | `loadtimeout` as a state change; stated by `TimeoutOnlyNotifies` |
| `LoaderSpec.ProgressStep` | src/utils/xhr-loader.js:116-129 | `loadprogress` as a state change; stated by `ProgressUpdate` |
| `LoaderSpec.Enabled` | src/utils/xhr-loader.js:51-52 | which events can happen: caller calls always; readyState 4 and progress only from a live request; a timer only while armed |
| `LoaderSpec.Step` | src/utils/xhr-loader.js:51-99 | one event applied: loadend after readyState 4 (line 51), progress (line 52), the request timer (line 67), the retry timer (line 99); stated by `StepPreservesInv` and the one-load lemmas |
| `LoaderProperties.LoadStartsFirstAttempt` | src/utils/xhr-loader.js:33-40 | load stamps trequest = now, sets retry 0 and the configured delay, sends one request and arms the request timer, without calling anything or touching the retry timer |
| `LoaderProperties.AttemptKeepsRetryState` | src/utils/xhr-loader.js:42-69 | every attempt sends a live request for the URL, resets tfirst and loaded to 0 and arms the request timer with config.timeout, leaving retry, retryDelay and the retry timer alone |
| `LoaderProperties.AbortedCompletionIsNoop` | src/utils/xhr-loader.js:78-81 | a completion on an aborted load leaves the entire state unchanged |
| `LoaderProperties.CompletionClearsRequestTimer` | src/utils/xhr-loader.js:83-84 | any completion on a live load disarms the request timer |
| `LoaderProperties.SuccessfulCompletion` | src/utils/xhr-loader.js:86-90 | a 2xx completion appends exactly one onSuccess, sets tload = max(tfirst, now) >= tfirst, and leaves the delay, retry timer and request alone |
| `LoaderProperties.FailureNeverSucceeds` | src/utils/xhr-loader.js:91-108 | a non-2xx completion appends nothing or one onError(status, text), never onSuccess |
| `LoaderProperties.RetryIffBelowMax` | src/utils/xhr-loader.js:94 | the retry count changes if and only if a live load fails with retry < maxRetry |
| `LoaderProperties.RetryTransition` | src/utils/xhr-loader.js:94-102 | a retry drops the request, arms the retry timer with the pre-doubling delay, doubles the delay up to the cap, adds exactly 1 to retry, calls nothing, and marks the load aborted only if the request had not finished |
| `LoaderProperties.PermanentFailure` | src/utils/xhr-loader.js:104-107 | with no retry left, one onError(status, text) is appended and stats, delay, retry timer and request are unchanged |
| `LoaderProperties.AbortClearsTimers` | src/utils/xhr-loader.js:20-31 | abort disarms both timers, sets aborted exactly when an unfinished request exists (cancelling it), leaves no live request and calls nothing |
| `LoaderProperties.AbortIdempotent` | src/utils/xhr-loader.js:20-31 | aborting twice equals aborting once |
| `LoaderProperties.DestroyIdempotent` | src/utils/xhr-loader.js:15-18 | destroy is abort's effect plus no request, and destroying again changes nothing |
| `LoaderProperties.ProgressUpdate` | src/utils/xhr-loader.js:116-129 | only a progress event seeing tfirst == 0 sets it, to max(now, trequest); loaded is overwritten; total changes only when computable; onProgress only when supplied; retry state and timers untouched |
| `LoaderProperties.TimeoutOnlyNotifies` | src/utils/xhr-loader.js:111-114 | a timeout is only advisory: the request stays live exactly as before, and a later completion does what it would have done without the timeout, with onTimeout(stats) called before its own callbacks |
| `LoaderProperties.InitialInv` | src/utils/xhr-loader.js:9-13 | a new loader satisfies the invariant |
| `LoaderProperties.StepPreservesInv` | src/utils/xhr-loader.js:15-129 | every caller call and browser event keeps retry <= maxRetry (from 0), retryDelay == DelayAfter(config.retryDelay, retry) and tfirst == 0 or tfirst >= trequest |
| `LoaderProperties.RunPreservesInv` | src/utils/xhr-loader.js:15-129 | the invariant holds after any sequence of calls and events |
| `LoaderProperties.RetryNeverExceedsMax` | src/utils/xhr-loader.js:37-102 | from a new loader no sequence of events takes retry above max(0, maxRetry) |
| `LoaderProperties.PermanentFailureAtMaxRetry` | src/utils/xhr-loader.js:94-107 | in a reachable state (`Inv`) and for maxRetry >= 0, a live failing completion calls onError exactly when retry == maxRetry |
| `LoaderProperties.RetrySchedule` | src/utils/xhr-loader.js:99-102 | the k-th retry timer is armed with DelayAfter(d, k-1), i.e. d, min(2d, 64000), min(4d, 64000), ... |
| `LoaderProperties.QuietStaysSilent` | src/utils/xhr-loader.js:20-31 | with no timer armed and no live request, no sequence of events without load calls anything |
| `LoaderProperties.QuietEnablesOnlyCallerEvents` | src/utils/xhr-loader.js:20-31 | with no timer armed and no live request, only load, abort and destroy can happen: the browser has nothing to deliver |
| `LoaderProperties.AbortSilences` | src/utils/xhr-loader.js:20-31 | abort leaves no timer armed and no live request, so only caller calls can follow (`QuietEnablesOnlyCallerEvents`), and no sequence of browser events, aborts or destroys calls any callback until the next load |
| `LoaderProperties.AtMostOneTerminal` | src/utils/xhr-loader.js:71-109 | a load started with no retry pending and no earlier request live calls onSuccess or onError at most once, whatever follows short of another load |
| `Xhr.XhrLoader.constructor` | src/utils/xhr-loader.js:9-13 | a new loader records whether a setup hook exists and has no request, no timer and no calls |
| `Xhr.XhrLoader.Destroy` | src/utils/xhr-loader.js:15-18 | the new state is abort's followed by releasing the request |
| `Xhr.XhrLoader.Abort` | src/utils/xhr-loader.js:20-31 | the new state is AbortStep of the old one |
| `Xhr.XhrLoader.Load` | src/utils/xhr-loader.js:33-40 | the new state is LoadStep: fresh stats, configured delay, one attempt |
| `Xhr.XhrLoader.LoadInternal` | src/utils/xhr-loader.js:42-69 | the new state is AttemptStep: a new request with its Range header, per-attempt stats reset, request timer armed |
| `Xhr.XhrLoader.LoadEnd` | src/utils/xhr-loader.js:71-109 | the new state is LoadEndStep: no-op when aborted, else success, retry or permanent failure |
| `Xhr.XhrLoader.LoadTimeout` | src/utils/xhr-loader.js:111-114 | the new state is TimeoutStep: one onTimeout call |
| `Xhr.XhrLoader.LoadProgress` | src/utils/xhr-loader.js:116-129 | the new state is ProgressStep |
| `Xhr.XhrLoader.Respond` | src/utils/xhr-loader.js:51 | the request reaches readyState 4 and its loadend handler runs |
| `Xhr.XhrLoader.Progress` | src/utils/xhr-loader.js:52 | a progress event of the live request runs the progress handler |
| `Xhr.XhrLoader.FireRequestTimer` | src/utils/xhr-loader.js:67 | the armed request timer expires and runs the timeout handler |
| `Xhr.XhrLoader.FireRetryTimer` | src/utils/xhr-loader.js:99 | the armed retry timer expires and starts the next attempt |
| `Scenarios.LastAttempt` | src/utils/xhr-loader.js:86-107 | the attempt a load ends on is the first 2xx answer or the first with no retry left; every earlier attempt failed with retries remaining |
| `Scenarios.LoadBeginsFirstAttempt` | src/utils/xhr-loader.js:33-40 | load on a new loader reaches `AttemptState(.., 0)`: stats stamped now, the configured delay, one live request with its Range header, the request timer armed, no calls |
| `Scenarios.ScheduleDelays` | src/utils/xhr-loader.js:99-101 | the j-th of the first n retry delays is the configured delay with j backoff steps applied |
| `Scenarios.StartLoad` | src/utils/xhr-loader.js:33-40 | a new loader object on which load is called is in attempt 0 |
| `Scenarios.FinalRound` | src/utils/xhr-loader.js:86-107 | driving the last attempt through a loader object calls exactly onSuccess (retry = i, tload = max(0, now)) on 2xx and onError(status, text) otherwise |
| `Scenarios.FailedAttemptRetries` | src/utils/xhr-loader.js:94-102 | a failed attempt with retries left arms the retry timer with DelayAfter(d, i), and its firing begins attempt i+1 with the delay advanced one step |
| `Scenarios.LastAttemptEnds` | src/utils/xhr-loader.js:86-107 | the attempt that answers 2xx, or has no retry left, calls exactly one of onSuccess (with retry = i and tload = max(0, now)) and onError(status, text) |
| `Scenarios.RetryRound` | src/utils/xhr-loader.js:94-102 | driving one failed attempt through a loader object moves it from attempt i to attempt i+1 and reports the delay DelayAfter(d, i) the retry waited |
| `Scenarios.RunLoad` | src/utils/xhr-loader.js:33-109 | for a load on a new loader with no onProgress, whose every attempt is answered at the same `now` with no progress event, timeout, abort or destroy in between, exactly one final callback is called: onSuccess with retry = e if attempt e got 2xx, else onError with its status after max(0, maxRetry) retries; and the j-th retry waited DelayAfter(d, j) |
| `Scenarios.RetryThenSucceed` | src/utils/xhr-loader.js:94-102 | answers 500, 500, 200 with maxRetry 2: delays 1000 then 2000, one onSuccess with retry 2 |
| `Scenarios.RetryThenFail` | src/utils/xhr-loader.js:104-107 | answers 500, 502, 503 with maxRetry 2: two retries, then onError(503, text) once |
| `Scenarios.TimeoutThenSuccess` | src/utils/xhr-loader.js:111-114 | onTimeout does not end the attempt: its later 2xx answer still yields onSuccess |
| `Scenarios.AbortMidFlight` | src/utils/xhr-loader.js:20-31 | aborting a live request sets aborted, clears both timers, and the cancelled request's loadend calls nothing |
| `Scenarios.ReloadDuringBackoff` | src/utils/xhr-loader.js:33-40 | loading again during a backoff without abort leaves the old retry timer armed, and two onSuccess calls follow |

## Left out

- How the XMLHttpRequest is built is left out: the choice of `XDomainRequest`, `open`,
  `send` and `responseType`. These are browser APIs. A request is the record
  `XhrRequest(url, range, …)`.
- The response payload (`response` or `responseText`) and `responseURL` are left out. They
  are opaque data, so `OnSuccess` records only the stats.
- The `xhrSetup` hook is recorded as present or absent and otherwise treated as a no-op. It
  is caller-supplied code the loader does not depend on.
- `logger.warn` and `logger.error` are left out: they only log.
- `performance.now()` is a floating-point clock. Here it is an integer argument.
- Timers are modelled by their handles. If `loadInternal` runs while a request timer is
  still armed (`load` called again mid-request), the browser keeps the old timer running
  with a lost handle. The model has a single request timer per loader, so that orphan
  timer is not modelled.
- `xhr.abort()` dispatches `loadend` synchronously. That handler returns at once, because
  `aborted` was set just before, so `Abort` does not model the call.
- Callbacks run synchronously and could call back into the loader. The model only records
  them. It also records a copy of `stats`, whereas the source passes the object itself,
  which later steps keep mutating.
- `LoadEnd` takes the status of the request that fired as arguments (`event.currentTarget`
  in the source).
- JavaScript numbers are modelled as unbounded integers. `undefined` options (`maxRetry`,
  `rangeStart`) are not modelled.
- A request superseded by a new `load` without `abort` is not modelled. In the source it
  keeps its handlers bound (lines 51-52, 74), so its late `loadend` can still call
  `onSuccess` or `onError` with the new load's callbacks, or start a retry. The model
  replaces `loader` and drops the old request. That is why `AtMostOneTerminal` requires
  that no request is live when the load starts.
- `IntToString` writes only the positional decimal form. JavaScript writes magnitudes
  of 10^21 and more in exponent form (`1e+21`); byte offsets that large are not
  modelled.
- Liveness is proved only for loads whose every attempt is answered (`RunLoad`), not in
  general. "At least one final callback" needs the network to answer. `RunLoad` drives only
  runs with no progress events, timeouts, aborts or destroys, one `now` for every event,
  and no onProgress callback; runs that interleave those are covered by the invariant and
  one-load lemmas, not by a liveness statement.
