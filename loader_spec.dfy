/**
 * The state of one XhrLoader as a value, and what each of its handlers does to it.
 *
 * Browser objects become plain data: the XMLHttpRequest is a record saying which
 * request was sent and whether it has finished (readyState 4) or been cancelled;
 * `window.setTimeout` handles become timers that are armed with a delay or disarmed;
 * `performance.now()` is an integer argument; each callback invocation is appended,
 * with a copy of the statistics it was given, to a trace of calls.
 */
module LoaderSpec {
  import opened Wrappers
  import opened LoadPolicy

  /** What to fetch: `rangeEnd` is exclusive and, when present and non-zero, `rangeStart` goes with it. */
  datatype LoadContext = LoadContext(url: string, rangeStart: int, rangeEnd: Option<int>)

  /** Per-load settings: request timeout and initial retry delay (ms), and the number of retries allowed. */
  datatype LoadConfig = LoadConfig(timeout: int, retryDelay: int, maxRetry: int)

  /** `onSuccess`, `onError` and `onTimeout` are always called; `onProgress` only when supplied. */
  datatype Callbacks = Callbacks(hasOnProgress: bool)

  /**
   * The `stats` object of one load. `total` and `tload` stay undefined until a progress
   * event with a computable length, respectively a successful response, sets them.
   */
  datatype Stats = Stats(
    trequest: int,
    tfirst: int,
    loaded: int,
    total: Option<int>,
    tload: Option<int>,
    retry: nat,
    aborted: bool)

  /** One physical request: its URL and Range header, whether it reached readyState 4, whether `abort()` cancelled it. */
  datatype XhrRequest = XhrRequest(url: string, range: Option<string>, done: bool, cancelled: bool)

  datatype Timer = Disarmed | Armed(delay: int)

  datatype Callback =
    | OnSuccess(stats: Stats)
    | OnError(code: int, text: string)
    | OnTimeout(stats: Stats)
    | OnProgress(stats: Stats)

  /** Every field of the loader. `started` says that `load` has run, so `stats`, `context`, `config` and `callbacks` are defined. */
  datatype LoaderState = LoaderState(
    hasXhrSetup: bool,
    started: bool,
    context: LoadContext,
    config: LoadConfig,
    callbacks: Callbacks,
    stats: Stats,
    retryDelay: int,
    loader: Option<XhrRequest>,
    requestTimer: Timer,
    retryTimer: Timer,
    calls: seq<Callback>)

  const NoContext := LoadContext("", 0, None)
  const NoConfig := LoadConfig(0, 0, 0)
  const NoStats := Stats(0, 0, 0, None, None, 0, false)

  /** A freshly constructed loader: nothing loaded, no request, no timer. */
  function Initial(hasXhrSetup: bool): LoaderState {
    LoaderState(hasXhrSetup, false, NoContext, NoConfig, Callbacks(false), NoStats, 0, None, Disarmed, Disarmed, [])
  }

  /** The Range header a request for `ctx` carries: one only when `rangeEnd` is set and not 0 (JavaScript truthiness). */
  function RangeFor(ctx: LoadContext): (r: Option<string>)
    ensures r.Some? <==> ctx.rangeEnd.Some? && ctx.rangeEnd.value != 0
    ensures r.Some? ==> ParseByteRange(r.value) == Some(ByteRange(ctx.rangeStart, ctx.rangeEnd.value - 1))
  {
    if ctx.rangeEnd.Some? && ctx.rangeEnd.value != 0 then
      Some(RangeHeaderValue(ctx.rangeStart, ctx.rangeEnd.value))
    else
      None
  }

  // ---------------------------------------------------------------------------
  // One function per handler of the loader

  /** `abort`: cancel a request that has not finished, marking the load aborted; then clear both timers. */
  function AbortStep(s: LoaderState): LoaderState {
    var s1 :=
      if s.loader.Some? && !s.loader.value.done then
        s.(stats := s.stats.(aborted := true), loader := Some(s.loader.value.(cancelled := true)))
      else
        s;
    s1.(requestTimer := Disarmed, retryTimer := Disarmed)
  }

  /** `destroy`: `abort`, then drop the request. */
  function DestroyStep(s: LoaderState): LoaderState {
    AbortStep(s).(loader := None)
  }

  /** `loadInternal`: send a new request, reset the per-attempt statistics, arm the request timer. */
  function AttemptStep(s: LoaderState): LoaderState
    requires s.started
  {
    s.(loader := Some(XhrRequest(s.context.url, RangeFor(s.context), false, false)),
       stats := s.stats.(tfirst := 0, loaded := 0),
       requestTimer := Armed(s.config.timeout))
  }

  /** `load`: fresh statistics stamped `now`, no retry yet, the configured delay, then the first attempt. */
  function LoadStep(s: LoaderState, ctx: LoadContext, cfg: LoadConfig, cbs: Callbacks, now: int): LoaderState {
    AttemptStep(s.(started := true, context := ctx, config := cfg, callbacks := cbs,
                   stats := Stats(now, 0, 0, None, None, 0, false),
                   retryDelay := cfg.retryDelay))
  }

  /** `loadend`: ignored once aborted; otherwise clear the request timer and succeed, retry or fail. */
  function LoadEndStep(s: LoaderState, status: int, statusText: string, now: int): LoaderState
    requires s.started
  {
    if s.stats.aborted then s
    else
      var s1 := s.(requestTimer := Disarmed);
      if IsSuccess(status) then
        var st := s1.stats.(tload := Some(Max(s1.stats.tfirst, now)));
        s1.(stats := st, calls := s1.calls + [OnSuccess(st)])
      else if s1.stats.retry < s1.config.maxRetry then
        var s2 := DestroyStep(s1);
        s2.(retryTimer := Armed(s1.retryDelay),
            retryDelay := NextDelay(s1.retryDelay),
            stats := s2.stats.(retry := s2.stats.retry + 1))
      else
        s1.(calls := s1.calls + [OnError(status, statusText)])
  }

  /** `loadtimeout`: tell the caller; the request goes on. */
  function TimeoutStep(s: LoaderState): LoaderState
    requires s.started
  {
    s.(calls := s.calls + [OnTimeout(s.stats)])
  }

  /** `loadprogress`: the first byte time (once), the bytes loaded, the total when known, then `onProgress` if supplied. */
  function ProgressStep(s: LoaderState, loaded: int, lengthComputable: bool, total: int, now: int): LoaderState
    requires s.started
  {
    var st := s.stats.(tfirst := if s.stats.tfirst == 0 then Max(now, s.stats.trequest) else s.stats.tfirst,
                       loaded := loaded,
                       total := if lengthComputable then Some(total) else s.stats.total);
    s.(stats := st, calls := if s.callbacks.hasOnProgress then s.calls + [OnProgress(st)] else s.calls)
  }

  // ---------------------------------------------------------------------------
  // Events: what the caller does and what the browser delivers

  datatype Event =
    | Load(context: LoadContext, config: LoadConfig, callbacks: Callbacks, now: int)
    | Abort
    | Destroy
      /** The request reaches readyState 4 with this status, and its `loadend` is dispatched. */
    | Respond(status: int, statusText: string, now: int)
    | Progress(loaded: int, lengthComputable: bool, total: int, now: int)
    | RequestTimerFires
    | RetryTimerFires

  predicate InFlight(s: LoaderState) {
    s.loader.Some? && !s.loader.value.done && !s.loader.value.cancelled
  }

  /** The caller may call `load`, `abort` and `destroy` at any time; the browser delivers only what is pending. */
  predicate Enabled(s: LoaderState, e: Event) {
    match e
    case Load(_, _, _, _) => true
    case Abort => true
    case Destroy => true
    case Respond(_, _, _) => s.started && InFlight(s)
    case Progress(_, _, _, _) => s.started && InFlight(s)
    case RequestTimerFires => s.started && s.requestTimer.Armed?
    case RetryTimerFires => s.started && s.retryTimer.Armed?
  }

  function Step(s: LoaderState, e: Event): LoaderState
    requires Enabled(s, e)
  {
    match e
    case Load(ctx, cfg, cbs, now) => LoadStep(s, ctx, cfg, cbs, now)
    case Abort => AbortStep(s)
    case Destroy => DestroyStep(s)
    case Respond(status, text, now) =>
      LoadEndStep(s.(loader := Some(s.loader.value.(done := true))), status, text, now)
    case Progress(loaded, computable, total, now) => ProgressStep(s, loaded, computable, total, now)
    case RequestTimerFires => TimeoutStep(s.(requestTimer := Disarmed))
    case RetryTimerFires => AttemptStep(s.(retryTimer := Disarmed))
  }

  predicate Runnable(s: LoaderState, evs: seq<Event>)
    decreases |evs|
  {
    evs == [] || (Enabled(s, evs[0]) && Runnable(Step(s, evs[0]), evs[1..]))
  }

  function Run(s: LoaderState, evs: seq<Event>): LoaderState
    requires Runnable(s, evs)
    decreases |evs|
  {
    if evs == [] then s else Run(Step(s, evs[0]), evs[1..])
  }
}
