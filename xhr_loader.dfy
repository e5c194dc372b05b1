/**
 * The XhrLoader object itself: its fields are updated in place by its handlers, in the
 * order the JavaScript class does it. Every method states the loader's whole new state
 * as the matching step function of LoaderSpec applied to the old one, so that the
 * lemmas of LoaderProperties apply to every sequence of calls.
 */
module Xhr {
  import opened Wrappers
  import opened LoadPolicy
  import opened LoaderSpec

  class XhrLoader {
    var xhrSetup: bool          // a caller-supplied hook exists (it is called as a no-op)
    var started: bool           // `load` has run, so the fields below it are defined
    var context: LoadContext
    var config: LoadConfig
    var callbacks: Callbacks
    var stats: Stats
    var retryDelay: int
    var loader: Option<XhrRequest>
    var requestTimeout: Timer
    var retryTimeout: Timer
    var calls: seq<Callback>    // the callbacks invoked so far, oldest first

    function State(): LoaderState
      reads this
    {
      LoaderState(xhrSetup, started, context, config, callbacks, stats, retryDelay,
                  loader, requestTimeout, retryTimeout, calls)
    }

    constructor (hasXhrSetup: bool)
      ensures State() == Initial(hasXhrSetup)
    {
      xhrSetup := hasXhrSetup;
      started := false;
      context, config, callbacks := NoContext, NoConfig, Callbacks(false);
      stats, retryDelay := NoStats, 0;
      loader := None;
      requestTimeout, retryTimeout := Disarmed, Disarmed;
      calls := [];
    }

    method Destroy()
      modifies this
      ensures State() == DestroyStep(old(State()))
    {
      Abort();
      loader := None;
    }

    method Abort()
      modifies this
      ensures State() == AbortStep(old(State()))
    {
      var xhr := loader;
      if xhr.Some? && !xhr.value.done {
        stats := stats.(aborted := true);
        loader := Some(xhr.value.(cancelled := true));
      }
      requestTimeout := Disarmed;
      retryTimeout := Disarmed;
    }

    method Load(ctx: LoadContext, cfg: LoadConfig, cbs: Callbacks, now: int)
      modifies this
      ensures State() == LoadStep(old(State()), ctx, cfg, cbs, now)
    {
      context, config, callbacks := ctx, cfg, cbs;
      stats := Stats(now, 0, 0, None, None, 0, false);
      started := true;
      retryDelay := cfg.retryDelay;
      LoadInternal();
    }

    method LoadInternal()
      requires started
      modifies this
      ensures State() == AttemptStep(old(State()))
    {
      var xhr := XhrRequest(context.url, None, false, false);
      if context.rangeEnd.Some? && context.rangeEnd.value != 0 {
        xhr := xhr.(range := Some(RangeHeaderValue(context.rangeStart, context.rangeEnd.value)));
      }
      loader := Some(xhr);
      stats := stats.(tfirst := 0, loaded := 0);
      requestTimeout := Armed(config.timeout);
    }

    method LoadEnd(status: int, statusText: string, now: int)
      requires started
      modifies this
      ensures State() == LoadEndStep(old(State()), status, statusText, now)
    {
      if stats.aborted {
        return;
      }
      requestTimeout := Disarmed;
      if IsSuccess(status) {
        stats := stats.(tload := Some(Max(stats.tfirst, now)));
        calls := calls + [OnSuccess(stats)];
      } else if stats.retry < config.maxRetry {
        Destroy();
        retryTimeout := Armed(retryDelay);
        retryDelay := NextDelay(retryDelay);
        stats := stats.(retry := stats.retry + 1);
      } else {
        calls := calls + [OnError(status, statusText)];
      }
    }

    method LoadTimeout()
      requires started
      modifies this
      ensures State() == TimeoutStep(old(State()))
    {
      calls := calls + [OnTimeout(stats)];
    }

    method LoadProgress(loaded: int, lengthComputable: bool, total: int, now: int)
      requires started
      modifies this
      ensures State() == ProgressStep(old(State()), loaded, lengthComputable, total, now)
    {
      if stats.tfirst == 0 {
        stats := stats.(tfirst := Max(now, stats.trequest));
      }
      stats := stats.(loaded := loaded);
      if lengthComputable {
        stats := stats.(total := Some(total));
      }
      if callbacks.hasOnProgress {
        calls := calls + [OnProgress(stats)];
      }
    }

    // -------------------------------------------------------------------------
    // What the browser does to a loader: these call the handlers above.

    /** The request reaches readyState 4 with `status`, and the browser dispatches `loadend`. */
    method Respond(status: int, statusText: string, now: int)
      requires started && InFlight(State())
      modifies this
      ensures State() == Step(old(State()), Event.Respond(status, statusText, now))
    {
      loader := Some(loader.value.(done := true));
      LoadEnd(status, statusText, now);
    }

    /** The browser dispatches a `progress` event of the live request. */
    method Progress(loaded: int, lengthComputable: bool, total: int, now: int)
      requires started && InFlight(State())
      modifies this
      ensures State() == Step(old(State()), Event.Progress(loaded, lengthComputable, total, now))
    {
      LoadProgress(loaded, lengthComputable, total, now);
    }

    /** The request timer expires. */
    method FireRequestTimer()
      requires started && requestTimeout.Armed?
      modifies this
      ensures State() == Step(old(State()), RequestTimerFires)
    {
      requestTimeout := Disarmed;
      LoadTimeout();
    }

    /** The retry timer expires and starts the next attempt. */
    method FireRetryTimer()
      requires started && retryTimeout.Armed?
      modifies this
      ensures State() == Step(old(State()), RetryTimerFires)
    {
      retryTimeout := Disarmed;
      LoadInternal();
    }
  }
}
