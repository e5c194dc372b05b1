/**
 * What the loader's handlers guarantee, stated over the step functions of LoaderSpec:
 * per handler, and over any run of events (the retry bound, the backoff schedule,
 * silence after `abort`, at most one final callback per load).
 */
module LoaderProperties {
  import opened Wrappers
  import opened LoadPolicy
  import opened LoaderSpec

  // ---------------------------------------------------------------------------
  // load and loadInternal

  /** `load` stamps the request time, starts with no retry and the configured delay, and sends exactly one request. */
  lemma LoadStartsFirstAttempt(s: LoaderState, ctx: LoadContext, cfg: LoadConfig, cbs: Callbacks, now: int)
    ensures var r := LoadStep(s, ctx, cfg, cbs, now);
      && r.started && r.context == ctx && r.config == cfg && r.callbacks == cbs
      && r.stats.trequest == now && r.stats.retry == 0 && !r.stats.aborted
      && r.stats.tfirst == 0 && r.stats.loaded == 0 && r.stats.total.None? && r.stats.tload.None?
      && r.retryDelay == cfg.retryDelay
      && r.loader == Some(XhrRequest(ctx.url, RangeFor(ctx), false, false))
      && r.requestTimer == Armed(cfg.timeout)
      && r.retryTimer == s.retryTimer
      && r.calls == s.calls
  {
  }

  /** Each attempt resets the first-byte time and the byte count and arms the request timer, but keeps the retry count and delay. */
  lemma AttemptKeepsRetryState(s: LoaderState)
    requires s.started
    ensures var r := AttemptStep(s);
      && InFlight(r) && r.loader.value.url == s.context.url
      && r.stats == s.stats.(tfirst := 0, loaded := 0)
      && r.retryDelay == s.retryDelay
      && r.requestTimer == Armed(s.config.timeout)
      && r.retryTimer == s.retryTimer
      && r.calls == s.calls
  {
  }

  // ---------------------------------------------------------------------------
  // loadend

  /** Once the load is aborted, a completion changes nothing at all. */
  lemma AbortedCompletionIsNoop(s: LoaderState, status: int, text: string, now: int)
    requires s.started && s.stats.aborted
    ensures LoadEndStep(s, status, text, now) == s
  {
  }

  /** Otherwise every completion disarms the request timer. */
  lemma CompletionClearsRequestTimer(s: LoaderState, status: int, text: string, now: int)
    requires s.started && !s.stats.aborted
    ensures LoadEndStep(s, status, text, now).requestTimer == Disarmed
  {
  }

  /** A 2xx completion calls `onSuccess` exactly once, with `tload = max(tfirst, now)`, and touches nothing of the retry machinery. */
  lemma SuccessfulCompletion(s: LoaderState, status: int, text: string, now: int)
    requires s.started && !s.stats.aborted && IsSuccess(status)
    ensures var r := LoadEndStep(s, status, text, now);
      && r.calls == s.calls + [OnSuccess(r.stats)]
      && r.stats == s.stats.(tload := Some(Max(s.stats.tfirst, now)))
      && r.stats.tload.value >= r.stats.tfirst && r.stats.tload.value >= now
      && r.retryDelay == s.retryDelay && r.retryTimer == s.retryTimer && r.loader == s.loader
  {
  }

  /** A non-2xx completion never calls `onSuccess`: it either retries silently or calls `onError` with the status and its text. */
  lemma FailureNeverSucceeds(s: LoaderState, status: int, text: string, now: int)
    requires s.started && !IsSuccess(status)
    ensures var r := LoadEndStep(s, status, text, now);
      r.calls == s.calls || r.calls == s.calls + [OnError(status, text)]
  {
  }

  /** The retry count moves exactly when a live load fails while retries remain. */
  lemma RetryIffBelowMax(s: LoaderState, status: int, text: string, now: int)
    requires s.started
    ensures var r := LoadEndStep(s, status, text, now);
      r.stats.retry != s.stats.retry <==> !s.stats.aborted && !IsSuccess(status) && s.stats.retry < s.config.maxRetry
  {
  }

  /**
   * A retry destroys the request, arms the retry timer with the delay as it was before
   * doubling, doubles the delay up to the cap and counts one more retry. Destroying a
   * request that already reached readyState 4 does not mark the load aborted.
   */
  lemma RetryTransition(s: LoaderState, status: int, text: string, now: int)
    requires s.started && !s.stats.aborted && !IsSuccess(status) && s.stats.retry < s.config.maxRetry
    ensures var r := LoadEndStep(s, status, text, now);
      && r.loader.None?
      && r.requestTimer == Disarmed
      && r.retryTimer == Armed(s.retryDelay)
      && r.retryDelay == NextDelay(s.retryDelay)
      && r.stats.retry == s.stats.retry + 1
      && r.calls == s.calls
      && (r.stats.aborted <==> s.loader.Some? && !s.loader.value.done)
  {
  }

  /** With no retry left a failure calls `onError` once with the status code and text; no timer is armed and the count stays. */
  lemma PermanentFailure(s: LoaderState, status: int, text: string, now: int)
    requires s.started && !s.stats.aborted && !IsSuccess(status) && s.stats.retry >= s.config.maxRetry
    ensures var r := LoadEndStep(s, status, text, now);
      && r.calls == s.calls + [OnError(status, text)]
      && r.stats == s.stats && r.retryDelay == s.retryDelay
      && r.retryTimer == s.retryTimer && r.requestTimer == Disarmed && r.loader == s.loader
  {
  }

  // ---------------------------------------------------------------------------
  // abort and destroy

  /** `abort` clears both timers, and marks the load aborted (cancelling the request) only if a request exists that has not finished. */
  lemma AbortClearsTimers(s: LoaderState)
    ensures var r := AbortStep(s);
      && r.requestTimer == Disarmed && r.retryTimer == Disarmed
      && (r.stats.aborted <==> s.stats.aborted || (s.loader.Some? && !s.loader.value.done))
      && (r.loader.Some? <==> s.loader.Some?)
      && (s.loader.Some? && !s.loader.value.done ==> r.loader.value.cancelled)
      && !InFlight(r)
      && r.calls == s.calls && r.retryDelay == s.retryDelay && r.stats.retry == s.stats.retry
  {
  }

  /** Calling `abort` twice is the same as calling it once. */
  lemma AbortIdempotent(s: LoaderState)
    ensures AbortStep(AbortStep(s)) == AbortStep(s)
  {
  }

  /** `destroy` is `abort` followed by releasing the request; it too is idempotent. */
  lemma DestroyIdempotent(s: LoaderState)
    ensures var r := DestroyStep(s);
      && r.loader.None? && r.requestTimer == Disarmed && r.retryTimer == Disarmed
      && r.stats == AbortStep(s).stats && r.calls == s.calls
      && DestroyStep(r) == r
  {
  }

  // ---------------------------------------------------------------------------
  // loadprogress and loadtimeout

  /**
   * A progress event sets the first-byte time only while it is still 0, to
   * `max(now, trequest)`; it overwrites `loaded`, changes `total` only when the length
   * is computable, and calls `onProgress` only when supplied.
   */
  lemma ProgressUpdate(s: LoaderState, loaded: int, lengthComputable: bool, total: int, now: int)
    requires s.started
    ensures var r := ProgressStep(s, loaded, lengthComputable, total, now);
      && (s.stats.tfirst == 0 ==> r.stats.tfirst == Max(now, s.stats.trequest))
      && (s.stats.tfirst != 0 ==> r.stats.tfirst == s.stats.tfirst)
      && (s.stats.tfirst == 0 || s.stats.tfirst >= s.stats.trequest ==> r.stats.tfirst == 0 || r.stats.tfirst >= r.stats.trequest)
      && r.stats.loaded == loaded
      && r.stats.total == (if lengthComputable then Some(total) else s.stats.total)
      && r.calls == (if s.callbacks.hasOnProgress then s.calls + [OnProgress(r.stats)] else s.calls)
      && r.stats.retry == s.stats.retry && r.stats.aborted == s.stats.aborted && r.stats.trequest == s.stats.trequest
      && r.retryDelay == s.retryDelay && r.loader == s.loader
      && r.requestTimer == s.requestTimer && r.retryTimer == s.retryTimer
  {
  }

  /**
   * A timeout is advisory: it leaves the request live if it was, and a completion
   * arriving after it does exactly what it would have done without it, the `onTimeout`
   * call staying in front of whatever that completion calls.
   */
  lemma TimeoutOnlyNotifies(s: LoaderState, status: int, text: string, now: int)
    requires s.started
    ensures InFlight(TimeoutStep(s)) <==> InFlight(s)
    ensures var b := LoadEndStep(s, status, text, now);
      && |s.calls| <= |b.calls|
      && LoadEndStep(TimeoutStep(s), status, text, now)
         == b.(calls := s.calls + [OnTimeout(s.stats)] + b.calls[|s.calls|..])
  {
  }

  // ---------------------------------------------------------------------------
  // Invariants over runs

  /**
   * Once loading: the retry count never passes `maxRetry` (it starts at 0), the delay is
   * the configured one after `retry` backoff steps, and the first-byte time, once set,
   * is not before the request time.
   */
  predicate Inv(s: LoaderState) {
    s.started ==>
      && (s.stats.retry == 0 || s.stats.retry <= s.config.maxRetry)
      && s.retryDelay == DelayAfter(s.config.retryDelay, s.stats.retry)
      && (s.stats.tfirst == 0 || s.stats.tfirst >= s.stats.trequest)
  }

  lemma InitialInv(hasXhrSetup: bool)
    ensures Inv(Initial(hasXhrSetup))
  {
  }

  lemma StepPreservesInv(s: LoaderState, e: Event)
    requires Inv(s) && Enabled(s, e)
    ensures Inv(Step(s, e))
  {
  }

  lemma {:induction false} RunPreservesInv(s: LoaderState, evs: seq<Event>)
    requires Inv(s) && Runnable(s, evs)
    ensures Inv(Run(s, evs))
    decreases |evs|
  {
    if evs != [] {
      StepPreservesInv(s, evs[0]);
      RunPreservesInv(Step(s, evs[0]), evs[1..]);
    }
  }

  /** Starting from a new loader, no sequence of events takes the retry count beyond `maxRetry`. */
  lemma RetryNeverExceedsMax(hasXhrSetup: bool, evs: seq<Event>)
    requires Runnable(Initial(hasXhrSetup), evs)
    ensures var r := Run(Initial(hasXhrSetup), evs);
      r.started ==> r.stats.retry <= Max(0, r.config.maxRetry)
  {
    RunPreservesInv(Initial(hasXhrSetup), evs);
  }

  /** When a load that has failed every attempt gives up, it has used exactly `maxRetry` retries. */
  lemma PermanentFailureAtMaxRetry(s: LoaderState, status: int, text: string, now: int)
    requires Inv(s) && s.started && !s.stats.aborted && !IsSuccess(status)
    requires s.config.maxRetry >= 0
    ensures var r := LoadEndStep(s, status, text, now);
      r.calls == s.calls + [OnError(status, text)] <==> s.stats.retry == s.config.maxRetry
  {
  }

  /**
   * The k-th retry timer (k >= 1) is armed with the configured delay after k - 1
   * backoff steps, that is d, then min(2d, 64000), min(4d, 64000), ...
   */
  lemma RetrySchedule(s: LoaderState, status: int, text: string, now: int)
    requires Inv(s) && s.started && !s.stats.aborted && !IsSuccess(status) && s.stats.retry < s.config.maxRetry
    ensures var r := LoadEndStep(s, status, text, now);
      && r.stats.retry >= 1
      && r.retryTimer == Armed(DelayAfter(s.config.retryDelay, r.stats.retry - 1))
      && (r.stats.retry >= 2 ==> r.retryTimer.delay == Min(Pow2(r.stats.retry - 1) * s.config.retryDelay, MaxRetryDelay))
  {
    var r := LoadEndStep(s, status, text, now);
    if r.stats.retry >= 2 {
      DelayAfterClosedForm(s.config.retryDelay, r.stats.retry - 1);
    }
  }

  // ---------------------------------------------------------------------------
  // Silence after abort

  /** Nothing can fire: no timer is armed and no request is live. */
  predicate Quiet(s: LoaderState) {
    s.requestTimer == Disarmed && s.retryTimer == Disarmed && !InFlight(s)
  }

  predicate NoLoad(evs: seq<Event>) {
    forall i :: 0 <= i < |evs| ==> !evs[i].Load?
  }

  lemma {:induction false} QuietStaysSilent(q: LoaderState, evs: seq<Event>)
    requires Quiet(q) && NoLoad(evs) && Runnable(q, evs)
    ensures Quiet(Run(q, evs)) && Run(q, evs).calls == q.calls
    decreases |evs|
  {
    if evs != [] {
      assert !evs[0].Load?;
      assert evs[0].Abort? || evs[0].Destroy?;
      assert NoLoad(evs[1..]) by {
        forall i | 0 <= i < |evs[1..]| ensures !evs[1..][i].Load? {
          assert evs[1..][i] == evs[i + 1];
        }
      }
      QuietStaysSilent(Step(q, evs[0]), evs[1..]);
    }
  }

  /** In a quiet state the browser has nothing left to deliver: only the caller's `load`, `abort` and `destroy` are possible. */
  lemma QuietEnablesOnlyCallerEvents(s: LoaderState, e: Event)
    requires Quiet(s) && Enabled(s, e)
    ensures e.Load? || e.Abort? || e.Destroy?
  {
  }

  /**
   * `abort` leaves nothing pending: the request, if unfinished, is cancelled and both
   * timers are cleared, so the browser can deliver no further event
   * (QuietEnablesOnlyCallerEvents). Hence however often the caller aborts or destroys
   * again, no callback is called until the next `load`.
   */
  lemma AbortSilences(s: LoaderState, evs: seq<Event>)
    requires NoLoad(evs) && Runnable(AbortStep(s), evs)
    ensures Quiet(AbortStep(s))
    ensures Run(AbortStep(s), evs).calls == s.calls
  {
    QuietStaysSilent(AbortStep(s), evs);
  }

  // ---------------------------------------------------------------------------
  // At most one final callback per load

  predicate IsTerminal(c: Callback) {
    c.OnSuccess? || c.OnError?
  }

  /** The number of `onSuccess` and `onError` calls in a trace. */
  function Terminals(cs: seq<Callback>): nat
    decreases |cs|
  {
    if cs == [] then 0 else Terminals(cs[..|cs| - 1]) + (if IsTerminal(cs[|cs| - 1]) then 1 else 0)
  }

  lemma TerminalsAppend(cs: seq<Callback>, c: Callback)
    ensures Terminals(cs + [c]) == Terminals(cs) + (if IsTerminal(c) then 1 else 0)
  {
    assert (cs + [c])[..|cs + [c]| - 1] == cs;
  }

  /**
   * Bookkeeping for one load whose trace starts at `base`: at most one final call so far;
   * a pending retry means no request and no final call; after the final call nothing
   * can respond and no retry is pending.
   */
  predicate OneLoad(s: LoaderState, base: nat) {
    && s.started
    && base <= |s.calls|
    && Terminals(s.calls[base..]) <= 1
    && (s.retryTimer.Armed? ==> s.loader.None? && Terminals(s.calls[base..]) == 0)
    && (Terminals(s.calls[base..]) == 1 ==> s.retryTimer == Disarmed && !InFlight(s))
  }

  lemma AppendAfterBase(cs: seq<Callback>, base: nat, c: Callback)
    requires base <= |cs|
    ensures (cs + [c])[base..] == cs[base..] + [c]
    ensures Terminals((cs + [c])[base..]) == Terminals(cs[base..]) + (if IsTerminal(c) then 1 else 0)
  {
    assert (cs + [c])[base..] == cs[base..] + [c];
    TerminalsAppend(cs[base..], c);
  }

  lemma RespondKeepsOneLoad(s: LoaderState, base: nat, status: int, text: string, now: int)
    requires OneLoad(s, base) && InFlight(s)
    ensures OneLoad(Step(s, Respond(status, text, now)), base)
  {
    var s1 := s.(loader := Some(s.loader.value.(done := true)));
    var r := LoadEndStep(s1, status, text, now);
    assert Terminals(s.calls[base..]) == 0;
    if s.stats.aborted {
      assert r == s1;
    } else if IsSuccess(status) {
      AppendAfterBase(s.calls, base, OnSuccess(r.stats));
    } else if s.stats.retry < s.config.maxRetry {
      assert r.calls == s.calls && r.loader.None?;
    } else {
      AppendAfterBase(s.calls, base, OnError(status, text));
    }
  }

  lemma AbortKeepsOneLoad(s: LoaderState, base: nat)
    requires OneLoad(s, base)
    ensures OneLoad(AbortStep(s), base) && OneLoad(DestroyStep(s), base)
  {
    assert AbortStep(s).calls == s.calls && DestroyStep(s).calls == s.calls;
  }

  lemma RetryFireKeepsOneLoad(s: LoaderState, base: nat)
    requires OneLoad(s, base) && s.retryTimer.Armed?
    ensures OneLoad(AttemptStep(s.(retryTimer := Disarmed)), base)
  {
    assert AttemptStep(s.(retryTimer := Disarmed)).calls == s.calls;
  }

  lemma NotifyKeepsOneLoad(s: LoaderState, base: nat, r: LoaderState, c: Callback)
    requires OneLoad(s, base) && !IsTerminal(c)
    requires r.calls == s.calls + [c] || r.calls == s.calls
    requires r.started && r.retryTimer == s.retryTimer && r.loader == s.loader
    ensures OneLoad(r, base)
  {
    if r.calls != s.calls {
      AppendAfterBase(s.calls, base, c);
    }
  }

  lemma StepKeepsOneLoad(s: LoaderState, base: nat, e: Event)
    requires OneLoad(s, base) && Enabled(s, e) && !e.Load?
    ensures OneLoad(Step(s, e), base)
  {
    match e {
      case Abort => AbortKeepsOneLoad(s, base);
      case Destroy => AbortKeepsOneLoad(s, base);
      case Respond(status, text, now) => RespondKeepsOneLoad(s, base, status, text, now);
      case Progress(loaded, computable, total, now) =>
        var r := ProgressStep(s, loaded, computable, total, now);
        NotifyKeepsOneLoad(s, base, r, OnProgress(r.stats));
      case RequestTimerFires =>
        NotifyKeepsOneLoad(s, base, TimeoutStep(s.(requestTimer := Disarmed)), OnTimeout(s.stats));
      case RetryTimerFires => RetryFireKeepsOneLoad(s, base);
    }
  }

  lemma {:induction false} RunKeepsOneLoad(s: LoaderState, base: nat, evs: seq<Event>)
    requires OneLoad(s, base) && NoLoad(evs) && Runnable(s, evs)
    ensures OneLoad(Run(s, evs), base)
    decreases |evs|
  {
    if evs != [] {
      StepKeepsOneLoad(s, base, evs[0]);
      assert NoLoad(evs[1..]) by {
        forall i | 0 <= i < |evs[1..]| ensures !evs[1..][i].Load? {
          assert evs[1..][i] == evs[i + 1];
        }
      }
      RunKeepsOneLoad(Step(s, evs[0]), base, evs[1..]);
    }
  }

  /**
   * A load started while no retry timer is pending and no earlier request is live calls
   * `onSuccess` or `onError` at most once, whatever the browser delivers and whatever
   * the caller aborts, until the next load.
   */
  lemma AtMostOneTerminal(s: LoaderState, ctx: LoadContext, cfg: LoadConfig, cbs: Callbacks, now: int, evs: seq<Event>)
    requires s.retryTimer == Disarmed && !InFlight(s)
    requires NoLoad(evs) && Runnable(LoadStep(s, ctx, cfg, cbs, now), evs)
    ensures |s.calls| <= |Run(LoadStep(s, ctx, cfg, cbs, now), evs).calls|
    ensures Terminals(Run(LoadStep(s, ctx, cfg, cbs, now), evs).calls[|s.calls|..]) <= 1
  {
    var s0 := LoadStep(s, ctx, cfg, cbs, now);
    assert s0.calls[|s.calls|..] == [];
    RunKeepsOneLoad(s0, |s.calls|, evs);
  }
}
