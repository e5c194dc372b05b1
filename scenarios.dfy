/**
 * Clients of a fresh XhrLoader that play whole loads through it, and what comes out:
 * the callbacks called and the retry delays scheduled.
 */
module Scenarios {
  import opened Wrappers
  import opened LoadPolicy
  import opened LoaderSpec
  import opened LoaderProperties
  import opened Xhr

  /** What the server answers one attempt with. */
  datatype Response = Response(status: int, text: string)

  /**
   * The attempt (counted from 0) at which a load ends when attempt j is answered with
   * `rs[j]`: the first 2xx answer, or the attempt made with no retry left.
   */
  function LastAttempt(rs: seq<Response>, maxRetry: int, i: nat): (e: nat)
    requires maxRetry < |rs| && i < |rs|
    ensures i <= e < |rs|
    ensures IsSuccess(rs[e].status) || e >= maxRetry
    ensures forall j :: i <= j < e ==> !IsSuccess(rs[j].status) && j < maxRetry
    ensures i <= Max(0, maxRetry) ==> e <= Max(0, maxRetry)
    decreases |rs| - i
  {
    if IsSuccess(rs[i].status) || i >= maxRetry then i else LastAttempt(rs, maxRetry, i + 1)
  }

  /** The loader during attempt `i` of a load of `ctx` with `cfg` begun at `now`, every earlier attempt having been retried. */
  function AttemptState(ctx: LoadContext, cfg: LoadConfig, now: int, i: nat): LoaderState {
    LoaderState(false, true, ctx, cfg, Callbacks(false), Stats(now, 0, 0, None, None, i, false),
      DelayAfter(cfg.retryDelay, i), Some(XhrRequest(ctx.url, RangeFor(ctx), false, false)),
      Armed(cfg.timeout), Disarmed, [])
  }

  /** `load` on a new loader begins attempt 0. */
  lemma LoadBeginsFirstAttempt(ctx: LoadContext, cfg: LoadConfig, now: int)
    ensures LoadStep(Initial(false), ctx, cfg, Callbacks(false), now) == AttemptState(ctx, cfg, now, 0)
  {
  }

  /** A failed attempt with retries left arms the retry timer with the current delay, and its firing begins the next attempt. */
  lemma FailedAttemptRetries(s: LoaderState, ctx: LoadContext, cfg: LoadConfig, now: int, i: nat, r: Response)
    requires s == AttemptState(ctx, cfg, now, i) && !IsSuccess(r.status) && i < cfg.maxRetry
    ensures var s1 := Step(s, Event.Respond(r.status, r.text, now));
      && s1.retryTimer == Armed(DelayAfter(cfg.retryDelay, i))
      && Enabled(s1, RetryTimerFires)
      && Step(s1, RetryTimerFires) == AttemptState(ctx, cfg, now, i + 1)
  {
    var s0 := s.(loader := Some(s.loader.value.(done := true)));
    RetryTransition(s0, r.status, r.text, now);
  }

  /** The last attempt calls exactly one of `onSuccess` and `onError`. */
  lemma LastAttemptEnds(s: LoaderState, ctx: LoadContext, cfg: LoadConfig, now: int, i: nat, r: Response)
    requires s == AttemptState(ctx, cfg, now, i) && (IsSuccess(r.status) || i >= cfg.maxRetry)
    ensures var s1 := Step(s, Event.Respond(r.status, r.text, now));
      && (IsSuccess(r.status) ==> s1.calls == [OnSuccess(Stats(now, 0, 0, None, Some(Max(0, now)), i, false))])
      && (!IsSuccess(r.status) ==> s1.calls == [OnError(r.status, r.text)])
  {
  }

  /** The retry delays of the first `n` retries from the configured delay `d`, in order. */
  function Schedule(d: int, n: nat): seq<int> {
    if n == 0 then [] else Schedule(d, n - 1) + [DelayAfter(d, n - 1)]
  }

  /** The j-th scheduled delay is the configured delay with j backoff steps applied. */
  lemma {:induction false} ScheduleDelays(d: int, n: nat)
    ensures |Schedule(d, n)| == n
    ensures forall j :: 0 <= j < n ==> Schedule(d, n)[j] == DelayAfter(d, j)
  {
    if n > 0 {
      ScheduleDelays(d, n - 1);
    }
  }

  /**
   * A whole load in which every attempt is answered: exactly one final callback, which
   * is `onSuccess` if the last attempt got a 2xx answer and `onError` with its status
   * otherwise; before it, one retry per failed attempt, the j-th after the configured
   * delay with j backoff steps applied.
   */
  method RunLoad(ctx: LoadContext, cfg: LoadConfig, rs: seq<Response>, now: int)
    returns (calls: seq<Callback>, delays: seq<int>)
    requires Max(0, cfg.maxRetry) < |rs|
    ensures var e := LastAttempt(rs, cfg.maxRetry, 0);
      && (IsSuccess(rs[e].status) ==> calls == [OnSuccess(Stats(now, 0, 0, None, Some(Max(0, now)), e, false))])
      && (!IsSuccess(rs[e].status) ==> calls == [OnError(rs[e].status, rs[e].text)] && e == Max(0, cfg.maxRetry))
      && (forall j :: 0 <= j < e ==> !IsSuccess(rs[j].status))
      && |delays| == e
      && forall j :: 0 <= j < e ==> delays[j] == DelayAfter(cfg.retryDelay, j)
  {
    var l := StartLoad(ctx, cfg, now);
    var e := LastAttempt(rs, cfg.maxRetry, 0);
    var i := 0;
    delays := [];
    while i < e
      invariant 0 <= i <= e
      invariant l.State() == AttemptState(ctx, cfg, now, i)
      invariant delays == Schedule(cfg.retryDelay, i)
    {
      var d := RetryRound(l, ctx, cfg, now, i, rs[i]);
      delays := delays + [d];
      i := i + 1;
    }
    calls := FinalRound(l, ctx, cfg, now, e, rs[e]);
    ScheduleDelays(cfg.retryDelay, e);
  }

  /** A new loader on which `load` has been called: attempt 0 is under way. */
  method StartLoad(ctx: LoadContext, cfg: LoadConfig, now: int) returns (l: XhrLoader)
    ensures fresh(l) && l.State() == AttemptState(ctx, cfg, now, 0)
  {
    l := new XhrLoader(false);
    LoadBeginsFirstAttempt(ctx, cfg, now);
    l.Load(ctx, cfg, Callbacks(false), now);
  }

  /** The last attempt of RunLoad: the answer arrives and the final callback is called. */
  method FinalRound(l: XhrLoader, ctx: LoadContext, cfg: LoadConfig, now: int, i: nat, r: Response)
    returns (calls: seq<Callback>)
    requires l.State() == AttemptState(ctx, cfg, now, i) && (IsSuccess(r.status) || i >= cfg.maxRetry)
    modifies l
    ensures IsSuccess(r.status) ==> calls == [OnSuccess(Stats(now, 0, 0, None, Some(Max(0, now)), i, false))]
    ensures !IsSuccess(r.status) ==> calls == [OnError(r.status, r.text)]
  {
    LastAttemptEnds(l.State(), ctx, cfg, now, i, r);
    l.Respond(r.status, r.text, now);
    calls := l.calls;
  }

  /** One failed attempt of RunLoad: the answer arrives, the retry timer is armed with `d` and fires. */
  method RetryRound(l: XhrLoader, ctx: LoadContext, cfg: LoadConfig, now: int, i: nat, r: Response) returns (d: int)
    requires l.State() == AttemptState(ctx, cfg, now, i) && !IsSuccess(r.status) && i < cfg.maxRetry
    modifies l
    ensures l.State() == AttemptState(ctx, cfg, now, i + 1)
    ensures d == DelayAfter(cfg.retryDelay, i)
  {
    FailedAttemptRetries(l.State(), ctx, cfg, now, i, r);
    l.Respond(r.status, r.text, now);
    d := l.retryTimeout.delay;
    l.FireRetryTimer();
  }

  /** Two failures then a success with two retries allowed: retries after d and 2d, then one `onSuccess` with retry == 2. */
  method RetryThenSucceed(ctx: LoadContext, now: int) returns (calls: seq<Callback>, delays: seq<int>)
    ensures delays == [1000, 2000]
    ensures |calls| == 1 && calls[0].OnSuccess? && calls[0].stats.retry == 2
  {
    var rs := [Response(500, "Internal Server Error"), Response(500, "Internal Server Error"), Response(200, "OK")];
    calls, delays := RunLoad(ctx, LoadConfig(10000, 1000, 2), rs, now);
    assert LastAttempt(rs, 2, 0) == 2;
    assert delays[1] == DelayAfter(1000, 1) == 2000;
  }

  /** Three failures with two retries allowed: one `onError` carrying the last status, after two retries. */
  method RetryThenFail(ctx: LoadContext, now: int) returns (calls: seq<Callback>, delays: seq<int>)
    ensures |delays| == 2
    ensures calls == [OnError(503, "Service Unavailable")]
  {
    var rs := [Response(500, "Internal Server Error"), Response(502, "Bad Gateway"), Response(503, "Service Unavailable")];
    calls, delays := RunLoad(ctx, LoadConfig(10000, 1000, 2), rs, now);
    assert LastAttempt(rs, 2, 0) == 2;
  }

  /** A timeout only notifies: the request goes on, and its late 2xx answer still reaches `onSuccess`. */
  method TimeoutThenSuccess(ctx: LoadContext, cfg: LoadConfig, now: int, later: int) returns (calls: seq<Callback>)
    ensures |calls| == 2 && calls[0].OnTimeout? && calls[1].OnSuccess?
    ensures calls[1].stats.tload == Some(Max(0, later))
  {
    var l := new XhrLoader(false);
    l.Load(ctx, cfg, Callbacks(false), now);
    l.FireRequestTimer();
    l.Respond(200, "OK", later);
    calls := l.calls;
  }

  /**
   * `abort` in the middle of a request: the load is marked aborted, both timers are
   * cleared, and the `loadend` the cancelled request still dispatches calls nothing.
   */
  method AbortMidFlight(ctx: LoadContext, cfg: LoadConfig, now: int)
    returns (calls: seq<Callback>, aborted: bool, timerPending: bool, requestLive: bool)
    ensures calls == [] && aborted && !timerPending && !requestLive
  {
    var l := new XhrLoader(false);
    l.Load(ctx, cfg, Callbacks(true), now);
    l.Progress(100, true, 1000, now + 5);
    l.Abort();
    l.LoadEnd(0, "", now + 10);
    calls := l.calls[1..];
    aborted := l.stats.aborted;
    timerPending := l.requestTimeout.Armed? || l.retryTimeout.Armed?;
    requestLive := InFlight(l.State());
  }

  /**
   * `load` does not clear a retry timer that is still pending: loading again during a
   * backoff, without `abort`, lets the old timer start one more attempt, so the caller
   * sees `onSuccess` twice. AtMostOneTerminal excludes this by asking that no retry
   * timer be pending when the load starts.
   */
  method ReloadDuringBackoff(ctx: LoadContext, now: int) returns (calls: seq<Callback>)
    ensures Terminals(calls) == 2
  {
    var cfg := LoadConfig(10000, 1000, 3);
    var l := new XhrLoader(false);
    l.Load(ctx, cfg, Callbacks(false), now);
    l.Respond(500, "Internal Server Error", now);
    l.Load(ctx, cfg, Callbacks(false), now);
    l.Respond(200, "OK", now);
    l.FireRetryTimer();
    l.Respond(200, "OK", now);
    calls := l.calls;
    assert |calls| == 2 && calls[0].OnSuccess? && calls[1].OnSuccess?;
    assert calls[..1][..0] == [];
    assert calls[..|calls| - 1] == calls[..1];
    assert Terminals(calls[..1]) == Terminals([]) + 1;
  }
}
