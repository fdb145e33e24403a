/**
 * The retry handler: normalisation of its backoff parameters and the
 * `Execute` loop, over abstract inputs for what the target returns, the
 * context's state, the time left until its deadline and how each wait ends.
 */
module Retry {
  import opened Wrappers
  import opened GoInts
  import opened Values
  import opened Errors
  import opened Contexts
  import opened RetryConfigs
  import opened RetryEvaluators

  /** The largest `time.Duration`, used as "no deadline". */
  const InfDuration: Int64 := 0x7FFF_FFFF_FFFF_FFFF

  /** One millisecond, in nanoseconds. */
  const Millisecond: Int64 := 1_000_000

  /** The parameters of the `backoff.Backoff` a handler holds; durations in nanoseconds. */
  datatype Backoff = Backoff(min: Int64, max: Int64, factor: real, jitter: bool)

  function MaxDuration(a: Int64, b: Int64): Int64
  {
    if a < b then b else a
  }

  /** The bounds `withMinMax` stores: each raised to 5 ms, then put in order. */
  function ClampMinMax(min: Int64, max: Int64): (r: (Int64, Int64))
    ensures MinWaitDuration <= r.0 <= r.1
    ensures multiset{r.0, r.1} == multiset{MaxDuration(min, MinWaitDuration), MaxDuration(max, MinWaitDuration)}
  {
    var lo := if min < MinWaitDuration then MinWaitDuration else min;
    var hi := if max < MinWaitDuration then MinWaitDuration else max;
    if lo > hi then (hi, lo) else (lo, hi)
  }

  /** The factor `withFactor` stores: at least `MinFactor`, unchanged when already so. */
  function ClampFactor(factor: real): (r: real)
    ensures r >= MinFactor
    ensures factor >= MinFactor ==> r == factor
    ensures factor < MinFactor ==> r == MinFactor
  {
    if factor < MinFactor then MinFactor else factor
  }

  /** The backoff of `NewRetryHandler(min, max, factor, jitter)`. */
  function NormalBackoff(min: Int64, max: Int64, factor: real, jitter: bool): Backoff
  {
    var bounds := ClampMinMax(min, max);
    Backoff(bounds.0, bounds.1, ClampFactor(factor), jitter)
  }

  /** `time.Duration(ms) * time.Millisecond`, with Go's 64-bit wrap-around. */
  function FromMilliseconds(ms: Int64): (r: Int64)
    ensures -9_223_372_036_854 <= ms <= 9_223_372_036_854 ==> r == ms * Millisecond
  {
    ToInt64Bits(ms * Millisecond)
  }

  /** The backoff of `NewRetryHandlerFromConfig(cfg)`. */
  function ConfigBackoff(cfg: RetryConfig): Backoff
  {
    NormalBackoff(FromMilliseconds(cfg.minWait), FromMilliseconds(cfg.maxWait), cfg.factor, cfg.jitter)
  }

  /** A `RetryHandler`; only its construction changes its backoff. */
  class RetryHandler {
    var backoff: Backoff

    constructor (jitter: bool)
      ensures backoff == Backoff(0, 0, 0.0, jitter)
    {
      backoff := Backoff(0, 0, 0.0, jitter);
    }

    method WithMinMax(min: Int64, max: Int64) returns (r: RetryHandler)
      modifies this
      ensures r == this
      ensures backoff == old(backoff).(min := ClampMinMax(min, max).0, max := ClampMinMax(min, max).1)
    {
      var lo, hi := min, max;
      if lo < MinWaitDuration {
        lo := MinWaitDuration;
      }
      if hi < MinWaitDuration {
        hi := MinWaitDuration;
      }
      if lo > hi {
        lo, hi := hi, lo;
      }
      backoff := backoff.(min := lo, max := hi);
      return this;
    }

    method WithFactor(factor: real) returns (r: RetryHandler)
      modifies this
      ensures r == this
      ensures backoff == old(backoff).(factor := ClampFactor(factor))
    {
      var f := factor;
      if f < MinFactor {
        f := MinFactor;
      }
      backoff := backoff.(factor := f);
      return this;
    }
  }

  method NewRetryHandler(min: Int64, max: Int64, factor: real, jitter: bool) returns (r: RetryHandler)
    ensures fresh(r)
    ensures r.backoff == NormalBackoff(min, max, factor, jitter)
  {
    r := new RetryHandler(jitter);
    r := r.WithMinMax(min, max);
    r := r.WithFactor(factor);
  }

  method NewRetryHandlerFromConfig(cfg: RetryConfig) returns (r: RetryHandler)
    ensures fresh(r)
    ensures r.backoff == ConfigBackoff(cfg)
  {
    r := new RetryHandler(cfg.jitter);
    r := r.WithMinMax(ToInt64Bits(cfg.minWait * Millisecond), ToInt64Bits(cfg.maxWait * Millisecond));
    r := r.WithFactor(cfg.factor);
  }

  // ------------------------------------------------ normalisation lemmas

  /** Bounds already in order and at least 5 ms are kept. */
  lemma ClampMinMaxKeepsValid(min: Int64, max: Int64)
    requires MinWaitDuration <= min <= max
    ensures ClampMinMax(min, max) == (min, max)
  {
  }

  /** The order of the arguments does not matter. */
  lemma ClampMinMaxSymmetric(min: Int64, max: Int64)
    ensures ClampMinMax(min, max) == ClampMinMax(max, min)
  {
  }

  lemma ClampMinMaxExamples()
    ensures ClampMinMax(50 * Millisecond, 3 * Millisecond) == (5 * Millisecond, 50 * Millisecond)
    ensures ClampMinMax(50 * Millisecond, 25 * Millisecond) == (25 * Millisecond, 50 * Millisecond)
  {
  }

  /** Config (25, 3, 0.8) gives a handler with 5 ms, 25 ms and factor 1. */
  lemma ConfigExample()
    ensures ConfigBackoff(RetryConfig(25, 3, 0.8, false)) == Backoff(5 * Millisecond, 25 * Millisecond, 1.0, false)
  {
  }

  /** The default configuration passes through normalisation unchanged. */
  lemma DefaultConfigNormalised()
    ensures ConfigBackoff(NewDefaultRetryConfig()) == Backoff(50 * Millisecond, 5000 * Millisecond, 2.0, true)
  {
  }

  // ------------------------------------------------------------ Execute

  /** How the wait after a failed attempt ends. */
  datatype WaitEnd = TimerFired | CtxDoneDuringWait(state: DoneState)

  /** What the environment does in one iteration of the loop. */
  datatype Attempt = Attempt(
    ctxAtStart: CtxState,  // the context when the iteration starts
    result: Value,  // what the target returns...
    err: Option<GoError>,  // ...and its error
    untilDeadline: Int64,  // time.Until(deadline) after the call, when the context has a deadline
    wait: WaitEnd)

  datatype Outcome = Finished(result: Value, err: Option<GoError>) | Unfinished

  /** What one run of `Execute` did: its outcome, how often it called the target, the waits it asked for. */
  datatype Run = Run(outcome: Outcome, calls: nat, waits: seq<Int64>, counts: map<RetryCounter, int>)

  function EvalCounters(eval: Option<Evaluator>): set<RetryCounter>
  {
    if eval.Some? then Counters(eval.value) else {}
  }

  /** What the evaluator says about `err`; a nil evaluator means retry. */
  function Decide(eval: Option<Evaluator>, err: Option<GoError>, counts: map<RetryCounter, int>): (v: Verdict)
    requires EvalCounters(eval) <= counts.Keys
    ensures v.counts.Keys == counts.Keys
    ensures eval.None? ==> v == Verdict(true, counts)
    ensures eval.Some? ==> v == Eval(eval.value, err, counts)
  {
    if eval.None? then Verdict(true, counts) else Eval(eval.value, err, counts)
  }

  /** The wait of attempt `k`: the backoff delay, cut to the time left when the context has a deadline. */
  function WaitTime(delay: Int64, hasDeadline: bool, untilDeadline: Int64): (w: Int64)
    ensures w <= delay
    ensures hasDeadline ==> w <= untilDeadline
    ensures w == delay || (hasDeadline && w == untilDeadline) || w == InfDuration
  {
    var ctxDeadline := if hasDeadline then untilDeadline else InfDuration;
    if delay < ctxDeadline then delay else ctxDeadline
  }

  /**
   * The specification of `Execute` from iteration `attempts` on, having
   * already waited `waits`. `forAttempt` is the backoff delay of an attempt.
   */
  function ExecuteSpec(env: seq<Attempt>, attempts: nat, waits: seq<Int64>, b: Backoff,
                       forAttempt: (Backoff, nat) -> Int64, eval: Option<Evaluator>,
                       hasDeadline: bool, counts: map<RetryCounter, int>): (r: Run)
    requires attempts <= |env|
    requires EvalCounters(eval) <= counts.Keys
    ensures r.calls <= |env| && attempts <= r.calls
    ensures r.outcome.Unfinished? ==> r.calls == |env|
    decreases |env| - attempts
  {
    if attempts == |env| then Run(Unfinished, attempts, waits, counts)
    else
      var a := env[attempts];
      if a.ctxAtStart.Done() then Run(Finished(Nil, a.ctxAtStart.Err()), attempts, waits, counts)
      else if a.err.None? then Run(Finished(a.result, None), attempts + 1, waits, counts)
      else
        var v := Decide(eval, a.err, counts);
        if !v.retry then Run(Finished(Nil, a.err), attempts + 1, waits, v.counts)
        else if hasDeadline && a.untilDeadline <= 0 then
          Run(Finished(Nil, Some(Wrapped(a.err.value, "context deadline exceeded"))), attempts + 1, waits, v.counts)
        else
          var w := WaitTime(forAttempt(b, attempts), hasDeadline, a.untilDeadline);
          match a.wait
          case CtxDoneDuringWait(s) =>
            Run(Finished(Nil, Some(Wrapped(s.Err().value, a.err.value.Text()))), attempts + 1, waits + [w], v.counts)
          case TimerFired =>
            ExecuteSpec(env, attempts + 1, waits + [w], b, forAttempt, eval, hasDeadline, v.counts)
  }

  /**
   * `(*RetryHandler).Execute`. The loop runs over the iterations `env`
   * describes; if it would go on past them the run is `Unfinished`.
   */
  method Execute(h: RetryHandler, env: seq<Attempt>, forAttempt: (Backoff, nat) -> Int64,
                 eval: Option<Evaluator>, hasDeadline: bool, ghost s: set<RetryCounter>)
    returns (outcome: Outcome, calls: nat, waits: seq<Int64>)
    requires EvalCounters(eval) <= s
    requires forall c :: c in s ==> c.Valid()
    modifies EvalCounters(eval)
    ensures forall c :: c in s ==> c.Valid()
    ensures Run(outcome, calls, waits, CountsOf(s)) ==
      ExecuteSpec(env, 0, [], h.backoff, forAttempt, eval, hasDeadline, old(CountsOf(s)))
  {
    var attempts := 0;
    waits := [];
    while attempts < |env|
      invariant 0 <= attempts <= |env|
      invariant forall c :: c in s ==> c.Valid()
      invariant ExecuteSpec(env, 0, [], h.backoff, forAttempt, eval, hasDeadline, old(CountsOf(s))) ==
        ExecuteSpec(env, attempts, waits, h.backoff, forAttempt, eval, hasDeadline, CountsOf(s))
    {
      var a := env[attempts];
      if a.ctxAtStart.Done() {
        return Finished(Nil, a.ctxAtStart.Err()), attempts, waits;
      }
      var result, err := a.result, a.err;
      if err.None? {
        return Finished(result, None), attempts + 1, waits;
      }
      result := Nil;
      var retry := true;
      if eval.Some? {
        retry := Evaluate(eval.value, err, s);
      }
      if !retry {
        return Finished(result, err), attempts + 1, waits;
      }
      var ctxDeadline := InfDuration;
      if hasDeadline {
        ctxDeadline := a.untilDeadline;
        if ctxDeadline <= 0 {
          return Finished(Nil, Some(Wrapped(err.value, "context deadline exceeded"))), attempts + 1, waits;
        }
      }
      var delay := forAttempt(h.backoff, attempts);
      var waitTime: Int64;
      if delay < ctxDeadline {
        waitTime := delay;
      } else {
        waitTime := ctxDeadline;
      }
      waits := waits + [waitTime];
      match a.wait {
        case CtxDoneDuringWait(st) =>
          return Finished(Nil, Some(Wrapped(st.Err().value, err.value.Text()))), attempts + 1, waits;
        case TimerFired =>
      }
      attempts := attempts + 1;
    }
    return Unfinished, attempts, waits;
  }

  // ----------------------------------------------------- Execute lemmas

  /** Where an error that `Execute` returns comes from, given that it stopped in iteration `k`. */
  predicate ErrorOrigin(e: GoError, a: Attempt)
  {
    Some(e) == a.ctxAtStart.Err()
    || (a.err.Some? && (
          Some(e) == a.err
          || e == Wrapped(a.err.value, "context deadline exceeded")
          || (exists st: DoneState :: e == Wrapped(st.Err().value, a.err.value.Text()))))
  }

  /** A run of `Execute` keeps the waits already made, adds one at most per call, and ends no earlier. */
  lemma {:induction false} ExecuteWaitsPrefix(env: seq<Attempt>, attempts: nat, waits: seq<Int64>, b: Backoff,
                                              forAttempt: (Backoff, nat) -> Int64, eval: Option<Evaluator>,
                                              hasDeadline: bool, counts: map<RetryCounter, int>)
    requires attempts <= |env| && |waits| == attempts
    requires EvalCounters(eval) <= counts.Keys
    ensures var r := ExecuteSpec(env, attempts, waits, b, forAttempt, eval, hasDeadline, counts);
      attempts <= |r.waits| <= r.calls && r.waits[..attempts] == waits
    decreases |env| - attempts
  {
    if attempts < |env| {
      var a := env[attempts];
      if !a.ctxAtStart.Done() && a.err.Some? {
        var v := Decide(eval, a.err, counts);
        if v.retry && !(hasDeadline && a.untilDeadline <= 0) && a.wait.TimerFired? {
          var w := WaitTime(forAttempt(b, attempts), hasDeadline, a.untilDeadline);
          var r := ExecuteSpec(env, attempts + 1, waits + [w], b, forAttempt, eval, hasDeadline, v.counts);
          assert ExecuteSpec(env, attempts, waits, b, forAttempt, eval, hasDeadline, counts) == r;
          ExecuteWaitsPrefix(env, attempts + 1, waits + [w], b, forAttempt, eval, hasDeadline, v.counts);
          PrefixOfPrefix(r.waits, waits, w);
        }
      }
    }
  }

  /**
   * The waits of every run of `Execute`: the i-th is `WaitTime` of the
   * backoff delay of attempt i (attempts counts the completed waits), and
   * each follows a call of the target.
   */
  lemma {:induction false} ExecuteWaits(env: seq<Attempt>, attempts: nat, waits: seq<Int64>, b: Backoff,
                                        forAttempt: (Backoff, nat) -> Int64, eval: Option<Evaluator>,
                                        hasDeadline: bool, counts: map<RetryCounter, int>)
    requires attempts <= |env| && |waits| == attempts
    requires EvalCounters(eval) <= counts.Keys
    ensures var r := ExecuteSpec(env, attempts, waits, b, forAttempt, eval, hasDeadline, counts);
      && attempts <= |r.waits| <= r.calls
      && r.waits[..attempts] == waits
      && (forall k :: attempts <= k < |r.waits| ==>
            r.waits[k] == WaitTime(forAttempt(b, k), hasDeadline, env[k].untilDeadline))
    decreases |env| - attempts
  {
    ExecuteWaitsPrefix(env, attempts, waits, b, forAttempt, eval, hasDeadline, counts);
    if attempts < |env| {
      var a := env[attempts];
      if !a.ctxAtStart.Done() && a.err.Some? {
        var v := Decide(eval, a.err, counts);
        if v.retry && !(hasDeadline && a.untilDeadline <= 0) && a.wait.TimerFired? {
          var w := WaitTime(forAttempt(b, attempts), hasDeadline, a.untilDeadline);
          var r := ExecuteSpec(env, attempts + 1, waits + [w], b, forAttempt, eval, hasDeadline, v.counts);
          assert ExecuteSpec(env, attempts, waits, b, forAttempt, eval, hasDeadline, counts) == r;
          ExecuteWaits(env, attempts + 1, waits + [w], b, forAttempt, eval, hasDeadline, v.counts);
          PrefixOfPrefix(r.waits, waits, w);
        }
      }
    }
  }

  /** A sequence that starts with `p + [w]` starts with `p`, and holds `w` just after it. */
  lemma PrefixOfPrefix(s: seq<Int64>, p: seq<Int64>, w: Int64)
    requires |p| < |s| && s[..|p| + 1] == p + [w]
    ensures s[..|p|] == p && s[|p|] == w
  {
    assert s[..|p|] == (s[..|p| + 1])[..|p|];
    assert s[|p|] == (s[..|p| + 1])[|p|];
  }

  /** Every iteration of `Execute` but the last called the target, which failed and was waited out. */
  lemma {:induction false} ExecuteRetried(env: seq<Attempt>, attempts: nat, waits: seq<Int64>, b: Backoff,
                                          forAttempt: (Backoff, nat) -> Int64, eval: Option<Evaluator>,
                                          hasDeadline: bool, counts: map<RetryCounter, int>)
    requires attempts <= |env|
    requires EvalCounters(eval) <= counts.Keys
    ensures var r := ExecuteSpec(env, attempts, waits, b, forAttempt, eval, hasDeadline, counts);
      forall k :: attempts <= k < r.calls - 1 ==>
        !env[k].ctxAtStart.Done() && env[k].err.Some? && env[k].wait.TimerFired?
    decreases |env| - attempts
  {
    if attempts < |env| {
      var a := env[attempts];
      if !a.ctxAtStart.Done() && a.err.Some? {
        var v := Decide(eval, a.err, counts);
        if v.retry && !(hasDeadline && a.untilDeadline <= 0) && a.wait.TimerFired? {
          var w := WaitTime(forAttempt(b, attempts), hasDeadline, a.untilDeadline);
          ExecuteRetried(env, attempts + 1, waits + [w], b, forAttempt, eval, hasDeadline, v.counts);
        }
      }
    }
  }

  /** A run of `Execute` that succeeds returns the last call's result with a nil error. */
  lemma {:induction false} ExecuteSuccess(env: seq<Attempt>, attempts: nat, waits: seq<Int64>, b: Backoff,
                                          forAttempt: (Backoff, nat) -> Int64, eval: Option<Evaluator>,
                                          hasDeadline: bool, counts: map<RetryCounter, int>)
    requires attempts <= |env|
    requires EvalCounters(eval) <= counts.Keys
    ensures var r := ExecuteSpec(env, attempts, waits, b, forAttempt, eval, hasDeadline, counts);
      r.outcome.Finished? && r.outcome.err.None? ==>
        attempts < r.calls && env[r.calls - 1].err.None? && r.outcome.result == env[r.calls - 1].result
    decreases |env| - attempts
  {
    if attempts < |env| {
      var a := env[attempts];
      if !a.ctxAtStart.Done() && a.err.Some? {
        var v := Decide(eval, a.err, counts);
        if v.retry && !(hasDeadline && a.untilDeadline <= 0) && a.wait.TimerFired? {
          var w := WaitTime(forAttempt(b, attempts), hasDeadline, a.untilDeadline);
          assert ExecuteSpec(env, attempts, waits, b, forAttempt, eval, hasDeadline, counts)
            == ExecuteSpec(env, attempts + 1, waits + [w], b, forAttempt, eval, hasDeadline, v.counts);
          ExecuteSuccess(env, attempts + 1, waits + [w], b, forAttempt, eval, hasDeadline, v.counts);
        }
      }
    }
  }

  /**
   * A run of `Execute` that fails returns a nil result, and its error is
   * the context's, the target's, or one of them wrapped.
   */
  lemma {:induction false} ExecuteFailure(env: seq<Attempt>, attempts: nat, waits: seq<Int64>, b: Backoff,
                                          forAttempt: (Backoff, nat) -> Int64, eval: Option<Evaluator>,
                                          hasDeadline: bool, counts: map<RetryCounter, int>)
    requires attempts <= |env|
    requires EvalCounters(eval) <= counts.Keys
    ensures var r := ExecuteSpec(env, attempts, waits, b, forAttempt, eval, hasDeadline, counts);
      r.outcome.Finished? && r.outcome.err.Some? ==>
        r.outcome.result == Nil
        && ((r.calls < |env| && Some(r.outcome.err.value) == env[r.calls].ctxAtStart.Err())
            || (attempts < r.calls && ErrorOrigin(r.outcome.err.value, env[r.calls - 1])))
    decreases |env| - attempts
  {
    if attempts < |env| {
      var a := env[attempts];
      if !a.ctxAtStart.Done() && a.err.Some? {
        var v := Decide(eval, a.err, counts);
        if v.retry && !(hasDeadline && a.untilDeadline <= 0) {
          var w := WaitTime(forAttempt(b, attempts), hasDeadline, a.untilDeadline);
          match a.wait
          case CtxDoneDuringWait(st) =>
            assert ErrorOrigin(Wrapped(st.Err().value, a.err.value.Text()), a);
          case TimerFired =>
            assert ExecuteSpec(env, attempts, waits, b, forAttempt, eval, hasDeadline, counts)
              == ExecuteSpec(env, attempts + 1, waits + [w], b, forAttempt, eval, hasDeadline, v.counts);
            ExecuteFailure(env, attempts + 1, waits + [w], b, forAttempt, eval, hasDeadline, v.counts);
        }
      }
    }
  }

  /** A context already done at the top of the loop ends `Execute` with its error, before any call. */
  lemma DoneBeforeFirstCall(env: seq<Attempt>, b: Backoff, forAttempt: (Backoff, nat) -> Int64,
                            eval: Option<Evaluator>, hasDeadline: bool, counts: map<RetryCounter, int>)
    requires |env| > 0 && env[0].ctxAtStart.Done()
    requires EvalCounters(eval) <= counts.Keys
    ensures ExecuteSpec(env, 0, [], b, forAttempt, eval, hasDeadline, counts)
      == Run(Finished(Nil, env[0].ctxAtStart.Err()), 0, [], counts)
  {
  }

  /** An evaluator that says no returns the target's own error after one call. */
  lemma NoRetryReturnsTargetError(env: seq<Attempt>, b: Backoff, forAttempt: (Backoff, nat) -> Int64,
                                  hasDeadline: bool, counts: map<RetryCounter, int>)
    requires |env| > 0 && !env[0].ctxAtStart.Done() && env[0].err.Some?
    ensures ExecuteSpec(env, 0, [], b, forAttempt, Some(NoRetry), hasDeadline, counts)
      == Run(Finished(Nil, env[0].err), 1, [], counts)
  {
  }

  /** A deadline already passed after a failed call wraps its error as "context deadline exceeded", without waiting. */
  lemma PassedDeadlineWraps(env: seq<Attempt>, b: Backoff, forAttempt: (Backoff, nat) -> Int64,
                            counts: map<RetryCounter, int>)
    requires |env| > 0 && !env[0].ctxAtStart.Done() && env[0].err.Some? && env[0].untilDeadline <= 0
    ensures var r := ExecuteSpec(env, 0, [], b, forAttempt, None, true, counts);
      r.outcome == Finished(Nil, Some(Wrapped(env[0].err.value, "context deadline exceeded")))
      && r.waits == [] && r.calls == 1
      && r.outcome.err.value.Text() == "context deadline exceeded: " + env[0].err.value.Text()
  {
  }

  /** A cancellation during the wait returns the context's error, wrapped with the target error's text. */
  lemma CancelDuringWait(env: seq<Attempt>, b: Backoff, forAttempt: (Backoff, nat) -> Int64,
                         counts: map<RetryCounter, int>)
    requires |env| > 0 && !env[0].ctxAtStart.Done() && env[0].err.Some?
    requires env[0].wait == CtxDoneDuringWait(Cancelled)
    ensures var r := ExecuteSpec(env, 0, [], b, forAttempt, None, false, counts);
      r.outcome == Finished(Nil, Some(Wrapped(Canceled, env[0].err.value.Text())))
      && r.waits == [forAttempt(b, 0)] && r.calls == 1
      && r.outcome.err.value.Text() == env[0].err.value.Text() + ": context canceled"
  {
  }

  /** "Eventually works": two failures, each waited out, then a success after three calls. */
  lemma EventuallyWorks(b: Backoff, forAttempt: (Backoff, nat) -> Int64, counts: map<RetryCounter, int>)
    ensures var fail := Attempt(Live, Nil, Some(Plain("temporarily failing")), 0, TimerFired);
      var ok := Attempt(Live, Str("success"), None, 0, TimerFired);
      ExecuteSpec([fail, fail, ok], 0, [], b, forAttempt, None, false, counts)
        == Run(Finished(Str("success"), None), 3, [forAttempt(b, 0), forAttempt(b, 1)], counts)
  {
    var fail := Attempt(Live, Nil, Some(Plain("temporarily failing")), 0, TimerFired);
    var ok := Attempt(Live, Str("success"), None, 0, TimerFired);
    var env := [fail, fail, ok];
    var w0, w1 := forAttempt(b, 0), forAttempt(b, 1);
    assert WaitTime(w0, false, 0) == w0 && WaitTime(w1, false, 0) == w1;
    assert ExecuteSpec(env, 2, [w0, w1], b, forAttempt, None, false, counts)
      == Run(Finished(Str("success"), None), 3, [w0, w1], counts);
    assert [w0] + [w1] == [w0, w1];
    assert ExecuteSpec(env, 1, [w0], b, forAttempt, None, false, counts)
      == ExecuteSpec(env, 2, [w0, w1], b, forAttempt, None, false, counts);
    assert [] + [w0] == [w0];
  }
}
