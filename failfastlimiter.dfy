/**
 * A limiter that never waits: it refuses as soon as the token bucket it
 * draws from is empty. The bucket holds `burst` tokens when created; its
 * refill over time is not modelled.
 */
module FailFastLimiters {
  import opened Wrappers
  import opened GoInts
  import opened Errors
  import opened Contexts

  const RateLimitMessage := "rate limit exceeded"

  /** The arguments `NewFailFastLimiter` gives `rate.NewLimiter`: the refill rate and the burst size. */
  datatype FastParams = FastParams(limit: real, burst: nat)

  function NewFailFastParams(acquiresPerSecond: Int64): (p: FastParams)
    ensures p.burst == if acquiresPerSecond < 0 then 0 else acquiresPerSecond
    ensures p.limit <= 1.0 && p.limit <= p.burst as real
    ensures p.limit == 1.0 || p.limit == p.burst as real
  {
    var perSecond := if acquiresPerSecond < 0 then 0 else acquiresPerSecond;
    var burst := perSecond;
    var eventsPerSecond := if (burst as real) < 1.0 then burst as real else 1.0;
    FastParams(eventsPerSecond, burst)
  }

  lemma ParamsExamples()
    ensures NewFailFastParams(20) == FastParams(1.0, 20)
    ensures NewFailFastParams(-20) == FastParams(0.0, 0)
  {
  }

  /** The bucket: its size and the tokens in it. */
  datatype FastState = FastState(burst: nat, tokens: nat)

  /**
   * `Acquire`: a done context gives its error and takes no token; otherwise
   * a token is taken if there is one, and the call fails at once if not.
   */
  function AcquireStep(st: FastState, ctx: CtxState): (r: (FastState, Option<GoError>))
    ensures r.0.burst == st.burst
    ensures r.1.None? <==> !ctx.Done() && st.tokens > 0
    ensures r.0.tokens == if r.1.None? then st.tokens - 1 else st.tokens
    ensures ctx.Done() ==> r.1 == ctx.Err()
    ensures !ctx.Done() && st.tokens == 0 ==> r.1 == Some(Plain(RateLimitMessage))
  {
    if ctx.Done() then (st, ctx.Err())
    else if st.tokens > 0 then (st.(tokens := st.tokens - 1), None)
    else (st, Some(Plain(RateLimitMessage)))
  }

  /** `failFastLimiter` over its `rate.Limiter`. */
  class FailFastLimiter {
    const limit: real
    const burst: nat
    var tokens: nat

    ghost predicate Valid()
      reads this
    {
      tokens <= burst
    }

    function State(): FastState
      reads this
    {
      FastState(burst, tokens)
    }

    /** `NewFailFastLimiter(acquiresPerSecond)`: the bucket starts full. */
    constructor (acquiresPerSecond: Int64)
      ensures Valid()
      ensures FastParams(limit, burst) == NewFailFastParams(acquiresPerSecond)
      ensures tokens == burst
    {
      var p := NewFailFastParams(acquiresPerSecond);
      limit, burst := p.limit, p.burst;
      tokens := p.burst;
    }

    method Acquire(ctx: CtxState) returns (err: Option<GoError>)
      requires Valid()
      modifies this
      ensures Valid()
      ensures (State(), err) == AcquireStep(old(State()), ctx)
    {
      if ctx.Done() {
        err := ctx.Err();
      } else if tokens > 0 {
        tokens := tokens - 1;
        err := None;
      } else {
        err := Some(Plain(RateLimitMessage));
      }
    }
  }

  /** The errors of acquires made in order, one per context state. */
  function AcquireRun(st: FastState, contexts: seq<CtxState>): (r: seq<Option<GoError>>)
    ensures |r| == |contexts|
    decreases |contexts|
  {
    if contexts == [] then []
    else
      var first := AcquireStep(st, contexts[0]);
      [first.1] + AcquireRun(first.0, contexts[1..])
  }

  /** On a live context, with no refill, exactly the first `tokens` acquires succeed. */
  lemma {:induction false} AcquireRunSucceedsExactly(st: FastState, contexts: seq<CtxState>)
    requires forall i :: 0 <= i < |contexts| ==> contexts[i] == Live
    ensures forall i :: 0 <= i < |contexts| ==> (AcquireRun(st, contexts)[i].None? <==> i < st.tokens)
    decreases |contexts|
  {
    if contexts != [] {
      var first := AcquireStep(st, contexts[0]);
      AcquireRunSucceedsExactly(first.0, contexts[1..]);
    }
  }

  /** A fresh limiter with burst B admits exactly B of any run of acquires on a live context. */
  lemma FreshLimiterAdmitsBurst(acquiresPerSecond: Int64, contexts: seq<CtxState>)
    requires forall i :: 0 <= i < |contexts| ==> contexts[i] == Live
    ensures var b := NewFailFastParams(acquiresPerSecond).burst;
      forall i :: 0 <= i < |contexts| ==> (AcquireRun(FastState(b, b), contexts)[i].None? <==> i < b)
  {
    var b := NewFailFastParams(acquiresPerSecond).burst;
    AcquireRunSucceedsExactly(FastState(b, b), contexts);
  }
}
