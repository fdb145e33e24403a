/** The limiter without limits: it only refuses once the context is done. */
module InfLimiters {
  import opened Wrappers
  import opened Errors
  import opened Contexts

  /** `infLimiter` has no state; the package hands out a single instance. */
  datatype InfLimiter = InfLimiter

  const Singleton: InfLimiter := InfLimiter

  function GetInfinityLimiter(): (l: InfLimiter)
    ensures l == Singleton
  {
    Singleton
  }

  /** `(*infLimiter).Acquire`: the context's error once it is done, nil otherwise. */
  function Acquire(l: InfLimiter, ctx: CtxState): (err: Option<GoError>)
    ensures err.None? <==> !ctx.Done()
    ensures ctx.Done() ==> err == ctx.Err()
  {
    if ctx.Done() then ctx.Err() else None
  }

  /** Any number of acquires on a live context succeed: nothing is consumed. */
  lemma AcquireNeverRunsOut(l: InfLimiter, contexts: seq<CtxState>)
    requires forall i :: 0 <= i < |contexts| ==> contexts[i] == Live
    ensures forall i :: 0 <= i < |contexts| ==> Acquire(l, contexts[i]).None?
  {
  }
}
