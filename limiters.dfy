/**
 * The `Limiter` interface over the three limiters that hold the slots
 * themselves: a run-time choice between them, a snapshot of the state
 * behind each, and one `Acquire`/`Release` specification for all three.
 */
module Limiters {
  import opened Wrappers
  import opened Errors
  import opened Contexts
  import opened InfLimiters
  import opened SemaphoreLimiters
  import opened FailFastLimiters

  /** What one `Acquire` call meets: the context, and how a blocking wait would end. */
  datatype AcquireEnv = AcquireEnv(ctx: CtxState, wait: WaitEvent)

  datatype BaseLimiter =
    | Infinite(inf: InfLimiter)
    | Semaphore(sem: SemaphoreLimiter)
    | FailFast(fast: FailFastLimiter)

  datatype BaseState =
    | InfState
    | SemSt(sem: SemState)
    | FastSt(fast: FastState)

  function Objects(l: BaseLimiter): set<object>
  {
    match l
    case Infinite(_) => {}
    case Semaphore(s) => {s}
    case FailFast(f) => {f}
  }

  function State(l: BaseLimiter): BaseState
    reads Objects(l)
  {
    match l
    case Infinite(_) => InfState
    case Semaphore(s) => SemSt(s.State())
    case FailFast(f) => FastSt(f.State())
  }

  /** The invariants of the limiters: occupancy within capacity, tokens within the burst. */
  predicate StateValid(st: BaseState)
  {
    match st
    case InfState => true
    case SemSt(s) => s.occupancy <= s.capacity
    case FastSt(f) => f.tokens <= f.burst
  }

  ghost predicate Valid(l: BaseLimiter)
    reads Objects(l)
  {
    StateValid(State(l))
  }

  /** Whether a semaphore has a buffer; the other limiters never wait. */
  predicate Buffered(st: BaseState)
  {
    st.SemSt? ==> st.sem.capacity > 0
  }

  /** The way `env`'s wait ends can happen on the limiter whose state is `st`. */
  predicate EnvPossible(st: BaseState, env: AcquireEnv)
  {
    env.wait.SlotFreed? ==> Buffered(st)
  }

  /**
   * `Acquire` on the limiter whose state is `st`: a done context always
   * gives its error and changes nothing; the state stays valid, and the
   * limiter keeps its kind and its capacity.
   */
  function AcquireSpec(st: BaseState, env: AcquireEnv): (r: (BaseState, Option<GoError>))
    requires EnvPossible(st, env)
    ensures StateValid(st) ==> StateValid(r.0)
    ensures st.SemSt? <==> r.0.SemSt?
    ensures st.SemSt? ==> r.0.sem.capacity == st.sem.capacity
    ensures env.ctx.Done() ==> r == (st, env.ctx.Err())
    ensures r.1.Some? ==> r.0 == st
    ensures st.InfState? ==> r == (InfState, InfLimiters.Acquire(InfLimiter, env.ctx))
  {
    match st
    case InfState => (InfState, InfLimiters.Acquire(InfLimiter, env.ctx))
    case SemSt(s) =>
      var (s', err) := SemaphoreLimiters.AcquireStep(s, env.ctx, env.wait);
      (SemSt(s'), err)
    case FastSt(f) =>
      var (f', err) := FailFastLimiters.AcquireStep(f, env.ctx);
      (FastSt(f'), err)
  }

  /** `Release` returns only on a semaphore that holds a slot; on the others it always returns. */
  predicate CanRelease(st: BaseState)
  {
    st.SemSt? ==> st.sem.occupancy > 0
  }

  /** Only the semaphore's occupancy changes on `Release`; the other two ignore it. */
  function ReleaseSpec(st: BaseState): (r: BaseState)
    requires CanRelease(st)
    ensures StateValid(st) ==> StateValid(r)
    ensures !st.SemSt? ==> r == st
    ensures st.SemSt? ==> r.SemSt? && r.sem.capacity == st.sem.capacity && r.sem.occupancy + 1 == st.sem.occupancy
  {
    match st
    case SemSt(s) => SemSt(SemaphoreLimiters.ReleaseStep(s))
    case _ => st
  }

  /**
   * A successful acquire followed by a release leaves the limiter as it was,
   * except for a spent token, or for the holder whose release unblocked a
   * waiting acquire.
   */
  lemma AcquireThenRelease(st: BaseState, env: AcquireEnv)
    requires EnvPossible(st, env) && AcquireSpec(st, env).1.None?
    ensures CanRelease(AcquireSpec(st, env).0)
    ensures st.InfState? ==> ReleaseSpec(AcquireSpec(st, env).0) == st
    ensures st.SemSt? && st.sem.occupancy < st.sem.capacity ==> ReleaseSpec(AcquireSpec(st, env).0) == st
    ensures st.SemSt? && st.sem.occupancy >= st.sem.capacity ==>
      ReleaseSpec(AcquireSpec(st, env).0) == SemSt(st.sem.(occupancy := st.sem.occupancy - 1))
    ensures st.FastSt? ==> ReleaseSpec(AcquireSpec(st, env).0) == FastSt(st.fast.(tokens := st.fast.tokens - 1))
  {
  }

  method Acquire(l: BaseLimiter, env: AcquireEnv) returns (err: Option<GoError>)
    requires Valid(l) && EnvPossible(State(l), env)
    modifies Objects(l)
    ensures Valid(l)
    ensures (State(l), err) == AcquireSpec(old(State(l)), env)
  {
    match l {
      case Infinite(inf) =>
        err := InfLimiters.Acquire(inf, env.ctx);
      case Semaphore(s) =>
        err := s.Acquire(env.ctx, env.wait);
      case FailFast(f) =>
        err := f.Acquire(env.ctx);
    }
  }

  method Release(l: BaseLimiter)
    requires Valid(l) && CanRelease(State(l))
    modifies Objects(l)
    ensures Valid(l)
    ensures State(l) == ReleaseSpec(old(State(l)))
  {
    match l {
      case Infinite(_) =>
      case Semaphore(s) =>
        s.Release();
      case FailFast(_) =>
    }
  }
}
