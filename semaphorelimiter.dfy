/** A limiter that admits at most a fixed number of holders at once, as a buffered channel does. */
module SemaphoreLimiters {
  import opened Wrappers
  import opened Errors
  import opened Contexts

  const TimeoutMessage := "timeout in acquire (context deadline exceeded)"

  /**
   * How a blocked `Acquire` stops waiting: the context ends, the wait bound
   * passes, or another holder's `Release` frees a slot and this call's send
   * goes through.
   */
  datatype WaitEvent =
    | ContextDone(state: DoneState)
    | WaitExpired(ctxAtExpiry: CtxState)
    | SlotFreed

  /** A semaphore's capacity and how many slots are taken. */
  datatype SemState = SemState(capacity: nat, occupancy: nat)

  /**
   * A wait can end with a freed slot only on a channel with a buffer: on an
   * unbuffered one the send would need a `Release` blocked on the empty
   * channel, and a release is only ever issued on a taken slot.
   */
  predicate WaitPossible(st: SemState, wait: WaitEvent)
  {
    wait.SlotFreed? ==> st.capacity > 0
  }

  /** The error a blocked `Acquire` ends with: nil exactly when a slot was freed. */
  function WaitError(wait: WaitEvent): (err: Option<GoError>)
    ensures err.None? <==> wait.SlotFreed?
    ensures wait.ContextDone? ==> err == wait.state.Err()
    ensures wait.WaitExpired? && wait.ctxAtExpiry.Done() ==> err == wait.ctxAtExpiry.Err()
    ensures wait.WaitExpired? && !wait.ctxAtExpiry.Done() ==> err == Some(Plain(TimeoutMessage))
  {
    match wait
    case ContextDone(s) => s.Err()
    case WaitExpired(c) => if c.Done() then c.Err() else Some(Plain(TimeoutMessage))
    case SlotFreed => None
  }

  /**
   * `Acquire` on a semaphore in state `st`: a done context gives its error;
   * a free slot is taken; a full semaphore waits for `wait`, and succeeds
   * only when a holder frees a slot, which this call then holds in its
   * place. Only taking a free slot changes the occupancy, and it stays
   * within the capacity.
   */
  function AcquireStep(st: SemState, ctx: CtxState, wait: WaitEvent): (r: (SemState, Option<GoError>))
    requires WaitPossible(st, wait)
    ensures r.0.capacity == st.capacity
    ensures r.1.None? <==> !ctx.Done() && (st.occupancy < st.capacity || wait.SlotFreed?)
    ensures r.0.occupancy == if r.1.None? && st.occupancy < st.capacity then st.occupancy + 1 else st.occupancy
    ensures st.occupancy <= st.capacity ==> r.0.occupancy <= r.0.capacity
    ensures r.1.None? ==> r.0.occupancy > 0
    ensures ctx.Done() ==> r.1 == ctx.Err()
    ensures !ctx.Done() && st.occupancy >= st.capacity ==> r.1 == WaitError(wait)
  {
    if ctx.Done() then (st, ctx.Err())
    else if st.occupancy < st.capacity then (st.(occupancy := st.occupancy + 1), None)
    else (st, WaitError(wait))
  }

  /** `Release` frees exactly one slot. */
  function ReleaseStep(st: SemState): (r: SemState)
    requires st.occupancy > 0
    ensures r.capacity == st.capacity && r.occupancy + 1 == st.occupancy
  {
    st.(occupancy := st.occupancy - 1)
  }

  /** `semaphoreLimiter`: the channel's capacity and the number of values in it. */
  class SemaphoreLimiter {
    const capacity: nat
    var occupancy: nat

    ghost predicate Valid()
      reads this
    {
      occupancy <= capacity
    }

    function State(): SemState
      reads this
    {
      SemState(capacity, occupancy)
    }

    /** `NewSemaphoreLimiter(maxConcurrency)`. */
    constructor (maxConcurrency: nat)
      ensures Valid() && capacity == maxConcurrency && occupancy == 0
    {
      capacity := maxConcurrency;
      occupancy := 0;
    }

    method Acquire(ctx: CtxState, wait: WaitEvent) returns (err: Option<GoError>)
      requires Valid() && WaitPossible(State(), wait)
      modifies this
      ensures Valid()
      ensures (State(), err) == AcquireStep(old(State()), ctx, wait)
    {
      if ctx.Done() {
        return ctx.Err();
      }
      if occupancy < capacity {
        occupancy := occupancy + 1;
        return None;
      }
      match wait {
        case ContextDone(s) =>
          err := s.Err();
        case WaitExpired(c) =>
          if c.Done() {
            err := c.Err();
          } else {
            err := Some(Plain(TimeoutMessage));
          }
        case SlotFreed =>
          // the releasing holder's slot passes to this caller
          err := None;
      }
    }

    /** A receive from the channel; on an empty channel it never returns, so it is not called then. */
    method Release()
      requires Valid() && occupancy > 0
      modifies this
      ensures Valid()
      ensures State() == ReleaseStep(old(State()))
    {
      occupancy := occupancy - 1;
    }
  }

  /** `n` acquires in a row on a live context, each able to wait for `wait`. */
  function AcquireMany(st: SemState, n: nat, wait: WaitEvent): (r: (SemState, seq<Option<GoError>>))
    requires st.occupancy + n <= st.capacity || WaitPossible(st, wait)
    ensures |r.1| == n
    decreases n
  {
    if n == 0 then (st, [])
    else
      var first := AcquireStep(st, Live, wait);
      var rest := AcquireMany(first.0, n - 1, wait);
      (rest.0, [first.1] + rest.1)
  }

  lemma {:induction false} AcquireManyFills(st: SemState, n: nat, wait: WaitEvent)
    requires st.occupancy + n <= st.capacity
    ensures AcquireMany(st, n, wait).0 == st.(occupancy := st.occupancy + n)
    ensures forall i :: 0 <= i < n ==> AcquireMany(st, n, wait).1[i].None?
    decreases n
  {
    if n > 0 {
      var first := AcquireStep(st, Live, wait);
      AcquireManyFills(first.0, n - 1, wait);
    }
  }

  /**
   * With capacity N, N acquires on a live context succeed, and the next
   * one fails once its deadline passes.
   */
  lemma FillThenTimeout(capacity: nat, wait: WaitEvent)
    ensures forall i :: 0 <= i < capacity ==> AcquireMany(SemState(capacity, 0), capacity, wait).1[i].None?
    ensures AcquireMany(SemState(capacity, 0), capacity, wait).0 == SemState(capacity, capacity)
    ensures AcquireStep(SemState(capacity, capacity), Live, WaitExpired(DeadlinePassed)).1 == Some(DeadlineExceeded)
    ensures AcquireStep(SemState(capacity, capacity), Live, WaitExpired(Live)).1 == Some(Plain(TimeoutMessage))
  {
    AcquireManyFills(SemState(capacity, 0), capacity, wait);
  }

  /**
   * A blocked acquire that a release unblocks ends as a release followed by
   * an acquire that finds the freed slot.
   */
  lemma ReleaseUnblocksAcquire(st: SemState, ctx: CtxState, wait: WaitEvent)
    requires 0 < st.occupancy == st.capacity && !ctx.Done()
    ensures AcquireStep(st, ctx, SlotFreed) == (st, None)
    ensures AcquireStep(st, ctx, SlotFreed) == AcquireStep(ReleaseStep(st), ctx, wait)
  {
  }

  /** With capacity 0 no acquire ever succeeds; a cancellation ends the wait with its error. */
  lemma ZeroCapacityNeverAdmits(occupancy: nat, ctx: CtxState, wait: WaitEvent)
    requires WaitPossible(SemState(0, occupancy), wait)
    ensures AcquireStep(SemState(0, occupancy), ctx, wait).1.Some?
    ensures AcquireStep(SemState(0, 0), Live, ContextDone(Cancelled)).1 == Some(Canceled)
  {
  }

  /**
   * An acquire followed by a release restores the state, except that a
   * holder whose release unblocked the acquire is gone.
   */
  lemma AcquireReleaseRestores(st: SemState, ctx: CtxState, wait: WaitEvent)
    requires WaitPossible(st, wait) && AcquireStep(st, ctx, wait).1.None?
    ensures AcquireStep(st, ctx, wait).0.occupancy > 0
    ensures st.occupancy < st.capacity ==> ReleaseStep(AcquireStep(st, ctx, wait).0) == st
    ensures st.occupancy >= st.capacity ==>
      wait.SlotFreed? && ReleaseStep(AcquireStep(st, ctx, wait).0) == ReleaseStep(st)
  {
  }
}
