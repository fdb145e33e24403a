/**
 * A `context.Context` as the modelled code sees it at one instant: still
 * live, cancelled, or past its deadline.
 */
module Contexts {
  import opened Wrappers
  import opened Errors

  datatype CtxState = Live | Cancelled | DeadlinePassed
  {
    /** Whether `ctx.Done()` is closed. */
    predicate Done()
    {
      !Live?
    }

    /** `ctx.Err()`: nil while live, else the reason the context ended. */
    function Err(): (r: Option<GoError>)
      ensures r.None? <==> !Done()
      ensures Cancelled? ==> r == Some(Canceled)
      ensures DeadlinePassed? ==> r == Some(DeadlineExceeded)
    {
      match this
      case Live => None
      case Cancelled => Some(Canceled)
      case DeadlinePassed => Some(DeadlineExceeded)
    }
  }

  /** The state of a context whose `Done()` channel has been closed. */
  type DoneState = s: CtxState | s.Done() witness Cancelled
}
