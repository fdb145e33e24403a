/**
 * The batch executor: every work request acquires the limiter, runs its
 * target, turns a panic into an error, releases, and its result is filed
 * under its correlation ID. The requests run one after another here.
 */
module Batch {
  import opened Wrappers
  import opened GoInts
  import opened Values
  import opened Errors
  import InfLimiters
  import L = Limiters
  import opened BalanceCheckers

  /** A value a target panics with: an `error`, or anything else, given by its `%v` text. */
  datatype PanicValue = ErrorValue(err: GoError) | OtherValue(formatted: string)

  /** What calling a request's target does. */
  datatype TargetOutcome =
    | Returns(result: Value, err: Option<GoError>)
    | Panics(value: PanicValue)

  datatype WorkRequest = WorkRequest(correlationID: string, target: TargetOutcome)

  datatype WorkResult = WorkResult(correlationID: string, result: Value, err: Option<GoError>)

  datatype BatchResponse = BatchResponse(correlationID: string, results: map<string, WorkResult>)

  /** The error a recovered panic value becomes. */
  function PanicError(p: PanicValue): (err: GoError)
    ensures p.ErrorValue? ==> err == p.err
    ensures p.OtherValue? ==> err == Plain("target panic: " + p.formatted)
  {
    match p
    case ErrorValue(e) => e
    case OtherValue(f) => Plain("target panic: " + f)
  }

  /** The result of a request whose acquire gave `acquireErr`. */
  function ItemResult(req: WorkRequest, acquireErr: Option<GoError>): (r: WorkResult)
    ensures r.correlationID == req.correlationID
    ensures acquireErr.Some? ==> r == WorkResult(req.correlationID, Nil, acquireErr)
    ensures acquireErr.None? && req.target.Returns? ==> r.result == req.target.result && r.err == req.target.err
    ensures acquireErr.None? && req.target.Panics? ==> r.result == Nil && r.err == Some(PanicError(req.target.value))
  {
    if acquireErr.Some? then WorkResult(req.correlationID, Nil, acquireErr)
    else match req.target
      case Returns(v, e) => WorkResult(req.correlationID, v, e)
      case Panics(p) => WorkResult(req.correlationID, Nil, Some(PanicError(p)))
  }

  /**
   * One request against a limiter in state `st`: a failed acquire ends it
   * with no release; after a successful one the release happens exactly
   * once, whatever the target did, and the balance is back where it was.
   * A negative balance is excluded: there the deferred release panics after
   * the recovering function has run, and the panic ends the process.
   */
  function ItemStep(st: LimiterState, req: WorkRequest, env: L.AcquireEnv): (r: (LimiterState, WorkResult))
    requires 0 <= BalanceOf(st) && L.EnvPossible(Inner(st), env)
    ensures var (acquired, acquireErr) := AcquireSpec(st, env);
      r.1 == ItemResult(req, acquireErr) &&
      (acquireErr.Some? ==> r.0 == acquired) &&
      (acquireErr.None? ==> CanRelease(acquired) && r.0 == ReleaseSpec(acquired).0 && !ReleaseSpec(acquired).1)
    ensures BalanceOf(r.0) == BalanceOf(st)
    ensures L.Buffered(Inner(r.0)) == L.Buffered(Inner(st))
  {
    var (acquired, acquireErr) := AcquireSpec(st, env);
    if acquireErr.Some? then (acquired, ItemResult(req, acquireErr))
    else
      AcquireReleaseBalance(st, env);
      (ReleaseSpec(acquired).0, ItemResult(req, None))
  }

  /** Every wait in `envs` can happen on the limiter whose state is `st`. */
  predicate EnvsPossible(st: LimiterState, envs: seq<L.AcquireEnv>)
  {
    forall i | 0 <= i < |envs| :: L.EnvPossible(Inner(st), envs[i])
  }

  lemma EnvsPossiblePrefix(st: LimiterState, envs: seq<L.AcquireEnv>, n: nat)
    requires EnvsPossible(st, envs) && n <= |envs|
    ensures EnvsPossible(st, envs[..n])
  {
    forall i | 0 <= i < n
      ensures L.EnvPossible(Inner(st), envs[..n][i])
    {
      assert envs[..n][i] == envs[i];
    }
  }

  /**
   * The requests run in order, each against the state the previous one
   * left; from a non-negative balance the batch leaves the balance as it was.
   */
  function BatchSpec(st: LimiterState, reqs: seq<WorkRequest>, envs: seq<L.AcquireEnv>): (r: (LimiterState, seq<WorkResult>))
    requires |envs| == |reqs|
    requires 0 <= BalanceOf(st) && EnvsPossible(st, envs)
    ensures |r.1| == |reqs|
    ensures BalanceOf(r.0) == BalanceOf(st)
    ensures L.Buffered(Inner(r.0)) == L.Buffered(Inner(st))
    decreases |reqs|
  {
    if reqs == [] then (st, [])
    else
      var n := |reqs| - 1;
      EnvsPossiblePrefix(st, envs, n);
      var (s, rs) := BatchSpec(st, reqs[..n], envs[..n]);
      assert L.EnvPossible(Inner(s), envs[n]);
      var (s', r) := ItemStep(s, reqs[n], envs[n]);
      (s', rs + [r])
  }

  /** `BatchSpec` over the first `i + 1` requests is `ItemStep` after `BatchSpec` over the first `i`. */
  lemma BatchSpecStep(st: LimiterState, reqs: seq<WorkRequest>, envs: seq<L.AcquireEnv>, i: nat)
    requires |envs| == |reqs| && i < |reqs|
    requires 0 <= BalanceOf(st) && EnvsPossible(st, envs)
    ensures EnvsPossible(st, envs[..i]) && EnvsPossible(st, envs[..i + 1])
    ensures var (s, rs) := BatchSpec(st, reqs[..i], envs[..i]);
      L.EnvPossible(Inner(s), envs[i]) &&
      BatchSpec(st, reqs[..i + 1], envs[..i + 1]) == (ItemStep(s, reqs[i], envs[i]).0, rs + [ItemStep(s, reqs[i], envs[i]).1])
  {
    EnvsPossiblePrefix(st, envs, i);
    EnvsPossiblePrefix(st, envs, i + 1);
    assert reqs[..i + 1][..i] == reqs[..i];
    assert envs[..i + 1][..i] == envs[..i];
  }

  /** Results filed under their correlation IDs, a later one replacing an earlier one. */
  function ResultsMap(rs: seq<WorkResult>): (r: map<string, WorkResult>)
    ensures forall id :: id in r ==> r[id].correlationID == id && r[id] in rs
    decreases |rs|
  {
    if rs == [] then map[]
    else ResultsMap(rs[..|rs| - 1])[rs[|rs| - 1].correlationID := rs[|rs| - 1]]
  }

  /** The `i`-th result is the `i`-th request's, with its own correlation ID. */
  lemma {:induction false} BatchResultsInOrder(st: LimiterState, reqs: seq<WorkRequest>, envs: seq<L.AcquireEnv>)
    requires |envs| == |reqs|
    requires 0 <= BalanceOf(st) && EnvsPossible(st, envs)
    ensures forall i :: 0 <= i < |reqs| ==> BatchSpec(st, reqs, envs).1[i].correlationID == reqs[i].correlationID
    decreases |reqs|
  {
    if reqs != [] {
      var n := |reqs| - 1;
      EnvsPossiblePrefix(st, envs, n);
      BatchResultsInOrder(st, reqs[..n], envs[..n]);
    }
  }

  /** With the infinity limiter and live contexts every target is called and its outcome kept. */
  lemma {:induction false} InfiniteBatchRunsEveryTarget(reqs: seq<WorkRequest>, envs: seq<L.AcquireEnv>)
    requires |envs| == |reqs|
    requires forall i :: 0 <= i < |envs| ==> envs[i].ctx == Contexts.Live
    ensures BatchSpec(BaseSt(L.InfState), reqs, envs).0 == BaseSt(L.InfState)
    ensures forall i :: 0 <= i < |reqs| ==> BatchSpec(BaseSt(L.InfState), reqs, envs).1[i] == ItemResult(reqs[i], None)
    decreases |reqs|
  {
    if reqs != [] {
      var n := |reqs| - 1;
      InfiniteBatchRunsEveryTarget(reqs[..n], envs[..n]);
    }
  }

  /** Where the last result carrying `id` sits. */
  function LastIndexOf(rs: seq<WorkResult>, id: string): (i: nat)
    requires exists k :: 0 <= k < |rs| && rs[k].correlationID == id
    ensures i < |rs| && rs[i].correlationID == id
    ensures forall j :: i < j < |rs| ==> rs[j].correlationID != id
    decreases |rs|
  {
    var n := |rs| - 1;
    if rs[n].correlationID == id then n
    else
      var k :| 0 <= k < |rs| && rs[k].correlationID == id;
      assert rs[..n][k].correlationID == id;
      LastIndexOf(rs[..n], id)
  }

  /** The keys are exactly the correlation IDs that occur. */
  lemma {:induction false} ResultsMapKeys(rs: seq<WorkResult>, id: string)
    ensures id in ResultsMap(rs) <==> exists k :: 0 <= k < |rs| && rs[k].correlationID == id
    decreases |rs|
  {
    if rs != [] {
      var n := |rs| - 1;
      ResultsMapKeys(rs[..n], id);
      if id in ResultsMap(rs[..n]) {
        var k :| 0 <= k < n && rs[..n][k].correlationID == id;
        assert rs[k].correlationID == id;
      }
      if exists k :: 0 <= k < |rs| && rs[k].correlationID == id {
        var k :| 0 <= k < |rs| && rs[k].correlationID == id;
        if k < n {
          assert rs[..n][k].correlationID == id;
        }
      }
    }
  }

  /** Each ID is bound to the last result carrying it: a later duplicate replaces an earlier one. */
  lemma {:induction false} ResultsMapLastWins(rs: seq<WorkResult>, id: string)
    requires exists k :: 0 <= k < |rs| && rs[k].correlationID == id
    ensures id in ResultsMap(rs)
    ensures ResultsMap(rs)[id] == rs[LastIndexOf(rs, id)]
    decreases |rs|
  {
    ResultsMapKeys(rs, id);
    var n := |rs| - 1;
    if rs[n].correlationID != id {
      var k :| 0 <= k < |rs| && rs[k].correlationID == id;
      assert rs[..n][k].correlationID == id;
      ResultsMapLastWins(rs[..n], id);
    }
  }

  /** With distinct correlation IDs every result is kept, under its own ID. */
  lemma ResultsMapDistinct(rs: seq<WorkResult>, i: nat)
    requires forall a, b :: 0 <= a < b < |rs| ==> rs[a].correlationID != rs[b].correlationID
    requires i < |rs|
    ensures rs[i].correlationID in ResultsMap(rs)
    ensures ResultsMap(rs)[rs[i].correlationID] == rs[i]
  {
    ResultsMapLastWins(rs, rs[i].correlationID);
  }

  /** `BatchRequest`: its correlation ID, its limiter (nil when absent) and its work requests. */
  class BatchRequest {
    const correlationID: string
    const limiter: Option<Limiter>
    var workRequests: seq<WorkRequest>

    /** A batch built as a struct literal: no requests yet. */
    constructor (correlationID: string, limiter: Option<Limiter>)
      ensures this.correlationID == correlationID && this.limiter == limiter && workRequests == []
    {
      this.correlationID := correlationID;
      this.limiter := limiter;
      workRequests := [];
    }

    method WithWorkRequest(req: WorkRequest) returns (r: BatchRequest)
      modifies this
      ensures r == this
      ensures workRequests == old(workRequests) + [req]
    {
      workRequests := workRequests + [req];
      r := this;
    }

    /** The limiter an `Execute` uses: the batch's own, or the infinity limiter when it has none. */
    function Effective(): (r: Limiter)
      ensures limiter.Some? ==> r == limiter.value
      ensures limiter.None? ==> r.Base? && r.base.Infinite?
    {
      if limiter.Some? then limiter.value else Base(L.Infinite(InfLimiters.GetInfinityLimiter()))
    }

    /**
     * The call's own error is always nil; the response carries the batch's
     * ID and every request's result filed under its correlation ID; the
     * limiter ends as the requests, run in order, leave it.
     */
    method Execute(envs: seq<L.AcquireEnv>) returns (response: BatchResponse, err: Option<GoError>)
      requires |envs| == |workRequests|
      requires Valid(Effective()) && 0 <= BalanceOf(State(Effective())) && EnvsPossible(State(Effective()), envs)
      modifies Objects(Effective())
      ensures err.None?
      ensures Valid(Effective())
      ensures State(Effective()) == BatchSpec(old(State(Effective())), old(workRequests), envs).0
      ensures response == BatchResponse(correlationID, ResultsMap(BatchSpec(old(State(Effective())), old(workRequests), envs).1))
    {
      var lim := Effective();
      assert this !in Objects(lim);
      var buffer := RunAll(lim, workRequests, envs);
      var results: map<string, WorkResult> := map[];
      var j := 0;
      while j < |buffer|
        invariant 0 <= j <= |buffer|
        invariant results == ResultsMap(buffer[..j])
      {
        assert buffer[..j + 1][..j] == buffer[..j];
        results := results[buffer[j].correlationID := buffer[j]];
        j := j + 1;
      }
      assert buffer[..j] == buffer;
      response := BatchResponse(correlationID, results);
      err := None;
    }
  }

  /** The request loop: every request's goroutine, one after another, its result pushed to the buffer. */
  method RunAll(lim: Limiter, reqs: seq<WorkRequest>, envs: seq<L.AcquireEnv>) returns (buffer: seq<WorkResult>)
    requires |envs| == |reqs|
    requires Valid(lim) && 0 <= BalanceOf(State(lim)) && EnvsPossible(State(lim), envs)
    modifies Objects(lim)
    ensures Valid(lim)
    ensures State(lim) == BatchSpec(old(State(lim)), reqs, envs).0
    ensures buffer == BatchSpec(old(State(lim)), reqs, envs).1
  {
    ghost var st0 := State(lim);
    buffer := [];
    var i := 0;
    while i < |reqs|
      invariant 0 <= i <= |reqs|
      invariant Valid(lim)
      invariant BalanceOf(State(lim)) == BalanceOf(st0)
      invariant L.Buffered(Inner(State(lim))) == L.Buffered(Inner(st0))
      invariant EnvsPossible(st0, envs[..i])
      invariant State(lim) == BatchSpec(st0, reqs[..i], envs[..i]).0
      invariant buffer == BatchSpec(st0, reqs[..i], envs[..i]).1
    {
      BatchSpecStep(st0, reqs, envs, i);
      var result := RunItem(lim, reqs[i], envs[i]);
      buffer := buffer + [result];
      i := i + 1;
    }
    assert reqs[..i] == reqs;
    assert envs[..i] == envs;
  }

  /** One request's goroutine: acquire, call the target, recover a panic, release. */
  method RunItem(lim: Limiter, req: WorkRequest, env: L.AcquireEnv) returns (result: WorkResult)
    requires Valid(lim) && 0 <= BalanceOf(State(lim)) && L.EnvPossible(Inner(State(lim)), env)
    modifies Objects(lim)
    ensures Valid(lim)
    ensures (State(lim), result) == ItemStep(old(State(lim)), req, env)
  {
    ghost var st := State(lim);
    result := WorkResult(req.correlationID, Nil, None);
    var acquireErr := BalanceCheckers.Acquire(lim, env);
    if acquireErr.Some? {
      result := result.(err := acquireErr);
      return;
    }
    AcquireReleaseBalance(st, env);
    match req.target {
      case Returns(v, e) =>
        result := result.(result := v, err := e);
      case Panics(p) =>
        result := result.(err := Some(PanicError(p)));
    }
    var panics := BalanceCheckers.Release(lim);
    assert !panics;
  }
}
