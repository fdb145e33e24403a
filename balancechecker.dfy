/**
 * `balanceChecker`: a `Limiter` wrapped around another one that counts
 * acquires minus releases in a 32-bit balance and faults on an over-release.
 * The module also defines the full `Limiter` union the batch executor uses.
 */
module BalanceCheckers {
  import opened Wrappers
  import opened GoInts
  import opened Errors
  import opened Contexts
  import opened InfLimiters
  import L = Limiters

  /** The checker's balance and the state of the limiter it wraps. */
  datatype CheckedState = CheckedState(balance: Int32, inner: L.BaseState)

  /** `Acquire`: the delegate's error unchanged; the balance goes up by one exactly when it is nil. */
  function CheckedAcquire(st: CheckedState, env: L.AcquireEnv): (r: (CheckedState, Option<GoError>))
    requires L.EnvPossible(st.inner, env)
    ensures (r.0.inner, r.1) == L.AcquireSpec(st.inner, env)
    ensures r.0.balance == if r.1.None? then ToInt32Bits(st.balance + 1) else st.balance
  {
    var (inner', err) := L.AcquireSpec(st.inner, env);
    (CheckedState(if err.None? then ToInt32Bits(st.balance + 1) else st.balance, inner'), err)
  }

  /**
   * `Release`: the delegate is released first, then the balance goes down
   * by one; the second component says the call panics, which happens
   * exactly when the new balance is negative.
   */
  function CheckedRelease(st: CheckedState): (r: (CheckedState, bool))
    requires L.CanRelease(st.inner)
    ensures r.0.inner == L.ReleaseSpec(st.inner)
    ensures r.0.balance == ToInt32Bits(st.balance - 1)
    ensures r.1 <==> r.0.balance < 0
    ensures st.balance > 0 ==> r.0.balance == st.balance - 1 && !r.1
  {
    var balance := ToInt32Bits(st.balance - 1);
    (CheckedState(balance, L.ReleaseSpec(st.inner)), balance < 0)
  }

  /** An over-release panics, after the delegate's release and the decrement. */
  lemma OverReleaseFaults(inner: L.BaseState)
    requires L.CanRelease(inner)
    ensures CheckedRelease(CheckedState(0, inner)) == (CheckedState(-1, L.ReleaseSpec(inner)), true)
  {
  }

  class BalanceChecker {
    const limiter: L.BaseLimiter
    var balance: Int32
    ghost var acquired: nat
    ghost var released: nat

    /** The balance is the number of successful acquires minus releases, wrapped to 32 bits. */
    ghost predicate Valid()
      reads this, L.Objects(limiter)
    {
      L.Valid(limiter) && balance == ToInt32Bits(acquired - released)
    }

    function State(): CheckedState
      reads this, L.Objects(limiter)
    {
      CheckedState(balance, L.State(limiter))
    }

    /** `NewBalanceChecker(limiter)`: balance 0 around exactly the given limiter. */
    constructor (limiter: L.BaseLimiter)
      requires L.Valid(limiter)
      ensures Valid()
      ensures this.limiter == limiter && balance == 0
      ensures acquired == 0 && released == 0
    {
      this.limiter := limiter;
      balance := 0;
      acquired, released := 0, 0;
      new;
      ToInt32BitsFits(0);
    }

    method Acquire(env: L.AcquireEnv) returns (err: Option<GoError>)
      requires Valid() && L.EnvPossible(L.State(limiter), env)
      modifies this, L.Objects(limiter)
      ensures Valid()
      ensures (State(), err) == CheckedAcquire(old(State()), env)
      ensures acquired == old(acquired) + (if err.None? then 1 else 0) && released == old(released)
    {
      err := L.Acquire(limiter, env);
      if err.None? {
        ToInt32BitsCongruent(balance + 1, acquired + 1 - released);
        balance := ToInt32Bits(balance + 1);
        acquired := acquired + 1;
      }
    }

    method Release() returns (panics: bool)
      requires Valid() && L.CanRelease(L.State(limiter))
      modifies this, L.Objects(limiter)
      ensures Valid()
      ensures (State(), panics) == CheckedRelease(old(State()))
      ensures released == old(released) + 1 && acquired == old(acquired)
    {
      L.Release(limiter);
      ToInt32BitsCongruent(balance - 1, acquired - (released + 1));
      balance := ToInt32Bits(balance - 1);
      released := released + 1;
      panics := balance < 0;
    }

    /** `Balance()`: while no more than 2^31 - 1 acquires are outstanding it is acquires minus releases. */
    function Balance(): (b: int)
      requires Valid()
      reads this, L.Objects(limiter)
      ensures -0x8000_0000 <= b < 0x8000_0000
      ensures -0x8000_0000 <= acquired - released < 0x8000_0000 ==> b == acquired - released
    {
      assert -0x8000_0000 <= acquired - released < 0x8000_0000 ==> ToInt32Bits(acquired - released) == acquired - released by {
        if -0x8000_0000 <= acquired - released < 0x8000_0000 {
          ToInt32BitsFits(acquired - released);
        }
      }
      balance
    }
  }

  /** A `Limiter` as the batch executor sees it: a plain limiter or a balance checker around one. */
  datatype Limiter =
    | Base(base: L.BaseLimiter)
    | Checked(checker: BalanceChecker)

  datatype LimiterState =
    | BaseSt(inner: L.BaseState)
    | CheckedSt(checked: CheckedState)

  function Objects(l: Limiter): set<object>
  {
    match l
    case Base(b) => L.Objects(b)
    case Checked(c) => {c} + L.Objects(c.limiter)
  }

  ghost predicate Valid(l: Limiter)
    reads Objects(l)
  {
    match l
    case Base(b) => L.Valid(b)
    case Checked(c) => c.Valid()
  }

  function State(l: Limiter): LimiterState
    reads Objects(l)
  {
    match l
    case Base(b) => BaseSt(L.State(b))
    case Checked(c) => CheckedSt(c.State())
  }

  function Inner(st: LimiterState): L.BaseState
  {
    match st
    case BaseSt(inner) => inner
    case CheckedSt(c) => c.inner
  }

  predicate CanRelease(st: LimiterState)
  {
    L.CanRelease(Inner(st))
  }

  /** `Acquire` through the interface: a balance checker adds its accounting to its delegate's answer. */
  function AcquireSpec(st: LimiterState, env: L.AcquireEnv): (r: (LimiterState, Option<GoError>))
    requires L.EnvPossible(Inner(st), env)
    ensures (Inner(r.0), r.1) == L.AcquireSpec(Inner(st), env)
    ensures st.BaseSt? <==> r.0.BaseSt?
  {
    match st
    case BaseSt(inner) =>
      var (inner', err) := L.AcquireSpec(inner, env);
      (BaseSt(inner'), err)
    case CheckedSt(c) =>
      var (c', err) := CheckedAcquire(c, env);
      (CheckedSt(c'), err)
  }

  /** `Release` through the interface, and whether it panics (only a balance checker can). */
  function ReleaseSpec(st: LimiterState): (r: (LimiterState, bool))
    requires CanRelease(st)
    ensures Inner(r.0) == L.ReleaseSpec(Inner(st))
    ensures st.BaseSt? <==> r.0.BaseSt?
    ensures r.1 ==> st.CheckedSt?
  {
    match st
    case BaseSt(inner) => (BaseSt(L.ReleaseSpec(inner)), false)
    case CheckedSt(c) =>
      var (c', panics) := CheckedRelease(c);
      (CheckedSt(c'), panics)
  }

  /** The balance a state carries; a plain limiter has none and counts as 0. */
  function BalanceOf(st: LimiterState): int
  {
    if st.CheckedSt? then st.checked.balance else 0
  }

  /** A successful acquire and its release leave the balance as it was, and the release does not panic. */
  lemma {:induction false} AcquireReleaseBalance(st: LimiterState, env: L.AcquireEnv)
    requires 0 <= BalanceOf(st) && L.EnvPossible(Inner(st), env)
    requires AcquireSpec(st, env).1.None?
    ensures CanRelease(AcquireSpec(st, env).0)
    ensures var after := ReleaseSpec(AcquireSpec(st, env).0);
      BalanceOf(after.0) == BalanceOf(st) && !after.1
  {
    L.AcquireThenRelease(Inner(st), env);
    if st.CheckedSt? {
      var b: int := st.checked.balance;
      ToInt32BitsCongruent(ToInt32Bits(b + 1) - 1, b);
      ToInt32BitsFits(b);
    }
  }

  method Acquire(l: Limiter, env: L.AcquireEnv) returns (err: Option<GoError>)
    requires Valid(l) && L.EnvPossible(Inner(State(l)), env)
    modifies Objects(l)
    ensures Valid(l)
    ensures (State(l), err) == AcquireSpec(old(State(l)), env)
  {
    match l {
      case Base(b) =>
        err := L.Acquire(b, env);
      case Checked(c) =>
        err := c.Acquire(env);
    }
  }

  method Release(l: Limiter) returns (panics: bool)
    requires Valid(l) && CanRelease(State(l))
    modifies Objects(l)
    ensures Valid(l)
    ensures (State(l), panics) == ReleaseSpec(old(State(l)))
  {
    match l {
      case Base(b) =>
        L.Release(b);
        panics := false;
      case Checked(c) =>
        panics := c.Release();
    }
  }

  /** One call on a limiter: an `Acquire` meeting `env`, or a `Release`. */
  datatype Op = AcquireOp(env: L.AcquireEnv) | ReleaseOp

  function Acquires(ops: seq<Op>): nat
    decreases |ops|
  {
    if ops == [] then 0
    else Acquires(ops[..|ops| - 1]) + (if ops[|ops| - 1].AcquireOp? then 1 else 0)
  }

  function Releases(ops: seq<Op>): nat
    decreases |ops|
  {
    if ops == [] then 0
    else Releases(ops[..|ops| - 1]) + (if ops[|ops| - 1].ReleaseOp? then 1 else 0)
  }

  /**
   * The state of a checker around the infinity limiter after `ops`, and how
   * many releases panicked: the delegate stays the infinity limiter, so any
   * wait is possible, and only releases can panic.
   */
  function InfCheckerRun(ops: seq<Op>): (r: (CheckedState, nat))
    ensures r.0.inner == L.InfState
    ensures r.1 <= Releases(ops)
    decreases |ops|
  {
    if ops == [] then (CheckedState(0, L.InfState), 0)
    else
      var (st, panics) := InfCheckerRun(ops[..|ops| - 1]);
      match ops[|ops| - 1]
      case AcquireOp(env) => (CheckedAcquire(st, env).0, panics)
      case ReleaseOp =>
        var (st', p) := CheckedRelease(st);
        (st', panics + if p then 1 else 0)
  }

  /**
   * Around the infinity limiter, on live contexts, with fewer than 2^31
   * calls and never more releases than acquires so far, `Balance()` ends
   * as acquires minus releases and no release panics.
   */
  lemma {:induction false} InfCheckerBalance(ops: seq<Op>)
    requires |ops| < 0x8000_0000
    requires forall i :: 0 <= i < |ops| && ops[i].AcquireOp? ==> ops[i].env.ctx == Live
    requires forall i :: 0 <= i <= |ops| ==> Releases(ops[..i]) <= Acquires(ops[..i])
    ensures InfCheckerRun(ops).0.balance == Acquires(ops) - Releases(ops)
    ensures InfCheckerRun(ops).1 == 0
    decreases |ops|
  {
    if ops != [] {
      var front := ops[..|ops| - 1];
      forall i | 0 <= i <= |front|
        ensures Releases(front[..i]) <= Acquires(front[..i])
      {
        assert front[..i] == ops[..i];
      }
      InfCheckerBalance(front);
      AcquiresBound(front);
      assert ops[..|ops|] == ops;
      var b := Acquires(front) - Releases(front);
      ToInt32BitsFits(b + 1);
      ToInt32BitsFits(b - 1);
    }
  }

  lemma {:induction false} AcquiresBound(ops: seq<Op>)
    ensures Acquires(ops) <= |ops| && Releases(ops) <= |ops|
    decreases |ops|
  {
    if ops != [] {
      AcquiresBound(ops[..|ops| - 1]);
    }
  }
}
