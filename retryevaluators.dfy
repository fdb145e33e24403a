/**
 * Retry evaluators: predicates on the last error that say whether to
 * retry, the combinators that run several of them in series with early
 * exit, and the stateful countdown `RetryCountEval`.
 */
module RetryEvaluators {
  import opened Wrappers
  import opened Errors

  /** The closure returned by `RetryCountEval(n)`: a countdown of the retries left. */
  class RetryCounter {
    var n: int
    /** The clipped starting count: `n`, or 0 when `n` was negative. */
    ghost const initial: nat
    /** How many times the closure has been called. */
    ghost var calls: nat

    ghost predicate Valid()
      reads this
    {
      n == if calls < initial then initial - calls else 0
    }

    /** `RetryCountEval(n)`: a negative count is taken as 0. */
    constructor (n: int)
      ensures Valid() && calls == 0
      ensures initial == if n < 0 then 0 else n
    {
      this.n := if n < 0 then 0 else n;
      initial := if n < 0 then 0 else n;
      calls := 0;
    }

    /** One call of the closure: true on each of the first `initial` calls, false afterwards. */
    method Call(err: Option<GoError>) returns (retry: bool)
      requires Valid()
      modifies this
      ensures Valid() && calls == old(calls) + 1
      ensures retry == (old(calls) < initial)
      ensures n >= 0 && n == if old(n) <= 0 then 0 else old(n) - 1
    {
      calls := calls + 1;
      if n <= 0 {
        return false;
      }
      n := n - 1;
      return true;
    }
  }

  /** A `RetryEvaluator` built from the package's evaluators and combinators. */
  datatype Evaluator =
    | NoRetry  // NoRetryEval
    | AlwaysRetry  // AlwaysRetryEval
    | Count(counter: RetryCounter)  // RetryCountEval(n)
    | AllOf(children: seq<Evaluator>)  // AllRetryEval(children...)
    | AnyOf(children: seq<Evaluator>)  // AnyRetryEval(children...)
    | Func(f: Option<GoError> -> bool)  // any other, stateless, evaluator

  /** A measure that lets a combinator hand its children to a helper and the helper back to `Eval`. */
  function Width(e: Evaluator): nat
  {
    if e.AllOf? || e.AnyOf? then |e.children| + 1 else 0
  }

  /** The countdown closures inside an evaluator. */
  function Counters(e: Evaluator): set<RetryCounter>
    decreases e, Width(e)
  {
    match e
    case Count(c) => {c}
    case AllOf(_) => CountersFrom(e, 0)
    case AnyOf(_) => CountersFrom(e, 0)
    case _ => {}
  }

  function CountersFrom(e: Evaluator, i: nat): set<RetryCounter>
    requires e.AllOf? || e.AnyOf?
    requires i <= |e.children|
    decreases e, |e.children| - i
  {
    if i == |e.children| then {} else Counters(e.children[i]) + CountersFrom(e, i + 1)
  }

  lemma {:induction false} ChildCountersFrom(e: Evaluator, i: nat, j: nat)
    requires e.AllOf? || e.AnyOf?
    requires i <= j < |e.children|
    ensures Counters(e.children[j]) <= CountersFrom(e, i)
    decreases j - i
  {
    if i < j {
      ChildCountersFrom(e, i + 1, j);
    }
  }

  /** A child's countdowns are among its combinator's. */
  lemma ChildCounters(e: Evaluator, j: nat)
    requires e.AllOf? || e.AnyOf?
    requires j < |e.children|
    ensures Counters(e.children[j]) <= Counters(e)
  {
    ChildCountersFrom(e, 0, j);
  }

  /** The answer of one evaluation, and every countdown's value after it. */
  datatype Verdict = Verdict(retry: bool, counts: map<RetryCounter, int>)

  /**
   * The specification of evaluating `e` on `err` when the countdowns hold
   * `counts`: only the countdowns inside `e` may change, and none grows.
   */
  function Eval(e: Evaluator, err: Option<GoError>, counts: map<RetryCounter, int>): (v: Verdict)
    requires Counters(e) <= counts.Keys
    ensures v.counts.Keys == counts.Keys
    ensures forall c :: c in counts && c !in Counters(e) ==> v.counts[c] == counts[c]
    ensures forall c :: c in counts ==> v.counts[c] <= counts[c]
    decreases e, Width(e)
  {
    match e
    case NoRetry => Verdict(false, counts)
    case AlwaysRetry => Verdict(true, counts)
    case Count(c) =>
      if counts[c] <= 0 then Verdict(false, counts) else Verdict(true, counts[c := counts[c] - 1])
    case AllOf(_) => EvalAll(e, 0, err, counts)
    case AnyOf(_) => EvalAny(e, 0, err, counts)
    case Func(f) => Verdict(f(err), counts)
  }

  /** `AllRetryEval` from child `i` on: false at the first child that says false. */
  function EvalAll(e: Evaluator, i: nat, err: Option<GoError>, counts: map<RetryCounter, int>): (v: Verdict)
    requires e.AllOf? || e.AnyOf?
    requires i <= |e.children|
    requires CountersFrom(e, i) <= counts.Keys
    ensures v.counts.Keys == counts.Keys
    ensures forall c :: c in counts && c !in CountersFrom(e, i) ==> v.counts[c] == counts[c]
    ensures forall c :: c in counts ==> v.counts[c] <= counts[c]
    decreases e, |e.children| - i
  {
    if i == |e.children| then Verdict(true, counts)
    else
      var first := Eval(e.children[i], err, counts);
      if !first.retry then Verdict(false, first.counts)
      else EvalAll(e, i + 1, err, first.counts)
  }

  /** `AnyRetryEval` from child `i` on: true at the first child that says true. */
  function EvalAny(e: Evaluator, i: nat, err: Option<GoError>, counts: map<RetryCounter, int>): (v: Verdict)
    requires e.AllOf? || e.AnyOf?
    requires i <= |e.children|
    requires CountersFrom(e, i) <= counts.Keys
    ensures v.counts.Keys == counts.Keys
    ensures forall c :: c in counts && c !in CountersFrom(e, i) ==> v.counts[c] == counts[c]
    ensures forall c :: c in counts ==> v.counts[c] <= counts[c]
    decreases e, |e.children| - i
  {
    if i == |e.children| then Verdict(false, counts)
    else
      var first := Eval(e.children[i], err, counts);
      if first.retry then Verdict(true, first.counts)
      else EvalAny(e, i + 1, err, first.counts)
  }

  /** The current value of every countdown in `s`. */
  function CountsOf(s: set<RetryCounter>): map<RetryCounter, int>
    reads s
  {
    map c | c in s :: c.n
  }

  /**
   * Calls the evaluator on `err`, running the children of a combinator in
   * order and stopping early as the combinators do. `s` is any set of
   * countdowns that includes those of `e`.
   */
  method Evaluate(e: Evaluator, err: Option<GoError>, ghost s: set<RetryCounter>) returns (retry: bool)
    requires Counters(e) <= s
    requires forall c :: c in s ==> c.Valid()
    modifies Counters(e)
    ensures forall c :: c in s ==> c.Valid()
    ensures Verdict(retry, CountsOf(s)) == Eval(e, err, old(CountsOf(s)))
    decreases e, 1
  {
    match e
    case NoRetry => return false;
    case AlwaysRetry => return true;
    case Func(f) => return f(err);
    case Count(c) => retry := EvaluateCount(c, err, s);
    case AllOf(_) => retry := EvaluateAll(e, err, s);
    case AnyOf(_) => retry := EvaluateAny(e, err, s);
  }

  method EvaluateCount(c: RetryCounter, err: Option<GoError>, ghost s: set<RetryCounter>) returns (retry: bool)
    requires c in s
    requires forall d :: d in s ==> d.Valid()
    modifies c
    ensures forall d :: d in s ==> d.Valid()
    ensures Verdict(retry, CountsOf(s)) == Eval(Count(c), err, old(CountsOf(s)))
  {
    retry := c.Call(err);
    assert CountsOf(s) == old(CountsOf(s))[c := c.n];
  }

  /** The loop of `AllRetryEval`: return false at the first child that vetoes. */
  method EvaluateAll(e: Evaluator, err: Option<GoError>, ghost s: set<RetryCounter>) returns (retry: bool)
    requires e.AllOf?
    requires Counters(e) <= s
    requires forall c :: c in s ==> c.Valid()
    modifies Counters(e)
    ensures forall c :: c in s ==> c.Valid()
    ensures Verdict(retry, CountsOf(s)) == EvalAll(e, 0, err, old(CountsOf(s)))
    decreases e, 0
  {
    var i := 0;
    while i < |e.children|
      invariant 0 <= i <= |e.children|
      invariant forall c :: c in s ==> c.Valid()
      invariant CountersFrom(e, i) <= s
      invariant EvalAll(e, 0, err, old(CountsOf(s))) == EvalAll(e, i, err, CountsOf(s))
    {
      ChildCounters(e, i);
      var r := Evaluate(e.children[i], err, s);
      if !r {
        return false;
      }
      i := i + 1;
    }
    return true;
  }

  /** The loop of `AnyRetryEval`: return true at the first child that says yes. */
  method EvaluateAny(e: Evaluator, err: Option<GoError>, ghost s: set<RetryCounter>) returns (retry: bool)
    requires e.AnyOf?
    requires Counters(e) <= s
    requires forall c :: c in s ==> c.Valid()
    modifies Counters(e)
    ensures forall c :: c in s ==> c.Valid()
    ensures Verdict(retry, CountsOf(s)) == EvalAny(e, 0, err, old(CountsOf(s)))
    decreases e, 0
  {
    var i := 0;
    while i < |e.children|
      invariant 0 <= i <= |e.children|
      invariant forall c :: c in s ==> c.Valid()
      invariant CountersFrom(e, i) <= s
      invariant EvalAny(e, 0, err, old(CountsOf(s))) == EvalAny(e, i, err, CountsOf(s))
    {
      ChildCounters(e, i);
      var r := Evaluate(e.children[i], err, s);
      if r {
        return true;
      }
      i := i + 1;
    }
    return false;
  }

  // ---------------------------------------------------------------- lemmas

  /** `NoRetryEval` never retries and `AlwaysRetryEval` always does, nil error included. */
  lemma ConstantEvaluators(err: Option<GoError>, counts: map<RetryCounter, int>)
    ensures !Eval(NoRetry, err, counts).retry && Eval(AlwaysRetry, err, counts).retry
    ensures Eval(NoRetry, err, counts).counts == counts == Eval(AlwaysRetry, err, counts).counts
  {
  }

  /** With no children, `AllRetryEval` retries and `AnyRetryEval` does not. */
  lemma EmptyCombinators(err: Option<GoError>, counts: map<RetryCounter, int>)
    ensures Eval(AllOf([]), err, counts) == Verdict(true, counts)
    ensures Eval(AnyOf([]), err, counts) == Verdict(false, counts)
  {
  }

  /** An evaluator without countdowns leaves every countdown as it was. */
  lemma StatelessKeepsCounts(e: Evaluator, err: Option<GoError>, counts: map<RetryCounter, int>)
    requires Counters(e) == {}
    ensures Eval(e, err, counts).counts == counts
  {
  }

  lemma {:induction false} StatelessFrom(e: Evaluator, i: nat)
    requires e.AllOf? || e.AnyOf?
    requires i <= |e.children|
    requires forall j :: 0 <= j < |e.children| ==> Counters(e.children[j]) == {}
    ensures CountersFrom(e, i) == {}
    decreases |e.children| - i
  {
    if i < |e.children| {
      StatelessFrom(e, i + 1);
    } else {
      CountersFromEnd(e, i);
    }
  }

  lemma {:induction false} AllFromMeaning(e: Evaluator, i: nat, err: Option<GoError>, counts: map<RetryCounter, int>)
    requires e.AllOf? || e.AnyOf?
    requires i <= |e.children|
    requires forall j :: 0 <= j < |e.children| ==> Counters(e.children[j]) == {}
    ensures CountersFrom(e, i) == {}
    ensures EvalAll(e, i, err, counts).retry <==>
      forall j :: i <= j < |e.children| ==> Eval(e.children[j], err, counts).retry
    decreases |e.children| - i
  {
    StatelessFrom(e, i);
    if i < |e.children| {
      StatelessKeepsCounts(e.children[i], err, counts);
      AllFromMeaning(e, i + 1, err, counts);
    }
  }

  lemma {:induction false} AnyFromMeaning(e: Evaluator, i: nat, err: Option<GoError>, counts: map<RetryCounter, int>)
    requires e.AllOf? || e.AnyOf?
    requires i <= |e.children|
    requires forall j :: 0 <= j < |e.children| ==> Counters(e.children[j]) == {}
    ensures CountersFrom(e, i) == {}
    ensures EvalAny(e, i, err, counts).retry <==>
      exists j :: i <= j < |e.children| && Eval(e.children[j], err, counts).retry
    decreases |e.children| - i
  {
    StatelessFrom(e, i);
    if i < |e.children| {
      StatelessKeepsCounts(e.children[i], err, counts);
      AnyFromMeaning(e, i + 1, err, counts);
    }
  }

  lemma CountersFromEnd(e: Evaluator, i: nat)
    requires e.AllOf? || e.AnyOf?
    requires i == |e.children|
    ensures CountersFrom(e, i) == {}
  {
  }

  /**
   * Over stateless children, `AllRetryEval` retries iff every child would,
   * and `AnyRetryEval` iff some child would.
   */
  lemma StatelessCombinators(children: seq<Evaluator>, err: Option<GoError>, counts: map<RetryCounter, int>)
    requires forall j :: 0 <= j < |children| ==> Counters(children[j]) == {}
    ensures Counters(AllOf(children)) == {} && Counters(AnyOf(children)) == {}
    ensures Eval(AllOf(children), err, counts).retry <==>
      forall j :: 0 <= j < |children| ==> Eval(children[j], err, counts).retry
    ensures Eval(AnyOf(children), err, counts).retry <==>
      exists j :: 0 <= j < |children| && Eval(children[j], err, counts).retry
  {
    AllFromMeaning(AllOf(children), 0, err, counts);
    AnyFromMeaning(AnyOf(children), 0, err, counts);
  }

  lemma {:induction false} SameCountersFrom(children: seq<Evaluator>, i: nat)
    requires i <= |children|
    ensures CountersFrom(AllOf(children), i) == CountersFrom(AnyOf(children), i)
    decreases |children| - i
  {
    if i < |children| {
      SameCountersFrom(children, i + 1);
    }
  }

  lemma SameCounters(children: seq<Evaluator>)
    ensures Counters(AllOf(children)) == Counters(AnyOf(children))
  {
    SameCountersFrom(children, 0);
  }

  lemma {:induction false} AllVetoFrom(children: seq<Evaluator>, rest: seq<Evaluator>, i: nat,
                                       err: Option<GoError>, counts: map<RetryCounter, int>)
    requires i <= |children|
    requires CountersFrom(AllOf(children + rest), i) <= counts.Keys
    requires CountersFrom(AllOf(children), i) <= counts.Keys
    requires !EvalAll(AllOf(children), i, err, counts).retry
    ensures EvalAll(AllOf(children + rest), i, err, counts) == EvalAll(AllOf(children), i, err, counts)
    decreases |children| - i
  {
    var whole := AllOf(children + rest);
    assert whole.children[i] == children[i];
    var first := Eval(children[i], err, counts);
    if first.retry {
      CountersFromShrinks(whole, i);
      CountersFromShrinks(AllOf(children), i);
      AllVetoFrom(children, rest, i + 1, err, first.counts);
    }
  }

  lemma AnyAcceptFrom(children: seq<Evaluator>, rest: seq<Evaluator>, i: nat,
                      err: Option<GoError>, counts: map<RetryCounter, int>)
    requires i <= |children|
    requires CountersFrom(AnyOf(children + rest), i) <= counts.Keys
    requires CountersFrom(AnyOf(children), i) <= counts.Keys
    requires EvalAny(AnyOf(children), i, err, counts).retry
    ensures EvalAny(AnyOf(children + rest), i, err, counts) == EvalAny(AnyOf(children), i, err, counts)
    decreases |children| - i
  {
    var whole := AnyOf(children + rest);
    assert whole.children[i] == children[i];
    var first := Eval(children[i], err, counts);
    if !first.retry {
      CountersFromShrinks(whole, i);
      CountersFromShrinks(AnyOf(children), i);
      AnyAcceptFrom(children, rest, i + 1, err, first.counts);
    }
  }

  lemma CountersFromShrinks(e: Evaluator, i: nat)
    requires e.AllOf? || e.AnyOf?
    requires i < |e.children|
    ensures CountersFrom(e, i + 1) <= CountersFrom(e, i)
  {
  }

  /**
   * Early exit: once the children so far veto a retry, `AllRetryEval` does
   * not call the children after them (their countdowns stay as they were),
   * and once one says yes, neither does `AnyRetryEval`.
   */
  lemma ShortCircuit(children: seq<Evaluator>, rest: seq<Evaluator>, err: Option<GoError>, counts: map<RetryCounter, int>)
    requires Counters(AllOf(children + rest)) <= counts.Keys
    requires Counters(AllOf(children)) <= counts.Keys
    ensures Counters(AnyOf(children + rest)) <= counts.Keys && Counters(AnyOf(children)) <= counts.Keys
    ensures !Eval(AllOf(children), err, counts).retry ==>
      Eval(AllOf(children + rest), err, counts) == Eval(AllOf(children), err, counts)
    ensures Eval(AnyOf(children), err, counts).retry ==>
      Eval(AnyOf(children + rest), err, counts) == Eval(AnyOf(children), err, counts)
  {
    SameCounters(children + rest);
    SameCounters(children);
    if !Eval(AllOf(children), err, counts).retry {
      AllVetoFrom(children, rest, 0, err, counts);
    }
    if Eval(AnyOf(children), err, counts).retry {
      AnyAcceptFrom(children, rest, 0, err, counts);
    }
  }

  /** The answers of a countdown evaluated once per error in `errs`, and its final value. */
  function CountdownRun(c: RetryCounter, errs: seq<Option<GoError>>, counts: map<RetryCounter, int>): (r: (seq<bool>, map<RetryCounter, int>))
    requires c in counts
    ensures |r.0| == |errs| && r.1.Keys == counts.Keys
    decreases |errs|
  {
    if errs == [] then ([], counts)
    else
      var v := Eval(Count(c), errs[0], counts);
      var rest := CountdownRun(c, errs[1..], v.counts);
      ([v.retry] + rest.0, rest.1)
  }

  /**
   * `RetryCountEval(n)` with `n >= 0`: the first `n` calls retry and every
   * later one does not; the count never goes below 0.
   */
  lemma {:induction false} CountdownAnswers(c: RetryCounter, errs: seq<Option<GoError>>, counts: map<RetryCounter, int>)
    requires c in counts && counts[c] >= 0
    ensures forall j :: 0 <= j < |errs| ==> CountdownRun(c, errs, counts).0[j] == (j < counts[c])
    ensures CountdownRun(c, errs, counts).1[c] == if |errs| < counts[c] then counts[c] - |errs| else 0
    decreases |errs|
  {
    if errs != [] {
      var v := Eval(Count(c), errs[0], counts);
      CountdownAnswers(c, errs[1..], v.counts);
    }
  }
}
