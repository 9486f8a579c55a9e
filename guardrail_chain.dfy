/**
 * The fold shared by the input and the output guardrail chains:
 * guardrailResult and compose in runtime/aiservice/GuardrailsSupport.java.
 * Guardrails run in order; each sees the params as rewritten by the
 * guardrails before it; the first fatal result stops the chain (converted
 * by blockRetry() when a rewrite has already been folded in); every other
 * result is folded into the accumulated one.
 */
module GuardrailChain {
  import opened Wrappers
  import opened Guardrails

  /** compose(oldResult, newResult, producer): success is the identity of the fold. */
  function Compose(oldResult: GuardrailResult, newResult: GuardrailResult,
                   failure: seq<Failure> -> GuardrailResult): (r: GuardrailResult)
    ensures oldResult.isSuccess ==> r == newResult
    ensures !oldResult.isSuccess && newResult.isSuccess ==> r == oldResult
  {
    if oldResult.isSuccess then newResult
    else if newResult.isSuccess then oldResult
    else failure(oldResult.FailureList() + newResult.FailureList())
  }

  /** The loop's variables between two guardrails. */
  datatype ChainState<P> = ChainState(params: P, accumulated: GuardrailResult)

  /** What the audit observer is told about one executed guardrail. */
  datatype AuditEntry<P> = AuditEntry(params: P, result: GuardrailResult)

  /** The state after a non-fatal result r. */
  function Advance<P>(s: ChainState<P>, r: GuardrailResult, ops: ResultOps<P>): ChainState<P> {
    ChainState(
      if r.HasRewrittenResult() then ops.withText(s.params, r.SuccessfulText()) else s.params,
      Compose(s.accumulated, r, ops.failure))
  }

  /** The value returned when the fatal result r stops the chain. */
  function Halt<P>(accumulated: GuardrailResult, r: GuardrailResult, ops: ResultOps<P>): GuardrailResult {
    if accumulated.HasRewrittenResult() then ops.blockRetry(r) else r
  }

  /** The result of running the guardrails gs from state s. */
  function Chain<P>(s: ChainState<P>, gs: seq<Validator<P>>, ops: ResultOps<P>): GuardrailResult
    decreases |gs|
  {
    if |gs| == 0 then s.accumulated
    else
      var r := gs[0](s.params);
      if r.isFatal then Halt(s.accumulated, r, ops) else Chain(Advance(s, r, ops), gs[1..], ops)
  }

  /** The audit log of that run: one entry per guardrail actually validated. */
  function Executed<P>(s: ChainState<P>, gs: seq<Validator<P>>, ops: ResultOps<P>): seq<AuditEntry<P>>
    decreases |gs|
  {
    if |gs| == 0 then []
    else
      var r := gs[0](s.params);
      [AuditEntry(s.params, r)] + (if r.isFatal then [] else Executed(Advance(s, r, ops), gs[1..], ops))
  }

  /** The state reached before guardrail k when none of the first k stopped the chain. */
  function StateAt<P>(s: ChainState<P>, gs: seq<Validator<P>>, ops: ResultOps<P>, k: nat): ChainState<P>
    requires k <= |gs|
    decreases k
  {
    if k == 0 then s else StateAt(Advance(s, gs[0](s.params), ops), gs[1..], ops, k - 1)
  }

  /** The result guardrail k returns for the params it is given. */
  function OutcomeAt<P>(s: ChainState<P>, gs: seq<Validator<P>>, ops: ResultOps<P>, k: nat): GuardrailResult
    requires k < |gs|
  {
    gs[k](StateAt(s, gs, ops, k).params)
  }

  ghost predicate NoFatalBefore<P>(s: ChainState<P>, gs: seq<Validator<P>>, ops: ResultOps<P>, k: nat)
    requires k <= |gs|
  {
    forall j :: 0 <= j < k ==> !OutcomeAt(s, gs, ops, j).isFatal
  }

  /**
   * guardrailResult: the for-loop over the guardrails, reassigning params and
   * the accumulated result. The ghost audit is the observer's log.
   */
  method RunChain<P>(params: P, guardrails: seq<Validator<P>>, accumulatedResults: GuardrailResult, ops: ResultOps<P>)
    returns (r: GuardrailResult, ghost audit: seq<AuditEntry<P>>)
    ensures r == Chain(ChainState(params, accumulatedResults), guardrails, ops)
    ensures audit == Executed(ChainState(params, accumulatedResults), guardrails, ops)
  {
    ghost var start := ChainState(params, accumulatedResults);
    var current, accumulated := params, accumulatedResults;
    audit := [];
    assert guardrails[0..] == guardrails;
    for i := 0 to |guardrails|
      invariant Chain(start, guardrails, ops) == Chain(ChainState(current, accumulated), guardrails[i..], ops)
      invariant Executed(start, guardrails, ops) == audit + Executed(ChainState(current, accumulated), guardrails[i..], ops)
    {
      var result := guardrails[i](current);
      LoopTurn(start, ChainState(current, accumulated), audit, guardrails, ops, i);
      audit := audit + [AuditEntry(current, result)];
      if result.isFatal {
        r := if accumulated.HasRewrittenResult() then ops.blockRetry(result) else result;
        return;
      }
      if result.HasRewrittenResult() {
        current := ops.withText(current, result.SuccessfulText());
      }
      accumulated := Compose(accumulated, result, ops.failure);
    }
    assert |guardrails[|guardrails|..]| == 0;
    r := accumulated;
  }

  /** One turn of the loop of RunChain: guardrail i runs on the current state. */
  lemma LoopTurn<P>(start: ChainState<P>, s: ChainState<P>, logged: seq<AuditEntry<P>>,
                    gs: seq<Validator<P>>, ops: ResultOps<P>, i: nat)
    requires i < |gs|
    requires Chain(start, gs, ops) == Chain(s, gs[i..], ops)
    requires Executed(start, gs, ops) == logged + Executed(s, gs[i..], ops)
    ensures var r := gs[i](s.params);
      if r.isFatal then
        && Chain(start, gs, ops) == Halt(s.accumulated, r, ops)
        && Executed(start, gs, ops) == logged + [AuditEntry(s.params, r)]
      else
        && Chain(start, gs, ops) == Chain(Advance(s, r, ops), gs[i + 1..], ops)
        && Executed(start, gs, ops) == logged + [AuditEntry(s.params, r)] + Executed(Advance(s, r, ops), gs[i + 1..], ops)
  {
    assert gs[i..][0] == gs[i] && gs[i..][1..] == gs[i + 1..];
  }

  /** Guardrail k+1 of gs is guardrail k of the rest, run from the state after the first. */
  lemma {:induction false} OutcomeShift<P>(s: ChainState<P>, gs: seq<Validator<P>>, ops: ResultOps<P>, k: nat)
    requires k + 1 < |gs|
    ensures OutcomeAt(s, gs, ops, k + 1) == OutcomeAt(Advance(s, gs[0](s.params), ops), gs[1..], ops, k)
  {
    assert gs[1..][k] == gs[k + 1];
  }

  /** The trace advances one guardrail at a time, in order. */
  lemma {:induction false} StateAtStep<P>(s: ChainState<P>, gs: seq<Validator<P>>, ops: ResultOps<P>, k: nat)
    requires k < |gs|
    ensures StateAt(s, gs, ops, k + 1) == Advance(StateAt(s, gs, ops, k), OutcomeAt(s, gs, ops, k), ops)
    decreases k
  {
    if k > 0 {
      var next := Advance(s, gs[0](s.params), ops);
      StateAtStep(next, gs[1..], ops, k - 1);
      OutcomeShift(s, gs, ops, k - 1);
    }
  }

  /**
   * The i-th entry of the audit log is guardrail i validating the params the
   * guardrails before it produced, and only the last entry may be fatal.
   */
  lemma {:induction false} ExecutedEntries<P>(s: ChainState<P>, gs: seq<Validator<P>>, ops: ResultOps<P>, j: nat)
    requires j < |Executed(s, gs, ops)|
    ensures |Executed(s, gs, ops)| <= |gs|
    ensures j < |gs| && Executed(s, gs, ops)[j] == AuditEntry(StateAt(s, gs, ops, j).params, OutcomeAt(s, gs, ops, j))
    ensures j < |Executed(s, gs, ops)| - 1 ==> !OutcomeAt(s, gs, ops, j).isFatal
    decreases |gs|
  {
    var r := gs[0](s.params);
    if j > 0 {
      var next := Advance(s, r, ops);
      ExecutedEntries(next, gs[1..], ops, j - 1);
      OutcomeShift(s, gs, ops, j - 1);
    } else if !r.isFatal && |gs| > 1 {
      ExecutedEntries(Advance(s, r, ops), gs[1..], ops, 0);
    }
  }

  /** With no fatal result every guardrail runs, and the chain returns the fold of all results. */
  lemma {:induction false} ChainRunsToEnd<P>(s: ChainState<P>, gs: seq<Validator<P>>, ops: ResultOps<P>)
    requires NoFatalBefore(s, gs, ops, |gs|)
    ensures Chain(s, gs, ops) == StateAt(s, gs, ops, |gs|).accumulated
    ensures |Executed(s, gs, ops)| == |gs|
    decreases |gs|
  {
    if |gs| > 0 {
      var next := Advance(s, gs[0](s.params), ops);
      assert !OutcomeAt(s, gs, ops, 0).isFatal;
      forall j | 0 <= j < |gs| - 1
        ensures !OutcomeAt(next, gs[1..], ops, j).isFatal
      {
        OutcomeShift(s, gs, ops, j);
      }
      ChainRunsToEnd(next, gs[1..], ops);
    }
  }

  /**
   * The first fatal result, at k, ends the chain: guardrails after k are not
   * validated, earlier failures are not merged into the answer, and the
   * answer is blockRetry() of that result exactly when the results folded
   * so far carry a rewrite.
   */
  lemma {:induction false} ChainStopsAtFirstFatal<P>(s: ChainState<P>, gs: seq<Validator<P>>, ops: ResultOps<P>, k: nat)
    requires k < |gs| && NoFatalBefore(s, gs, ops, k) && OutcomeAt(s, gs, ops, k).isFatal
    ensures Chain(s, gs, ops) == Halt(StateAt(s, gs, ops, k).accumulated, OutcomeAt(s, gs, ops, k), ops)
    ensures Chain(s, gs, ops) ==
      if StateAt(s, gs, ops, k).accumulated.HasRewrittenResult() then ops.blockRetry(OutcomeAt(s, gs, ops, k))
      else OutcomeAt(s, gs, ops, k)
    ensures |Executed(s, gs, ops)| == k + 1
    decreases k
  {
    if k > 0 {
      var next := Advance(s, gs[0](s.params), ops);
      assert !OutcomeAt(s, gs, ops, 0).isFatal;
      forall j | 0 <= j < k - 1
        ensures !OutcomeAt(next, gs[1..], ops, j).isFatal
      {
        OutcomeShift(s, gs, ops, j);
      }
      OutcomeShift(s, gs, ops, k - 1);
      ChainStopsAtFirstFatal(next, gs[1..], ops, k - 1);
    }
  }

  /**
   * After guardrail i rewrites to text t, every later guardrail up to the
   * next rewrite validates params.withText(t) instead of the original params.
   */
  lemma {:induction false} RewritePropagates<P>(s: ChainState<P>, gs: seq<Validator<P>>, ops: ResultOps<P>, i: nat, k: nat)
    requires i < k <= |gs|
    requires OutcomeAt(s, gs, ops, i).HasRewrittenResult()
    requires forall j :: i < j < k ==> !OutcomeAt(s, gs, ops, j).HasRewrittenResult()
    ensures StateAt(s, gs, ops, k).params
         == ops.withText(StateAt(s, gs, ops, i).params, OutcomeAt(s, gs, ops, i).SuccessfulText())
    decreases k
  {
    StateAtStep(s, gs, ops, k - 1);
    if k - 1 > i {
      RewritePropagates(s, gs, ops, i, k - 1);
    }
  }

  /** The failures of the non-success results among the first k, in execution order. */
  function CollectedFailures<P>(s: ChainState<P>, gs: seq<Validator<P>>, ops: ResultOps<P>, k: nat): seq<Failure>
    requires k <= |gs|
    decreases k
  {
    if k == 0 then []
    else
      var r := OutcomeAt(s, gs, ops, k - 1);
      CollectedFailures(s, gs, ops, k - 1) + (if r.isSuccess then [] else r.FailureList())
  }

  /**
   * Folding from success: the accumulated result is a success exactly when
   * every result so far is, and otherwise reports the failures of all the
   * non-success results, concatenated in execution order.
   */
  lemma {:induction false} AccumulatedFailures<P>(s: ChainState<P>, gs: seq<Validator<P>>, ops: ResultOps<P>, k: nat)
    requires k <= |gs| && s.accumulated.isSuccess && BuildsFailure(ops.failure)
    ensures StateAt(s, gs, ops, k).accumulated.isSuccess <==> forall j :: 0 <= j < k ==> OutcomeAt(s, gs, ops, j).isSuccess
    ensures (forall j :: 0 <= j < k ==> OutcomeAt(s, gs, ops, j).isSuccess) ==> CollectedFailures(s, gs, ops, k) == []
    ensures !StateAt(s, gs, ops, k).accumulated.isSuccess ==>
      StateAt(s, gs, ops, k).accumulated.FailureList() == CollectedFailures(s, gs, ops, k)
    decreases k
  {
    if k > 0 {
      AccumulatedFailures(s, gs, ops, k - 1);
      StateAtStep(s, gs, ops, k - 1);
    }
  }

  /**
   * When every guardrail succeeds, the chain returns the last guardrail's
   * result: compose keeps the newer of two successes, so a rewrite accepted
   * earlier survives only if the last guardrail rewrites too.
   */
  lemma {:induction false} LastSuccessWins<P>(s: ChainState<P>, gs: seq<Validator<P>>, ops: ResultOps<P>)
    requires 0 < |gs| && s.accumulated.isSuccess
    requires forall j :: 0 <= j < |gs| ==> OutcomeAt(s, gs, ops, j).isSuccess && !OutcomeAt(s, gs, ops, j).isFatal
    ensures Chain(s, gs, ops) == OutcomeAt(s, gs, ops, |gs| - 1)
    decreases |gs|
  {
    var next := Advance(s, gs[0](s.params), ops);
    assert OutcomeAt(s, gs, ops, 0) == gs[0](s.params);
    if |gs| > 1 {
      forall j | 0 <= j < |gs| - 1
        ensures OutcomeAt(next, gs[1..], ops, j).isSuccess && !OutcomeAt(next, gs[1..], ops, j).isFatal
      {
        OutcomeShift(s, gs, ops, j);
      }
      LastSuccessWins(next, gs[1..], ops);
      OutcomeShift(s, gs, ops, |gs| - 2);
    }
  }

  /** Two non-success results compose to a failure reporting the older failures, then the newer. */
  lemma ComposeConcatenates(oldResult: GuardrailResult, newResult: GuardrailResult, failure: seq<Failure> -> GuardrailResult)
    requires BuildsFailure(failure) && !oldResult.isSuccess && !newResult.isSuccess
    ensures !Compose(oldResult, newResult, failure).isSuccess
    ensures Compose(oldResult, newResult, failure).failures == Some(oldResult.FailureList() + newResult.FailureList())
  {
  }
}
