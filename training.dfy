/**
 * The epoch loop shared by Chain2.Fit and Paravector2D.InductiveFit:
 * run one epoch at a time, at most `epochs` of them, and stop right after
 * the first epoch whose total loss is below the threshold.
 */
module Training {
  import opened Wrappers

  /** Appends the losses of the epochs already run to the outcome of the
      remaining ones. */
  function Prefix<S>(done: seq<real>, rest: Option<(S, seq<real>)>): (r: Option<(S, seq<real>)>)
    ensures r.Some? <==> rest.Some?
    ensures r.Some? ==> r.value.0 == rest.value.0 && r.value.1 == done + rest.value.1
  {
    match rest
    case None => None
    case Some((s, t)) => Some((s, done + t))
  }

  /** Nothing done yet: the outcome is the remaining one. */
  lemma PrefixNothing<S>(rest: Option<(S, seq<real>)>)
    ensures Prefix([], rest) == rest
  {
    if rest.Some? {
      assert [] + rest.value.1 == rest.value.1;
    }
  }

  /** The loop: `step` runs one epoch on the state and yields the new state
      and the epoch's total loss, or None when the epoch throws. The outcome
      is the final state and the loss of every epoch that ran, in order. */
  function Run<S>(step: S -> Option<(S, real)>, s: S, epochs: int, eps: real): Option<(S, seq<real>)>
    decreases epochs
  {
    if epochs <= 0 then Some((s, []))
    else
      match step(s)
      case None => None
      case Some((s', loss)) =>
        if loss < eps then Some((s', [loss]))
        else Prefix([loss], Run(step, s', epochs - 1, eps))
  }

  /** At most `epochs` epochs run; every epoch but the last had a loss of at
      least `eps`; and the loop stopped early only because the last loss was
      below `eps`. */
  lemma {:induction false} RunStops<S>(step: S -> Option<(S, real)>, s: S, epochs: int, eps: real)
    ensures var r := Run(step, s, epochs, eps);
      r.Some? ==> (
        && |r.value.1| <= (if epochs < 0 then 0 else epochs)
        && (forall k :: 0 <= k < |r.value.1| - 1 ==> r.value.1[k] >= eps)
        && (|r.value.1| < epochs ==> |r.value.1| > 0 && r.value.1[|r.value.1| - 1] < eps))
    decreases epochs
  {
    if epochs > 0 && step(s).Some? {
      var (s', loss) := step(s).value;
      if !(loss < eps) {
        RunStops(step, s', epochs - 1, eps);
        var rest := Run(step, s', epochs - 1, eps);
        if rest.Some? {
          var t := rest.value.1;
          assert Run(step, s, epochs, eps).value.1 == [loss] + t;
          if |t| > 0 {
            assert ([loss] + t)[|t|] == t[|t| - 1];
          }
        }
      }
    }
  }

  /** Without an early exit, exactly `epochs` epochs run. */
  lemma {:induction false} RunFull<S>(step: S -> Option<(S, real)>, s: S, epochs: int, eps: real)
    requires Run(step, s, epochs, eps).Some?
    requires forall k :: 0 <= k < |Run(step, s, epochs, eps).value.1| ==> Run(step, s, epochs, eps).value.1[k] >= eps
    ensures |Run(step, s, epochs, eps).value.1| == (if epochs < 0 then 0 else epochs)
    decreases epochs
  {
    if epochs > 0 {
      var (s', loss) := step(s).value;
      assert Run(step, s, epochs, eps).value.1[0] == loss;
      var rest := Run(step, s', epochs - 1, eps);
      assert Run(step, s, epochs, eps).value.1 == [loss] + rest.value.1;
      forall k | 0 <= k < |rest.value.1| ensures rest.value.1[k] >= eps {
        assert rest.value.1[k] == Run(step, s, epochs, eps).value.1[k + 1];
      }
      RunFull(step, s', epochs - 1, eps);
    }
  }

  /** No epoch left: the outcome is the state reached and the losses so far. */
  lemma RunDone<S>(step: S -> Option<(S, real)>, s: S, epochs: int, eps: real, done: seq<real>)
    requires epochs <= 0
    ensures Prefix(done, Run(step, s, epochs, eps)) == Some((s, done))
  {
    assert done + [] == done;
  }

  /** An epoch whose loss is below the threshold ends the loop. */
  lemma RunStop<S>(step: S -> Option<(S, real)>, s: S, s': S, loss: real, epochs: int, eps: real, done: seq<real>)
    requires epochs > 0 && step(s) == Some((s', loss)) && loss < eps
    ensures Prefix(done, Run(step, s, epochs, eps)) == Some((s', done + [loss]))
  {
  }

  /** An epoch that throws ends the loop, and the whole run throws. */
  lemma RunFail<S>(step: S -> Option<(S, real)>, s: S, epochs: int, eps: real, done: seq<real>)
    requires epochs > 0 && step(s).None?
    ensures Prefix(done, Run(step, s, epochs, eps)).None?
  {
  }

  /** One more epoch that does not stop the loop: the form the loops of
      Fit and InductiveFit keep as their invariant. */
  lemma RunStep<S>(step: S -> Option<(S, real)>, s: S, s': S, loss: real, epochs: int, eps: real, done: seq<real>)
    requires epochs > 0 && step(s) == Some((s', loss)) && !(loss < eps)
    ensures Prefix(done, Run(step, s, epochs, eps)) == Prefix(done + [loss], Run(step, s', epochs - 1, eps))
  {
    var rest := Run(step, s', epochs - 1, eps);
    if rest.Some? {
      assert done + ([loss] + rest.value.1) == done + [loss] + rest.value.1;
    }
  }

  /** A property every step keeps and under which no step fails: the loop
      succeeds and ends in a state that has it. */
  lemma {:induction false} RunPreserves<S>(step: S -> Option<(S, real)>, inv: S -> bool, s: S, epochs: int, eps: real)
    requires inv(s)
    requires forall t :: inv(t) ==> step(t).Some? && inv(step(t).value.0)
    ensures Run(step, s, epochs, eps).Some? && inv(Run(step, s, epochs, eps).value.0)
    decreases epochs
  {
    if epochs > 0 {
      var (s', loss) := step(s).value;
      if !(loss < eps) {
        RunPreserves(step, inv, s', epochs - 1, eps);
      }
    }
  }

  /** A property every step's result has: once an epoch has run, the final
      state has it. */
  lemma {:induction false} RunEstablishes<S>(step: S -> Option<(S, real)>, post: S -> bool, s: S, epochs: int, eps: real)
    requires forall t :: step(t).Some? ==> post(step(t).value.0)
    ensures var r := Run(step, s, epochs, eps);
      r.Some? && |r.value.1| > 0 ==> post(r.value.0)
    decreases epochs
  {
    if epochs > 0 && step(s).Some? {
      var (s', loss) := step(s).value;
      if !(loss < eps) {
        RunEstablishes(step, post, s', epochs - 1, eps);
        var rest := Run(step, s', epochs - 1, eps);
        if rest.Some? && |rest.value.1| == 0 {
          assert rest.value.0 == s' by {
            RunEmpty(step, s', epochs - 1, eps);
          }
        }
      }
    }
  }

  /** The loop reports no loss only when no epoch was allowed to run, and then
      the state is the one it started from. */
  lemma RunEmpty<S>(step: S -> Option<(S, real)>, s: S, epochs: int, eps: real)
    requires Run(step, s, epochs, eps).Some? && |Run(step, s, epochs, eps).value.1| == 0
    ensures epochs <= 0 && Run(step, s, epochs, eps).value.0 == s
  {
  }
}
