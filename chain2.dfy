/**
 * Chain2: a list of Paravector2 segments laid side by side along the x axis,
 * all evaluated from the same anchor (h, k), and its fitting procedure.
 *
 * Fit seeds one segment per slice of the samples, then runs epochs: for
 * every sample the chain is evaluated at it, the loss is back-propagated
 * into the segment that was chosen, and every segment takes an Update step;
 * after the samples a penalty on the change of the domain length is
 * back-propagated and every segment steps again.
 */
module Chains2 {
  import opened Wrappers
  import opened Numerics
  import opened Curve
  import opened Segments2
  import opened Domain
  import opened Training
  import Autodiff

  // ---------------------------------------------------------------------------
  // Evaluation
  // ---------------------------------------------------------------------------

  /** Evaluate(x, h, k) on the segments' values: the chosen segment's GlobalX
      from the chain's own anchor; None on an empty chain. */
  function EvaluateAt(num: Numerics, ps: seq<Params>, x: real, h: real, k: real): Option<real> {
    match SelectInBoundaries(x, Boundaries(Spans(num, ps), h), |ps|)
    case None => None
    case Some(j) => Some(GlobalX(num, ps[j], x, h, k))
  }

  /** A chain with a segment always evaluates. */
  lemma EvaluateDefined(num: Numerics, ps: seq<Params>, x: real, h: real, k: real)
    ensures EvaluateAt(num, ps, x, h, k).None? <==> ps == []
  {
    SelectsFirstHolding(x, Spans(num, ps), h);
  }

  /** Where x lies in the interval of segment j (spans positive), the chain is
      segment j anchored at the chain's (h, k), not at the start of the
      interval. */
  lemma EvaluateOnSegment(num: Numerics, ps: seq<Params>, x: real, h: real, k: real, j: nat)
    requires forall i :: 0 <= i < |ps| ==> Span(num, ps[i]) > 0.0
    requires j < |ps| && Holds(Boundaries(Spans(num, ps), h)[j], x)
    ensures EvaluateAt(num, ps, x, h, k) == Some(GlobalX(num, ps[j], x, h, k))
  {
    var spans := Spans(num, ps);
    var bs := Boundaries(spans, h);
    SelectsFirstHolding(x, spans, h);
    var r := SelectInBoundaries(x, bs, |ps|).value;
    if r < j {
      BoundariesIncreasing(spans, h, r, j);
    }
  }

  /** Outside [h, h + DomainLength) (spans not negative) the last segment is
      evaluated, from the same anchor. */
  lemma EvaluateOutside(num: Numerics, ps: seq<Params>, x: real, h: real, k: real)
    requires forall i :: 0 <= i < |ps| ==> Span(num, ps[i]) >= 0.0
    requires ps != [] && (x < h || x >= h + Sum(Spans(num, ps)))
    ensures EvaluateAt(num, ps, x, h, k) == Some(GlobalX(num, ps[|ps| - 1], x, h, k))
  {
    OutsideSelectsLast(x, Spans(num, ps), h);
  }

  // ---------------------------------------------------------------------------
  // Fit as functions on the segments' values
  // ---------------------------------------------------------------------------

  /** Fit's rate defaults: a negative rate is replaced by 1 for Alpha and
      Theta and by 3 for Beta; a given one is kept. */
  function DefaultRates(baseLR: real, alphaLR: real, thetaLR: real, betaLR: real): (r: Rates)
    ensures r.base == baseLR && r.alpha >= 0.0 && r.theta >= 0.0 && r.beta >= 0.0
    ensures alphaLR >= 0.0 ==> r.alpha == alphaLR
    ensures thetaLR >= 0.0 ==> r.theta == thetaLR
    ensures betaLR >= 0.0 ==> r.beta == betaLR
    ensures (alphaLR < 0.0 ==> r.alpha == 1.0) && (thetaLR < 0.0 ==> r.theta == 1.0) && (betaLR < 0.0 ==> r.beta == 3.0)
  {
    Rates(baseLR,
          if alphaLR < 0.0 then 1.0 else alphaLR,
          if thetaLR < 0.0 then 1.0 else thetaLR,
          if betaLR < 0.0 then 3.0 else betaLR)
  }

  /** Fit's defaults for lossEpsilon and lengthWeight. */
  const DefaultLossEpsilon: real := 0.01
  const DefaultLengthWeight: real := 0.1

  /** The first sample of segment i of `total`: i * n / total. */
  function SeedStart(n: nat, total: int, i: nat): (r: nat)
    requires n > 0 && i < total
    ensures r < n
  {
    DivBelow(i, n, total);
    i * n / total
  }

  /** The sample segment i is seeded towards: (i + 1) * n / total, cut to the
      last sample. */
  function SeedEnd(n: nat, total: int, i: nat): (r: nat)
    requires n > 0 && i < total
    ensures SeedStart(n, total, i) <= r < n
  {
    var e := (i + 1) * n / total;
    MulMono(i, i + 1, n);
    DivMono(i * n, (i + 1) * n, total);
    if e >= n then n - 1 else e
  }

  /** The seeding slices cover the samples end to end: the first starts at
      the first sample, each starts where the previous one ends, and the last
      ends at the last sample. */
  lemma SeedSlices(n: nat, total: int)
    requires n > 0 && total > 0
    ensures SeedStart(n, total, 0) == 0
    ensures forall i :: 0 < i < total ==> SeedStart(n, total, i) == SeedEnd(n, total, i - 1)
    ensures SeedEnd(n, total, total - 1) == n - 1
  {
    forall i | 0 < i < total
      ensures SeedStart(n, total, i) == SeedEnd(n, total, i - 1)
    {
      DivBelow(i, n, total);
    }
    MulDiv(n, total);
    assert (total - 1 + 1) * n == total * n;
  }

  /** The seeded chain: segment i is FromVectorDifference from its first
      sample to the one it is seeded towards. */
  function Seed(num: Numerics, inputs: seq<real>, targets: seq<real>, total: int): (r: seq<Params>)
    requires |inputs| == |targets| && (total <= 0 || |inputs| > 0)
    ensures |r| == (if total <= 0 then 0 else total)
  {
    if total <= 0 then []
    else
      seq(total, i requires 0 <= i < total =>
        var s, e := SeedStart(|inputs|, total, i), SeedEnd(|inputs|, total, i);
        FromVectorDifference(num, inputs[s], targets[s], inputs[e], targets[e]))
  }

  /** What every Update leaves behind: Alpha not negative, Theta strictly
      between -pi and pi, and Theta + Beta at most pi. */
  predicate Clamped(p: Params) {
    p.alpha >= 0.0 && -Pi < p.theta < Pi && p.theta + p.beta <= Pi
  }

  /** The gradients after a backward pass that reached segment j only. */
  function Delivered(count: nat, j: nat, d: Grads): (r: seq<Grads>)
    ensures |r| == count
  {
    seq(count, i requires 0 <= i < count => if i == j then d else NoGrads)
  }

  function NoGradsFor(count: nat): (r: seq<Grads>)
    ensures |r| == count && forall i :: 0 <= i < count ==> r[i] == NoGrads
  {
    seq(count, i requires 0 <= i < count => NoGrads)
  }

  /** `for j: Paravectors[j].Update(baseLR, ..., j, count)`: every segment
      steps with its own gradients and its own position in the chain. */
  function UpdatedAll(num: Numerics, rates: Rates, ps: seq<Params>, gs: seq<Grads>): (r: seq<Params>)
    requires |gs| == |ps|
    ensures |r| == |ps|
  {
    seq(|ps|, j requires 0 <= j < |ps| => Clamp(Step(ps[j], gs[j], rates, LearningRate(num, rates.base, j, |ps|))))
  }

  /** Every segment comes out of its Update clamped. */
  lemma UpdatedAllClamped(num: Numerics, rates: Rates, ps: seq<Params>, gs: seq<Grads>)
    requires |gs| == |ps|
    ensures forall j :: 0 <= j < |ps| ==> Clamped(UpdatedAll(num, rates, ps, gs)[j])
  {
  }

  /** A segment without gradient is still clamped by its Update. */
  lemma UpdateWithoutGradient(num: Numerics, rates: Rates, ps: seq<Params>, j: nat)
    requires j < |ps|
    ensures UpdatedAll(num, rates, ps, NoGradsFor(|ps|))[j] == Clamp(ps[j])
  {
    assert Step(ps[j], NoGrads, rates, LearningRate(num, rates.base, j, |ps|)) == ps[j];
  }

  /** The gradient oracle: what Backward of the sample's loss delivers to the
      Alpha, Theta and Beta of segment `p`, evaluated at x against target t. */
  type SampleGrads = (Params, real, real) -> Grads

  /** One sample of an epoch: evaluate at (x, 0, 0), back-propagate the loss
      into the chosen segment, update every segment. None where the source
      indexes an empty chain. */
  function SampleStep(num: Numerics, rates: Rates, loss: (real, real) -> real, grads: SampleGrads,
                      ps: seq<Params>, x: real, t: real): (r: Option<(seq<Params>, real)>)
    ensures r.Some? ==> |r.value.0| == |ps|
  {
    match SelectInBoundaries(x, Boundaries(Spans(num, ps), 0.0), |ps|)
    case None => None
    case Some(j) =>
      Some((UpdatedAll(num, rates, ps, Delivered(|ps|, j, grads(ps[j], x, t))),
            loss(GlobalX(num, ps[j], x, 0.0, 0.0), t)))
  }

  /** A sample fails only on an empty chain. */
  lemma SampleStepDefined(num: Numerics, rates: Rates, loss: (real, real) -> real, grads: SampleGrads,
                          ps: seq<Params>, x: real, t: real)
    ensures SampleStep(num, rates, loss, grads, ps, x, t).None? <==> ps == []
  {
    SelectsFirstHolding(x, Spans(num, ps), 0.0);
  }

  /** The sample step once the segment is chosen. */
  lemma SampleStepIs(num: Numerics, rates: Rates, loss: (real, real) -> real, grads: SampleGrads,
                     ps: seq<Params>, x: real, t: real, j: nat)
    requires SelectInBoundaries(x, Boundaries(Spans(num, ps), 0.0), |ps|) == Some(j)
    ensures j < |ps|
    ensures SampleStep(num, rates, loss, grads, ps, x, t)
      == Some((UpdatedAll(num, rates, ps, Delivered(|ps|, j, grads(ps[j], x, t))), loss(GlobalX(num, ps[j], x, 0.0, 0.0), t)))
  {
  }

  /** One sample step as a value: the segments and a sample (x, t) to the
      updated segments and the sample's loss. */
  type Sampler = (seq<Params>, real, real) -> Option<(seq<Params>, real)>

  /** The sample step of a fit with these rates, loss and gradients. */
  function Sampling(num: Numerics, rates: Rates, loss: (real, real) -> real, grads: SampleGrads): Sampler {
    (ps, x, t) => SampleStep(num, rates, loss, grads, ps, x, t)
  }

  /** `sample` is the sample step of these rates, loss and gradients. */
  ghost predicate SampleIs(sample: Sampler, num: Numerics, rates: Rates, loss: (real, real) -> real, grads: SampleGrads) {
    forall ps, x, t {:trigger SampleStep(num, rates, loss, grads, ps, x, t)} ::
      sample(ps, x, t) == SampleStep(num, rates, loss, grads, ps, x, t)
  }

  /** A sample step that fails only on an empty chain and keeps the number
      of segments. */
  ghost predicate KeepsCount(sample: Sampler) {
    forall ps, x, t {:trigger sample(ps, x, t)} :: (sample(ps, x, t).None? <==> ps == []) && (sample(ps, x, t).Some? ==> |sample(ps, x, t).value.0| == |ps|)
  }

  lemma SamplingKeepsCount(num: Numerics, rates: Rates, loss: (real, real) -> real, grads: SampleGrads)
    ensures KeepsCount(Sampling(num, rates, loss, grads))
  {
    forall ps, x, t ensures SampleStep(num, rates, loss, grads, ps, x, t).None? <==> ps == [] {
      SampleStepDefined(num, rates, loss, grads, ps, x, t);
    }
  }

  /** What an epoch needs besides the segments. */
  datatype FitTask = FitTask(inputs: seq<real>, targets: seq<real>, rates: Rates, original: real, weight: real)

  /** The first i samples of an epoch: the segments after them and the sum
      of their losses. */
  function Samples(task: FitTask, sample: Sampler, ps: seq<Params>, i: nat): Option<(seq<Params>, real)>
    requires i <= |task.inputs| <= |task.targets|
  {
    if i == 0 then Some((ps, 0.0))
    else
      match Samples(task, sample, ps, i - 1)
      case None => None
      case Some((qs, total)) =>
        match sample(qs, task.inputs[i - 1], task.targets[i - 1])
        case None => None
        case Some((rs, l)) => Some((rs, total + l))
  }

  lemma {:induction false} SamplesNext(task: FitTask, sample: Sampler, ps: seq<Params>, i: nat,
                                       qs: seq<Params>, total: real, rs: seq<Params>, l: real)
    requires i < |task.inputs| <= |task.targets|
    requires Samples(task, sample, ps, i) == Some((qs, total))
    requires sample(qs, task.inputs[i], task.targets[i]) == Some((rs, l))
    ensures Samples(task, sample, ps, i + 1) == Some((rs, total + l))
  {
  }

  /** The samples fail only on an empty chain, and keep its length. */
  lemma {:induction false} SamplesTotal(task: FitTask, sample: Sampler, ps: seq<Params>, i: nat)
    requires i <= |task.inputs| <= |task.targets| && KeepsCount(sample)
    ensures var r := Samples(task, sample, ps, i);
      (r.None? <==> i > 0 && ps == []) && (r.Some? ==> |r.value.0| == |ps|)
  {
    if i > 0 {
      SamplesTotal(task, sample, ps, i - 1);
      var r := Samples(task, sample, ps, i - 1);
      if r.Some? {
        var x, t := task.inputs[i - 1], task.targets[i - 1];
        var next := sample(r.value.0, x, t);
        assert (next.None? <==> r.value.0 == []) && (next.Some? ==> |next.value.0| == |r.value.0|);
      }
    }
  }

  /** (currentLength - originalLength).Square() * lengthWeight. */
  function LengthPenalty(num: Numerics, ps: seq<Params>, original: real, weight: real): real {
    Weighted(Sum(Spans(num, ps)) - original, weight)
  }

  /** lengthDiff.Square() * lengthWeight. */
  function Weighted(diff: real, weight: real): real {
    Square(diff) * weight
  }

  /** The gradient Backward of diff.Square() * weight delivers to diff: the
      weight, then the product rule's share for each factor of diff * diff. */
  function SquareGradient(diff: real, weight: real): real {
    weight * diff + weight * diff
  }

  /** The gradient the penalty's Backward delivers to the domain length. */
  function LengthGradient(num: Numerics, ps: seq<Params>, original: real, weight: real): real {
    SquareGradient(Sum(Spans(num, ps)) - original, weight)
  }

  /** What the penalty's backward pass delivers to each segment: through
      Alpha * cos Theta, G * cos Theta to Alpha, -(G * Alpha) * sin Theta to
      Theta, and nothing to Beta. */
  function LengthGrads(num: Numerics, ps: seq<Params>, original: real, weight: real): (r: seq<Grads>)
    ensures |r| == |ps|
  {
    var g := LengthGradient(num, ps, original, weight);
    seq(|ps|, j requires 0 <= j < |ps| => ThroughSpan(num, g, ps[j]))
  }

  /** The gradient g on Alpha * Cosine(Theta) sent back into the segment. */
  function ThroughSpan(num: Numerics, g: real, p: Params): Grads {
    Grads(g * num.cos(p.theta), -(g * p.alpha) * num.sin(p.theta), 0.0)
  }

  /** With a positive weight the penalty is never negative, and it is zero
      exactly when the domain length is back at its original value; there
      the penalty sends no gradient. */
  lemma LengthPenaltyZero(num: Numerics, ps: seq<Params>, original: real, weight: real)
    requires weight > 0.0
    ensures LengthPenalty(num, ps, original, weight) >= 0.0
    ensures LengthPenalty(num, ps, original, weight) == 0.0 <==> Sum(Spans(num, ps)) == original
    ensures Sum(Spans(num, ps)) == original ==> LengthGrads(num, ps, original, weight) == NoGradsFor(|ps|)
  {
    var diff := Sum(Spans(num, ps)) - original;
    SquareSign(diff);
    WeightedSum(weight, Square(diff), 0.0);
    assert LengthPenalty(num, ps, original, weight) == Square(diff) * weight == weight * Square(diff) + 0.0;
    if diff == 0.0 {
      var gs := LengthGrads(num, ps, original, weight);
      assert LengthGradient(num, ps, original, weight) == 0.0;
      forall j | 0 <= j < |ps| ensures gs[j] == NoGrads {
        assert gs[j] == ThroughSpan(num, 0.0, ps[j]);
      }
      assert gs == NoGradsFor(|ps|);
    }
  }

  /** The length step: back-propagate the penalty, then update every segment. */
  function LengthStep(num: Numerics, rates: Rates, ps: seq<Params>, original: real, weight: real): (seq<Params>, real) {
    (UpdatedAll(num, rates, ps, LengthGrads(num, ps, original, weight)), LengthPenalty(num, ps, original, weight))
  }

  /** One epoch of Fit: the samples, then the length step; the total loss is
      the samples' losses plus the penalty. */
  function FitEpoch(num: Numerics, task: FitTask, sample: Sampler, ps: seq<Params>): Option<(seq<Params>, real)>
    requires |task.inputs| <= |task.targets|
  {
    match Samples(task, sample, ps, |task.inputs|)
    case None => None
    case Some((qs, total)) =>
      var step := LengthStep(num, task.rates, qs, task.original, task.weight);
      Some((step.0, total + step.1))
  }

  lemma FitEpochIs(num: Numerics, task: FitTask, sample: Sampler,
                   ps: seq<Params>, qs: seq<Params>, total: real, rs: seq<Params>, penalty: real)
    requires |task.inputs| <= |task.targets|
    requires Samples(task, sample, ps, |task.inputs|) == Some((qs, total))
    requires LengthStep(num, task.rates, qs, task.original, task.weight) == (rs, penalty)
    ensures FitEpoch(num, task, sample, ps) == Some((rs, total + penalty))
  {
  }

  /** The epoch as the step of the training loop. */
  function FitStep(num: Numerics, task: FitTask, sample: Sampler): seq<Params> -> Option<(seq<Params>, real)>
    requires |task.inputs| <= |task.targets|
  {
    ps => FitEpoch(num, task, sample, ps)
  }

  /** `step` is the epoch of `task` with this sample step. */
  ghost predicate EpochIs(step: seq<Params> -> Option<(seq<Params>, real)>, num: Numerics, task: FitTask, sample: Sampler)
    requires |task.inputs| <= |task.targets|
  {
    forall ps {:trigger FitEpoch(num, task, sample, ps)} :: step(ps) == FitEpoch(num, task, sample, ps)
  }

  lemma FitStepIs(num: Numerics, task: FitTask, sample: Sampler)
    requires |task.inputs| <= |task.targets|
    ensures EpochIs(FitStep(num, task, sample), num, task, sample)
  {
  }

  /** The task Fit trains on: the samples, the rates, the seeded domain
      length and the length weight. */
  function SeededTask(num: Numerics, inputs: seq<real>, targets: seq<real>, total: int, rates: Rates, lengthWeight: real): FitTask
    requires |inputs| == |targets| && (total <= 0 || |inputs| > 0)
  {
    FitTask(inputs, targets, rates, Sum(Spans(num, Seed(num, inputs, targets, total))), lengthWeight)
  }

  /** Fit as a function: None where the source throws (seeding from no sample,
      or evaluating an empty chain); otherwise the segments' final values and
      the total loss of every epoch that ran. */
  function FitRun(num: Numerics, total: int, inputs: seq<real>, targets: seq<real>, rates: Rates, maxEpochs: int,
                  loss: (real, real) -> real, grads: SampleGrads, lossEpsilon: real, lengthWeight: real)
    : Option<(seq<Params>, seq<real>)>
    requires |inputs| == |targets|
  {
    if total > 0 && |inputs| == 0 then None
    else
      var task := SeededTask(num, inputs, targets, total, rates, lengthWeight);
      Run(FitStep(num, task, Sampling(num, rates, loss, grads)), Seed(num, inputs, targets, total), maxEpochs, lossEpsilon)
  }

  /** Fit fails exactly when it seeds from no sample, or when it has samples
      but no segment and an epoch to run; otherwise it returns `total`
      segments (none when total <= 0). */
  lemma FitFails(num: Numerics, total: int, inputs: seq<real>, targets: seq<real>, rates: Rates, maxEpochs: int,
                 loss: (real, real) -> real, grads: SampleGrads, lossEpsilon: real, lengthWeight: real)
    requires |inputs| == |targets|
    ensures var r := FitRun(num, total, inputs, targets, rates, maxEpochs, loss, grads, lossEpsilon, lengthWeight);
      && (r.None? <==> (total > 0 && |inputs| == 0) || (total <= 0 && |inputs| > 0 && maxEpochs > 0))
      && (r.Some? ==> |r.value.0| == (if total <= 0 then 0 else total))
  {
    if !(total > 0 && |inputs| == 0) {
      var seed := Seed(num, inputs, targets, total);
      var task := SeededTask(num, inputs, targets, total, rates, lengthWeight);
      var sample := Sampling(num, rates, loss, grads);
      var step := FitStep(num, task, sample);
      SamplingKeepsCount(num, rates, loss, grads);
      FitStepIs(num, task, sample);
      if total <= 0 && |inputs| > 0 && maxEpochs > 0 {
        SamplesTotal(task, sample, seed, |inputs|);
        assert step(seed) == FitEpoch(num, task, sample, seed);
      } else if maxEpochs > 0 {
        assert seed != [] || inputs == [];
        var inv := (ps: seq<Params>) => |ps| == |seed|;
        forall ps: seq<Params> | inv(ps)
          ensures step(ps).Some? && inv(step(ps).value.0)
        {
          SamplesTotal(task, sample, ps, |inputs|);
          assert step(ps) == FitEpoch(num, task, sample, ps);
        }
        RunPreserves(step, inv, seed, maxEpochs, lossEpsilon);
      }
    }
  }

  /** Once an epoch has run, every segment of the result is clamped, whatever
      the seed was. */
  lemma FitClamped(num: Numerics, total: int, inputs: seq<real>, targets: seq<real>, rates: Rates, maxEpochs: int,
                   loss: (real, real) -> real, grads: SampleGrads, lossEpsilon: real, lengthWeight: real)
    requires |inputs| == |targets|
    ensures var r := FitRun(num, total, inputs, targets, rates, maxEpochs, loss, grads, lossEpsilon, lengthWeight);
      r.Some? && |r.value.1| > 0 ==> forall j :: 0 <= j < |r.value.0| ==> Clamped(r.value.0[j])
  {
    if !(total > 0 && |inputs| == 0) {
      var task := SeededTask(num, inputs, targets, total, rates, lengthWeight);
      var sample := Sampling(num, rates, loss, grads);
      var step := FitStep(num, task, sample);
      var post := (ps: seq<Params>) => forall j :: 0 <= j < |ps| ==> Clamped(ps[j]);
      FitStepIs(num, task, sample);
      forall ps: seq<Params> | step(ps).Some?
        ensures post(step(ps).value.0)
      {
        assert step(ps) == FitEpoch(num, task, sample, ps);
        var qs := Samples(task, sample, ps, |task.inputs|).value.0;
        UpdatedAllClamped(num, task.rates, qs, LengthGrads(num, qs, task.original, task.weight));
      }
      RunEstablishes(step, post, Seed(num, inputs, targets, total), maxEpochs, lossEpsilon);
    }
  }

  // ---------------------------------------------------------------------------
  // DomainLengthScalar on the automatic differentiation graph
  // ---------------------------------------------------------------------------

  /** The spans read off graph nodes: Alpha at alphas[i], Theta at thetas[i]. */
  function SpansAt(num: Numerics, values: seq<real>, alphas: seq<nat>, thetas: seq<nat>): (r: seq<real>)
    requires |alphas| == |thetas|
    requires forall i :: 0 <= i < |alphas| ==> alphas[i] < |values| && thetas[i] < |values|
    ensures |r| == |alphas|
  {
    seq(|alphas|, i requires 0 <= i < |alphas| => SpanOf(num, values[alphas[i]], values[thetas[i]]))
  }

  /** Alpha * Cosine(Theta) on the values of the two nodes. */
  function SpanOf(num: Numerics, alpha: real, theta: real): real {
    alpha * num.cos(theta)
  }

  lemma SpansAtNext(num: Numerics, values: seq<real>, alphas: seq<nat>, thetas: seq<nat>, i: nat)
    requires |alphas| == |thetas| && i < |alphas|
    requires forall k :: 0 <= k < |alphas| ==> alphas[k] < |values| && thetas[k] < |values|
    ensures Sum(SpansAt(num, values, alphas[..i + 1], thetas[..i + 1]))
      == Sum(SpansAt(num, values, alphas[..i], thetas[..i])) + SpanOf(num, values[alphas[i]], values[thetas[i]])
  {
    var s := SpansAt(num, values, alphas[..i + 1], thetas[..i + 1]);
    var t := SpansAt(num, values, alphas[..i], thetas[..i]);
    forall k | 0 <= k < i ensures s[k] == t[k] {
      assert alphas[..i + 1][k] == alphas[..i][k] && thetas[..i + 1][k] == thetas[..i][k];
    }
    assert s[..i] == t;
  }

  lemma MulCongruence(a: real, b: real, a': real, b': real)
    requires a == a' && b == b'
    ensures a * b == a' * b'
  {
  }

  /** One step of DomainLengthScalar: h + Alpha * Cosine(Theta), three new
      nodes and nothing else changed. */
  method AddSpan(g: Autodiff.Graph, h: nat, alpha: nat, theta: nat) returns (h': nat)
    requires g.Valid() && h < |g.ops| && alpha < |g.ops| && theta < |g.ops|
    modifies g
    ensures g.Valid() && |old(g.values)| < h' < |g.values| && |g.values| == |old(g.values)| + 3
    ensures forall k :: 0 <= k < |old(g.values)| ==> g.values[k] == old(g.values)[k]
    ensures g.ops[..|old(g.ops)|] == old(g.ops)
    ensures g.values[h'] == old(g.values)[h] + SpanOf(g.num, old(g.values)[alpha], old(g.values)[theta])
  {
    ghost var v := g.values;
    var c := g.Cosine(theta);
    ghost var v2 := g.values;
    var m := g.Times(alpha, c);
    assert v2[alpha] == v[alpha] && v2[c] == g.num.cos(v[theta]);
    MulCongruence(v2[alpha], v2[c], v[alpha], g.num.cos(v[theta]));
    assert g.values[m] == SpanOf(g.num, v[alpha], v[theta]);
    h' := g.Plus(h, m);
  }

  /** DomainLengthScalar(): h = 0, then h = h + Alpha * Cosine(Theta) for each
      segment. The new node's value is the domain length of the values the
      handles hold; the nodes that were there are left as they were. */
  method DomainLengthScalar(g: Autodiff.Graph, alphas: seq<nat>, thetas: seq<nat>) returns (h: nat)
    requires g.Valid() && |alphas| == |thetas|
    requires forall i :: 0 <= i < |alphas| ==> alphas[i] < |g.ops| && thetas[i] < |g.ops|
    modifies g
    ensures g.Valid() && |old(g.values)| <= h < |g.values|
    ensures g.values[..|old(g.values)|] == old(g.values) && g.ops[..|old(g.ops)|] == old(g.ops)
    ensures g.values[h] == Sum(SpansAt(g.num, old(g.values), alphas, thetas))
  {
    ghost var values0 := g.values;
    h := g.Constant(0.0);
    var i := 0;
    while i < |alphas|
      invariant 0 <= i <= |alphas| && g.Valid()
      invariant |values0| <= h < |g.values| && |old(g.ops)| <= |g.ops|
      invariant forall k :: 0 <= k < |values0| ==> g.values[k] == values0[k]
      invariant g.ops[..|old(g.ops)|] == old(g.ops)
      invariant g.values[h] == Sum(SpansAt(g.num, values0, alphas[..i], thetas[..i]))
    {
      ghost var before := g.values[h];
      h := AddSpan(g, h, alphas[i], thetas[i]);
      assert g.values[h] == before + SpanOf(g.num, values0[alphas[i]], values0[thetas[i]]);
      SpansAtNext(g.num, values0, alphas, thetas, i);
      i := i + 1;
    }
    assert alphas[..i] == alphas && thetas[..i] == thetas;
    assert g.values[..|values0|] == values0;
  }

  // ---------------------------------------------------------------------------
  // The chain object
  // ---------------------------------------------------------------------------

  class Chain2 {
    /** Paravectors: the list itself is never replaced or resized. */
    const paravectors: seq<Paravector2>

    constructor (ps: seq<Paravector2>)
      ensures paravectors == ps
    {
      paravectors := ps;
    }

    /** No segment object appears twice. */
    ghost predicate Valid() {
      forall i, j :: 0 <= i < j < |paravectors| ==> paravectors[i] != paravectors[j]
    }

    function Values(): (r: seq<Params>)
      reads paravectors
      ensures |r| == |paravectors| && forall i :: 0 <= i < |r| ==> r[i] == paravectors[i].Values()
    {
      seq(|paravectors|, i requires 0 <= i < |paravectors| reads paravectors => paravectors[i].Values())
    }

    /** Every segment's gradients are zero, as every Update leaves them. */
    ghost predicate NoGradients()
      reads paravectors
    {
      forall i :: 0 <= i < |paravectors| ==> paravectors[i].Gradients() == NoGrads
    }

    /** Segment i holds the gradients gs[i]. */
    ghost predicate GradientsAre(gs: seq<Grads>)
      reads paravectors
    {
      |gs| == |paravectors| && forall i :: 0 <= i < |paravectors| ==> paravectors[i].Gradients() == gs[i]
    }

    /** GetRelevantParavector(x, boundaries): the segment at the index the
        boundaries select; None where the source indexes outside the list. */
    method GetRelevantParavector(x: real, bs: seq<Boundary>) returns (r: Option<Paravector2>, index: nat)
      ensures r.None? <==> SelectInBoundaries(x, bs, |paravectors|).None?
      ensures r.Some? ==> SelectInBoundaries(x, bs, |paravectors|) == Some(index) && r.value == paravectors[index]
    {
      var found := RelevantInBoundaries(x, bs, |paravectors|);
      if found.None? {
        return None, 0;
      }
      index := found.value;
      r := Some(paravectors[index]);
    }

    /** GetRelevantParavector(x, h): the same choice made by scanning from h. */
    method GetRelevantParavectorFrom(num: Numerics, x: real, h: real) returns (r: Option<Paravector2>, index: nat)
      ensures r.None? <==> paravectors == []
      ensures r.Some? ==> (index < |paravectors| && r.value == paravectors[index]
        && Some(index) == SelectInBoundaries(x, Boundaries(Spans(num, Values()), h), |paravectors|))
    {
      var found := RelevantByScan(x, Spans(num, Values()), h);
      OverloadsAgree(x, Spans(num, Values()), h);
      SelectsFirstHolding(x, Spans(num, Values()), h);
      if found.None? {
        return None, 0;
      }
      index := found.value;
      r := Some(paravectors[index]);
    }

    /** Evaluate(x, h, k). */
    method Evaluate(num: Numerics, x: real, h: real, k: real) returns (r: Option<real>)
      ensures r == EvaluateAt(num, Values(), x, h, k)
    {
      var bs := SetupBoundaries(Spans(num, Values()), h);
      var upsilon, index := GetRelevantParavector(x, bs);
      if upsilon.None? {
        return None;
      }
      r := Some(GlobalX(num, upsilon.value.Values(), x, h, k));
    }

    /** Update(baseLR, alphaLR, thetaLR, betaLR, j, count) on every segment j. */
    method UpdateAll(num: Numerics, rates: Rates, ghost gs: seq<Grads>)
      requires Valid() && GradientsAre(gs)
      modifies paravectors
      ensures Values() == UpdatedAll(num, rates, old(Values()), gs)
      ensures NoGradients()
    {
      var j := 0;
      while j < |paravectors|
        invariant 0 <= j <= |paravectors|
        invariant forall i :: 0 <= i < j ==>
          paravectors[i].Values() == UpdatedAll(num, rates, old(Values()), gs)[i]
          && paravectors[i].Gradients() == NoGrads
        invariant forall i :: j <= i < |paravectors| ==>
          paravectors[i].Values() == old(paravectors[i].Values()) && paravectors[i].Gradients() == old(paravectors[i].Gradients())
      {
        paravectors[j].Update(num, rates, j, |paravectors|);
        j := j + 1;
      }
    }

    /** One sample of Fit's epoch: Evaluate(x, 0, 0), the loss, its Backward
        into the chosen segment, and the Update of every segment. */
    method Sample(num: Numerics, rates: Rates, loss: (real, real) -> real, grads: SampleGrads, x: real, t: real,
                  ghost sample: Sampler)
      returns (l: real)
      requires Valid() && paravectors != [] && NoGradients() && SampleIs(sample, num, rates, loss, grads)
      modifies paravectors
      ensures sample(old(Values()), x, t) == Some((Values(), l))
      ensures NoGradients()
    {
      ghost var ps := Values();
      var index, d;
      l, index, d := Forward(num, loss, grads, x, t);
      BackwardAt(index, d);
      ValuesAreValues(ps);
      DeliveredTo(index, d);
      UpdateAll(num, rates, Delivered(|paravectors|, index, d));
      SampleStepIs(num, rates, loss, grads, ps, x, t, index);
    }

    /** The forward pass of one sample: Evaluate(x, 0, 0) picks segment
        `index`, whose GlobalX the loss compares with t; `d` is what the loss's
        Backward delivers to that segment. */
    method Forward(num: Numerics, loss: (real, real) -> real, grads: SampleGrads, x: real, t: real)
      returns (l: real, index: nat, d: Grads)
      requires paravectors != []
      ensures SelectInBoundaries(x, Boundaries(Spans(num, Values()), 0.0), |paravectors|) == Some(index)
      ensures index < |paravectors| && d == grads(Values()[index], x, t)
      ensures l == loss(GlobalX(num, Values()[index], x, 0.0, 0.0), t)
    {
      var bs := SetupBoundaries(Spans(num, Values()), 0.0);
      SelectsFirstHolding(x, Spans(num, Values()), 0.0);
      var found;
      found, index := GetRelevantParavector(x, bs);
      var p := found.value.Values();
      l := loss(GlobalX(num, p, x, 0.0, 0.0), t);
      d := grads(p, x, t);
    }

    /** The backward pass of one sample: `d` reaches segment `index` only. */
    method BackwardAt(index: nat, d: Grads)
      requires Valid() && index < |paravectors| && NoGradients()
      modifies paravectors
      ensures forall i :: 0 <= i < |paravectors| ==> paravectors[i].Values() == old(paravectors[i].Values())
      ensures forall i :: 0 <= i < |paravectors| ==> paravectors[i].Gradients() == if i == index then d else NoGrads
    {
      paravectors[index].Accumulate(d);
      AddToNoGrads(d);
    }

    /** Segment `index` holds `d` and every other one zero: the gradients are
        Delivered(|paravectors|, index, d). */
    lemma DeliveredTo(index: nat, d: Grads)
      requires forall i :: 0 <= i < |paravectors| ==> paravectors[i].Gradients() == if i == index then d else NoGrads
      ensures GradientsAre(Delivered(|paravectors|, index, d))
    {
    }

    /** Segment i holding ps[i] for every i is the chain holding ps. */
    lemma ValuesAreValues(ps: seq<Params>)
      requires |ps| == |paravectors| && forall i :: 0 <= i < |paravectors| ==> paravectors[i].Values() == ps[i]
      ensures Values() == ps
    {
    }

    /** The length step of Fit's epoch: the penalty on the change of the
        domain length, its Backward, and the Update of every segment. */
    method ApplyLengthPenalty(num: Numerics, rates: Rates, original: real, weight: real) returns (penalty: real)
      requires Valid() && NoGradients()
      modifies paravectors
      ensures LengthStep(num, rates, old(Values()), original, weight) == (Values(), penalty)
      ensures NoGradients()
    {
      ghost var ps := Values();
      var current := DomainLength(Spans(num, Values()));
      var diff := current - original;
      var g := SquareGradient(diff, weight);
      penalty := Weighted(diff, weight);
      assert penalty == LengthPenalty(num, ps, original, weight);
      assert g == LengthGradient(num, ps, original, weight);
      BackwardLength(num, g);
      ghost var target := LengthGrads(num, ps, original, weight);
      forall i | 0 <= i < |paravectors| ensures paravectors[i].Gradients() == target[i] {
        AddToNoGrads(ThroughSpan(num, g, ps[i]));
      }
      UpdateAll(num, rates, target);
    }

    /** The penalty's Backward: the gradient g on the domain length reaches
        every segment through its Alpha * Cosine(Theta). */
    method BackwardLength(num: Numerics, g: real)
      requires Valid()
      modifies paravectors
      ensures Values() == old(Values())
      ensures forall i :: 0 <= i < |paravectors| ==>
        paravectors[i].Gradients() == AddGrads(old(paravectors[i].Gradients()), ThroughSpan(num, g, paravectors[i].Values()))
    {
      var j := 0;
      while j < |paravectors|
        invariant 0 <= j <= |paravectors|
        invariant forall i :: 0 <= i < j ==>
          paravectors[i].Values() == old(paravectors[i].Values())
          && paravectors[i].Gradients() == AddGrads(old(paravectors[i].Gradients()), ThroughSpan(num, g, paravectors[i].Values()))
        invariant forall i :: j <= i < |paravectors| ==>
          paravectors[i].Values() == old(paravectors[i].Values()) && paravectors[i].Gradients() == old(paravectors[i].Gradients())
      {
        var upsilon := paravectors[j];
        upsilon.Accumulate(ThroughSpan(num, g, upsilon.Values()));
        j := j + 1;
      }
    }

    /** One epoch of Fit: the samples, then the length step. */
    method Epoch(num: Numerics, task: FitTask, loss: (real, real) -> real, grads: SampleGrads,
                 ghost sample: Sampler, ghost step: seq<Params> -> Option<(seq<Params>, real)>) returns (totalLoss: real)
      requires |task.inputs| <= |task.targets| && SampleIs(sample, num, task.rates, loss, grads) && EpochIs(step, num, task, sample)
      requires Valid() && NoGradients()
      requires |task.inputs| <= |task.targets| && (paravectors != [] || task.inputs == [])
      modifies paravectors
      ensures step(old(Values())) == Some((Values(), totalLoss))
      ensures NoGradients()
    {
      ghost var ps := Values();
      totalLoss := SampleAll(num, task, loss, grads, sample);
      ghost var afterSamples := Values();
      var penalty := ApplyLengthPenalty(num, task.rates, task.original, task.weight);
      FitEpochIs(num, task, sample, ps, afterSamples, totalLoss, Values(), penalty);
      totalLoss := totalLoss + penalty;
    }

    /** The loop over the samples of an epoch. */
    method SampleAll(num: Numerics, task: FitTask, loss: (real, real) -> real, grads: SampleGrads, ghost sample: Sampler)
      returns (totalLoss: real)
      requires Valid() && NoGradients() && SampleIs(sample, num, task.rates, loss, grads)
      requires |task.inputs| <= |task.targets| && (paravectors != [] || task.inputs == [])
      modifies paravectors
      ensures Samples(task, sample, old(Values()), |task.inputs|) == Some((Values(), totalLoss))
      ensures NoGradients()
    {
      ghost var ps := Values();
      totalLoss := 0.0;
      var i := 0;
      while i < |task.inputs|
        invariant 0 <= i <= |task.inputs|
        invariant Samples(task, sample, ps, i) == Some((Values(), totalLoss))
        invariant NoGradients()
      {
        ghost var before := Values();
        var l := Sample(num, task.rates, loss, grads, task.inputs[i], task.targets[i], sample);
        SamplesNext(task, sample, ps, i, before, totalLoss, Values(), l);
        totalLoss := totalLoss + l;
        i := i + 1;
      }
    }

    /** Fit's epoch loop: at most `maxEpochs` epochs, stopping after the first
        whose total loss is below `lossEpsilon`. */
    method Train(num: Numerics, task: FitTask, loss: (real, real) -> real, grads: SampleGrads,
                 maxEpochs: int, lossEpsilon: real, ghost sample: Sampler, ghost step: seq<Params> -> Option<(seq<Params>, real)>)
      returns (ghost losses: seq<real>)
      requires |task.inputs| <= |task.targets| && SampleIs(sample, num, task.rates, loss, grads) && EpochIs(step, num, task, sample)
      requires Valid() && NoGradients()
      requires |task.inputs| <= |task.targets| && (paravectors != [] || task.inputs == [] || maxEpochs <= 0)
      modifies paravectors
      ensures Run(step, old(Values()), maxEpochs, lossEpsilon) == Some((Values(), losses))
    {
      ghost var goal := Run(step, Values(), maxEpochs, lossEpsilon);
      losses := [];
      PrefixNothing(goal);
      var epoch := 0;
      ghost var remaining := maxEpochs;
      while epoch < maxEpochs
        invariant 0 <= epoch && (maxEpochs >= 0 ==> epoch <= maxEpochs) && remaining == maxEpochs - epoch
        invariant Prefix(losses, Run(step, Values(), remaining, lossEpsilon)) == goal
        invariant NoGradients()
      {
        ghost var before := Values();
        var totalLoss := Epoch(num, task, loss, grads, sample, step);
        if totalLoss < lossEpsilon {
          RunStop(step, before, Values(), totalLoss, remaining, lossEpsilon, losses);
          losses := losses + [totalLoss];
          return;
        }
        RunStep(step, before, Values(), totalLoss, remaining, lossEpsilon, losses);
        losses := losses + [totalLoss];
        epoch := epoch + 1;
        remaining := remaining - 1;
      }
      RunDone(step, Values(), remaining, lossEpsilon, losses);
    }
  }

  /** The seeding loop of Fit: one new segment per slice of the samples. */
  method SeedSegments(num: Numerics, inputs: seq<real>, targets: seq<real>, total: int)
    returns (ps: seq<Paravector2>)
    requires |inputs| == |targets| && (total <= 0 || |inputs| > 0)
    ensures forall i :: 0 <= i < |ps| ==> fresh(ps[i])
    ensures forall i, j :: 0 <= i < j < |ps| ==> ps[i] != ps[j]
    ensures |ps| == |Seed(num, inputs, targets, total)|
    ensures forall i :: 0 <= i < |ps| ==> ps[i].Values() == Seed(num, inputs, targets, total)[i] && ps[i].Gradients() == NoGrads
  {
    ghost var seed := Seed(num, inputs, targets, total);
    ps := [];
    var i := 0;
    while i < total
      invariant 0 <= i <= |seed| && |ps| == i
      invariant forall j :: 0 <= j < |ps| ==> fresh(ps[j])
      invariant forall j, j' :: 0 <= j < j' < |ps| ==> ps[j] != ps[j']
      invariant forall j :: 0 <= j < |ps| ==> ps[j].Values() == seed[j] && ps[j].Gradients() == NoGrads
    {
      var startIdx, endIdx := SeedStart(|inputs|, total, i), SeedEnd(|inputs|, total, i);
      var upsilon := new Paravector2(FromVectorDifference(num, inputs[startIdx], targets[startIdx], inputs[endIdx], targets[endIdx]));
      ps := ps + [upsilon];
      i := i + 1;
    }
  }

  /** Fit(total, inputs, targets, baseLR, maxEpochs, loss, alphaLR, thetaLR,
      betaLR, lossEpsilon, lengthWeight): None where the source throws;
      otherwise a new chain of new segments whose values are FitRun's, with the
      total loss of every epoch that ran (what `action` is called with). */
  method Fit(num: Numerics, total: int, inputs: seq<real>, targets: seq<real>, baseLR: real, maxEpochs: int,
             loss: (real, real) -> real, grads: SampleGrads, alphaLR: real, thetaLR: real, betaLR: real,
             lossEpsilon: real, lengthWeight: real)
    returns (r: Option<Chain2>, ghost losses: seq<real>)
    requires |inputs| == |targets|
    ensures var run := FitRun(num, total, inputs, targets, DefaultRates(baseLR, alphaLR, thetaLR, betaLR),
                              maxEpochs, loss, grads, lossEpsilon, lengthWeight);
      && (r.None? <==> run.None?)
      && (r.Some? ==> fresh(r.value) && r.value.Valid() && r.value.Values() == run.value.0 && losses == run.value.1
                      && forall i :: 0 <= i < |r.value.paravectors| ==> fresh(r.value.paravectors[i]))
  {
    var rates := DefaultRates(baseLR, alphaLR, thetaLR, betaLR);
    FitFails(num, total, inputs, targets, rates, maxEpochs, loss, grads, lossEpsilon, lengthWeight);
    if total > 0 && |inputs| == 0 {
      return None, [];
    }
    ghost var seed := Seed(num, inputs, targets, total);
    var ps := SeedSegments(num, inputs, targets, total);
    var chain := new Chain2(ps);
    assert chain.Values() == seed;
    assert chain.NoGradients();
    if ps == [] && inputs != [] && maxEpochs > 0 {
      return None, [];
    }
    var originalLength := DomainLength(Spans(num, chain.Values()));
    var task := FitTask(inputs, targets, rates, originalLength, lengthWeight);
    assert task == SeededTask(num, inputs, targets, total, rates, lengthWeight);
    ghost var sample := Sampling(num, rates, loss, grads);
    assert SampleIs(sample, num, rates, loss, grads);
    FitStepIs(num, task, sample);
    ghost var run := Run(FitStep(num, task, sample), seed, maxEpochs, lossEpsilon);
    assert run == FitRun(num, total, inputs, targets, rates, maxEpochs, loss, grads, lossEpsilon, lengthWeight);
    assert chain.Values() == seed;
    losses := chain.Train(num, task, loss, grads, maxEpochs, lossEpsilon, sample, FitStep(num, task, sample));
    assert run == Some((chain.Values(), losses));
    r := Some(chain);
  }
}
