/**
 * Paravector2D: one segment of a Chain2D. Its GlobalX always solves the
 * quadratic (with `a` shifted by Epsilon instead of testing for degenerate
 * cases), and InductiveFit trains one segment to pass through a fixed end.
 */
module Segments2D {
  import opened Wrappers
  import opened Numerics
  import opened Curve
  import opened Training

  /** a = m * sin Theta + Epsilon. */
  function ShiftedA(num: Numerics, p: Params): real {
    QuadA(num, p) + Epsilon
  }

  /** The discriminant GlobalX takes the root of: a negative one is replaced
      by Epsilon. */
  function RootInput(num: Numerics, p: Params, x: real, h: real): (r: real)
    ensures r >= 0.0
    ensures Discriminant(ShiftedA(num, p), QuadB(num, p), x - h) >= 0.0
      ==> r == Discriminant(ShiftedA(num, p), QuadB(num, p), x - h)
  {
    var d := Discriminant(ShiftedA(num, p), QuadB(num, p), x - h);
    if d < 0.0 then Epsilon else d
  }

  /** (-b - sqrt d) / (2a), the local coordinate GlobalX evaluates at. */
  function LocalCoordinate(num: Numerics, p: Params, x: real, h: real): real {
    FDiv(num, -QuadB(num, p) - num.sqrt(RootInput(num, p, x, h)), 2.0 * ShiftedA(num, p))
  }

  /** GlobalX(x, h, k): the height of the segment anchored at (h, k) above x.
      The ensures only rewrites the body in terms of Curve.Up, for the lemmas
      that compare it with the rotated curve (ShiftedAboveX, StartsAtAnchor). */
  function GlobalX(num: Numerics, p: Params, x: real, h: real, k: real): (r: real)
    ensures r == k + Up(num, p, LocalCoordinate(num, p, x, h))
  {
    var u := LocalCoordinate(num, p, x, h);
    k + u * num.sin(p.theta) + LocalX(num, p, u) * num.cos(p.theta)
  }

  /** With the discriminant not negative and the square root exact, the
      point GlobalX evaluates lies Epsilon * u^2 to the right of x: the shift
      of `a` is the only thing that keeps it off the rotated curve above x. */
  lemma ShiftedAboveX(num: Numerics, p: Params, x: real, h: real, k: real)
    requires ShiftedA(num, p) != 0.0
    requires var d := Discriminant(ShiftedA(num, p), QuadB(num, p), x - h);
      d >= 0.0 && num.sqrt(d) * num.sqrt(d) == d
    ensures var u := LocalCoordinate(num, p, x, h);
      h + Across(num, p, u) == x + Epsilon * u * u && GlobalX(num, p, x, h, k) == k + Up(num, p, u)
  {
    var a, b := ShiftedA(num, p), QuadB(num, p);
    var d := Discriminant(a, b, x - h);
    var root := num.sqrt(d);
    var u := LocalCoordinate(num, p, x, h);
    assert u == (-b - root) / (2.0 * a);
    QuadraticRoot(a, b, x - h, root);
    QuadraticIsAcross(num, p, x - h, u);
    assert a * u * u == QuadA(num, p) * u * u + Epsilon * u * u;
  }

  /** A segment starts at its anchor, GlobalX(h, h, k) = k, when the root
      taken at x = h is -b: the discriminant there is b^2, so this holds
      whenever b = -(cos Theta + m Alpha sin Theta) is not positive and the
      square root is exact. */
  lemma StartsAtAnchor(num: Numerics, p: Params, h: real, k: real)
    requires ShiftedA(num, p) != 0.0
    requires num.sqrt(Discriminant(ShiftedA(num, p), QuadB(num, p), 0.0)) == -QuadB(num, p)
    ensures GlobalX(num, p, h, h, k) == k
  {
    var a, b := ShiftedA(num, p), QuadB(num, p);
    SquareSign(b);
    assert Square(b) == b * b;
    assert Discriminant(a, b, 0.0) == b * b;
    assert h - h == 0.0;
    var d := RootInput(num, p, h, h);
    assert d == Discriminant(a, b, 0.0);
    assert num.sqrt(d) == -b;
    assert -b - num.sqrt(d) == 0.0;
    assert 2.0 * a != 0.0;
    assert FDiv(num, 0.0, 2.0 * a) == 0.0;
  }

  /** XLength = Alpha * cos Theta, YLength = Alpha * sin Theta: where the
      rotated curve ends relative to its anchor (LocalX vanishes at Alpha). */
  function XLength(num: Numerics, p: Params): (r: real)
    ensures r == Across(num, p, p.alpha)
  {
    p.alpha * num.cos(p.theta)
  }

  function YLength(num: Numerics, p: Params): (r: real)
    ensures r == Up(num, p, p.alpha)
  {
    p.alpha * num.sin(p.theta)
  }

  /** FromVector(x, y): length hypot(x, y), direction atan2(y, x), no bend. */
  function FromVector(num: Numerics, x: real, y: real): (r: Params)
    ensures r.alpha == num.sqrt(x * x + y * y) && r.theta == num.atan2(y, x) && r.beta == 0.0
  {
    Params(num.sqrt(x * x + y * y), num.atan2(y, x), 0.0)
  }

  /** FromVectorDifference: the segment from (x1, y1) towards (x2, y2). */
  function FromVectorDifference(num: Numerics, x1: real, y1: real, x2: real, y2: real): (r: Params)
    ensures var dx, dy := x2 - x1, y2 - y1;
      r.alpha == num.sqrt(dx * dx + dy * dy) && r.theta == num.atan2(dy, dx) && r.beta == 0.0
  {
    FromVector(num, x2 - x1, y2 - y1)
  }

  /** Reverse(): the same segment pointing the other way. */
  function Reversed(p: Params): (r: Params)
    ensures r.alpha == p.alpha && r.beta == p.beta && r.theta - p.theta == Pi
  {
    p.(theta := p.theta + Pi)
  }

  /** Update's default scales: thetaScale 1.0 and betaScale 0.01. */
  const DefaultThetaScale: real := 1.0
  const DefaultBetaScale: real := 0.01

  /** Update(baseLR, thetaScale, betaScale): a plain gradient step, then a
      negative Alpha becomes 0.01. Theta and Beta are not clamped. */
  function Updated(p: Params, g: Grads, baseLR: real, thetaScale: real, betaScale: real): (r: Params)
    ensures r.alpha >= 0.0
    ensures p.alpha - baseLR * g.alpha >= 0.0 ==> r.alpha == p.alpha - baseLR * g.alpha
    ensures p.alpha - baseLR * g.alpha < 0.0 ==> r.alpha == BiggerEpsilon
    ensures p.theta - r.theta == baseLR * g.theta * thetaScale
    ensures p.beta - r.beta == baseLR * g.beta * betaScale
  {
    var alpha := p.alpha - baseLR * g.alpha;
    Params(if alpha < 0.0 then BiggerEpsilon else alpha,
           p.theta - baseLR * g.theta * thetaScale,
           p.beta - baseLR * g.beta * betaScale)
  }

  /** The endpoint term of InductiveFit's loss: the squared distance from the
      chord's end to the fixed end, with only the x error weighted. */
  function EndpointLoss(num: Numerics, p: Params, startX: real, startY: real,
                        fixedEndX: real, fixedEndY: real, penalty: real): real
  {
    var endX := startX + p.alpha * num.cos(p.theta);
    var endY := startY + p.alpha * num.sin(p.theta) + LocalX(num, p, p.alpha) * num.cos(p.theta);
    penalty * Square(endX - fixedEndX) + Square(endY - fixedEndY)
  }

  /** With a positive penalty the endpoint loss vanishes exactly when the
      segment, anchored at the start point, ends at the fixed end. */
  lemma EndpointLossZero(num: Numerics, p: Params, startX: real, startY: real,
                         fixedEndX: real, fixedEndY: real, penalty: real)
    requires penalty > 0.0
    ensures EndpointLoss(num, p, startX, startY, fixedEndX, fixedEndY, penalty) >= 0.0
    ensures EndpointLoss(num, p, startX, startY, fixedEndX, fixedEndY, penalty) == 0.0
      <==> startX + XLength(num, p) == fixedEndX && startY + YLength(num, p) == fixedEndY
  {
    var dx := startX + XLength(num, p) - fixedEndX;
    var dy := startY + YLength(num, p) - fixedEndY;
    assert EndpointLoss(num, p, startX, startY, fixedEndX, fixedEndY, penalty) == penalty * Square(dx) + Square(dy);
    SquareSign(dx);
    SquareSign(dy);
    WeightedSum(penalty, Square(dx), Square(dy));
  }

  /** What one call of InductiveFit works on: the samples, the start point
      (the first sample), the fixed end and the endpoint penalty. */
  datatype Task = Task(inputs: seq<real>, targets: seq<real>, startX: real, startY: real,
                       fixedEndX: real, fixedEndY: real, penalty: real)

  /** The sum of the per-sample losses of a segment anchored at the start. */
  function SampleLoss(num: Numerics, p: Params, inputs: seq<real>, targets: seq<real>,
                      h: real, k: real, loss: (real, real) -> real): real
    requires |inputs| <= |targets|
  {
    if inputs == [] then 0.0
    else
      var n := |inputs| - 1;
      SampleLoss(num, p, inputs[..n], targets, h, k, loss) + loss(GlobalX(num, p, inputs[n], h, k), targets[n])
  }

  /** A segment of length 0: its slope tan(-Beta) / Alpha is 0 / 0 or
      infinite, and either that quotient or its product with Alpha = 0 in
      LocalX(Alpha) is NaN, which no Scalar may hold. */
  predicate ZeroLength(p: Params) {
    p.alpha == 0.0
  }

  /** One epoch of InductiveFit: total loss, Backward (whose result on Alpha,
      Theta and Beta the `grads` oracle gives), Update(lr). Every epoch takes
      the slope of the segment and multiplies it by Alpha (the endpoint term
      evaluates LocalX(Alpha)), so an epoch throws on a segment of length 0. */
  function Epoch(num: Numerics, task: Task, lr: real, loss: (real, real) -> real,
                 grads: (Task, Params) -> Grads, p: Params): Option<(Params, real)>
    requires |task.inputs| <= |task.targets|
  {
    if ZeroLength(p) then None
    else
    var total := SampleLoss(num, p, task.inputs, task.targets, task.startX, task.startY, loss)
      + EndpointLoss(num, p, task.startX, task.startY, task.fixedEndX, task.fixedEndY, task.penalty);
    Some((Updated(p, grads(task, p), lr, DefaultThetaScale, DefaultBetaScale), total))
  }

  /** The epoch as the step of the training loop. */
  function EpochStep(num: Numerics, task: Task, lr: real, loss: (real, real) -> real,
                     grads: (Task, Params) -> Grads): Params -> Option<(Params, real)>
    requires |task.inputs| <= |task.targets|
  {
    p => Epoch(num, task, lr, loss, grads, p)
  }

  /** `step` is the epoch of `task`: the form the training loop works with. */
  ghost predicate EpochIs(step: Params -> Option<(Params, real)>, num: Numerics, task: Task, lr: real,
                          loss: (real, real) -> real, grads: (Task, Params) -> Grads)
    requires |task.inputs| <= |task.targets|
  {
    forall p {:trigger Epoch(num, task, lr, loss, grads, p)} :: step(p) == Epoch(num, task, lr, loss, grads, p)
  }

  /** An epoch throws exactly when Alpha is 0; otherwise it steps
      from `p` to `Updated(p, ...)`, reporting a loss that is a sum of sample
      losses and an endpoint loss. */
  lemma EpochFails(num: Numerics, task: Task, lr: real, loss: (real, real) -> real,
                   grads: (Task, Params) -> Grads, p: Params)
    requires |task.inputs| <= |task.targets|
    ensures Epoch(num, task, lr, loss, grads, p).None? <==> p.alpha == 0.0
    ensures Epoch(num, task, lr, loss, grads, p).Some? ==>
      Epoch(num, task, lr, loss, grads, p).value.0 == Updated(p, grads(task, p), lr, DefaultThetaScale, DefaultBetaScale)
  {
  }

  lemma EpochStepIs(num: Numerics, task: Task, lr: real, loss: (real, real) -> real,
                    grads: (Task, Params) -> Grads)
    requires |task.inputs| <= |task.targets|
    ensures EpochIs(EpochStep(num, task, lr, loss, grads), num, task, lr, loss, grads)
  {
  }

  /** InductiveFit as a function: None where the source indexes an empty
      input; otherwise the epoch loop started from the chord to the fixed end. */
  function FitRun(num: Numerics, inputs: seq<real>, targets: seq<real>, fixedEndX: real, fixedEndY: real,
                  lr: real, epochs: int, loss: (real, real) -> real, grads: (Task, Params) -> Grads,
                  lossEpsilon: real, penalty: real): Option<(Params, seq<real>)>
    requires |inputs| == |targets|
  {
    if |inputs| == 0 then None
    else
      var task := Task(inputs, targets, inputs[0], targets[0], fixedEndX, fixedEndY, penalty);
      Run(EpochStep(num, task, lr, loss, grads),
          FromVectorDifference(num, inputs[0], targets[0], fixedEndX, fixedEndY), epochs, lossEpsilon)
  }

  /** When the first sample is the fixed end, the chord has length sqrt(0) = 0
      and the first epoch throws: InductiveFit fails as soon as one epoch is asked for. Without
      epochs it returns the seed. */
  lemma SeedAtFixedEnd(num: Numerics, inputs: seq<real>, targets: seq<real>, fixedEndX: real, fixedEndY: real,
                       lr: real, epochs: int, loss: (real, real) -> real, grads: (Task, Params) -> Grads,
                       lossEpsilon: real, penalty: real)
    requires 0 < |inputs| == |targets| && inputs[0] == fixedEndX && targets[0] == fixedEndY
    requires num.sqrt(0.0) == 0.0
    ensures epochs > 0 <==> FitRun(num, inputs, targets, fixedEndX, fixedEndY, lr, epochs, loss, grads, lossEpsilon, penalty).None?
  {
    var seed := FromVectorDifference(num, inputs[0], targets[0], fixedEndX, fixedEndY);
    assert (fixedEndX - inputs[0]) * (fixedEndX - inputs[0]) + (fixedEndY - targets[0]) * (fixedEndY - targets[0]) == 0.0;
    assert ZeroLength(seed);
  }

  /** InductiveFit's defaults: lossEpsilon = Epsilon and penalty = 0.1. */
  const DefaultFitEpsilon: real := Epsilon
  const DefaultPenalty: real := 0.1

  /** A segment: the values and gradients of its Alpha, Theta and Beta. */
  class Paravector2D {
    var alpha: real
    var theta: real
    var beta: real
    var alphaGrad: real
    var thetaGrad: real
    var betaGrad: real

    constructor (p: Params)
      ensures Values() == p && Gradients() == NoGrads
    {
      alpha, theta, beta := p.alpha, p.theta, p.beta;
      alphaGrad, thetaGrad, betaGrad := 0.0, 0.0, 0.0;
    }

    function Values(): Params
      reads this
    {
      Params(alpha, theta, beta)
    }

    function Gradients(): Grads
      reads this
    {
      Grads(alphaGrad, thetaGrad, betaGrad)
    }

    /** A backward pass adding `d` into the three gradients. */
    method Accumulate(d: Grads)
      modifies this
      ensures Values() == old(Values()) && Gradients() == AddGrads(old(Gradients()), d)
    {
      alphaGrad := alphaGrad + d.alpha;
      thetaGrad := thetaGrad + d.theta;
      betaGrad := betaGrad + d.beta;
    }

    method ZeroGrad()
      modifies this
      ensures Values() == old(Values()) && Gradients() == NoGrads
    {
      alphaGrad, thetaGrad, betaGrad := 0.0, 0.0, 0.0;
    }

    method Update(baseLR: real, thetaScale: real, betaScale: real)
      modifies this
      ensures Values() == Updated(old(Values()), old(Gradients()), baseLR, thetaScale, betaScale)
      ensures Gradients() == NoGrads
    {
      alpha := alpha - baseLR * alphaGrad;
      theta := theta - baseLR * thetaGrad * thetaScale;
      beta := beta - baseLR * betaGrad * betaScale;
      if alpha < 0.0 {
        alpha := BiggerEpsilon;
      }
      ZeroGrad();
    }

    /** Reverse(): a new segment; this one is left as it is. */
    method Reverse() returns (r: Paravector2D)
      ensures fresh(r) && r.Values() == Reversed(Values()) && r.Gradients() == NoGrads
    {
      r := new Paravector2D(Params(alpha, theta + Pi, beta));
    }

    /** ReverseInPlace(): add pi, then wrap Theta by whole turns. The second
        loop's guard is `< pi`, so Theta ends in [pi, 3 pi), not in (-pi, pi]. */
    method ReverseInPlace() returns (ghost turns: int)
      modifies this
      ensures Pi <= theta < 3.0 * Pi
      ensures theta == Reversed(old(Values())).theta + 2.0 * Pi * (turns as real)
      ensures alpha == old(alpha) && beta == old(beta) && Gradients() == old(Gradients())
    {
      theta := theta + Pi;
      turns := 0;
      while theta > Pi
        invariant theta == Reversed(old(Values())).theta + 2.0 * Pi * (turns as real)
        invariant alpha == old(alpha) && beta == old(beta) && Gradients() == old(Gradients())
        decreases ((theta - Pi) / (2.0 * Pi)).Floor
      {
        theta := theta - Pi * 2.0;
        turns := turns - 1;
      }
      while theta < Pi
        invariant theta < 3.0 * Pi
        invariant theta == Reversed(old(Values())).theta + 2.0 * Pi * (turns as real)
        invariant alpha == old(alpha) && beta == old(beta) && Gradients() == old(Gradients())
        decreases ((Pi - theta) / (2.0 * Pi)).Floor
      {
        theta := theta + Pi * 2.0;
        turns := turns + 1;
      }
    }
  }

  /** The loop over the samples: the sum of their losses, in order. */
  method SumLoss(num: Numerics, p: Params, inputs: seq<real>, targets: seq<real>,
                 h: real, k: real, loss: (real, real) -> real) returns (total: real)
    requires |inputs| <= |targets|
    ensures total == SampleLoss(num, p, inputs, targets, h, k, loss)
  {
    total := 0.0;
    var i := 0;
    while i < |inputs|
      invariant 0 <= i <= |inputs|
      invariant total == SampleLoss(num, p, inputs[..i], targets, h, k, loss)
    {
      assert inputs[..i + 1][..i] == inputs[..i];
      total := total + loss(GlobalX(num, p, inputs[i], h, k), targets[i]);
      i := i + 1;
    }
    assert inputs[..i] == inputs;
  }

  /** The body of InductiveFit's epoch loop on the segment `upsilon`: the
      total loss, Backward, Update(lr). */
  method RunEpoch(num: Numerics, upsilon: Paravector2D, task: Task, lr: real, loss: (real, real) -> real,
                  grads: (Task, Params) -> Grads) returns (r: Option<real>)
    requires |task.inputs| <= |task.targets| && upsilon.Gradients() == NoGrads
    modifies upsilon
    ensures r.None? ==> Epoch(num, task, lr, loss, grads, old(upsilon.Values())).None?
    ensures r.Some? ==> Epoch(num, task, lr, loss, grads, old(upsilon.Values())) == Some((upsilon.Values(), r.value))
    ensures upsilon.Gradients() == NoGrads
  {
    var p := upsilon.Values();
    if p.alpha == 0.0 {
      return None;
    }
    var totalLoss;
    var sampleLoss := SumLoss(num, p, task.inputs, task.targets, task.startX, task.startY, loss);
    totalLoss := sampleLoss + EndpointLoss(num, p, task.startX, task.startY, task.fixedEndX, task.fixedEndY, task.penalty);
    var g := grads(task, p);
    ghost var next := Updated(p, g, lr, DefaultThetaScale, DefaultBetaScale);
    assert Epoch(num, task, lr, loss, grads, p) == Some((next, totalLoss));
    upsilon.Accumulate(g);
    AddToNoGrads(g);
    upsilon.Update(lr, DefaultThetaScale, DefaultBetaScale);
    r := Some(totalLoss);
  }

  /** InductiveFit's epoch loop on `upsilon`: at most `epochs` epochs, stopping
      after the first whose total loss is below `lossEpsilon`. */
  method Train(num: Numerics, upsilon: Paravector2D, task: Task, lr: real, epochs: int,
               loss: (real, real) -> real, grads: (Task, Params) -> Grads, lossEpsilon: real,
               ghost step: Params -> Option<(Params, real)>)
    returns (ok: bool, ghost losses: seq<real>)
    requires |task.inputs| <= |task.targets| && upsilon.Gradients() == NoGrads
    requires EpochIs(step, num, task, lr, loss, grads)
    modifies upsilon
    ensures !ok <==> Run(step, old(upsilon.Values()), epochs, lossEpsilon).None?
    ensures ok ==> Run(step, old(upsilon.Values()), epochs, lossEpsilon) == Some((upsilon.Values(), losses))
    ensures upsilon.Gradients() == NoGrads
  {
    ghost var goal := Run(step, upsilon.Values(), epochs, lossEpsilon);
    losses := [];
    PrefixNothing(goal);
    var epoch := 0;
    ghost var remaining := epochs;
    while epoch < epochs
      invariant 0 <= epoch && (epochs >= 0 ==> epoch <= epochs) && remaining == epochs - epoch
      invariant Prefix(losses, Run(step, upsilon.Values(), remaining, lossEpsilon)) == goal
      invariant upsilon.Gradients() == NoGrads
    {
      ghost var before := upsilon.Values();
      var outcome := RunEpoch(num, upsilon, task, lr, loss, grads);
      if outcome.None? {
        assert step(before).None?;
        RunFail(step, before, remaining, lossEpsilon, losses);
        return false, losses;
      }
      var totalLoss := outcome.value;
      ghost var after := upsilon.Values();
      assert step(before) == Some((after, totalLoss));
      if totalLoss < lossEpsilon {
        RunStop(step, before, after, totalLoss, remaining, lossEpsilon, losses);
        losses := losses + [totalLoss];
        return true, losses;
      }
      RunStep(step, before, after, totalLoss, remaining, lossEpsilon, losses);
      losses := losses + [totalLoss];
      epoch := epoch + 1;
      remaining := remaining - 1;
    }
    RunDone(step, upsilon.Values(), remaining, lossEpsilon, losses);
    ok := true;
  }

  /** InductiveFit: None where the source throws, on an empty input or in an
      epoch on a segment of length 0; otherwise a new segment whose values are those
      of FitRun, and the losses of the epochs that ran. */
  method InductiveFit(num: Numerics, inputs: seq<real>, targets: seq<real>, fixedEndX: real, fixedEndY: real,
                      lr: real, epochs: int, loss: (real, real) -> real, grads: (Task, Params) -> Grads,
                      lossEpsilon: real, penalty: real)
    returns (r: Option<Paravector2D>, ghost losses: seq<real>)
    requires |inputs| == |targets|
    ensures |inputs| == 0 ==> r.None?
    ensures r.None? <==> FitRun(num, inputs, targets, fixedEndX, fixedEndY, lr, epochs, loss, grads, lossEpsilon, penalty).None?
    ensures r.Some? ==> (
      var run := FitRun(num, inputs, targets, fixedEndX, fixedEndY, lr, epochs, loss, grads, lossEpsilon, penalty);
      && fresh(r.value) && run.Some?
      && r.value.Values() == run.value.0 && losses == run.value.1
      && r.value.Gradients() == NoGrads)
  {
    if |inputs| == 0 {
      return None, [];
    }
    var startX, startY := inputs[0], targets[0];
    var upsilon := new Paravector2D(FromVectorDifference(num, startX, startY, fixedEndX, fixedEndY));
    var task := Task(inputs, targets, startX, startY, fixedEndX, fixedEndY, penalty);
    EpochStepIs(num, task, lr, loss, grads);
    var ok;
    ok, losses := Train(num, upsilon, task, lr, epochs, loss, grads, lossEpsilon, EpochStep(num, task, lr, loss, grads));
    r := if ok then Some(upsilon) else None;
  }
}
