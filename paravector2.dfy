/**
 * Paravector2: one segment of a Chain2, with degenerate-case shortcuts in
 * GlobalX and a clamped, position-scaled gradient step.
 */
module Segments2 {
  import opened Numerics
  import opened Curve

  /** The `1e-8` both degenerate-case tests compare against. */
  const Tiny: real := 0.00000001

  /** Which case GlobalX takes. The rotation test is signed: every segment
      whose sine is below Tiny, negative ones included, counts as unrotated. */
  datatype Case = NoRotation | NoCurvature | Rotated

  function CaseOf(num: Numerics, p: Params): Case {
    if num.sin(p.theta) < Tiny then NoRotation
    else if Abs(Slope(num, p)) < Tiny then NoCurvature
    else Rotated
  }

  /** The discriminant GlobalX takes the root of: a negative one is replaced
      by Epsilon. */
  function RootInput(num: Numerics, p: Params, x: real, h: real): (r: real)
    ensures r >= 0.0
    ensures Discriminant(QuadA(num, p), QuadB(num, p), x - h) >= 0.0
      ==> r == Discriminant(QuadA(num, p), QuadB(num, p), x - h)
  {
    var d := Discriminant(QuadA(num, p), QuadB(num, p), x - h);
    if d < 0.0 then Epsilon else d
  }

  /** The local coordinate GlobalX solves for: (-b - sqrt d) / (2a). */
  function LocalCoordinate(num: Numerics, p: Params, x: real, h: real): real {
    FDiv(num, -QuadB(num, p) - num.sqrt(RootInput(num, p, x, h)), 2.0 * QuadA(num, p))
  }

  /** GlobalX(x, h, k): the height of the segment anchored at (h, k) above x. */
  function GlobalX(num: Numerics, p: Params, x: real, h: real, k: real): real {
    match CaseOf(num, p)
    case NoRotation => k + LocalX(num, p, x - h)
    case NoCurvature => k + FDiv(num, x - h, num.cos(p.theta)) * num.sin(p.theta)
    case Rotated =>
      var u := LocalCoordinate(num, p, x, h);
      k + u * num.sin(p.theta) + LocalX(num, p, u) * num.cos(p.theta)
  }

  /** When the discriminant is not negative and the square root exact, the
      local coordinate u GlobalX solves for lands exactly above x, and GlobalX
      is the height of the rotated curve at u: it is the curve's height at x. */
  lemma RotatedAboveX(num: Numerics, p: Params, x: real, h: real, k: real)
    requires CaseOf(num, p) == Rotated
    requires var d := Discriminant(QuadA(num, p), QuadB(num, p), x - h);
      d >= 0.0 && num.sqrt(d) * num.sqrt(d) == d
    ensures var u := LocalCoordinate(num, p, x, h);
      h + Across(num, p, u) == x && GlobalX(num, p, x, h, k) == k + Up(num, p, u)
  {
    RotatedQuadratic(num, p);
    var a, b := QuadA(num, p), QuadB(num, p);
    var d := Discriminant(a, b, x - h);
    var root := num.sqrt(d);
    var u := LocalCoordinate(num, p, x, h);
    assert u == (-b - root) / (2.0 * a);
    QuadraticRoot(a, b, x - h, root);
    QuadraticIsAcross(num, p, x - h, u);
  }

  /** In the rotated case the quadratic really is one: a = m * sin Theta is
      not zero. */
  lemma RotatedQuadratic(num: Numerics, p: Params)
    requires CaseOf(num, p) == Rotated
    ensures QuadA(num, p) != 0.0
  {
    var m, s := Slope(num, p), num.sin(p.theta);
    assert s >= Tiny && Abs(m) >= Tiny;
    assert m != 0.0 && s != 0.0;
    assert QuadA(num, p) == m * s;
  }

  /** A negative discriminant does not stop GlobalX: the root of Epsilon is
      taken instead. */
  lemma NegativeDiscriminant(num: Numerics, p: Params, x: real, h: real)
    requires Discriminant(QuadA(num, p), QuadB(num, p), x - h) < 0.0
    ensures LocalCoordinate(num, p, x, h)
      == FDiv(num, -QuadB(num, p) - num.sqrt(Epsilon), 2.0 * QuadA(num, p))
  {
  }

  /** The rotation test is signed: every segment whose sine is not positive
      is evaluated as the unrotated parabola, whatever its Theta. */
  lemma SignedRotationTest(num: Numerics, p: Params, theta': real, x: real, h: real, k: real)
    requires num.sin(p.theta) <= 0.0 && num.sin(theta') <= 0.0
    ensures GlobalX(num, p, x, h, k) == GlobalX(num, p.(theta := theta'), x, h, k) == k + LocalX(num, p, x - h)
  {
    assert Slope(num, p.(theta := theta')) == Slope(num, p);
  }

  /** A straight segment (m = 0) whose cosine is not zero is evaluated on the
      rotated line through the anchor. */
  lemma StraightOnLine(num: Numerics, p: Params, x: real, h: real, k: real)
    requires CaseOf(num, p) == NoCurvature && Slope(num, p) == 0.0 && num.cos(p.theta) != 0.0
    ensures var u := (x - h) / num.cos(p.theta);
      h + Across(num, p, u) == x && GlobalX(num, p, x, h, k) == k + Up(num, p, u)
  {
  }

  /** Both degenerate cases pass through their anchor. */
  lemma DegenerateThroughAnchor(num: Numerics, p: Params, h: real, k: real)
    requires CaseOf(num, p) == NoRotation || (CaseOf(num, p) == NoCurvature && num.cos(p.theta) != 0.0)
    ensures GlobalX(num, p, h, h, k) == k
  {
  }

  /** FromVector(x, y): length hypot(x, y), direction atan2(y, x), and Beta
      halfway between that direction and the vertical. */
  function FromVector(num: Numerics, x: real, y: real): (r: Params)
    ensures r.theta + 2.0 * r.beta == Pi / 2.0
    ensures r.alpha == num.sqrt(x * x + y * y) && r.theta == num.atan2(y, x)
  {
    var theta := num.atan2(y, x);
    Params(num.sqrt(x * x + y * y), theta, 0.5 * (Pi * 0.5 - theta))
  }

  /** FromVectorDifference: the segment from (x1, y1) towards (x2, y2). */
  function FromVectorDifference(num: Numerics, x1: real, y1: real, x2: real, y2: real): (r: Params)
    ensures var dx, dy := x2 - x1, y2 - y1;
      r.alpha == num.sqrt(dx * dx + dy * dy) && r.theta == num.atan2(dy, dx)
    ensures r.theta + 2.0 * r.beta == Pi / 2.0
  {
    FromVector(num, x2 - x1, y2 - y1)
  }

  /** lr = baseLR * (1 - 0.5 * index / total): the step shrinks along the chain. */
  function LearningRate(num: Numerics, baseLR: real, index: int, total: int): real {
    baseLR * (1.0 - 0.5 * FDiv(num, index as real, total as real))
  }

  /** For a segment inside the chain the rate lies in (baseLR / 2, baseLR]
      and does not grow with the position. */
  lemma LearningRateDecays(num: Numerics, baseLR: real, index: int, index': int, total: int)
    requires baseLR > 0.0 && 0 <= index <= index' < total
    ensures 0.5 * baseLR < LearningRate(num, baseLR, index, total) <= baseLR
    ensures LearningRate(num, baseLR, index', total) <= LearningRate(num, baseLR, index, total)
  {
    var t := total as real;
    var q, q' := FDiv(num, index as real, t), FDiv(num, index' as real, t);
    assert q * t == index as real && q' * t == index' as real;
    if q >= 1.0 {
      MulLeq(1.0, q, t);
    }
    if q < 0.0 {
      NegTimesPos(q, t);
    }
    if q' < q {
      MulLeq(q', q, t);
    }
  }

  lemma NegTimesPos(a: real, b: real)
    requires a < 0.0 && b > 0.0
    ensures a * b < 0.0
  {
  }

  lemma MulLeq(a: real, b: real, c: real)
    requires a <= b && c > 0.0
    ensures a * c <= b * c
  {
  }

  /** The rates Chain2.Fit passes to Update. */
  datatype Rates = Rates(base: real, alpha: real, theta: real, beta: real)

  /** The unclamped step: each value moves against its gradient, scaled by
      its own rate and by the position-dependent learning rate. */
  function Step(p: Params, g: Grads, rates: Rates, lr: real): (r: Params)
    ensures p.alpha - r.alpha == rates.alpha * lr * g.alpha
    ensures p.theta - r.theta == rates.theta * lr * g.theta
    ensures p.beta - r.beta == rates.beta * lr * g.beta
  {
    Params(p.alpha - rates.alpha * lr * g.alpha,
           p.theta - rates.theta * lr * g.theta,
           p.beta - rates.beta * lr * g.beta)
  }

  /** The clamps of Update, in order: a negative Alpha becomes 0.01; a Theta
      above pi/2 becomes pi - 0.01 and one below -pi/2 becomes -pi + 0.01;
      then Beta is cut so that Theta + Beta <= pi. */
  function Clamp(p: Params): (r: Params)
    ensures r.alpha >= 0.0 && (p.alpha >= 0.0 ==> r.alpha == p.alpha)
    ensures -Pi / 2.0 <= p.theta <= Pi / 2.0 ==> r.theta == p.theta
    ensures p.theta > Pi / 2.0 ==> r.theta == Pi - BiggerEpsilon
    ensures p.theta < -Pi / 2.0 ==> r.theta == -Pi + BiggerEpsilon
    ensures r.theta + r.beta <= Pi
    ensures r.theta + p.beta <= Pi ==> r.beta == p.beta
  {
    var alpha := if p.alpha < 0.0 then BiggerEpsilon else p.alpha;
    var theta := if p.theta > Pi / 2.0 then Pi - BiggerEpsilon else p.theta;
    var theta' := if theta < -Pi / 2.0 then -Pi + BiggerEpsilon else theta;
    var beta := if theta' + p.beta > Pi then Pi - theta' else p.beta;
    Params(alpha, theta', beta)
  }

  /** The clamp sends a Theta above pi/2 to pi - 0.01, further from the range
      it tests than the value it replaces whenever that value is below
      pi - 0.01. */
  lemma ThetaClampLeavesRange(p: Params)
    requires Pi / 2.0 < p.theta
    ensures Clamp(p).theta > Pi / 2.0
  {
  }

  /** A segment: the values and gradients of its Alpha, Theta and Beta. */
  class Paravector2 {
    var alpha: real
    var theta: real
    var beta: real
    var alphaGrad: real
    var thetaGrad: real
    var betaGrad: real

    /** new Paravector2(alpha, theta, beta): fresh scalars with zero gradients. */
    constructor (p: Params)
      ensures Values() == p && Gradients() == NoGrads
    {
      alpha, theta, beta := p.alpha, p.theta, p.beta;
      alphaGrad, thetaGrad, betaGrad := 0.0, 0.0, 0.0;
    }

    function Values(): Params
      reads this
    {
      Params(alpha, theta, beta)
    }

    function Gradients(): Grads
      reads this
    {
      Grads(alphaGrad, thetaGrad, betaGrad)
    }

    /** A backward pass adding `d` into the three gradients. */
    method Accumulate(d: Grads)
      modifies this
      ensures Values() == old(Values()) && Gradients() == AddGrads(old(Gradients()), d)
    {
      alphaGrad := alphaGrad + d.alpha;
      thetaGrad := thetaGrad + d.theta;
      betaGrad := betaGrad + d.beta;
    }

    method ZeroGrad()
      modifies this
      ensures Values() == old(Values()) && Gradients() == NoGrads
    {
      alphaGrad, thetaGrad, betaGrad := 0.0, 0.0, 0.0;
    }

    /** Update(baseLR, alphaLR, thetaLR, betaLR, index, total). */
    method Update(num: Numerics, rates: Rates, index: int, total: int)
      modifies this
      ensures Values() == Clamp(Step(old(Values()), old(Gradients()), rates, LearningRate(num, rates.base, index, total)))
      ensures Gradients() == NoGrads
    {
      var lr := rates.base * (1.0 - 0.5 * FDiv(num, index as real, total as real));
      alpha := alpha - rates.alpha * lr * alphaGrad;
      theta := theta - rates.theta * lr * thetaGrad;
      beta := beta - rates.beta * lr * betaGrad;
      ghost var stepped := Values();
      assert stepped == Step(old(Values()), old(Gradients()), rates, LearningRate(num, rates.base, index, total));
      if alpha < 0.0 {
        alpha := BiggerEpsilon;
      }
      if theta > Pi / 2.0 {
        theta := Pi - BiggerEpsilon;
      }
      if theta < -Pi / 2.0 {
        theta := -Pi + BiggerEpsilon;
      }
      if theta + beta > Pi {
        beta := Pi - theta;
      }
      assert Values() == Clamp(stepped);
      ZeroGrad();
    }
  }
}
