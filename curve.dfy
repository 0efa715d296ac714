/**
 * What Paravector2 and Paravector2D share: a segment is a parabola of
 * length Alpha, bent by Beta and rotated by Theta about its start point.
 *
 * In its own frame the segment is the curve u |-> (u, LocalX(u)) for
 * u from 0 to Alpha. GlobalX rotates that frame by Theta about the anchor
 * (h, k): the local point u lands at (h + Across(u), k + Up(u)).
 */
module Curve {
  import opened Numerics

  /** The values of a segment's Alpha, Theta and Beta scalars. */
  datatype Params = Params(alpha: real, theta: real, beta: real)

  /** The gradients accumulated on Alpha, Theta and Beta. */
  datatype Grads = Grads(alpha: real, theta: real, beta: real)

  const NoGrads: Grads := Grads(0.0, 0.0, 0.0)

  /** Adds two gradient triples, as successive `Grad +=` do. */
  function AddGrads(g: Grads, d: Grads): (r: Grads)
    ensures r.alpha - g.alpha == d.alpha && r.theta - g.theta == d.theta && r.beta - g.beta == d.beta
  {
    Grads(g.alpha + d.alpha, g.theta + d.theta, g.beta + d.beta)
  }

  /** Accumulating onto zeroed gradients gives the delivered ones. */
  lemma AddToNoGrads(d: Grads)
    ensures AddGrads(NoGrads, d) == d
  {
  }

  /** The width Alpha * cos Theta a segment covers on the x axis. */
  function Span(num: Numerics, p: Params): real {
    p.alpha * num.cos(p.theta)
  }

  /** The spans of a chain's segments, in order. */
  function Spans(num: Numerics, ps: seq<Params>): (r: seq<real>)
    ensures |r| == |ps|
  {
    seq(|ps|, i requires 0 <= i < |ps| => Span(num, ps[i]))
  }

  /** m = tan(-Beta) / Alpha. */
  function Slope(num: Numerics, p: Params): real {
    FDiv(num, num.tan(-p.beta), p.alpha)
  }

  /** LocalX: the parabola m * x * (x - Alpha), which meets the segment's
      chord at both ends. */
  function LocalX(num: Numerics, p: Params, x: real): (r: real)
    ensures x == 0.0 ==> r == 0.0
    ensures x == p.alpha ==> r == 0.0
  {
    Slope(num, p) * x * (x - p.alpha)
  }

  /** Horizontal offset from the anchor of local point u after rotation by Theta. */
  function Across(num: Numerics, p: Params, u: real): real {
    u * num.cos(p.theta) - LocalX(num, p, u) * num.sin(p.theta)
  }

  /** Vertical offset from the anchor of local point u after rotation by Theta. */
  function Up(num: Numerics, p: Params, u: real): real {
    u * num.sin(p.theta) + LocalX(num, p, u) * num.cos(p.theta)
  }

  /** The coefficients GlobalX builds: a*u^2 + b*u + c = (x - h) - Across(u). */
  function QuadA(num: Numerics, p: Params): real {
    Slope(num, p) * num.sin(p.theta)
  }

  function QuadB(num: Numerics, p: Params): real {
    -(num.cos(p.theta) + Slope(num, p) * p.alpha * num.sin(p.theta))
  }

  /** b.Square() - four * a * c. */
  function Discriminant(a: real, b: real, c: real): real {
    b * b - 4.0 * a * c
  }

  /** The quadratic is the rotated curve's horizontal equation. */
  lemma QuadraticIsAcross(num: Numerics, p: Params, c: real, u: real)
    ensures QuadA(num, p) * u * u + QuadB(num, p) * u + c == c - Across(num, p, u)
  {
    var m, s, co := Slope(num, p), num.sin(p.theta), num.cos(p.theta);
    calc {
      QuadA(num, p) * u * u + QuadB(num, p) * u + c;
      m * s * u * u - (co + m * p.alpha * s) * u + c;
      c - (u * co - (m * u * (u - p.alpha)) * s);
      c - Across(num, p, u);
    }
  }

  /** The smaller-sign root (-b - sqrt d) / (2a) of a*u^2 + b*u + c solves it
      whenever the square root is exact. */
  lemma QuadraticRoot(a: real, b: real, c: real, root: real)
    requires a != 0.0 && root * root == Discriminant(a, b, c)
    ensures var u := (-b - root) / (2.0 * a); a * u * u + b * u + c == 0.0
  {
    var u := (-b - root) / (2.0 * a);
    assert 2.0 * a * u == -b - root;
    calc {
      4.0 * a * (a * u * u + b * u + c);
      (2.0 * a * u) * (2.0 * a * u) + 2.0 * b * (2.0 * a * u) + 4.0 * a * c;
      (-b - root) * (-b - root) + 2.0 * b * (-b - root) + 4.0 * a * c;
      root * root - b * b + 4.0 * a * c;
      0.0;
    }
  }
}
