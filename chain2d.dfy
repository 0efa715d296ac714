/**
 * Chain2D: a list of Paravector2D segments whose anchors are chained, so
 * that each segment starts where the previous one ends, and the two ways
 * of building one from samples.
 *
 * DomainLength, DomainLengthScalar, SetupBoundaries and both
 * GetRelevantParavector overloads are the same code as Chain2's and are the
 * Domain module's members and Chains2.DomainLengthScalar. What is Chain2D's
 * own: Evaluate carries (currentH, currentK) from segment to segment;
 * InductiveDescent fits one segment per slice of the samples, right to
 * left, each towards the start of the one after it; InductiveExploration
 * runs InductiveDescent with noisy settings and keeps the best candidate.
 */
module Chains2D {
  import opened Wrappers
  import opened Numerics
  import opened Curve
  import opened Segments2D
  import opened Domain
  import opened Training

  // ---------------------------------------------------------------------------
  // Evaluate with chained anchors
  // ---------------------------------------------------------------------------

  /** The x anchor of segment i: h plus the spans before it. */
  function AnchorH(num: Numerics, ps: seq<Params>, h: real, i: nat): real
    requires i <= |ps|
  {
    h + Sum(Spans(num, ps)[..i])
  }

  /** The y anchor of segment i: k for the first; for the others the
      previous segment's GlobalX at its own end, from its own anchor. */
  function AnchorK(num: Numerics, ps: seq<Params>, h: real, k: real, i: nat): real
    requires i <= |ps|
    decreases i
  {
    if i == 0 then k
    else GlobalX(num, ps[i - 1], AnchorH(num, ps, h, i), AnchorH(num, ps, h, i - 1), AnchorK(num, ps, h, k, i - 1))
  }

  /** Past the last segment: the last segment anchored at the end of the
      domain and the last anchor height; nothing on an empty chain. */
  function EvaluatePast(num: Numerics, ps: seq<Params>, x: real, h: real, k: real): Option<real> {
    if ps == [] then None
    else Some(GlobalX(num, ps[|ps| - 1], x, AnchorH(num, ps, h, |ps|), AnchorK(num, ps, h, k, |ps|)))
  }

  /** The loop of Evaluate(x, h, k) from segment i on: the first segment whose
      interval holds x is evaluated from its chained anchor. */
  function EvaluateFrom(num: Numerics, ps: seq<Params>, x: real, h: real, k: real, i: nat): Option<real>
    requires i <= |ps|
    decreases |ps| - i
  {
    if i == |ps| then EvaluatePast(num, ps, x, h, k)
    else
      var current := AnchorH(num, ps, h, i);
      if current <= x && x < current + Span(num, ps[i]) then Some(GlobalX(num, ps[i], x, current, AnchorK(num, ps, h, k, i)))
      else EvaluateFrom(num, ps, x, h, k, i + 1)
  }

  /** Evaluate(x, h, k) on the segments' values. */
  function EvaluateChained(num: Numerics, ps: seq<Params>, x: real, h: real, k: real): Option<real> {
    EvaluateFrom(num, ps, x, h, k, 0)
  }

  /** What the segment found by the boundaries evaluates to. */
  function EvaluateFound(num: Numerics, ps: seq<Params>, x: real, h: real, k: real, found: Option<nat>): Option<real>
    requires found.Some? ==> found.value < |ps|
  {
    match found
    case Some(j) => Some(GlobalX(num, ps[j], x, AnchorH(num, ps, h, j), AnchorK(num, ps, h, k, j)))
    case None => EvaluatePast(num, ps, x, h, k)
  }

  /** The anchors the loop carries are the boundaries' starts. */
  lemma AnchorIsStart(num: Numerics, ps: seq<Params>, h: real, i: nat)
    requires i < |ps|
    ensures Boundaries(Spans(num, ps), h)[i].start == AnchorH(num, ps, h, i)
    ensures Boundaries(Spans(num, ps), h)[i].end == AnchorH(num, ps, h, i + 1) == AnchorH(num, ps, h, i) + Span(num, ps[i])
  {
    SumNext(Spans(num, ps), i);
  }

  /** One step of the anchors: segment i ends one span after it starts, and
      the next anchor height is where segment i gets there. */
  lemma AnchorStep(num: Numerics, ps: seq<Params>, h: real, k: real, i: nat)
    requires i < |ps|
    ensures AnchorH(num, ps, h, i + 1) == AnchorH(num, ps, h, i) + Span(num, ps[i])
    ensures AnchorK(num, ps, h, k, i + 1) == GlobalX(num, ps[i], AnchorH(num, ps, h, i + 1), AnchorH(num, ps, h, i), AnchorK(num, ps, h, k, i))
  {
    SumNext(Spans(num, ps), i);
  }

  /** The loop picks the same segment as SetupBoundaries(h) looked up. */
  lemma {:induction false} EvaluateFromFound(num: Numerics, ps: seq<Params>, x: real, h: real, k: real, i: nat)
    requires i <= |ps|
    ensures EvaluateFrom(num, ps, x, h, k, i) == EvaluateFound(num, ps, x, h, k, PositionFrom(x, Boundaries(Spans(num, ps), h), i))
    decreases |ps| - i
  {
    if i < |ps| {
      AnchorIsStart(num, ps, h, i);
      EvaluateFromFound(num, ps, x, h, k, i + 1);
    }
  }

  /** A chain with a segment always evaluates. */
  lemma EvaluateChainedDefined(num: Numerics, ps: seq<Params>, x: real, h: real, k: real)
    ensures EvaluateChained(num, ps, x, h, k).None? <==> ps == []
  {
    EvaluateFromFound(num, ps, x, h, k, 0);
  }

  /** Where x lies in the interval of segment j (spans positive), the chain is
      segment j anchored at the end of the segments before it. */
  lemma EvaluateChainedOnSegment(num: Numerics, ps: seq<Params>, x: real, h: real, k: real, j: nat)
    requires forall i :: 0 <= i < |ps| ==> Span(num, ps[i]) > 0.0
    requires j < |ps| && Holds(Boundaries(Spans(num, ps), h)[j], x)
    ensures EvaluateChained(num, ps, x, h, k) == Some(GlobalX(num, ps[j], x, AnchorH(num, ps, h, j), AnchorK(num, ps, h, k, j)))
  {
    var spans := Spans(num, ps);
    var bs := Boundaries(spans, h);
    EvaluateFromFound(num, ps, x, h, k, 0);
    var r := PositionFrom(x, bs, 0).value;
    if r < j {
      BoundariesIncreasing(spans, h, r, j);
    }
  }

  /** Outside [h, h + DomainLength) (spans not negative) the last segment is
      evaluated from the end of the domain and the last anchor height, not
      from its own start. */
  lemma EvaluateChainedOutside(num: Numerics, ps: seq<Params>, x: real, h: real, k: real)
    requires forall i :: 0 <= i < |ps| ==> Span(num, ps[i]) >= 0.0
    requires ps != [] && (x < h || x >= h + Sum(Spans(num, ps)))
    ensures AnchorH(num, ps, h, |ps|) == h + Sum(Spans(num, ps))
    ensures EvaluateChained(num, ps, x, h, k)
      == Some(GlobalX(num, ps[|ps| - 1], x, AnchorH(num, ps, h, |ps|), AnchorK(num, ps, h, k, |ps|)))
  {
    var spans := Spans(num, ps);
    var bs := Boundaries(spans, h);
    assert spans[..|ps|] == spans;
    forall j | 0 <= j < |bs| ensures !Holds(bs[j], x) {
      SumNonDecreasing(spans, 0, j);
      SumNonDecreasing(spans, j + 1, |spans|);
      assert spans[..0] == [];
    }
    EvaluateFromFound(num, ps, x, h, k, 0);
  }

  /** Continuity: at the start of segment i + 1 the chain takes the value
      segment i reaches at its own end, provided segment i + 1 starts at its
      anchor (see StartsAtAnchor). */
  lemma EvaluateChainedContinuous(num: Numerics, ps: seq<Params>, h: real, k: real, i: nat)
    requires forall j :: 0 <= j < |ps| ==> Span(num, ps[j]) > 0.0
    requires i + 1 < |ps|
    requires ShiftedA(num, ps[i + 1]) != 0.0
    requires num.sqrt(Discriminant(ShiftedA(num, ps[i + 1]), QuadB(num, ps[i + 1]), 0.0)) == -QuadB(num, ps[i + 1])
    ensures var x := AnchorH(num, ps, h, i + 1);
      EvaluateChained(num, ps, x, h, k) == Some(GlobalX(num, ps[i], x, AnchorH(num, ps, h, i), AnchorK(num, ps, h, k, i)))
  {
    var x := AnchorH(num, ps, h, i + 1);
    AnchorIsStart(num, ps, h, i + 1);
    EvaluateChainedOnSegment(num, ps, x, h, k, i + 1);
    StartsAtAnchor(num, ps[i + 1], x, AnchorK(num, ps, h, k, i + 1));
  }

  // ---------------------------------------------------------------------------
  // InductiveDescent as functions on the segments' values
  // ---------------------------------------------------------------------------

  /** The arguments of InductiveDescent; `grads` gives what Backward delivers
      to a segment (see Segments2D.Epoch). */
  datatype Descent = Descent(inputs: seq<real>, targets: seq<real>, total: int, lr: real, epochs: int,
                             loss: (real, real) -> real, grads: (Task, Params) -> Grads, lossEpsilon: real)

  /** endIndex of segment i: n - 1 - (total - 1 - i) * n / total (see
      IndicesAsWritten). */
  function EndIndex(n: nat, total: nat, i: nat): int
    requires i < total
  {
    n - 1 - Quot(Product(total - 1 - i, n), total)
  }

  /** startIndex of segment i: 0 for the first, n - 1 - (total - i) * n / total
      for the others. */
  function StartIndex(n: nat, total: nat, i: nat): int
    requires i < total
  {
    if i == 0 then 0 else n - 1 - Quot(Product(total - i, n), total)
  }

  /** The indices are the source's integer expressions. */
  lemma IndicesAsWritten(n: nat, total: nat, i: nat)
    requires i < total
    ensures EndIndex(n, total, i) == n - 1 - (total - 1 - i) * n / total
    ensures i > 0 ==> StartIndex(n, total, i) == n - 1 - (total - i) * n / total
  {
    ProductIsMul(total - 1 - i, n);
    QuotIsDiv(Product(total - 1 - i, n), total);
    ProductIsMul(total - i, n);
    QuotIsDiv(Product(total - i, n), total);
  }

  /** The slices partition the samples: the first starts at sample 0, each
      starts where the previous one ends, the last ends at the last sample,
      and every slice is an ordered pair of valid indices. */
  lemma DescentSlices(n: nat, total: nat)
    requires n > 0 && total > 0
    ensures StartIndex(n, total, 0) == 0 && EndIndex(n, total, total - 1) == n - 1
    ensures forall i :: 0 < i < total ==> StartIndex(n, total, i) == EndIndex(n, total, i - 1)
    ensures forall i :: 0 <= i < total ==> 0 <= StartIndex(n, total, i) <= EndIndex(n, total, i) <= n - 1
  {
    forall i | 0 <= i < total
      ensures 0 <= StartIndex(n, total, i) <= EndIndex(n, total, i) <= n - 1
    {
      SliceInRange(n, total, i);
    }
  }

  lemma SliceInRange(n: nat, total: nat, i: nat)
    requires n > 0 && i < total
    ensures 0 <= StartIndex(n, total, i) <= EndIndex(n, total, i) <= n - 1
  {
    var a := total - 1 - i;
    IndicesAsWritten(n, total, i);
    DivBelow(a, n, total);
    if i > 0 {
      DivBelow(a + 1, n, total);
      MulMono(a, a + 1, n);
      DivMono(a * n, (a + 1) * n, total);
    }
  }

  /** The segment fitted to slice i towards the fixed end (endX, endY):
      InductiveFit with the default penalty, which throws on an empty slice. */
  function SegmentFit(num: Numerics, d: Descent, i: nat, endX: real, endY: real): Option<Params>
    requires 0 < |d.inputs| == |d.targets| && i < d.total
  {
    SliceInRange(|d.inputs|, d.total, i);
    var s, e := StartIndex(|d.inputs|, d.total, i), EndIndex(|d.inputs|, d.total, i);
    match FitRun(num, d.inputs[s..e], d.targets[s..e], endX, endY, d.lr, d.epochs, d.loss, d.grads, d.lossEpsilon, DefaultPenalty)
    case None => None
    case Some((p, _)) => Some(p)
  }

  /** A slice fails to fit exactly when it is empty (InductiveFit reads its
      first sample) or when one of InductiveFit's epochs throws on it, which
      needs at least one epoch. */
  lemma SegmentFitFails(num: Numerics, d: Descent, i: nat, endX: real, endY: real)
    requires 0 < |d.inputs| == |d.targets| && i < d.total
    ensures 0 <= StartIndex(|d.inputs|, d.total, i) <= EndIndex(|d.inputs|, d.total, i) < |d.inputs|
    ensures var s, e := StartIndex(|d.inputs|, d.total, i), EndIndex(|d.inputs|, d.total, i);
      SegmentFit(num, d, i, endX, endY).None?
      <==> s == e || (d.epochs > 0 && FitRun(num, d.inputs[s..e], d.targets[s..e], endX, endY, d.lr, d.epochs,
                                             d.loss, d.grads, d.lossEpsilon, DefaultPenalty).None?)
  {
    SliceInRange(|d.inputs|, d.total, i);
  }

  /** A non-empty slice whose first sample repeats the sample it is fitted
      towards fails as soon as an epoch is asked for: its chord has length 0. */
  lemma RepeatedSampleFails(num: Numerics, d: Descent, i: nat)
    requires 0 < |d.inputs| == |d.targets| && i < d.total && d.epochs > 0
    requires num.sqrt(0.0) == 0.0
    requires var s, e := StartIndex(|d.inputs|, d.total, i), EndIndex(|d.inputs|, d.total, i);
      0 <= s < e <= |d.inputs| && (d.inputs[s], d.targets[s]) == FixedEnd(d, i)
    ensures SegmentFit(num, d, i, FixedEnd(d, i).0, FixedEnd(d, i).1).None?
  {
    SliceInRange(|d.inputs|, d.total, i);
    var s, e := StartIndex(|d.inputs|, d.total, i), EndIndex(|d.inputs|, d.total, i);
    var (endX, endY) := FixedEnd(d, i);
    SeedAtFixedEnd(num, d.inputs[s..e], d.targets[s..e], endX, endY, d.lr, d.epochs,
                   d.loss, d.grads, d.lossEpsilon, DefaultPenalty);
  }

  /** The fixed end segment i is fitted towards: the last sample for the
      last segment, the first sample of the next slice for the others. */
  function FixedEnd(d: Descent, i: nat): (real, real)
    requires 0 < |d.inputs| == |d.targets| && i < d.total
  {
    var n := |d.inputs|;
    if i == d.total - 1 then (d.inputs[n - 1], d.targets[n - 1])
    else
      SliceInRange(n, d.total, i + 1);
      var s := StartIndex(n, d.total, i + 1);
      (d.inputs[s], d.targets[s])
  }

  /** Each slice but the last is fitted towards where the next one starts. */
  lemma FixedEndNext(d: Descent, i: nat)
    requires 0 < |d.inputs| == |d.targets| && 0 < i < d.total
    ensures 0 <= StartIndex(|d.inputs|, d.total, i) < |d.inputs|
    ensures FixedEnd(d, i - 1) == (d.inputs[StartIndex(|d.inputs|, d.total, i)], d.targets[StartIndex(|d.inputs|, d.total, i)])
  {
    SliceInRange(|d.inputs|, d.total, i);
  }

  /** SegmentFit as a function of (i, endX, endY); None outside the slices. */
  function SliceFit(num: Numerics, d: Descent): (nat, real, real) -> Option<Params> {
    (i: nat, endX: real, endY: real) =>
      if 0 < |d.inputs| == |d.targets| && i < d.total then SegmentFit(num, d, i, endX, endY) else None
  }

  /** The fits of slices 0 .. m - 1, each towards its fixed end. */
  function Fits(fit: (nat, real, real) -> Option<Params>, d: Descent, m: nat): (r: seq<Option<Params>>)
    requires 0 < |d.inputs| == |d.targets| && (m == 0 || m <= d.total)
    ensures |r| == m
  {
    if m == 0 then []
    else Fits(fit, d, m - 1) + [fit(m - 1, FixedEnd(d, m - 1).0, FixedEnd(d, m - 1).1)]
  }

  lemma {:induction false} FitsAt(fit: (nat, real, real) -> Option<Params>, d: Descent, m: nat, j: nat)
    requires 0 < |d.inputs| == |d.targets| && (m == 0 || m <= d.total) && j < m
    ensures Fits(fit, d, m)[j] == fit(j, FixedEnd(d, j).0, FixedEnd(d, j).1)
  {
    var prefix := Fits(fit, d, m - 1);
    assert Fits(fit, d, m)[..m - 1] == prefix;
    if j < m - 1 {
      FitsAt(fit, d, m - 1, j);
    }
  }

  /** The number of slices: `total`, or none when it is not positive. */
  function Slices(d: Descent): nat {
    if d.total < 0 then 0 else d.total
  }

  /** The loop of InductiveDescent from segment i down: prepend the fit of
      slice i, stopping at the first slice that fails. */
  function Descend(fits: seq<Option<Params>>, i: int, acc: seq<Params>): Option<seq<Params>>
    requires i < |fits|
    decreases i + 1
  {
    if i < 0 then Some(acc)
    else
      match fits[i]
      case None => None
      case Some(p) => Descend(fits, i - 1, [p] + acc)
  }

  /** InductiveDescent with `fit` fitting one slice: None where the source
      indexes an empty input or fits an empty slice; otherwise the segments,
      left to right. */
  function DescentWith(fit: (nat, real, real) -> Option<Params>, d: Descent): Option<seq<Params>>
    requires |d.inputs| == |d.targets|
  {
    if |d.inputs| == 0 then None
    else Descend(Fits(fit, d, Slices(d)), d.total - 1, [])
  }

  /** InductiveDescent, each slice fitted with InductiveFit. */
  function DescentRun(num: Numerics, d: Descent): Option<seq<Params>>
    requires |d.inputs| == |d.targets|
  {
    DescentWith(SliceFit(num, d), d)
  }

  /** `fit` is SegmentFit on the slices: the form the loop of InductiveDescent
      works with, so that the fits it does not reach are never unfolded. */
  ghost predicate FitIs(fit: (nat, real, real) -> Option<Params>, num: Numerics, d: Descent) {
    forall i: nat, x: real, y: real {:trigger SegmentFit(num, d, i, x, y)} ::
      0 < |d.inputs| == |d.targets| && i < d.total ==> fit(i, x, y) == SegmentFit(num, d, i, x, y)
  }

  lemma SliceFitIs(num: Numerics, d: Descent)
    ensures FitIs(SliceFit(num, d), num, d)
  {
  }

  lemma DescendStep(fits: seq<Option<Params>>, i: nat, acc: seq<Params>, p: Params)
    requires i < |fits| && fits[i] == Some(p)
    ensures Descend(fits, i, acc) == Descend(fits, i - 1, [p] + acc)
  {
  }

  lemma {:induction false} DescendShape(fits: seq<Option<Params>>, i: int, acc: seq<Params>)
    requires i < |fits|
    ensures var r := Descend(fits, i, acc);
      && (r.Some? <==> forall j :: 0 <= j <= i ==> fits[j].Some?)
      && (r.Some? ==> (
        && |r.value| == (if i < 0 then 0 else i + 1) + |acc|
        && r.value[|r.value| - |acc|..] == acc
        && forall j :: 0 <= j <= i ==> fits[j] == Some(r.value[j])))
    decreases i + 1
  {
    if i >= 0 && fits[i].Some? {
      var acc' := [fits[i].value] + acc;
      DescendShape(fits, i - 1, acc');
      var r := Descend(fits, i - 1, acc');
      if r.Some? {
        var rs := r.value;
        assert rs[|rs| - |acc'|..] == acc';
        assert rs[i] == acc'[0];
        assert rs[|rs| - |acc|..] == acc'[1..];
      }
    }
  }

  /** What InductiveDescent builds: `total` segments in left-to-right order,
      segment j the fit of slice j towards FixedEnd(j); it fails exactly when
      the input is empty or some slice fails to fit. */
  lemma DescentShape(num: Numerics, d: Descent)
    requires |d.inputs| == |d.targets|
    ensures var r := DescentRun(num, d);
      && (r.None? <==> (|d.inputs| == 0
            || exists j :: 0 <= j < d.total && SegmentFit(num, d, j, FixedEnd(d, j).0, FixedEnd(d, j).1).None?))
      && (r.Some? ==> (
        && |r.value| == (if d.total < 0 then 0 else d.total)
        && forall j :: 0 <= j < d.total ==> SegmentFit(num, d, j, FixedEnd(d, j).0, FixedEnd(d, j).1) == Some(r.value[j])))
  {
    if |d.inputs| > 0 {
      var fits := Fits(SliceFit(num, d), d, Slices(d));
      DescendShape(fits, d.total - 1, []);
      forall j | 0 <= j < d.total
        ensures fits[j] == SegmentFit(num, d, j, FixedEnd(d, j).0, FixedEnd(d, j).1)
      {
        FitsAt(SliceFit(num, d), d, Slices(d), j);
      }
    }
  }

  // ---------------------------------------------------------------------------
  // InductiveExploration as functions on the segments' values
  // ---------------------------------------------------------------------------

  /** The arguments of InductiveExploration; `refinementLoss` is absent when
      the caller passes none, and `rounds` is refinementEpochs. */
  datatype Exploration = Exploration(total: int, lr: real, epochs: int, inputs: seq<real>, targets: seq<real>,
                                     loss: (real, real) -> real, grads: (Task, Params) -> Grads,
                                     refinementLoss: Option<(real, real) -> real>, rounds: int, explorationRate: real)

  /** InductiveExploration's defaults: 10 rounds, exploration rate 0.4. */
  const DefaultRefinementEpochs: int := 10
  const DefaultExplorationRate: real := 0.4

  /** A setting scaled by 1 + (r - 0.5) * rate for a draw r. */
  function Noisy(x: real, r: real, rate: real): real {
    x * (1.0 + (r - 0.5) * rate)
  }

  /** The candidate of one round: InductiveDescent with the rate and the
      epoch count made noisy by the round's two draws, the epoch count cut
      towards zero, and the default lossEpsilon. */
  function Candidate(ex: Exploration, draw: (real, real)): (d: Descent)
    ensures d.inputs == ex.inputs && d.targets == ex.targets && d.total == ex.total
    ensures d.lossEpsilon == BiggerEpsilon
  {
    Descent(ex.inputs, ex.targets, ex.total, Noisy(ex.lr, draw.0, ex.explorationRate),
            Truncate(Noisy(ex.epochs as real, draw.1, ex.explorationRate)), ex.loss, ex.grads, BiggerEpsilon)
  }

  /** Draws of one half leave the settings as given; with draws in [0, 1]
      the rate stays within explorationRate / 2 of its relative size. */
  lemma CandidateNoise(ex: Exploration, draw: (real, real))
    ensures draw.0 == 0.5 ==> Candidate(ex, draw).lr == ex.lr
    ensures draw.1 == 0.5 ==> Candidate(ex, draw).epochs == ex.epochs
    ensures ex.lr >= 0.0 && 0.0 <= ex.explorationRate && 0.0 <= draw.0 <= 1.0 ==>
      ex.lr * (1.0 - ex.explorationRate / 2.0) <= Candidate(ex, draw).lr <= ex.lr * (1.0 + ex.explorationRate / 2.0)
  {
    var rate := ex.explorationRate;
    if draw.1 == 0.5 {
      assert Noisy(ex.epochs as real, draw.1, rate) == ex.epochs as real;
    }
    if ex.lr >= 0.0 && 0.0 <= rate && 0.0 <= draw.0 <= 1.0 {
      var f := 1.0 + (draw.0 - 0.5) * rate;
      assert 1.0 - rate / 2.0 <= f <= 1.0 + rate / 2.0 by {
        assert -0.5 <= draw.0 - 0.5 <= 0.5;
        MulBetween(draw.0 - 0.5, rate);
      }
      MulLeftMono(ex.lr, 1.0 - rate / 2.0, f);
      MulLeftMono(ex.lr, f, 1.0 + rate / 2.0);
    }
  }

  lemma MulBetween(t: real, rate: real)
    requires -0.5 <= t <= 0.5 && rate >= 0.0
    ensures -(rate / 2.0) <= t * rate <= rate / 2.0
  {
    if t >= 0.0 {
      assert t * rate <= 0.5 * rate;
    } else {
      assert (-t) * rate <= 0.5 * rate;
    }
  }

  lemma MulLeftMono(c: real, a: real, b: real)
    requires c >= 0.0 && a <= b
    ensures c * a <= c * b
  {
    assert c * b - c * a == c * (b - a);
  }

  /** The error of one prediction: refinementLoss when given, the squared
      difference otherwise. */
  function Error(refine: Option<(real, real) -> real>, predicted: real, target: real): (r: real)
    ensures refine.None? ==> r >= 0.0 && (r == 0.0 <==> predicted == target)
  {
    SquareSign(predicted - target);
    match refine
    case Some(f) => f(predicted, target)
    case None => Square(predicted - target)
  }

  /** The total loss of a candidate over the first m samples, each
      Evaluate(x) from (0, 0); None where an empty chain is evaluated. */
  function Score(num: Numerics, ps: seq<Params>, inputs: seq<real>, targets: seq<real>,
                 refine: Option<(real, real) -> real>, m: nat): Option<real>
    requires m <= |inputs| <= |targets|
  {
    if m == 0 then Some(0.0)
    else
      match Score(num, ps, inputs, targets, refine, m - 1)
      case None => None
      case Some(total) =>
        match EvaluateChained(num, ps, inputs[m - 1], 0.0, 0.0)
        case None => None
        case Some(predicted) => Some(total + Error(refine, predicted, targets[m - 1]))
  }

  /** Only an empty chain fails to score, and only when there is a sample. */
  lemma {:induction false} ScoreFails(num: Numerics, ps: seq<Params>, inputs: seq<real>, targets: seq<real>,
                                      refine: Option<(real, real) -> real>, m: nat)
    requires m <= |inputs| <= |targets|
    ensures Score(num, ps, inputs, targets, refine, m).None? <==> ps == [] && m > 0
  {
    if m > 0 {
      ScoreFails(num, ps, inputs, targets, refine, m - 1);
      EvaluateChainedDefined(num, ps, inputs[m - 1], 0.0, 0.0);
    }
  }

  /** Without a refinementLoss the score is a sum of squares: never
      negative, and zero exactly when the chain hits every sample. */
  lemma {:induction false} ScoreSquares(num: Numerics, ps: seq<Params>, inputs: seq<real>, targets: seq<real>, m: nat)
    requires m <= |inputs| <= |targets| && ps != []
    ensures Score(num, ps, inputs, targets, None, m).Some?
    ensures Score(num, ps, inputs, targets, None, m).value >= 0.0
    ensures Score(num, ps, inputs, targets, None, m).value == 0.0
      <==> forall i :: 0 <= i < m ==> EvaluateChained(num, ps, inputs[i], 0.0, 0.0) == Some(targets[i])
  {
    if m > 0 {
      ScoreSquares(num, ps, inputs, targets, m - 1);
      EvaluateChainedDefined(num, ps, inputs[m - 1], 0.0, 0.0);
    }
  }

  /** One round: the candidate and its total loss; None where the round
      throws. */
  function Round(num: Numerics, ex: Exploration, draw: (real, real)): Option<(seq<Params>, real)>
    requires |ex.inputs| == |ex.targets|
  {
    match DescentRun(num, Candidate(ex, draw))
    case None => None
    case Some(ps) =>
      match Score(num, ps, ex.inputs, ex.targets, ex.refinementLoss, |ex.inputs|)
      case None => None
      case Some(l) => Some((ps, l))
  }

  /** The outcome of each round, in order. */
  function Outcomes(num: Numerics, ex: Exploration, noise: seq<(real, real)>, m: nat): (r: seq<Option<(seq<Params>, real)>>)
    requires |ex.inputs| == |ex.targets| && m <= |noise|
    ensures |r| == m
  {
    if m == 0 then [] else Outcomes(num, ex, noise, m - 1) + [Round(num, ex, noise[m - 1])]
  }

  lemma {:induction false} OutcomesAt(num: Numerics, ex: Exploration, noise: seq<(real, real)>, m: nat, j: nat)
    requires |ex.inputs| == |ex.targets| && m <= |noise| && j < m
    ensures Outcomes(num, ex, noise, m)[j] == Round(num, ex, noise[j])
  {
    var prefix := Outcomes(num, ex, noise, m - 1);
    assert Outcomes(num, ex, noise, m)[..m - 1] == prefix;
    if j < m - 1 {
      OutcomesAt(num, ex, noise, m - 1, j);
    }
  }

  /** The number of rounds: refinementEpochs, or none when it is not positive. */
  function Rounds(ex: Exploration): nat {
    if ex.rounds < 0 then 0 else ex.rounds
  }

  /** The loop of InductiveExploration from round `round` on, with the best
      candidate so far, its loss, and the (round, loss) pairs reported to
      progressAction so far. A candidate replaces the best only when its
      loss is strictly smaller. */
  function Explore(outcomes: seq<Option<(seq<Params>, real)>>, round: nat,
                   best: seq<Params>, bestLoss: real, reports: seq<(int, real)>): Option<(seq<Params>, real, seq<(int, real)>)>
    decreases |outcomes| - round
  {
    if round >= |outcomes| then Some((best, bestLoss, reports))
    else
      match outcomes[round]
      case None => None
      case Some((candidate, l)) =>
        if !(l < bestLoss) then Explore(outcomes, round + 1, best, bestLoss, reports)
        else Explore(outcomes, round + 1, candidate, l, reports + [(round, l)])
  }

  /** InductiveExploration: from the empty chain and float.MaxValue. */
  function ExplorationRun(num: Numerics, ex: Exploration, noise: seq<(real, real)>): Option<(seq<Params>, real, seq<(int, real)>)>
    requires |ex.inputs| == |ex.targets| && ex.rounds <= |noise|
  {
    Explore(Outcomes(num, ex, noise, Rounds(ex)), 0, [], FloatMax, [])
  }

  lemma ExploreStep(outcomes: seq<Option<(seq<Params>, real)>>, round: nat,
                    best: seq<Params>, bestLoss: real, reports: seq<(int, real)>)
    requires round < |outcomes|
    ensures outcomes[round].None? ==> Explore(outcomes, round, best, bestLoss, reports).None?
    ensures outcomes[round].Some? ==> var (candidate, l) := outcomes[round].value;
      Explore(outcomes, round, best, bestLoss, reports) ==
        if l < bestLoss then Explore(outcomes, round + 1, candidate, l, reports + [(round, l)])
        else Explore(outcomes, round + 1, best, bestLoss, reports)
  {
  }

  /** The exploration throws exactly when one of its rounds does. */
  lemma {:induction false} ExploreFails(outcomes: seq<Option<(seq<Params>, real)>>, round: nat,
                                        best: seq<Params>, bestLoss: real, reports: seq<(int, real)>)
    ensures Explore(outcomes, round, best, bestLoss, reports).None?
      <==> exists j :: round <= j < |outcomes| && outcomes[j].None?
    decreases |outcomes| - round
  {
    if round < |outcomes| && outcomes[round].Some? {
      var (candidate, l) := outcomes[round].value;
      if !(l < bestLoss) {
        ExploreFails(outcomes, round + 1, best, bestLoss, reports);
      } else {
        ExploreFails(outcomes, round + 1, candidate, l, reports + [(round, l)]);
      }
      if exists j :: round <= j < |outcomes| && outcomes[j].None? {
        var j :| round <= j < |outcomes| && outcomes[j].None?;
        assert round + 1 <= j;
      }
    }
  }

  /** The best-of selection: no round beats the loss kept; a loss below the
      starting one is the loss of a round whose candidate is kept and which
      every earlier round exceeds (ties go to the earlier round); otherwise
      the starting candidate and loss are kept. */
  lemma {:induction false} ExploreKeepsFirstBest(outcomes: seq<Option<(seq<Params>, real)>>, round: nat,
                                                 best: seq<Params>, bestLoss: real, reports: seq<(int, real)>)
    requires Explore(outcomes, round, best, bestLoss, reports).Some?
    ensures var (b, l, _) := Explore(outcomes, round, best, bestLoss, reports).value;
      && l <= bestLoss
      && (forall j :: round <= j < |outcomes| ==> outcomes[j].Some? && outcomes[j].value.1 >= l)
      && (l < bestLoss ==> exists j :: (round <= j < |outcomes| && outcomes[j] == Some((b, l))
            && forall i :: round <= i < j ==> outcomes[i].value.1 > l))
      && (!(l < bestLoss) ==> b == best && l == bestLoss)
    decreases |outcomes| - round
  {
    if round < |outcomes| {
      var (candidate, l0) := outcomes[round].value;
      var (b, l, _) := Explore(outcomes, round, best, bestLoss, reports).value;
      if !(l0 < bestLoss) {
        ExploreKeepsFirstBest(outcomes, round + 1, best, bestLoss, reports);
        if l < bestLoss {
          var j :| round + 1 <= j < |outcomes| && outcomes[j] == Some((b, l))
            && forall i :: round + 1 <= i < j ==> outcomes[i].value.1 > l;
          assert forall i :: round <= i < j ==> outcomes[i].value.1 > l;
        }
      } else {
        ExploreKeepsFirstBest(outcomes, round + 1, candidate, l0, reports + [(round, l0)]);
        if l < l0 {
          var j :| round + 1 <= j < |outcomes| && outcomes[j] == Some((b, l))
            && forall i :: round + 1 <= i < j ==> outcomes[i].value.1 > l;
          assert forall i :: round <= i < j ==> outcomes[i].value.1 > l;
        } else {
          assert outcomes[round] == Some((b, l));
        }
      }
    }
  }

  /** Each report comes in a later round than the one before it, with a
      strictly smaller loss. */
  ghost predicate Improving(reports: seq<(int, real)>) {
    forall a :: 0 < a < |reports| ==> reports[a - 1].0 < reports[a].0 && reports[a - 1].1 > reports[a].1
  }

  /** progressAction is called on strict improvements only: the reports keep
      improving, every report's loss is below the starting loss, and the last
      report gives the loss kept. */
  lemma {:induction false} ExploreReports(outcomes: seq<Option<(seq<Params>, real)>>, round: nat,
                                          best: seq<Params>, bestLoss: real, reports: seq<(int, real)>,
                                          l: real, rs: seq<(int, real)>)
    requires Explore(outcomes, round, best, bestLoss, reports).Some?
    requires Explore(outcomes, round, best, bestLoss, reports).value.1 == l
    requires Explore(outcomes, round, best, bestLoss, reports).value.2 == rs
    requires Improving(reports) && forall a :: 0 <= a < |reports| ==> reports[a].0 < round && reports[a].1 >= bestLoss
    ensures |reports| <= |rs| && (forall a :: 0 <= a < |reports| ==> rs[a] == reports[a]) && Improving(rs)
    ensures forall a :: |reports| <= a < |rs| ==> round <= rs[a].0 < |outcomes| && rs[a].1 < bestLoss
    ensures |rs| > |reports| ==> rs[|rs| - 1].1 == l
    ensures |rs| == |reports| ==> l == bestLoss
    decreases |outcomes| - round
  {
    if round < |outcomes| {
      ExploreStep(outcomes, round, best, bestLoss, reports);
      var (candidate, l0) := outcomes[round].value;
      if !(l0 < bestLoss) {
        ExploreReports(outcomes, round + 1, best, bestLoss, reports, l, rs);
      } else {
        var reports' := reports + [(round, l0)];
        ExploreReports(outcomes, round + 1, candidate, l0, reports', l, rs);
        assert rs[|reports|] == (round, l0);
      }
    }
  }

  /** InductiveExploration's selection over the rounds' outcomes (outcome j
      is round j's candidate and loss, see OutcomesAt): it fails exactly when
      a round does; otherwise the chain kept is the first candidate with the
      smallest loss, or the empty chain when no candidate's loss is below
      float.MaxValue, and the reported losses strictly decrease. */
  lemma ExplorationSelects(outcomes: seq<Option<(seq<Params>, real)>>)
    ensures var r := Explore(outcomes, 0, [], FloatMax, []);
      && (r.None? <==> exists j :: 0 <= j < |outcomes| && outcomes[j].None?)
      && (r.Some? ==> (
        var (b, l, rs) := r.value;
        && (forall j :: 0 <= j < |outcomes| ==> outcomes[j].value.1 >= l)
        && (l < FloatMax ==> exists j :: (0 <= j < |outcomes| && outcomes[j] == Some((b, l))
              && forall i :: 0 <= i < j ==> outcomes[i].value.1 > l))
        && (!(l < FloatMax) ==> b == [] && l == FloatMax && rs == [])
        && Improving(rs) && (forall a :: 0 <= a < |rs| ==> rs[a].1 < FloatMax)
        && (rs != [] ==> rs[|rs| - 1].1 == l)))
  {
    ExploreFails(outcomes, 0, [], FloatMax, []);
    var r := Explore(outcomes, 0, [], FloatMax, []);
    if r.Some? {
      ExploreKeepsFirstBest(outcomes, 0, [], FloatMax, []);
      var (_, l, rs) := r.value;
      ExploreReports(outcomes, 0, [], FloatMax, [], l, rs);
    }
  }

  // ---------------------------------------------------------------------------
  // The chain
  // ---------------------------------------------------------------------------

  /** The values of a list of segments, in order. */
  function ValuesOf(segments: seq<Paravector2D>): (r: seq<Params>)
    reads segments
    ensures |r| == |segments| && forall i :: 0 <= i < |r| ==> r[i] == segments[i].Values()
  {
    seq(|segments|, i requires 0 <= i < |segments| reads segments => segments[i].Values())
  }

  class Chain2D {
    /** Paravectors: the list itself is never replaced or resized. */
    const paravectors: seq<Paravector2D>

    constructor (ps: seq<Paravector2D>)
      ensures paravectors == ps
    {
      paravectors := ps;
    }

    /** No segment object appears twice. */
    ghost predicate Valid() {
      forall i, j :: 0 <= i < j < |paravectors| ==> paravectors[i] != paravectors[j]
    }

    function Values(): (r: seq<Params>)
      reads paravectors
      ensures |r| == |paravectors|
    {
      ValuesOf(paravectors)
    }

    /** GetRelevantParavector(x, boundaries): the segment at the index the
        boundaries select; None where the source indexes outside the list. */
    method GetRelevantParavector(x: real, bs: seq<Boundary>) returns (r: Option<Paravector2D>, index: nat)
      ensures r.None? <==> SelectInBoundaries(x, bs, |paravectors|).None?
      ensures r.Some? ==> SelectInBoundaries(x, bs, |paravectors|) == Some(index) && r.value == paravectors[index]
    {
      var found := RelevantInBoundaries(x, bs, |paravectors|);
      if found.None? {
        return None, 0;
      }
      index := found.value;
      r := Some(paravectors[index]);
    }

    /** GetRelevantParavector(x, h): the same choice made by scanning from h. */
    method GetRelevantParavectorFrom(num: Numerics, x: real, h: real) returns (r: Option<Paravector2D>, index: nat)
      ensures r.None? <==> paravectors == []
      ensures r.Some? ==> (index < |paravectors| && r.value == paravectors[index]
        && Some(index) == SelectInBoundaries(x, Boundaries(Spans(num, Values()), h), |paravectors|))
    {
      var found := RelevantByScan(x, Spans(num, Values()), h);
      OverloadsAgree(x, Spans(num, Values()), h);
      SelectsFirstHolding(x, Spans(num, Values()), h);
      if found.None? {
        return None, 0;
      }
      index := found.value;
      r := Some(paravectors[index]);
    }

    /** Evaluate(x, h, k): (currentH, currentK) walk from segment to segment;
        the first segment whose interval holds x is evaluated from them. */
    method Evaluate(num: Numerics, x: real, h: real, k: real) returns (r: Option<real>)
      ensures r == EvaluateChained(num, Values(), x, h, k)
    {
      ghost var ps := Values();
      var currentH, currentK := h, k;
      var i := 0;
      while i < |paravectors|
        invariant 0 <= i <= |paravectors|
        invariant currentH == AnchorH(num, ps, h, i) && currentK == AnchorK(num, ps, h, k, i)
        invariant EvaluateChained(num, ps, x, h, k) == EvaluateFrom(num, ps, x, h, k, i)
      {
        var upsilon := paravectors[i].Values();
        // alpha * cos theta
        var nextH := currentH + Span(num, upsilon);
        if x >= currentH && x < nextH {
          return Some(GlobalX(num, upsilon, x, currentH, currentK));
        }
        AnchorStep(num, ps, h, k, i);
        currentK := GlobalX(num, upsilon, nextH, currentH, currentK);
        currentH := nextH;
        i := i + 1;
      }
      if |paravectors| == 0 {
        return None;
      }
      r := Some(GlobalX(num, paravectors[|paravectors| - 1].Values(), x, currentH, currentK));
    }
  }

  /** One pass of InductiveDescent's loop: slice i fitted towards
      (endX, endY) with InductiveFit, and where the slice starts. */
  method FitSlice(num: Numerics, d: Descent, i: nat, endX: real, endY: real, ghost fit: (nat, real, real) -> Option<Params>)
    returns (r: Option<Paravector2D>, startIndex: nat)
    requires 0 < |d.inputs| == |d.targets| && i < d.total && FitIs(fit, num, d)
    ensures r.None? <==> fit(i, endX, endY).None?
    ensures r.Some? ==> fresh(r.value) && fit(i, endX, endY) == Some(r.value.Values())
    ensures startIndex == StartIndex(|d.inputs|, d.total, i) < |d.inputs|
  {
    ghost var expected := SegmentFit(num, d, i, endX, endY);
    var n := |d.inputs|;
    SliceInRange(n, d.total, i);
    var endIndex := EndIndex(n, d.total, i);
    startIndex := StartIndex(n, d.total, i);
    ghost var losses;
    r, losses := InductiveFit(num, d.inputs[startIndex..endIndex], d.targets[startIndex..endIndex],
                              endX, endY, d.lr, d.epochs, d.loss, d.grads, d.lossEpsilon, DefaultPenalty);
  }

  /** InductiveDescent: one segment per slice, fitted right to left, each
      towards the first sample of the slice after it, and prepended. */
  method InductiveDescent(num: Numerics, d: Descent, ghost fit: (nat, real, real) -> Option<Params>) returns (r: Option<Chain2D>)
    requires |d.inputs| == |d.targets| && FitIs(fit, num, d)
    ensures r.None? <==> DescentWith(fit, d).None?
    ensures r.Some? ==> fresh(r.value) && r.value.Valid() && r.value.Values() == DescentWith(fit, d).value
  {
    if |d.inputs| == 0 {
      return None;
    }
    var n := |d.inputs|;
    var currentEndX, currentEndY := d.inputs[n - 1], d.targets[n - 1];
    ghost var fits := Fits(fit, d, Slices(d));
    ghost var goal := Descend(fits, d.total - 1, []);
    ghost var values: seq<Params> := [];
    var paravectors: seq<Paravector2D> := [];
    var i := d.total - 1;
    while i >= 0
      invariant i < d.total && i < |fits|
      invariant i >= 0 ==> (currentEndX, currentEndY) == FixedEnd(d, i)
      invariant Descend(fits, i, values) == goal
      invariant |values| == |paravectors|
      invariant forall j :: 0 <= j < |paravectors| ==> paravectors[j].Values() == values[j]
      invariant forall a, b :: 0 <= a < b < |paravectors| ==> paravectors[a] != paravectors[b]
      decreases i + 1
    {
      var upsilon, startIndex := FitSlice(num, d, i, currentEndX, currentEndY, fit);
      if upsilon.None? {
        FitsAt(fit, d, Slices(d), i);
        return None;
      }
      FitsAt(fit, d, Slices(d), i);
      DescendStep(fits, i, values, upsilon.value.Values());
      paravectors := [upsilon.value] + paravectors;
      values := [upsilon.value.Values()] + values;
      currentEndX, currentEndY := d.inputs[startIndex], d.targets[startIndex];
      if i > 0 {
        FixedEndNext(d, i);
      }
      i := i - 1;
    }
    var chain := new Chain2D(paravectors);
    assert chain.Values() == values;
    r := Some(chain);
  }

  /** The inner loop of InductiveExploration: the candidate's total loss. */
  method TotalLoss(num: Numerics, chain: Chain2D, inputs: seq<real>, targets: seq<real>,
                   refine: Option<(real, real) -> real>) returns (r: Option<real>)
    requires |inputs| <= |targets|
    ensures r == Score(num, chain.Values(), inputs, targets, refine, |inputs|)
  {
    ghost var ps := chain.Values();
    var totalLoss := 0.0;
    var i := 0;
    while i < |inputs|
      invariant 0 <= i <= |inputs|
      invariant Score(num, ps, inputs, targets, refine, i) == Some(totalLoss)
    {
      var predicted := chain.Evaluate(num, inputs[i], 0.0, 0.0);
      if predicted.None? {
        EvaluateChainedDefined(num, ps, inputs[i], 0.0, 0.0);
        ScoreFails(num, ps, inputs, targets, refine, |inputs|);
        return None;
      }
      totalLoss := totalLoss + Error(refine, predicted.value, targets[i]);
      i := i + 1;
    }
    r := Some(totalLoss);
  }

  /** InductiveExploration: `noise` gives the two draws of each round. */
  method InductiveExploration(num: Numerics, ex: Exploration, noise: seq<(real, real)>)
    returns (r: Option<Chain2D>, ghost reports: seq<(int, real)>)
    requires |ex.inputs| == |ex.targets| && ex.rounds <= |noise|
    ensures var run := ExplorationRun(num, ex, noise);
      && (r.None? <==> run.None?)
      && (r.Some? ==> fresh(r.value) && r.value.Values() == run.value.0 && reports == run.value.2)
  {
    var bestChain := new Chain2D([]);
    var bestLoss := FloatMax;
    reports := [];
    ghost var outcomes := Outcomes(num, ex, noise, Rounds(ex));
    ghost var goal := Explore(outcomes, 0, bestChain.Values(), bestLoss, reports);
    var round := 0;
    while round < ex.rounds
      invariant 0 <= round && |outcomes| == Rounds(ex)
      invariant fresh(bestChain)
      invariant Explore(outcomes, round, bestChain.Values(), bestLoss, reports) == goal
    {
      var (r1, r2) := noise[round];
      var noisyLr := Noisy(ex.lr, r1, ex.explorationRate);
      var noisyEpochs := Truncate(Noisy(ex.epochs as real, r2, ex.explorationRate));
      var d := Descent(ex.inputs, ex.targets, ex.total, noisyLr, noisyEpochs, ex.loss, ex.grads, BiggerEpsilon);
      OutcomesAt(num, ex, noise, Rounds(ex), round);
      ExploreStep(outcomes, round, bestChain.Values(), bestLoss, reports);
      SliceFitIs(num, d);
      var candidate := InductiveDescent(num, d, SliceFit(num, d));
      if candidate.None? {
        return None, reports;
      }
      var totalLoss := TotalLoss(num, candidate.value, ex.inputs, ex.targets, ex.refinementLoss);
      if totalLoss.None? {
        return None, reports;
      }
      assert outcomes[round] == Some((candidate.value.Values(), totalLoss.value));
      if totalLoss.value < bestLoss {
        bestChain := candidate.value;
        bestLoss := totalLoss.value;
        reports := reports + [(round, totalLoss.value)];
      }
      round := round + 1;
    }
    r := Some(bestChain);
  }
}
