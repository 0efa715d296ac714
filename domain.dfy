/**
 * The domain bookkeeping Chain2 and Chain2D share, over the per-segment
 * spans (segment i covers Alpha_i * cos Theta_i of the x axis).
 *
 * Segment i starts at h plus the spans before it. DomainLength adds the
 * spans up, SetupBoundaries lists each segment's half-open interval, and
 * both GetRelevantParavector overloads pick the first interval that holds
 * x, falling back to the last segment; with no segment at all the source
 * indexes an empty list, which is None here.
 */
module Domain {
  import opened Wrappers

  /** The spans added up left to right. */
  function Sum(spans: seq<real>): real {
    if spans == [] then 0.0 else Sum(spans[..|spans| - 1]) + spans[|spans| - 1]
  }

  lemma SumNext(spans: seq<real>, i: nat)
    requires i < |spans|
    ensures Sum(spans[..i + 1]) == Sum(spans[..i]) + spans[i]
  {
    assert spans[..i + 1][..i] == spans[..i];
  }

  /** With every span positive the partial sums strictly increase. */
  lemma {:induction false} SumIncreasing(spans: seq<real>, i: nat, j: nat)
    requires forall k :: 0 <= k < |spans| ==> spans[k] > 0.0
    requires i < j <= |spans|
    ensures Sum(spans[..i]) < Sum(spans[..j])
    decreases j - i
  {
    SumNext(spans, j - 1);
    if i < j - 1 {
      SumIncreasing(spans, i, j - 1);
    }
  }

  /** With no span negative the partial sums never decrease. */
  lemma {:induction false} SumNonDecreasing(spans: seq<real>, i: nat, j: nat)
    requires forall k :: 0 <= k < |spans| ==> spans[k] >= 0.0
    requires i <= j <= |spans|
    ensures Sum(spans[..i]) <= Sum(spans[..j])
    decreases j - i
  {
    if i < j {
      SumNext(spans, j - 1);
      SumNonDecreasing(spans, i, j - 1);
    }
  }

  /** One `(start, end, index)` entry of SetupBoundaries. */
  datatype Boundary = Boundary(start: real, end: real, index: nat)

  predicate Holds(b: Boundary, x: real) {
    b.start <= x < b.end
  }

  /** SetupBoundaries(h) as a value: entry i starts at h plus the spans
      before segment i. */
  function Boundaries(spans: seq<real>, h: real): (r: seq<Boundary>)
    ensures |r| == |spans|
  {
    seq(|spans|, i requires 0 <= i < |spans| => Boundary(h + Sum(spans[..i]), h + Sum(spans[..i + 1]), i))
  }

  /** The layout of the boundaries: the first starts at h, each ends one span
      after it starts, the next starts where it ends, the last ends at
      h + DomainLength, and each carries its own position. */
  lemma BoundariesLayout(spans: seq<real>, h: real)
    ensures var bs := Boundaries(spans, h);
      && (|bs| > 0 ==> bs[0].start == h)
      && (forall i :: 0 <= i < |bs| ==> bs[i].end == bs[i].start + spans[i] && bs[i].index == i)
      && (forall i :: 0 <= i < |bs| - 1 ==> bs[i + 1].start == bs[i].end)
      && (|bs| > 0 ==> bs[|bs| - 1].end == h + Sum(spans))
  {
    var bs := Boundaries(spans, h);
    if |bs| > 0 {
      assert spans[..0] == [];
      assert spans[..|spans|] == spans;
    }
    forall i | 0 <= i < |bs| ensures bs[i].end == bs[i].start + spans[i] {
      SumNext(spans, i);
    }
  }

  /** With every span positive the intervals are non-empty and strictly
      increasing. */
  lemma BoundariesIncreasing(spans: seq<real>, h: real, i: nat, j: nat)
    requires forall k :: 0 <= k < |spans| ==> spans[k] > 0.0
    requires i < j < |spans|
    ensures var bs := Boundaries(spans, h);
      bs[i].start < bs[i].end <= bs[j].start < bs[j].end
  {
    SumIncreasing(spans, i, i + 1);
    SumIncreasing(spans, j, j + 1);
    if i + 1 < j {
      SumIncreasing(spans, i + 1, j);
    }
  }

  /** The position of the first boundary at or after `from` that holds x. */
  function PositionFrom(x: real, bs: seq<Boundary>, from: nat): (r: Option<nat>)
    requires from <= |bs|
    ensures r.Some? ==> (from <= r.value < |bs| && Holds(bs[r.value], x)
      && forall k :: from <= k < r.value ==> !Holds(bs[k], x))
    ensures r.None? ==> forall k :: from <= k < |bs| ==> !Holds(bs[k], x)
    decreases |bs| - from
  {
    if from == |bs| then None
    else if Holds(bs[from], x) then Some(from)
    else PositionFrom(x, bs, from + 1)
  }

  /** The loop of GetRelevantParavector(x, h): `current` runs over the segment
      starts; the first segment with current <= x < current + span is chosen. */
  function ScanFrom(x: real, spans: seq<real>, h: real, from: nat): Option<nat>
    requires from <= |spans|
    decreases |spans| - from
  {
    if from == |spans| then None
    else
      var current := h + Sum(spans[..from]);
      if current <= x && x < current + spans[from] then Some(from)
      else ScanFrom(x, spans, h, from + 1)
  }

  /** The last segment when nothing was found; None when there is none. */
  function Fallback(found: Option<nat>, count: nat): (r: Option<nat>)
    ensures found.Some? ==> r == found
    ensures found.None? ==> (r.None? <==> count == 0)
    ensures found.None? && count > 0 ==> r == Some(count - 1)
  {
    if found.Some? then found else if count == 0 then None else Some(count - 1)
  }

  /** GetRelevantParavector(x, h): the index of the chosen segment. */
  function SelectByScan(x: real, spans: seq<real>, h: real): Option<nat> {
    Fallback(ScanFrom(x, spans, h, 0), |spans|)
  }

  /** GetRelevantParavector(x, boundaries) on a chain of `count` segments:
      the `index` of the first boundary that holds x, or the last segment.
      An index outside the chain is the source's out-of-range access: None. */
  function SelectInBoundaries(x: real, bs: seq<Boundary>, count: nat): (r: Option<nat>)
    ensures r.Some? ==> r.value < count
  {
    match PositionFrom(x, bs, 0)
    case Some(k) => if bs[k].index < count then Some(bs[k].index) else None
    case None => Fallback(None, count)
  }

  lemma {:induction false} ScanIsPosition(x: real, spans: seq<real>, h: real, from: nat)
    requires from <= |spans|
    ensures ScanFrom(x, spans, h, from) == PositionFrom(x, Boundaries(spans, h), from)
    decreases |spans| - from
  {
    if from < |spans| {
      SumNext(spans, from);
      ScanIsPosition(x, spans, h, from + 1);
    }
  }

  /** The two overloads agree: scanning from h picks the same segment as
      looking x up in SetupBoundaries(h). */
  lemma OverloadsAgree(x: real, spans: seq<real>, h: real)
    ensures SelectByScan(x, spans, h) == SelectInBoundaries(x, Boundaries(spans, h), |spans|)
  {
    ScanIsPosition(x, spans, h, 0);
  }

  /** The chosen segment is the first whose interval holds x; when none holds
      it, the last segment. */
  lemma SelectsFirstHolding(x: real, spans: seq<real>, h: real)
    ensures var bs := Boundaries(spans, h);
      var r := SelectInBoundaries(x, bs, |spans|);
      && (r.None? <==> spans == [])
      && (r.Some? ==> r.value < |spans|)
      && (r.Some? && Holds(bs[r.value], x) ==> forall k :: 0 <= k < r.value ==> !Holds(bs[k], x))
      && (r.Some? && !Holds(bs[r.value], x) ==> r.value == |spans| - 1 && forall k :: 0 <= k < |bs| ==> !Holds(bs[k], x))
  {
    var bs := Boundaries(spans, h);
    var found := PositionFrom(x, bs, 0);
    if found.Some? {
      assert bs[found.value].index == found.value;
    }
  }

  /** With no negative span, x below h or at or past h + DomainLength lies in
      no interval, so the last segment is chosen. */
  lemma OutsideSelectsLast(x: real, spans: seq<real>, h: real)
    requires forall k :: 0 <= k < |spans| ==> spans[k] >= 0.0
    requires spans != [] && (x < h || x >= h + Sum(spans))
    ensures SelectInBoundaries(x, Boundaries(spans, h), |spans|) == Some(|spans| - 1)
  {
    var bs := Boundaries(spans, h);
    forall k | 0 <= k < |bs| ensures !Holds(bs[k], x) {
      SumNonDecreasing(spans, 0, k);
      SumNonDecreasing(spans, k + 1, |spans|);
      assert spans[..0] == [] && spans[..|spans|] == spans;
    }
  }

  /** DomainLength(): the running sums `hs` start at 0 and each adds the next
      span; the result is the last one. */
  method DomainLength(spans: seq<real>) returns (r: real)
    ensures r == Sum(spans)
  {
    var hs := [0.0];
    var i := 0;
    while i < |spans|
      invariant 0 <= i <= |spans| && |hs| == i + 1
      invariant forall j :: 0 <= j <= i ==> hs[j] == Sum(spans[..j])
    {
      SumNext(spans, i);
      hs := hs + [hs[i] + spans[i]];
      i := i + 1;
    }
    assert spans[..i] == spans;
    r := hs[|hs| - 1];
  }

  /** SetupBoundaries(h). */
  method SetupBoundaries(spans: seq<real>, h: real) returns (bs: seq<Boundary>)
    ensures bs == Boundaries(spans, h)
  {
    var current := h;
    bs := [];
    var i := 0;
    while i < |spans|
      invariant 0 <= i <= |spans| && current == h + Sum(spans[..i])
      invariant bs == Boundaries(spans, h)[..i]
    {
      var next := current + spans[i];
      SumNext(spans, i);
      assert Boundaries(spans, h)[..i + 1] == Boundaries(spans, h)[..i] + [Boundary(current, next, i)];
      bs := bs + [Boundary(current, next, i)];
      current := next;
      i := i + 1;
    }
    assert Boundaries(spans, h)[..i] == Boundaries(spans, h);
  }

  /** GetRelevantParavector(x, h). */
  method RelevantByScan(x: real, spans: seq<real>, h: real) returns (r: Option<nat>)
    ensures r == SelectByScan(x, spans, h)
  {
    var current := h;
    var i := 0;
    while i < |spans|
      invariant 0 <= i <= |spans| && current == h + Sum(spans[..i])
      invariant ScanFrom(x, spans, h, 0) == ScanFrom(x, spans, h, i)
    {
      var next := current + spans[i];
      if x >= current && x < next {
        return Some(i);
      }
      SumNext(spans, i);
      current := next;
      i := i + 1;
    }
    r := Fallback(None, |spans|);
  }

  /** GetRelevantParavector(x, boundaries) on a chain of `count` segments. */
  method RelevantInBoundaries(x: real, bs: seq<Boundary>, count: nat) returns (r: Option<nat>)
    ensures r == SelectInBoundaries(x, bs, count)
  {
    var i := 0;
    while i < |bs|
      invariant 0 <= i <= |bs|
      invariant PositionFrom(x, bs, 0) == PositionFrom(x, bs, i)
    {
      if x >= bs[i].start && x < bs[i].end {
        if bs[i].index < count {
          return Some(bs[i].index);
        }
        return None;
      }
      i := i + 1;
    }
    r := Fallback(None, count);
  }
}
