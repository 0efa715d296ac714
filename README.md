# ParaSharp in Dafny

ParaSharp fits curves to samples with "paravectors". A paravector is a
parabolic segment with three parameters:

- Alpha: its length.
- Theta: its rotation about its start point.
- Beta: its bend. The local parabola is `m * x * (x - Alpha)` with `m = tan(-Beta) / Alpha`.

A chain lays segments side by side along the x axis. Each segment covers a
span of `Alpha * cos Theta`. The library trains the three parameters with a
small reverse-mode automatic differentiation engine (`Scalar`).

This project models the five core classes and proves properties of the model.

- `Scalar` becomes an arena of nodes, class `Autodiff.Graph`. A node has a
  value, a gradient, input handles and an operation tag. `Build` is the
  recursive depth-first topological sort. `Backward` seeds the root and
  replays the per-node rules in reverse order.
- `Paravector2` and `Paravector2D` become classes with the values and
  gradients of Alpha, Theta and Beta as fields.
  - `Update`, `ZeroGrad`, `Reverse` and `ReverseInPlace` are methods on those fields.
  - `GlobalX`, `LocalX` and `FromVector` are functions on a `Params` value.
- `Chain2` and `Chain2D` become classes over a sequence of segment objects.
  - Lookup and evaluation are methods, each proved equal to a function on the segments' values.
  - `DomainLength`, `SetupBoundaries` and both `GetRelevantParavector`
    overloads are written once in module `Domain`, over the spans. The two
    chain classes have identical code for them.
  - `Fit`, `InductiveFit`, `InductiveDescent` and `InductiveExploration` are
    methods, each proved equal to a function that states the run as a value.
    The properties are lemmas about those functions.
- All arithmetic is on `real`.
  - `sin`, `cos`, `tan`, `sqrt` and `atan2` are uninterpreted. They are
    fields of a `Numerics` record passed to every operation that needs one.
  - Float division by zero gives an uninterpreted value (`Numerics.FDiv`).
- Where the C# code throws, the model returns `None`. This covers:
  - the NaN check in the `Scalar` constructor, including the NaN that the
    slope `tan(-Beta) / Alpha` of a segment with `Alpha = 0` produces in
    every `InductiveFit` epoch;
  - indexing an empty list (`Paravectors[^1]`, `inputs[0]`, `inputs[^1]`);
  - seeding from no sample.

Modules:

| file | module | models |
|---|---|---|
| wrappers.dfy | Wrappers | `Option` |
| numerics.dfy | Numerics | the uninterpreted primitives, float constants, `(int)` truncation |
| autodiff.dfy | Autodiff | Scalar.cs |
| curve.dfy | Curve | what Paravector2.cs and Paravector2D.cs share: `LocalX`, the rotation, the quadratic |
| paravector2.dfy | Segments2 | Paravector2.cs |
| paravector2d.dfy | Segments2D | Paravector2D.cs |
| training.dfy | Training | the epoch loop with early exit of `Fit` and `InductiveFit` |
| domain.dfy | Domain | `DomainLength`, `SetupBoundaries`, `GetRelevantParavector` of Chain2.cs and Chain2D.cs |
| chain2.dfy | Chains2 | Chain2.cs |
| chain2d.dfy | Chains2D | Chain2D.cs |

In five places the code does something other than what its own guards,
comments or sibling code evidently intend. The model follows the code:

- `Paravector2.Update` (Paravector2.cs:69) tests `Theta > pi/2`, which
  reads as keeping Theta within `[-pi/2, pi/2]`. It then assigns
  `pi - 0.01`, which is outside that range
  (`Segments2.ThetaClampLeavesRange`).
- `Paravector2D.ReverseInPlace` wraps Theta down until it is at most pi
  (Paravector2D.cs:58), which reads as normalising into `(-pi, pi]`. The
  second loop's guard `< pi` (line 59) then pushes it into `[pi, 3 pi)`.
- `Paravector2.GlobalX` labels the test `sin Theta < 1e-8` "no rotation"
  (Paravector2.cs:21). The test is signed, so every segment with a
  negative sine is evaluated as unrotated (`Segments2.SignedRotationTest`).
- `Chain2.Evaluate` chooses the segment from intervals that start at h
  (Chain2.cs:65-66). It then evaluates that segment from the chain's own
  anchor `(h, k)` (line 67), not from the start of its interval.
  `Chain2D.Evaluate` carries the anchor from segment to segment
  (Chain2D.cs:70-76).
- `InductiveDescent` starts from the last sample as the fixed end
  (Chain2D.cs:108). It then passes the end-exclusive slice
  `[startIndex, endIndex)` to `InductiveFit` (lines 112-116), so the last
  sample belongs to no slice's sample loss.
  - An empty slice makes `InductiveFit` throw (`Chains2D.SegmentFitFails`).
  - So does a slice whose first sample repeats its fixed end, once an epoch
    runs (`Chains2D.RepeatedSampleFails`).

## Model

| member | source | states |
|---|---|---|
| Numerics.FDiv | Jewels.ParaSharp/Scalar.cs:58-59 | float division: for a divisor that is not zero, the result times the divisor is the dividend |
| Numerics.Truncate | Jewels.ParaSharp/Chain2D.cs:141 | the `(int)` cast truncates toward zero: it keeps the sign and has magnitude `|x|` rounded down |
| Autodiff.Graph.constructor | Jewels.ParaSharp/Scalar.cs:3-8 | an empty graph |
| Autodiff.Graph.Push | Jewels.ParaSharp/Scalar.cs:10-17 | a new node with the given value, zero gradient and rule is appended; earlier nodes are unchanged |
| Autodiff.Graph.NewScalar | Jewels.ParaSharp/Scalar.cs:10-17 | `new Scalar(val)` fails exactly when `val` is NaN, and then the graph is unchanged; otherwise a leaf with value `val` and gradient 0 is appended |
| Autodiff.Graph.Constant | Jewels.ParaSharp/Scalar.cs:10-17 | a leaf with the given value and gradient 0 is appended |
| Autodiff.Graph.Plus | Jewels.ParaSharp/Scalar.cs:37-42 | appends a node whose value is the inputs' sum, with rule `Add(a, b)` |
| Autodiff.Graph.Minus | Jewels.ParaSharp/Scalar.cs:44-49 | appends a node whose value is the inputs' difference, with rule `Sub(a, b)` |
| Autodiff.Graph.Times | Jewels.ParaSharp/Scalar.cs:51-56 | appends a node whose value is the inputs' product, with rule `Mul(a, b)` |
| Autodiff.Graph.Divide | Jewels.ParaSharp/Scalar.cs:58-63 | 0 / 0 is NaN and the constructor refuses it (None, graph unchanged); otherwise appends a node with the float quotient and rule `Div(a, b)` |
| Autodiff.Graph.Negate | Jewels.ParaSharp/Scalar.cs:65 | appends a node whose value is the negated input, with rule `Neg(a)` |
| Autodiff.Graph.Sine | Jewels.ParaSharp/Scalar.cs:67-71 | appends a node whose value is `sin` of the input |
| Autodiff.Graph.Cosine | Jewels.ParaSharp/Scalar.cs:73-77 | appends a node whose value is `cos` of the input |
| Autodiff.Graph.Tangent | Jewels.ParaSharp/Scalar.cs:79-84 | appends a node whose value is `tan` of the input |
| Autodiff.Graph.SquareRoot | Jewels.ParaSharp/Scalar.cs:86-90 | the root of a negative value is NaN and is refused (None, graph unchanged); otherwise appends a node whose value is `sqrt` of the input |
| Autodiff.Graph.Square | Jewels.ParaSharp/Scalar.cs:92 | `this * this`: appends the node `Mul(x, x)` with value x² |
| Autodiff.Graph.MSE | Jewels.ParaSharp/Scalar.cs:96-100 | appends a node with value `(output - target)²`, whose rule remembers `output - target` |
| Autodiff.Graph.SubstituteNegative | Jewels.ParaSharp/Paravector2.cs:35-37 | a discriminant that is not negative is used as it is; a negative one is replaced by a new node with value `Epsilon` whose rule passes `Penalty * grad` back to it; either way the value used is not negative |
| Autodiff.Graph.ZeroGrad | Jewels.ParaSharp/Scalar.cs:94 | the node's gradient becomes 0; nothing else changes |
| Autodiff.Graph.Build | Jewels.ParaSharp/Scalar.cs:28-33 | the recursive search returns exactly the list and visited set of the search function `Dfs` |
| Autodiff.DfsCorrect | Jewels.ParaSharp/Scalar.cs:28-33 | `Build` appends each node reachable from `n` that is not finished yet, exactly once and after all of its inputs; the visited set gains exactly the reachable nodes |
| Autodiff.TopoOrderCorrect | Jewels.ParaSharp/Scalar.cs:21-22 | the sort from the root holds every node reachable from the root exactly once, each after all of its inputs, with the root last |
| Autodiff.ProductOrder | Jewels.ParaSharp/Scalar.cs:28-33 | for `c = a * b` the order is a, b, c |
| Autodiff.Shares | Jewels.ParaSharp/Scalar.cs:37-99 | each backward closure adds one amount per input, to the inputs in the order of `Inputs` |
| Autodiff.RulesAccumulate | Jewels.ParaSharp/Scalar.cs:37-65 | the rules of +, binary -, *, unary - and MSE add into the inputs' gradients and never overwrite them: + adds g to both inputs; - adds g to a and subtracts it from b; * adds `g·b` to a and `g·a` to b; negation subtracts g; MSE adds `2·(output - target)·g` |
| Autodiff.SquareAccumulates | Jewels.ParaSharp/Scalar.cs:92 | `Square` (x * x) adds `2·x·g` to x, because both shares land on the same node |
| Autodiff.RuleFrame | Jewels.ParaSharp/Scalar.cs:35 | a node's rule leaves the gradient of every node that is not one of its inputs unchanged |
| Autodiff.LeafRule | Jewels.ParaSharp/Scalar.cs:16 | a leaf's rule changes no gradient |
| Autodiff.Graph.ApplyRule | Jewels.ParaSharp/Scalar.cs:35 | running the closure of node n leaves values and rules unchanged and turns the gradients into `Rule(n)` |
| Autodiff.Graph.Backward | Jewels.ParaSharp/Scalar.cs:19-26 | values and rules are unchanged; the gradients become those of seeding the root and replaying the rules in reverse topological order |
| Autodiff.BackwardKeepsSeed | Jewels.ParaSharp/Scalar.cs:24-25 | the root ends with exactly the seed, because no node reachable from it has it as an input |
| Autodiff.BackwardOnlyReachable | Jewels.ParaSharp/Scalar.cs:19-26 | Backward changes the gradient of reachable nodes only |
| Autodiff.BackwardGradientSettled | Jewels.ParaSharp/Scalar.cs:25 | when a node's rule runs, every node that consumes it has already run, so the gradient it passes on is final |
| Autodiff.ReplaySplit | Jewels.ParaSharp/Scalar.cs:25 | replaying `s1 + s2` in reverse replays s2 first, then s1 |
| Autodiff.ProductClosure | Jewels.ParaSharp/Scalar.cs:51-56 | the closure of `c = a * b` with c's gradient 1 adds b's value to a and a's value to b |
| Autodiff.ProductRule | Jewels.ParaSharp/Scalar.cs:51-56 | the product rule end to end: `Backward(1)` on `a * b` from zero gradients leaves `b` on a, `a` on b and 1 on the product |
| Curve.AddGrads | Jewels.ParaSharp/Scalar.cs:40-41 | successive `Grad +=` add the delivered gradients to Alpha, Theta and Beta |
| Curve.LocalX | Jewels.ParaSharp/Paravector2D.cs:14 | the parabola is 0 at both ends of the segment, at 0 and at Alpha |
| Curve.QuadraticIsAcross | Jewels.ParaSharp/Paravector2.cs:30-32 | GlobalX's quadratic `a u² + b u + c` with `c = x - h` is exactly `c` minus the horizontal offset of the rotated local point u |
| Curve.QuadraticRoot | Jewels.ParaSharp/Paravector2.cs:39 | `(-b - sqrt d) / (2a)` solves the quadratic when the square root is exact |
| Domain.Fallback | Jewels.ParaSharp/Chain2D.cs:38 | nothing found gives the last segment, or None when there is no segment |
| Domain.PositionFrom | Jewels.ParaSharp/Chain2D.cs:57-58 | the first boundary at or after `from` that holds x: it holds x, no earlier one does, and None means none does |
| Domain.SelectInBoundaries | Jewels.ParaSharp/Chain2D.cs:55-60 | the selected index is inside the chain |
| Domain.DomainLength | Jewels.ParaSharp/Chain2D.cs:13-19 | the running sums give the sum of the spans; 0 for an empty chain |
| Domain.SetupBoundaries | Jewels.ParaSharp/Chain2D.cs:41-53 | the loop builds exactly the boundary list `Boundaries(spans, h)` |
| Domain.BoundariesLayout | Jewels.ParaSharp/Chain2.cs:41-53 | the first boundary starts at h; each ends one span after it starts; the next starts where it ends; the last ends at `h + DomainLength`; each carries its position |
| Domain.BoundariesIncreasing | Jewels.ParaSharp/Chain2D.cs:41-53 | with every span positive the intervals are non-empty and strictly increasing |
| Domain.RelevantByScan | Jewels.ParaSharp/Chain2D.cs:28-39 | the scanning loop returns the scan function's choice |
| Domain.RelevantInBoundaries | Jewels.ParaSharp/Chain2D.cs:55-60 | the lookup loop returns the first boundary that holds x, or the last segment |
| Domain.ScanIsPosition | Jewels.ParaSharp/Chain2.cs:28-39 | scanning from h, advancing `current` by each span, visits exactly the intervals of `SetupBoundaries(h)` |
| Domain.OverloadsAgree | Jewels.ParaSharp/Chain2.cs:28-60 | `GetRelevantParavector(x, h)` picks the same segment as `GetRelevantParavector(x, SetupBoundaries(h))` |
| Domain.SelectsFirstHolding | Jewels.ParaSharp/Chain2.cs:55-60 | None exactly for an empty chain; otherwise the first segment whose half-open interval holds x, or the last segment when no interval does |
| Domain.OutsideSelectsLast | Jewels.ParaSharp/Chain2.cs:59 | with no negative span, x below h or at or past `h + DomainLength` selects the last segment |
| Segments2.RootInput | Jewels.ParaSharp/Paravector2.cs:34-37 | the value GlobalX takes the root of is never negative, and equals the discriminant when that is not negative |
| Segments2.RotatedAboveX | Jewels.ParaSharp/Paravector2.cs:30-43 | in the rotated case, with a discriminant that is not negative and an exact root, the local point u that GlobalX solves for lies exactly above x, and GlobalX returns the rotated curve's height at u: the curve's height above x |
| Segments2.RotatedQuadratic | Jewels.ParaSharp/Paravector2.cs:21-30 | past both degenerate tests, `a = m sin Theta` is not zero |
| Segments2.NegativeDiscriminant | Jewels.ParaSharp/Paravector2.cs:36-39 | a negative discriminant does not stop GlobalX: the root of Epsilon is taken instead |
| Segments2.SignedRotationTest | Jewels.ParaSharp/Paravector2.cs:21-22 | every segment whose sine is not positive is evaluated as `k + LocalX(x - h)`, whatever its Theta |
| Segments2.StraightOnLine | Jewels.ParaSharp/Paravector2.cs:23-27 | a straight segment is evaluated on the rotated line through the anchor |
| Segments2.DegenerateThroughAnchor | Jewels.ParaSharp/Paravector2.cs:21-27 | both degenerate cases pass through their anchor `(h, k)` |
| Segments2.FromVector | Jewels.ParaSharp/Paravector2.cs:50-56 | `Alpha = sqrt(x² + y²)`, `Theta = atan2(y, x)`, and `Theta + 2 Beta = pi/2` |
| Segments2.FromVectorDifference | Jewels.ParaSharp/Paravector2.cs:58 | with `(dx, dy) = (x2 - x1, y2 - y1)`: `Alpha = sqrt(dx² + dy²)`, `Theta = atan2(dy, dx)`, and `Theta + 2 Beta = pi/2` |
| Segments2.LearningRateDecays | Jewels.ParaSharp/Paravector2.cs:62 | for `0 <= index < total` the rate lies in `(baseLR/2, baseLR]` and does not grow with the index |
| Segments2.Step | Jewels.ParaSharp/Paravector2.cs:64-66 | each parameter moves by `-(rate · lr · Grad)`, with its own rate |
| Segments2.Clamp | Jewels.ParaSharp/Paravector2.cs:68-71 | Alpha is not negative; 0 is kept; a Theta above pi/2 becomes `pi - 0.01` and one below -pi/2 becomes `-pi + 0.01`; afterwards `Theta + Beta <= pi`, and Beta is kept whenever that already held |
| Segments2.ThetaClampLeavesRange | Jewels.ParaSharp/Paravector2.cs:69 | a Theta above pi/2 is still above pi/2 after the clamp |
| Segments2.Paravector2.constructor | Jewels.ParaSharp/Paravector2.cs:5-9 | the three values given, with zero gradients |
| Segments2.Paravector2.Accumulate | Jewels.ParaSharp/Scalar.cs:40-41 | a backward pass adds to the three gradients and leaves the values alone |
| Segments2.Paravector2.ZeroGrad | Jewels.ParaSharp/Paravector2.cs:75-80 | all three gradients become 0; the values are unchanged |
| Segments2.Paravector2.Update | Jewels.ParaSharp/Paravector2.cs:60-73 | the new values are the clamped gradient step at `LearningRate(baseLR, index, total)`; all gradients become 0 |
| Segments2D.RootInput | Jewels.ParaSharp/Paravector2D.cs:28-31 | the value GlobalX takes the root of is never negative, and equals the discriminant when that is not negative |
| Segments2D.ShiftedAboveX | Jewels.ParaSharp/Paravector2D.cs:17-38 | GlobalX has no degenerate branch. With a discriminant that is not negative and an exact root, it returns the rotated curve's height at the local point u it solves for. That point lies `Epsilon · u²` to the right of x, because the shift of `a` by Epsilon is the only thing keeping it off the curve above x |
| Segments2D.StartsAtAnchor | Jewels.ParaSharp/Paravector2D.cs:17-38 | `GlobalX(h, h, k) = k` whenever the root taken at x = h is `-b` |
| Segments2D.XLength | Jewels.ParaSharp/Paravector2D.cs:10 | `Alpha cos Theta` is the horizontal offset of the rotated segment's end |
| Segments2D.YLength | Jewels.ParaSharp/Paravector2D.cs:11 | `Alpha sin Theta` is the vertical offset of the rotated segment's end |
| Segments2D.FromVector | Jewels.ParaSharp/Paravector2D.cs:44-50 | `Alpha = sqrt(x² + y²)`, `Theta = atan2(y, x)`, `Beta = 0` |
| Segments2D.FromVectorDifference | Jewels.ParaSharp/Paravector2D.cs:52 | with `(dx, dy) = (x2 - x1, y2 - y1)`: `Alpha = sqrt(dx² + dy²)`, `Theta = atan2(dy, dx)`, `Beta = 0` |
| Segments2D.Reversed | Jewels.ParaSharp/Paravector2D.cs:53 | the same Alpha and Beta, Theta plus pi |
| Segments2D.Updated | Jewels.ParaSharp/Paravector2D.cs:62-68 | Alpha steps by `-baseLR·Grad` and a negative result becomes 0.01; Theta steps by `-baseLR·Grad·thetaScale`, Beta by `-baseLR·Grad·betaScale`, neither clamped |
| Segments2D.EndpointLossZero | Jewels.ParaSharp/Paravector2D.cs:101-107 | with a positive penalty the endpoint loss `penalty·dx² + dy²` is never negative, and is zero exactly when the segment anchored at the start ends at the fixed end |
| Segments2D.Paravector2D.constructor | Jewels.ParaSharp/Paravector2D.cs:4-8 | the three values given, with zero gradients |
| Segments2D.Paravector2D.Accumulate | Jewels.ParaSharp/Scalar.cs:40-41 | a backward pass adds to the three gradients and leaves the values alone |
| Segments2D.Paravector2D.ZeroGrad | Jewels.ParaSharp/Paravector2D.cs:73-78 | all three gradients become 0; the values are unchanged |
| Segments2D.Paravector2D.Update | Jewels.ParaSharp/Paravector2D.cs:62-71 | the new values are `Updated(old values, old gradients, ...)`; all gradients become 0 |
| Segments2D.Paravector2D.Reverse | Jewels.ParaSharp/Paravector2D.cs:53 | a new segment with the reversed values and zero gradients; the receiver is unchanged |
| Segments2D.Paravector2D.ReverseInPlace | Jewels.ParaSharp/Paravector2D.cs:55-60 | both loops terminate with Theta in `[pi, 3 pi)`, equal to the old Theta plus pi plus whole turns; Alpha, Beta and the gradients are unchanged |
| Segments2D.SumLoss | Jewels.ParaSharp/Paravector2D.cs:95-99 | the loop's total is the sum of the per-sample losses of the segment anchored at the start point |
| Segments2D.EpochFails | Jewels.ParaSharp/Paravector2D.cs:14 | an epoch throws exactly when `Alpha = 0`, and otherwise moves the segment to `Updated` of its values and gradients. With `Alpha = 0` the slope `tan(-Beta) / Alpha` is 0 / 0 or infinite. Either that quotient or its product with `Alpha` in `LocalX(Alpha)` (line 102) is NaN, and `new Scalar` refuses it (Scalar.cs:12) |
| Segments2D.SeedAtFixedEnd | Jewels.ParaSharp/Paravector2D.cs:87-111 | when the first sample is the fixed end, the chord has length 0. InductiveFit then throws exactly when at least one epoch is asked for, given `sqrt 0 = 0` |
| Segments2D.RunEpoch | Jewels.ParaSharp/Paravector2D.cs:93-111 | a segment of length 0 throws and leaves `Epoch` failing; otherwise one epoch leaves the segment at `Epoch`'s new values and returns its total loss (samples plus endpoint term). Gradients are zero again |
| Segments2D.Train | Jewels.ParaSharp/Paravector2D.cs:91-114 | the loop reports a throw exactly when `Run` fails; otherwise it ends in the state `Run` gives, with the loss of every epoch that ran |
| Segments2D.InductiveFit | Jewels.ParaSharp/Paravector2D.cs:80-117 | None on an empty input (the source reads `inputs[0]`), and None exactly where `FitRun` fails (an empty input, or an epoch on a segment of length 0); otherwise a new segment, started on the chord from the first sample to the fixed end, holding the result of the epoch loop |
| Training.Prefix | Jewels.ParaSharp/Paravector2D.cs:91-114 | prepending the losses already reported keeps the state and the failure |
| Training.RunStops | Jewels.ParaSharp/Paravector2D.cs:91-113 | at most `epochs` epochs run; every epoch but the last had a loss of at least the threshold; the loop stops early only after a loss below the threshold |
| Training.RunFull | Jewels.ParaSharp/Chain2.cs:114-141 | with no loss below the threshold, exactly `epochs` epochs run |
| Training.RunEmpty | Jewels.ParaSharp/Chain2.cs:114 | no loss reported means no epoch was allowed, and the state is the initial one |
| Training.RunFail | Jewels.ParaSharp/Paravector2D.cs:91-111 | an epoch that throws ends the loop, and the whole run throws |
| Training.RunStop | Jewels.ParaSharp/Paravector2D.cs:113 | a loss below the threshold ends the loop with that epoch's state |
| Training.RunStep | Jewels.ParaSharp/Chain2.cs:114-139 | an epoch at or above the threshold continues with one epoch fewer |
| Training.RunDone | Jewels.ParaSharp/Chain2.cs:141 | with no epoch left the outcome is the current state and the losses so far |
| Training.RunPreserves | Jewels.ParaSharp/Chain2.cs:114-141 | a property every epoch keeps, and under which no epoch fails, holds of the final state |
| Training.RunEstablishes | Jewels.ParaSharp/Chain2.cs:114-141 | a property every epoch's result has holds of the final state once one epoch has run |
| Chains2.EvaluateDefined | Jewels.ParaSharp/Chain2.cs:63-68 | Evaluate fails exactly on an empty chain |
| Chains2.EvaluateOnSegment | Jewels.ParaSharp/Chain2.cs:63-68 | with positive spans, an x in segment j's interval is evaluated on segment j anchored at the caller's `(h, k)`: anchors are not chained |
| Chains2.EvaluateOutside | Jewels.ParaSharp/Chain2.cs:59-67 | with no negative span, x outside `[h, h + DomainLength)` is evaluated on the last segment from the same anchor |
| Chains2.DefaultRates | Jewels.ParaSharp/Chain2.cs:91-93 | a negative alphaLR, thetaLR or betaLR becomes 1, 1 or 3; a rate that is not negative is kept |
| Chains2.SeedStart | Jewels.ParaSharp/Chain2.cs:100 | `i * n / total` is a sample index |
| Chains2.SeedEnd | Jewels.ParaSharp/Chain2.cs:101-102 | `(i + 1) * n / total`, cut to `n - 1`, is a sample index at or after the start |
| Chains2.SeedSlices | Jewels.ParaSharp/Chain2.cs:98-107 | the seeding slices cover the samples end to end: the first starts at 0, each starts where the previous ends, and the last ends at `n - 1` |
| Chains2.Seed | Jewels.ParaSharp/Chain2.cs:98-111 | exactly `total` segments are seeded (none when `total <= 0`) |
| Chains2.UpdatedAllClamped | Jewels.ParaSharp/Chain2.cs:124 | after the Update of every segment, each has Alpha not negative, Theta in `(-pi, pi)` and `Theta + Beta <= pi` |
| Chains2.UpdateWithoutGradient | Jewels.ParaSharp/Chain2.cs:124 | a segment the sample's gradient did not reach is still clamped by its Update |
| Chains2.SampleStep | Jewels.ParaSharp/Chain2.cs:117-124 | a sample step keeps the number of segments |
| Chains2.SampleStepDefined | Jewels.ParaSharp/Chain2.cs:119 | a sample fails exactly on an empty chain |
| Chains2.SamplesTotal | Jewels.ParaSharp/Chain2.cs:117-128 | the samples of an epoch fail exactly on an empty chain with a sample, and keep the chain's length |
| Chains2.LengthPenaltyZero | Jewels.ParaSharp/Chain2.cs:130-134 | with a positive weight the length penalty is never negative; it is zero exactly when the domain length is back at its original value, and then it sends no gradient |
| Chains2.FitFails | Jewels.ParaSharp/Chain2.cs:77-142 | Fit fails exactly when it seeds from no sample, or has samples, no segment and an epoch to run; otherwise it returns `total` segments |
| Chains2.FitClamped | Jewels.ParaSharp/Chain2.cs:114-141 | once an epoch has run, every segment of the result is clamped |
| Chains2.AddSpan | Jewels.ParaSharp/Chain2.cs:24 | `h + Alpha * Cosine(Theta)` appends three nodes; the new node's value is the old h plus the span; earlier nodes are unchanged |
| Chains2.DomainLengthScalar | Jewels.ParaSharp/Chain2.cs:20-26 | the node returned has the sum of the spans of the values the handles hold; earlier nodes are unchanged |
| Chains2.Chain2.constructor | Jewels.ParaSharp/Chain2.cs:9-10 | the chain holds the given segments |
| Chains2.Chain2.Values | Jewels.ParaSharp/Chain2.cs:7 | the values of segment i are the i-th entry |
| Chains2.Chain2.GetRelevantParavector | Jewels.ParaSharp/Chain2.cs:55-60 | the segment at the index the boundaries select; None exactly where the source indexes outside the list |
| Chains2.Chain2.GetRelevantParavectorFrom | Jewels.ParaSharp/Chain2.cs:28-39 | None exactly for an empty chain; otherwise the segment `SetupBoundaries(h)` selects |
| Chains2.Chain2.Evaluate | Jewels.ParaSharp/Chain2.cs:63-68 | the result is `EvaluateAt` of the segments' values |
| Chains2.Chain2.UpdateAll | Jewels.ParaSharp/Chain2.cs:124 | segment j takes `Update(..., j, count)` with its own gradients; all gradients end at 0 |
| Chains2.Chain2.Forward | Jewels.ParaSharp/Chain2.cs:119-120 | picks the segment `Evaluate(x, 0, 0)` selects and returns the loss of its GlobalX against the target |
| Chains2.Chain2.BackwardAt | Jewels.ParaSharp/Chain2.cs:122 | the loss's gradient reaches the chosen segment only |
| Chains2.Chain2.Sample | Jewels.ParaSharp/Chain2.cs:117-124 | one sample moves the chain to `SampleStep`'s segments and returns its loss; gradients end at 0 |
| Chains2.Chain2.SampleAll | Jewels.ParaSharp/Chain2.cs:117-128 | the sample loop ends in `Samples`' state with the summed loss |
| Chains2.Chain2.BackwardLength | Jewels.ParaSharp/Chain2.cs:133 | the penalty's gradient reaches every segment through `Alpha * Cosine(Theta)`; values are unchanged |
| Chains2.Chain2.ApplyLengthPenalty | Jewels.ParaSharp/Chain2.cs:130-135 | the length step leaves `LengthStep`'s segments and returns the penalty |
| Chains2.Chain2.Epoch | Jewels.ParaSharp/Chain2.cs:116-136 | one epoch is the samples followed by the length step |
| Chains2.Chain2.Train | Jewels.ParaSharp/Chain2.cs:114-141 | the epoch loop ends in the state `Run` gives, with every epoch's total loss |
| Chains2.SeedSegments | Jewels.ParaSharp/Chain2.cs:96-111 | one new, distinct segment per slice, holding the seed's values, with zero gradients |
| Chains2.Fit | Jewels.ParaSharp/Chain2.cs:77-142 | None exactly where `FitRun` fails; otherwise a new chain of new, distinct segments holding `FitRun`'s values, and the losses `action` receives |
| Chains2D.AnchorIsStart | Jewels.ParaSharp/Chain2D.cs:65-76 | the x anchors Evaluate carries are the starts and ends of the `SetupBoundaries(h)` intervals |
| Chains2D.AnchorStep | Jewels.ParaSharp/Chain2D.cs:70-76 | the next x anchor is one span further; the next y anchor is the segment's GlobalX at its own end from its own anchor |
| Chains2D.EvaluateFromFound | Jewels.ParaSharp/Chain2D.cs:68-79 | the loop evaluates the segment that the boundary lookup finds, or the last segment from the end anchors |
| Chains2D.EvaluateChainedDefined | Jewels.ParaSharp/Chain2D.cs:63-80 | Evaluate fails exactly on an empty chain |
| Chains2D.EvaluateChainedOnSegment | Jewels.ParaSharp/Chain2D.cs:72-73 | with positive spans, an x in segment j's interval is evaluated on segment j anchored at `h + Σ_{i<j} span_i` and at the previous segment's end value |
| Chains2D.EvaluateChainedOutside | Jewels.ParaSharp/Chain2D.cs:79 | with no negative span, x outside the domain is evaluated on the last segment anchored at `h + DomainLength` and the last end value, not at that segment's start |
| Chains2D.EvaluateChainedContinuous | Jewels.ParaSharp/Chain2D.cs:75 | continuity: at the start of segment i + 1 the chain takes the value segment i reaches at its end, provided segment i + 1 starts at its anchor |
| Chains2D.IndicesAsWritten | Jewels.ParaSharp/Chain2D.cs:112-113 | the index functions are the source's integer expressions |
| Chains2D.SliceInRange | Jewels.ParaSharp/Chain2D.cs:112-116 | for each slice `0 <= startIndex <= endIndex <= n - 1` |
| Chains2D.DescentSlices | Jewels.ParaSharp/Chain2D.cs:110-113 | the slices partition the samples: `startIndex(0) = 0`, `endIndex(total - 1) = n - 1`, `startIndex(i) = endIndex(i - 1)`, all in `[0, n - 1]` |
| Chains2D.SegmentFitFails | Jewels.ParaSharp/Chain2D.cs:112-117 | the slice bounds satisfy `0 <= start <= end < n`; a slice fails to fit exactly when it is empty, or when at least one epoch is asked for and InductiveFit's loop throws on it |
| Chains2D.RepeatedSampleFails | Jewels.ParaSharp/Chain2D.cs:115-120 | with at least one epoch, a non-empty slice whose first sample repeats its fixed end (the first sample of the next slice, or the last sample) fails to fit, given `sqrt 0 = 0` |
| Chains2D.FixedEndNext | Jewels.ParaSharp/Chain2D.cs:119-120 | the fixed end of slice i - 1 is the first sample of slice i |
| Chains2D.FitsAt | Jewels.ParaSharp/Chain2D.cs:115-117 | fit j is slice j fitted towards its fixed end |
| Chains2D.DescendShape | Jewels.ParaSharp/Chain2D.cs:110-121 | the right-to-left loop with prepend yields the fits in left-to-right order, failing at the first failed fit |
| Chains2D.DescentShape | Jewels.ParaSharp/Chain2D.cs:101-124 | InductiveDescent fails exactly on an empty input or a failed slice; otherwise it returns `total` segments, segment j being slice j's fit towards `FixedEnd(j)` |
| Chains2D.Candidate | Jewels.ParaSharp/Chain2D.cs:140-142 | the candidate uses the same samples and total, and the default lossEpsilon 0.01 |
| Chains2D.CandidateNoise | Jewels.ParaSharp/Chain2D.cs:140-141 | draws of 0.5 leave lr and epochs as given; with a draw in `[0, 1]` the rate stays within `explorationRate / 2` of its relative size |
| Chains2D.Error | Jewels.ParaSharp/Chain2D.cs:148 | with no refinementLoss the error is the squared difference: never negative, zero exactly on a hit |
| Chains2D.ScoreFails | Jewels.ParaSharp/Chain2D.cs:144-150 | scoring fails exactly for an empty chain with a sample |
| Chains2D.ScoreSquares | Jewels.ParaSharp/Chain2D.cs:144-150 | without refinementLoss the total loss is never negative, and zero exactly when the chain hits every sample |
| Chains2D.OutcomesAt | Jewels.ParaSharp/Chain2D.cs:138-150 | outcome j is round j's candidate and its total loss, from round j's draws |
| Chains2D.ExploreFails | Jewels.ParaSharp/Chain2D.cs:138-156 | the exploration fails exactly when one of its rounds does |
| Chains2D.ExploreKeepsFirstBest | Jewels.ParaSharp/Chain2D.cs:152-154 | no round beats the loss kept; a kept loss below the start is some round's, and every earlier round's loss is strictly greater (ties go to the earlier round); otherwise the starting chain is kept |
| Chains2D.ExploreReports | Jewels.ParaSharp/Chain2D.cs:152-155 | `progressAction` fires on strict improvements only: the report rounds increase, the losses strictly decrease, and the last report is the loss kept |
| Chains2D.ExplorationSelects | Jewels.ParaSharp/Chain2D.cs:126-159 | the first candidate with the smallest loss is returned, or the empty chain when none beats `float.MaxValue`; reported losses strictly decrease |
| Chains2D.Chain2D.constructor | Jewels.ParaSharp/Chain2D.cs:9-10 | the chain holds the given segments |
| Chains2D.Chain2D.GetRelevantParavector | Jewels.ParaSharp/Chain2D.cs:55-60 | the segment at the index the boundaries select; None exactly where the source indexes outside the list |
| Chains2D.Chain2D.GetRelevantParavectorFrom | Jewels.ParaSharp/Chain2D.cs:28-39 | None exactly for an empty chain; otherwise the segment `SetupBoundaries(h)` selects |
| Chains2D.Chain2D.Evaluate | Jewels.ParaSharp/Chain2D.cs:63-80 | the loop with `(currentH, currentK)` computes `EvaluateChained` of the segments' values |
| Chains2D.FitSlice | Jewels.ParaSharp/Chain2D.cs:112-117 | one pass fits slice i towards `(endX, endY)` with InductiveFit and returns where the slice starts |
| Chains2D.InductiveDescent | Jewels.ParaSharp/Chain2D.cs:101-124 | None exactly where `DescentWith` fails; otherwise a new chain of distinct segments holding `DescentWith`'s values |
| Chains2D.TotalLoss | Jewels.ParaSharp/Chain2D.cs:144-150 | the loop's total is the candidate's `Score`; None where Evaluate throws |
| Chains2D.InductiveExploration | Jewels.ParaSharp/Chain2D.cs:126-159 | None exactly where `ExplorationRun` fails; otherwise a chain holding the selected candidate's values, with the reports `progressAction` receives |

## Left out

- Floating point: values are `real`. Single-precision rounding, overflow to infinity and NaN propagation through arithmetic are not modelled. NaN is modelled in three places only:
  - the constructor's check (`Autodiff.Graph.NewScalar`);
  - the two ways a graph operation makes a NaN from finite values: 0 / 0 in `Autodiff.Graph.Divide` and the square root of a negative in `Autodiff.Graph.SquareRoot`;
  - the NaN slope of a segment of length 0 in `Segments2D.Epoch`, which makes `InductiveFit` throw.
- Segments2.GlobalX, Segments2D.GlobalX, Chains2.Chain2.Evaluate, Chains2.Fit, Chains2D.Chain2D.Evaluate, Chains2D.InductiveExploration: every `GlobalX` call computes the slope `tan(-Beta) / Alpha` (Paravector2.cs:19, Paravector2D.cs:22). Only InductiveFit's epochs treat a segment of length 0 as a throw. These evaluations return a value for it, with the division by zero as `Numerics.FDiv` gives it. Other 0 / 0 quotients that evaluation can meet are not modelled as throws either. One is the local coordinate when `2a` and its numerator are both 0.
- Segments2D.EpochFails: "exactly" holds within the model's arithmetic. An epoch with `Alpha` not 0 that reaches NaN through single-precision overflow to infinity throws in the source and not in the model.
- `sin`, `cos`, `tan`, `sqrt` and `atan2` are uninterpreted, and so is a division by zero. Nothing is proved about whether the rules for Sine, Cosine, Tangent, Sqrt and `/` are true derivatives.
- How well gradient descent fits the data. Only the loop and selection structure is specified.
- Gradients delivered to segments: the graph's `Backward` is modelled and proved (`Autodiff`), but the training code receives the gradients that reach Alpha, Theta and Beta from a caller-supplied function (`grads`). Building each sample's Scalar graph through `GlobalX` is not modelled, so the loss's gradient is taken as given. The length penalty's gradient in `Chain2.Fit` is written out from the Scalar rules.
- `GlobalX` builds Scalar nodes. The model computes its value only; the negative-discriminant node and its rule are `Autodiff.Graph.SubstituteNegative`.
- The `Scalar` overload of `Chain2D.Evaluate` (Chain2D.cs:82-99) and of `Chain2.Evaluate` (Chain2.cs:70-75) are not modelled separately. They choose the segment the float overload chooses and build graph nodes for the same values.
- `Chain2D.DomainLengthScalar` is the same code as `Chains2.DomainLengthScalar` and is modelled once.
- `Random.Shared` in `InductiveExploration`: the two draws of each round are the input `noise`.
- Loss functions (`loss`, `refinementLoss`) are caller-supplied functions on values.
- `action` (Fit) and `progressAction` (InductiveExploration) are not called. What they would receive is returned as a ghost sequence (`losses`, `reports`).
- Chains2D.InductiveDescent: takes a ghost `fit` that must be the slice fit (`FitIs`). Its contract is stated through `DescentWith(fit, d)`, and `DescentShape` states the result for the real slice fit.
- Chains2D.FitSlice: stated through the same ghost `fit`.
- 32-bit integer overflow in the index products `i * inputs.Length` and `(total - i) * inputs.Length`: indices are unbounded.
- The float-to-int cast of the noisy epoch count is modelled as truncation toward zero (`Numerics.Truncate`). A value outside the `int` range is not modelled.
- `inputs` and `targets` are required to have the same length. The source reads `targets[i]` for every input index and throws when targets is shorter; the model does not carry that failure.
- Jewels.ParaSharp/Paravector.cs is not part of this model: it is an accelerator tensor backend over external libraries.
- The plotting extensions (rendering and PNG output) and the console test harness are not part of this model.
