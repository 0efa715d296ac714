/**
 * The reverse-mode automatic differentiation engine (class Scalar).
 *
 * A Scalar node owns a value, an accumulated gradient, its input nodes and a
 * closure that pushes its gradient into its inputs. Here the nodes live in an
 * arena (class Graph): a node is a handle into three parallel sequences, its
 * inputs are handles of EARLIER nodes (the graph is only ever built forwards),
 * and the closure is replaced by a tag (`Op`) that says which rule to run.
 */
module Autodiff {
  import opened Wrappers
  import opened Numerics

  /** The backward rule of a node together with the handles of its inputs. */
  datatype Op =
    | Leaf
    | Add(a: nat, b: nat)
    | Sub(a: nat, b: nat)
    | Mul(a: nat, b: nat)
    | Div(a: nat, b: nat)
    | Neg(a: nat)
    | Sin(a: nat)
    | Cos(a: nat)
    | Tan(a: nat)
    | Sqrt(a: nat)
    /** MSE: `part` is output - target, fixed when the node is built. */
    | SquaredError(a: nat, part: real)
    /** The node that stands for a negative discriminant in GlobalX. */
    | Substitute(a: nat)

  /** The node's Inputs list, in order. */
  function Inputs(op: Op): seq<nat> {
    match op
    case Leaf => []
    case Add(a, b) => [a, b]
    case Sub(a, b) => [a, b]
    case Mul(a, b) => [a, b]
    case Div(a, b) => [a, b]
    case Neg(a) => [a]
    case Sin(a) => [a]
    case Cos(a) => [a]
    case Tan(a) => [a]
    case Sqrt(a) => [a]
    case SquaredError(a, _) => [a]
    case Substitute(a) => [a]
  }

  /** Every handle in `ins` lies below `bound`. */
  ghost predicate Below(ins: seq<nat>, bound: nat) {
    forall k :: 0 <= k < |ins| ==> ins[k] < bound
  }

  /** Every input of a node was created before it. */
  ghost predicate WellFormed(ops: seq<Op>) {
    forall n :: 0 <= n < |ops| ==> Below(Inputs(ops[n]), n)
  }

  /** The operand handles of `op` lie below `bound`. */
  ghost predicate OperandsIn(op: Op, bound: nat) {
    && (!op.Leaf? ==> op.a < bound)
    && ((op.Add? || op.Sub? || op.Mul? || op.Div?) ==> op.b < bound)
  }

  lemma OperandsBelow(ops: seq<Op>, n: nat)
    requires WellFormed(ops) && n < |ops|
    ensures forall j :: j in Inputs(ops[n]) ==> j < n
    ensures OperandsIn(ops[n], n)
  {
    assert Below(Inputs(ops[n]), n);
    if !ops[n].Leaf? {
      assert Inputs(ops[n])[0] == ops[n].a;
    }
    if ops[n].Add? || ops[n].Sub? || ops[n].Mul? || ops[n].Div? {
      assert Inputs(ops[n])[1] == ops[n].b;
    }
  }

  ghost predicate Shape(values: seq<real>, ops: seq<Op>, grads: seq<real>) {
    |values| == |ops| && |grads| == |ops|
  }

  // ---------------------------------------------------------------------------
  // Reachability and the depth-first topological sort
  // ---------------------------------------------------------------------------

  /** The nodes reachable from `n` by following input edges, `n` included. */
  ghost function Reach(ops: seq<Op>, n: nat): set<nat>
    requires WellFormed(ops) && n < |ops|
    decreases n, 1
  {
    {n} + ReachAll(ops, Inputs(ops[n]), n)
  }

  ghost function ReachAll(ops: seq<Op>, ins: seq<nat>, parent: nat): set<nat>
    requires WellFormed(ops) && parent <= |ops| && Below(ins, parent)
    decreases parent, 0, |ins|
  {
    if ins == [] then {} else Reach(ops, ins[0]) + ReachAll(ops, ins[1..], parent)
  }

  /** Scalar.Build as a function: mark `n` visited; if it was not visited
      before, visit its inputs in order and then append `n` to `topo`. */
  ghost function Dfs(ops: seq<Op>, n: nat, topo: seq<nat>, visited: set<nat>): (seq<nat>, set<nat>)
    requires WellFormed(ops) && n < |ops|
    decreases n, 1
  {
    if n in visited then (topo, visited)
    else
      var (t, v) := DfsAll(ops, Inputs(ops[n]), n, topo, visited + {n});
      (t + [n], v)
  }

  ghost function DfsAll(ops: seq<Op>, ins: seq<nat>, parent: nat, topo: seq<nat>, visited: set<nat>): (seq<nat>, set<nat>)
    requires WellFormed(ops) && parent <= |ops| && Below(ins, parent)
    decreases parent, 0, |ins|
  {
    if ins == [] then (topo, visited)
    else
      var (t, v) := Dfs(ops, ins[0], topo, visited);
      DfsAll(ops, ins[1..], parent, t, v)
  }

  /** The order Backward replays rules in (reversed): Build from an empty list and set. */
  ghost function TopoOrder(ops: seq<Op>, root: nat): (r: seq<nat>)
    requires WellFormed(ops) && root < |ops|
    ensures Below(r, |ops|)
  {
    DfsCorrect(ops, root, [], {});
    Dfs(ops, root, [], {}).0
  }

  ghost predicate Distinct(s: seq<nat>) {
    forall p, q :: 0 <= p < q < |s| ==> s[p] != s[q]
  }

  /** Every node in `topo` comes after all of its inputs. */
  ghost predicate Closed(ops: seq<Op>, topo: seq<nat>) {
    forall p :: 0 <= p < |topo| ==>
      topo[p] < |ops| && forall j :: j in Inputs(ops[topo[p]]) ==> j in topo[..p]
  }

  /** The state of the search: `topo` holds finished nodes, each once, after
      their inputs; visited nodes not yet in `topo` are the ones still being
      expanded, and they all lie at or above `bound`. */
  ghost predicate DfsState(ops: seq<Op>, topo: seq<nat>, visited: set<nat>, bound: nat) {
    && Distinct(topo)
    && Closed(ops, topo)
    && (forall x :: x in topo ==> x in visited)
    && (forall x :: x in visited ==> x < |ops|)
    && (forall x :: x in visited && x !in topo ==> bound <= x)
  }

  lemma {:induction false} ReachBelow(ops: seq<Op>, n: nat)
    requires WellFormed(ops) && n < |ops|
    ensures forall x :: x in Reach(ops, n) ==> x <= n
    decreases n, 1
  {
    ReachAllBelow(ops, Inputs(ops[n]), n);
  }

  lemma {:induction false} ReachAllBelow(ops: seq<Op>, ins: seq<nat>, parent: nat)
    requires WellFormed(ops) && parent <= |ops| && Below(ins, parent)
    ensures forall x :: x in ReachAll(ops, ins, parent) ==> x < parent
    decreases parent, 0, |ins|
  {
    if ins != [] {
      ReachBelow(ops, ins[0]);
      ReachAllBelow(ops, ins[1..], parent);
    }
  }

  lemma {:induction false} InputsReached(ops: seq<Op>, ins: seq<nat>, parent: nat)
    requires WellFormed(ops) && parent <= |ops| && Below(ins, parent)
    ensures forall j :: j in ins ==> j in ReachAll(ops, ins, parent)
    decreases |ins|
  {
    if ins != [] {
      InputsReached(ops, ins[1..], parent);
      forall j | j in ins ensures j in ReachAll(ops, ins, parent) {
        if j != ins[0] { assert j in ins[1..]; }
      }
    }
  }

  /** A node finished by the search brings all of its reachable nodes with it. */
  lemma {:induction false} ClosedReach(ops: seq<Op>, topo: seq<nat>, m: nat)
    requires WellFormed(ops) && Closed(ops, topo) && m in topo && m < |ops|
    ensures forall x :: x in Reach(ops, m) ==> x in topo
    decreases m, 1
  {
    var p :| 0 <= p < |topo| && topo[p] == m;
    assert forall j :: j in Inputs(ops[m]) ==> j in topo[..p];
    ClosedReachAll(ops, topo, Inputs(ops[m]), m);
  }

  lemma {:induction false} ClosedReachAll(ops: seq<Op>, topo: seq<nat>, ins: seq<nat>, parent: nat)
    requires WellFormed(ops) && Closed(ops, topo) && parent <= |ops|
    requires Below(ins, parent) && forall j :: j in ins ==> j in topo
    ensures forall x :: x in ReachAll(ops, ins, parent) ==> x in topo
    decreases parent, 0, |ins|
  {
    if ins != [] {
      ClosedReach(ops, topo, ins[0]);
      ClosedReachAll(ops, topo, ins[1..], parent);
    }
  }

  lemma StateWeaken(ops: seq<Op>, topo: seq<nat>, visited: set<nat>, bound: nat, bound': nat)
    requires DfsState(ops, topo, visited, bound) && bound' <= bound
    ensures DfsState(ops, topo, visited, bound')
  {
  }

  /** Build appends exactly the reachable nodes not yet finished, each once,
      after their inputs, and leaves the nodes under expansion as they were. */
  lemma {:induction false} DfsCorrect(ops: seq<Op>, n: nat, topo: seq<nat>, visited: set<nat>)
    requires WellFormed(ops) && n < |ops| && DfsState(ops, topo, visited, n + 1)
    ensures var (t, v) := Dfs(ops, n, topo, visited);
      && DfsState(ops, t, v, n + 1)
      && |topo| <= |t| && t[..|topo|] == topo
      && v == visited + Reach(ops, n)
      && (forall x :: x in t <==> x in topo || x in Reach(ops, n))
      && (forall x :: x in v && x !in t <==> x in visited && x !in topo)
    decreases n, 1
  {
    if n in visited {
      assert n in topo;
      ClosedReach(ops, topo, n);
    } else {
      var ins := Inputs(ops[n]);
      var visited1 := visited + {n};
      assert DfsState(ops, topo, visited1, n);
      DfsAllCorrect(ops, ins, n, topo, visited1);
      var (t, v) := DfsAll(ops, ins, n, topo, visited1);
      ReachAllBelow(ops, ins, n);
      ReachBelow(ops, n);
      InputsReached(ops, ins, n);
      assert n !in t;
      Finish(ops, t, n);
      assert (t + [n])[..|topo|] == topo;
    }
  }

  /** Appending a node whose inputs are all finished keeps the list
      duplicate-free and closed. */
  lemma Finish(ops: seq<Op>, t: seq<nat>, n: nat)
    requires Distinct(t) && Closed(ops, t) && n < |ops| && n !in t
    requires forall j :: j in Inputs(ops[n]) ==> j in t
    ensures Distinct(t + [n]) && Closed(ops, t + [n]) && (t + [n])[..|t|] == t
  {
    var t' := t + [n];
    assert t'[..|t|] == t;
    assert forall p :: 0 <= p < |t| ==> t'[..p] == t[..p];
  }

  lemma {:induction false} DfsAllCorrect(ops: seq<Op>, ins: seq<nat>, parent: nat, topo: seq<nat>, visited: set<nat>)
    requires WellFormed(ops) && parent <= |ops| && Below(ins, parent)
    requires DfsState(ops, topo, visited, parent)
    ensures var (t, v) := DfsAll(ops, ins, parent, topo, visited);
      && DfsState(ops, t, v, parent)
      && |topo| <= |t| && t[..|topo|] == topo
      && v == visited + ReachAll(ops, ins, parent)
      && (forall x :: x in t <==> x in topo || x in ReachAll(ops, ins, parent))
      && (forall x :: x in v && x !in t <==> x in visited && x !in topo)
    decreases parent, 0, |ins|
  {
    if ins != [] {
      StateWeaken(ops, topo, visited, parent, ins[0] + 1);
      DfsCorrect(ops, ins[0], topo, visited);
      var (t1, v1) := Dfs(ops, ins[0], topo, visited);
      assert DfsState(ops, t1, v1, parent);
      DfsAllCorrect(ops, ins[1..], parent, t1, v1);
      var (t, v) := DfsAll(ops, ins[1..], parent, t1, v1);
      assert t[..|topo|] == t[..|t1|][..|topo|];
    }
  }

  /** The order Build produces: every node reachable from the root exactly
      once, each after all of its inputs, the root last. */
  lemma TopoOrderCorrect(ops: seq<Op>, root: nat)
    requires WellFormed(ops) && root < |ops|
    ensures var t := TopoOrder(ops, root);
      && Distinct(t)
      && Closed(ops, t)
      && (forall x :: x in t <==> x in Reach(ops, root))
      && |t| > 0 && t[|t| - 1] == root
  {
    DfsCorrect(ops, root, [], {});
  }

  // ---------------------------------------------------------------------------
  // Backward rules
  // ---------------------------------------------------------------------------

  /** One `input.Grad += amount` of a backward closure. */
  datatype Share = Share(to: nat, amount: real)

  /** The body of the backward closure each Scalar operation installs: the
      amount added to each input, given the node's gradient `g`. */
  function Shares(num: Numerics, values: seq<real>, op: Op, g: real): (r: seq<Share>)
    requires OperandsIn(op, |values|)
    ensures |r| == |Inputs(op)|
    ensures forall k :: 0 <= k < |r| ==> r[k].to == Inputs(op)[k]
  {
    match op
    case Leaf => []
    case Add(a, b) => [Share(a, g), Share(b, g)]
    case Sub(a, b) => [Share(a, g), Share(b, -g)]
    case Mul(a, b) => [Share(a, g * values[b]), Share(b, g * values[a])]
    case Div(a, b) =>
      [Share(a, FDiv(num, g, SingleEpsilon + values[b])),
       Share(b, -g * values[a] / (values[b] * values[b] + SingleEpsilon))]
    case Neg(a) => [Share(a, -g)]
    case Sin(a) => [Share(a, g * num.cos(values[a]))]
    case Cos(a) => [Share(a, -g * num.sin(values[a]))]
    case Tan(a) =>
      var sec := FDiv(num, 1.0, num.cos(values[a]) + SingleEpsilon);
      [Share(a, g * sec * sec)]
    case Sqrt(a) => [Share(a, FDiv(num, g, 2.0 * num.sqrt(values[a]) + SingleEpsilon))]
    case SquaredError(a, part) => [Share(a, g * 2.0 * part)]
    case Substitute(a) => [Share(a, Penalty * g)]
  }

  /** Everything a list of shares adds to node `j`. */
  function Total(shares: seq<Share>, j: nat): real {
    if shares == [] then 0.0
    else (if shares[0].to == j then shares[0].amount else 0.0) + Total(shares[1..], j)
  }

  /** Shares aimed elsewhere add nothing. */
  lemma {:induction false} TotalElsewhere(shares: seq<Share>, j: nat)
    requires forall k :: 0 <= k < |shares| ==> shares[k].to != j
    ensures Total(shares, j) == 0.0
    decreases |shares|
  {
    if shares != [] {
      TotalElsewhere(shares[1..], j);
    }
  }

  /** A closure has at most two shares; what they add, written out. */
  lemma TotalOfTwo(shares: seq<Share>, j: nat)
    requires |shares| <= 2
    ensures Total(shares, j)
      == (if |shares| > 0 && shares[0].to == j then shares[0].amount else 0.0)
       + (if |shares| > 1 && shares[1].to == j then shares[1].amount else 0.0)
  {
    if |shares| > 0 {
      var rest := shares[1..];
      if |rest| > 0 {
        assert rest[1..] == [];
        assert Total(rest, j) == (if rest[0].to == j then rest[0].amount else 0.0) + Total(rest[1..], j);
      }
    }
  }

  /** The closure of node `n` run on `grads`: every node gains what the
      node's shares add to it, so an input used twice gains both. */
  ghost function Rule(num: Numerics, values: seq<real>, ops: seq<Op>, grads: seq<real>, n: nat): (r: seq<real>)
    requires Shape(values, ops, grads) && WellFormed(ops) && n < |ops|
    ensures |r| == |grads|
  {
    OperandsBelow(ops, n);
    var shares := Shares(num, values, ops[n], grads[n]);
    seq(|grads|, j requires 0 <= j < |grads| => grads[j] + Total(shares, j))
  }

  /** Nodes that are not inputs of `n` keep their gradient. */
  lemma RuleFrame(num: Numerics, values: seq<real>, ops: seq<Op>, grads: seq<real>, n: nat, j: nat)
    requires Shape(values, ops, grads) && WellFormed(ops) && n < |ops| && j < |ops|
    requires j !in Inputs(ops[n])
    ensures Rule(num, values, ops, grads, n)[j] == grads[j]
  {
    OperandsBelow(ops, n);
    var shares := Shares(num, values, ops[n], grads[n]);
    forall k | 0 <= k < |shares| ensures shares[k].to != j {
      assert shares[k].to == Inputs(ops[n])[k];
    }
    TotalElsewhere(shares, j);
  }

  /** Square is `x * x`: its closure adds 2 * x * grad to x. */
  lemma SquareAccumulates(num: Numerics, values: seq<real>, ops: seq<Op>, grads: seq<real>, n: nat, x: nat)
    requires Shape(values, ops, grads) && WellFormed(ops) && n < |ops| && x < n && ops[n] == Mul(x, x)
    ensures Rule(num, values, ops, grads, n)[x] == grads[x] + 2.0 * values[x] * grads[n]
  {
    var shares := Shares(num, values, ops[n], grads[n]);
    TotalOfTwo(shares, x);
  }

  /** The closures of +, binary -, *, unary - and MSE add into their inputs'
      gradients: each input keeps the gradient it had and gains its share. */
  lemma RulesAccumulate(num: Numerics, values: seq<real>, ops: seq<Op>, grads: seq<real>, n: nat)
    requires Shape(values, ops, grads) && WellFormed(ops) && n < |ops|
    ensures OperandsIn(ops[n], n)
    ensures var r, g := Rule(num, values, ops, grads, n), grads[n];
      && (ops[n].Add? && ops[n].a != ops[n].b ==>
            r[ops[n].a] == grads[ops[n].a] + g && r[ops[n].b] == grads[ops[n].b] + g)
      && (ops[n].Sub? && ops[n].a != ops[n].b ==>
            r[ops[n].a] == grads[ops[n].a] + g && r[ops[n].b] == grads[ops[n].b] - g)
      && (ops[n].Mul? && ops[n].a != ops[n].b ==>
            r[ops[n].a] == grads[ops[n].a] + g * values[ops[n].b] && r[ops[n].b] == grads[ops[n].b] + g * values[ops[n].a])
      && (ops[n].Neg? ==> r[ops[n].a] == grads[ops[n].a] - g)
      && (ops[n].SquaredError? ==> r[ops[n].a] == grads[ops[n].a] + g * 2.0 * ops[n].part)
  {
    OperandsBelow(ops, n);
    var shares := Shares(num, values, ops[n], grads[n]);
    if |Inputs(ops[n])| > 0 {
      TotalOfTwo(shares, Inputs(ops[n])[0]);
    }
    if |Inputs(ops[n])| > 1 {
      TotalOfTwo(shares, Inputs(ops[n])[1]);
    }
  }

  /** Replays the rules of `order` from its last element to its first. */
  ghost function ReplayRev(num: Numerics, values: seq<real>, ops: seq<Op>, grads: seq<real>, order: seq<nat>): (r: seq<real>)
    requires Shape(values, ops, grads) && WellFormed(ops) && Below(order, |ops|)
    ensures |r| == |grads|
    decreases |order|
  {
    if order == [] then grads
    else ReplayRev(num, values, ops, Rule(num, values, ops, grads, order[|order| - 1]), order[..|order| - 1])
  }

  /** A node that is no input of any replayed node keeps its gradient. */
  lemma {:induction false} ReplayFrame(num: Numerics, values: seq<real>, ops: seq<Op>, grads: seq<real>, order: seq<nat>, j: nat)
    requires Shape(values, ops, grads) && WellFormed(ops) && Below(order, |ops|)
    requires j < |ops| && forall x :: x in order ==> j !in Inputs(ops[x])
    ensures ReplayRev(num, values, ops, grads, order)[j] == grads[j]
    decreases |order|
  {
    if order != [] {
      var last := order[|order| - 1];
      RuleFrame(num, values, ops, grads, last, j);
      var rest := order[..|order| - 1];
      assert forall x :: x in rest ==> x in order;
      assert Below(rest, |ops|);
      ReplayFrame(num, values, ops, Rule(num, values, ops, grads, last), rest, j);
    }
  }

  lemma {:induction false} ReplaySplit(num: Numerics, values: seq<real>, ops: seq<Op>, grads: seq<real>, s1: seq<nat>, s2: seq<nat>)
    requires Shape(values, ops, grads) && WellFormed(ops)
    requires Below(s1, |ops|) && Below(s2, |ops|)
    ensures ReplayRev(num, values, ops, grads, s1 + s2) == ReplayRev(num, values, ops, ReplayRev(num, values, ops, grads, s2), s1)
    decreases |s2|
  {
    if s2 == [] {
      assert s1 + s2 == s1;
    } else {
      var last := s2[|s2| - 1];
      var s2' := s2[..|s2| - 1];
      assert (s1 + s2)[..|s1 + s2| - 1] == s1 + s2';
      assert Below(s1 + s2, |ops|) && Below(s2', |ops|);
      ReplaySplit(num, values, ops, Rule(num, values, ops, grads, last), s1, s2');
    }
  }

  /** What Backward leaves in the gradients: the root's gradient set to the
      seed, the others as they were, then every rule replayed in reverse
      topological order. */
  ghost function BackwardGrads(num: Numerics, values: seq<real>, ops: seq<Op>, grads: seq<real>, root: nat, seed: real): (r: seq<real>)
    requires Shape(values, ops, grads) && WellFormed(ops) && root < |ops|
    ensures |r| == |grads|
  {
    TopoOrderCorrect(ops, root);
    ReachBelow(ops, root);
    ReplayRev(num, values, ops, grads[root := seed], TopoOrder(ops, root))
  }

  /** The root ends with exactly the seed: no reachable node has it as input. */
  lemma BackwardKeepsSeed(num: Numerics, values: seq<real>, ops: seq<Op>, grads: seq<real>, root: nat, seed: real)
    requires Shape(values, ops, grads) && WellFormed(ops) && root < |ops|
    ensures BackwardGrads(num, values, ops, grads, root, seed)[root] == seed
  {
    TopoOrderCorrect(ops, root);
    ReachBelow(ops, root);
    var t := TopoOrder(ops, root);
    forall x | x in t ensures root !in Inputs(ops[x]) {
      assert x <= root;
    }
    ReplayFrame(num, values, ops, grads[root := seed], t, root);
  }

  /** Backward changes the gradient of reachable nodes only. */
  lemma BackwardOnlyReachable(num: Numerics, values: seq<real>, ops: seq<Op>, grads: seq<real>, root: nat, seed: real, j: nat)
    requires Shape(values, ops, grads) && WellFormed(ops) && root < |ops|
    requires j < |ops| && j !in Reach(ops, root)
    ensures BackwardGrads(num, values, ops, grads, root, seed)[j] == grads[j]
  {
    TopoOrderCorrect(ops, root);
    var t := TopoOrder(ops, root);
    forall x | x in t ensures j !in Inputs(ops[x]) {
      var p :| 0 <= p < |t| && t[p] == x;
      if j in Inputs(ops[x]) {
        assert false;
      }
    }
    ReplayFrame(num, values, ops, grads[root := seed], t, j);
  }

  /** Consumers run first: when the rule of the node at position p of the
      order fires (after the rules of positions p+1.. have run), the
      gradient it reads is already the final one. */
  lemma BackwardGradientSettled(num: Numerics, values: seq<real>, ops: seq<Op>, grads: seq<real>, root: nat, seed: real, p: nat)
    requires Shape(values, ops, grads) && WellFormed(ops) && root < |ops|
    requires p < |TopoOrder(ops, root)|
    ensures var t := TopoOrder(ops, root);
      ReplayRev(num, values, ops, grads[root := seed], t[p + 1..])[t[p]]
        == BackwardGrads(num, values, ops, grads, root, seed)[t[p]]
  {
    TopoOrderCorrect(ops, root);
    ReachBelow(ops, root);
    var t := TopoOrder(ops, root);
    var g0 := grads[root := seed];
    assert t == t[..p + 1] + t[p + 1..];
    assert forall x :: x in t[..p + 1] ==> x in t;
    assert forall x :: x in t[p + 1..] ==> x in t;
    ReplaySplit(num, values, ops, g0, t[..p + 1], t[p + 1..]);
    var before := ReplayRev(num, values, ops, g0, t[p + 1..]);
    forall x | x in t[..p + 1] ensures t[p] !in Inputs(ops[x]) {
      var q :| 0 <= q <= p && t[q] == x;
      if t[p] in Inputs(ops[x]) {
        assert false;
      }
    }
    ReplayFrame(num, values, ops, before, t[..p + 1], t[p]);
  }

  /** Build on c = a * b visits a, then b, then c. */
  lemma ProductOrder(ops: seq<Op>)
    requires ops == [Leaf, Leaf, Mul(0, 1)]
    ensures WellFormed(ops) && TopoOrder(ops, 2) == [0, 1, 2]
  {
    assert Inputs(ops[2]) == [0, 1];
    assert Inputs(ops[0]) == [] && Inputs(ops[1]) == [];
    assert WellFormed(ops);
    assert {2} + {0} == {2, 0} && {2, 0} + {1} == {2, 0, 1};
    var e0 := DfsAll(ops, Inputs(ops[0]), 0, [], {2} + {0});
    assert e0 == ([], {2, 0});
    assert e0.0 + [0] == [0];
    assert Dfs(ops, 0, [], {2}) == (e0.0 + [0], e0.1) == ([0], {2, 0});
    var e1 := DfsAll(ops, Inputs(ops[1]), 1, [0], {2, 0} + {1});
    assert e1 == ([0], {2, 0, 1});
    assert e1.0 + [1] == [0, 1];
    assert Dfs(ops, 1, [0], {2, 0}) == (e1.0 + [1], e1.1) == ([0, 1], {2, 0, 1});
    assert [0, 1][1..] == [1] && [1][1..] == [];
    assert DfsAll(ops, [1], 2, [0], {2, 0}) == ([0, 1], {2, 0, 1});
    assert DfsAll(ops, [0, 1], 2, [], {2}) == ([0, 1], {2, 0, 1});
    assert {} + {2} == {2};
  }

  /** A leaf's closure adds nothing. */
  lemma LeafRule(num: Numerics, values: seq<real>, ops: seq<Op>, grads: seq<real>, n: nat)
    requires Shape(values, ops, grads) && WellFormed(ops) && n < |ops| && ops[n] == Leaf
    ensures Rule(num, values, ops, grads, n) == grads
  {
    var r := Rule(num, values, ops, grads, n);
    assert forall j :: 0 <= j < |grads| ==> r[j] == grads[j];
  }

  /** The closure of c = a * b with c's gradient 1 leaves b's value on a and
      a's value on b. */
  lemma ProductClosure(num: Numerics, values: seq<real>, ops: seq<Op>)
    requires |values| == 3 && ops == [Leaf, Leaf, Mul(0, 1)]
    ensures WellFormed(ops) && Rule(num, values, ops, [0.0, 0.0, 1.0], 2) == [values[1], values[0], 1.0]
  {
    assert WellFormed(ops) by {
      ProductOrder(ops);
    }
    var g0 := [0.0, 0.0, 1.0];
    var g1 := Rule(num, values, ops, g0, 2);
    var shares := Shares(num, values, ops[2], g0[2]);
    assert shares == [Share(0, 1.0 * values[1]), Share(1, 1.0 * values[0])];
    forall j | 0 <= j < 3 ensures g1[j] == [values[1], values[0], 1.0][j] {
      TotalOfTwo(shares, j);
    }
  }

  /** The product rule: for c = a * b over two distinct leaves, Backward(1)
      from zero gradients leaves b's value on a and a's value on b. */
  lemma ProductRule(num: Numerics, values: seq<real>, ops: seq<Op>)
    requires |values| == 3 && ops == [Leaf, Leaf, Mul(0, 1)]
    ensures WellFormed(ops)
    ensures var r := BackwardGrads(num, values, ops, [0.0, 0.0, 0.0], 2, 1.0);
      r[0] == values[1] && r[1] == values[0] && r[2] == 1.0
  {
    ProductOrder(ops);
    ProductClosure(num, values, ops);
    var g0 := [0.0, 0.0, 1.0];
    assert [0.0, 0.0, 0.0][2 := 1.0] == g0;
    var g1 := [values[1], values[0], 1.0];
    LeafRule(num, values, ops, g1, 1);
    LeafRule(num, values, ops, g1, 0);
    assert [0, 1, 2][..2] == [0, 1] && [0, 1][..1] == [0];
    assert ReplayRev(num, values, ops, g0, [0, 1, 2]) == ReplayRev(num, values, ops, g1, [0, 1]);
    assert ReplayRev(num, values, ops, g1, [0, 1]) == ReplayRev(num, values, ops, g1, [0]) == g1;
  }

  // ---------------------------------------------------------------------------
  // The arena
  // ---------------------------------------------------------------------------

  /** All Scalar nodes of one computation, in creation order. */
  class Graph {
    const num: Numerics
    var values: seq<real>
    var grads: seq<real>
    var ops: seq<Op>

    ghost predicate Valid()
      reads this
    {
      Shape(values, ops, grads) && WellFormed(ops)
    }

    constructor (num: Numerics)
      ensures Valid() && this.num == num && values == [] && grads == [] && ops == []
    {
      this.num := num;
      values, grads, ops := [], [], [];
    }

    method Push(v: real, op: Op) returns (h: nat)
      requires Valid() && Below(Inputs(op), |ops|)
      modifies this
      ensures Valid() && h == |old(ops)|
      ensures values == old(values) + [v] && grads == old(grads) + [0.0] && ops == old(ops) + [op]
    {
      h := |ops|;
      values, grads, ops := values + [v], grads + [0.0], ops + [op];
    }

    /** `new Scalar(val)`: refused (None) when val is NaN. */
    method NewScalar(val: Float) returns (r: Option<nat>)
      requires Valid()
      modifies this
      ensures Valid()
      ensures r.None? <==> val.NaN?
      ensures r.None? ==> values == old(values) && grads == old(grads) && ops == old(ops)
      ensures r.Some? ==> (r.value == |old(ops)| && values == old(values) + [val.r]
        && grads == old(grads) + [0.0] && ops == old(ops) + [Leaf])
    {
      if val.NaN? {
        return None;
      }
      var h := Push(val.r, Leaf);
      r := Some(h);
    }

    /** A constant leaf built from a value that is already a number. */
    method Constant(v: real) returns (h: nat)
      requires Valid()
      modifies this
      ensures Valid() && h == |old(ops)|
      ensures values == old(values) + [v] && grads == old(grads) + [0.0] && ops == old(ops) + [Leaf]
    {
      h := Push(v, Leaf);
    }

    method Plus(a: nat, b: nat) returns (h: nat)
      requires Valid() && a < |ops| && b < |ops|
      modifies this
      ensures Valid() && h == |old(ops)|
      ensures values == old(values) + [old(values)[a] + old(values)[b]]
      ensures grads == old(grads) + [0.0] && ops == old(ops) + [Add(a, b)]
    {
      h := Push(values[a] + values[b], Add(a, b));
    }

    method Minus(a: nat, b: nat) returns (h: nat)
      requires Valid() && a < |ops| && b < |ops|
      modifies this
      ensures Valid() && h == |old(ops)|
      ensures values == old(values) + [old(values)[a] - old(values)[b]]
      ensures grads == old(grads) + [0.0] && ops == old(ops) + [Sub(a, b)]
    {
      h := Push(values[a] - values[b], Sub(a, b));
    }

    method Times(a: nat, b: nat) returns (h: nat)
      requires Valid() && a < |ops| && b < |ops|
      modifies this
      ensures Valid() && h == |old(ops)|
      ensures values == old(values) + [old(values)[a] * old(values)[b]]
      ensures grads == old(grads) + [0.0] && ops == old(ops) + [Mul(a, b)]
    {
      h := Push(values[a] * values[b], Mul(a, b));
    }

    /** `a / b`: 0 / 0 is NaN, which the node constructor refuses. */
    method Divide(a: nat, b: nat) returns (r: Option<nat>)
      requires Valid() && a < |ops| && b < |ops|
      modifies this
      ensures Valid()
      ensures r.None? <==> old(values)[a] == 0.0 && old(values)[b] == 0.0
      ensures r.None? ==> values == old(values) && grads == old(grads) && ops == old(ops)
      ensures r.Some? ==> (r.value == |old(ops)|
        && values == old(values) + [FDiv(num, old(values)[a], old(values)[b])]
        && grads == old(grads) + [0.0] && ops == old(ops) + [Div(a, b)])
    {
      if values[a] == 0.0 && values[b] == 0.0 {
        return None;
      }
      var h := Push(FDiv(num, values[a], values[b]), Div(a, b));
      r := Some(h);
    }

    /** Unary minus. */
    method Negate(a: nat) returns (h: nat)
      requires Valid() && a < |ops|
      modifies this
      ensures Valid() && h == |old(ops)|
      ensures values == old(values) + [-old(values)[a]]
      ensures grads == old(grads) + [0.0] && ops == old(ops) + [Neg(a)]
    {
      h := Push(-values[a], Neg(a));
    }

    method Sine(a: nat) returns (h: nat)
      requires Valid() && a < |ops|
      modifies this
      ensures Valid() && h == |old(ops)|
      ensures values == old(values) + [num.sin(old(values)[a])]
      ensures grads == old(grads) + [0.0] && ops == old(ops) + [Sin(a)]
    {
      h := Push(num.sin(values[a]), Sin(a));
    }

    method Cosine(a: nat) returns (h: nat)
      requires Valid() && a < |ops|
      modifies this
      ensures Valid() && h == |old(ops)|
      ensures values == old(values) + [num.cos(old(values)[a])]
      ensures grads == old(grads) + [0.0] && ops == old(ops) + [Cos(a)]
    {
      h := Push(num.cos(values[a]), Cos(a));
    }

    method Tangent(a: nat) returns (h: nat)
      requires Valid() && a < |ops|
      modifies this
      ensures Valid() && h == |old(ops)|
      ensures values == old(values) + [num.tan(old(values)[a])]
      ensures grads == old(grads) + [0.0] && ops == old(ops) + [Tan(a)]
    {
      h := Push(num.tan(values[a]), Tan(a));
    }

    /** The square root of a negative value is NaN, which the constructor refuses. */
    method SquareRoot(a: nat) returns (r: Option<nat>)
      requires Valid() && a < |ops|
      modifies this
      ensures Valid()
      ensures r.None? <==> old(values)[a] < 0.0
      ensures r.None? ==> values == old(values) && grads == old(grads) && ops == old(ops)
      ensures r.Some? ==> (r.value == |old(ops)| && values == old(values) + [num.sqrt(old(values)[a])]
        && grads == old(grads) + [0.0] && ops == old(ops) + [Sqrt(a)])
    {
      if values[a] < 0.0 {
        return None;
      }
      var h := Push(num.sqrt(values[a]), Sqrt(a));
      r := Some(h);
    }

    /** `this * this`. */
    method Square(x: nat) returns (h: nat)
      requires Valid() && x < |ops|
      modifies this
      ensures Valid() && h == |old(ops)|
      ensures values == old(values) + [old(values)[x] * old(values)[x]]
      ensures grads == old(grads) + [0.0] && ops == old(ops) + [Mul(x, x)]
    {
      h := Times(x, x);
    }

    /** MSE(output, target): value (output - target)^2, rule adds 2 (output - target) grad. */
    method MSE(output: nat, target: real) returns (h: nat)
      requires Valid() && output < |ops|
      modifies this
      ensures Valid() && h == |old(ops)|
      ensures values == old(values) + [(old(values)[output] - target) * (old(values)[output] - target)]
      ensures grads == old(grads) + [0.0]
      ensures ops == old(ops) + [SquaredError(output, old(values)[output] - target)]
    {
      var part := values[output] - target;
      assert part * part == (values[output] - target) * (values[output] - target);
      h := Push(part * part, SquaredError(output, part));
    }

    /** GlobalX's guard on the discriminant: a negative one is replaced by a
        node of value Epsilon whose rule passes Penalty * grad back to it. */
    method SubstituteNegative(disc: nat) returns (h: nat)
      requires Valid() && disc < |ops|
      modifies this
      ensures Valid() && h < |values| && 0.0 <= values[h]
      ensures old(values)[disc] >= 0.0 ==> (h == disc && values == old(values) && grads == old(grads) && ops == old(ops))
      ensures old(values)[disc] < 0.0 ==> (h == |old(ops)| && values == old(values) + [Epsilon]
        && grads == old(grads) + [0.0] && ops == old(ops) + [Substitute(disc)])
    {
      h := disc;
      if values[disc] < 0.0 {
        h := Push(Epsilon, Substitute(disc));
      }
    }

    method ZeroGrad(h: nat)
      requires Valid() && h < |ops|
      modifies this
      ensures Valid() && values == old(values) && ops == old(ops) && grads == old(grads)[h := 0.0]
    {
      grads := grads[h := 0.0];
    }

    /** Scalar.Build: depth-first search with a visited set. */
    method Build(n: nat, topo: seq<nat>, visited: set<nat>) returns (topo': seq<nat>, visited': set<nat>)
      requires Valid() && n < |ops|
      ensures (topo', visited') == Dfs(ops, n, topo, visited)
      decreases n
    {
      if n in visited {
        return topo, visited;
      }
      topo', visited' := topo, visited + {n};
      var ins := Inputs(ops[n]);
      OperandsBelow(ops, n);
      var i := 0;
      while i < |ins|
        invariant 0 <= i <= |ins|
        invariant DfsAll(ops, ins, n, topo, visited + {n}) == DfsAll(ops, ins[i..], n, topo', visited')
      {
        assert ins[i..][1..] == ins[i + 1..];
        topo', visited' := Build(ins[i], topo', visited');
        i := i + 1;
      }
      topo' := topo' + [n];
    }

    /** Invokes the backward closure of node `n`: at most two `+=` on inputs. */
    method ApplyRule(n: nat)
      requires Valid() && n < |ops|
      modifies this
      ensures Valid() && values == old(values) && ops == old(ops)
      ensures grads == Rule(num, values, ops, old(grads), n)
    {
      OperandsBelow(ops, n);
      var shares := Shares(num, values, ops[n], grads[n]);
      ghost var g0 := grads;
      if |shares| > 0 {
        grads := grads[shares[0].to := grads[shares[0].to] + shares[0].amount];
      }
      if |shares| > 1 {
        grads := grads[shares[1].to := grads[shares[1].to] + shares[1].amount];
      }
      forall j | 0 <= j < |grads| ensures grads[j] == g0[j] + Total(shares, j) {
        TotalOfTwo(shares, j);
      }
    }

    /** Scalar.Backward: sort, seed the root, replay the rules in reverse. */
    method Backward(root: nat, seed: real)
      requires Valid() && root < |ops|
      modifies this
      ensures Valid() && values == old(values) && ops == old(ops)
      ensures grads == BackwardGrads(num, values, ops, old(grads), root, seed)
    {
      var topo, visited := Build(root, [], {});
      TopoOrderCorrect(ops, root);
      ReachBelow(ops, root);
      grads := grads[root := seed];
      ghost var g0 := grads;
      var i := |topo|;
      assert topo[..i] == topo;
      while i > 0
        invariant 0 <= i <= |topo|
        invariant Valid() && values == old(values) && ops == old(ops)
        invariant ReplayRev(num, values, ops, grads, topo[..i]) == ReplayRev(num, values, ops, g0, topo)
      {
        assert topo[..i][..i - 1] == topo[..i - 1];
        ApplyRule(topo[i - 1]);
        i := i - 1;
      }
    }
  }
}
