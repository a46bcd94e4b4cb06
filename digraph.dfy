/**
 * `digraph_from_difference`: per-landmark displacement between a neutral and a target face,
 * thresholded into a 0/1 change vector, and the change graph whose nodes are the changed landmarks
 * and whose symmetric edges join changed landmarks that lie close together in the target face.
 */
module Digraph {
  import opened Wrappers
  import opened Utils

  function Abs(x: real): real { if x < 0.0 then -x else x }

  /** What the logic needs of the Euclidean norm of a 2-vector. */
  ghost predicate NormLaws(f: (real, real) -> real) {
    && (forall x, y :: f(x, y) >= 0.0)
    && (forall x :: f(x, 0.0) == Abs(x))
    && (forall y :: f(0.0, y) == Abs(y))
  }

  /**
   * `np.linalg.norm` of a displacement (dx, dy), taken as a parameter: non-negative and exact along
   * each axis. The square root itself is not modelled.
   */
  type Norm = f: (real, real) -> real | NormLaws(f) witness (x: real, y: real) => Abs(x) + Abs(y)

  /** The `1e-9` that keeps the normalising division defined. */
  const Eps: real := 0.000000001

  /** `face_scale_from_bbox`: the norm of the box's diagonal (w, h). */
  function FaceScale(b: BBox, norm: Norm): (s: real)
    ensures s >= 0.0 && s + Eps > 0.0
  {
    norm(b.xMax - b.xMin, b.yMax - b.yMin)
  }

  /** The displacement of landmark `i`: the norm of target[i] - neutral[i]. */
  function Displacement(neutral: seq<Point>, target: seq<Point>, norm: Norm, i: int): (d: real)
    requires 0 <= i < |neutral| == |target|
    ensures d >= 0.0
  {
    norm(target[i].x - neutral[i].x, target[i].y - neutral[i].y)
  }

  /** `dif`: each displacement, divided by `scale + 1e-9` when normalising. */
  function Difs(neutral: seq<Point>, target: seq<Point>, norm: Norm, normalize: bool, scale: real): (d: seq<real>)
    requires |neutral| == |target| && scale >= 0.0
    ensures |d| == |neutral|
    ensures forall i :: 0 <= i < |d| ==>
      d[i] == if normalize then Displacement(neutral, target, norm, i) / (scale + Eps)
              else Displacement(neutral, target, norm, i)
  {
    seq(|neutral|, i requires 0 <= i < |neutral| =>
      if normalize then Displacement(neutral, target, norm, i) / (scale + Eps)
      else Displacement(neutral, target, norm, i))
  }

  /** `thr`: a threshold above 1 under normalisation is in pixels and is converted to a fraction. */
  function Threshold(threshold: real, normalize: bool, scale: real): real
    requires scale >= 0.0
  {
    if normalize && threshold > 1.0 then threshold / (scale + Eps) else threshold
  }

  /** `(dif >= thr).astype(int)` */
  function ChangedVector(difs: seq<real>, thr: real): (v: seq<int>)
    ensures |v| == |difs|
    ensures forall i :: 0 <= i < |v| ==> (v[i] == 1 <==> difs[i] >= thr) && (v[i] == 0 <==> difs[i] < thr)
  {
    seq(|difs|, i requires 0 <= i < |difs| => if difs[i] >= thr then 1 else 0)
  }

  /** The indices below `n` at which `v` is 1, in increasing order. */
  function OnesBelow(v: seq<int>, n: nat): (s: seq<int>)
    requires n <= |v|
    ensures forall k :: 0 <= k < |s| ==> 0 <= s[k] < n
  {
    if n == 0 then [] else OnesBelow(v, n - 1) + (if v[n - 1] == 1 then [n - 1] else [])
  }

  /** The graph's node list: networkx keeps nodes in insertion order. */
  function ChangedIndices(v: seq<int>): seq<int> {
    OnesBelow(v, |v|)
  }

  lemma {:induction false} OnesBelowMembership(v: seq<int>, n: nat, i: int)
    requires n <= |v|
    ensures i in OnesBelow(v, n) <==> 0 <= i < n && v[i] == 1
  {
    if n > 0 {
      OnesBelowMembership(v, n - 1, i);
    }
  }

  lemma {:induction false} OnesBelowIncreasing(v: seq<int>, n: nat)
    requires n <= |v|
    ensures StrictlyIncreasing(OnesBelow(v, n))
  {
    if n > 0 {
      OnesBelowIncreasing(v, n - 1);
    }
  }

  /** The changed indices are exactly the positions holding 1, listed in increasing order. */
  lemma ChangedIndicesSpec(v: seq<int>)
    ensures StrictlyIncreasing(ChangedIndices(v))
    ensures forall i :: i in ChangedIndices(v) <==> 0 <= i < |v| && v[i] == 1
  {
    OnesBelowIncreasing(v, |v|);
    forall i ensures i in ChangedIndices(v) <==> 0 <= i < |v| && v[i] == 1 {
      OnesBelowMembership(v, |v|, i);
    }
  }

  function Min(a: int, b: int): int { if a <= b then a else b }
  function Max(a: int, b: int): int { if a >= b then a else b }

  /**
   * The target-face distance between landmarks a and b, computed as the loop does for the pair it
   * meets (lower index first); the same for (a, b) and (b, a).
   */
  function PairDistance(target: seq<Point>, norm: Norm, a: int, b: int): (d: real)
    requires 0 <= a < |target| && 0 <= b < |target|
    ensures d >= 0.0
    ensures d == PairDistanceOrdered(target, norm, b, a)
  {
    var lo, hi := Min(a, b), Max(a, b);
    norm(target[lo].x - target[hi].x, target[lo].y - target[hi].y)
  }

  function PairDistanceOrdered(target: seq<Point>, norm: Norm, a: int, b: int): real
    requires 0 <= a < |target| && 0 <= b < |target|
  {
    var lo, hi := Min(a, b), Max(a, b);
    norm(target[lo].x - target[hi].x, target[lo].y - target[hi].y)
  }

  /** `0.15 * scale` under normalisation, 50 pixels otherwise. */
  function EdgeLimit(normalize: bool, scale: real): real {
    if normalize then 0.15 * scale else 50.0
  }

  /** The networkx graph: node list, each node's 'change' attribute, and edge weights. */
  datatype ChangeGraph = ChangeGraph(nodes: seq<int>, change: map<int, real>, edges: map<(int, int), real>)

  /** `(G, changed, dif)` */
  datatype Difference = Difference(graph: ChangeGraph, changed: seq<int>, difs: seq<real>)

  /**
   * The box of the neutral face cannot be taken when it has no landmarks; the two landmark arrays
   * must have the same length for the subtraction.
   */
  datatype DigraphError = EmptyNeutral | ShapeMismatch

  /** The face scale `digraph_from_difference` uses: the neutral face's diagonal, or 0 when unused. */
  function ScaleFor(neutral: seq<Point>, normalize: bool, norm: Norm): (s: real)
    ensures s >= 0.0
  {
    if normalize && neutral != [] then FaceScale(BoundingBox(neutral).value, norm) else 0.0
  }

  /** Edges a -> b with a != b, both changed, closer than `limit`: weight is their distance. */
  predicate EdgesSoundFor(nodes: seq<int>, target: seq<Point>, norm: Norm, limit: real, edges: map<(int, int), real>)
    requires forall k :: 0 <= k < |nodes| ==> 0 <= nodes[k] < |target|
  {
    forall e :: e in edges ==>
      && e.0 in nodes && e.1 in nodes && e.0 != e.1
      && 0 <= e.0 < |target| && 0 <= e.1 < |target|
      && PairDistance(target, norm, e.0, e.1) < limit
      && edges[e] == PairDistance(target, norm, e.0, e.1)
  }

  /** Every close pair at node positions (p, q), p < q, met so far is present in both directions. */
  predicate EdgesCompleteUpTo(nodes: seq<int>, target: seq<Point>, norm: Norm, limit: real,
                              edges: map<(int, int), real>, i: int, j: int)
    requires forall k :: 0 <= k < |nodes| ==> 0 <= nodes[k] < |target|
  {
    forall p, q ::
      (0 <= p < q < |nodes| && (p < i || (p == i && q < j)) && PairDistance(target, norm, nodes[p], nodes[q]) < limit)
      ==> (nodes[p], nodes[q]) in edges && (nodes[q], nodes[p]) in edges
  }

  /** The inner loop: pairs (i, j) for every j > i, both directions of each close pair. */
  method ConnectFrom(nodes: seq<int>, target: seq<Point>, norm: Norm, limit: real, i: int, edges0: map<(int, int), real>)
    returns (edges: map<(int, int), real>)
    requires StrictlyIncreasing(nodes) && 0 <= i < |nodes|
    requires forall k :: 0 <= k < |nodes| ==> 0 <= nodes[k] < |target|
    requires EdgesSoundFor(nodes, target, norm, limit, edges0)
    requires EdgesCompleteUpTo(nodes, target, norm, limit, edges0, i, 0)
    ensures EdgesSoundFor(nodes, target, norm, limit, edges)
    ensures EdgesCompleteUpTo(nodes, target, norm, limit, edges, i + 1, 0)
  {
    edges := edges0;
    for j := i + 1 to |nodes|
      invariant EdgesSoundFor(nodes, target, norm, limit, edges)
      invariant EdgesCompleteUpTo(nodes, target, norm, limit, edges, i, j)
    {
      var a, b := nodes[i], nodes[j];
      var dist := norm(target[a].x - target[b].x, target[a].y - target[b].y);
      assert dist == PairDistance(target, norm, a, b);
      var edges' := edges;
      if dist < limit {
        AddPairSound(nodes, target, norm, limit, i, j, edges);
        edges' := edges[(a, b) := dist][(b, a) := dist];
      }
      AddPairComplete(nodes, target, norm, limit, i, j, edges, edges');
      edges := edges';
    }
  }

  /** Adding both directions of a close pair of distinct nodes keeps every edge sound. */
  lemma AddPairSound(nodes: seq<int>, target: seq<Point>, norm: Norm, limit: real, i: int, j: int,
                     edges: map<(int, int), real>)
    requires StrictlyIncreasing(nodes) && 0 <= i < j < |nodes|
    requires forall k :: 0 <= k < |nodes| ==> 0 <= nodes[k] < |target|
    requires EdgesSoundFor(nodes, target, norm, limit, edges)
    requires PairDistance(target, norm, nodes[i], nodes[j]) < limit
    ensures var d := PairDistance(target, norm, nodes[i], nodes[j]);
      EdgesSoundFor(nodes, target, norm, limit, edges[(nodes[i], nodes[j]) := d][(nodes[j], nodes[i]) := d])
  {
    assert nodes[i] < nodes[j];
  }

  /** Meeting position pair (i, j) extends completeness to it. */
  lemma AddPairComplete(nodes: seq<int>, target: seq<Point>, norm: Norm, limit: real, i: int, j: int,
                        edges: map<(int, int), real>, edges': map<(int, int), real>)
    requires 0 <= i < j < |nodes|
    requires forall k :: 0 <= k < |nodes| ==> 0 <= nodes[k] < |target|
    requires EdgesCompleteUpTo(nodes, target, norm, limit, edges, i, j)
    requires edges.Keys <= edges'.Keys
    requires PairDistance(target, norm, nodes[i], nodes[j]) < limit ==>
      (nodes[i], nodes[j]) in edges' && (nodes[j], nodes[i]) in edges'
    ensures EdgesCompleteUpTo(nodes, target, norm, limit, edges', i, j + 1)
  {
  }

  /** Once every position pair has been met, every close pair of distinct nodes is an edge. */
  lemma EdgesCompleteAll(nodes: seq<int>, target: seq<Point>, norm: Norm, limit: real, edges: map<(int, int), real>)
    requires forall k :: 0 <= k < |nodes| ==> 0 <= nodes[k] < |target|
    requires EdgesCompleteUpTo(nodes, target, norm, limit, edges, |nodes|, 0)
    ensures forall a, b :: a in nodes && b in nodes && a != b && PairDistance(target, norm, a, b) < limit ==>
      (a, b) in edges
  {
    forall a, b | a in nodes && b in nodes && a != b && PairDistance(target, norm, a, b) < limit
      ensures (a, b) in edges
    {
      var p :| 0 <= p < |nodes| && nodes[p] == a;
      var q :| 0 <= q < |nodes| && nodes[q] == b;
      if p > q {
        assert PairDistance(target, norm, nodes[q], nodes[p]) < limit;
      }
    }
  }

  /** The nested i < j loop adding both directions of every close pair of changed nodes. */
  method ConnectChanged(nodes: seq<int>, target: seq<Point>, norm: Norm, limit: real)
    returns (edges: map<(int, int), real>)
    requires StrictlyIncreasing(nodes)
    requires forall k :: 0 <= k < |nodes| ==> 0 <= nodes[k] < |target|
    ensures forall a, b :: (a, b) in edges <==>
      a in nodes && b in nodes && a != b && PairDistance(target, norm, a, b) < limit
    ensures forall a, b :: (a, b) in edges ==> edges[(a, b)] == PairDistance(target, norm, a, b)
  {
    edges := map[];
    for i := 0 to |nodes|
      invariant EdgesSoundFor(nodes, target, norm, limit, edges)
      invariant EdgesCompleteUpTo(nodes, target, norm, limit, edges, i, 0)
    {
      edges := ConnectFrom(nodes, target, norm, limit, i, edges);
    }
    EdgesCompleteAll(nodes, target, norm, limit, edges);
  }

  /** The graph for a change vector: nodes in index order with their change, then the edges. */
  method BuildChangeGraph(changed: seq<int>, difs: seq<real>, target: seq<Point>, norm: Norm, limit: real)
    returns (g: ChangeGraph)
    requires |changed| == |difs| == |target|
    ensures g.nodes == ChangedIndices(changed)
    ensures forall i :: i in g.change <==> 0 <= i < |changed| && changed[i] == 1
    ensures forall i :: i in g.change ==> g.change[i] == difs[i]
    ensures forall a, b :: (a, b) in g.edges <==>
      && 0 <= a < |changed| && 0 <= b < |changed| && a != b && changed[a] == 1 && changed[b] == 1
      && PairDistance(target, norm, a, b) < limit
    ensures forall a, b :: (a, b) in g.edges ==> g.edges[(a, b)] == PairDistance(target, norm, a, b)
  {
    var nodes: seq<int> := [];
    var change: map<int, real> := map[];
    for i := 0 to |changed|
      invariant nodes == OnesBelow(changed, i)
      invariant forall k :: k in change <==> 0 <= k < i && changed[k] == 1
      invariant forall k :: k in change ==> 0 <= k < |difs| && change[k] == difs[k]
    {
      if changed[i] == 1 {
        nodes := nodes + [i];
        change := change[i := difs[i]];
      }
    }
    ChangedIndicesSpec(changed);
    var edges := ConnectChanged(nodes, target, norm, limit);
    g := ChangeGraph(nodes, change, edges);
  }

  /**
   * `digraph_from_difference(neutral, target, threshold, normalize)`. Fails when normalising an
   * empty neutral face (no box) and when the two faces differ in landmark count; otherwise returns
   * the graph, the change vector and the displacements.
   */
  method DigraphFromDifference(neutral: seq<Point>, target: seq<Point>, threshold: real, normalize: bool, norm: Norm)
    returns (r: Result<Difference, DigraphError>)
    ensures normalize && neutral == [] ==> r == Failure(EmptyNeutral)
    ensures !(normalize && neutral == []) && |neutral| != |target| ==> r == Failure(ShapeMismatch)
    ensures r.Success? <==> !(normalize && neutral == []) && |neutral| == |target|
    ensures r.Success? ==>
      var scale := ScaleFor(neutral, normalize, norm);
      var difs := Difs(neutral, target, norm, normalize, scale);
      var changed := ChangedVector(difs, Threshold(threshold, normalize, scale));
      var g := r.value.graph;
      && r.value.difs == difs
      && r.value.changed == changed
      && g.nodes == ChangedIndices(changed)
      && (forall i :: i in g.change <==> 0 <= i < |changed| && changed[i] == 1)
      && (forall i :: i in g.change ==> g.change[i] == difs[i])
      && (forall a, b :: (a, b) in g.edges <==>
            && 0 <= a < |changed| && 0 <= b < |changed| && a != b && changed[a] == 1 && changed[b] == 1
            && PairDistance(target, norm, a, b) < EdgeLimit(normalize, scale))
      && (forall a, b :: (a, b) in g.edges ==> g.edges[(a, b)] == PairDistance(target, norm, a, b))
    ensures r.Success? ==> var g := r.value.graph;
      && (forall a, b :: (a, b) in g.edges <==> (b, a) in g.edges)
      && (forall a, b :: (a, b) in g.edges ==> g.edges[(a, b)] == g.edges[(b, a)])
      && (forall a, b :: (a, b) in g.edges ==> a != b && a in g.change && b in g.change)
  {
    var scale := 0.0;
    if normalize {
      var bbox := BoundingBox(neutral);
      if bbox.None? {
        return Failure(EmptyNeutral);
      }
      scale := FaceScale(bbox.value, norm);
    }
    if |neutral| != |target| {
      return Failure(ShapeMismatch);
    }
    var thr := Threshold(threshold, normalize, scale);
    var difs := Difs(neutral, target, norm, normalize, scale);
    var changed := ChangedVector(difs, thr);
    var g := BuildChangeGraph(changed, difs, target, norm, EdgeLimit(normalize, scale));
    return Success(Difference(g, changed, difs));
  }

  /**
   * What the threshold means for the change vector. Normalised with a threshold above 1: a landmark
   * changes iff its displacement is at least `threshold` pixels. Normalised with a threshold of at
   * most 1: iff its displacement is at least that fraction of `scale + 1e-9`. Not normalised: iff
   * its raw displacement is at least `threshold`.
   */
  lemma ThresholdMeaning(neutral: seq<Point>, target: seq<Point>, threshold: real, normalize: bool, norm: Norm, i: int)
    requires |neutral| == |target| && 0 <= i < |neutral|
    ensures var scale := ScaleFor(neutral, normalize, norm);
      var bit := ChangedVector(Difs(neutral, target, norm, normalize, scale), Threshold(threshold, normalize, scale))[i];
      var d := Displacement(neutral, target, norm, i);
      && (normalize && threshold > 1.0 ==> (bit == 1 <==> d >= threshold))
      && (normalize && threshold <= 1.0 ==> (bit == 1 <==> d >= InPixels(threshold, scale)))
      && (!normalize ==> (bit == 1 <==> d >= threshold))
  {
    ThresholdCase(Displacement(neutral, target, norm, i),
      Difs(neutral, target, norm, normalize, ScaleFor(neutral, normalize, norm))[i],
      ChangedVector(Difs(neutral, target, norm, normalize, ScaleFor(neutral, normalize, norm)),
        Threshold(threshold, normalize, ScaleFor(neutral, normalize, norm)))[i],
      threshold, normalize, ScaleFor(neutral, normalize, norm));
  }

  /** A fraction of the face scale, in pixels: the displacement a normalised threshold stands for. */
  function InPixels(fraction: real, scale: real): real {
    fraction * (scale + Eps)
  }

  /** One landmark's bit against its displacement `d`, with the vectors abstracted to their entries. */
  lemma ThresholdCase(d: real, dif: real, bit: int, threshold: real, normalize: bool, scale: real)
    requires scale >= 0.0
    requires dif == if normalize then d / (scale + Eps) else d
    requires bit == 1 <==> dif >= Threshold(threshold, normalize, scale)
    ensures normalize && threshold > 1.0 ==> (bit == 1 <==> d >= threshold)
    ensures normalize && threshold <= 1.0 ==> (bit == 1 <==> d >= InPixels(threshold, scale))
    ensures !normalize ==> (bit == 1 <==> d >= threshold)
  {
    var k := scale + Eps;
    assert k > 0.0;
    if normalize {
      if threshold > 1.0 {
        DivideBothSides(d, threshold, k);
      } else {
        DivideOneSide(d, threshold, k);
        assert InPixels(threshold, scale) == threshold * k;
      }
    }
  }

  lemma DivideBothSides(a: real, b: real, k: real)
    requires k > 0.0
    ensures a / k >= b / k <==> a >= b
  {
    assert a / k * k == a && b / k * k == b;
    if a / k >= b / k {
      MultiplyMonotone(b / k, a / k, k);
    }
    if a >= b {
      assert a / k - b / k == (a - b) / k;
    }
  }

  lemma DivideOneSide(a: real, b: real, k: real)
    requires k > 0.0
    ensures a / k >= b <==> a >= b * k
  {
    assert a / k * k == a;
    if a / k >= b {
      MultiplyMonotone(b, a / k, k);
    }
    if a >= b * k {
      assert a / k - b == (a - b * k) / k;
    }
  }

  lemma MultiplyMonotone(x: real, y: real, k: real)
    requires x <= y && k > 0.0
    ensures x * k <= y * k
  {
    assert y * k - x * k == (y - x) * k;
  }

  /** A purely vertical displacement has its absolute value as norm. */
  lemma VerticalDisplacement(norm: Norm, dx: real, dy: real)
    requires dx == 0.0
    ensures norm(dx, dy) == Abs(dy)
  {
  }

  /** Twenty landmarks on a horizontal line (x = 10i, y = 50). */
  function LineFace(): (lm: seq<Point>)
    ensures |lm| == 20
  {
    seq(20, i requires 0 <= i < 20 => Point(10.0 * (i as real), 50.0))
  }

  /** The same line with the last five landmarks moved 30 pixels down. */
  function ShiftedLineFace(): (lm: seq<Point>)
    ensures |lm| == 20
  {
    seq(20, i requires 0 <= i < 20 => Point(10.0 * (i as real), if i >= 15 then 80.0 else 50.0))
  }

  /**
   * The pipeline test: with threshold 5.0 (pixels, normalised) exactly the five shifted landmarks
   * change, so the change vector has exactly those five ones, whatever the face scale.
   */
  lemma ShiftedLineExample(norm: Norm)
    ensures var neutral, target := LineFace(), ShiftedLineFace();
      var scale := ScaleFor(neutral, true, norm);
      var changed := ChangedVector(Difs(neutral, target, norm, true, scale), Threshold(5.0, true, scale));
      && |changed| == 20
      && (forall i :: 0 <= i < 20 ==> (changed[i] == 1 <==> i >= 15))
      && ChangedIndices(changed) == [15, 16, 17, 18, 19]
  {
    var neutral, target := LineFace(), ShiftedLineFace();
    var scale := ScaleFor(neutral, true, norm);
    var changed := ChangedVector(Difs(neutral, target, norm, true, scale), Threshold(5.0, true, scale));
    forall i | 0 <= i < 20 ensures changed[i] == 1 <==> i >= 15 {
      ThresholdMeaning(neutral, target, 5.0, true, norm, i);
      assert target[i].x - neutral[i].x == 0.0;
      assert target[i].y - neutral[i].y == if i >= 15 then 30.0 else 0.0;
      VerticalDisplacement(norm, target[i].x - neutral[i].x, target[i].y - neutral[i].y);
    }
    OnesBelowTail(changed);
  }

  /** The ones of a 0/1 vector of length 20 that is 1 exactly from index 15 on. */
  lemma OnesBelowTail(v: seq<int>)
    requires |v| == 20 && forall i :: 0 <= i < 20 ==> (v[i] == 1 <==> i >= 15)
    ensures ChangedIndices(v) == [15, 16, 17, 18, 19]
  {
    OnesBelowNone(v, 15);
    assert OnesBelow(v, 16) == OnesBelow(v, 15) + [15];
    assert OnesBelow(v, 17) == OnesBelow(v, 16) + [16];
    assert OnesBelow(v, 18) == OnesBelow(v, 17) + [17];
    assert OnesBelow(v, 19) == OnesBelow(v, 18) + [18];
    assert OnesBelow(v, 20) == OnesBelow(v, 19) + [19];
  }

  lemma {:induction false} OnesBelowNone(v: seq<int>, n: nat)
    requires n <= |v| && forall i :: 0 <= i < n ==> v[i] != 1
    ensures OnesBelow(v, n) == []
  {
    if n > 0 {
      OnesBelowNone(v, n - 1);
    }
  }
}
