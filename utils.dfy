/**
 * Landmark geometry: the bounding box of a landmark set, the fixed 68-point region table, and the
 * vertical banding that splits landmark indices into mouth, eyes and brows.
 */
module Utils {
  import opened Wrappers

  /** A landmark in pixel coordinates. */
  datatype Point = Point(x: real, y: real)

  /** `(x_min, y_min, x_max, y_max)` */
  datatype BBox = BBox(xMin: real, yMin: real, xMax: real, yMax: real)

  /** The three regions, as lists of landmark indices. */
  datatype RegionMap = RegionMap(mouth: seq<int>, eyes: seq<int>, brows: seq<int>)

  datatype Region = Mouth | Eyes | Brows

  /** `np.min` of an empty array raises; that is the only geometric error. */
  datatype GeometryError = EmptyLandmarks

  function Lookup(m: RegionMap, r: Region): seq<int> {
    match r
    case Mouth => m.mouth
    case Eyes => m.eyes
    case Brows => m.brows
  }

  // ---------------------------------------------------------------- bbox_from_landmarks

  /** The least element of a non-empty sequence. */
  function MinOf(s: seq<real>): (m: real)
    requires |s| > 0
    ensures (exists i :: 0 <= i < |s| && s[i] == m) && forall i :: 0 <= i < |s| ==> m <= s[i]
  {
    if |s| == 1 then s[0]
    else
      var rest := MinOf(s[1..]);
      assert forall i :: 1 <= i < |s| ==> s[i] == s[1..][i - 1];
      if s[0] <= rest then s[0] else rest
  }

  /** The greatest element of a non-empty sequence. */
  function MaxOf(s: seq<real>): (m: real)
    requires |s| > 0
    ensures (exists i :: 0 <= i < |s| && s[i] == m) && forall i :: 0 <= i < |s| ==> s[i] <= m
  {
    if |s| == 1 then s[0]
    else
      var rest := MaxOf(s[1..]);
      assert forall i :: 1 <= i < |s| ==> s[i] == s[1..][i - 1];
      if s[0] >= rest then s[0] else rest
  }

  function Xs(lm: seq<Point>): (r: seq<real>)
    ensures |r| == |lm| && forall i :: 0 <= i < |lm| ==> r[i] == lm[i].x
  {
    seq(|lm|, i requires 0 <= i < |lm| => lm[i].x)
  }

  function Ys(lm: seq<Point>): (r: seq<real>)
    ensures |r| == |lm| && forall i :: 0 <= i < |lm| ==> r[i] == lm[i].y
  {
    seq(|lm|, i requires 0 <= i < |lm| => lm[i].y)
  }

  /**
   * The tightest axis-aligned box around the landmarks: every landmark lies inside it and each of
   * its four sides touches one; no box exists for an empty set.
   */
  function BoundingBox(lm: seq<Point>): (r: Option<BBox>)
    ensures r.None? <==> lm == []
    ensures r.Some? ==>
      && r.value.xMin <= r.value.xMax && r.value.yMin <= r.value.yMax
      && (forall i :: 0 <= i < |lm| ==>
            r.value.xMin <= lm[i].x <= r.value.xMax && r.value.yMin <= lm[i].y <= r.value.yMax)
      && (exists i :: 0 <= i < |lm| && lm[i].x == r.value.xMin)
      && (exists i :: 0 <= i < |lm| && lm[i].x == r.value.xMax)
      && (exists i :: 0 <= i < |lm| && lm[i].y == r.value.yMin)
      && (exists i :: 0 <= i < |lm| && lm[i].y == r.value.yMax)
  {
    if lm == [] then None
    else
      var xs, ys := Xs(lm), Ys(lm);
      Some(BBox(MinOf(xs), MinOf(ys), MaxOf(xs), MaxOf(ys)))
  }

  // ---------------------------------------------------------------- map_landmarks_to_regions_openface68

  /** `list(range(lo, hi))` */
  function Range(lo: int, hi: int): (r: seq<int>)
    requires lo <= hi
    ensures |r| == hi - lo && forall i :: 0 <= i < |r| ==> r[i] == lo + i
  {
    seq(hi - lo, i => lo + i)
  }

  function OpenFace68Regions(): RegionMap {
    RegionMap(Range(48, 68), Range(36, 48), Range(17, 27))
  }

  predicate StrictlyIncreasing(s: seq<int>) {
    forall i, j :: 0 <= i < j < |s| ==> s[i] < s[j]
  }

  /**
   * The 68-point table: mouth 48..67, eyes 36..47, brows 17..26, each list increasing, the three
   * pairwise disjoint and every index a valid 68-point landmark.
   */
  lemma OpenFace68Table()
    ensures var m := OpenFace68Regions();
      && |m.mouth| == 20 && |m.eyes| == 12 && |m.brows| == 10
      && (forall i :: i in m.mouth <==> 48 <= i < 68)
      && (forall i :: i in m.eyes <==> 36 <= i < 48)
      && (forall i :: i in m.brows <==> 17 <= i < 27)
      && StrictlyIncreasing(m.mouth) && StrictlyIncreasing(m.eyes) && StrictlyIncreasing(m.brows)
      && (forall i :: !(i in m.mouth && i in m.eyes) && !(i in m.mouth && i in m.brows) && !(i in m.eyes && i in m.brows))
  {
    var m := OpenFace68Regions();
    forall i ensures i in m.mouth <==> 48 <= i < 68 {
      if 48 <= i < 68 { assert m.mouth[i - 48] == i; }
    }
    forall i ensures i in m.eyes <==> 36 <= i < 48 {
      if 36 <= i < 48 { assert m.eyes[i - 36] == i; }
    }
    forall i ensures i in m.brows <==> 17 <= i < 27 {
      if 17 <= i < 27 { assert m.brows[i - 17] == i; }
    }
  }

  // ---------------------------------------------------------------- map_landmarks_to_regions

  /** `y_min + 0.33 * h` */
  function BrowThreshold(b: BBox): real {
    b.yMin + 0.33 * (b.yMax - b.yMin)
  }

  /** `y_min + 0.60 * h`, the eye and the mouth threshold alike. */
  function MouthThreshold(b: BBox): real {
    b.yMin + 0.60 * (b.yMax - b.yMin)
  }

  /** The band a vertical coordinate falls in. */
  function BandOf(y: real, b: BBox): (r: Region)
    ensures r == Mouth <==> y >= MouthThreshold(b)
    ensures r == Eyes <==> BrowThreshold(b) <= y < MouthThreshold(b)
    ensures r == Brows <==> y < MouthThreshold(b) && y < BrowThreshold(b)
  {
    if y >= MouthThreshold(b) then Mouth
    else if y >= BrowThreshold(b) && y < MouthThreshold(b) then Eyes
    else Brows
  }

  /** The indices below `n` whose landmark falls in band `r`, in increasing order. */
  function BandIndices(lm: seq<Point>, b: BBox, r: Region, n: nat): (s: seq<int>)
    requires n <= |lm|
    ensures forall k :: 0 <= k < |s| ==> 0 <= s[k] < n
  {
    if n == 0 then []
    else BandIndices(lm, b, r, n - 1) + (if BandOf(lm[n - 1].y, b) == r then [n - 1] else [])
  }

  /** The region map for a given box: one band list per region, over all landmarks. */
  function RegionsFor(lm: seq<Point>, b: BBox): RegionMap {
    RegionMap(BandIndices(lm, b, Mouth, |lm|), BandIndices(lm, b, Eyes, |lm|), BandIndices(lm, b, Brows, |lm|))
  }

  /**
   * Banding with an explicit box or, when none is given, the box of the same landmarks (which does
   * not exist for an empty set).
   */
  function RegionsOf(lm: seq<Point>, bbox: Option<BBox>): Result<RegionMap, GeometryError> {
    match bbox
    case Some(b) => Success(RegionsFor(lm, b))
    case None =>
      match BoundingBox(lm)
      case None => Failure(EmptyLandmarks)
      case Some(b) => Success(RegionsFor(lm, b))
  }

  /** Each landmark index is appended to the list of its band, in enumeration order. */
  method BandLandmarks(lm: seq<Point>, b: BBox) returns (m: RegionMap)
    ensures m == RegionsFor(lm, b)
  {
    var mouth, eyes, brows := [], [], [];
    var i := 0;
    while i < |lm|
      invariant 0 <= i <= |lm|
      invariant mouth == BandIndices(lm, b, Mouth, i)
      invariant eyes == BandIndices(lm, b, Eyes, i)
      invariant brows == BandIndices(lm, b, Brows, i)
    {
      match BandOf(lm[i].y, b) {
        case Mouth => mouth := mouth + [i];
        case Eyes => eyes := eyes + [i];
        case Brows => brows := brows + [i];
      }
      i := i + 1;
    }
    m := RegionMap(mouth, eyes, brows);
  }

  /** `map_landmarks_to_regions(landmarks, bbox)`: the box defaults to the landmarks' own. */
  method MapLandmarksToRegions(lm: seq<Point>, bbox: Option<BBox>) returns (r: Result<RegionMap, GeometryError>)
    ensures r == RegionsOf(lm, bbox)
    ensures r.Failure? <==> bbox.None? && lm == []
  {
    var b: BBox;
    if bbox.Some? {
      b := bbox.value;
    } else {
      var computed := BoundingBox(lm);
      if computed.None? {
        return Failure(EmptyLandmarks);
      }
      b := computed.value;
    }
    var m := BandLandmarks(lm, b);
    return Success(m);
  }

  /** Index `i` is in a band list exactly when its landmark lies in that band. */
  lemma {:induction false} BandIndicesMembership(lm: seq<Point>, b: BBox, r: Region, n: nat, i: int)
    requires n <= |lm|
    ensures i in BandIndices(lm, b, r, n) <==> 0 <= i < n && BandOf(lm[i].y, b) == r
  {
    if n > 0 {
      BandIndicesMembership(lm, b, r, n - 1, i);
    }
  }

  /** Band lists are built in enumeration order, so they are strictly increasing. */
  lemma {:induction false} BandIndicesIncreasing(lm: seq<Point>, b: BBox, r: Region, n: nat)
    requires n <= |lm|
    ensures StrictlyIncreasing(BandIndices(lm, b, r, n))
  {
    if n > 0 {
      BandIndicesIncreasing(lm, b, r, n - 1);
    }
  }

  /**
   * The banding partitions the landmarks: every index 0..N-1 is in exactly one of the three lists,
   * no other value is in any, each list is strictly increasing, and membership is decided by the
   * landmark's vertical coordinate alone.
   */
  lemma RegionsPartition(lm: seq<Point>, b: BBox)
    ensures var m := RegionsFor(lm, b);
      && StrictlyIncreasing(m.mouth) && StrictlyIncreasing(m.eyes) && StrictlyIncreasing(m.brows)
      && |m.mouth| + |m.eyes| + |m.brows| == |lm|
      && forall i ::
        && (i in m.mouth <==> 0 <= i < |lm| && lm[i].y >= MouthThreshold(b))
        && (i in m.eyes <==> 0 <= i < |lm| && BrowThreshold(b) <= lm[i].y < MouthThreshold(b))
        && (i in m.brows <==> 0 <= i < |lm| && lm[i].y < BrowThreshold(b) && lm[i].y < MouthThreshold(b))
  {
    BandIndicesIncreasing(lm, b, Mouth, |lm|);
    BandIndicesIncreasing(lm, b, Eyes, |lm|);
    BandIndicesIncreasing(lm, b, Brows, |lm|);
    BandSizes(lm, b, |lm|);
    forall i ensures
        && (i in RegionsFor(lm, b).mouth <==> 0 <= i < |lm| && lm[i].y >= MouthThreshold(b))
        && (i in RegionsFor(lm, b).eyes <==> 0 <= i < |lm| && BrowThreshold(b) <= lm[i].y < MouthThreshold(b))
        && (i in RegionsFor(lm, b).brows <==> 0 <= i < |lm| && lm[i].y < BrowThreshold(b) && lm[i].y < MouthThreshold(b))
    {
      BandIndicesMembership(lm, b, Mouth, |lm|, i);
      BandIndicesMembership(lm, b, Eyes, |lm|, i);
      BandIndicesMembership(lm, b, Brows, |lm|, i);
    }
  }

  /** Each prefix of n landmarks contributes exactly n indices across the three lists. */
  lemma {:induction false} BandSizes(lm: seq<Point>, b: BBox, n: nat)
    requires n <= |lm|
    ensures |BandIndices(lm, b, Mouth, n)| + |BandIndices(lm, b, Eyes, n)| + |BandIndices(lm, b, Brows, n)| == n
  {
    if n > 0 {
      BandSizes(lm, b, n - 1);
    }
  }

  /** Only the box's vertical extent matters: the horizontal bounds never change the banding. */
  lemma RegionsIgnoreHorizontalBounds(lm: seq<Point>, b: BBox, xMin: real, xMax: real)
    ensures RegionsFor(lm, b) == RegionsFor(lm, b.(xMin := xMin, xMax := xMax))
  {
    var b' := b.(xMin := xMin, xMax := xMax);
    forall r: Region, n: nat | n <= |lm| ensures BandIndices(lm, b, r, n) == BandIndices(lm, b', r, n) {
      BandIndicesSameBands(lm, b, b', r, n);
    }
  }

  /** Two boxes with the same thresholds band alike. */
  lemma {:induction false} BandIndicesSameBands(lm: seq<Point>, b: BBox, b': BBox, r: Region, n: nat)
    requires n <= |lm| && b.yMin == b'.yMin && b.yMax == b'.yMax
    ensures BandIndices(lm, b, r, n) == BandIndices(lm, b', r, n)
  {
    if n > 0 {
      BandIndicesSameBands(lm, b, b', r, n - 1);
    }
  }

  /** Without a box, the landmarks' own box is used; with none of either, the mapping fails. */
  lemma RegionsDefaultBox(lm: seq<Point>)
    ensures lm == [] ==> RegionsOf(lm, None) == Failure(EmptyLandmarks)
    ensures lm != [] ==> RegionsOf(lm, None) == Success(RegionsFor(lm, BoundingBox(lm).value))
  {
  }
}
