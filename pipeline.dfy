/**
 * `FacialStatePipeline.analyze_pair`: the landmarks of a neutral and a target face (the extractor's
 * answers, `None` when no face was found) are compared, the neutral face's landmarks are banded
 * into regions, and the classifier built on those regions labels the change.
 */
module Pipeline {
  import opened Wrappers
  import opened Labels
  import opened Utils
  import opened Digraph
  import opened Dfa

  /** The threshold a pipeline uses unless told otherwise; above 1, so it is read as pixels. */
  const DefaultThreshold: real := 2.0

  /** The pipeline's fields, set once at construction; `dfa` is kept but `analyze_pair` does not use it. */
  datatype FacialStatePipeline = FacialStatePipeline(threshold: real, dfa: EmotionDfa)

  /** `FacialStatePipeline(dfa=..., threshold=...)`: a missing classifier is `SimpleEmotionDFA()`. */
  function NewPipeline(dfa: Option<EmotionDfa>, threshold: real): (p: FacialStatePipeline)
    ensures p.threshold == threshold
    ensures p.dfa == if dfa.Some? then dfa.value else NewEmotionDfa(None, 0.18, 0.20, 0.12, None, None, None)
  {
    FacialStatePipeline(threshold, if dfa.Some? then dfa.value else EmotionDfa(map[], 0.18, 0.20, 0.12))
  }

  datatype RejectReason = NoFace | LandmarkCountMismatch

  /** The dictionary `analyze_pair` returns: an early rejection, or the full analysis. */
  datatype Analysis =
    | Rejected(reason: RejectReason)
    | Analyzed(emotion: Label, binary: seq<int>, diffNodes: seq<int>, diffGraph: ChangeGraph,
               counts: map<Region, int>, sizes: map<Region, int>, difs: seq<real>)

  /**
   * Two empty landmark lists of equal length cannot be analysed: the k-nearest-neighbour face graph
   * asks for zero neighbours, and the neutral box (`bbox_from_landmarks`) does not exist either.
   */
  datatype PipelineError = NoLandmarks

  /** The region dictionary `map_landmarks_to_regions` returns. */
  function RegionDict(m: RegionMap): (d: map<Region, seq<int>>)
    ensures forall r :: r in d && d[r] == Lookup(m, r)
  {
    AllRegionsCovered();
    map r | r in AllRegions :: Lookup(m, r)
  }

  /** Every index in a region list of `n` landmarks is a position 0..n-1. */
  predicate IndicesBelow(m: RegionMap, n: int) {
    forall r, k :: 0 <= k < |Lookup(m, r)| ==> 0 <= Lookup(m, r)[k] < n
  }

  /** `{r: int(binary[idxs].sum()) if idxs else 0 for r, idxs in regions.items()}` */
  function RegionCounts(binary: seq<int>, m: RegionMap): (c: map<Region, int>)
    requires IndicesBelow(m, |binary|)
    ensures forall r :: r in c && c[r] == SumAt(binary, Lookup(m, r))
  {
    AllRegionsCovered();
    map r | r in AllRegions :: SumAt(binary, Lookup(m, r))
  }

  /** `{r: len(idxs) for r, idxs in regions.items()}` */
  function RegionSizes(m: RegionMap): (s: map<Region, int>)
    ensures forall r :: r in s && s[r] == |Lookup(m, r)|
  {
    AllRegionsCovered();
    map r | r in AllRegions :: |Lookup(m, r)|
  }

  /** A 0/1 vector summed over n indices gives a count between 0 and n. */
  lemma {:induction false} SumAtBinary(v: seq<int>, idxs: seq<int>)
    requires forall k :: 0 <= k < |idxs| ==> 0 <= idxs[k] < |v|
    requires forall i :: 0 <= i < |v| ==> v[i] == 0 || v[i] == 1
    ensures 0 <= SumAt(v, idxs) <= |idxs|
  {
    if idxs != [] {
      SumAtBinary(v, idxs[1..]);
    }
  }

  /** The banded regions of `n` landmarks only hold positions 0..n-1. */
  lemma RegionsInRange(lm: seq<Point>, b: BBox)
    ensures IndicesBelow(RegionsFor(lm, b), |lm|)
  {
    var m := RegionsFor(lm, b);
    forall r, k | 0 <= k < |Lookup(m, r)| ensures 0 <= Lookup(m, r)[k] < |lm| {
      var i := Lookup(m, r)[k];
      assert i in BandIndices(lm, b, r, |lm|);
      BandIndicesMembership(lm, b, r, |lm|, i);
    }
  }

  /** On a 0/1 vector, each region's count is the number of ones at that region's landmarks. */
  lemma CountsAreOnes(binary: seq<int>, regions: RegionMap)
    requires IndicesBelow(regions, |binary|) && IsBinary(binary)
    ensures forall q :: RegionCounts(binary, regions)[q] == Count(Picked(binary, Lookup(regions, q)), 1)
  {
    forall q ensures RegionCounts(binary, regions)[q] == Count(Picked(binary, Lookup(regions, q)), 1) {
      SumAtCountsOnes(binary, Lookup(regions, q));
    }
  }

  /** Against the regions of `regions`, each count lies between 0 and its region's size. */
  lemma CountsWithinSizes(binary: seq<int>, regions: RegionMap)
    requires IndicesBelow(regions, |binary|)
    requires forall i :: 0 <= i < |binary| ==> binary[i] == 0 || binary[i] == 1
    ensures forall q :: 0 <= RegionCounts(binary, regions)[q] <= RegionSizes(regions)[q]
  {
    forall q ensures 0 <= RegionCounts(binary, regions)[q] <= RegionSizes(regions)[q] {
      SumAtBinary(binary, Lookup(regions, q));
    }
  }

  /**
   * What an analysis of two equally long, non-empty landmark lists holds: regions from the neutral
   * face and its box, displacements normalised by that face's scale, the changed vector against
   * the pipeline's threshold, the change graph of those displacements (nodes, 'change' values and
   * weighted edges between close changed landmarks of the target face), region counts and sizes, and
   * the label the default-threshold classifier gives on them.
   */
  ghost predicate Describes(p: FacialStatePipeline, n: seq<Point>, t: seq<Point>, norm: Norm, a: Analysis) {
    |n| == |t| > 0 && a.Analyzed? &&
    var scale := ScaleFor(n, true, norm);
    var regions := RegionsFor(n, BoundingBox(n).value);
    && a.difs == Difs(n, t, norm, true, scale)
    && a.binary == ChangedVector(a.difs, Threshold(p.threshold, true, scale))
    && a.diffNodes == ChangedIndices(a.binary) == a.diffGraph.nodes
    && (forall i :: i in a.diffGraph.change <==> 0 <= i < |a.binary| && a.binary[i] == 1)
    && (forall i :: i in a.diffGraph.change ==> a.diffGraph.change[i] == a.difs[i])
    && (forall x, y :: (x, y) in a.diffGraph.edges <==>
          && 0 <= x < |a.binary| && 0 <= y < |a.binary| && x != y && a.binary[x] == 1 && a.binary[y] == 1
          && PairDistance(t, norm, x, y) < EdgeLimit(true, scale))
    && (forall x, y :: (x, y) in a.diffGraph.edges ==> a.diffGraph.edges[(x, y)] == PairDistance(t, norm, x, y))
    && a.sizes == RegionSizes(regions)
    && IndicesBelow(regions, |a.binary|)
    && a.counts == RegionCounts(a.binary, regions)
    && (forall q :: 0 <= a.counts[q] <= a.sizes[q])
    && Predict(DefaultEmotionDfa(RegionDict(regions)), Record(a.counts, Some(a.sizes), Some(a.difs), Some(a.binary)))
         == Success(a.emotion)
  }

  /** With a pixel threshold, a landmark counts as changed iff it moved at least that many pixels. */
  lemma PixelThreshold(p: FacialStatePipeline, n: seq<Point>, t: seq<Point>, norm: Norm, a: Analysis)
    requires Describes(p, n, t, norm, a) && p.threshold > 1.0
    ensures forall i :: 0 <= i < |a.binary| ==> (a.binary[i] == 1 <==> Displacement(n, t, norm, i) >= p.threshold)
  {
    forall i | 0 <= i < |a.binary| ensures a.binary[i] == 1 <==> Displacement(n, t, norm, i) >= p.threshold {
      ThresholdMeaning(n, t, p.threshold, true, norm, i);
    }
  }

  /** The analysis proper, once both faces are present with the same, non-zero number of landmarks. */
  method AnalyzeFaces(p: FacialStatePipeline, n: seq<Point>, t: seq<Point>, norm: Norm) returns (a: Analysis)
    requires |n| == |t| > 0
    ensures Describes(p, n, t, norm, a)
  {
    var bbox := BoundingBox(n);
    var regionsResult := MapLandmarksToRegions(n, bbox);
    var regions := regionsResult.value;
    var diff := DigraphFromDifference(n, t, p.threshold, true, norm);
    var binary, difs := diff.value.changed, diff.value.difs;
    RegionsInRange(n, bbox.value);
    var dfa := DefaultEmotionDfa(RegionDict(regions));
    var counts, sizes := RegionCounts(binary, regions), RegionSizes(regions);
    CountsWithinSizes(binary, regions);
    var emotion := Predict(dfa, Record(counts, Some(sizes), Some(difs), Some(binary)));
    a := Analyzed(emotion.value, binary, diff.value.graph.nodes, diff.value.graph, counts, sizes, difs);
  }

  /**
   * `analyze_pair`, with the two extractions as inputs. A missing face or differing landmark counts
   * reject early; two empty landmark lists make the neutral box fail; otherwise the result is the
   * analysis `Describes` characterises, and a pixel threshold means what it says.
   */
  method AnalyzePair(p: FacialStatePipeline, neutral: Option<seq<Point>>, target: Option<seq<Point>>, norm: Norm)
    returns (r: Result<Analysis, PipelineError>)
    ensures neutral.None? || target.None? ==> r == Success(Rejected(NoFace))
    ensures neutral.Some? && target.Some? && |neutral.value| != |target.value| ==>
      r == Success(Rejected(LandmarkCountMismatch))
    ensures r.Failure? <==> neutral.Some? && target.Some? && neutral.value == [] && target.value == []
    ensures neutral.Some? && target.Some? && |neutral.value| == |target.value| > 0 ==>
      r.Success? && r.value.Analyzed?
    ensures r.Success? && r.value.Analyzed? ==> Describes(p, neutral.value, target.value, norm, r.value)
    ensures r.Success? && r.value.Analyzed? && p.threshold > 1.0 ==>
      forall i :: 0 <= i < |r.value.binary| ==>
        (r.value.binary[i] == 1 <==> Displacement(neutral.value, target.value, norm, i) >= p.threshold)
  {
    if neutral.None? || target.None? {
      return Success(Rejected(NoFace));
    }
    var n, t := neutral.value, target.value;
    if |n| != |t| {
      return Success(Rejected(LandmarkCountMismatch));
    }
    if n == [] {
      return Failure(NoLandmarks);
    }
    var a := AnalyzeFaces(p, n, t, norm);
    if p.threshold > 1.0 {
      PixelThreshold(p, n, t, norm, a);
    }
    return Success(a);
  }
}
