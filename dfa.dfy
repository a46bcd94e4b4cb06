/**
 * `SimpleEmotionDFA`: region index lists fixed at construction and `predict`, an ordered list of
 * rules over the share of changed landmarks per region (mouth, eyes, brows), the ten largest
 * displacements, and a noise floor.
 */
module Dfa {
  import opened Wrappers
  import opened Labels
  import opened Utils

  /** The classifier: region index lists and the three proportion thresholds. */
  datatype EmotionDfa = EmotionDfa(regions: map<Region, seq<int>>, mouthThresh: real, eyesThresh: real, browsThresh: real)

  /** `dict.setdefault(r, list(legacy))`, applied only when the legacy list is non-empty. */
  function SetDefault(regions: map<Region, seq<int>>, r: Region, legacy: Option<seq<int>>): (m: map<Region, seq<int>>)
    ensures forall q :: q in m <==> q in regions || (q == r && legacy.Some? && legacy.value != [])
    ensures forall q :: q in m ==> m[q] == if q in regions then regions[q] else legacy.value
  {
    if legacy.Some? && legacy.value != [] && r !in regions then regions[r := legacy.value] else regions
  }

  /**
   * `SimpleEmotionDFA(regions, mouth_thresh, eyes_thresh, brows_thresh, mouth_indices, eye_indices,
   * brow_indices)`: an absent or empty `regions` starts empty, and each non-empty legacy list fills
   * its region only when that region is missing.
   */
  function NewEmotionDfa(regions: Option<map<Region, seq<int>>>, mouthThresh: real, eyesThresh: real, browsThresh: real,
                         mouthIndices: Option<seq<int>>, eyeIndices: Option<seq<int>>, browIndices: Option<seq<int>>): (d: EmotionDfa)
    ensures d.mouthThresh == mouthThresh && d.eyesThresh == eyesThresh && d.browsThresh == browsThresh
    ensures var given := if regions.Some? then regions.value else map[];
      forall r :: (r in d.regions <==> r in given || Legacy(r, mouthIndices, eyeIndices, browIndices) != [])
        && (r in d.regions ==> d.regions[r] == if r in given then given[r] else Legacy(r, mouthIndices, eyeIndices, browIndices))
  {
    var given := if regions.Some? then regions.value else map[];
    var withMouth := SetDefault(given, Mouth, mouthIndices);
    var withEyes := SetDefault(withMouth, Eyes, eyeIndices);
    var withBrows := SetDefault(withEyes, Brows, browIndices);
    EmotionDfa(withBrows, mouthThresh, eyesThresh, browsThresh)
  }

  /** The legacy list for a region, `[]` when not given. */
  function Legacy(r: Region, mouthIndices: Option<seq<int>>, eyeIndices: Option<seq<int>>, browIndices: Option<seq<int>>): seq<int> {
    var l := match r case Mouth => mouthIndices case Eyes => eyeIndices case Brows => browIndices;
    if l.Some? then l.value else []
  }

  /** The default thresholds: mouth 0.18, eyes 0.20, brows 0.12. */
  function DefaultEmotionDfa(regions: map<Region, seq<int>>): (d: EmotionDfa)
    ensures d == NewEmotionDfa(Some(regions), 0.18, 0.20, 0.12, None, None, None)
  {
    EmotionDfa(regions, 0.18, 0.20, 0.12)
  }

  /** What `predict` is given: a plain vector, or a dict with 'counts' and optional other entries. */
  datatype DfaInput =
    | Vector(v: seq<int>)
    | Record(counts: map<Region, int>, sizes: Option<map<Region, int>>, difs: Option<seq<real>>, binary: Option<seq<int>>)

  /** numpy fancy indexing fails on an index outside -len..len-1. */
  datatype DfaError = IndexOutOfRange

  // ---------------------------------------------------------------- region statistics

  function RegionList(d: EmotionDfa, r: Region): seq<int> {
    if r in d.regions then d.regions[r] else []
  }

  /** A valid numpy index into a vector of length n, negative ones counting from the end. */
  predicate ValidIndex(n: int, i: int) {
    -n <= i < n
  }

  function Wrap(n: int, i: int): (k: int)
    requires ValidIndex(n, i)
    ensures 0 <= k < n
  {
    if i < 0 then n + i else i
  }

  /** `sum(v)` */
  function Sum(v: seq<int>): int {
    if v == [] then 0 else v[0] + Sum(v[1..])
  }

  /** `v[idxs].sum()` */
  function SumAt(v: seq<int>, idxs: seq<int>): int
    requires forall k :: 0 <= k < |idxs| ==> ValidIndex(|v|, idxs[k])
  {
    if idxs == [] then 0 else v[Wrap(|v|, idxs[0])] + SumAt(v, idxs[1..])
  }

  function Get(m: map<Region, int>, r: Region): int {
    if r in m then m[r] else 0
  }

  /** Counts and sizes per region, either given or computed from the vector. */
  datatype Stats = Stats(counts: map<Region, int>, sizes: map<Region, int>)

  predicate IndicesFit(d: EmotionDfa, n: int) {
    forall r, k :: r in d.regions && 0 <= k < |d.regions[r]| ==> ValidIndex(n, d.regions[r][k])
  }

  /** For a plain vector: sizes are the list lengths and counts the sums of the vector over them. */
  function VectorStats(d: EmotionDfa, v: seq<int>): (s: Stats)
    requires IndicesFit(d, |v|)
    ensures forall r :: r in s.sizes && s.sizes[r] == |RegionList(d, r)|
    ensures forall r :: r in s.counts && s.counts[r] == if RegionList(d, r) == [] then 0 else SumAt(v, RegionList(d, r))
  {
    AllRegionsCovered();
    Stats(
      map r | r in AllRegions :: if RegionList(d, r) == [] then 0 else SumAt(v, RegionList(d, r)),
      map r | r in AllRegions :: |RegionList(d, r)|)
  }

  const AllRegions: set<Region> := {Mouth, Eyes, Brows}

  lemma AllRegionsCovered()
    ensures forall r: Region :: r in AllRegions
  {
    forall r: Region ensures r in AllRegions {
      if r.Mouth? {
      } else if r.Eyes? {
      } else {
        assert r.Brows?;
      }
    }
  }

  /** `sizes.get(r, 0) or 1` */
  function Divisor(sizes: map<Region, int>, r: Region): (k: int)
    ensures k != 0
  {
    if Get(sizes, r) == 0 then 1 else Get(sizes, r)
  }

  /** `props[r] = counts.get(r, 0) / (sizes.get(r, 0) or 1)` */
  function Prop(s: Stats, r: Region): real {
    (Get(s.counts, r) as real) / (Divisor(s.sizes, r) as real)
  }

  // ---------------------------------------------------------------- top-K displacements

  /** Index i is ranked before j: a larger displacement, or an equal one at a lower index. */
  predicate RankedBefore(difs: seq<real>, i: int, j: int)
    requires 0 <= i < |difs| && 0 <= j < |difs|
  {
    difs[i] > difs[j] || (difs[i] == difs[j] && i < j)
  }

  predicate InRange(difs: seq<real>, s: seq<int>) {
    forall k :: 0 <= k < |s| ==> 0 <= s[k] < |difs|
  }

  predicate Ranked(difs: seq<real>, s: seq<int>)
    requires InRange(difs, s)
  {
    forall a, b :: 0 <= a < b < |s| ==> RankedBefore(difs, s[a], s[b])
  }

  /** Insert `x` before the first element it ranks before. */
  function Insert(difs: seq<real>, x: int, s: seq<int>): (r: seq<int>)
    requires 0 <= x < |difs| && InRange(difs, s)
    ensures InRange(difs, r) && |r| == |s| + 1
  {
    if s == [] then [x]
    else if RankedBefore(difs, x, s[0]) then [x] + s
    else
      assert s == [s[0]] + s[1..];
      [s[0]] + Insert(difs, x, s[1..])
  }

  /** Insertion adds exactly `x`. */
  lemma {:induction false} InsertMultiset(difs: seq<real>, x: int, s: seq<int>)
    requires 0 <= x < |difs| && InRange(difs, s)
    ensures multiset(Insert(difs, x, s)) == multiset(s) + multiset{x}
  {
    if s != [] && !RankedBefore(difs, x, s[0]) {
      InsertMultiset(difs, x, s[1..]);
      assert s == [s[0]] + s[1..];
    }
  }

  /** Inserting a new index into a ranked list keeps it ranked. */
  lemma {:induction false} InsertRanked(difs: seq<real>, x: int, s: seq<int>)
    requires 0 <= x < |difs| && InRange(difs, s) && Ranked(difs, s)
    requires forall k :: 0 <= k < |s| ==> s[k] != x
    ensures Ranked(difs, Insert(difs, x, s))
  {
    if s == [] {
    } else if RankedBefore(difs, x, s[0]) {
      FirstRanked(difs, x, s, Insert(difs, x, s));
    } else {
      var tail := s[1..];
      var rest := Insert(difs, x, tail);
      InsertRanked(difs, x, tail);
      InsertMultiset(difs, x, tail);
      forall k | 0 <= k < |rest| ensures RankedBefore(difs, s[0], rest[k]) {
        var y := rest[k];
        assert y in multiset(rest);
        if y != x {
          assert y in multiset(tail);
          var j :| 0 <= j < |tail| && tail[j] == y;
          assert s[j + 1] == y;
        }
      }
      ConsRanked(difs, s[0], rest, Insert(difs, x, s));
    }
  }

  /** An index ranked before the head of a ranked list, put in front, keeps it ranked. */
  lemma FirstRanked(difs: seq<real>, x: int, s: seq<int>, r: seq<int>)
    requires 0 <= x < |difs| && InRange(difs, s) && Ranked(difs, s) && s != []
    requires RankedBefore(difs, x, s[0]) && r == [x] + s
    ensures InRange(difs, r) && Ranked(difs, r)
  {
    forall k | 0 <= k < |s| ensures RankedBefore(difs, x, s[k]) {
      if k > 0 {
        assert RankedBefore(difs, s[0], s[k]);
      }
    }
    ConsRanked(difs, x, s, r);
  }

  /** An index ranked before every element of a ranked list, put in front, keeps it ranked. */
  lemma ConsRanked(difs: seq<real>, y: int, rest: seq<int>, r: seq<int>)
    requires 0 <= y < |difs| && InRange(difs, rest) && Ranked(difs, rest)
    requires forall k :: 0 <= k < |rest| ==> RankedBefore(difs, y, rest[k])
    requires r == [y] + rest
    ensures InRange(difs, r) && Ranked(difs, r)
  {
    forall a, b | 0 <= a < b < |r| ensures RankedBefore(difs, r[a], r[b]) {
      if a == 0 {
        assert r[b] == rest[b - 1];
      } else {
        assert r[a] == rest[a - 1] && r[b] == rest[b - 1];
      }
    }
  }

  /** The multiset {0, 1, ..., n-1}. */
  function Indices(n: nat): multiset<int> {
    if n == 0 then multiset{} else Indices(n - 1) + multiset{n - 1}
  }

  lemma {:induction false} IndicesMembership(n: nat, i: int)
    ensures i in Indices(n) <==> 0 <= i < n
    ensures Indices(n)[i] <= 1
  {
    if n > 0 {
      IndicesMembership(n - 1, i);
    }
  }

  /** `sorted(range(n), key=lambda i: difs[i], reverse=True)`, built by insertion. */
  function SortedIndices(difs: seq<real>, n: nat): (s: seq<int>)
    requires n <= |difs|
    ensures InRange(difs, s) && |s| == n
  {
    if n == 0 then [] else Insert(difs, n - 1, SortedIndices(difs, n - 1))
  }

  /**
   * The sorted list is a permutation of 0..n-1 ordered by decreasing displacement, equal
   * displacements in increasing index order as Python's stable sort keeps them.
   */
  lemma {:induction false} SortedIndicesSorted(difs: seq<real>, n: nat)
    requires n <= |difs|
    ensures SortedPrefix(difs, n)
  {
    if n > 0 {
      SortedIndicesSorted(difs, n - 1);
      SortedIndicesStep(difs, n);
    }
  }

  /** The first n indices, once sorted, are a permutation of 0..n-1 in ranked order. */
  predicate SortedPrefix(difs: seq<real>, n: nat)
    requires n <= |difs|
  {
    multiset(SortedIndices(difs, n)) == Indices(n) && Ranked(difs, SortedIndices(difs, n))
  }

  /** The n-th insertion keeps what the first n - 1 established. */
  lemma SortedIndicesStep(difs: seq<real>, n: nat)
    requires 0 < n <= |difs| && SortedPrefix(difs, n - 1)
    ensures SortedPrefix(difs, n)
  {
    var prev := SortedIndices(difs, n - 1);
    AbsentFromIndices(prev, n - 1);
    InsertSorted(difs, prev, n - 1, SortedIndices(difs, n));
  }

  /** One insertion step of the sort keeps a ranked permutation. */
  lemma InsertSorted(difs: seq<real>, prev: seq<int>, x: nat, next: seq<int>)
    requires x < |difs| && InRange(difs, prev) && Ranked(difs, prev) && multiset(prev) == Indices(x)
    requires forall k :: 0 <= k < |prev| ==> prev[k] != x
    requires next == Insert(difs, x, prev)
    ensures InRange(difs, next) && multiset(next) == Indices(x + 1) && Ranked(difs, next)
  {
    InsertMultiset(difs, x, prev);
    InsertRanked(difs, x, prev);
  }

  /** A permutation of 0..n-1 does not hold n. */
  lemma AbsentFromIndices(s: seq<int>, n: nat)
    requires multiset(s) == Indices(n)
    ensures forall k :: 0 <= k < |s| ==> s[k] != n
  {
    IndicesMembership(n, n);
    forall k | 0 <= k < |s| ensures s[k] != n {
      assert s[k] in multiset(s);
    }
  }

  /** A permutation of 0..n-1 holds each of them, and nothing else. */
  lemma PermutationMembers(s: seq<int>, n: nat)
    requires multiset(s) == Indices(n)
    ensures forall i :: i in s <==> 0 <= i < n
  {
    forall i ensures i in s <==> 0 <= i < n {
      IndicesMembership(n, i);
      assert i in s <==> i in multiset(s);
    }
  }

  /** No index appears twice in a permutation of 0..n-1. */
  lemma PermutationDistinct(s: seq<int>, n: nat)
    requires multiset(s) == Indices(n)
    ensures forall a, b :: 0 <= a < b < |s| ==> s[a] != s[b]
  {
    forall a, b | 0 <= a < b < |s| ensures s[a] != s[b] {
      if s[a] == s[b] {
        IndicesMembership(n, s[a]);
        MultisetTwice(s, a, b);
        assert false;
      }
    }
  }

  /** An element at two positions has multiplicity at least two. */
  lemma MultisetTwice(s: seq<int>, a: int, b: int)
    requires 0 <= a < b < |s| && s[a] == s[b]
    ensures multiset(s)[s[a]] >= 2
  {
    assert s == s[..b] + [s[b]] + s[b + 1..];
    assert s[a] in multiset(s[..b]) by { assert s[..b][a] == s[a]; }
    assert multiset(s) == multiset(s[..b]) + multiset{s[b]} + multiset(s[b + 1..]);
  }

  function MinInt(a: int, b: int): int { if a <= b then a else b }

  /** `k = min(10, len(difs))` and the first k ranked indices. */
  function TopK(difs: seq<real>): (t: seq<int>)
    ensures |t| == MinInt(10, |difs|) && InRange(difs, t)
  {
    SortedIndices(difs, |difs|)[..MinInt(10, |difs|)]
  }

  /** How many of the top indices lie in the mouth list. */
  function CountIn(t: seq<int>, mouth: seq<int>): (c: nat)
    ensures c <= |t|
  {
    if t == [] then 0 else (if t[0] in mouth then 1 else 0) + CountIn(t[1..], mouth)
  }

  // ---------------------------------------------------------------- predict

  /** The first rule: mouth share at least its threshold and eye share at most its threshold. */
  predicate ProportionHappy(d: EmotionDfa, s: Stats) {
    Prop(s, Mouth) >= d.mouthThresh && Prop(s, Eyes) <= d.eyesThresh
  }

  /** The top-K rule: at least 60% of the k largest displacements in the mouth, mouth share >= 0.08. */
  predicate TopKHappy(d: EmotionDfa, s: Stats, difs: seq<real>) {
    var t := TopK(difs);
    |t| > 0 && (CountIn(t, RegionList(d, Mouth)) as real) / (|t| as real) >= 0.6 && Prop(s, Mouth) >= 0.08
  }

  /** The sad rule: brows share at least its threshold and mouth share at most 0.1. */
  predicate ProportionSad(d: EmotionDfa, s: Stats) {
    Prop(s, Brows) >= d.browsThresh && Prop(s, Mouth) <= 0.1
  }

  function TotalChanged(s: Stats): int {
    Get(s.counts, Mouth) + Get(s.counts, Eyes) + Get(s.counts, Brows)
  }

  /** `total_ones` and `len_total` for the noise floor. */
  function NoiseTotals(input: DfaInput, s: Stats): (int, int) {
    match input
    case Vector(v) => (Sum(v), |v|)
    case Record(_, _, _, binary) =>
      if binary.Some? then (Sum(binary.value), |binary.value|)
      else (TotalChanged(s), Get(s.sizes, Mouth) + Get(s.sizes, Eyes) + Get(s.sizes, Brows))
  }

  function MaxReal(a: real, b: real): real { if a >= b then a else b }

  /** More ones than max(50, half the length) counts as noise. */
  predicate Noisy(totals: (int, int)) {
    (totals.0 as real) > MaxReal(50.0, 0.5 * (totals.1 as real))
  }

  /** The statistics `predict` works on, or the indexing failure for a plain vector. */
  function StatsOf(d: EmotionDfa, input: DfaInput): (r: Result<Stats, DfaError>)
    ensures r.Failure? <==> input.Vector? && !IndicesFit(d, |input.v|)
  {
    match input
    case Vector(v) => if IndicesFit(d, |v|) then Success(VectorStats(d, v)) else Failure(IndexOutOfRange)
    case Record(counts, sizes, _, _) => Success(Stats(counts, if sizes.Some? then sizes.value else map[]))
  }

  /** The rules in order, on statistics that exist; the first that applies decides. */
  function Decision(d: EmotionDfa, input: DfaInput, s: Stats): Label {
    if ProportionHappy(d, s) then Happy
    else if input.Record? && input.difs.Some? && TopKHappy(d, s, input.difs.value) then Happy
    else if ProportionSad(d, s) then Sad
    else if TotalChanged(s) == 0 then Neutral
    else if Noisy(NoiseTotals(input, s)) then Reject
    else Neutral
  }

  /** `predict(binary_vec)`; only a plain vector whose region indices do not fit it fails. */
  function Predict(d: EmotionDfa, input: DfaInput): (r: Result<Label, DfaError>)
    ensures r.Failure? <==> input.Vector? && !IndicesFit(d, |input.v|)
    ensures input.Record? ==> r.Success?
  {
    match StatsOf(d, input)
    case Failure(e) => Failure(e)
    case Success(s) => Success(Decision(d, input, s))
  }

  // ---------------------------------------------------------------- properties of predict

  /**
   * The top-K list holds the k = min(10, N) largest displacements: each of its indices ranks before
   * every index left out (a larger displacement, or an equal one at a lower index), and no index
   * appears twice.
   */
  lemma TopKLargest(difs: seq<real>)
    ensures var t := TopK(difs);
      && (forall a, b :: 0 <= a < b < |t| ==> t[a] != t[b])
      && (forall i, j :: i in t && 0 <= j < |difs| && j !in t ==>
            difs[i] >= difs[j] && (difs[i] == difs[j] ==> i < j))
  {
    var n := |difs|;
    var sorted := SortedIndices(difs, n);
    var t := TopK(difs);
    SortedIndicesSorted(difs, n);
    assert SortedPrefix(difs, n);
    PermutationMembers(sorted, n);
    PermutationDistinct(sorted, n);
    forall i, j | i in t && 0 <= j < |difs| && j !in t
      ensures difs[i] >= difs[j] && (difs[i] == difs[j] ==> i < j)
    {
      var p :| 0 <= p < |t| && t[p] == i;
      assert j in sorted;
      var q :| 0 <= q < n && sorted[q] == j;
      if q < |t| {
        assert false;
      }
      assert RankedBefore(difs, sorted[p], sorted[q]);
    }
  }

  /** A share lies in [0, 1] when the count is between 0 and `sizes.get(r, 0) or 1`. */
  lemma PropBounds(s: Stats, r: Region)
    requires 0 <= Get(s.counts, r) <= Divisor(s.sizes, r)
    ensures 0.0 <= Prop(s, r) <= 1.0
  {
    var c, k := Get(s.counts, r) as real, Divisor(s.sizes, r) as real;
    assert k >= 1.0 && 0.0 <= c <= k;
  }

  /** The proportion rule for happy is tested first: whenever it holds, the answer is happy. */
  lemma HappyRuleFirst(d: EmotionDfa, input: DfaInput)
    requires StatsOf(d, input).Success? && ProportionHappy(d, StatsOf(d, input).value)
    ensures Predict(d, input) == Success(Happy)
  {
  }

  /**
   * A plain vector never reaches the top-K rule: it is classified happy exactly when the proportion
   * rule holds.
   */
  lemma VectorHappyIff(d: EmotionDfa, v: seq<int>)
    requires IndicesFit(d, |v|)
    ensures Predict(d, Vector(v)) == Success(Happy) <==> ProportionHappy(d, VectorStats(d, v))
  {
  }

  /**
   * Happy exactly when one of the two happy rules holds: the proportion rule, or, for a record that
   * carries displacements, the top-K rule.
   */
  lemma PredictHappyIff(d: EmotionDfa, input: DfaInput)
    requires StatsOf(d, input).Success?
    ensures var s := StatsOf(d, input).value;
      var topK := input.Record? && input.difs.Some? && TopKHappy(d, s, input.difs.value);
      Predict(d, input) == Success(Happy) <==> ProportionHappy(d, s) || topK
  {
  }

  /**
   * Neutral is what is left: no happy or sad rule holds, and either nothing in the three regions
   * changed or the ones stay within the noise floor.
   */
  lemma PredictNeutralIff(d: EmotionDfa, input: DfaInput)
    requires StatsOf(d, input).Success?
    ensures var s := StatsOf(d, input).value;
      var topK := input.Record? && input.difs.Some? && TopKHappy(d, s, input.difs.value);
      Predict(d, input) == Success(Neutral) <==>
        !ProportionHappy(d, s) && !topK && !ProportionSad(d, s)
        && (TotalChanged(s) == 0 || !Noisy(NoiseTotals(input, s)))
  {
  }

  /**
   * Sad only after both happy rules fail, and then exactly when the brows share reaches its
   * threshold while the mouth share stays at most 0.1.
   */
  lemma SadAfterHappyRules(d: EmotionDfa, input: DfaInput)
    requires StatsOf(d, input).Success?
    ensures var s := StatsOf(d, input).value;
      var topK := input.Record? && input.difs.Some? && TopKHappy(d, s, input.difs.value);
      Predict(d, input) == Success(Sad) <==> !ProportionHappy(d, s) && !topK && ProportionSad(d, s)
  {
  }

  /**
   * Reject is the noise floor: only when no other rule decided, some landmark of the three regions
   * changed, and the ones exceed both 50 and half the vector length.
   */
  lemma RejectIsNoiseFloor(d: EmotionDfa, input: DfaInput)
    requires StatsOf(d, input).Success?
    ensures var s := StatsOf(d, input).value;
      var topK := input.Record? && input.difs.Some? && TopKHappy(d, s, input.difs.value);
      Predict(d, input) == Success(Reject) <==>
        !ProportionHappy(d, s) && !topK && !ProportionSad(d, s) && TotalChanged(s) != 0
        && NoiseTotals(input, s).0 > 50 && (NoiseTotals(input, s).0 as real) > 0.5 * (NoiseTotals(input, s).1 as real)
  {
  }

  /**
   * With positive mouth and brows thresholds, no change in any region is neutral, whatever the
   * input's other entries.
   */
  lemma NoChangeIsNeutral(d: EmotionDfa, input: DfaInput)
    requires d.mouthThresh > 0.0 && d.browsThresh > 0.0
    requires StatsOf(d, input).Success?
    requires var s := StatsOf(d, input).value; Get(s.counts, Mouth) == 0 && Get(s.counts, Eyes) == 0 && Get(s.counts, Brows) == 0
    ensures Predict(d, input) == Success(Neutral)
  {
    var s := StatsOf(d, input).value;
    assert Prop(s, Mouth) == 0.0 && Prop(s, Brows) == 0.0;
  }

  /** Summing a vector over indices where it holds 1 counts them; where it holds 0 gives 0. */
  lemma {:induction false} SumAtConstant(v: seq<int>, idxs: seq<int>, x: int)
    requires forall k :: 0 <= k < |idxs| ==> ValidIndex(|v|, idxs[k]) && v[Wrap(|v|, idxs[k])] == x
    ensures SumAt(v, idxs) == x * |idxs|
  {
    if idxs != [] {
      SumAtConstant(v, idxs[1..], x);
    }
  }

  /** `v[idxs]`: numpy fancy indexing, negative indices counting from the end. */
  function Picked(v: seq<int>, idxs: seq<int>): (p: seq<int>)
    requires forall k :: 0 <= k < |idxs| ==> ValidIndex(|v|, idxs[k])
    ensures |p| == |idxs| && forall k :: 0 <= k < |idxs| ==> p[k] == v[Wrap(|v|, idxs[k])]
  {
    if idxs == [] then [] else [v[Wrap(|v|, idxs[0])]] + Picked(v, idxs[1..])
  }

  /** On a 0/1 vector, `v[idxs].sum()` is the number of ones among the picked entries. */
  lemma {:induction false} SumAtCountsOnes(v: seq<int>, idxs: seq<int>)
    requires forall k :: 0 <= k < |idxs| ==> ValidIndex(|v|, idxs[k])
    requires IsBinary(v)
    ensures SumAt(v, idxs) == Count(Picked(v, idxs), 1)
  {
    if idxs != [] {
      SumAtCountsOnes(v, idxs[1..]);
      var p := Picked(v, idxs);
      assert p[1..] == Picked(v, idxs[1..]);
    }
  }

  /** The vector of the classifier test: ones exactly at 15..19 of 20. */
  function TestVector(): (v: seq<int>)
    ensures |v| == 20 && forall i :: 0 <= i < 20 ==> v[i] == if i >= 15 then 1 else 0
  {
    seq(20, i requires 0 <= i < 20 => if i >= 15 then 1 else 0)
  }

  /** The classifier of the test: default thresholds, legacy lists for the three regions. */
  function TestDfa(): (d: EmotionDfa)
    ensures d == NewEmotionDfa(None, 0.18, 0.20, 0.12, Some([15, 16, 17, 18, 19]), Some([0, 1]), Some([10, 11]))
    ensures RegionList(d, Mouth) == [15, 16, 17, 18, 19] && RegionList(d, Eyes) == [0, 1] && RegionList(d, Brows) == [10, 11]
    ensures d.mouthThresh == 0.18 && d.eyesThresh == 0.20
  {
    NewEmotionDfa(None, 0.18, 0.20, 0.12, Some([15, 16, 17, 18, 19]), Some([0, 1]), Some([10, 11]))
  }

  lemma TestIndicesFit()
    ensures IndicesFit(TestDfa(), 20)
  {
    var d := TestDfa();
    forall r, k | r in d.regions && 0 <= k < |d.regions[r]| ensures ValidIndex(20, d.regions[r][k]) {
      assert d.regions[r] == RegionList(d, r);
    }
  }

  /** A region whose every landmark reads `x` in the vector has share `x`. */
  lemma RegionShareConstant(d: EmotionDfa, v: seq<int>, r: Region, x: int)
    requires IndicesFit(d, |v|) && RegionList(d, r) != []
    requires forall k :: 0 <= k < |RegionList(d, r)| ==> v[Wrap(|v|, RegionList(d, r)[k])] == x
    ensures Prop(VectorStats(d, v), r) == x as real
  {
    var idxs := RegionList(d, r);
    assert r in d.regions && idxs == d.regions[r];
    SumAtConstant(v, idxs, x);
    var s := VectorStats(d, v);
    ShareOfMultiple(Get(s.counts, r), Divisor(s.sizes, r), x);
  }

  lemma ShareOfMultiple(c: int, n: int, x: int)
    requires n > 0 && c == x * n
    ensures (c as real) / (n as real) == x as real
  {
    assert (c as real) == (x as real) * (n as real);
  }

  /** All five mouth landmarks of the test vector changed. */
  lemma TestMouthShare()
    ensures IndicesFit(TestDfa(), 20) && Prop(VectorStats(TestDfa(), TestVector()), Mouth) == 1.0
  {
    TestIndicesFit();
    var d, v := TestDfa(), TestVector();
    RegionShareConstant(d, v, Mouth, 1);
  }

  /** No eye landmark of the test vector changed. */
  lemma TestEyesShare()
    ensures IndicesFit(TestDfa(), 20) && Prop(VectorStats(TestDfa(), TestVector()), Eyes) == 0.0
  {
    TestIndicesFit();
    var d, v := TestDfa(), TestVector();
    RegionShareConstant(d, v, Eyes, 0);
  }

  /**
   * The classifier test: mouth 15..19, eyes [0, 1], brows [10, 11] given as legacy lists; the
   * vector with ones at 15..19 is happy by the first rule (the test also accepts neutral).
   */
  lemma TestVectorIsHappy()
    ensures var d := NewEmotionDfa(None, 0.18, 0.20, 0.12, Some([15, 16, 17, 18, 19]), Some([0, 1]), Some([10, 11]));
      Predict(d, Vector(TestVector())) == Success(Happy)
  {
    TestMouthShare();
    TestEyesShare();
    HappyRuleFirst(TestDfa(), Vector(TestVector()));
  }
}
