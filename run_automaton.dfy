/**
 * `decide_from_vector`: the reading of a binary difference vector by its first symbol and by
 * majority, with invalid symbols rejected outright.
 */
module RunAutomaton {
  import opened Wrappers
  import opened Labels

  /** The only reason the function reports: 'invalid_symbols'. */
  datatype Reason = InvalidSymbols

  /**
   * The returned record. `reason` is present only on the invalid-symbol result, and then both
   * readings are `None`.
   */
  datatype VectorDecision = VectorDecision(
    decision: Label, reason: Option<Reason>, byFirst: Option<Label>, byMajority: Option<Label>)

  /** Some element is neither 0 nor 1. */
  predicate HasInvalidSymbol(vec: seq<int>) {
    exists i :: 0 <= i < |vec| && vec[i] != 0 && vec[i] != 1
  }

  /**
   * The automaton map is accepted and ignored. Invalid symbols: reject with reason
   * 'invalid_symbols' and no readings. Otherwise the first-symbol reading (1 happy, 0 sad, empty
   * reject), the majority reading (tie reject), and the decision is the majority reading.
   */
  function DecideFromVector<M>(vec: seq<int>, automatonMap: M): (r: VectorDecision)
    ensures HasInvalidSymbol(vec) ==> r == VectorDecision(Reject, Some(InvalidSymbols), None, None)
    ensures !HasInvalidSymbol(vec) ==>
      && r.reason == None
      && r.byMajority == Some(r.decision)
      && r.byFirst == Some(if vec == [] then Reject else if vec[0] == 1 then Happy else Sad)
      && (r.decision == Happy <==> Count(vec, 1) > Count(vec, 0))
      && (r.decision == Sad <==> Count(vec, 0) > Count(vec, 1))
      && (r.decision == Reject <==> Count(vec, 1) == Count(vec, 0))
      && r.decision != Neutral
  {
    if HasInvalidSymbol(vec) then VectorDecision(Reject, Some(InvalidSymbols), None, None)
    else
      var byFirst := if |vec| > 0 && vec[0] == 1 then Happy else if |vec| > 0 && vec[0] == 0 then Sad else Reject;
      var byMajority := MajorityOf(Count(vec, 1), Count(vec, 0), Reject);
      VectorDecision(byMajority, None, Some(byFirst), Some(byMajority))
  }

  /** A non-empty vector of ones only is happy, by both readings. */
  lemma AllOnesHappy<M>(vec: seq<int>, automatonMap: M)
    requires vec != [] && forall i :: 0 <= i < |vec| ==> vec[i] == 1
    ensures DecideFromVector(vec, automatonMap) == VectorDecision(Happy, None, Some(Happy), Some(Happy))
  {
    CountUniform(vec, 1);
    CountAbsent(vec, 0);
  }

  /** A non-empty vector of zeros only is sad, by both readings. */
  lemma AllZerosSad<M>(vec: seq<int>, automatonMap: M)
    requires vec != [] && forall i :: 0 <= i < |vec| ==> vec[i] == 0
    ensures DecideFromVector(vec, automatonMap) == VectorDecision(Sad, None, Some(Sad), Some(Sad))
  {
    CountUniform(vec, 0);
    CountAbsent(vec, 1);
  }

  /** The empty vector ties 0 to 0 and is rejected, with no symbol to read first. */
  lemma EmptyRejects<M>(automatonMap: M)
    ensures DecideFromVector([], automatonMap) == VectorDecision(Reject, None, Some(Reject), Some(Reject))
  {
  }

  /** The result never depends on the automaton map. */
  lemma IgnoresAutomatonMap<M>(vec: seq<int>, a: M, b: M)
    ensures DecideFromVector(vec, a) == DecideFromVector(vec, b)
  {
  }

  /** A valid vector whose length is odd never ties, so it is never rejected. */
  lemma OddLengthNeverRejected<M>(vec: seq<int>, automatonMap: M)
    requires !HasInvalidSymbol(vec) && |vec| % 2 == 1
    ensures DecideFromVector(vec, automatonMap).decision in {Happy, Sad}
  {
    assert IsBinary(vec);
    CountBinary(vec);
  }
}
