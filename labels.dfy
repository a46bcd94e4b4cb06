/**
 * The four outcomes the system reports and the counting both majority rules are built on.
 */
module Labels {

  /** 'happy', 'sad', 'neutral' and 'reject'. */
  datatype Label = Happy | Sad | Neutral | Reject

  /** The number of elements of `v` equal to `x`: numpy `(arr == x).sum()`. */
  function Count(v: seq<int>, x: int): (k: nat)
    ensures k <= |v|
  {
    if v == [] then 0 else (if v[0] == x then 1 else 0) + Count(v[1..], x)
  }

  /** Every element is 0 or 1. */
  predicate IsBinary(v: seq<int>) {
    forall i :: 0 <= i < |v| ==> v[i] == 0 || v[i] == 1
  }

  /** More ones: happy; more zeros: sad; a tie: the rule's own tie label. */
  function MajorityOf(ones: nat, zeros: nat, tie: Label): Label {
    if ones > zeros then Happy else if zeros > ones then Sad else tie
  }

  /** A value that fills the whole vector is counted once per position. */
  lemma {:induction false} CountUniform(v: seq<int>, x: int)
    requires forall i :: 0 <= i < |v| ==> v[i] == x
    ensures Count(v, x) == |v|
  {
    if v != [] {
      CountUniform(v[1..], x);
    }
  }

  /** A value that occurs nowhere has count 0. */
  lemma {:induction false} CountAbsent(v: seq<int>, x: int)
    requires forall i :: 0 <= i < |v| ==> v[i] != x
    ensures Count(v, x) == 0
  {
    if v != [] {
      CountAbsent(v[1..], x);
    }
  }

  /** In a binary vector the zeros and the ones together are all the elements. */
  lemma {:induction false} CountBinary(v: seq<int>)
    requires IsBinary(v)
    ensures Count(v, 0) + Count(v, 1) == |v|
  {
    if v != [] {
      CountBinary(v[1..]);
    }
  }

  /** Counting over a concatenation adds the counts of the parts. */
  lemma {:induction false} CountAppend(a: seq<int>, b: seq<int>, x: int)
    ensures Count(a + b, x) == Count(a, x) + Count(b, x)
  {
    if a == [] {
      assert a + b == b;
    } else {
      assert (a + b)[1..] == a[1..] + b;
      CountAppend(a[1..], b, x);
    }
  }
}
