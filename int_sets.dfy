/** Least and greatest elements of finite sets of integers (Python `min`/`max` over keys). */
module IntSets {

  function Max(a: int, b: int): int { if a >= b then a else b }
  function Min(a: int, b: int): int { if a <= b then a else b }

  /** A non-empty set has a member. */
  lemma NonEmptyHasMember(s: set<int>)
    requires s != {}
    ensures exists x :: x in s
  {
    if forall x: int :: x !in s {
      assert false;
    }
  }

  lemma {:induction false} ExtremesExist(s: set<int>)
    requires s != {}
    ensures exists m :: m in s && forall k :: k in s ==> m <= k
    ensures exists m :: m in s && forall k :: k in s ==> k <= m
    decreases |s|
  {
    NonEmptyHasMember(s);
    var x :| x in s;
    if s - {x} == {} {
      assert s == {x};
    } else {
      ExtremesExist(s - {x});
      var lo :| lo in s - {x} && forall k :: k in s - {x} ==> lo <= k;
      var hi :| hi in s - {x} && forall k :: k in s - {x} ==> k <= hi;
      forall k | k in s ensures Min(lo, x) <= k <= Max(hi, x) {
        if k != x {
          assert k in s - {x};
        }
      }
      assert Min(lo, x) in s && Max(hi, x) in s;
    }
  }

  /** Python `min` of a non-empty set of tape positions. */
  function MinOf(s: set<int>): (m: int)
    requires s != {}
    ensures m in s && forall k :: k in s ==> m <= k
  {
    ExtremesExist(s);
    var m :| m in s && forall k :: k in s ==> m <= k;
    m
  }

  /** Python `max` of a non-empty set of tape positions. */
  function MaxOf(s: set<int>): (m: int)
    requires s != {}
    ensures m in s && forall k :: k in s ==> k <= m
  {
    ExtremesExist(s);
    var m :| m in s && forall k :: k in s ==> k <= m;
    m
  }
}
