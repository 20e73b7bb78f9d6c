/** Sums of bounded ranks over a finite map, counted level by level. */
module Ranking {

  function AtLeast(m: map<nat, nat>, k: nat): set<nat> {
    set i | i in m && m[i] >= k
  }

  /** The sum of the ranks in `m`, each counted up to `top`. */
  function Total(m: map<nat, nat>, top: nat): nat {
    if top == 0 then 0 else |AtLeast(m, top)| + Total(m, top - 1)
  }

  /** Entries may vanish or fall. */
  predicate Below(m': map<nat, nat>, m: map<nat, nat>) {
    forall i :: i in m' ==> i in m && m'[i] <= m[i]
  }

  lemma Fewer(a: set<nat>, b: set<nat>)
    requires a <= b
    ensures |a| <= |b|
    ensures a != b ==> |a| < |b|
  {
    assert b == a + (b - a);
  }

  lemma {:induction false} TotalFalls(m': map<nat, nat>, m: map<nat, nat>, top: nat)
    requires Below(m', m)
    ensures Total(m', top) <= Total(m, top)
  {
    if top > 0 {
      Fewer(AtLeast(m', top), AtLeast(m, top));
      TotalFalls(m', m, top - 1);
    }
  }

  lemma {:induction false} TotalDrops(m': map<nat, nat>, m: map<nat, nat>, top: nat, i: nat)
    requires Below(m', m) && i in m && 0 < m[i] <= top && (i in m' ==> m'[i] < m[i])
    ensures Total(m', top) < Total(m, top)
  {
    Fewer(AtLeast(m', top), AtLeast(m, top));
    if m[i] == top {
      assert i in AtLeast(m, top) && i !in AtLeast(m', top);
      TotalFalls(m', m, top - 1);
    } else {
      TotalDrops(m', m, top - 1, i);
    }
  }

  /** One entry at most adds at most `top`. */
  lemma {:induction false} TotalOfOne(m: map<nat, nat>, top: nat)
    requires forall i, j :: i in m && j in m ==> i == j
    ensures Total(m, top) <= top
  {
    if top > 0 {
      if i :| i in AtLeast(m, top) {
        Fewer(AtLeast(m, top), {i});
      }
      TotalOfOne(m, top - 1);
    }
  }
}
