/** Mapping over sequences, and facts about the id sequences held by the admission queues. */
module Sequences {

  function Map<A, B>(f: A -> B, s: seq<A>): (r: seq<B>)
    ensures |r| == |s|
    ensures forall i :: 0 <= i < |s| ==> r[i] == f(s[i])
  {
    if s == [] then [] else [f(s[0])] + Map(f, s[1..])
  }

  lemma MapAppend<A, B>(f: A -> B, a: seq<A>, b: seq<A>)
    ensures Map(f, a + b) == Map(f, a) + Map(f, b)
  {
  }

  predicate Increasing(s: seq<nat>) {
    forall i, j :: 0 <= i < j < |s| ==> s[i] < s[j]
  }

  function Elems<T>(s: seq<T>): set<T> {
    set x | x in s
  }

  /** `s` without the first occurrence of `x`, as `VecDeque::remove` of its position. */
  function Without(s: seq<nat>, x: nat): (r: seq<nat>)
    ensures |r| <= |s|
    ensures x !in s ==> r == s
  {
    if s == [] then []
    else if s[0] == x then s[1..]
    else [s[0]] + Without(s[1..], x)
  }

  lemma {:induction false} WithoutMembers(s: seq<nat>, x: nat)
    requires Increasing(s)
    ensures forall y :: y in Without(s, x) <==> y in s && y != x
  {
    if s != [] {
      IncreasingTail(s);
      if s[0] != x {
        WithoutMembers(s[1..], x);
      }
    }
  }

  lemma {:induction false} WithoutKeeps(s: seq<nat>, x: nat)
    requires Increasing(s)
    ensures Increasing(Without(s, x))
    ensures forall y :: y in Without(s, x) <==> y in s && y != x
  {
    WithoutMembers(s, x);
    if s != [] {
      IncreasingTail(s);
      if s[0] != x {
        WithoutKeeps(s[1..], x);
        IncreasingPrepend(s[0], Without(s[1..], x));
      }
    }
  }

  lemma IncreasingPrepend(x: nat, s: seq<nat>)
    requires Increasing(s)
    requires forall y :: y in s ==> x < y
    ensures Increasing([x] + s)
  {
    forall i, j | 0 <= i < j < |[x] + s|
      ensures ([x] + s)[i] < ([x] + s)[j]
    {
      assert s[j - 1] in s;
    }
  }

  lemma IncreasingTail(s: seq<nat>)
    requires Increasing(s) && s != []
    ensures Increasing(s[1..])
    ensures forall y :: y in s[1..] ==> s[0] < y
    ensures forall y :: y in s <==> y == s[0] || y in s[1..]
  {
    assert s == [s[0]] + s[1..];
  }

  lemma IncreasingAppend(s: seq<nat>, x: nat)
    requires Increasing(s)
    requires forall y :: y in s ==> y < x
    ensures Increasing(s + [x])
    ensures forall y :: y in s + [x] <==> y in s || y == x
  {
    forall i, j | 0 <= i < j < |s + [x]|
      ensures (s + [x])[i] < (s + [x])[j]
    {
      assert s[i] in s;
    }
  }

  lemma {:induction false} ElemsCount(s: seq<nat>)
    requires Increasing(s)
    ensures |Elems(s)| == |s|
  {
    if s != [] {
      IncreasingTail(s);
      ElemsCount(s[1..]);
      assert Elems(s) == {s[0]} + Elems(s[1..]);
    }
  }
}
