/**
  The order of Rust strings, a stable sort by a string key, and removal of
  repeated neighbours (`sort_by`, `sort`, `dedup`).
 */
module Ordering {

  /** Strictly before, comparing character by character. */
  predicate Below(a: string, b: string) {
    if b == [] then false
    else if a == [] then true
    else a[0] < b[0] || (a[0] == b[0] && Below(a[1..], b[1..]))
  }

  lemma {:induction false} BelowIsOneWay(a: string, b: string)
    ensures !(Below(a, b) && Below(b, a))
    ensures Below(a, b) ==> a != b
    ensures a == b || Below(a, b) || Below(b, a)
    decreases |a|
  {
    if a != [] && b != [] {
      BelowIsOneWay(a[1..], b[1..]);
      assert a == [a[0]] + a[1..] && b == [b[0]] + b[1..];
    }
  }

  lemma {:induction false} BelowChains(a: string, b: string, c: string)
    requires Below(a, b) && Below(b, c)
    ensures Below(a, c)
    decreases |a|
  {
    if a != [] && a[0] == b[0] && b[0] == c[0] {
      BelowChains(a[1..], b[1..], c[1..]);
    }
  }

  predicate NotAbove(a: string, b: string) {
    !Below(b, a)
  }

  lemma NotAboveChains(a: string, b: string, c: string)
    requires NotAbove(a, b) && NotAbove(b, c)
    ensures NotAbove(a, c)
  {
    BelowIsOneWay(a, b);
    BelowIsOneWay(b, c);
    if Below(a, b) && Below(b, c) {
      BelowChains(a, b, c);
    }
    BelowIsOneWay(a, c);
  }

  // ---- sorting by a key ----

  ghost predicate Ordered<T>(s: seq<T>, key: T -> string) {
    forall i, j :: 0 <= i < j < |s| ==> NotAbove(key(s[i]), key(s[j]))
  }

  ghost predicate Ascending<T>(s: seq<T>, key: T -> string) {
    forall i, j :: 0 <= i < j < |s| ==> Below(key(s[i]), key(s[j]))
  }

  ghost predicate DistinctKeys<T>(s: seq<T>, key: T -> string) {
    forall i, j :: 0 <= i < j < |s| ==> key(s[i]) != key(s[j])
  }

  /** `x` after every element whose key is not above its own. */
  function Insert<T>(x: T, s: seq<T>, key: T -> string): (r: seq<T>)
    ensures multiset(r) == multiset(s) + multiset{x}
    ensures |r| == |s| + 1
  {
    if s == [] then [x]
    else if Below(key(x), key(s[0])) then [x] + s
    else
      assert s == [s[0]] + s[1..];
      [s[0]] + Insert(x, s[1..], key)
  }

  /** The stable sort, one element at a time from the left. */
  function Sort<T>(s: seq<T>, key: T -> string): (r: seq<T>)
    ensures multiset(r) == multiset(s)
    ensures |r| == |s|
  {
    if s == [] then []
    else
      assert s == s[..|s| - 1] + [s[|s| - 1]];
      Insert(s[|s| - 1], Sort(s[..|s| - 1], key), key)
  }

  lemma {:induction false} InsertKeepsOrder<T>(x: T, s: seq<T>, key: T -> string)
    requires Ordered(s, key)
    ensures Ordered(Insert(x, s, key), key)
    decreases |s|
  {
    if s == [] {
    } else if Below(key(x), key(s[0])) {
      BelowIsOneWay(key(x), key(s[0]));
      forall j | 0 <= j < |s|
        ensures NotAbove(key(x), key(s[j]))
      {
        if j > 0 {
          NotAboveChains(key(x), key(s[0]), key(s[j]));
        }
      }
    } else {
      var rest := Insert(x, s[1..], key);
      InsertKeepsOrder(x, s[1..], key);
      forall j | 0 <= j < |rest|
        ensures NotAbove(key(s[0]), key(rest[j]))
      {
        assert rest[j] in multiset(rest);
        assert rest[j] == x || rest[j] in s[1..];
      }
    }
  }

  lemma {:induction false} SortOrders<T>(s: seq<T>, key: T -> string)
    ensures Ordered(Sort(s, key), key)
    decreases |s|
  {
    if s != [] {
      SortOrders(s[..|s| - 1], key);
      InsertKeepsOrder(s[|s| - 1], Sort(s[..|s| - 1], key), key);
    }
  }

  lemma SortKeepsMembers<T>(s: seq<T>, key: T -> string)
    ensures forall x :: x in Sort(s, key) <==> x in s
  {
    assert forall x :: x in Sort(s, key) <==> x in multiset(Sort(s, key));
    assert forall x :: x in s <==> x in multiset(s);
  }

  /** Equal keys never swap: sorting what is already in order changes nothing. */
  lemma {:induction false} SortOfOrdered<T>(s: seq<T>, key: T -> string)
    requires Ordered(s, key)
    ensures Sort(s, key) == s
    decreases |s|
  {
    if s != [] {
      var front, x := s[..|s| - 1], s[|s| - 1];
      LastIsAbove(s, front, x, key);
      SortOfOrdered(front, key);
      InsertLast(x, front, key);
      SortUnfolds(s, front, x, key);
    }
  }

  lemma LastIsAbove<T>(s: seq<T>, front: seq<T>, x: T, key: T -> string)
    requires s != [] && front == s[..|s| - 1] && x == s[|s| - 1] && Ordered(s, key)
    ensures s == front + [x] && Ordered(front, key)
    ensures forall i :: 0 <= i < |front| ==> NotAbove(key(front[i]), key(x))
  {
  }

  lemma SortUnfolds<T>(s: seq<T>, front: seq<T>, x: T, key: T -> string)
    requires s != [] && front == s[..|s| - 1] && x == s[|s| - 1]
    ensures Sort(s, key) == Insert(x, Sort(front, key), key)
  {
  }

  lemma {:induction false} InsertLast<T>(x: T, s: seq<T>, key: T -> string)
    requires forall i :: 0 <= i < |s| ==> NotAbove(key(s[i]), key(x))
    ensures Insert(x, s, key) == s + [x]
    decreases |s|
  {
    if s != [] {
      InsertLast(x, s[1..], key);
    }
  }

  /** Two ascending sequences with the same members are the same sequence. */
  lemma {:induction false} AscendingIsUnique<T>(s: seq<T>, t: seq<T>, key: T -> string)
    requires Ascending(s, key) && Ascending(t, key)
    requires forall x :: x in s <==> x in t
    ensures s == t
    decreases |s|
  {
    assert t != [] ==> t[0] in t;
    assert s != [] ==> s[0] in s;
    if s != [] {
      var i :| 0 <= i < |t| && t[i] == s[0];
      var j :| 0 <= j < |s| && s[j] == t[0];
      BelowIsOneWay(key(s[0]), key(t[0]));
      assert s[0] == t[0];
      SameTails(s, t, key);
      AscendingIsUnique(s[1..], t[1..], key);
    }
  }

  lemma SameTails<T>(s: seq<T>, t: seq<T>, key: T -> string)
    requires Ascending(s, key) && Ascending(t, key) && s != [] && t != [] && s[0] == t[0]
    requires forall x :: x in s <==> x in t
    ensures forall x :: x in s[1..] <==> x in t[1..]
  {
    TailMembers(s, key);
    TailMembers(t, key);
  }

  lemma TailMembers<T>(s: seq<T>, key: T -> string)
    requires Ascending(s, key) && s != []
    ensures forall x :: x in s[1..] <==> x in s && x != s[0]
  {
    forall x | x in s[1..]
      ensures x != s[0]
    {
      var i :| 0 <= i < |s[1..]| && s[1..][i] == x;
      assert s[i + 1] == x;
      BelowIsOneWay(key(s[0]), key(s[i + 1]));
    }
    assert s == [s[0]] + s[1..];
  }

  // ---- sorted names without repeats ----

  function Self(s: string): string {
    s
  }

  /** `dedup`: of neighbours that are equal only the first stays. */
  function Dedup(s: seq<string>): (r: seq<string>)
    ensures |r| <= |s|
    ensures forall x :: x in r <==> x in s
  {
    if |s| <= 1 then s
    else
      assert s == [s[0]] + s[1..];
      if s[0] == s[1] then Dedup(s[1..]) else [s[0]] + Dedup(s[1..])
  }

  lemma {:induction false} DedupAscends(s: seq<string>)
    requires Ordered(s, Self)
    ensures Ascending(Dedup(s), Self)
    ensures |Dedup(s)| == |s| ==> Ascending(s, Self) && Dedup(s) == s
    decreases |s|
  {
    if |s| > 1 {
      var rest := Dedup(s[1..]);
      DedupAscends(s[1..]);
      if s[0] != s[1] {
        forall j | 0 <= j < |rest|
          ensures Below(s[0], rest[j])
        {
          assert rest[j] in s[1..];
          FirstBelow(s, rest[j]);
        }
        if |Dedup(s)| == |s| {
          assert s == [s[0]] + rest;
        }
      }
    }
  }

  lemma FirstBelow(s: seq<string>, x: string)
    requires Ordered(s, Self) && |s| > 1 && s[0] != s[1] && x in s[1..]
    ensures Below(s[0], x)
  {
    assert NotAbove(Self(s[0]), Self(s[1]));
    BelowIsOneWay(s[0], s[1]);
    var i :| 0 <= i < |s[1..]| && s[1..][i] == x;
    if i > 0 {
      assert NotAbove(Self(s[1]), Self(s[i + 1]));
      BelowIsOneWay(s[1], x);
      if Below(s[1], x) {
        BelowChains(s[0], s[1], x);
      }
    }
  }

  /** `sort` then `dedup`. */
  function SortedNames(s: seq<string>): seq<string> {
    Dedup(Sort(s, Self))
  }

  predicate NoRepeats(s: seq<string>) {
    forall i, j :: 0 <= i < j < |s| ==> s[i] != s[j]
  }

  lemma SortedNamesAre(s: seq<string>)
    ensures Ascending(SortedNames(s), Self)
    ensures forall x :: x in SortedNames(s) <==> x in s
    ensures |SortedNames(s)| <= |s|
  {
    SortOrders(s, Self);
    SortKeepsMembers(s, Self);
    DedupAscends(Sort(s, Self));
  }

  /** Sorting and deduplicating gives equal lists exactly for equal sets of names. */
  lemma SortedNamesCompare(s: seq<string>, t: seq<string>)
    ensures SortedNames(s) == SortedNames(t) <==> (forall x :: x in s <==> x in t)
  {
    SortedNamesAre(s);
    SortedNamesAre(t);
    if forall x :: x in s <==> x in t {
      AscendingIsUnique(SortedNames(s), SortedNames(t), Self);
    } else {
      var x :| !(x in s <==> x in t);
      assert x in SortedNames(s) <==> x in s;
      assert x in SortedNames(t) <==> x in t;
    }
  }

  lemma AscendingHasNoRepeats(s: seq<string>)
    requires Ascending(s, Self)
    ensures NoRepeats(s) && SortedNames(s) == s
  {
    forall i, j | 0 <= i < j < |s|
      ensures s[i] != s[j]
    {
      assert Below(Self(s[i]), Self(s[j]));
      BelowIsOneWay(s[i], s[j]);
    }
    SortedNamesAre(s);
    AscendingIsUnique(SortedNames(s), s, Self);
  }

  /** Nothing is dropped exactly when no name repeats. */
  lemma SortedNamesLength(s: seq<string>)
    ensures |SortedNames(s)| == |s| <==> NoRepeats(s)
  {
    var sorted := Sort(s, Self);
    SortOrders(s, Self);
    DedupAscends(sorted);
    if |SortedNames(s)| == |s| {
      AscendingHasNoRepeats(sorted);
      RepeatsFollowCounts(s, sorted);
    } else if NoRepeats(s) {
      RepeatsFollowCounts(sorted, s);
      DedupKeepsAll(sorted);
    }
  }

  lemma {:induction false} DedupKeepsAll(s: seq<string>)
    requires NoRepeats(s)
    ensures Dedup(s) == s
    decreases |s|
  {
    if |s| > 1 {
      DedupKeepsAll(s[1..]);
      assert s[0] != s[1];
      assert s == [s[0]] + s[1..];
    }
  }

  lemma RepeatsFollowCounts(s: seq<string>, t: seq<string>)
    requires multiset(s) == multiset(t) && NoRepeats(t)
    ensures NoRepeats(s)
  {
    forall i, j | 0 <= i < j < |s|
      ensures s[i] != s[j]
    {
      if s[i] == s[j] {
        var x := s[i];
        assert s == s[..i] + [s[i]] + s[i + 1..j] + [s[j]] + s[j + 1..];
        assert multiset(s)[x] >= 2;
        CountOnce(t, x);
        assert false;
      }
    }
  }

  lemma {:induction false} CountOnce(t: seq<string>, x: string)
    requires NoRepeats(t)
    ensures multiset(t)[x] <= 1
    decreases |t|
  {
    if t != [] {
      CountOnce(t[1..], x);
      assert t == [t[0]] + t[1..];
      if t[0] == x {
        assert x !in t[1..];
      }
    }
  }
}
