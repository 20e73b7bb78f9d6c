/** `canonical_json` of src/npm_cache.rs: objects rebuilt in key order, at every depth. */
module CanonicalJson {
  import opened Ordering

  datatype Json =
    | Null
    | Boolean(flag: bool)
    | Number(literal: string)
    | String(text: string)
    | Array(items: seq<Json>)
    | Object(members: seq<Member>)

  datatype Member = Member(key: string, value: Json)

  function KeyOf(member: Member): string {
    member.key
  }

  /** A map holds each key once. */
  ghost predicate WellFormed(v: Json) {
    match v
    case Array(items) => forall i :: 0 <= i < |items| ==> WellFormed(items[i])
    case Object(members) =>
      && DistinctKeys(members, KeyOf)
      && forall i :: 0 <= i < |members| ==> WellFormed(members[i].value)
    case _ => true
  }

  /** `Map::insert`: a known key keeps its place and gets the new value, a new key goes last. */
  function Put(members: seq<Member>, member: Member): seq<Member> {
    if members == [] then [member]
    else if members[0].key == member.key then [member] + members[1..]
    else [members[0]] + Put(members[1..], member)
  }

  function Rebuild(members: seq<Member>): seq<Member> {
    if members == [] then []
    else Put(Rebuild(members[..|members| - 1]), members[|members| - 1])
  }

  function Canon(v: Json): Json
    decreases v, 1, 0
  {
    match v
    case Array(items) =>
      ItemsAreParts(v);
      Array(CanonItems(items, v))
    case Object(members) =>
      Object(Rebuild(CanonMembers(SortedMembers(v), v)))
    case _ => v
  }

  function CanonItems(items: seq<Json>, ghost whole: Json): (r: seq<Json>)
    requires forall i :: 0 <= i < |items| ==> items[i] < whole
    ensures |r| == |items| && forall i :: 0 <= i < |r| ==> r[i] == Canon(items[i])
    decreases whole, 0, |items|
  {
    if items == [] then [] else [Canon(items[0])] + CanonItems(items[1..], whole)
  }

  function CanonMembers(members: seq<Member>, ghost whole: Json): (r: seq<Member>)
    requires forall i :: 0 <= i < |members| ==> members[i].value < whole
    ensures |r| == |members|
    ensures forall i :: 0 <= i < |r| ==> r[i] == Member(members[i].key, Canon(members[i].value))
    decreases whole, 0, |members|
  {
    if members == [] then []
    else [Member(members[0].key, Canon(members[0].value))] + CanonMembers(members[1..], whole)
  }

  lemma ItemsAreParts(whole: Json)
    requires whole.Array?
    ensures forall i :: 0 <= i < |whole.items| ==> whole.items[i] < whole
  {
  }

  /** The members in key order; each value is a part of the whole. */
  function SortedMembers(whole: Json): (s: seq<Member>)
    requires whole.Object?
    ensures multiset(s) == multiset(whole.members)
    ensures forall i :: 0 <= i < |s| ==> s[i].value < whole
  {
    var s := Sort(whole.members, KeyOf);
    SortedAreParts(whole, s);
    s
  }

  lemma SortedAreParts(whole: Json, s: seq<Member>)
    requires whole.Object? && multiset(s) == multiset(whole.members)
    ensures forall i :: 0 <= i < |s| ==> s[i].value < whole
  {
    forall i | 0 <= i < |s|
      ensures s[i].value < whole
    {
      assert s[i] in multiset(s);
      assert s[i] in whole.members;
      var j :| 0 <= j < |whole.members| && whole.members[j] == s[i];
      assert whole.members[j].value < whole;
    }
  }

  /** The recursion as written: a sort, then a loop that inserts one member after another. */
  method Canonicalize(v: Json) returns (r: Json)
    ensures r == Canon(v)
    decreases v
  {
    match v {
      case Array(items) =>
        var done: seq<Json> := [];
        ItemsAreParts(v);
        ghost var all := CanonItems(items, v);
        for i := 0 to |items|
          invariant done == all[..i]
        {
          var item := Canonicalize(items[i]);
          done := done + [item];
        }
        r := Array(done);
      case Object(members) =>
        var entries := SortedMembers(v);
        ghost var all := CanonMembers(entries, v);
        var canonical: seq<Member> := [];
        for i := 0 to |entries|
          invariant canonical == Rebuild(all[..i])
        {
          var value := Canonicalize(entries[i].value);
          assert all[..i + 1][..i] == all[..i];
          canonical := Put(canonical, Member(entries[i].key, value));
        }
        assert all[..|entries|] == all;
        r := Object(canonical);
      case _ =>
        r := v;
    }
  }

  // ---- the rebuilt object ----

  lemma {:induction false} PutLast(members: seq<Member>, m: Member)
    requires forall i :: 0 <= i < |members| ==> members[i].key != m.key
    ensures Put(members, m) == members + [m]
    decreases |members|
  {
    if members != [] {
      PutLast(members[1..], m);
    }
  }

  lemma {:induction false} RebuildKeeps(members: seq<Member>)
    requires DistinctKeys(members, KeyOf)
    ensures Rebuild(members) == members
    decreases |members|
  {
    if members != [] {
      var front, last := members[..|members| - 1], members[|members| - 1];
      RebuildKeeps(front);
      assert forall i :: 0 <= i < |front| ==> KeyOf(members[i]) != KeyOf(last);
      PutLast(front, last);
      assert members == front + [last];
    }
  }

  lemma SortedKeysAscend(members: seq<Member>)
    requires DistinctKeys(members, KeyOf)
    ensures Ascending(Sort(members, KeyOf), KeyOf)
  {
    var s := Sort(members, KeyOf);
    SortOrders(members, KeyOf);
    forall i, j | 0 <= i < j < |s|
      ensures Below(KeyOf(s[i]), KeyOf(s[j]))
    {
      assert NotAbove(KeyOf(s[i]), KeyOf(s[j]));
      BelowIsOneWay(KeyOf(s[i]), KeyOf(s[j]));
      SortedKeysDiffer(members, s, i, j);
    }
  }

  lemma SortedKeysDiffer(members: seq<Member>, s: seq<Member>, i: nat, j: nat)
    requires DistinctKeys(members, KeyOf) && multiset(s) == multiset(members) && i < j < |s|
    ensures KeyOf(s[i]) != KeyOf(s[j])
  {
    assert s[i] in multiset(s) && s[j] in multiset(s);
    assert s[i] in members && s[j] in members;
    var a :| 0 <= a < |members| && members[a] == s[i];
    MemberOnce(members, s[i]);
    TwiceIn(s, i, j);
    var b :| 0 <= b < |members| && members[b] == s[j];
    assert a < b ==> KeyOf(members[a]) != KeyOf(members[b]);
    assert b < a ==> KeyOf(members[b]) != KeyOf(members[a]);
  }

  lemma TwiceIn(s: seq<Member>, i: nat, j: nat)
    requires i < j < |s|
    ensures s[i] == s[j] ==> multiset(s)[s[i]] >= 2
  {
    assert s == s[..i] + [s[i]] + s[i + 1..j] + [s[j]] + s[j + 1..];
  }

  lemma {:induction false} MemberOnce(members: seq<Member>, m: Member)
    requires DistinctKeys(members, KeyOf)
    ensures multiset(members)[m] <= 1
    decreases |members|
  {
    if members != [] {
      MemberOnce(members[1..], m);
      assert members == [members[0]] + members[1..];
      if members[0] == m {
        assert forall i :: 1 <= i < |members| ==> KeyOf(members[0]) != KeyOf(members[i]);
        assert m !in members[1..];
      }
    }
  }

  lemma AscendingKeysDiffer(s: seq<Member>)
    requires Ascending(s, KeyOf)
    ensures DistinctKeys(s, KeyOf)
  {
    forall i, j | 0 <= i < j < |s|
      ensures KeyOf(s[i]) != KeyOf(s[j])
    {
      BelowIsOneWay(KeyOf(s[i]), KeyOf(s[j]));
    }
  }

  function CanonMember(m: Member): Member {
    Member(m.key, Canon(m.value))
  }

  ghost predicate Covers(canonical: seq<Member>, members: seq<Member>) {
    forall m :: m in members ==> CanonMember(m) in canonical
  }

  ghost predicate ComesFrom(c: Member, members: seq<Member>) {
    exists m :: m in members && c == CanonMember(m)
  }

  /** The canonical members: ascending keys, and exactly the original keys with canonical values. */
  ghost predicate CanonOf(canonical: seq<Member>, members: seq<Member>) {
    && Ascending(canonical, KeyOf)
    && Covers(canonical, members)
    && forall c :: c in canonical ==> ComesFrom(c, members)
  }

  lemma CanonicalMembers(v: Json)
    requires v.Object? && WellFormed(v)
    ensures Canon(v).Object? && CanonOf(Canon(v).members, v.members)
  {
    var s := SortedMembers(v);
    SortKeepsMembers(v.members, KeyOf);
    SortedKeysAscend(v.members);
    var c := CanonMembers(s, v);
    forall i, j | 0 <= i < j < |c|
      ensures Below(KeyOf(c[i]), KeyOf(c[j]))
    {
      assert Below(KeyOf(s[i]), KeyOf(s[j]));
    }
    AscendingKeysDiffer(c);
    RebuildKeeps(c);
    forall m | m in v.members
      ensures CanonMember(m) in c
    {
      assert m in s;
      var j :| 0 <= j < |s| && s[j] == m;
      assert c[j] == CanonMember(m);
    }
    forall e | e in c
      ensures ComesFrom(e, v.members)
    {
      var j :| 0 <= j < |c| && c[j] == e;
      assert s[j] in v.members && e == CanonMember(s[j]);
    }
  }

  // ---- normal forms ----

  /** The same value once the order of members is forgotten (objects are unordered, RFC 8259 section 4). */
  ghost predicate Equivalent(a: Json, b: Json)
    decreases a, 1
  {
    match (a, b)
    case (Array(x), Array(y)) =>
      |x| == |y| && forall i :: 0 <= i < |x| ==> Equivalent(x[i], y[i])
    case (Object(x), Object(y)) =>
      && (forall i :: 0 <= i < |x| ==> HasEquivalent(x[i], y))
      && (forall j :: 0 <= j < |y| ==> IsEquivalentOfSome(y[j], x))
    case _ => a == b
  }

  ghost predicate HasEquivalent(m: Member, others: seq<Member>)
    decreases m, 1
  {
    exists j :: 0 <= j < |others| && EquivalentMembers(m, others[j])
  }

  ghost predicate IsEquivalentOfSome(n: Member, others: seq<Member>)
    decreases others, 1
  {
    exists i :: 0 <= i < |others| && EquivalentMembers(others[i], n)
  }

  ghost predicate EquivalentMembers(m: Member, n: Member)
    decreases m, 0
  {
    m.key == n.key && Equivalent(m.value, n.value)
  }

  /** Canonical forms are equal exactly for values that differ only in member order, at any depth. */
  lemma {:induction false} CanonDecides(a: Json, b: Json)
    requires WellFormed(a) && WellFormed(b)
    ensures Canon(a) == Canon(b) <==> Equivalent(a, b)
    decreases a
  {
    match (a, b)
    case (Array(x), Array(y)) =>
      forall i | 0 <= i < |x| && i < |y|
        ensures Canon(x[i]) == Canon(y[i]) <==> Equivalent(x[i], y[i])
      {
        CanonDecides(x[i], y[i]);
      }
      ItemsAgree(a, b);
    case (Object(x), Object(y)) =>
      forall i, j | 0 <= i < |x| && 0 <= j < |y|
        ensures CanonMember(x[i]) == CanonMember(y[j]) <==> EquivalentMembers(x[i], y[j])
      {
        CanonDecides(x[i].value, y[j].value);
      }
      MembersAgree(a, b);
      MembersEquivalent(a, b);
    case _ =>
  }

  lemma ItemsAgree(a: Json, b: Json)
    requires a.Array? && b.Array?
    ensures Canon(a) == Canon(b) <==>
      |a.items| == |b.items| && forall i :: 0 <= i < |a.items| ==> Canon(a.items[i]) == Canon(b.items[i])
  {
    ItemsAreParts(a);
    ItemsAreParts(b);
    var x, y := CanonItems(a.items, a), CanonItems(b.items, b);
    if Canon(a) == Canon(b) {
      assert x == y;
      assert forall i :: 0 <= i < |x| ==> x[i] == y[i];
    } else if |a.items| == |b.items| {
      assert x != y;
    }
  }

  ghost predicate HasTwin(m: Member, others: seq<Member>) {
    exists i :: 0 <= i < |others| && CanonMember(others[i]) == CanonMember(m)
  }

  ghost predicate SameMembers(x: seq<Member>, y: seq<Member>) {
    && (forall i :: 0 <= i < |x| ==> HasTwin(x[i], y))
    && (forall j :: 0 <= j < |y| ==> HasTwin(y[j], x))
  }

  ghost predicate CanonDecidesMembers(x: seq<Member>, y: seq<Member>) {
    forall i, j :: 0 <= i < |x| && 0 <= j < |y| ==>
      (CanonMember(x[i]) == CanonMember(y[j]) <==> EquivalentMembers(x[i], y[j]))
  }

  lemma ObjectsEquivalent(a: Json, b: Json)
    requires a.Object? && b.Object?
    ensures Equivalent(a, b) <==>
      && (forall i :: 0 <= i < |a.members| ==> HasEquivalent(a.members[i], b.members))
      && (forall j :: 0 <= j < |b.members| ==> IsEquivalentOfSome(b.members[j], a.members))
  {
  }

  lemma TwinRow(x: seq<Member>, y: seq<Member>, i: nat)
    requires CanonDecidesMembers(x, y) && i < |x|
    ensures HasTwin(x[i], y) <==> HasEquivalent(x[i], y)
  {
  }

  lemma TwinColumn(x: seq<Member>, y: seq<Member>, j: nat)
    requires CanonDecidesMembers(x, y) && j < |y|
    ensures HasTwin(y[j], x) <==> IsEquivalentOfSome(y[j], x)
  {
  }

  lemma MembersEquivalent(a: Json, b: Json)
    requires a.Object? && b.Object? && CanonDecidesMembers(a.members, b.members)
    ensures SameMembers(a.members, b.members) <==> Equivalent(a, b)
  {
    var x, y := a.members, b.members;
    ObjectsEquivalent(a, b);
    forall i | 0 <= i < |x|
      ensures HasTwin(x[i], y) <==> HasEquivalent(x[i], y)
    {
      TwinRow(x, y, i);
    }
    forall j | 0 <= j < |y|
      ensures HasTwin(y[j], x) <==> IsEquivalentOfSome(y[j], x)
    {
      TwinColumn(x, y, j);
    }
  }

  lemma MembersAgree(a: Json, b: Json)
    requires a.Object? && b.Object? && WellFormed(a) && WellFormed(b)
    ensures Canon(a) == Canon(b) <==> SameMembers(a.members, b.members)
  {
    CanonicalMembers(a);
    CanonicalMembers(b);
    FormsAgree(Canon(a).members, a.members, Canon(b).members, b.members);
  }

  lemma FormsAgree(c: seq<Member>, x: seq<Member>, d: seq<Member>, y: seq<Member>)
    requires CanonOf(c, x) && CanonOf(d, y)
    ensures c == d <==> SameMembers(x, y)
  {
    if c == d {
      SharedForm(c, x, y);
      SharedForm(c, y, x);
    }
    if SameMembers(x, y) {
      Included(c, x, d, y);
      Included(d, y, c, x);
      AscendingIsUnique(c, d, KeyOf);
    }
  }

  lemma SharedForm(c: seq<Member>, x: seq<Member>, y: seq<Member>)
    requires Covers(c, x) && forall e :: e in c ==> ComesFrom(e, y)
    ensures forall i :: 0 <= i < |x| ==> HasTwin(x[i], y)
  {
    forall i | 0 <= i < |x|
      ensures HasTwin(x[i], y)
    {
      assert x[i] in x;
      assert ComesFrom(CanonMember(x[i]), y);
    }
  }

  lemma Included(c: seq<Member>, x: seq<Member>, d: seq<Member>, y: seq<Member>)
    requires (forall e :: e in c ==> ComesFrom(e, x)) && Covers(d, y)
    requires forall i :: 0 <= i < |x| ==> HasTwin(x[i], y)
    ensures forall e :: e in c ==> e in d
  {
    forall e | e in c
      ensures e in d
    {
      assert ComesFrom(e, x);
      var m :| m in x && e == CanonMember(m);
      var i :| 0 <= i < |x| && x[i] == m;
      assert HasTwin(x[i], y);
    }
  }

  /** A canonical form is its own canonical form, and is a well-formed value. */
  lemma {:induction false} CanonIsIdempotent(v: Json)
    requires WellFormed(v)
    ensures WellFormed(Canon(v)) && Canon(Canon(v)) == Canon(v)
    decreases v
  {
    match v
    case Array(items) =>
      forall i | 0 <= i < |items|
        ensures WellFormed(Canon(items[i])) && Canon(Canon(items[i])) == Canon(items[i])
      {
        CanonIsIdempotent(items[i]);
      }
      ItemsAreParts(Canon(v));
      assert CanonItems(Canon(v).items, Canon(v)) == Canon(v).items;
    case Object(members) =>
      forall i | 0 <= i < |members|
        ensures WellFormed(Canon(members[i].value)) && Canon(Canon(members[i].value)) == Canon(members[i].value)
      {
        CanonIsIdempotent(members[i].value);
      }
      CanonicalMembers(v);
      SettledMembers(Canon(v).members, members);
      SettledObject(Canon(v));
    case _ =>
  }

  lemma SettledMembers(c: seq<Member>, members: seq<Member>)
    requires forall e :: e in c ==> ComesFrom(e, members)
    requires forall i :: 0 <= i < |members| ==>
      WellFormed(Canon(members[i].value)) && Canon(Canon(members[i].value)) == Canon(members[i].value)
    ensures forall i :: 0 <= i < |c| ==> WellFormed(c[i].value) && Canon(c[i].value) == c[i].value
  {
    forall i | 0 <= i < |c|
      ensures WellFormed(c[i].value) && Canon(c[i].value) == c[i].value
    {
      assert ComesFrom(c[i], members);
      var m :| m in members && c[i] == CanonMember(m);
      var j :| 0 <= j < |members| && members[j] == m;
      assert Canon(Canon(members[j].value)) == Canon(members[j].value);
    }
  }

  lemma SettledObject(v: Json)
    requires v.Object? && Ascending(v.members, KeyOf)
    requires forall i :: 0 <= i < |v.members| ==> WellFormed(v.members[i].value) && Canon(v.members[i].value) == v.members[i].value
    ensures WellFormed(v) && Canon(v) == v
  {
    AscendingKeysDiffer(v.members);
    forall i, j | 0 <= i < j < |v.members|
      ensures NotAbove(KeyOf(v.members[i]), KeyOf(v.members[j]))
    {
      BelowIsOneWay(KeyOf(v.members[i]), KeyOf(v.members[j]));
    }
    SortOfOrdered(v.members, KeyOf);
    var c := CanonMembers(SortedMembers(v), v);
    assert c == v.members;
    RebuildKeeps(c);
  }

  /** Nothing is lost: a value and its canonical form differ only in member order. */
  lemma CanonKeepsMeaning(v: Json)
    requires WellFormed(v)
    ensures Equivalent(v, Canon(v))
  {
    CanonIsIdempotent(v);
    CanonDecides(v, Canon(v));
  }

  /** Every permutation of an object's members has the same canonical form. */
  lemma MemberOrderIsForgotten(a: Json, b: Json)
    requires a.Object? && b.Object? && WellFormed(a) && WellFormed(b)
    requires multiset(a.members) == multiset(b.members)
    ensures Canon(a) == Canon(b)
  {
    PermutedAreTwins(a.members, b.members);
    PermutedAreTwins(b.members, a.members);
    MembersAgree(a, b);
  }

  lemma PermutedAreTwins(x: seq<Member>, y: seq<Member>)
    requires multiset(x) == multiset(y)
    ensures forall i :: 0 <= i < |x| ==> HasTwin(x[i], y)
  {
    forall i | 0 <= i < |x|
      ensures HasTwin(x[i], y)
    {
      assert x[i] in multiset(x);
      assert x[i] in y;
    }
  }
}
