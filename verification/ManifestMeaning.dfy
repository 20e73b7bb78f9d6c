/**
  Which texts `parse` accepts, what it makes of them and which error it reports, in terms
  of the lines alone (build_support/snapshot_bundle.rs).
 */
module ManifestMeaning {
  import opened SnapshotManifest
  import opened Text
  import opened Wrappers

  // ---- one line ----

  /** Without the white space around it the line is `key=value`, cut at the first `=`. */
  predicate Assigns(line: string, key: string, value: string) {
    Trim(line) == key + "=" + value && '=' !in key
  }

  predicate IsKey(key: string) {
    key in {"format", "libdeno", "target", "v8", "typescript", "deno-core", "deno-runtime",
            "snapshot-bytes", "snapshot-hash", "table-bytes", "table-hash"}
  }

  /** Name, byte count and hash, with tabs between them. */
  predicate Spelled(value: string, r: Residual, count: string) {
    && value == r.name + "\t" + count + "\t" + r.hash
    && '\t' !in r.name && '\t' !in count && '\t' !in r.hash
    && r.name != "" && ParseUsize(count) == Some(r.bytes)
  }

  ghost predicate Spells(value: string, r: Residual) {
    exists count :: Spelled(value, r, count)
  }

  lemma ThreePartsJoin(value: string)
    requires |Split(value, '\t')| == 3
    ensures var parts := Split(value, '\t');
            && value == parts[0] + "\t" + parts[1] + "\t" + parts[2]
            && '\t' !in parts[0] && '\t' !in parts[1] && '\t' !in parts[2]
  {
    var parts := Split(value, '\t');
    JoinOfSplit(value, '\t');
    assert parts[1..] == [parts[1], parts[2]] && parts[1..][1..] == [parts[2]];
    assert Join(parts[1..], '\t') == parts[1] + ['\t'] + parts[2];
    Regroup(parts[0] + ['\t'], parts[1] + ['\t'], parts[2]);
    Regroup(parts[0] + ['\t'], parts[1], ['\t']);
    assert parts[0] in parts && parts[1] in parts && parts[2] in parts;
  }

  lemma ResidualMeans(value: string, r: Residual)
    ensures ParseResidual(value) == Some(r) <==> Spells(value, r)
  {
    if ParseResidual(value) == Some(r) {
      ThreePartsJoin(value);
      assert Spelled(value, r, Split(value, '\t')[1]);
    }
    if Spells(value, r) {
      var count :| Spelled(value, r, count);
      ThreeParts(r.name, count, r.hash);
    }
  }

  lemma CutAtFirst(line: string, key: string, value: string)
    requires Assigns(line, key, value)
    ensures Cut(line) == ItemOf(key, value)
  {
    assert Trim(line) == key + ['='] + value;
    FindFirst(key, '=', value);
    var t := Trim(line);
    assert t[..|key|] == key && t[|key| + 1..] == value;
  }

  /** The keys as the format spells them. */
  lemma KeysAreSpelled()
    ensures KeyName(Format) == "format" && KeyName(Libdeno) == "libdeno" && KeyName(Target) == "target"
    ensures KeyName(V8) == "v8" && KeyName(Typescript) == "typescript"
    ensures KeyName(DenoCore) == "deno-core" && KeyName(DenoRuntime) == "deno-runtime"
    ensures KeyName(SnapshotBytes) == "snapshot-bytes" && KeyName(SnapshotHash) == "snapshot-hash"
    ensures KeyName(TableBytes) == "table-bytes" && KeyName(TableHash) == "table-hash"
  {
  }

  lemma KeyIsKnown(key: string)
    ensures IsKey(key) <==> exists k :: KeyName(k) == key
    ensures KeyOf(key).Some? <==> IsKey(key)
    ensures KeyOf(key).Some? ==> KeyName(KeyOf(key).value) == key
  {
    if k :| KeyName(k) == key {
      EveryKeyIsListed(k);
      NameIsFound(k, KEYS);
    }
    KeyAmongNames(key, KEYS);
    KeysAreSpelled();
  }

  lemma {:induction false} KeyAmongNames(key: string, keys: seq<Key>)
    ensures KeyAmong(key, keys).Some? ==> KeyName(KeyAmong(key, keys).value) == key
  {
    if keys != [] && KeyName(keys[0]) != key {
      KeyAmongNames(key, keys[1..]);
    }
  }

  lemma CutFinds(line: string) returns (key: string, value: string)
    requires '=' in Trim(line)
    ensures Assigns(line, key, value) && Cut(line) == ItemOf(key, value)
  {
    var t := Trim(line);
    var i := Find(t, '=');
    key, value := t[..i], t[i + 1..];
    CutAt(t, i);
    CutAtFirst(line, key, value);
  }

  /** A line is cut in one way only. */
  lemma AssignsOnce(line: string, key: string, value: string, other: string, more: string)
    requires Assigns(line, key, value) && Assigns(line, other, more)
    ensures key == other && value == more
  {
    assert Trim(line) == key + ['='] + value && Trim(line) == other + ['='] + more;
    FindFirst(key, '=', value);
    FindFirst(other, '=', more);
    assert Trim(line)[..|key|] == key && Trim(line)[..|other|] == other;
    assert Trim(line)[|key| + 1..] == value && Trim(line)[|key| + 1..] == more;
  }

  lemma NoAssignment(line: string, key: string, value: string)
    requires '=' !in Trim(line)
    ensures !Assigns(line, key, value)
  {
    assert (key + "=" + value)[|key|] == '=';
  }

  /** A field is set exactly by a line that spells its name before the first `=`. */
  lemma SettingLine(line: string, k: Key, v: string)
    ensures Cut(line) == Field(k, v) <==> Assigns(line, KeyName(k), v)
  {
    if '=' in Trim(line) {
      var key, value := CutFinds(line);
      KeyIsKnown(key);
      if Assigns(line, KeyName(k), v) {
        CutAtFirst(line, KeyName(k), v);
        KeyNames(k);
      }
    } else {
      NoAssignment(line, KeyName(k), v);
      FindNone(Trim(line), '=');
    }
  }

  lemma ListingLine(line: string, v: string)
    ensures Cut(line) == Item.Entry(v) <==> Assigns(line, "residual", v)
  {
    if '=' in Trim(line) {
      var key, value := CutFinds(line);
      if Assigns(line, "residual", v) {
        CutAtFirst(line, "residual", v);
      }
    } else {
      NoAssignment(line, "residual", v);
      FindNone(Trim(line), '=');
    }
  }

  lemma StrangeLine(line: string, key: string)
    ensures Cut(line) == Stranger(key) <==>
      key != "residual" && !IsKey(key) && exists value :: Assigns(line, key, value)
  {
    if '=' in Trim(line) {
      var k, value := CutFinds(line);
      KeyIsKnown(k);
      if v :| Assigns(line, key, v) {
        AssignsOnce(line, k, value, key, v);
      }
    } else {
      FindNone(Trim(line), '=');
      if v :| Assigns(line, key, v) {
        NoAssignment(line, key, v);
      }
    }
  }

  lemma LineWithoutKey(line: string)
    requires '=' !in Trim(line)
    ensures Cut(line) == if Trim(line) == "" then Blank else NoKey(Trim(line))
  {
    FindNone(Trim(line), '=');
  }

  // ---- what the items of a text amount to ----

  predicate FineItem(item: Item) {
    item.Blank? || item.Field? || (item.Entry? && ParseResidual(item.value).Some?)
  }

  predicate FineItems(items: seq<Item>) {
    forall i :: 0 <= i < |items| ==> FineItem(items[i])
  }

  predicate NoField(items: seq<Item>, k: Key) {
    forall i :: 0 <= i < |items| ==> !(items[i].Field? && items[i].k == k)
  }

  predicate LastField(items: seq<Item>, k: Key, v: string) {
    exists i :: 0 <= i < |items| && LastFieldAt(items, k, v, i)
  }

  predicate LastFieldAt(items: seq<Item>, k: Key, v: string, i: nat)
    requires i < |items|
  {
    items[i] == Field(k, v) && NoField(items[i + 1..], k)
  }

  /** The residuals of the entries, in order. */
  function Listed(items: seq<Item>): seq<Residual> {
    if items == [] then []
    else if items[0].Entry? && ParseResidual(items[0].value).Some?
    then [ParseResidual(items[0].value).value] + Listed(items[1..])
    else Listed(items[1..])
  }

  lemma {:induction false} EffectsMean(items: seq<Item>, number: nat, seen: Seen)
    ensures Effects(items, number, seen).Success? <==> FineItems(items)
    ensures Effects(items, number, seen).Success? ==>
              Effects(items, number, seen).value.residuals == seen.residuals + Listed(items)
    decreases |items|
  {
    if items != [] {
      assert FineItems(items) <==> FineItem(items[0]) && FineItems(items[1..]) by {
        assert forall i :: 1 <= i < |items| ==> items[i] == items[1..][i - 1];
      }
      var head := Effect(items[0], number, seen);
      if head.Success? {
        EffectsMean(items[1..], number + 1, head.value);
      }
    }
  }

  lemma FieldCons(items: seq<Item>, k: Key, v: string)
    requires items != []
    ensures NoField(items, k) <==> !(items[0].Field? && items[0].k == k) && NoField(items[1..], k)
    ensures LastField(items[1..], k, v) ==> LastField(items, k, v)
    ensures items[0] == Field(k, v) && NoField(items[1..], k) ==> LastField(items, k, v)
  {
    assert forall i :: 1 <= i < |items| ==> items[i] == items[1..][i - 1];
    if LastField(items[1..], k, v) {
      var i :| 0 <= i < |items[1..]| && LastFieldAt(items[1..], k, v, i);
      assert items[1..][i + 1..] == items[i + 2..];
      assert LastFieldAt(items, k, v, i + 1);
    }
    if items[0] == Field(k, v) && NoField(items[1..], k) {
      assert LastFieldAt(items, k, v, 0);
    }
  }

  /** A field of what has been read is what was last said of it. */
  lemma {:induction false} FieldAfter(items: seq<Item>, number: nat, seen: Seen, k: Key)
    requires Effects(items, number, seen).Success?
    ensures var fields := Effects(items, number, seen).value.fields;
            if NoField(items, k) then (k in fields <==> k in seen.fields) && (k in fields ==> fields[k] == seen.fields[k])
            else k in fields && LastField(items, k, fields[k])
    decreases |items|
  {
    if items != [] {
      FieldAfter(items[1..], number + 1, Effect(items[0], number, seen).value, k);
      var fields := Effects(items, number, seen).value.fields;
      FieldCons(items, k, if k in fields then fields[k] else "");
    }
  }

  lemma LastFieldOnce(items: seq<Item>, k: Key, v: string, w: string)
    requires LastField(items, k, v) && LastField(items, k, w)
    ensures v == w && !NoField(items, k)
  {
    var i :| 0 <= i < |items| && LastFieldAt(items, k, v, i);
    var j :| 0 <= j < |items| && LastFieldAt(items, k, w, j);
    assert forall n :: i < n < |items| ==> items[n] == items[i + 1..][n - i - 1];
    assert forall n :: j < n < |items| ==> items[n] == items[j + 1..][n - j - 1];
  }

  /** The first item that is not fine is the one reported. */
  lemma {:induction false} FirstBadItem(items: seq<Item>, number: nat, seen: Seen) returns (i: nat)
    requires Effects(items, number, seen).Failure?
    ensures i < |items| && FineItems(items[..i]) && !FineItem(items[i])
    ensures Effect(items[i], number + i, seen) == Failure(Effects(items, number, seen).error)
    decreases |items|
  {
    var head := Effect(items[0], number, seen);
    if head.Success? {
      var n := FirstBadItem(items[1..], number + 1, head.value);
      i := n + 1;
      assert items[..i] == [items[0]] + items[1..][..n];
    } else {
      i := 0;
    }
  }

  // ---- what the lines of a text amount to ----

  ghost predicate Mentions(line: string, key: string) {
    exists v :: Assigns(line, key, v)
  }

  ghost predicate Lists(line: string, r: Residual) {
    exists value :: Assigns(line, "residual", value) && Spells(value, r)
  }

  ghost predicate SetsSome(line: string) {
    exists k :: Mentions(line, KeyName(k))
  }

  ghost predicate ListsSome(line: string) {
    exists r :: Lists(line, r)
  }

  /** Blank, a field of the format, or a well-formed residual. */
  ghost predicate Fine(line: string) {
    Trim(line) == "" || SetsSome(line) || ListsSome(line)
  }

  lemma SettingItem(line: string, k: Key)
    ensures Mentions(line, KeyName(k)) <==> Cut(line).Field? && Cut(line).k == k
  {
    if v :| Assigns(line, KeyName(k), v) {
      SettingLine(line, k, v);
    }
    if Cut(line).Field? && Cut(line).k == k {
      SettingLine(line, k, Cut(line).value);
      assert Assigns(line, KeyName(k), Cut(line).value);
    }
  }

  lemma ListingItem(line: string, r: Residual)
    ensures Lists(line, r) <==> Cut(line).Entry? && ParseResidual(Cut(line).value) == Some(r)
  {
    if Lists(line, r) {
      var value :| Assigns(line, "residual", value) && Spells(value, r);
      ListingLine(line, value);
      ResidualMeans(value, r);
    }
    if Cut(line).Entry? && ParseResidual(Cut(line).value) == Some(r) {
      ListingLine(line, Cut(line).value);
      ResidualMeans(Cut(line).value, r);
    }
  }

  lemma KeyedLine(line: string)
    requires '=' in Trim(line)
    ensures !Cut(line).Blank? && !Cut(line).NoKey?
  {
    var key, value := CutFinds(line);
    assert !ItemOf(key, value).NoKey? && !ItemOf(key, value).Blank?;
  }

  lemma BlankItem(line: string)
    ensures Cut(line).Blank? <==> Trim(line) == ""
  {
    if '=' in Trim(line) {
      KeyedLine(line);
    } else {
      LineWithoutKey(line);
    }
  }

  lemma HeadLists(line: string)
    ensures ListsSome(line) <==> Cut(line).Entry? && ParseResidual(Cut(line).value).Some?
    ensures forall r :: Lists(line, r) <==> Cut(line).Entry? && ParseResidual(Cut(line).value) == Some(r)
  {
    forall r
      ensures Lists(line, r) <==> Cut(line).Entry? && ParseResidual(Cut(line).value) == Some(r)
    {
      ListingItem(line, r);
    }
    if Cut(line).Entry? && ParseResidual(Cut(line).value).Some? {
      assert Lists(line, ParseResidual(Cut(line).value).value);
    }
  }

  lemma HeadSets(line: string)
    ensures SetsSome(line) <==> Cut(line).Field?
  {
    if k :| Mentions(line, KeyName(k)) {
      SettingItem(line, k);
    }
    if Cut(line).Field? {
      SettingItem(line, Cut(line).k);
    }
  }

  lemma FineLine(line: string)
    ensures Fine(line) <==> FineItem(Cut(line))
  {
    BlankItem(line);
    HeadSets(line);
    HeadLists(line);
  }

  ghost predicate LineError(line: string, number: nat, e: Error) {
    match e
    case NotKeyValue(n, text) => n == number && text == Trim(line) != "" && '=' !in text
    case UnknownKey(key) => key != "residual" && !IsKey(key) && exists value :: Assigns(line, key, value)
    case InvalidResidual => exists value :: Assigns(line, "residual", value) && forall r :: !Spells(value, r)
    case _ => false
  }

  lemma BadLine(line: string, number: nat, seen: Seen)
    requires !FineItem(Cut(line))
    ensures Effect(Cut(line), number, seen).Failure? && LineError(line, number, Effect(Cut(line), number, seen).error)
  {
    match Cut(line)
    case NoKey(_) => NoKeyLine(line);
    case Stranger(key) => StrangeLine(line, key);
    case Entry(value) => BadResidual(line, value);
  }

  lemma NoKeyLine(line: string)
    requires Cut(line).NoKey?
    ensures Cut(line).line == Trim(line) != "" && '=' !in Trim(line)
  {
    if '=' in Trim(line) {
      KeyedLine(line);
    } else {
      LineWithoutKey(line);
    }
  }

  lemma BadResidual(line: string, value: string)
    requires Cut(line) == Item.Entry(value) && ParseResidual(value).None?
    ensures Assigns(line, "residual", value) && forall r :: !Spells(value, r)
  {
    ListingLine(line, value);
    forall r
      ensures !Spells(value, r)
    {
      ResidualMeans(value, r);
    }
  }

  ghost predicate AllFine(lines: seq<string>) {
    forall i :: 0 <= i < |lines| ==> Fine(lines[i])
  }

  ghost predicate NeverSets(lines: seq<string>, key: string) {
    forall i :: 0 <= i < |lines| ==> !Mentions(lines[i], key)
  }

  /** The last line with that key gives it the value `v`. */
  ghost predicate LastSets(lines: seq<string>, key: string, v: string) {
    exists i :: 0 <= i < |lines| && LastSetsAt(lines, key, v, i)
  }

  ghost predicate LastSetsAt(lines: seq<string>, key: string, v: string, i: nat)
    requires i < |lines|
  {
    Assigns(lines[i], key, v) && NeverSets(lines[i + 1..], key)
  }

  ghost predicate LastCounts(lines: seq<string>, key: string, n: usize) {
    exists count :: LastSets(lines, key, count) && ParseUsize(count) == Some(n)
  }

  /** `rs` are the residuals the lines list, in order. */
  ghost predicate ListedIn(lines: seq<string>, rs: seq<Residual>) {
    if lines == [] then rs == []
    else if ListsSome(lines[0]) then rs != [] && Lists(lines[0], rs[0]) && ListedIn(lines[1..], rs[1..])
    else ListedIn(lines[1..], rs)
  }

  predicate CutInto(lines: seq<string>, items: seq<Item>) {
    |items| == |lines| && forall i :: 0 <= i < |lines| ==> items[i] == Cut(lines[i])
  }

  lemma FineTogether(lines: seq<string>, items: seq<Item>)
    requires CutInto(lines, items)
    ensures AllFine(lines) <==> FineItems(items)
  {
    forall i | 0 <= i < |lines|
      ensures Fine(lines[i]) <==> FineItem(items[i])
    {
      FineLine(lines[i]);
    }
  }

  lemma NeverTogether(lines: seq<string>, items: seq<Item>, k: Key)
    requires CutInto(lines, items)
    ensures NeverSets(lines, KeyName(k)) <==> NoField(items, k)
  {
    forall i | 0 <= i < |lines|
      ensures Mentions(lines[i], KeyName(k)) <==> items[i].Field? && items[i].k == k
    {
      SettingItem(lines[i], k);
    }
  }

  lemma LastAtTogether(lines: seq<string>, items: seq<Item>, k: Key, v: string, i: nat)
    requires CutInto(lines, items) && i < |lines|
    ensures LastSetsAt(lines, KeyName(k), v, i) <==> LastFieldAt(items, k, v, i)
  {
    SettingLine(lines[i], k, v);
    TailTogether(lines, items, k, i + 1);
  }

  lemma TailTogether(lines: seq<string>, items: seq<Item>, k: Key, i: nat)
    requires CutInto(lines, items) && i <= |lines|
    ensures NeverSets(lines[i..], KeyName(k)) <==> NoField(items[i..], k)
  {
    NeverTogether(lines[i..], items[i..], k);
  }

  lemma LastTogether(lines: seq<string>, items: seq<Item>, k: Key, v: string)
    requires CutInto(lines, items)
    ensures LastSets(lines, KeyName(k), v) <==> LastField(items, k, v)
  {
    forall i | 0 <= i < |lines|
      ensures LastSetsAt(lines, KeyName(k), v, i) <==> LastFieldAt(items, k, v, i)
    {
      LastAtTogether(lines, items, k, v, i);
    }
  }

  lemma {:induction false} ListedTogether(lines: seq<string>, rs: seq<Residual>)
    ensures ListedIn(lines, rs) <==> rs == Listed(Cuts(lines))
    decreases |lines|
  {
    if lines != [] {
      assert Cuts(lines)[1..] == Cuts(lines[1..]);
      HeadLists(lines[0]);
      if !ListsSome(lines[0]) {
        ListedTogether(lines[1..], rs);
      } else if rs != [] {
        ListedTogether(lines[1..], rs[1..]);
        FirstAndRest(rs, ParseResidual(Cut(lines[0]).value).value, Listed(Cuts(lines[1..])));
      }
    }
  }

  lemma FirstAndRest(rs: seq<Residual>, r: Residual, rest: seq<Residual>)
    requires rs != []
    ensures rs == [r] + rest <==> rs[0] == r && rs[1..] == rest
  {
    assert rs == [rs[0]] + rs[1..];
    assert ([r] + rest)[1..] == rest;
  }

  // ---- the whole text ----

  predicate Says(fields: map<Key, string>, k: Key, v: string) {
    k in fields && fields[k] == v
  }

  predicate Counts(fields: map<Key, string>, k: Key, n: usize) {
    k in fields && ParseUsize(fields[k]) == Some(n)
  }

  predicate HoldsIdentity(fields: map<Key, string>, identity: Identity) {
    && Says(fields, Libdeno, identity.libdeno) && Says(fields, Target, identity.target)
    && Says(fields, V8, identity.v8) && Says(fields, Typescript, identity.typescript)
    && Says(fields, DenoCore, identity.denoCore) && Says(fields, DenoRuntime, identity.denoRuntime)
  }

  predicate Holds(fields: map<Key, string>, m: Manifest) {
    && Says(fields, Format, FORMAT) && HoldsIdentity(fields, m.identity)
    && Counts(fields, SnapshotBytes, m.snapshotBytes) && Says(fields, SnapshotHash, m.snapshotHash)
    && Counts(fields, TableBytes, m.tableBytes) && Says(fields, TableHash, m.tableHash)
  }

  lemma OrderHolds()
    ensures forall k :: k in ORDER <==> k != Format
  {
    assert ORDER[0] == Libdeno && ORDER[1] == Target && ORDER[2] == V8 && ORDER[3] == Typescript;
    assert ORDER[4] == DenoCore && ORDER[5] == DenoRuntime && ORDER[6] == SnapshotBytes;
    assert ORDER[7] == SnapshotHash && ORDER[8] == TableBytes && ORDER[9] == TableHash;
  }

  lemma AssembleMeans(seen: Seen, m: Manifest)
    ensures Assemble(seen) == Success(m) <==> Holds(seen.fields, m) && m.residuals == seen.residuals
  {
    OrderHolds();
    if Holds(seen.fields, m) {
      AllGood(seen.fields, ORDER);
    }
    if Assemble(seen).Success? {
      NoneBad(seen.fields, ORDER);
    }
  }

  ghost predicate DescribesIdentity(lines: seq<string>, identity: Identity) {
    && LastSets(lines, KeyName(Libdeno), identity.libdeno) && LastSets(lines, KeyName(Target), identity.target)
    && LastSets(lines, KeyName(V8), identity.v8) && LastSets(lines, KeyName(Typescript), identity.typescript)
    && LastSets(lines, KeyName(DenoCore), identity.denoCore) && LastSets(lines, KeyName(DenoRuntime), identity.denoRuntime)
  }

  /** The lines say everything the manifest holds, and list its residuals. */
  ghost predicate Describes(lines: seq<string>, m: Manifest) {
    && LastSets(lines, KeyName(Format), "libdeno-snapshot-2") && DescribesIdentity(lines, m.identity)
    && LastCounts(lines, KeyName(SnapshotBytes), m.snapshotBytes) && LastSets(lines, KeyName(SnapshotHash), m.snapshotHash)
    && LastCounts(lines, KeyName(TableBytes), m.tableBytes) && LastSets(lines, KeyName(TableHash), m.tableHash)
    && ListedIn(lines, m.residuals)
  }

  lemma FieldSaid(lines: seq<string>, items: seq<Item>, seen: Seen, k: Key, v: string)
    requires CutInto(lines, items) && Effects(items, 1, Seen(map[], [])) == Success(seen)
    ensures Says(seen.fields, k, v) <==> LastSets(lines, KeyName(k), v)
  {
    FieldAfter(items, 1, Seen(map[], []), k);
    LastTogether(lines, items, k, v);
    if LastField(items, k, v) {
      LastFieldOnce(items, k, v, v);
      LastFieldOnce(items, k, v, seen.fields[k]);
    }
  }

  lemma FieldCounted(lines: seq<string>, items: seq<Item>, seen: Seen, k: Key, n: usize)
    requires CutInto(lines, items) && Effects(items, 1, Seen(map[], [])) == Success(seen)
    ensures Counts(seen.fields, k, n) <==> LastCounts(lines, KeyName(k), n)
  {
    if k in seen.fields {
      FieldSaid(lines, items, seen, k, seen.fields[k]);
    }
    if LastCounts(lines, KeyName(k), n) {
      var count :| LastSets(lines, KeyName(k), count) && ParseUsize(count) == Some(n);
      FieldSaid(lines, items, seen, k, count);
    }
  }

  lemma IdentityHeld(lines: seq<string>, items: seq<Item>, seen: Seen, identity: Identity)
    requires CutInto(lines, items) && Effects(items, 1, Seen(map[], [])) == Success(seen)
    ensures HoldsIdentity(seen.fields, identity) <==> DescribesIdentity(lines, identity)
  {
    FieldSaid(lines, items, seen, Libdeno, identity.libdeno);
    FieldSaid(lines, items, seen, Target, identity.target);
    FieldSaid(lines, items, seen, V8, identity.v8);
    FieldSaid(lines, items, seen, Typescript, identity.typescript);
    FieldSaid(lines, items, seen, DenoCore, identity.denoCore);
    FieldSaid(lines, items, seen, DenoRuntime, identity.denoRuntime);
  }

  lemma ResidualsHeld(items: seq<Item>, seen: Seen, lines: seq<string>, rs: seq<Residual>)
    requires items == Cuts(lines) && Effects(items, 1, Seen(map[], [])) == Success(seen)
    ensures seen.residuals == rs <==> ListedIn(lines, rs)
  {
    EffectsMean(items, 1, Seen(map[], []));
    ListedTogether(lines, rs);
    assert [] + Listed(items) == Listed(items);
  }

  lemma HeldIsDescribed(lines: seq<string>, items: seq<Item>, seen: Seen, m: Manifest)
    requires CutInto(lines, items) && items == Cuts(lines) && Effects(items, 1, Seen(map[], [])) == Success(seen)
    ensures Holds(seen.fields, m) && m.residuals == seen.residuals <==> Describes(lines, m)
  {
    FieldSaid(lines, items, seen, Format, FORMAT);
    IdentityHeld(lines, items, seen, m.identity);
    FieldCounted(lines, items, seen, SnapshotBytes, m.snapshotBytes);
    FieldSaid(lines, items, seen, SnapshotHash, m.snapshotHash);
    FieldCounted(lines, items, seen, TableBytes, m.tableBytes);
    FieldSaid(lines, items, seen, TableHash, m.tableHash);
    ResidualsHeld(items, seen, lines, m.residuals);
  }

  /**
    `parse` gives `m` exactly for the texts whose every line is blank, a known field or a
    well-formed residual, whose last words on each field are those of `m`, none missing, and
    which list the residuals of `m` in order.
   */
  lemma AcceptedExactly(text: string, m: Manifest)
    ensures Parse(text) == Success(m) <==> AllFine(Lines(text)) && Describes(Lines(text), m)
  {
    var lines := Lines(text);
    var items := Cuts(lines);
    FineTogether(lines, items);
    EffectsMean(items, 1, Seen(map[], []));
    if SeenIn(text).Success? {
      AssembleMeans(SeenIn(text).value, m);
      HeldIsDescribed(lines, items, SeenIn(text).value, m);
    }
  }

  /** A field that is not as it must be, after everything before it in the order of the lookups. */
  ghost predicate FieldError(lines: seq<string>, e: Error) {
    match e
    case WrongFormat(found) => LastSets(lines, KeyName(Format), found) && found != FORMAT
    case Missing(k) => NeverSets(lines, KeyName(k)) && (k != Format ==> LastSets(lines, KeyName(Format), FORMAT) && EarlierFine(lines, k))
    case NotByteCount(k) =>
      && k in {SnapshotBytes, TableBytes} && LastSets(lines, KeyName(Format), FORMAT) && EarlierFine(lines, k)
      && exists count :: LastSets(lines, KeyName(k), count) && ParseUsize(count) == None
    case _ => false
  }

  ghost predicate EarlierFine(lines: seq<string>, k: Key) {
    exists n :: 0 <= n < |ORDER| && ORDER[n] == k && forall i :: 0 <= i < n ==> GoodField(lines, ORDER[i])
  }

  ghost predicate GoodField(lines: seq<string>, k: Key) {
    exists v :: LastSets(lines, KeyName(k), v) && (k in {SnapshotBytes, TableBytes} ==> ParseUsize(v).Some?)
  }

  predicate Good(fields: map<Key, string>, k: Key) {
    k in fields && (k.SnapshotBytes? || k.TableBytes? ==> ParseUsize(fields[k]).Some?)
  }

  lemma {:induction false} FirstBadMeans(fields: map<Key, string>, order: seq<Key>) returns (n: nat)
    requires FirstBad(fields, order).Some?
    ensures n < |order| && !Good(fields, order[n]) && forall i :: 0 <= i < n ==> Good(fields, order[i])
    ensures FirstBad(fields, order) == Some(if order[n] !in fields then Missing(order[n]) else NotByteCount(order[n]))
    decreases |order|
  {
    if Good(fields, order[0]) {
      var rest := FirstBadMeans(fields, order[1..]);
      n := rest + 1;
    } else {
      n := 0;
    }
  }

  ghost predicate SaidOf(lines: seq<string>, fields: map<Key, string>, k: Key) {
    if k in fields then LastSets(lines, KeyName(k), fields[k]) else NeverSets(lines, KeyName(k))
  }

  lemma FieldKnown(lines: seq<string>, items: seq<Item>, seen: Seen, k: Key)
    requires CutInto(lines, items) && Effects(items, 1, Seen(map[], [])) == Success(seen)
    ensures SaidOf(lines, seen.fields, k)
  {
    FieldAfter(items, 1, Seen(map[], []), k);
    if k in seen.fields {
      LastTogether(lines, items, k, seen.fields[k]);
    } else {
      NeverTogether(lines, items, k);
    }
  }

  lemma GoodIsGood(lines: seq<string>, fields: map<Key, string>, k: Key)
    requires SaidOf(lines, fields, k) && Good(fields, k)
    ensures GoodField(lines, k)
  {
    assert LastSets(lines, KeyName(k), fields[k]);
  }

  lemma FormatErrorIsReported(lines: seq<string>, seen: Seen)
    requires SaidOf(lines, seen.fields, Format) && !Says(seen.fields, Format, FORMAT)
    ensures Assemble(seen).Failure? && FieldError(lines, Assemble(seen).error)
  {
  }

  lemma OtherErrorIsReported(lines: seq<string>, seen: Seen, n: nat)
    requires Says(seen.fields, Format, FORMAT) && LastSets(lines, KeyName(Format), FORMAT)
    requires n < |ORDER| && !Good(seen.fields, ORDER[n]) && SaidOf(lines, seen.fields, ORDER[n]) && EarlierFine(lines, ORDER[n])
    requires Assemble(seen) == Failure(if ORDER[n] !in seen.fields then Missing(ORDER[n]) else NotByteCount(ORDER[n]))
    ensures FieldError(lines, Assemble(seen).error)
  {
    OrderHolds();
    assert ORDER[n] in ORDER;
  }

  lemma FieldErrorIsReported(lines: seq<string>, seen: Seen)
    requires Assemble(seen).Failure? && forall k :: SaidOf(lines, seen.fields, k)
    ensures FieldError(lines, Assemble(seen).error)
  {
    if !Says(seen.fields, Format, FORMAT) {
      FormatErrorIsReported(lines, seen);
    } else {
      var n := FirstBadMeans(seen.fields, ORDER);
      forall i | 0 <= i < n
        ensures GoodField(lines, ORDER[i])
      {
        GoodIsGood(lines, seen.fields, ORDER[i]);
      }
      assert EarlierFine(lines, ORDER[n]);
      assert SaidOf(lines, seen.fields, Format);
      OtherErrorIsReported(lines, seen, n);
    }
  }

  lemma LineErrorIsReported(lines: seq<string>, items: seq<Item>) returns (i: nat)
    requires CutInto(lines, items) && Effects(items, 1, Seen(map[], [])).Failure?
    ensures i < |lines| && AllFine(lines[..i]) && !AllFine(lines)
    ensures LineError(lines[i], i + 1, Effects(items, 1, Seen(map[], [])).error)
  {
    i := FirstBadItem(items, 1, Seen(map[], []));
    FineTogether(lines[..i], items[..i]);
    FineLine(lines[i]);
    BadLine(lines[i], i + 1, Seen(map[], []));
  }

  lemma ReadThrough(lines: seq<string>, items: seq<Item>, seen: Seen)
    requires CutInto(lines, items) && Effects(items, 1, Seen(map[], [])) == Success(seen)
    ensures AllFine(lines) && forall k :: SaidOf(lines, seen.fields, k)
  {
    EffectsMean(items, 1, Seen(map[], []));
    FineTogether(lines, items);
    forall k
      ensures SaidOf(lines, seen.fields, k)
    {
      FieldKnown(lines, items, seen, k);
    }
  }

  /** A refused text is refused for its first line that is not fine, or else for the first field that is not. */
  lemma RefusedForFirstProblem(text: string) returns (i: nat)
    requires Parse(text).Failure?
    ensures var lines, e := Lines(text), Parse(text).error;
            if AllFine(lines) then FieldError(lines, e)
            else i < |lines| && AllFine(lines[..i]) && LineError(lines[i], i + 1, e)
  {
    var lines := Lines(text);
    i := 0;
    if SeenIn(text).Success? {
      ReadThrough(lines, Cuts(lines), SeenIn(text).value);
      FieldErrorIsReported(lines, SeenIn(text).value);
    } else {
      i := LineErrorIsReported(lines, Cuts(lines));
    }
  }
}
