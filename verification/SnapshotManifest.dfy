/**
  The snapshot bundle's manifest text: `render` and `parse` of
  build_support/snapshot_bundle.rs.
 */
module SnapshotManifest {
  import opened Sequences
  import opened Text
  import opened Wrappers

  const FORMAT: string := "libdeno-snapshot-2"

  datatype Identity = Identity(
    libdeno: string, target: string, v8: string,
    typescript: string, denoCore: string, denoRuntime: string)

  datatype Residual = Residual(name: string, bytes: usize, hash: string)

  datatype Manifest = Manifest(
    identity: Identity,
    snapshotBytes: usize, snapshotHash: string,
    tableBytes: usize, tableHash: string,
    residuals: seq<Residual>)

  datatype Key =
    | Format | Libdeno | Target | V8 | Typescript | DenoCore | DenoRuntime
    | SnapshotBytes | SnapshotHash | TableBytes | TableHash

  datatype Error =
    | NotKeyValue(number: nat, line: string)
    | InvalidResidual
    | UnknownKey(key: string)
    | Missing(field: Key)
    | WrongFormat(found: string)
    | NotByteCount(field: Key)

  function KeyName(k: Key): string {
    match k
    case Format => "format"
    case Libdeno => "libdeno"
    case Target => "target"
    case V8 => "v8"
    case Typescript => "typescript"
    case DenoCore => "deno-core"
    case DenoRuntime => "deno-runtime"
    case SnapshotBytes => "snapshot-bytes"
    case SnapshotHash => "snapshot-hash"
    case TableBytes => "table-bytes"
    case TableHash => "table-hash"
  }

  const KEYS: seq<Key> := [
    Format, Libdeno, Target, V8, Typescript, DenoCore, DenoRuntime,
    SnapshotBytes, SnapshotHash, TableBytes, TableHash]

  /** The one of `keys` that is spelled `name`. */
  function KeyAmong(name: string, keys: seq<Key>): Option<Key> {
    if keys == [] then None
    else if KeyName(keys[0]) == name then Some(keys[0])
    else KeyAmong(name, keys[1..])
  }

  function KeyOf(name: string): Option<Key> {
    KeyAmong(name, KEYS)
  }

  // ---- printing ----

  function Pairs(m: Manifest): seq<(Key, string)> {
    [ (Format, FORMAT),
      (Libdeno, m.identity.libdeno),
      (Target, m.identity.target),
      (V8, m.identity.v8),
      (Typescript, m.identity.typescript),
      (DenoCore, m.identity.denoCore),
      (DenoRuntime, m.identity.denoRuntime),
      (SnapshotBytes, Decimal(m.snapshotBytes)),
      (SnapshotHash, m.snapshotHash),
      (TableBytes, Decimal(m.tableBytes)),
      (TableHash, m.tableHash) ]
  }

  function FieldLine(k: Key, v: string): string {
    KeyName(k) + "=" + v
  }

  function Entry(r: Residual): string {
    r.name + "\t" + Decimal(r.bytes) + "\t" + r.hash
  }

  function EntryLine(value: string): string {
    "residual" + "=" + value
  }

  function FieldLines(pairs: seq<(Key, string)>): (lines: seq<string>)
    ensures |lines| == |pairs|
    ensures forall i :: 0 <= i < |pairs| ==> lines[i] == FieldLine(pairs[i].0, pairs[i].1)
  {
    if pairs == [] then [] else [FieldLine(pairs[0].0, pairs[0].1)] + FieldLines(pairs[1..])
  }

  function Entries(residuals: seq<Residual>): seq<string> {
    Map(Entry, residuals)
  }

  function EntryLines(entries: seq<string>): seq<string> {
    Map(EntryLine, entries)
  }

  function Render(m: Manifest): string {
    Unlines(FieldLines(Pairs(m)) + EntryLines(Entries(m.residuals)))
  }

  // ---- parsing ----

  datatype Seen = Seen(fields: map<Key, string>, residuals: seq<Residual>)

  function ParseResidual(value: string): Option<Residual> {
    var parts := Split(value, '\t');
    if |parts| != 3 || parts[0] == [] then None
    else
      match ParseUsize(parts[1])
      case None => None
      case Some(bytes) => Some(Residual(parts[0], bytes, parts[2]))
  }

  /** What one line says. */
  datatype Item =
    | Blank
    | NoKey(line: string)
    | Stranger(key: string)
    | Field(k: Key, value: string)
    | Entry(value: string)

  function ItemOf(key: string, value: string): Item {
    if key == "residual" then Item.Entry(value)
    else
      match KeyOf(key)
      case None => Stranger(key)
      case Some(k) => Field(k, value)
  }

  function Cut(raw: string): Item {
    var line := Trim(raw);
    var i := Find(line, '=');
    if line == [] then Blank
    else if i == |line| then NoKey(line)
    else ItemOf(line[..i], line[i + 1..])
  }

  /** What a line, the `number`th, adds to what has been seen. */
  function Effect(item: Item, number: nat, seen: Seen): Result<Seen, Error> {
    match item
    case Blank => Success(seen)
    case NoKey(line) => Failure(NotKeyValue(number, line))
    case Stranger(key) => Failure(UnknownKey(key))
    case Field(k, value) => Success(seen.(fields := seen.fields[k := value]))
    case Entry(value) =>
      match ParseResidual(value) {
        case None => Failure(InvalidResidual)
        case Some(r) => Success(seen.(residuals := seen.residuals + [r]))
      }
  }

  function Cuts(lines: seq<string>): seq<Item> {
    Map(Cut, lines)
  }

  function Effects(items: seq<Item>, number: nat, seen: Seen): Result<Seen, Error>
    decreases |items|
  {
    if items == [] then Success(seen)
    else
      match Effect(items[0], number, seen)
      case Failure(e) => Failure(e)
      case Success(next) => Effects(items[1..], number + 1, next)
  }

  function Get(fields: map<Key, string>, k: Key): Result<string, Error> {
    if k in fields then Success(fields[k]) else Failure(Missing(k))
  }

  function Number(fields: map<Key, string>, k: Key): Result<usize, Error> {
    if k !in fields then Failure(Missing(k))
    else
      match ParseUsize(fields[k])
      case None => Failure(NotByteCount(k))
      case Some(n) => Success(n)
  }

  /** The first field of `order` that is absent or, where it must be, not a number. */
  function FirstBad(fields: map<Key, string>, order: seq<Key>): Option<Error> {
    if order == [] then None
    else
      var k := order[0];
      var found := if k.SnapshotBytes? || k.TableBytes? then
          match Number(fields, k) { case Failure(e) => Some(e) case Success(_) => None }
        else
          match Get(fields, k) { case Failure(e) => Some(e) case Success(_) => None };
      if found.Some? then found else FirstBad(fields, order[1..])
  }

  const ORDER: seq<Key> := [
    Libdeno, Target, V8, Typescript, DenoCore, DenoRuntime,
    SnapshotBytes, SnapshotHash, TableBytes, TableHash]

  function Assemble(seen: Seen): Result<Manifest, Error> {
    var f := seen.fields;
    if Format !in f then Failure(Missing(Format))
    else if f[Format] != FORMAT then Failure(WrongFormat(f[Format]))
    else
      match FirstBad(f, ORDER)
      case Some(e) => Failure(e)
      case None =>
        NoneBad(f, ORDER);
        Success(Manifest(
          Identity(f[Libdeno], f[Target], f[V8], f[Typescript], f[DenoCore], f[DenoRuntime]),
          ParseUsize(f[SnapshotBytes]).value, f[SnapshotHash],
          ParseUsize(f[TableBytes]).value, f[TableHash],
          seen.residuals))
  }

  lemma {:induction false} NoneBad(fields: map<Key, string>, order: seq<Key>)
    requires FirstBad(fields, order).None?
    ensures forall k :: k in order ==> k in fields
    ensures forall k :: k in order && (k.SnapshotBytes? || k.TableBytes?) ==> ParseUsize(fields[k]).Some?
  {
    if order != [] {
      NoneBad(fields, order[1..]);
      assert forall k :: k in order ==> k == order[0] || k in order[1..];
    }
  }

  lemma {:induction false} AllGood(fields: map<Key, string>, order: seq<Key>)
    requires forall k :: k in order ==> k in fields
    requires forall k :: k in order && (k.SnapshotBytes? || k.TableBytes?) ==> ParseUsize(fields[k]).Some?
    ensures FirstBad(fields, order).None?
  {
    if order != [] {
      AllGood(fields, order[1..]);
    }
  }

  function SeenIn(text: string): Result<Seen, Error> {
    Effects(Cuts(Lines(text)), 1, Seen(map[], []))
  }

  function Parse(text: string): Result<Manifest, Error> {
    match SeenIn(text)
    case Failure(e) => Failure(e)
    case Success(seen) => Assemble(seen)
  }

  /** The loop of `parse`: one pass over the lines, each cut in turn. */
  method ReadLines(lines: seq<string>, cut: string -> Item) returns (r: Result<Seen, Error>)
    ensures r == Effects(Map(cut, lines), 1, Seen(map[], []))
  {
    var seen := Seen(map[], []);
    var index := 0;
    ghost var items := Map(cut, lines);
    while index < |lines|
      invariant index <= |lines|
      invariant Effects(items, 1, Seen(map[], [])) == Effects(items[index..], index + 1, seen)
    {
      ghost var rest := items[index..];
      assert rest[0] == cut(lines[index]) && rest[1..] == items[index + 1..];
      var step := Effect(cut(lines[index]), index + 1, seen);
      if step.Failure? {
        return Failure(step.error);
      }
      seen := step.value;
      index := index + 1;
    }
    r := Success(seen);
  }

  /** `parse`: the loop, then the field lookups. */
  method ParseText(text: string) returns (r: Result<Manifest, Error>)
    ensures r == Parse(text)
  {
    var seen := ReadLines(Lines(text), Cut);
    match seen {
      case Failure(e) => r := Failure(e);
      case Success(all) => r := Assemble(all);
    }
  }

  // ---- what survives the round trip ----

  predicate SafeValue(v: string) {
    '\n' !in v && (v == [] || !White(v[|v| - 1]))
  }

  predicate SafeResidual(r: Residual) {
    && r.name != [] && '\t' !in r.name && '\n' !in r.name
    && r.hash != [] && '\t' !in r.hash && SafeValue(r.hash)
  }

  /** Line-safe fields: what a caller can look at before rendering. */
  predicate Safe(m: Manifest) {
    && SafeValue(m.identity.libdeno) && SafeValue(m.identity.target) && SafeValue(m.identity.v8)
    && SafeValue(m.identity.typescript) && SafeValue(m.identity.denoCore) && SafeValue(m.identity.denoRuntime)
    && SafeValue(m.snapshotHash) && SafeValue(m.tableHash)
    && forall i :: 0 <= i < |m.residuals| ==> SafeResidual(m.residuals[i])
  }

  /** A key as the format writes them. */
  predicate PlainKey(key: string) {
    key != [] && forall c :: c in key ==> c == '-' || 'a' <= c <= 'z' || '0' <= c <= '9'
  }

  lemma NamesDiffer(a: Key, b: Key)
    requires KeyName(a) == KeyName(b)
    ensures a == b
  {
  }

  lemma {:induction false} NameIsFound(k: Key, keys: seq<Key>)
    requires k in keys
    ensures KeyAmong(KeyName(k), keys) == Some(k)
    decreases |keys|
  {
    if KeyName(keys[0]) == KeyName(k) {
      NamesDiffer(keys[0], k);
    } else {
      NameIsFound(k, keys[1..]);
    }
  }

  lemma NamesArePlain(k: Key)
    ensures PlainKey(KeyName(k)) && KeyName(k) != "residual"
  {
  }

  lemma EveryKeyIsListed(k: Key)
    ensures k in KEYS
  {
    assert KEYS[0] == Format && KEYS[1] == Libdeno && KEYS[2] == Target && KEYS[3] == V8;
    assert KEYS[4] == Typescript && KEYS[5] == DenoCore && KEYS[6] == DenoRuntime;
    assert KEYS[7] == SnapshotBytes && KEYS[8] == SnapshotHash && KEYS[9] == TableBytes && KEYS[10] == TableHash;
  }

  lemma KeyNames(k: Key)
    ensures PlainKey(KeyName(k)) && forall v :: ItemOf(KeyName(k), v) == Field(k, v)
  {
    NamesArePlain(k);
    EveryKeyIsListed(k);
    NameIsFound(k, KEYS);
  }

  /** A line `key=value` with nothing to trim is read as that key and value. */
  lemma LineReads(key: string, value: string)
    requires PlainKey(key) && SafeValue(value)
    ensures Clean(key + "=" + value)
    ensures Cut(key + "=" + value) == ItemOf(key, value)
  {
    var line := key + "=" + value;
    assert line == key + ['='] + value;
    assert key[0] in key && line[0] == key[0];
    FindFirst(key, '=', value);
    assert line[|line| - 1] == if value == [] then '=' else value[|value| - 1];
    Untrimmed(line);
    CutOf(line, key, value);
  }

  lemma CutOf(line: string, key: string, value: string)
    requires line == key + ['='] + value && Trim(line) == line && Find(line, '=') == |key|
    ensures Cut(line) == ItemOf(key, value)
  {
    assert line[..|key|] == key && line[|key| + 1..] == value;
  }

  lemma Untrimmed(line: string)
    requires line != [] && !White(line[0]) && !White(line[|line| - 1])
    ensures Trim(line) == line && StripCr(line) == line
  {
  }

  function Insert(fields: map<Key, string>, pairs: seq<(Key, string)>): map<Key, string>
    decreases |pairs|
  {
    if pairs == [] then fields else Insert(fields[pairs[0].0 := pairs[0].1], pairs[1..])
  }

  predicate Distinct(pairs: seq<(Key, string)>) {
    forall i, j :: 0 <= i < j < |pairs| ==> pairs[i].0 != pairs[j].0
  }

  lemma {:induction false} Inserted(fields: map<Key, string>, pairs: seq<(Key, string)>)
    requires Distinct(pairs)
    ensures Holds(Insert(fields, pairs), pairs)
    ensures forall k :: k in fields && (forall i :: 0 <= i < |pairs| ==> pairs[i].0 != k) ==>
      k in Insert(fields, pairs) && Insert(fields, pairs)[k] == fields[k]
    decreases |pairs|
  {
    if pairs != [] {
      var rest := pairs[1..];
      Inserted(fields[pairs[0].0 := pairs[0].1], rest);
      assert forall i :: 0 <= i < |rest| ==> rest[i] == pairs[i + 1];
      assert forall i :: 1 <= i < |pairs| ==> pairs[i] == rest[i - 1];
    }
  }

  function FieldItems(pairs: seq<(Key, string)>): (items: seq<Item>)
    ensures |items| == |pairs|
    ensures forall i :: 0 <= i < |pairs| ==> items[i] == Field(pairs[i].0, pairs[i].1)
  {
    if pairs == [] then [] else [Field(pairs[0].0, pairs[0].1)] + FieldItems(pairs[1..])
  }

  function EntryItem(value: string): Item {
    Item.Entry(value)
  }

  function EntryItems(entries: seq<string>): seq<Item> {
    Map(EntryItem, entries)
  }

  lemma {:induction false} FieldsTakeEffect(pairs: seq<(Key, string)>, rest: seq<Item>, number: nat, seen: Seen)
    ensures Effects(FieldItems(pairs) + rest, number, seen)
         == Effects(rest, number + |pairs|, seen.(fields := Insert(seen.fields, pairs)))
    decreases |pairs|
  {
    var items := FieldItems(pairs) + rest;
    if pairs == [] {
      assert items == rest;
    } else {
      FieldsTakeEffect(pairs[1..], rest, number + 1, seen.(fields := seen.fields[pairs[0].0 := pairs[0].1]));
      assert items[1..] == FieldItems(pairs[1..]) + rest;
    }
  }

  lemma ThreeParts(name: string, count: string, hash: string)
    requires '\t' !in name && '\t' !in count && '\t' !in hash
    ensures Split(name + "\t" + count + "\t" + hash, '\t') == [name, count, hash]
  {
    assert name + "\t" + count + "\t" + hash == name + ['\t'] + (count + ['\t'] + hash);
    SplitFirst(name, '\t', count + ['\t'] + hash);
    SplitFirst(count, '\t', hash);
    SplitNone(hash, '\t');
  }

  lemma PrefixedIsSafe(prefix: string, hash: string)
    requires '\n' !in prefix && SafeValue(hash) && hash != []
    ensures SafeValue(prefix + hash)
  {
  }

  lemma EntryIsSafe(r: Residual)
    requires SafeResidual(r)
    ensures SafeValue(Entry(r))
  {
    DecimalIsDigits(r.bytes);
    PrefixedIsSafe(r.name + "\t" + Decimal(r.bytes) + "\t", r.hash);
  }

  lemma EntryReads(r: Residual)
    requires SafeResidual(r)
    ensures ParseResidual(Entry(r)) == Some(r)
  {
    var count := Decimal(r.bytes);
    DecimalIsDigits(r.bytes);
    ThreeParts(r.name, count, r.hash);
    ParseOfDecimal(r.bytes);
  }

  lemma {:induction false} EntriesTakeEffect(items: seq<Item>, residuals: seq<Residual>, number: nat, seen: Seen)
    requires |items| == |residuals|
    requires forall i :: 0 <= i < |items| ==> items[i].Entry? && ParseResidual(items[i].value) == Some(residuals[i])
    ensures Effects(items, number, seen) == Success(seen.(residuals := seen.residuals + residuals))
    decreases |residuals|
  {
    if residuals == [] {
      assert seen.residuals + [] == seen.residuals;
    } else {
      var next := seen.(residuals := seen.residuals + [residuals[0]]);
      EntriesTakeEffect(items[1..], residuals[1..], number + 1, next);
      assert next.residuals + residuals[1..] == seen.residuals + residuals;
    }
  }

  lemma PairsAreSafe(m: Manifest)
    requires Safe(m)
    ensures Distinct(Pairs(m))
    ensures forall i :: 0 <= i < |Pairs(m)| ==> SafeValue(Pairs(m)[i].1)
  {
    DecimalIsSafe(m.snapshotBytes);
    DecimalIsSafe(m.tableBytes);
  }

  lemma DecimalIsSafe(n: nat)
    ensures SafeValue(Decimal(n))
  {
    DecimalIsDigits(n);
  }

  lemma {:induction false} FieldLinesRead(pairs: seq<(Key, string)>)
    requires forall i :: 0 <= i < |pairs| ==> SafeValue(pairs[i].1)
    ensures forall i :: 0 <= i < |pairs| ==> Clean(FieldLines(pairs)[i])
    ensures Cuts(FieldLines(pairs)) == FieldItems(pairs)
  {
    forall i | 0 <= i < |pairs|
      ensures Clean(FieldLines(pairs)[i]) && Cut(FieldLines(pairs)[i]) == FieldItems(pairs)[i]
    {
      KeyNames(pairs[i].0);
      LineReads(KeyName(pairs[i].0), pairs[i].1);
    }
  }

  lemma {:induction false} EntryLinesRead(entries: seq<string>)
    requires forall i :: 0 <= i < |entries| ==> SafeValue(entries[i])
    ensures forall i :: 0 <= i < |entries| ==> Clean(EntryLines(entries)[i])
    ensures Cuts(EntryLines(entries)) == EntryItems(entries)
  {
    forall i | 0 <= i < |entries|
      ensures Clean(EntryLines(entries)[i])
      ensures Cut(EntryLines(entries)[i]) == EntryItems(entries)[i]
    {
      LineReads("residual", entries[i]);
    }
  }

  lemma LinesReadBack(pairs: seq<(Key, string)>, entries: seq<string>)
    requires forall i :: 0 <= i < |pairs| ==> SafeValue(pairs[i].1)
    requires forall i :: 0 <= i < |entries| ==> SafeValue(entries[i])
    ensures Cuts(Lines(Unlines(FieldLines(pairs) + EntryLines(entries)))) == FieldItems(pairs) + EntryItems(entries)
  {
    FieldLinesRead(pairs);
    EntryLinesRead(entries);
    MapAppend(Cut, FieldLines(pairs), EntryLines(entries));
    LinesOfUnlines(FieldLines(pairs) + EntryLines(entries));
  }

  lemma ItemsTakeEffect(pairs: seq<(Key, string)>, entries: seq<string>, residuals: seq<Residual>)
    requires |entries| == |residuals|
    requires forall i :: 0 <= i < |entries| ==> ParseResidual(entries[i]) == Some(residuals[i])
    ensures Effects(FieldItems(pairs) + EntryItems(entries), 1, Seen(map[], []))
         == Success(Seen(Insert(map[], pairs), residuals))
  {
    FieldsTakeEffect(pairs, EntryItems(entries), 1, Seen(map[], []));
    EntriesTakeEffect(EntryItems(entries), residuals, 1 + |pairs|, Seen(Insert(map[], pairs), []));
    assert [] + residuals == residuals;
  }

  lemma AllSeen(pairs: seq<(Key, string)>, entries: seq<string>, residuals: seq<Residual>)
    requires |entries| == |residuals|
    requires forall i :: 0 <= i < |pairs| ==> SafeValue(pairs[i].1)
    requires forall i :: 0 <= i < |entries| ==> SafeValue(entries[i])
    requires forall i :: 0 <= i < |entries| ==> ParseResidual(entries[i]) == Some(residuals[i])
    ensures SeenIn(Unlines(FieldLines(pairs) + EntryLines(entries))) == Success(Seen(Insert(map[], pairs), residuals))
  {
    LinesReadBack(pairs, entries);
    ItemsTakeEffect(pairs, entries, residuals);
  }

  lemma EntriesRead(residuals: seq<Residual>)
    requires forall i :: 0 <= i < |residuals| ==> SafeResidual(residuals[i])
    ensures forall i :: 0 <= i < |residuals| ==> SafeValue(Entries(residuals)[i])
    ensures forall i :: 0 <= i < |residuals| ==> ParseResidual(Entries(residuals)[i]) == Some(residuals[i])
  {
    forall i | 0 <= i < |residuals|
      ensures SafeValue(Entries(residuals)[i])
      ensures ParseResidual(Entries(residuals)[i]) == Some(residuals[i])
    {
      EntryIsSafe(residuals[i]);
      EntryReads(residuals[i]);
    }
  }

  ghost predicate Holds(fields: map<Key, string>, pairs: seq<(Key, string)>) {
    forall i :: 0 <= i < |pairs| ==> pairs[i].0 in fields && fields[pairs[i].0] == pairs[i].1
  }

  lemma AssemblesBack(m: Manifest, fields: map<Key, string>)
    requires Holds(fields, Pairs(m))
    ensures Assemble(Seen(fields, m.residuals)) == Success(m)
  {
    var pairs := Pairs(m);
    assert forall i :: 0 <= i < 10 ==> ORDER[i] == pairs[i + 1].0;
    ParseOfDecimal(m.snapshotBytes);
    ParseOfDecimal(m.tableBytes);
    assert pairs[0].0 == Format && pairs[1].0 == Libdeno && pairs[2].0 == Target && pairs[3].0 == V8;
    assert pairs[4].0 == Typescript && pairs[5].0 == DenoCore && pairs[6].0 == DenoRuntime;
    assert pairs[7].0 == SnapshotBytes && pairs[8].0 == SnapshotHash;
    assert pairs[9].0 == TableBytes && pairs[10].0 == TableHash;
    AllGood(fields, ORDER);
  }

  /** Every line-safe manifest survives printing and parsing. */
  lemma RoundTrip(m: Manifest)
    requires Safe(m)
    ensures Parse(Render(m)) == Success(m)
  {
    PairsAreSafe(m);
    EntriesRead(m.residuals);
    AllSeen(Pairs(m), Entries(m.residuals), m.residuals);
    Inserted(map[], Pairs(m));
    AssemblesBack(m, Insert(map[], Pairs(m)));
  }

  // ---- everything parsed is line-safe ----

  predicate SafeSeen(seen: Seen) {
    && (forall k :: k in seen.fields ==> SafeValue(seen.fields[k]))
    && forall i :: 0 <= i < |seen.residuals| ==> SafeResidual(seen.residuals[i])
  }

  lemma ResidualIsSafe(value: string)
    requires value != [] ==> !White(value[|value| - 1])
    requires '\n' !in value && ParseResidual(value).Some?
    ensures SafeResidual(ParseResidual(value).value)
  {
    var parts := Split(value, '\t');
    JoinOfSplit(value, '\t');
    var a, b, c := parts[0], parts[1], parts[2];
    assert parts[1..] == [b, c] && parts[1..][1..] == [c];
    assert Join(parts[1..], '\t') == b + ['\t'] + c;
    assert value == a + ['\t'] + (b + ['\t'] + c);
    assert a in parts && c in parts;
    assert value[|value| - 1] == if c == [] then '\t' else c[|c| - 1];
    assert forall x :: x in a ==> x in value;
    assert forall x :: x in c ==> x in value;
  }

  predicate SafeItem(item: Item) {
    (item.Field? || item.Entry?) ==> SafeValue(item.value)
  }

  lemma SuffixIsSafe(line: string, i: nat)
    requires SafeValue(line) && i <= |line|
    ensures SafeValue(line[i..])
  {
  }

  lemma ItemIsSafe(key: string, value: string)
    requires SafeValue(value)
    ensures SafeItem(ItemOf(key, value))
  {
  }

  lemma CutIsSafe(raw: string)
    requires '\n' !in raw
    ensures SafeItem(Cut(raw))
  {
    var line := Trim(raw);
    var i := Find(line, '=');
    if line != [] && i < |line| {
      TrimIsSafe(raw);
      SuffixIsSafe(line, i + 1);
      ItemIsSafe(line[..i], line[i + 1..]);
    }
  }

  lemma TrimIsSafe(raw: string)
    requires '\n' !in raw
    ensures SafeValue(Trim(raw))
  {
  }

  lemma {:induction false} EffectsStaySafe(items: seq<Item>, number: nat, seen: Seen)
    requires forall i :: 0 <= i < |items| ==> SafeItem(items[i])
    requires SafeSeen(seen) && Effects(items, number, seen).Success?
    ensures SafeSeen(Effects(items, number, seen).value)
    decreases |items|
  {
    if items != [] {
      if items[0].Entry? {
        ResidualIsSafe(items[0].value);
      }
      EffectsStaySafe(items[1..], number + 1, Effect(items[0], number, seen).value);
    }
  }

  lemma AssembledIsSafe(seen: Seen)
    requires SafeSeen(seen)
    ensures Assemble(seen).Success? ==> Safe(Assemble(seen).value)
  {
    if Assemble(seen).Success? {
      NoneBad(seen.fields, ORDER);
    }
  }

  lemma SeenIsSafe(text: string)
    ensures SeenIn(text).Success? ==> SafeSeen(SeenIn(text).value)
  {
    var items := Cuts(Lines(text));
    LinesHaveNoBreak(text);
    forall i | 0 <= i < |items|
      ensures SafeItem(items[i])
    {
      CutIsSafe(Lines(text)[i]);
    }
    if SeenIn(text).Success? {
      EffectsStaySafe(items, 1, Seen(map[], []));
    }
  }

  /** Whatever the text, an accepted manifest is line-safe. */
  lemma ParsedIsSafe(text: string)
    ensures Parse(text).Success? ==> Safe(Parse(text).value)
  {
    SeenIsSafe(text);
    if SeenIn(text).Success? {
      AssembledIsSafe(SeenIn(text).value);
    }
  }

  /** The round trip holds exactly for the line-safe manifests. */
  lemma RoundTripExactly(m: Manifest)
    ensures Parse(Render(m)) == Success(m) <==> Safe(m)
  {
    if Safe(m) {
      RoundTrip(m);
    } else if Parse(Render(m)) == Success(m) {
      ParsedIsSafe(Render(m));
    }
  }

  /** Distinct line-safe manifests never print alike. */
  lemma RenderIsInjective(m: Manifest, n: Manifest)
    requires Safe(m) && Safe(n) && Render(m) == Render(n)
    ensures m == n
  {
    RoundTrip(m);
    RoundTrip(n);
  }
}
