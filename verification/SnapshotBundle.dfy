/**
  A whole bundle: describing, verifying and copying its files
  (build_support/snapshot_bundle.rs).
 */
module SnapshotBundle {
  import opened Bytes
  import opened Fnv
  import opened Ordering
  import opened ResidualTable
  import opened Sequences
  import opened SnapshotManifest
  import opened Text
  import opened Wrappers

  /** What a file holds; its length fits a `usize`. */
  type Contents = b: seq<byte> | |b| <= USIZE_MAX witness []

  type Files = map<string, Contents>

  datatype NameProblem = EmptyName | Absolute | NotPlainRelative | HasColon

  datatype Problem =
    | ListMismatch
    | BadName(name: string, why: NameProblem)
    | NoSource(name: string)
    | SourceMismatch(name: string)
    | WrongIdentity(field: Key)
    | WrongContents(what: Key)

  // ---- residual names ----

  predicate UpOrNothing(component: string) {
    component == ".." || component == "." || component == ""
  }

  function Components(name: string): seq<string> {
    Split(ForwardSlashes(name), '/')
  }

  function NameCheck(name: string): Option<NameProblem> {
    var normalized := ForwardSlashes(name);
    if name == "" then Some(EmptyName)
    else if normalized[0] == '/' then Some(Absolute)
    else if exists i :: 0 <= i < |Components(name)| && UpOrNothing(Components(name)[i]) then Some(NotPlainRelative)
    else if ':' in normalized then Some(HasColon)
    else None
  }

  /**
    A name is accepted exactly when, split at both kinds of slash, no component is empty,
    `.` or `..`, and it holds no colon, so no drive prefix and no alternate stream.
   */
  lemma AcceptedNamesExactly(name: string)
    ensures NameCheck(name).None? <==>
      ':' !in name && forall i :: 0 <= i < |Components(name)| ==> Components(name)[i] !in {"", ".", ".."}
    ensures forall i :: 0 <= i < |Components(name)| ==> '/' !in Components(name)[i] && '\\' !in Components(name)[i]
  {
    SlashesForward(name);
    assert forall component :: UpOrNothing(component) <==> component in {"", ".", ".."};
    if name == "" || ForwardSlashes(name)[0] == '/' {
      EmptyFirstPart(ForwardSlashes(name));
      assert Components(name)[0] in {"", ".", ".."};
    }
    forall i | 0 <= i < |Components(name)|
      ensures '/' !in Components(name)[i] && '\\' !in Components(name)[i]
    {
      assert Components(name)[i] in Split(ForwardSlashes(name), '/');
      PartsAreInside(ForwardSlashes(name), '/', Components(name)[i]);
    }
  }

  lemma EmptyFirstPart(s: string)
    requires s == "" || s[0] == '/'
    ensures Split(s, '/')[0] == ""
  {
  }

  lemma {:induction false} SlashesForward(name: string)
    ensures |ForwardSlashes(name)| == |name| && '\\' !in ForwardSlashes(name)
    ensures ':' in ForwardSlashes(name) <==> ':' in name
  {
    if name != "" {
      SlashesForward(name[1..]);
      assert name == [name[0]] + name[1..];
    }
  }

  lemma {:induction false} PartsAreInside(s: string, c: char, part: string)
    requires part in Split(s, c)
    ensures forall x :: x in part ==> x in s
    decreases |s|
  {
    var i := Find(s, c);
    if i < |s| && part != s[..i] {
      PartsAreInside(s[i + 1..], c, part);
    }
  }

  /** Following path components from a directory: `..` goes up, `.` and nothing stay. */
  function Walk(dir: seq<string>, path: seq<string>): seq<string>
    decreases |path|
  {
    if path == [] then dir
    else if path[0] == ".." then Walk(if dir == [] then [] else dir[..|dir| - 1], path[1..])
    else if path[0] == "." || path[0] == "" then Walk(dir, path[1..])
    else Walk(dir + [path[0]], path[1..])
  }

  lemma {:induction false} PlainPathDescends(dir: seq<string>, path: seq<string>)
    requires forall i :: 0 <= i < |path| ==> !UpOrNothing(path[i])
    ensures Walk(dir, path) == dir + path
    decreases |path|
  {
    if path == [] {
      assert dir + path == dir;
    } else {
      PlainPathDescends(dir + [path[0]], path[1..]);
      assert dir + [path[0]] + path[1..] == dir + path;
    }
  }

  /** An accepted name leads below the directory it is joined to, and never out of it. */
  lemma AcceptedNamesStayInside(dir: seq<string>, name: string)
    requires NameCheck(name).None?
    ensures Walk(dir, Components(name)) == dir + Components(name)
    ensures |Walk(dir, Components(name))| > |dir|
  {
    PlainPathDescends(dir, Components(name));
  }

  lemma FileNameComponents(specifier: string)
    ensures Components(FileName(specifier)) == [DIRECTORY, BaseName(specifier)]
  {
    var base := BaseName(specifier);
    DirectoryIsPlain();
    FileNameIsPlain(specifier);
    AlreadyForward(FileName(specifier));
    assert '/' !in base;
    SplitFirst(DIRECTORY, '/', base);
    SplitNone(base, '/');
  }

  /** Every name the build's table holds is accepted: the directory, then one plain component. */
  lemma FileNamesAreAccepted(specifier: string)
    ensures NameCheck(FileName(specifier)).None?
    ensures Components(FileName(specifier)) == [DIRECTORY, BaseName(specifier)]
  {
    var base := BaseName(specifier);
    FileNameIsPlain(specifier);
    AlreadyForward(FileName(specifier));
    FileNameComponents(specifier);
    assert base[|base| - 1] == 's' && |base| >= 3;
    assert !UpOrNothing(base) && !UpOrNothing(DIRECTORY);
  }

  lemma AlreadyForward(path: string)
    requires PlainName(path)
    ensures ForwardSlashes(path) == path
  {
  }

  // ---- describing ----

  function DescribeOne(name: string, files: Files): Result<Residual, Problem> {
    match NameCheck(name)
    case Some(why) => Failure(BadName(name, why))
    case None =>
      if name !in files then Failure(NoSource(name))
      else Success(Residual(name, |files[name]|, Fingerprint(files[name])))
  }

  function DescribeAll(names: seq<string>, files: Files): Result<seq<Residual>, Problem> {
    if names == [] then Success([])
    else
      match DescribeOne(names[0], files)
      case Failure(p) => Failure(p)
      case Success(r) =>
        match DescribeAll(names[1..], files)
        case Failure(p) => Failure(p)
        case Success(rest) => Success([r] + rest)
  }

  /** `sources` are the names `table_sources` finds in the table. */
  function DescribeSources(sources: seq<string>, files: Files): Result<seq<Residual>, Problem> {
    DescribeAll(SortedNames(sources), files)
  }

  function DescribeResiduals(table: string, files: Files): Result<seq<Residual>, Problem> {
    DescribeSources(TableSources(table), files)
  }

  function Describe(identity: Identity, snapshot: Contents, table: Contents): Manifest {
    Manifest(identity, |snapshot|, Fingerprint(snapshot), |table|, Fingerprint(table), [])
  }

  // ---- verifying ----

  function VerifyOne(r: Residual, files: Files): Option<Problem> {
    match NameCheck(r.name)
    case Some(why) => Some(BadName(r.name, why))
    case None =>
      if r.name !in files then Some(NoSource(r.name))
      else if |files[r.name]| != r.bytes || Fingerprint(files[r.name]) != r.hash then Some(SourceMismatch(r.name))
      else None
  }

  function VerifyAll(residuals: seq<Residual>, files: Files): Option<Problem> {
    if residuals == [] then None
    else if VerifyOne(residuals[0], files).Some? then VerifyOne(residuals[0], files)
    else VerifyAll(residuals[1..], files)
  }

  function RecordedNames(residuals: seq<Residual>): (names: seq<string>)
    ensures |names| == |residuals|
    ensures forall i :: 0 <= i < |names| ==> names[i] == residuals[i].name
  {
    if residuals == [] then [] else [residuals[0].name] + RecordedNames(residuals[1..])
  }

  function VerifySources(m: Manifest, sources: seq<string>, files: Files): Option<Problem> {
    var expected := SortedNames(sources);
    var recorded := SortedNames(RecordedNames(m.residuals));
    if recorded != expected || |recorded| != |m.residuals| then Some(ListMismatch)
    else VerifyAll(m.residuals, files)
  }

  function VerifyResiduals(m: Manifest, table: string, files: Files): Option<Problem> {
    VerifySources(m, TableSources(table), files)
  }

  function FirstDifference(found: Identity, expected: Identity): Option<Key> {
    if found.libdeno != expected.libdeno then Some(Libdeno)
    else if found.target != expected.target then Some(Target)
    else if found.v8 != expected.v8 then Some(V8)
    else if found.typescript != expected.typescript then Some(Typescript)
    else if found.denoCore != expected.denoCore then Some(DenoCore)
    else if found.denoRuntime != expected.denoRuntime then Some(DenoRuntime)
    else None
  }

  function Verify(m: Manifest, expected: Identity, snapshot: Contents, table: Contents): Option<Problem> {
    match FirstDifference(m.identity, expected)
    case Some(field) => Some(WrongIdentity(field))
    case None =>
      if |snapshot| != m.snapshotBytes || Fingerprint(snapshot) != m.snapshotHash then Some(WrongContents(SnapshotHash))
      else if |table| != m.tableBytes || Fingerprint(table) != m.tableHash then Some(WrongContents(TableHash))
      else None
  }

  // ---- what verification means ----

  ghost predicate Matches(r: Residual, files: Files) {
    && NameCheck(r.name).None?
    && r.name in files && |files[r.name]| == r.bytes && Fingerprint(files[r.name]) == r.hash
  }

  ghost predicate SameNames(names: seq<string>, sources: seq<string>) {
    forall x :: x in names <==> x in sources
  }

  lemma {:induction false} VerifyAllMeans(residuals: seq<Residual>, files: Files)
    ensures VerifyAll(residuals, files).None? <==>
      (forall i :: 0 <= i < |residuals| ==> Matches(residuals[i], files))
  {
    if residuals != [] {
      VerifyAllMeans(residuals[1..], files);
      assert forall i :: 1 <= i < |residuals| ==> residuals[i] == residuals[1..][i - 1];
    }
  }

  /**
    A manifest's residuals verify exactly when it records each source of the
    table once, records nothing else, and every recorded file is there unchanged.
   */
  lemma VerifiedMeans(m: Manifest, sources: seq<string>, files: Files)
    ensures VerifySources(m, sources, files).None? <==>
      && NoRepeats(RecordedNames(m.residuals))
      && SameNames(RecordedNames(m.residuals), sources)
      && forall i :: 0 <= i < |m.residuals| ==> Matches(m.residuals[i], files)
  {
    SortedNamesCompare(RecordedNames(m.residuals), sources);
    SortedNamesLength(RecordedNames(m.residuals));
    VerifyAllMeans(m.residuals, files);
  }

  /** One byte differs. */
  ghost predicate OneByteOff(s: Contents, t: Contents) {
    |s| == |t| && exists i :: 0 <= i < |s| && s[i] != t[i] && forall j :: 0 <= j < |s| && j != i ==> s[j] == t[j]
  }

  lemma OneByteOffIsSeen(s: Contents, t: Contents)
    requires OneByteOff(s, t)
    ensures Fingerprint(s) != Fingerprint(t)
  {
    var i :| 0 <= i < |s| && s[i] != t[i] && forall j :: 0 <= j < |s| && j != i ==> s[j] == t[j];
    OneByteChangesTheFingerprint(s, t, i);
  }

  /** Truncating, growing or flipping one byte of any residual source is always caught. */
  lemma CorruptionIsCaught(m: Manifest, sources: seq<string>, files: Files, name: string, damaged: Contents)
    requires VerifySources(m, sources, files).None? && name in sources
    requires name in files && (|damaged| != |files[name]| || OneByteOff(files[name], damaged))
    ensures VerifySources(m, sources, files[name := damaged]).Some?
  {
    VerifiedMeans(m, sources, files);
    VerifiedMeans(m, sources, files[name := damaged]);
    assert name in RecordedNames(m.residuals);
    var i :| 0 <= i < |m.residuals| && m.residuals[i].name == name;
    assert Matches(m.residuals[i], files);
    if OneByteOff(files[name], damaged) {
      OneByteOffIsSeen(files[name], damaged);
    }
    assert !Matches(m.residuals[i], files[name := damaged]);
  }

  function FieldOf(i: Identity, k: Key): Option<string> {
    match k
    case Libdeno => Some(i.libdeno)
    case Target => Some(i.target)
    case V8 => Some(i.v8)
    case Typescript => Some(i.typescript)
    case DenoCore => Some(i.denoCore)
    case DenoRuntime => Some(i.denoRuntime)
    case _ => None
  }

  /** A bundle is accepted exactly for the same identity, snapshot and table; the first difference is the one named. */
  lemma AcceptedBundleMatches(m: Manifest, expected: Identity, snapshot: Contents, table: Contents)
    ensures Verify(m, expected, snapshot, table).None? <==>
      && m.identity == expected
      && |snapshot| == m.snapshotBytes && Fingerprint(snapshot) == m.snapshotHash
      && |table| == m.tableBytes && Fingerprint(table) == m.tableHash
    ensures match Verify(m, expected, snapshot, table)
            case Some(WrongIdentity(k)) => FieldOf(m.identity, k) != FieldOf(expected, k)
            case Some(WrongContents(k)) =>
              m.identity == expected && if |snapshot| != m.snapshotBytes || Fingerprint(snapshot) != m.snapshotHash
                                        then k == SnapshotHash else k == TableHash
            case other => other.None?
  {
  }

  lemma TableCorruptionIsCaught(m: Manifest, expected: Identity, snapshot: Contents, table: Contents, damaged: Contents)
    requires Verify(m, expected, snapshot, table).None?
    requires |damaged| != |table| || OneByteOff(table, damaged)
    ensures Verify(m, expected, snapshot, damaged) == Some(WrongContents(TableHash))
  {
    if OneByteOff(table, damaged) {
      OneByteOffIsSeen(table, damaged);
    }
  }

  lemma SnapshotCorruptionIsCaught(m: Manifest, expected: Identity, snapshot: Contents, table: Contents, damaged: Contents)
    requires Verify(m, expected, snapshot, table).None?
    requires |damaged| != |snapshot| || OneByteOff(snapshot, damaged)
    ensures Verify(m, expected, damaged, table) == Some(WrongContents(SnapshotHash))
  {
    if OneByteOff(snapshot, damaged) {
      OneByteOffIsSeen(snapshot, damaged);
    }
  }

  // ---- export, then import ----

  lemma {:induction false} DescribeAllGives(names: seq<string>, files: Files)
    ensures DescribeAll(names, files).Success? <==>
      (forall x :: x in names ==> NameCheck(x).None? && x in files)
    ensures DescribeAll(names, files).Success? ==>
      var rs := DescribeAll(names, files).value;
      RecordedNames(rs) == names && forall i :: 0 <= i < |rs| ==> Matches(rs[i], files)
  {
    if names != [] {
      DescribeAllGives(names[1..], files);
      assert forall x :: x in names <==> x == names[0] || x in names[1..];
    }
  }

  /** Describing succeeds exactly when every source has an acceptable name and a file. */
  lemma DescribeSucceeds(sources: seq<string>, files: Files)
    ensures DescribeSources(sources, files).Success? <==>
      (forall x :: x in sources ==> NameCheck(x).None? && x in files)
  {
    SortedNamesAre(sources);
    DescribeAllGives(SortedNames(sources), files);
  }

  /** What describing records: each source once, as it is on disk. */
  lemma DescribedAre(sources: seq<string>, files: Files, rs: seq<Residual>)
    requires DescribeSources(sources, files) == Success(rs)
    ensures Ascending(RecordedNames(rs), Self) && SameNames(RecordedNames(rs), sources)
    ensures forall i :: 0 <= i < |rs| ==> Matches(rs[i], files)
  {
    SortedNamesAre(sources);
    DescribeAllGives(SortedNames(sources), files);
  }

  /** What was described from some files verifies against those files. */
  lemma DescribedVerifies(m: Manifest, sources: seq<string>, files: Files)
    requires DescribeSources(sources, files) == Success(m.residuals)
    ensures VerifySources(m, sources, files).None?
  {
    DescribedAre(sources, files, m.residuals);
    AscendingHasNoRepeats(RecordedNames(m.residuals));
    VerifiedMeans(m, sources, files);
  }

  lemma {:induction false} HexIsPlain(n: nat, width: nat)
    ensures forall c :: c in Hex(n, width) ==> '0' <= c <= '9' || 'a' <= c <= 'f'
  {
    if width > 0 {
      HexIsPlain(n / 16, width - 1);
    }
  }

  lemma FingerprintIsSafe(bytes: seq<byte>)
    ensures SafeValue(Fingerprint(bytes)) && '\t' !in Fingerprint(bytes) && Fingerprint(bytes) != ""
  {
    HexIsPlain(Hash(OFFSET_BASIS, bytes), 16);
    var f := Fingerprint(bytes);
    assert f[15] in f;
  }

  ghost predicate SafeIdentity(i: Identity) {
    && SafeValue(i.libdeno) && SafeValue(i.target) && SafeValue(i.v8)
    && SafeValue(i.typescript) && SafeValue(i.denoCore) && SafeValue(i.denoRuntime)
  }

  /** No source name holds a tab or a line break, so each fits one manifest line. */
  ghost predicate OneLineNames(names: seq<string>) {
    forall i :: 0 <= i < |names| ==> '\t' !in names[i] && '\n' !in names[i]
  }

  ghost predicate OneLine(name: string) {
    '\t' !in name && '\n' !in name
  }

  lemma MatchingIsSafe(r: Residual, files: Files)
    requires Matches(r, files)
    ensures SafeResidual(r) <==> OneLine(r.name)
  {
    FingerprintIsSafe(files[r.name]);
  }

  lemma DescribedIsSafeExactly(sources: seq<string>, files: Files, rs: seq<Residual>)
    requires DescribeSources(sources, files) == Success(rs)
    ensures (forall i :: 0 <= i < |rs| ==> SafeResidual(rs[i])) <==> OneLineNames(sources)
  {
    DescribedAre(sources, files, rs);
    forall i | 0 <= i < |rs|
      ensures SafeResidual(rs[i]) <==> OneLine(RecordedNames(rs)[i])
    {
      MatchingIsSafe(rs[i], files);
    }
    SameNamesSameLines(RecordedNames(rs), sources);
  }

  lemma SameNamesSameLines(names: seq<string>, sources: seq<string>)
    requires SameNames(names, sources)
    ensures OneLineNames(names) <==> OneLineNames(sources)
  {
    assert forall i :: 0 <= i < |names| ==> names[i] in sources;
    assert forall i :: 0 <= i < |sources| ==> sources[i] in names;
  }

  function Exported(identity: Identity, snapshot: Contents, tableBytes: Contents, rs: seq<Residual>): Manifest {
    Describe(identity, snapshot, tableBytes).(residuals := rs)
  }

  lemma ExportedIsSafeExactly(identity: Identity, snapshot: Contents, tableBytes: Contents, rs: seq<Residual>)
    ensures Safe(Exported(identity, snapshot, tableBytes, rs)) <==>
      SafeIdentity(identity) && forall i :: 0 <= i < |rs| ==> SafeResidual(rs[i])
  {
    FingerprintIsSafe(snapshot);
    FingerprintIsSafe(tableBytes);
  }

  /**
    Exporting and importing one directory: everything described verifies, and the
    printed manifest is read back as it was exactly when the identity is line-safe and
    every source name fits one line.
   */
  lemma ExportThenImport(
      m: Manifest, identity: Identity, snapshot: Contents, tableBytes: Contents, sources: seq<string>, files: Files)
    requires DescribeSources(sources, files) == Success(m.residuals)
    requires m == Exported(identity, snapshot, tableBytes, m.residuals)
    ensures Parse(Render(m)) == Success(m) <==> SafeIdentity(identity) && OneLineNames(sources)
    ensures Verify(m, identity, snapshot, tableBytes).None?
    ensures VerifySources(m, sources, files).None?
  {
    DescribedVerifies(m, sources, files);
    DescribedIsSafeExactly(sources, files, m.residuals);
    ExportedIsSafeExactly(identity, snapshot, tableBytes, m.residuals);
    RoundTripExactly(m);
  }

  const TABBED: string := "a\tb"

  /** The name check lets a tab through. */
  lemma TabIsAccepted()
    ensures NameCheck(TABBED).None?
  {
    assert ForwardSlashes(TABBED) == TABBED;
    SplitNone(TABBED, '/');
  }

  /** A hand-written table that names such a file is described, and its manifest is not read back. */
  lemma TabIsNotReadBack(identity: Identity, snapshot: Contents, tableBytes: Contents, files: Files)
    requires TABBED in files
    ensures var described := DescribeSources([TABBED], files);
      && described.Success?
      && var m := Exported(identity, snapshot, tableBytes, described.value);
        Parse(Render(m)) != Success(m)
  {
    TabIsAccepted();
    DescribeSucceeds([TABBED], files);
    var m := Exported(identity, snapshot, tableBytes, DescribeSources([TABBED], files).value);
    assert [TABBED][0] == TABBED && '\t' in TABBED;
    ExportThenImport(m, identity, snapshot, tableBytes, [TABBED], files);
  }

  /** `table_sources` does find that name in a one-line table. */
  lemma TabIsFound()
    ensures TableSources(MACRO + "(" + "\"" + TABBED + "\"" + ")") == [TABBED]
  {
    var table := MACRO + "(" + "\"" + TABBED + "\"" + ")";
    FindNone(table, '\n');
    assert Lines(table) == [table];
    assert table == (MACRO + "(") + ['"'] + TABBED + ['"'] + ")";
    MacroInside("", "(" + "\"" + TABBED + "\"" + ")", "");
    assert table == "" + (MACRO + ("(" + "\"" + TABBED + "\"" + ")")) + "";
    QuotedSource(MACRO + "(", TABBED, ")");
    KeptAll([Some(TABBED)], [TABBED]);
    assert Map(Source, [table]) == [Some(TABBED)];
  }

  /** From the specifiers on: describing build.rs's own table needs only the files it wrote. */
  lemma BuildDescribes(js: seq<string>, esm: seq<string>, on: Platform, files: Files)
    requires PrintsPlain(on.printable)
    requires forall s :: s in js || s in esm ==> FileName(s) in files
    ensures DescribeResiduals(TableText(js, esm, on), files).Success?
  {
    BuiltSources(js, esm, on, files);
    DescribeSucceeds(TableSources(TableText(js, esm, on)), files);
  }

  /** And what it exports is read back and verifies. */
  lemma BuildThenImport(
      m: Manifest, identity: Identity, snapshot: Contents, tableBytes: Contents,
      js: seq<string>, esm: seq<string>, on: Platform, files: Files)
    requires SafeIdentity(identity) && PrintsPlain(on.printable)
    requires forall s :: s in js || s in esm ==> FileName(s) in files
    requires DescribeResiduals(TableText(js, esm, on), files) == Success(m.residuals)
    requires m == Exported(identity, snapshot, tableBytes, m.residuals)
    ensures Parse(Render(m)) == Success(m)
    ensures Verify(m, identity, snapshot, tableBytes).None?
    ensures VerifyResiduals(m, TableText(js, esm, on), files).None?
  {
    BuiltSources(js, esm, on, files);
    ExportThenImport(m, identity, snapshot, tableBytes, TableSources(TableText(js, esm, on)), files);
  }

  lemma BuiltSources(js: seq<string>, esm: seq<string>, on: Platform, files: Files)
    requires PrintsPlain(on.printable)
    requires forall s :: s in js || s in esm ==> FileName(s) in files
    ensures var sources := TableSources(TableText(js, esm, on));
      OneLineNames(sources) && forall x :: x in sources ==> NameCheck(x).None? && x in files
  {
    TableRoundTrip(js, esm, on);
    NamesAreGood(Sort(js, Self), js, files);
    NamesAreGood(Sort(esm, Self), esm, files);
  }

  lemma NamesAreGood(sorted: seq<string>, specifiers: seq<string>, files: Files)
    requires sorted == Sort(specifiers, Self)
    requires forall s :: s in specifiers ==> FileName(s) in files
    ensures OneLineNames(FileNames(sorted))
    ensures forall x :: x in FileNames(sorted) ==> NameCheck(x).None? && x in files
  {
    SortKeepsMembers(specifiers, Self);
    forall i | 0 <= i < |sorted|
      ensures var x := FileNames(sorted)[i];
        '\t' !in x && '\n' !in x && NameCheck(x).None? && x in files
    {
      assert sorted[i] in sorted;
      FileNameIsPlain(sorted[i]);
      FileNamesAreAccepted(sorted[i]);
    }
  }

  // ---- copying ----

  function CopyProblem(name: string, source: Files): Option<Problem> {
    match NameCheck(name)
    case Some(why) => Some(BadName(name, why))
    case None => if name in source then None else Some(NoSource(name))
  }

  /** The output after copying `names` in turn, up to the first that cannot be copied. */
  function Copied(names: seq<string>, source: Files, output: Files): (Files, Option<Problem>) {
    if names == [] then (output, None)
    else
      match CopyProblem(names[0], source)
      case Some(p) => (output, Some(p))
      case None => Copied(names[1..], source, output[names[0] := source[names[0]]])
  }

  class Directory {
    var files: Files

    constructor (files: Files)
      ensures this.files == files
    {
      this.files := files;
    }

    method Write(name: string, contents: Contents)
      modifies this
      ensures files == old(files)[name := contents]
    {
      files := files[name := contents];
    }
  }

  /** The loop of `copy_verified_residuals`. */
  method CopyAll(names: seq<string>, source: Directory, output: Directory) returns (problem: Option<Problem>)
    requires source != output
    modifies output
    ensures (output.files, problem) == Copied(names, source.files, old(output.files))
  {
    var i := 0;
    while i < |names|
      invariant i <= |names|
      invariant Copied(names, source.files, old(output.files)) == Copied(names[i..], source.files, output.files)
    {
      assert names[i..][0] == names[i] && names[i..][1..] == names[i + 1..];
      problem := CopyProblem(names[i], source.files);
      if problem.Some? {
        return;
      }
      output.Write(names[i], source.files[names[i]]);
      i := i + 1;
    }
    problem := None;
  }

  /** `copy_verified_residuals`: copy every source of the table, then verify the copies. */
  method CopyVerifiedResiduals(m: Manifest, table: string, source: Directory, output: Directory)
    returns (problem: Option<Problem>)
    requires source != output
    modifies output
    ensures output.files == Copied(TableSources(table), source.files, old(output.files)).0
    ensures problem.None? <==> VerifyResiduals(m, table, source.files).None?
    ensures problem.None? ==> forall x :: x in TableSources(table) ==>
      x in source.files && x in output.files && output.files[x] == source.files[x]
    ensures forall x :: x !in TableSources(table) ==>
      (x in output.files <==> x in old(output.files))
      && (x in output.files ==> output.files[x] == old(output.files)[x])
  {
    CopyOutcome(m, TableSources(table), source.files, output.files);
    CopiedKeepsTheRest(TableSources(table), source.files, output.files);
    var sources := ReadSources(table);
    problem := CopyAll(sources, source, output);
    if problem.None? {
      problem := VerifyResiduals(m, table, output.files);
    }
  }

  lemma {:induction false} CopiedKeepsTheRest(names: seq<string>, source: Files, output: Files)
    ensures var after := Copied(names, source, output).0;
      forall x :: x !in names ==>
        (x in after <==> x in output) && (x in after ==> after[x] == output[x])
    decreases |names|
  {
    if names != [] && CopyProblem(names[0], source).None? {
      CopiedKeepsTheRest(names[1..], source, output[names[0] := source[names[0]]]);
      assert forall x :: x !in names ==> x != names[0] && x !in names[1..];
    }
  }

  lemma {:induction false} CopiedDelivers(names: seq<string>, source: Files, output: Files)
    ensures var (after, problem) := Copied(names, source, output);
      problem.None? <==> (forall x :: x in names ==> NameCheck(x).None? && x in source)
    ensures var (after, problem) := Copied(names, source, output);
      problem.None? ==> forall x :: x in names ==> x in after && after[x] == source[x]
    decreases |names|
  {
    if names != [] {
      assert forall x :: x in names <==> x == names[0] || x in names[1..];
      if CopyProblem(names[0], source).None? {
        var next := output[names[0] := source[names[0]]];
        CopiedDelivers(names[1..], source, next);
        CopiedKeepsTheRest(names[1..], source, next);
      }
    }
  }

  /** Copying and verifying the copies succeeds exactly when the source verifies. */
  lemma CopyOutcome(m: Manifest, sources: seq<string>, source: Files, output: Files)
    ensures var (after, problem) := Copied(sources, source, output);
      && (problem.None? && VerifySources(m, sources, after).None? <==> VerifySources(m, sources, source).None?)
      && (problem.None? ==> forall x :: x in sources ==> x in source && x in after && after[x] == source[x])
  {
    var (after, problem) := Copied(sources, source, output);
    CopiedDelivers(sources, source, output);
    VerifiedMeans(m, sources, source);
    VerifiedMeans(m, sources, after);
    if problem.None? {
      SameVerdict(m, sources, source, after);
    } else {
      VerifiedCopies(m, sources, source);
    }
  }

  lemma SameVerdict(m: Manifest, sources: seq<string>, source: Files, after: Files)
    requires forall x :: x in sources ==> x in source && x in after && after[x] == source[x]
    ensures SameNames(RecordedNames(m.residuals), sources) ==>
      forall i :: 0 <= i < |m.residuals| ==> (Matches(m.residuals[i], source) <==> Matches(m.residuals[i], after))
  {
    assert forall i :: 0 <= i < |m.residuals| ==> RecordedNames(m.residuals)[i] in RecordedNames(m.residuals);
  }

  lemma VerifiedCopies(m: Manifest, sources: seq<string>, source: Files)
    requires exists x :: x in sources && !(NameCheck(x).None? && x in source)
    ensures SameNames(RecordedNames(m.residuals), sources) ==>
      !(forall i :: 0 <= i < |m.residuals| ==> Matches(m.residuals[i], source))
  {
    var x :| x in sources && !(NameCheck(x).None? && x in source);
    if SameNames(RecordedNames(m.residuals), sources) {
      assert x in RecordedNames(m.residuals);
      var i :| 0 <= i < |m.residuals| && RecordedNames(m.residuals)[i] == x;
      assert !Matches(m.residuals[i], source);
    }
  }
}
