/**
  The residual source table: printed by build.rs (`write_residual_table`, the name
  sanitising of `transpile_residual_source`), read back by `table_sources` of
  build_support/snapshot_bundle.rs.
 */
module ResidualTable {
  import opened Fnv
  import opened Ordering
  import opened Sequences
  import opened Text
  import opened Wrappers

  // ---- names ----

  predicate Alphanumeric(c: char) {
    '0' <= c <= '9' || 'A' <= c <= 'Z' || 'a' <= c <= 'z'
  }

  function Sanitize(specifier: string): (r: string)
    ensures |r| == |specifier|
    ensures forall i :: 0 <= i < |r| ==> r[i] == if Alphanumeric(specifier[i]) then specifier[i] else '_'
  {
    if specifier == [] then []
    else [if Alphanumeric(specifier[0]) then specifier[0] else '_'] + Sanitize(specifier[1..])
  }

  const DIRECTORY: string := "residual_sources"

  /** What separates path components where the build runs. */
  type Separator = c: char | c == '/' || c == '\\' witness '/'

  /** Where the table is printed: the separator, and the Unicode table behind `{:?}`. */
  datatype Platform = Platform(separator: Separator, printable: char -> bool)

  function BaseName(specifier: string): string {
    Sanitize(specifier) + ".js"
  }

  /** The file a residual source is written to, relative to the output directory. */
  function RelativePath(specifier: string, separator: Separator): string {
    DIRECTORY + [separator] + BaseName(specifier)
  }

  /** The same file as a bundle names it, on every platform. */
  function FileName(specifier: string): string {
    DIRECTORY + "/" + BaseName(specifier)
  }

  function ForwardSlashes(path: string): (r: string)
    ensures |r| == |path|
    ensures forall i :: 0 <= i < |r| ==> r[i] == if path[i] == '\\' then '/' else path[i]
  {
    if path == [] then []
    else [if path[0] == '\\' then '/' else path[0]] + ForwardSlashes(path[1..])
  }

  function TablePath(rel: string): string {
    "/" + ForwardSlashes(rel)
  }

  // ---- printing ----

  /** How `{:?}` writes one character of a string; `printable` is the Unicode table behind it. */
  function DebugChar(c: char, printable: char -> bool): string {
    if c == '\t' then "\\t"
    else if c == '\r' then "\\r"
    else if c == '\n' then "\\n"
    else if c == '\0' then "\\0"
    else if c == '\\' then "\\\\"
    else if c == '"' then "\\\""
    else if printable(c) then [c]
    else "\\u{" + HexNumber(c as int) + "}"
  }

  function HexNumber(n: nat): string {
    if n < 16 then [HexDigit(n)] else HexNumber(n / 16) + [HexDigit(n % 16)]
  }

  function DebugChars(s: string, printable: char -> bool): string {
    if s == [] then "" else DebugChar(s[0], printable) + DebugChars(s[1..], printable)
  }

  function Debug(s: string, printable: char -> bool): string {
    "\"" + DebugChars(s, printable) + "\""
  }

  const MACRO: string := "include_str!"
  const DIRECTORY_ARGUMENT: string := "(concat!(env!(\"OUT_DIR\"), "

  /** What comes before the path in a row, up to its opening quote. */
  function RowStart(specifier: string, printable: char -> bool): string {
    "  (" + Debug(specifier, printable) + ", " + (MACRO + DIRECTORY_ARGUMENT)
  }

  function Row(specifier: string, on: Platform): string {
    RowStart(specifier, on.printable)
    + Debug(TablePath(RelativePath(specifier, on.separator)), on.printable) + "))),"
  }

  function RowPrinter(on: Platform): string -> string {
    specifier => Row(specifier, on)
  }

  function Rows(specifiers: seq<string>, on: Platform): seq<string> {
    Map(RowPrinter(on), specifiers)
  }

  function Opening(name: string): string {
    "pub static " + name + ": &[(&str, &str)] = &["
  }

  const ENDING: seq<string> := ["];", ""]

  /** One table: its opening, a row per specifier in order, its end and an empty line. */
  function Table(name: string, specifiers: seq<string>, on: Platform): seq<string> {
    [Opening(name)] + Rows(Sort(specifiers, Self), on) + ENDING
  }

  const BANNER: string := "// @generated by build.rs - do not edit."
  const HEADER: seq<string> := [BANNER, ""]

  function TableLines(js: seq<string>, esm: seq<string>, on: Platform): seq<string> {
    HEADER + Table("RESIDUAL_LAZY_JS", js, on) + Table("RESIDUAL_LAZY_ESM", esm, on)
  }

  function TableText(js: seq<string>, esm: seq<string>, on: Platform): string {
    Unlines(TableLines(js, esm, on))
  }

  /** `writeln!`. */
  method WriteLine(written: string, line: string) returns (text: string)
    ensures text == written + Unlines([line])
  {
    OneLine(line);
    text := written + line + "\n";
  }

  /** The loop of `write_residual_table`, `row` printing one entry. */
  method WriteRows(written: string, entries: seq<string>, row: string -> string) returns (text: string)
    ensures text == written + Unlines(Map(row, entries))
  {
    ghost var rows := Map(row, entries);
    text := written;
    var i := 0;
    while i < |entries|
      invariant i <= |entries|
      invariant text == written + Unlines(rows[..i])
    {
      UnlinesNext(written, rows, i);
      text := WriteLine(text, row(entries[i]));
      i := i + 1;
    }
    assert rows[..|rows|] == rows;
  }

  /** `write_residual_table`: appends one table to the text written so far. */
  method WriteTable(written: string, name: string, specifiers: seq<string>, on: Platform)
    returns (text: string)
    ensures text == written + Unlines(Table(name, specifiers, on))
  {
    var opening, entries := Opening(name), Sort(specifiers, Self);
    text := WriteLine(written, opening);
    text := WriteRows(text, entries, RowPrinter(on));
    text := WriteLine(text, "];\n");
    TableParts(written, opening, Rows(entries, on));
  }

  lemma TableParts(written: string, opening: string, rows: seq<string>)
    ensures written + Unlines([opening]) + Unlines(rows) + Unlines(["];\n"])
         == written + Unlines([opening] + rows + ENDING)
  {
    EndingText();
    UnlinesAppend([opening], rows);
    UnlinesAppend([opening] + rows, ENDING);
  }

  lemma UnlinesNext(written: string, lines: seq<string>, i: nat)
    requires i < |lines|
    ensures written + Unlines(lines[..i + 1]) == written + Unlines(lines[..i]) + Unlines([lines[i]])
  {
    assert lines[..i + 1] == lines[..i] + [lines[i]];
    UnlinesAppend(lines[..i], [lines[i]]);
  }

  lemma OneLine(line: string)
    ensures Unlines([line]) == line + "\n"
  {
    assert [line][1..] == [];
  }

  lemma EndingText()
    ensures Unlines(ENDING) == Unlines(["];\n"])
  {
    assert ENDING[1..] == [""];
    OneLine("");
    OneLine("];\n");
  }

  lemma {:induction false} UnlinesAppend(a: seq<string>, b: seq<string>)
    ensures Unlines(a + b) == Unlines(a) + Unlines(b)
    decreases |a|
  {
    if a == [] {
      assert a + b == b;
    } else {
      UnlinesAppend(a[1..], b);
      assert (a + b)[1..] == a[1..] + b;
    }
  }

  /** The whole generated file. */
  method WriteTables(js: seq<string>, esm: seq<string>, on: Platform) returns (text: string)
    ensures text == TableText(js, esm, on)
  {
    HeaderText();
    text := BANNER + "\n\n";
    text := WriteTable(text, "RESIDUAL_LAZY_JS", js, on);
    UnlinesAppend(HEADER, Table("RESIDUAL_LAZY_JS", js, on));
    text := WriteTable(text, "RESIDUAL_LAZY_ESM", esm, on);
    UnlinesAppend(HEADER + Table("RESIDUAL_LAZY_JS", js, on), Table("RESIDUAL_LAZY_ESM", esm, on));
  }

  lemma HeaderText()
    ensures Unlines(HEADER) == BANNER + "\n\n"
  {
    assert HEADER[1..] == [""];
    OneLine("");
  }

  // ---- reading ----

  predicate Contains(s: string, part: string) {
    |part| <= |s| && (part <= s || Contains(s[1..], part))
  }

  /** The last position of `c`, as `rfind`. */
  function FindLast(s: string, c: char): (r: Option<nat>)
    ensures r.Some? ==> r.value < |s| && s[r.value] == c
    ensures r.Some? ==> forall k :: r.value < k < |s| ==> s[k] != c
    ensures r.None? ==> forall k :: 0 <= k < |s| ==> s[k] != c
  {
    if s == [] then None
    else
      var last := |s| - 1;
      assert s == s[..last] + [s[last]];
      if s[last] == c then Some(last) else FindLast(s[..last], c)
  }

  function TrimSlashes(s: string): (r: string)
    ensures r == [] || r[0] != '/'
  {
    if s != [] && s[0] == '/' then TrimSlashes(s[1..]) else s
  }

  /** The file name in one line of the table, if the line includes one. */
  function Source(line: string): Option<string> {
    if !Contains(line, MACRO) then None
    else
      match FindLast(line, '"')
      case None => None
      case Some(end) =>
        match FindLast(line[..end], '"')
        case None => None
        case Some(start) => Some(TrimSlashes(line[start + 1..end]))
  }

  function Found(lines: seq<string>): seq<Option<string>> {
    Map(Source, lines)
  }

  function Kept(found: seq<Option<string>>): seq<string> {
    if found == [] then []
    else (if found[0].Some? then [found[0].value] else []) + Kept(found[1..])
  }

  function TableSources(table: string): seq<string> {
    Kept(Found(Lines(table)))
  }

  /** `table_sources`, the loop over the table's lines. */
  method ReadSources(table: string) returns (sources: seq<string>)
    ensures sources == TableSources(table)
  {
    var lines := Lines(table);
    ghost var found := Found(lines);
    sources := [];
    var i := 0;
    while i < |lines|
      invariant i <= |lines|
      invariant Kept(found) == sources + Kept(found[i..])
    {
      var source := Source(lines[i]);
      assert found[i..][0] == source && found[i..][1..] == found[i + 1..];
      if source.Some? {
        sources := sources + [source.value];
      }
      i := i + 1;
    }
  }

  // ---- the round trip ----

  predicate PlainName(s: string) {
    forall i :: 0 <= i < |s| ==> Alphanumeric(s[i]) || s[i] == '_' || s[i] == '.' || s[i] == '/'
  }

  /** Letters, digits and the three marks below are printable in Unicode. */
  ghost predicate PrintsPlain(printable: char -> bool) {
    forall c :: Alphanumeric(c) || c == '_' || c == '.' || c == '/' ==> printable(c)
  }

  lemma DirectoryIsPlain()
    ensures forall i :: 0 <= i < |DIRECTORY| ==> Alphanumeric(DIRECTORY[i]) || DIRECTORY[i] == '_'
  {
  }

  lemma FileNameIsPlain(specifier: string)
    ensures PlainName(FileName(specifier)) && FileName(specifier)[0] != '/'
  {
    DirectoryIsPlain();
  }

  /** Whatever the separator, the table holds the portable name. */
  lemma SeparatorIsNormalized(specifier: string, separator: Separator)
    ensures TablePath(RelativePath(specifier, separator)) == "/" + FileName(specifier)
  {
    DirectoryIsPlain();
    SlashesTurn(DIRECTORY, separator, BaseName(specifier));
  }

  lemma SlashesTurn(directory: string, separator: Separator, name: string)
    requires '\\' !in directory && '\\' !in name
    ensures ForwardSlashes(directory + [separator] + name) == directory + "/" + name
  {
    var path, turned := directory + [separator] + name, directory + "/" + name;
    forall i | 0 <= i < |path|
      ensures ForwardSlashes(path)[i] == turned[i]
    {
      assert i < |directory| ==> path[i] == directory[i] == turned[i];
      assert i > |directory| ==> path[i] == name[i - |directory| - 1] == turned[i];
    }
  }

  lemma {:induction false} DebugOfPlain(s: string, printable: char -> bool)
    requires PrintsPlain(printable)
    requires forall i :: 0 <= i < |s| ==> Alphanumeric(s[i]) || s[i] == '_' || s[i] == '.' || s[i] == '/'
    ensures DebugChars(s, printable) == s
  {
    if s != [] {
      DebugOfPlain(s[1..], printable);
      assert DebugChar(s[0], printable) == [s[0]];
    }
  }

  lemma {:induction false} HexHasNoBreak(n: nat)
    ensures '\n' !in HexNumber(n)
  {
    if n >= 16 {
      HexHasNoBreak(n / 16);
    }
  }

  lemma {:induction false} DebugHasNoBreak(s: string, printable: char -> bool)
    ensures '\n' !in DebugChars(s, printable)
  {
    if s != [] {
      DebugHasNoBreak(s[1..], printable);
      HexHasNoBreak(s[0] as int);
    }
  }

  lemma LastIsAt(w: string, c: char, rest: string)
    requires c !in rest
    ensures FindLast(w + [c] + rest, c) == Some(|w|)
  {
    var s := w + [c] + rest;
    assert s[|w|] == c;
    assert s[|w| + 1..] == rest;
    assert forall k :: |w| < k < |s| ==> s[k] == rest[k - |w| - 1];
    LastOne(s, c, |w|);
  }

  lemma LastOne(s: string, c: char, i: nat)
    requires i < |s| && s[i] == c && forall k :: i < k < |s| ==> s[k] != c
    ensures FindLast(s, c) == Some(i)
  {
  }

  lemma {:induction false} ContainsInside(a: string, part: string, b: string)
    ensures Contains(a + part + b, part)
  {
    var s := a + part + b;
    if a == [] {
      assert s == part + b;
    } else {
      ContainsInside(a[1..], part, b);
      assert s[1..] == a[1..] + part + b;
    }
  }

  lemma {:induction false} ContainsNeeds(s: string, part: string, c: char)
    requires c in part && c !in s
    ensures !Contains(s, part)
  {
    var i :| 0 <= i < |part| && part[i] == c;
    if |part| <= |s| {
      assert s[i] != part[i];
      ContainsNeeds(s[1..], part, c);
    }
  }

  lemma RowSplits(specifier: string, on: Platform)
    requires PrintsPlain(on.printable)
    ensures Row(specifier, on)
         == RowStart(specifier, on.printable) + ['"'] + ("/" + FileName(specifier)) + ['"'] + "))),"
  {
    FileNameIsPlain(specifier);
    SeparatorIsNormalized(specifier, on.separator);
    DebugOfPlain("/" + FileName(specifier), on.printable);
  }

  lemma QuotedSource(before: string, path: string, after: string)
    requires '"' !in path && '"' !in after
    requires Contains(before + ['"'] + path + ['"'] + after, MACRO)
    ensures Source(before + ['"'] + path + ['"'] + after) == Some(TrimSlashes(path))
  {
    var line := before + ['"'] + path + ['"'] + after;
    var end := |before| + 1 + |path|;
    LastIsAt(before + ['"'] + path, '"', after);
    assert line[..end] == before + ['"'] + path;
    LastIsAt(before, '"', path);
    assert line[|before| + 1..end] == path;
  }

  lemma RowStartHasMacro(specifier: string, printable: char -> bool, rest: string)
    ensures Contains(RowStart(specifier, printable) + rest, MACRO)
  {
    MacroInside("  (" + Debug(specifier, printable) + ", ", DIRECTORY_ARGUMENT, rest);
  }

  lemma MacroInside(before: string, tail: string, rest: string)
    ensures Contains(before + (MACRO + tail) + rest, MACRO)
  {
    ContainsInside(before, MACRO, tail + rest);
    assert before + (MACRO + tail) + rest == before + MACRO + (tail + rest);
  }

  lemma OneSlash(name: string)
    requires name == [] || name[0] != '/'
    ensures TrimSlashes("/" + name) == name
  {
    assert ("/" + name)[1..] == name;
  }

  /** A printed row names exactly its specifier's file. */
  lemma RowSource(specifier: string, on: Platform)
    requires PrintsPlain(on.printable)
    ensures Source(Row(specifier, on)) == Some(FileName(specifier))
  {
    FileNameIsPlain(specifier);
    RowSplits(specifier, on);
    LaidOutSource(specifier, RowStart(specifier, on.printable), FileName(specifier), "))),", on.printable);
  }

  lemma LaidOutSource(specifier: string, start: string, name: string, after: string, printable: char -> bool)
    requires start == RowStart(specifier, printable)
    requires PlainName(name) && (name == [] || name[0] != '/') && '"' !in after
    ensures Source(start + ['"'] + ("/" + name) + ['"'] + after) == Some(name)
  {
    var path := "/" + name;
    var rest := ['"'] + path + ['"'] + after;
    assert start + ['"'] + path + ['"'] + after == start + rest;
    RowStartHasMacro(specifier, printable, rest);
    OneSlash(name);
    QuotedSource(start, path, after);
  }

  lemma RowIsClean(specifier: string, on: Platform)
    requires PrintsPlain(on.printable)
    ensures Clean(Row(specifier, on))
  {
    var start, name := RowStart(specifier, on.printable), FileName(specifier);
    FileNameIsPlain(specifier);
    RowSplits(specifier, on);
    RowStartIsClean(specifier, on.printable);
    QuotedIsClean(start, "/" + name, "))),");
  }

  lemma QuotedIsClean(start: string, path: string, end: string)
    requires '\n' !in start && '\n' !in path && '\n' !in end && end != [] && end[|end| - 1] != '\r'
    ensures Clean(start + ['"'] + path + ['"'] + end)
  {
    NoBreakInside(start, ['"']);
    NoBreakInside(start + ['"'], path);
    NoBreakInside(start + ['"'] + path, ['"']);
    EndIsClean(start + ['"'] + path + ['"'], end);
  }

  lemma RowStartIsClean(specifier: string, printable: char -> bool)
    ensures '\n' !in RowStart(specifier, printable)
  {
    DebugHasNoBreak(specifier, printable);
    IncludeIsClean();
    RowStartOf(Debug(specifier, printable), MACRO + DIRECTORY_ARGUMENT);
  }

  lemma IncludeIsClean()
    ensures '\n' !in MACRO + DIRECTORY_ARGUMENT
  {
  }

  lemma RowStartOf(quoted: string, call: string)
    requires '\n' !in quoted && '\n' !in call
    ensures '\n' !in "  (" + quoted + ", " + call
  {
    NoBreakInside("  (", quoted);
    NoBreakInside("  (" + quoted, ", ");
  }

  lemma NoBreakInside(a: string, b: string)
    requires '\n' !in a && '\n' !in b
    ensures '\n' !in a + b
  {
  }

  lemma EndIsClean(a: string, b: string)
    requires '\n' !in a && '\n' !in b && b != [] && b[|b| - 1] != '\r'
    ensures Clean(a + b)
  {
  }

  /** A line without `!` includes nothing. */
  lemma QuietLine(line: string)
    requires '!' !in line && '\n' !in line && '\r' !in line
    ensures Clean(line) && Source(line).None?
  {
    assert MACRO[11] == '!';
    ContainsNeeds(line, MACRO, '!');
  }

  ghost predicate Quiet(lines: seq<string>) {
    forall i :: 0 <= i < |lines| ==> Clean(lines[i]) && Source(lines[i]).None?
  }

  lemma BannerLacks(c: char)
    requires c == '!' || c == '\n' || c == '\r'
    ensures c !in BANNER
  {
  }

  lemma QuietPair(a: string, b: string)
    requires '!' !in a && '\n' !in a && '\r' !in a
    requires '!' !in b && '\n' !in b && '\r' !in b
    ensures Quiet([a, b])
  {
    QuietLine(a);
    QuietLine(b);
  }

  lemma HeaderIsQuiet()
    ensures Quiet(HEADER)
  {
    BannerLacks('!');
    BannerLacks('\n');
    BannerLacks('\r');
    QuietPair(BANNER, "");
  }

  lemma EndingIsQuiet()
    ensures Quiet(ENDING)
  {
    QuietPair("];", "");
  }

  lemma OpeningIsQuiet(name: string)
    requires '!' !in name && '\n' !in name && '\r' !in name
    ensures Quiet([Opening(name)])
  {
    QuietLine(Opening(name));
  }

  function FileNames(specifiers: seq<string>): seq<string> {
    Map(FileName, specifiers)
  }

  /** The lines are clean and, read in turn, name exactly `names`. */
  ghost predicate Names(lines: seq<string>, names: seq<string>) {
    && AllClean(lines)
    && Kept(Found(lines)) == names
  }

  lemma {:induction false} KeptAppend(a: seq<Option<string>>, b: seq<Option<string>>)
    ensures Kept(a + b) == Kept(a) + Kept(b)
    decreases |a|
  {
    if a == [] {
      assert a + b == b;
    } else {
      KeptAppend(a[1..], b);
      assert (a + b)[1..] == a[1..] + b;
    }
  }

  lemma NamesAppend(a: seq<string>, m: seq<string>, b: seq<string>, n: seq<string>)
    requires Names(a, m) && Names(b, n)
    ensures Names(a + b, m + n)
  {
    KeptAppend(Found(a), Found(b));
    MapAppend(Source, a, b);
    CleanAppend(a, b);
  }

  ghost predicate AllClean(lines: seq<string>) {
    forall i :: 0 <= i < |lines| ==> Clean(lines[i])
  }

  lemma CleanAppend(a: seq<string>, b: seq<string>)
    requires AllClean(a) && AllClean(b)
    ensures AllClean(a + b)
  {
  }

  lemma {:induction false} KeptNothing(found: seq<Option<string>>)
    requires forall i :: 0 <= i < |found| ==> found[i].None?
    ensures Kept(found) == []
  {
    if found != [] {
      KeptNothing(found[1..]);
    }
  }

  lemma {:induction false} KeptAll(found: seq<Option<string>>, names: seq<string>)
    requires |found| == |names| && forall i :: 0 <= i < |found| ==> found[i] == Some(names[i])
    ensures Kept(found) == names
  {
    if found != [] {
      KeptAll(found[1..], names[1..]);
    }
  }

  lemma QuietNamesNothing(lines: seq<string>)
    requires Quiet(lines)
    ensures Names(lines, [])
  {
    KeptNothing(Found(lines));
  }

  lemma RowsName(specifiers: seq<string>, on: Platform)
    requires PrintsPlain(on.printable)
    ensures Names(Rows(specifiers, on), FileNames(specifiers))
  {
    var rows := Rows(specifiers, on);
    forall i | 0 <= i < |rows|
      ensures Clean(rows[i]) && Found(rows)[i] == Some(FileNames(specifiers)[i])
    {
      RowSource(specifiers[i], on);
      RowIsClean(specifiers[i], on);
    }
    KeptAll(Found(rows), FileNames(specifiers));
  }

  lemma TableNames(name: string, specifiers: seq<string>, on: Platform)
    requires PrintsPlain(on.printable) && '!' !in name && '\n' !in name && '\r' !in name
    ensures Names(Table(name, specifiers, on), FileNames(Sort(specifiers, Self)))
  {
    OpeningIsQuiet(name);
    EndingIsQuiet();
    RowsName(Sort(specifiers, Self), on);
    FramedNames([Opening(name)], Rows(Sort(specifiers, Self), on), FileNames(Sort(specifiers, Self)), ENDING);
  }

  lemma FramedNames(before: seq<string>, lines: seq<string>, names: seq<string>, after: seq<string>)
    requires Quiet(before) && Names(lines, names) && Quiet(after)
    ensures Names(before + lines + after, names)
  {
    QuietNamesNothing(before);
    QuietNamesNothing(after);
    NamesAppend(before, [], lines, names);
    NamesAppend(before + lines, [] + names, after, []);
    assert [] + names + [] == names;
  }

  /**
    Reading the printed tables gives exactly the portable file names: both tables
    in turn, each in specifier order, one per entry, whatever the build's separator.
   */
  lemma TableRoundTrip(js: seq<string>, esm: seq<string>, on: Platform)
    requires PrintsPlain(on.printable)
    ensures TableSources(TableText(js, esm, on))
         == FileNames(Sort(js, Self)) + FileNames(Sort(esm, Self))
  {
    TableNames("RESIDUAL_LAZY_JS", js, on);
    TableNames("RESIDUAL_LAZY_ESM", esm, on);
    HeaderIsQuiet();
    TablesRead(HEADER,
      Table("RESIDUAL_LAZY_JS", js, on), FileNames(Sort(js, Self)),
      Table("RESIDUAL_LAZY_ESM", esm, on), FileNames(Sort(esm, Self)));
  }

  lemma TablesRead(header: seq<string>, a: seq<string>, m: seq<string>, b: seq<string>, n: seq<string>)
    requires Quiet(header) && Names(a, m) && Names(b, n)
    ensures TableSources(Unlines(header + a + b)) == m + n
  {
    QuietNamesNothing(header);
    NamesAppend(header, [], a, m);
    NamesAppend(header + a, [] + m, b, n);
    assert [] + m == m;
    LinesOfUnlines(header + a + b);
  }

  /** The specifier order is the sort's: ordered, and the same entries. */
  lemma SpecifierOrder(specifiers: seq<string>)
    ensures Ordered(Sort(specifiers, Self), Self)
    ensures multiset(Sort(specifiers, Self)) == multiset(specifiers)
  {
    SortOrders(specifiers, Self);
  }
}
