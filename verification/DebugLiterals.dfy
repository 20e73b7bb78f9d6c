/**
  The string literals `{:?}` prints in the residual table (build.rs), read back by the rules
  of the Rust reference for string literals ("Tokens", character and string literals).
 */
module DebugLiterals {
  import opened Fnv
  import opened ResidualTable
  import opened Text
  import opened Wrappers

  // ---- reading a literal ----

  function DigitValue(c: char): Option<nat> {
    if '0' <= c <= '9' then Some(c as int - '0' as int)
    else if 'a' <= c <= 'f' then Some(c as int - 'a' as int + 10)
    else None
  }

  /** The digits of `\u{...}` up to the closing brace, after `high`. */
  function ReadHex(s: string, high: nat): Option<(nat, string)> {
    if s == "" then None
    else if s[0] == '}' then Some((high, s[1..]))
    else
      match DigitValue(s[0])
      case None => None
      case Some(d) => ReadHex(s[1..], 16 * high + d)
  }

  predicate IsScalar(n: nat) {
    n < 0xD800 || 0xE000 <= n < 0x11_0000
  }

  /** What follows a backslash: one character, and the rest. */
  function ReadEscape(s: string): Option<(char, string)> {
    if s == "" then None
    else if s[0] == 't' then Some(('\t', s[1..]))
    else if s[0] == 'r' then Some(('\r', s[1..]))
    else if s[0] == 'n' then Some(('\n', s[1..]))
    else if s[0] == '0' then Some(('\0', s[1..]))
    else if s[0] == '\\' then Some(('\\', s[1..]))
    else if s[0] == '"' then Some(('"', s[1..]))
    else if s[0] == 'u' && |s| > 1 && s[1] == '{' then
      match ReadHex(s[2..], 0)
      case None => None
      case Some((n, rest)) => if IsScalar(n) then Some((n as char, rest)) else None
    else None
  }

  /** One character of a literal, escaped or not; `None` at the closing quote. */
  function ReadChar(s: string): Option<(char, string)> {
    if s == "" || s[0] == '"' then None
    else if s[0] == '\\' then ReadEscape(s[1..])
    else Some((s[0], s[1..]))
  }

  /** `s` starts with the inside of a literal that spells `text`, its closing quote, and `rest`. */
  predicate Reads(s: string, text: string, rest: string)
    decreases |text|
  {
    if text == "" then s == "\"" + rest
    else ReadChar(s).Some? && ReadChar(s).value.0 == text[0] && Reads(ReadChar(s).value.1, text[1..], rest)
  }

  // ---- printing, then reading ----

  lemma DigitReads(d: nat)
    requires d < 16
    ensures DigitValue(HexDigit(d)) == Some(d) && HexDigit(d) != '}'
  {
  }

  lemma {:induction false} HexReads(n: nat, high: nat, tail: string) returns (shift: nat)
    ensures ReadHex(HexNumber(n) + tail, high) == ReadHex(tail, high * shift + n)
    ensures shift > 0
  {
    DigitReads(n % 16);
    if n < 16 {
      shift := 16;
      HeadOf(HexDigit(n), tail);
    } else {
      var last := [HexDigit(n % 16)] + tail;
      var before := HexReads(n / 16, high, last);
      shift := 16 * before;
      HeadOf(HexDigit(n % 16), tail);
      assert HexNumber(n) + tail == HexNumber(n / 16) + last;
      Shifted(high, before, n);
    }
  }

  lemma Shifted(high: nat, before: nat, n: nat)
    ensures 16 * (high * before + n / 16) + n % 16 == high * (16 * before) + n
  {
  }

  lemma HeadOf(c: char, tail: string)
    ensures ([c] + tail)[0] == c && ([c] + tail)[1..] == tail
  {
  }

  lemma UnicodeReads(c: char, tail: string)
    ensures ReadEscape("u{" + HexNumber(c as int) + "}" + tail) == Some((c, tail))
  {
    var digits := HexNumber(c as int) + ("}" + tail);
    var s := "u{" + HexNumber(c as int) + "}" + tail;
    assert s == "u{" + digits;
    assert s[2..] == digits;
    var shift := HexReads(c as int, 0, "}" + tail);
    HeadOf('}', tail);
  }

  lemma CharReads(c: char, printable: char -> bool, tail: string)
    ensures ReadChar(DebugChar(c, printable) + tail) == Some((c, tail))
  {
    var printed := DebugChar(c, printable);
    if |printed| == 1 {
      HeadOf(c, tail);
    } else if |printed| == 2 {
      assert printed + tail == [printed[0]] + ([printed[1]] + tail);
      HeadOf(printed[0], [printed[1]] + tail);
      HeadOf(printed[1], tail);
    } else {
      UnicodeReads(c, tail);
      assert printed + tail == ['\\'] + ("u{" + HexNumber(c as int) + "}" + tail);
      HeadOf('\\', "u{" + HexNumber(c as int) + "}" + tail);
    }
  }

  /** A printed literal spells exactly the text it was printed from, whatever that holds. */
  lemma {:induction false} DebugReads(s: string, printable: char -> bool, rest: string)
    ensures Reads(DebugChars(s, printable) + "\"" + rest, s, rest)
    decreases |s|
  {
    if s != "" {
      var tail := DebugChars(s[1..], printable) + "\"" + rest;
      assert DebugChars(s, printable) + "\"" + rest == DebugChar(s[0], printable) + tail;
      CharReads(s[0], printable, tail);
      DebugReads(s[1..], printable, rest);
    }
  }

  /** A literal spells one text only. */
  lemma {:induction false} ReadsOnce(s: string, text: string, rest: string, other: string, more: string)
    requires Reads(s, text, rest) && Reads(s, other, more)
    ensures text == other && rest == more
    decreases |text|
  {
    if text == "" {
      assert s[0] == '"' && s[1..] == rest;
      if other == "" {
        assert s[1..] == more;
      }
    } else if other != "" {
      ReadsOnce(ReadChar(s).value.1, text[1..], rest, other[1..], more);
      assert text == [text[0]] + text[1..] && other == [other[0]] + other[1..];
    }
  }

  // ---- rows ----

  lemma DebugOpens(s: string, printable: char -> bool, before: string, after: string)
    ensures before + Debug(s, printable) + after == before + "\"" + (DebugChars(s, printable) + "\"" + after)
  {
  }

  /**
    A row of the table is the pair of its own specifier and of the file `residual_sources/`
    plus its sanitised name, as Rust reads the two literals, on either platform.
   */
  lemma RowSpells(specifier: string, on: Platform) returns (first: string, second: string)
    ensures Row(specifier, on) == "  (" + "\"" + first
    ensures Reads(first, specifier, ", " + (MACRO + DIRECTORY_ARGUMENT) + "\"" + second)
    ensures Reads(second, "/" + FileName(specifier), "))),")
  {
    var path := TablePath(RelativePath(specifier, on.separator));
    SeparatorIsNormalized(specifier, on.separator);
    second := DebugChars(path, on.printable) + "\"" + "))),";
    DebugReads(path, on.printable, "))),");
    var middle := ", " + (MACRO + DIRECTORY_ARGUMENT);
    first := DebugChars(specifier, on.printable) + "\"" + (middle + "\"" + second);
    DebugReads(specifier, on.printable, middle + "\"" + second);
    DebugOpens(path, on.printable, middle, "))),");
    DebugOpens(specifier, on.printable, "  (", middle + Debug(path, on.printable) + "))),");
    RowIs(specifier, on, middle, path);
  }

  lemma RowIs(specifier: string, on: Platform, middle: string, path: string)
    requires middle == ", " + (MACRO + DIRECTORY_ARGUMENT) && path == TablePath(RelativePath(specifier, on.separator))
    ensures Row(specifier, on)
         == "  (" + Debug(specifier, on.printable) + (middle + Debug(path, on.printable) + "))),")
  {
    var quoted, macro, target := Debug(specifier, on.printable), MACRO + DIRECTORY_ARGUMENT, Debug(path, on.printable);
    Regroup("  (" + quoted, ", ", macro);
    Regroup("  (" + quoted, middle, target);
    Regroup("  (" + quoted, middle + target, "))),");
  }

  /** Different specifiers have different rows. */
  lemma RowsDiffer(a: string, b: string, on: Platform)
    requires Row(a, on) == Row(b, on)
    ensures a == b
  {
    var first, second := RowSpells(a, on);
    var other, more := RowSpells(b, on);
    AfterQuote(first);
    AfterQuote(other);
    ReadsOnce(first, a, ", " + (MACRO + DIRECTORY_ARGUMENT) + "\"" + second,
              b, ", " + (MACRO + DIRECTORY_ARGUMENT) + "\"" + more);
  }

  lemma AfterQuote(first: string)
    ensures ("  (" + "\"" + first)[4..] == first
  {
  }
}
