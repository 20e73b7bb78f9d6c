/**
  The pieces of Rust's string library the bundle code relies on: `lines`, `split`,
  `trim`, decimal printing and `usize` parsing.
 */
module Text {
  import opened Wrappers

  const USIZE_MAX: nat := 0xFFFF_FFFF_FFFF_FFFF

  type usize = n: nat | n <= USIZE_MAX witness 0

  // ---- searching ----

  /** The position of the first `c`, or the length when there is none. */
  function Find(s: string, c: char): (i: nat)
    ensures i <= |s| && c !in s[..i]
    ensures forall k :: 0 <= k < i ==> s[k] != c
    ensures i < |s| ==> s[i] == c
  {
    if s == [] then 0
    else if s[0] == c then 0
    else
      var i := 1 + Find(s[1..], c);
      assert s[..i] == [s[0]] + s[1..][..i - 1];
      i
  }

  lemma FindFirst(w: string, c: char, rest: string)
    requires c !in w
    ensures Find(w + [c] + rest, c) == |w|
  {
    var s := w + [c] + rest;
    var i := Find(s, c);
    assert s[|w|] == c;
    assert forall k :: 0 <= k < |w| ==> s[k] == w[k] != c;
  }

  lemma FindNone(w: string, c: char)
    requires c !in w
    ensures Find(w, c) == |w|
  {
  }

  // ---- split ----

  /** `split(c)`: always at least one part. */
  function Split(s: string, c: char): (parts: seq<string>)
    ensures parts != []
    ensures forall p :: p in parts ==> c !in p
  {
    var i := Find(s, c);
    if i == |s| then
      assert s[..i] == s;
      [s]
    else [s[..i]] + Split(s[i + 1..], c)
  }

  lemma SplitFirst(w: string, c: char, rest: string)
    requires c !in w
    ensures Split(w + [c] + rest, c) == [w] + Split(rest, c)
  {
    var s := w + [c] + rest;
    FindFirst(w, c, rest);
    assert s[..|w|] == w && s[|w| + 1..] == rest;
  }

  lemma SplitNone(w: string, c: char)
    requires c !in w
    ensures Split(w, c) == [w]
  {
    FindNone(w, c);
  }

  /** The parts with `c` between them, the inverse of `Split`. */
  function Join(parts: seq<string>, c: char): string
    requires parts != []
  {
    if |parts| == 1 then parts[0] else parts[0] + [c] + Join(parts[1..], c)
  }

  lemma {:induction false} JoinOfSplit(s: string, c: char)
    ensures Join(Split(s, c), c) == s
    decreases |s|
  {
    var i := Find(s, c);
    if i < |s| {
      var first, rest := s[..i], s[i + 1..];
      CutAt(s, i);
      JoinOfSplit(rest, c);
      JoinStep(s, first, rest, Split(rest, c), c);
    }
  }

  lemma CutAt(s: string, i: nat)
    requires i < |s|
    ensures s == s[..i] + [s[i]] + s[i + 1..]
  {
  }

  lemma JoinStep(s: string, first: string, rest: string, parts: seq<string>, c: char)
    requires s == first + [c] + rest && parts != [] && Join(parts, c) == rest
    ensures Join([first] + parts, c) == s
  {
    JoinFirst(first, parts, c);
  }

  lemma JoinFirst(first: string, rest: seq<string>, c: char)
    requires rest != []
    ensures Join([first] + rest, c) == first + [c] + Join(rest, c)
  {
    assert ([first] + rest)[1..] == rest;
  }

  // ---- lines ----

  /** One `\r` before the line break is part of the break. */
  function StripCr(s: string): string {
    if s != [] && s[|s| - 1] == '\r' then s[..|s| - 1] else s
  }

  function Lines(text: string): seq<string> {
    if text == [] then []
    else
      var i := Find(text, '\n');
      if i == |text| then [text]
      else [StripCr(text[..i])] + Lines(text[i + 1..])
  }

  /** `lines` each followed by a line break. */
  function Unlines(lines: seq<string>): string {
    if lines == [] then "" else lines[0] + ['\n'] + Unlines(lines[1..])
  }

  /** Lines with no break inside and no `\r` at the end come back as they were. */
  predicate Clean(line: string) {
    '\n' !in line && StripCr(line) == line
  }

  lemma {:induction false} LinesOfUnlines(lines: seq<string>)
    requires forall i :: 0 <= i < |lines| ==> Clean(lines[i])
    ensures Lines(Unlines(lines)) == lines
  {
    if lines != [] {
      LinesOfUnlines(lines[1..]);
      LinesFirst(lines[0], Unlines(lines[1..]));
    }
  }

  lemma LinesFirst(w: string, rest: string)
    requires Clean(w)
    ensures Lines(w + ['\n'] + rest) == [w] + Lines(rest)
  {
    var text := w + ['\n'] + rest;
    FindFirst(w, '\n', rest);
    assert text[..|w|] == w && text[|w| + 1..] == rest;
  }

  lemma {:induction false} LinesHaveNoBreak(text: string)
    ensures forall line :: line in Lines(text) ==> '\n' !in line
    decreases |text|
  {
    if text != [] {
      var i := Find(text, '\n');
      if i == |text| {
        assert text[..i] == text;
      } else {
        LinesHaveNoBreak(text[i + 1..]);
      }
    }
  }

  // ---- trim ----

  /** The Unicode White_Space property, which `str::trim` uses. */
  predicate White(c: char) {
    var n := c as int;
    || 9 <= n <= 13 || n == 0x20 || n == 0x85 || n == 0xA0 || n == 0x1680
    || 0x2000 <= n <= 0x200A || n == 0x2028 || n == 0x2029 || n == 0x202F
    || n == 0x205F || n == 0x3000
  }

  function TrimEnd(s: string): (r: string)
    ensures r <= s
    ensures r == [] || !White(r[|r| - 1])
  {
    if s != [] && White(s[|s| - 1]) then TrimEnd(s[..|s| - 1]) else s
  }

  function TrimStart(s: string): (r: string)
    ensures |r| <= |s| && r == s[|s| - |r|..]
    ensures r == [] || !White(r[0])
  {
    if s != [] && White(s[0]) then TrimStart(s[1..]) else s
  }

  function Trim(s: string): (r: string)
    ensures r == [] || (!White(r[0]) && !White(r[|r| - 1]))
    ensures forall c :: c in r ==> c in s
  {
    var t := TrimEnd(s);
    var r := TrimStart(t);
    assert r != [] ==> r[|r| - 1] == t[|t| - 1];
    r
  }

  predicate AllWhite(s: string) {
    forall i :: 0 <= i < |s| ==> White(s[i])
  }

  lemma {:induction false} TrimEndStrips(s: string)
    ensures AllWhite(s[|TrimEnd(s)|..])
  {
    if s != [] && White(s[|s| - 1]) {
      TrimEndStrips(s[..|s| - 1]);
    }
  }

  lemma {:induction false} TrimStartStrips(s: string)
    ensures AllWhite(s[..|s| - |TrimStart(s)|])
  {
    if s != [] && White(s[0]) {
      TrimStartStrips(s[1..]);
    }
  }

  /** `trim` takes off white space at both ends, all of it and nothing else. */
  lemma TrimMeans(s: string) returns (before: string, after: string)
    ensures s == before + Trim(s) + after && AllWhite(before) && AllWhite(after)
    ensures Trim(s) == [] || (!White(Trim(s)[0]) && !White(Trim(s)[|Trim(s)| - 1]))
  {
    var t := TrimEnd(s);
    before, after := t[..|t| - |TrimStart(t)|], s[|t|..];
    TrimEndStrips(s);
    TrimStartStrips(t);
    FrontAndBack(s, |t|);
    FrontAndBack(t, |t| - |TrimStart(t)|);
  }

  lemma FrontAndBack(s: string, i: nat)
    requires i <= |s|
    ensures s == s[..i] + s[i..]
  {
  }

  // ---- numbers ----

  function Digit(d: nat): char
    requires d < 10
  {
    "0123456789"[d]
  }

  /** `{}` of an unsigned number. */
  function Decimal(n: nat): string {
    if n < 10 then [Digit(n)] else Decimal(n / 10) + [Digit(n % 10)]
  }

  predicate IsDigit(c: char) {
    '0' <= c <= '9'
  }

  lemma DigitIsDigit(d: nat)
    requires d < 10
    ensures IsDigit(Digit(d)) && Digit(d) as int - '0' as int == d
  {
  }

  lemma {:induction false} DecimalIsDigits(n: nat)
    ensures Decimal(n) != [] && forall i :: 0 <= i < |Decimal(n)| ==> IsDigit(Decimal(n)[i])
  {
    DigitIsDigit(n % 10);
    if n >= 10 {
      DecimalIsDigits(n / 10);
    }
  }

  /** The value of a run of digits; `None` on any other character. */
  function Value(s: string): Option<nat> {
    if s == [] then Some(0)
    else
      var c := s[|s| - 1];
      match Value(s[..|s| - 1])
      case None => None
      case Some(high) =>
        if IsDigit(c) then Some(10 * high + (c as int - '0' as int)) else None
  }

  /** `str::parse::<usize>`: an optional `+`, then at least one digit, in range. */
  function ParseUsize(s: string): Option<usize> {
    var digits := if s != [] && s[0] == '+' then s[1..] else s;
    if digits == [] then None
    else
      match Value(digits)
      case None => None
      case Some(n) => if n <= USIZE_MAX then Some(n) else None
  }

  lemma {:induction false} ValueOfDecimal(n: nat)
    ensures Value(Decimal(n)) == Some(n)
  {
    var r := Decimal(n);
    DigitIsDigit(n % 10);
    if n < 10 {
      assert r[..0] == [];
      assert r[|r| - 1] == Digit(n);
    } else {
      ValueOfDecimal(n / 10);
      assert r[..|r| - 1] == Decimal(n / 10);
      assert r[|r| - 1] == Digit(n % 10);
    }
  }

  lemma ParseOfDecimal(n: usize)
    ensures ParseUsize(Decimal(n)) == Some(n)
  {
    ValueOfDecimal(n);
    DecimalIsDigits(n);
  }

  // ---- exactly which texts are numbers ----

  function Zeros(k: nat): string {
    if k == 0 then "" else Zeros(k - 1) + ['0']
  }

  lemma {:induction false} ValueOfZeros(k: nat)
    ensures Value(Zeros(k)) == Some(0) && |Zeros(k)| == k
  {
    if k > 0 {
      ValueOfZeros(k - 1);
      assert Zeros(k)[..k - 1] == Zeros(k - 1);
    }
  }

  lemma ValueOfMore(s: string, c: char)
    ensures Value(s + [c]) ==
      if Value(s).Some? && IsDigit(c) then Some(10 * Value(s).value + (c as int - '0' as int)) else None
  {
    assert (s + [c])[..|s|] == s;
  }

  lemma {:induction false} ValueOfPadded(k: nat, n: nat)
    ensures Value(Zeros(k) + Decimal(n)) == Some(n)
  {
    DigitIsDigit(n % 10);
    ValueOfZeros(k);
    if n < 10 {
      ValueOfMore(Zeros(k), Digit(n));
    } else {
      ValueOfPadded(k, n / 10);
      ValueOfMore(Zeros(k) + Decimal(n / 10), Digit(n % 10));
      Regroup(Zeros(k), Decimal(n / 10), [Digit(n % 10)]);
    }
  }

  lemma Regroup(a: string, b: string, c: string)
    ensures a + (b + c) == (a + b) + c
  {
  }

  predicate PaddedBy(s: string, k: nat, n: nat) {
    s == Zeros(k) + Decimal(n)
  }

  /** A run of digits is its value in decimal, after leading zeros. */
  lemma {:induction false} ValueIsPadded(s: string, n: nat) returns (k: nat)
    requires s != "" && Value(s) == Some(n)
    ensures PaddedBy(s, k, n)
  {
    var front, c := s[..|s| - 1], s[|s| - 1];
    assert s == front + [c];
    var high := LastDigit(s, front, c, n);
    if front == "" {
      k := 0;
      OneDigit(s, c, n);
    } else {
      k := ValueIsPadded(front, high);
      k := OneMoreDigit(s, front, k, high, c, n);
    }
  }

  lemma LastDigit(s: string, front: string, c: char, n: nat) returns (high: nat)
    requires s == front + [c] && Value(s) == Some(n)
    ensures IsDigit(c) && Value(front) == Some(high) && n == 10 * high + (c as int - '0' as int)
  {
    ValueOfMore(front, c);
    high := Value(front).value;
  }

  lemma OneDigit(s: string, c: char, n: nat)
    requires IsDigit(c) && s == [c] && n == c as int - '0' as int
    ensures PaddedBy(s, 0, n)
  {
    DigitIsDigit(n);
  }

  lemma OneMoreDigit(s: string, front: string, k: nat, high: nat, c: char, n: nat) returns (k': nat)
    requires s == front + [c] && PaddedBy(front, k, high)
    requires IsDigit(c) && n == 10 * high + (c as int - '0' as int)
    ensures PaddedBy(s, k', n)
  {
    DigitIsDigit(n % 10);
    if high == 0 {
      k' := k + 1;
    } else {
      k' := k;
      Regroup(Zeros(k), Decimal(high), [c]);
    }
  }

  predicate Padded(s: string, n: nat) {
    exists k :: 0 <= k <= |s| && PaddedBy(s, k, n)
  }

  /** `parse::<usize>` takes exactly the decimal forms of 64-bit numbers, with leading zeros and at most one `+`. */
  lemma ParseUsizeMeans(s: string, n: usize)
    ensures ParseUsize(s) == Some(n) <==> Padded(s, n) || (s != "" && s[0] == '+' && Padded(s[1..], n))
  {
    var digits := if s != "" && s[0] == '+' then s[1..] else s;
    PaddedMeans(digits, n);
    if s != "" && s[0] == '+' {
      PaddedStartsWithDigit(s, n);
    }
  }

  lemma PaddedMeans(digits: string, n: nat)
    ensures Padded(digits, n) <==> digits != "" && Value(digits) == Some(n)
  {
    if Padded(digits, n) {
      var k :| 0 <= k <= |digits| && PaddedBy(digits, k, n);
      ValueOfPadded(k, n);
      DecimalIsDigits(n);
    }
    if digits != "" && Value(digits) == Some(n) {
      var k := ValueIsPadded(digits, n);
      ValueOfZeros(k);
    }
  }

  lemma {:induction false} ValueIsDigits(s: string)
    requires Value(s).Some?
    ensures forall i :: 0 <= i < |s| ==> IsDigit(s[i])
  {
    if s != "" {
      ValueIsDigits(s[..|s| - 1]);
    }
  }

  lemma PaddedStartsWithDigit(s: string, n: nat)
    requires s != ""
    ensures Padded(s, n) ==> IsDigit(s[0])
  {
    if Padded(s, n) {
      PaddedMeans(s, n);
      ValueIsDigits(s);
    }
  }
}
