/**
  FNV-1a as the bundle code computes it: on a `u64` with `wrapping_mul`
  (build_support/snapshot_bundle.rs) and on Python integers with a mask
  (scripts/snapshot_compat.py).
 */
module Fnv {
  import opened Bytes

  const OFFSET_BASIS: nat := 0xcbf2_9ce4_8422_2325
  const PRIME: nat := 0x0000_0100_0000_01b3
  const TWO64: nat := 0x1_0000_0000_0000_0000
  const MASK: nat := 0xFFFF_FFFF_FFFF_FFFF

  /** The inverse of PRIME modulo 2^64, which exists because PRIME is odd. */
  const PRIME_INVERSE: nat := 0xce96_5057_aff6_957b

  // ---- bitwise operations on naturals ----

  function Xor(a: nat, b: nat): nat {
    if a == 0 && b == 0 then 0
    else 2 * Xor(a / 2, b / 2) + (if a % 2 == b % 2 then 0 else 1)
  }

  function And(a: nat, b: nat): nat {
    if a == 0 || b == 0 then 0
    else 2 * And(a / 2, b / 2) + (if a % 2 == 1 && b % 2 == 1 then 1 else 0)
  }

  function Pow2(k: nat): (r: nat)
    ensures r >= 1
  {
    if k == 0 then 1 else 2 * Pow2(k - 1)
  }

  lemma {:induction false} XorUndoes(a: nat, b: nat)
    ensures Xor(Xor(a, b), b) == a
  {
    if a != 0 || b != 0 {
      var high, low := Xor(a / 2, b / 2), if a % 2 == b % 2 then 0 else 1;
      XorUndoes(a / 2, b / 2);
      assert Xor(a, b) == 2 * high + low;
      XorOfParts(high, low, b);
    }
  }

  lemma XorOfParts(high: nat, low: nat, b: nat)
    requires low < 2
    ensures Xor(2 * high + low, b) == 2 * Xor(high, b / 2) + (if low == b % 2 then 0 else 1)
  {
    assert (2 * high + low) / 2 == high && (2 * high + low) % 2 == low;
  }

  lemma {:induction false} XorFits(a: nat, b: nat, k: nat)
    requires a < Pow2(k) && b < Pow2(k)
    ensures Xor(a, b) < Pow2(k)
  {
    if a != 0 || b != 0 {
      XorFits(a / 2, b / 2, k - 1);
    }
  }

  lemma {:induction false} XorCommutes(a: nat, b: nat)
    ensures Xor(a, b) == Xor(b, a)
  {
    if a != 0 || b != 0 {
      XorCommutes(a / 2, b / 2);
    }
  }

  /** Masking with 2^k - 1 is reduction modulo 2^k. */
  lemma {:induction false} MaskReduces(n: nat, k: nat, m: nat)
    requires m == Pow2(k)
    ensures And(n, m - 1) == n % m
    decreases k
  {
    if n == 0 || k == 0 {
      RemainderIs(n, m, n, 0);
    } else {
      var p := Pow2(k - 1);
      MaskReduces(n / 2, k - 1, p);
      DoubledRemainder(n, p);
      MaskStep(n, p);
    }
  }

  lemma MaskStep(n: nat, p: nat)
    requires n > 0 && p > 0
    ensures And(n, 2 * p - 1) == 2 * And(n / 2, p - 1) + n % 2
  {
    assert (2 * p - 1) / 2 == p - 1 && (2 * p - 1) % 2 == 1;
    AndUnfolds(n, 2 * p - 1);
  }

  lemma AndUnfolds(a: nat, b: nat)
    requires a > 0 && b > 0
    ensures And(a, b) == 2 * And(a / 2, b / 2) + (if a % 2 == 1 && b % 2 == 1 then 1 else 0)
  {
  }

  lemma DoubledRemainder(n: nat, p: nat)
    requires p > 0
    ensures n % (2 * p) == 2 * ((n / 2) % p) + n % 2
  {
    var q, r := (n / 2) / p, (n / 2) % p;
    assert n / 2 == q * p + r;
    assert n == 2 * (n / 2) + n % 2;
    assert n == q * (2 * p) + (2 * r + n % 2);
    RemainderIs(n, 2 * p, q, 2 * r + n % 2);
  }

  lemma RemainderIs(n: int, m: nat, q: int, r: nat)
    requires m > 0 && r < m && n == q * m + r
    ensures n % m == r
  {
    var d := n / m - q;
    assert n % m == r - d * m;
    SmallMultiple(d, m);
  }

  lemma SmallMultiple(d: int, m: nat)
    ensures d >= 1 ==> d * m >= m
    ensures d <= -1 ==> d * m <= 0 - m
  {
    if d >= 1 {
      assert d * m == (d - 1) * m + m;
    } else if d <= -1 {
      assert d * m == (d + 1) * m - m;
    }
  }

  lemma Pow2Is64()
    ensures Pow2(64) == TWO64
  {
    assert Pow2(4) == 2 * Pow2(3) == 4 * Pow2(2) == 16;
    Pow2Adds(4, 4);
    Pow2Adds(8, 8);
    Pow2Adds(16, 16);
    Pow2Adds(32, 32);
  }

  lemma {:induction false} Pow2Adds(a: nat, b: nat)
    ensures Pow2(a + b) == Pow2(a) * Pow2(b)
  {
    if a > 0 {
      Pow2Adds(a - 1, b);
    }
  }

  // ---- one step ----

  /** `hash ^= byte; hash = hash.wrapping_mul(PRIME)` on a u64. */
  function Step(hash: nat, b: byte): nat {
    (Xor(hash, b as nat) * PRIME) % TWO64
  }

  /** `((value ^ byte) * PRIME) & MASK` on an unbounded integer. */
  function MaskedStep(value: nat, b: byte): nat {
    And(Xor(value, b as nat) * PRIME, MASK)
  }

  lemma StepsAgree(hash: nat, b: byte)
    ensures MaskedStep(hash, b) == Step(hash, b)
  {
    Pow2Is64();
    MaskReduces(Xor(hash, b as nat) * PRIME, 64, TWO64);
  }

  function StepBack(hash: nat, b: byte): nat {
    Xor((hash * PRIME_INVERSE) % TWO64, b as nat)
  }

  lemma TimesInverse(x: nat)
    requires x < TWO64
    ensures (((x * PRIME) % TWO64) * PRIME_INVERSE) % TWO64 == x
    ensures (((x * PRIME_INVERSE) % TWO64) * PRIME) % TWO64 == x
  {
    TimesBothWays(x, PRIME, PRIME_INVERSE);
    TimesBothWays(x, PRIME_INVERSE, PRIME);
  }

  lemma TimesBothWays(x: nat, p: nat, inverse: nat)
    requires x < TWO64 && p * inverse == TWO64 * ((p * inverse) / TWO64) + 1
    ensures (((x * p) % TWO64) * inverse) % TWO64 == x
  {
    var q, r := (x * p) / TWO64, (x * p) % TWO64;
    var k := (p * inverse) / TWO64;
    assert x * p == q * TWO64 + r;
    Expand(x, p, inverse, q, r, k);
    RemainderIs(r * inverse, TWO64, x * k - q * inverse, x);
  }

  lemma Expand(x: int, p: int, inverse: int, q: int, r: int, k: int)
    requires x * p == q * TWO64 + r && p * inverse == TWO64 * k + 1
    ensures r * inverse == (x * k - q * inverse) * TWO64 + x
  {
    assert r * inverse == (x * p - q * TWO64) * inverse;
    assert (x * p) * inverse == x * (p * inverse);
    assert x * (TWO64 * k + 1) == (x * k) * TWO64 + x;
    assert (q * TWO64) * inverse == (q * inverse) * TWO64;
  }

  lemma FitsAfterXor(hash: nat, b: byte)
    requires hash < TWO64
    ensures Xor(hash, b as nat) < TWO64
  {
    Pow2Is64();
    XorFits(hash, b as nat, 64);
  }

  /** For a fixed byte the step is a bijection on 64-bit states, undone by `StepBack`. */
  lemma StepIsBijection(hash: nat, b: byte)
    requires hash < TWO64
    ensures Step(hash, b) < TWO64 && StepBack(Step(hash, b), b) == hash
    ensures StepBack(hash, b) < TWO64 && Step(StepBack(hash, b), b) == hash
  {
    FitsAfterXor(hash, b);
    TimesInverse(Xor(hash, b as nat));
    XorUndoes(hash, b as nat);
    var h := (hash * PRIME_INVERSE) % TWO64;
    TimesInverse(hash);
    XorUndoes(h, b as nat);
    FitsAfterXor(h, b);
  }

  /** From one state, different bytes lead to different states. */
  lemma StepSeparatesBytes(hash: nat, a: byte, b: byte)
    requires hash < TWO64 && Step(hash, a) == Step(hash, b)
    ensures a == b
  {
    FitsAfterXor(hash, a);
    FitsAfterXor(hash, b);
    TimesInverse(Xor(hash, a as nat));
    TimesInverse(Xor(hash, b as nat));
    XorCommutes(hash, a as nat);
    XorCommutes(hash, b as nat);
    XorUndoes(a as nat, hash);
    XorUndoes(b as nat, hash);
  }

  // ---- whole inputs ----

  function Hash(hash: nat, bytes: seq<byte>): nat
    decreases bytes
  {
    if bytes == [] then hash else Hash(Step(hash, bytes[0]), bytes[1..])
  }

  function MaskedHash(value: nat, bytes: seq<byte>): nat
    decreases bytes
  {
    if bytes == [] then value else MaskedHash(MaskedStep(value, bytes[0]), bytes[1..])
  }

  lemma {:induction false} HashStaysInRange(hash: nat, bytes: seq<byte>)
    requires hash < TWO64
    ensures Hash(hash, bytes) < TWO64
    decreases bytes
  {
    if bytes != [] {
      StepIsBijection(hash, bytes[0]);
      HashStaysInRange(Step(hash, bytes[0]), bytes[1..]);
    }
  }

  /** The masked Python loop and the wrapping Rust loop agree on every input. */
  lemma {:induction false} MaskedEqualsWrapping(hash: nat, bytes: seq<byte>)
    ensures MaskedHash(hash, bytes) == Hash(hash, bytes)
    decreases bytes
  {
    if bytes != [] {
      StepsAgree(hash, bytes[0]);
      MaskedEqualsWrapping(Step(hash, bytes[0]), bytes[1..]);
    }
  }

  lemma {:induction false} HashIsInjectiveInState(h1: nat, h2: nat, bytes: seq<byte>)
    requires h1 < TWO64 && h2 < TWO64 && Hash(h1, bytes) == Hash(h2, bytes)
    ensures h1 == h2
    decreases bytes
  {
    if bytes != [] {
      StepIsBijection(h1, bytes[0]);
      StepIsBijection(h2, bytes[0]);
      HashIsInjectiveInState(Step(h1, bytes[0]), Step(h2, bytes[0]), bytes[1..]);
    }
  }

  /** Two inputs of one length that differ in exactly one byte never have the same hash. */
  lemma {:induction false} OneByteChangesTheHash(hash: nat, s: seq<byte>, t: seq<byte>, i: nat)
    requires hash < TWO64 && |s| == |t| && i < |s| && s[i] != t[i]
    requires forall j :: 0 <= j < |s| && j != i ==> s[j] == t[j]
    ensures Hash(hash, s) != Hash(hash, t)
    decreases s
  {
    StepIsBijection(hash, s[0]);
    StepIsBijection(hash, t[0]);
    if i == 0 {
      assert s[1..] == t[1..];
      if Hash(hash, s) == Hash(hash, t) {
        HashIsInjectiveInState(Step(hash, s[0]), Step(hash, t[0]), s[1..]);
        StepSeparatesBytes(hash, s[0], t[0]);
      }
    } else {
      OneByteChangesTheHash(Step(hash, s[0]), s[1..], t[1..], i - 1);
    }
  }

  // ---- fingerprints ----

  function HexDigit(d: nat): char
    requires d < 16
  {
    "0123456789abcdef"[d]
  }

  /** `n` in exactly `width` hexadecimal digits, `{:0width$x}`. */
  function Hex(n: nat, width: nat): (r: string)
    ensures |r| == width
  {
    if width == 0 then "" else Hex(n / 16, width - 1) + [HexDigit(n % 16)]
  }

  function Fingerprint(bytes: seq<byte>): string {
    Hex(Hash(OFFSET_BASIS, bytes), 16)
  }

  function Pow16(k: nat): (r: nat)
    ensures r >= 1
  {
    if k == 0 then 1 else 16 * Pow16(k - 1)
  }

  lemma {:induction false} HexIsInjective(a: nat, b: nat, width: nat)
    requires a < Pow16(width) && b < Pow16(width) && Hex(a, width) == Hex(b, width)
    ensures a == b
  {
    if width > 0 {
      var ha, hb := Hex(a, width), Hex(b, width);
      assert ha[width - 1] == hb[width - 1];
      assert ha[..width - 1] == Hex(a / 16, width - 1) && hb[..width - 1] == Hex(b / 16, width - 1);
      DigitsDiffer(a % 16, b % 16);
      HexIsInjective(a / 16, b / 16, width - 1);
    }
  }

  lemma DigitsDiffer(a: nat, b: nat)
    requires a < 16 && b < 16 && HexDigit(a) == HexDigit(b)
    ensures a == b
  {
    var digits := "0123456789abcdef";
    assert forall i, j :: 0 <= i < j < 16 ==> digits[i] != digits[j];
  }

  lemma Pow16Is64Bits()
    ensures Pow16(16) == TWO64
  {
    assert Pow16(4) == 16 * Pow16(3) == 256 * Pow16(2) == 0x1_0000;
    assert Pow16(8) == 16 * Pow16(7) == 256 * Pow16(6) == 0x1000 * Pow16(5) == 0x1_0000 * Pow16(4);
    assert Pow16(12) == 16 * Pow16(11) == 256 * Pow16(10) == 0x1000 * Pow16(9) == 0x1_0000 * Pow16(8);
    assert Pow16(16) == 16 * Pow16(15) == 256 * Pow16(14) == 0x1000 * Pow16(13) == 0x1_0000 * Pow16(12);
  }

  /** A one-byte corruption always changes the printed fingerprint. */
  lemma OneByteChangesTheFingerprint(s: seq<byte>, t: seq<byte>, i: nat)
    requires |s| == |t| && i < |s| && s[i] != t[i]
    requires forall j :: 0 <= j < |s| && j != i ==> s[j] == t[j]
    ensures Fingerprint(s) != Fingerprint(t)
  {
    OneByteChangesTheHash(OFFSET_BASIS, s, t, i);
    HashStaysInRange(OFFSET_BASIS, s);
    HashStaysInRange(OFFSET_BASIS, t);
    Pow16Is64Bits();
    if Fingerprint(s) == Fingerprint(t) {
      HexIsInjective(Hash(OFFSET_BASIS, s), Hash(OFFSET_BASIS, t), 16);
    }
  }

  lemma {:induction false} HashSnoc(hash: nat, bytes: seq<byte>, b: byte)
    ensures Hash(hash, bytes + [b]) == Step(Hash(hash, bytes), b)
    decreases bytes
  {
    if bytes == [] {
      assert [b][1..] == [];
      assert bytes + [b] == [b];
    } else {
      HashSnoc(Step(hash, bytes[0]), bytes[1..], b);
      assert (bytes + [b])[1..] == bytes[1..] + [b];
    }
  }

  /** `fingerprint`, the loop over the file's bytes. */
  method ComputeFingerprint(bytes: seq<byte>) returns (r: string)
    ensures r == Fingerprint(bytes)
  {
    var hash := OFFSET_BASIS;
    var i := 0;
    while i < |bytes|
      invariant i <= |bytes| && hash == Hash(OFFSET_BASIS, bytes[..i])
    {
      HashSnoc(OFFSET_BASIS, bytes[..i], bytes[i]);
      assert bytes[..i + 1] == bytes[..i] + [bytes[i]];
      hash := Xor(hash, bytes[i] as nat);
      hash := (hash * PRIME) % TWO64;
      i := i + 1;
    }
    assert bytes[..|bytes|] == bytes;
    r := Hex(hash, 16);
  }

  /** `fnv`, the Python loop. */
  method ComputeMasked(bytes: seq<byte>) returns (r: string)
    ensures r == Fingerprint(bytes)
  {
    var value := OFFSET_BASIS;
    var i := 0;
    while i < |bytes|
      invariant i <= |bytes| && value == Hash(OFFSET_BASIS, bytes[..i])
    {
      HashSnoc(OFFSET_BASIS, bytes[..i], bytes[i]);
      assert bytes[..i + 1] == bytes[..i] + [bytes[i]];
      StepsAgree(value, bytes[i]);
      value := And(Xor(value, bytes[i] as nat) * PRIME, MASK);
      i := i + 1;
    }
    assert bytes[..|bytes|] == bytes;
    r := Hex(value, 16);
  }
}
