/**
Canonical little-endian encodings of the BN254 scalar and base fields.
*/
module FieldUtils {
  import opened ByteStrings

  const FR_MODULUS_LE: Bytes :=
    [0x01, 0x00, 0x00, 0xf0, 0x93, 0xf5, 0xe1, 0x43]
    + [0x91, 0x70, 0xb9, 0x79, 0x48, 0xe8, 0x33, 0x28]
    + [0x5d, 0x58, 0x81, 0x81, 0xb6, 0x45, 0x50, 0xb8]
    + [0x29, 0xa0, 0x31, 0xe1, 0x72, 0x4e, 0x64, 0x30]

  const FQ_MODULUS_LE: Bytes :=
    [0x47, 0xfd, 0x7c, 0xd8, 0x16, 0x8c, 0x20, 0x3c]
    + [0x8d, 0xca, 0x71, 0x68, 0x91, 0x6a, 0x81, 0x97]
    + [0x5d, 0x58, 0x81, 0x81, 0xb6, 0x45, 0x50, 0xb8]
    + [0x29, 0xa0, 0x31, 0xe1, 0x72, 0x4e, 0x64, 0x30]

  const FR_MODULUS: nat := 0x30644e72e131a029b85045b68181585d2833e84879b9709143e1f593f0000001
  const FQ_MODULUS: nat := 0x30644e72e131a029b85045b68181585d97816a916871ca8d3c208c16d87cfd47

  /** Integer order is decided by the last position at which two equal-length strings differ. */
  lemma {:induction false} SuffixDecides(a: Bytes, b: Bytes, i: nat)
    requires |a| == |b| && i <= |a|
    requires FromLE(a[i..]) < FromLE(b[i..])
    ensures FromLE(a) < FromLE(b)
  {
    if i > 0 {
      assert a[i - 1..][1..] == a[i..] && b[i - 1..][1..] == b[i..];
      assert a[i - 1..][0] == a[i - 1] && b[i - 1..][0] == b[i - 1];
      SuffixDecides(a, b, i - 1);
    } else {
      assert a[0..] == a && b[0..] == b;
    }
  }

  /** Byte comparison from the most significant end decides the order of the denoted integers. */
  method LeLt(a: Bytes, b: Bytes) returns (less: bool)
    requires |a| == |b| == 32
    ensures less <==> FromLE(a) < FromLE(b)
  {
    var i := 32;
    while i > 0
      invariant 0 <= i <= 32
      invariant a[i..] == b[i..]
    {
      i := i - 1;
      assert a[i..] == [a[i]] + a[i + 1..] && b[i..] == [b[i]] + b[i + 1..];
      if a[i] < b[i] {
        SuffixDecides(a, b, i);
        return true;
      }
      if a[i] > b[i] {
        SuffixDecides(b, a, i);
        return false;
      }
    }
    assert a == a[0..] == b[0..] == b;
    less := false;
  }

  method IsCanonicalFrLe(bytes: Bytes) returns (canonical: bool)
    requires |bytes| == 32
    ensures canonical <==> FromLE(bytes) < FR_MODULUS
  {
    ModulusValues();
    canonical := LeLt(bytes, FR_MODULUS_LE);
  }

  method IsCanonicalFqLe(bytes: Bytes) returns (canonical: bool)
    requires |bytes| == 32
    ensures canonical <==> FromLE(bytes) < FQ_MODULUS
  {
    ModulusValues();
    canonical := LeLt(bytes, FQ_MODULUS_LE);
  }

  /** The 32 committed bytes are the little-endian encodings of the two moduli. */
  lemma ModulusValues()
    ensures FromLE(FR_MODULUS_LE) == FR_MODULUS
    ensures FromLE(FQ_MODULUS_LE) == FQ_MODULUS
  {
    FrWords(FR_MODULUS_LE);
    FqWords(FQ_MODULUS_LE);
  }

  lemma FrWords(s: Bytes)
    requires s == FR_MODULUS_LE
    ensures FromLE(s) == FR_MODULUS
  {
    ValueOf32(s);
    assert Word(s, 0) == 0x43e1f593f0000001;
    assert Word(s, 8) == 0x2833e84879b97091;
    assert Word(s, 16) == 0xb85045b68181585d;
    assert Word(s, 24) == 0x30644e72e131a029;
  }

  lemma FqWords(s: Bytes)
    requires s == FQ_MODULUS_LE
    ensures FromLE(s) == FQ_MODULUS
  {
    ValueOf32(s);
    assert Word(s, 0) == 0x3c208c16d87cfd47;
    assert Word(s, 8) == 0x97816a916871ca8d;
    assert Word(s, 16) == 0xb85045b68181585d;
    assert Word(s, 24) == 0x30644e72e131a029;
  }

  /** Eight bytes from position `at`, as one little-endian word. */
  function Word(s: Bytes, at: nat): nat
    requires at + 8 <= |s|
  {
    var b: seq<int> := s;
    b[at] + 0x100 * b[at + 1] + 0x1_0000 * b[at + 2] + 0x100_0000 * b[at + 3] + 0x1_0000_0000 * b[at + 4]
    + 0x100_0000_0000 * b[at + 5] + 0x1_0000_0000_0000 * b[at + 6] + 0x100_0000_0000_0000 * b[at + 7]
  }

  lemma ValueOf32(s: Bytes)
    requires |s| == 32
    ensures FromLE(s) ==
      Word(s, 0) + 0x1_0000_0000_0000_0000 * (Word(s, 8)
      + 0x1_0000_0000_0000_0000 * (Word(s, 16) + 0x1_0000_0000_0000_0000 * Word(s, 24)))
  {
    Horner8(s);
    Horner8(s[8..]);
    Horner8(s[16..]);
    Horner8(s[24..]);
    assert s[8..][8..] == s[16..] && s[16..][8..] == s[24..] && s[24..][8..] == [];
  }

  lemma Horner8(s: Bytes)
    requires |s| >= 8
    ensures FromLE(s) == Word(s, 0) + 0x1_0000_0000_0000_0000 * FromLE(s[8..])
  {
    Horner4(s);
    Horner4(s[4..]);
    assert s[4..][4..] == s[8..];
  }

  lemma Horner4(s: Bytes)
    requires |s| >= 4
    ensures FromLE(s) == s[0] + 0x100 * s[1] + 0x1_0000 * s[2] + 0x100_0000 * s[3] + 0x1_0000_0000 * FromLE(s[4..])
  {
    assert s[1..][1..] == s[2..] && s[2..][1..] == s[3..] && s[3..][1..] == s[4..];
  }

  /** Reading any 32 bytes as a scalar reduces them modulo the field. */
  function FrElement(bytes: Bytes): nat {
    FromLE(bytes) % FR_MODULUS
  }

  /** Canonical encodings are read without reduction, so distinct ones are distinct field elements. */
  lemma CanonicalIdentity(a: Bytes, b: Bytes)
    requires |a| == |b| == 32 && FromLE(a) < FR_MODULUS && FromLE(b) < FR_MODULUS
    ensures FrElement(a) == FromLE(a)
    ensures FrElement(a) == FrElement(b) <==> a == b
  {
    if FromLE(a) == FromLE(b) {
      FromLEInjective(a, b);
    }
  }

  /** Without the canonicality check identities are ambiguous: every encoding it refuses aliases one it accepts. */
  lemma NonCanonicalAlias(a: Bytes)
    requires |a| == 32 && FromLE(a) >= FR_MODULUS
    ensures
      var c := ToLE(FromLE(a) % FR_MODULUS, 32);
      |c| == 32 && FromLE(c) < FR_MODULUS && c != a && FrElement(c) == FrElement(a)
  {
    hide ToLE, FromLE;
    ModulusValues();
    FromLEBound(FR_MODULUS_LE);
    LERoundTrip(FromLE(a) % FR_MODULUS, 32);
  }
}
