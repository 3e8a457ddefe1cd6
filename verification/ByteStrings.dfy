/**
Byte strings and the fixed-width little- and big-endian integer encodings that
the codecs, the memo message and the field comparisons are built from.
*/
module ByteStrings {
  import opened Arithmetic
  import opened Wrappers

  type byte = x: int | 0 <= x < 256
  type Bytes = seq<byte>

  /** A principal is at most 29 bytes long. */
  type Principal = b: Bytes | |b| <= 29

  function Zeros(n: nat): (z: Bytes)
    ensures |z| == n
  {
    seq(n, _ => 0)
  }

  function Pow256(n: nat): (p: nat)
    ensures p > 0
  {
    if n == 0 then 1 else 256 * Pow256(n - 1)
  }

  /** The number of values that fit the widths used by the codecs. */
  lemma Pow256Values()
    ensures Pow256(4) == U32_MAX + 1
    ensures Pow256(8) == U64_MAX + 1
    ensures Pow256(16) == U128_MAX + 1
  {
    assert Pow256(4) == 0x1_0000_0000;
    assert Pow256(8) == 0x1_0000_0000 * 0x1_0000_0000;
    assert Pow256(12) == 0x1_0000_0000 * 0x1_0000_0000 * 0x1_0000_0000;
  }

  // ---------- little endian ----------

  function FromLE(s: Bytes): nat {
    if s == [] then 0 else s[0] + 256 * FromLE(s[1..])
  }

  function ToLE(n: nat, width: nat): (s: Bytes)
    ensures |s| == width
  {
    if width == 0 then [] else [n % 256] + ToLE(n / 256, width - 1)
  }

  lemma {:induction false} LERoundTrip(n: nat, width: nat)
    requires n < Pow256(width)
    ensures FromLE(ToLE(n, width)) == n
  {
    if width > 0 {
      LERoundTrip(n / 256, width - 1);
      assert ToLE(n, width)[1..] == ToLE(n / 256, width - 1);
    }
  }

  /** Equal-length byte strings that denote the same integer are the same string. */
  lemma {:induction false} FromLEInjective(a: Bytes, b: Bytes)
    requires |a| == |b|
    requires FromLE(a) == FromLE(b)
    ensures a == b
  {
    if a != [] {
      assert a[0] == b[0] && FromLE(a[1..]) == FromLE(b[1..]);
      FromLEInjective(a[1..], b[1..]);
      assert a == [a[0]] + a[1..];
      assert b == [b[0]] + b[1..];
    }
  }

  lemma {:induction false} ToLEInjective(m: nat, n: nat, width: nat)
    requires m < Pow256(width) && n < Pow256(width)
    requires ToLE(m, width) == ToLE(n, width)
    ensures m == n
  {
    LERoundTrip(m, width);
    LERoundTrip(n, width);
  }

  lemma {:induction false} FromLEBound(s: Bytes)
    ensures FromLE(s) < Pow256(|s|)
  {
    if s != [] {
      FromLEBound(s[1..]);
    }
  }

  lemma {:induction false} LEReencode(s: Bytes)
    ensures ToLE(FromLE(s), |s|) == s
  {
    FromLEBound(s);
    LERoundTrip(FromLE(s), |s|);
    FromLEInjective(ToLE(FromLE(s), |s|), s);
  }

  // ---------- big endian ----------

  function FromBE(s: Bytes): nat {
    if s == [] then 0 else 256 * FromBE(s[..|s| - 1]) + s[|s| - 1]
  }

  function ToBE(n: nat, width: nat): (s: Bytes)
    ensures |s| == width
  {
    if width == 0 then [] else ToBE(n / 256, width - 1) + [n % 256]
  }

  lemma {:induction false} BERoundTrip(n: nat, width: nat)
    requires n < Pow256(width)
    ensures FromBE(ToBE(n, width)) == n
  {
    if width > 0 {
      BERoundTrip(n / 256, width - 1);
      assert ToBE(n, width)[..width - 1] == ToBE(n / 256, width - 1);
    }
  }

  lemma {:induction false} FromBEBound(s: Bytes)
    ensures FromBE(s) < Pow256(|s|)
  {
    if s != [] {
      FromBEBound(s[..|s| - 1]);
    }
  }

  lemma {:induction false} BEReencode(s: Bytes)
    ensures ToBE(FromBE(s), |s|) == s
  {
    if s != [] {
      BEReencode(s[..|s| - 1]);
      assert s == s[..|s| - 1] + [s[|s| - 1]];
    }
  }

  // ---------- place values ----------

  /** Little endian: byte `i` counts in units of 256 to the power `i`. */
  lemma {:induction false} LittleEndianPlace(n: nat, width: nat, i: nat)
    requires i < width
    ensures ToLE(n, width)[i] == n / Pow256(i) % 256
    decreases width
  {
    if i > 0 {
      LittleEndianPlace(n / 256, width - 1, i - 1);
      DivTwice(n, 256, Pow256(i - 1), Pow256(i));
    }
  }

  /** Big endian: the same, counted from the other end. */
  lemma {:induction false} BigEndianPlace(n: nat, width: nat, i: nat)
    requires i < width
    ensures ToBE(n, width)[i] == n / Pow256(width - 1 - i) % 256
    decreases width
  {
    if i < width - 1 {
      BigEndianPlace(n / 256, width - 1, i);
      DivTwice(n, 256, Pow256(width - 2 - i), Pow256(width - 1 - i));
    }
  }

  // ---------- records of fixed-width fields ----------

  function Join(parts: seq<Bytes>): Bytes {
    if parts == [] then [] else parts[0] + Join(parts[1..])
  }

  function Widths(parts: seq<Bytes>): (w: seq<nat>)
    ensures |w| == |parts|
  {
    seq(|parts|, i requires 0 <= i < |parts| => |parts[i]|)
  }

  function Total(widths: seq<nat>): nat {
    if widths == [] then 0 else widths[0] + Total(widths[1..])
  }

  function Split(b: Bytes, widths: seq<nat>): seq<Bytes>
    requires |b| == Total(widths)
    decreases |widths|
  {
    if widths == [] then [] else [b[..widths[0]]] + Split(b[widths[0]..], widths[1..])
  }

  lemma {:induction false} SplitJoin(parts: seq<Bytes>)
    ensures |Join(parts)| == Total(Widths(parts))
    ensures Split(Join(parts), Widths(parts)) == parts
  {
    if parts != [] {
      SplitJoin(parts[1..]);
      assert Widths(parts)[1..] == Widths(parts[1..]);
      assert Join(parts)[|parts[0]|..] == Join(parts[1..]);
    }
  }

  lemma {:induction false} JoinSplit(b: Bytes, widths: seq<nat>)
    requires |b| == Total(widths)
    ensures Join(Split(b, widths)) == b && Widths(Split(b, widths)) == widths
    decreases |widths|
  {
    if widths != [] {
      var first, rest := b[..widths[0]], Split(b[widths[0]..], widths[1..]);
      JoinSplit(b[widths[0]..], widths[1..]);
      Prepended(first, rest);
      assert b == first + b[widths[0]..] && widths == [widths[0]] + widths[1..];
    }
  }

  lemma Prepended(first: Bytes, rest: seq<Bytes>)
    ensures Join([first] + rest) == first + Join(rest)
    ensures Widths([first] + rest) == [|first|] + Widths(rest)
  {
    assert ([first] + rest)[1..] == rest;
  }

  /** Joining one part more appends it. */
  lemma {:induction false} JoinNext(parts: seq<Bytes>, k: nat)
    requires k < |parts|
    ensures Join(parts[..k + 1]) == Join(parts[..k]) + parts[k]
  {
    if k == 0 {
      assert parts[..1][1..] == [];
    } else {
      JoinNext(parts[1..], k - 1);
      assert parts[..k + 1][1..] == parts[1..][..k] && parts[..k][1..] == parts[1..][..k - 1];
    }
  }

  lemma {:induction false} TotalConcat(a: seq<nat>, b: seq<nat>)
    ensures Total(a + b) == Total(a) + Total(b)
  {
    if a == [] {
      assert a + b == b;
    } else {
      TotalConcat(a[1..], b);
      assert (a + b)[1..] == a[1..] + b;
    }
  }

  lemma TotalOf2(w: seq<nat>)
    requires |w| == 2
    ensures Total(w) == w[0] + w[1]
  {
    assert Total(w[1..]) == w[1] + Total(w[1..][1..]);
  }

  lemma TotalOf4(w: seq<nat>)
    requires |w| == 4
    ensures Total(w) == w[0] + w[1] + w[2] + w[3]
  {
    TotalOf2(w[2..]);
    assert Total(w[1..]) == w[1] + Total(w[1..][1..]) && w[1..][1..] == w[2..];
  }
}
