/**
The bytewise lexicographic order that principals are sorted by and nullifier keys are stored in.
*/
module ByteOrder {
  import opened ByteStrings

  predicate Less(a: Bytes, b: Bytes) {
    if b == [] then false
    else if a == [] then true
    else a[0] < b[0] || (a[0] == b[0] && Less(a[1..], b[1..]))
  }

  /** A common beginning, and then a smaller byte or the end of the first string. */
  predicate PrecedesAt(a: Bytes, b: Bytes, k: nat) {
    k <= |a| && k < |b| && (forall i :: 0 <= i < k ==> a[i] == b[i]) && (k == |a| || a[k] < b[k])
  }

  /** The order is decided at the first byte in which the two strings differ. */
  lemma {:induction false} LessExactly(a: Bytes, b: Bytes)
    ensures Less(a, b) <==> exists k: nat :: PrecedesAt(a, b, k)
  {
    if a != [] && b != [] && a[0] == b[0] {
      LessExactly(a[1..], b[1..]);
      if k: nat :| PrecedesAt(a[1..], b[1..], k) {
        forall i | 0 <= i < k + 1 ensures a[i] == b[i] {
          assert i > 0 ==> a[1..][i - 1] == b[1..][i - 1];
        }
        assert PrecedesAt(a, b, k + 1);
      }
      if k: nat :| PrecedesAt(a, b, k) {
        assert PrecedesAt(a[1..], b[1..], k - 1);
      }
    } else if b != [] && (a == [] || a[0] < b[0]) {
      assert PrecedesAt(a, b, 0);
    }
  }

  lemma {:induction false} LessTransitive(a: Bytes, b: Bytes, c: Bytes)
    requires Less(a, b) && Less(b, c)
    ensures Less(a, c)
  {
    if a != [] && a[0] == b[0] == c[0] {
      LessTransitive(a[1..], b[1..], c[1..]);
    }
  }

  lemma {:induction false} LessIrreflexive(a: Bytes)
    ensures !Less(a, a)
  {
    if a != [] {
      LessIrreflexive(a[1..]);
    }
  }

  lemma {:induction false} LessTotal(a: Bytes, b: Bytes)
    ensures Less(a, b) || a == b || Less(b, a)
  {
    if a != [] && b != [] && a[0] == b[0] {
      LessTotal(a[1..], b[1..]);
      assert a == [a[0]] + a[1..] && b == [b[0]] + b[1..];
    }
  }

  lemma LessAsymmetric(a: Bytes, b: Bytes)
    requires Less(a, b)
    ensures !Less(b, a) && a != b
  {
    LessIrreflexive(a);
    if Less(b, a) {
      LessTransitive(a, b, a);
    }
  }

  /** Each element precedes every later one; in particular no element repeats. */
  ghost predicate Ascending(s: seq<Bytes>) {
    forall i, j :: 0 <= i < j < |s| ==> Less(s[i], s[j])
  }

  function Elements(s: seq<Bytes>): set<Bytes> {
    set x | x in s
  }

  /** An ascending list is determined by the set of its elements. */
  lemma {:induction false} AscendingUnique(a: seq<Bytes>, b: seq<Bytes>)
    requires Ascending(a) && Ascending(b) && Elements(a) == Elements(b)
    ensures a == b
    decreases |a|
  {
    NoElements(a);
    NoElements(b);
    if a != [] {
      assert a[0] in Elements(b) && b[0] in Elements(a);
      SameHead(a, b);
      TailElements(a);
      TailElements(b);
      AscendingUnique(a[1..], b[1..]);
      assert a == [a[0]] + a[1..] && b == [b[0]] + b[1..];
    }
  }

  lemma NoElements(s: seq<Bytes>)
    ensures s == [] <==> Elements(s) == {}
  {
    if s != [] {
      assert s[0] in Elements(s);
    }
  }

  lemma SameHead(a: seq<Bytes>, b: seq<Bytes>)
    requires a != [] && b != [] && Ascending(a) && Ascending(b)
    requires a[0] in b && b[0] in a
    ensures a[0] == b[0]
  {
    if a[0] != b[0] {
      LessAsymmetric(a[0], b[0]);
    }
  }

  lemma TailElements(s: seq<Bytes>)
    requires s != [] && Ascending(s)
    ensures Elements(s[1..]) == Elements(s) - {s[0]}
  {
    LessIrreflexive(s[0]);
    assert s == [s[0]] + s[1..];
  }

  // ---------- sort and dedup ----------

  function Insert(x: Bytes, s: seq<Bytes>): seq<Bytes> {
    if s == [] then [x]
    else if x == s[0] then s
    else if Less(x, s[0]) then [x] + s
    else [s[0]] + Insert(x, s[1..])
  }

  /** The canonical form of a list read as a set: ascending, each element once. */
  function Canonical(s: seq<Bytes>): seq<Bytes> {
    if s == [] then [] else Insert(s[|s| - 1], Canonical(s[..|s| - 1]))
  }

  lemma ElementsConcat(s: seq<Bytes>, t: seq<Bytes>)
    ensures Elements(s + t) == Elements(s) + Elements(t)
  {
    assert forall x :: x in s + t <==> x in s || x in t;
  }

  /** Putting an element in front of an ascending list that it precedes. */
  lemma AscendingCons(x: Bytes, s: seq<Bytes>)
    requires Ascending(s) && (forall y :: y in Elements(s) ==> Less(x, y))
    ensures Ascending([x] + s) && Elements([x] + s) == {x} + Elements(s)
  {
    ElementsConcat([x], s);
    forall j | 0 <= j < |s| ensures Less(x, s[j]) {
      assert s[j] in Elements(s);
    }
  }

  lemma HeadPrecedes(x: Bytes, s: seq<Bytes>)
    requires s != [] && Ascending(s) && Less(x, s[0])
    ensures forall y :: y in Elements(s) ==> Less(x, y)
  {
    forall y | y in Elements(s) ensures Less(x, y) {
      var j :| 0 <= j < |s| && s[j] == y;
      if j > 0 {
        LessTransitive(x, s[0], s[j]);
      }
    }
  }

  lemma {:induction false} InsertSpec(x: Bytes, s: seq<Bytes>)
    requires Ascending(s)
    ensures Ascending(Insert(x, s)) && Elements(Insert(x, s)) == Elements(s) + {x}
  {
    if s == [] || x == s[0] {
      assert s != [] ==> x in s;
    } else if Less(x, s[0]) {
      HeadPrecedes(x, s);
      AscendingCons(x, s);
    } else {
      LessTotal(x, s[0]);
      InsertSpec(x, s[1..]);
      ElementsConcat([s[0]], s[1..]);
      assert s == [s[0]] + s[1..];
      AscendingCons(s[0], Insert(x, s[1..])) by {
        forall y | y in Elements(Insert(x, s[1..])) ensures Less(s[0], y) {
          if y != x {
            var j :| 0 <= j < |s[1..]| && s[1..][j] == y;
            assert s[j + 1] == y;
          }
        }
      }
    }
  }

  lemma {:induction false} CanonicalSpec(s: seq<Bytes>)
    ensures Ascending(Canonical(s)) && Elements(Canonical(s)) == Elements(s)
  {
    if s != [] {
      var init := s[..|s| - 1];
      CanonicalSpec(init);
      InsertSpec(s[|s| - 1], Canonical(init));
      assert s == init + [s[|s| - 1]];
    }
  }

  /** Two lists have the same canonical form exactly when they have the same elements. */
  lemma CanonicalIsTheSet(a: seq<Bytes>, b: seq<Bytes>)
    ensures Canonical(a) == Canonical(b) <==> Elements(a) == Elements(b)
  {
    CanonicalSpec(a);
    CanonicalSpec(b);
    if Elements(a) == Elements(b) {
      AscendingUnique(Canonical(a), Canonical(b));
    }
  }

  /** Sort a local copy by insertion, then drop adjacent repeats. */
  method SortAndDedup(list: seq<Bytes>) returns (c: seq<Bytes>)
    ensures c == Canonical(list)
    ensures Ascending(c) && Elements(c) == Elements(list)
  {
    var sorted: seq<Bytes> := [];
    var i := 0;
    while i < |list|
      invariant 0 <= i <= |list|
      invariant Sorted(sorted) && Elements(sorted) == Elements(list[..i])
    {
      assert list[..i + 1] == list[..i] + [list[i]];
      sorted := InsertInto(sorted, list[i]);
      i := i + 1;
    }
    assert list[..i] == list;
    c := Dedup(sorted);
    CanonicalSpec(list);
    AscendingUnique(c, Canonical(list));
  }

  /** Sorted, repeats allowed. */
  ghost predicate Sorted(s: seq<Bytes>) {
    forall i, j :: 0 <= i < j < |s| ==> !Less(s[j], s[i])
  }

  method InsertInto(s: seq<Bytes>, x: Bytes) returns (r: seq<Bytes>)
    requires Sorted(s)
    ensures Sorted(r) && Elements(r) == Elements(s) + {x}
  {
    var i := |s|;
    while i > 0 && Less(x, s[i - 1])
      invariant 0 <= i <= |s|
      invariant forall j :: i <= j < |s| ==> Less(x, s[j])
    {
      i := i - 1;
    }
    forall j | 0 <= j < i ensures !Less(x, s[j]) {
      if j < i - 1 && Less(x, s[j]) {
        LessTotal(s[j], s[i - 1]);
        if Less(s[j], s[i - 1]) {
          LessTransitive(x, s[j], s[i - 1]);
        }
      }
    }
    forall j | i <= j < |s| ensures !Less(s[j], x) {
      LessAsymmetric(x, s[j]);
    }
    r := s[..i] + [x] + s[i..];
    assert s == s[..i] + s[i..];
  }

  method Dedup(s: seq<Bytes>) returns (r: seq<Bytes>)
    requires Sorted(s)
    ensures Ascending(r) && Elements(r) == Elements(s)
  {
    r := [];
    var i := 0;
    while i < |s|
      invariant 0 <= i <= |s|
      invariant Ascending(r) && Elements(r) == Elements(s[..i])
      invariant r != [] ==> i > 0 && r[|r| - 1] == s[i - 1]
      invariant i > 0 ==> r != []
    {
      assert s[..i + 1] == s[..i] + [s[i]];
      ElementsConcat(s[..i], [s[i]]);
      ElementsConcat(r, [s[i]]);
      if r == [] || r[|r| - 1] != s[i] {
        if r != [] {
          LessTotal(r[|r| - 1], s[i]);
          forall j | 0 <= j < |r| - 1 ensures Less(r[j], s[i]) {
            LessTransitive(r[j], r[|r| - 1], s[i]);
          }
        }
        r := r + [s[i]];
      }
      i := i + 1;
    }
    assert s[..i] == s;
  }
}
