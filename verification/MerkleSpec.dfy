/**
The full zero-padded tree of a fixed depth over a list of leaves: the specification that the
sparse, incrementally updated node cache must agree with. The pair hash is a parameter.
*/
module MerkleSpec {
  import opened Wrappers
  import opened ByteStrings

  type Hash = b: Bytes | |b| == 32 witness Zeros(32)

  type PairHash = (Hash, Hash) -> Hash

  const TREE_DEPTH: nat := 32
  const MAX_TREE_LEAVES: nat := 0x1_0000_0000
  const ROOT_HISTORY_SIZE: nat := 100

  function Pow2(n: nat): (p: nat)
    ensures p > 0
  {
    if n == 0 then 1 else 2 * Pow2(n - 1)
  }

  /** The hash of an empty subtree at each level; level 0 is the canonical empty leaf. */
  function ZeroValue(h: PairHash, level: nat): Hash {
    if level == 0 then h(Zeros(32), Zeros(32)) else h(ZeroValue(h, level - 1), ZeroValue(h, level - 1))
  }

  /** Node `index` of `level` in the complete tree whose missing leaves are the canonical empty leaf. */
  function FullNode(h: PairHash, leaves: seq<Hash>, level: nat, index: nat): Hash {
    if level == 0 then (if index < |leaves| then leaves[index] else ZeroValue(h, 0))
    else h(FullNode(h, leaves, level - 1, 2 * index), FullNode(h, leaves, level - 1, 2 * index + 1))
  }

  function FullRoot(h: PairHash, leaves: seq<Hash>): Hash {
    FullNode(h, leaves, TREE_DEPTH, 0)
  }

  /** The ancestor of leaf `n` at `level`. */
  function Ancestor(n: nat, level: nat): nat {
    if level == 0 then n else Ancestor(n, level - 1) / 2
  }

  /** Subtree `index` of `level` holds at least one of the first `n` leaves. */
  predicate Covered(n: nat, level: nat, index: nat) {
    if level == 0 then index < n else Covered(n, level - 1, 2 * index)
  }

  /** In index arithmetic: the subtree's first leaf position lies below `n`. */
  lemma {:induction false} CoveredMeans(n: nat, level: nat, index: nat)
    ensures Covered(n, level, index) <==> index * Pow2(level) < n
  {
    if level > 0 {
      CoveredMeans(n, level - 1, 2 * index);
      assert 2 * index * Pow2(level - 1) == index * Pow2(level);
    }
  }

  /** Everything left of the path is covered, everything right of it is not. */
  lemma {:induction false} CoveredByPath(n: nat, level: nat, index: nat)
    ensures index < Ancestor(n, level) ==> Covered(n, level, index)
    ensures index > Ancestor(n, level) ==> !Covered(n, level, index)
  {
    if level > 0 {
      CoveredByPath(n, level - 1, 2 * index);
    }
  }

  /** One more leaf covers exactly the path of that leaf in addition. */
  lemma {:induction false} CoveredNext(n: nat, level: nat, index: nat)
    ensures Covered(n + 1, level, index) <==> Covered(n, level, index) || index == Ancestor(n, level)
  {
    if level > 0 {
      CoveredNext(n, level - 1, 2 * index);
      CoveredByPath(n, level - 1, 2 * index);
    }
  }

  lemma {:induction false} UncoveredIsZero(h: PairHash, leaves: seq<Hash>, level: nat, index: nat)
    requires !Covered(|leaves|, level, index)
    ensures FullNode(h, leaves, level, index) == ZeroValue(h, level)
  {
    if level > 0 {
      UncoveredRight(|leaves|, level - 1, 2 * index);
      UncoveredIsZero(h, leaves, level - 1, 2 * index);
      UncoveredIsZero(h, leaves, level - 1, 2 * index + 1);
    }
  }

  lemma {:induction false} UncoveredRight(n: nat, level: nat, index: nat)
    requires !Covered(n, level, index)
    ensures !Covered(n, level, index + 1)
  {
    if level > 0 {
      UncoveredRight(n, level - 1, 2 * index);
      UncoveredRight(n, level - 1, 2 * index + 1);
    }
  }

  /** A subtree off the new leaf's path is the same before and after the append. */
  lemma {:induction false} OffPathUnchanged(h: PairHash, leaves: seq<Hash>, x: Hash, level: nat, index: nat)
    requires index != Ancestor(|leaves|, level)
    ensures FullNode(h, leaves + [x], level, index) == FullNode(h, leaves, level, index)
  {
    if level > 0 {
      OffPathUnchanged(h, leaves, x, level - 1, 2 * index);
      OffPathUnchanged(h, leaves, x, level - 1, 2 * index + 1);
    }
  }

  lemma {:induction false} AncestorBound(n: nat, level: nat, depth: nat)
    requires level <= depth && n < Pow2(depth)
    ensures Ancestor(n, level) < Pow2(depth - level)
  {
    if level > 0 {
      AncestorBound(n, level - 1, depth);
    }
  }

  lemma Pow2Depth()
    ensures Pow2(TREE_DEPTH) == MAX_TREE_LEAVES
  {
    assert Pow2(8) == 256;
    assert Pow2(16) == 256 * 256;
    assert Pow2(24) == 256 * 256 * 256;
    assert Pow2(32) == 256 * 256 * 256 * 256;
  }

  lemma {:induction false} Pow2Monotone(a: nat, b: nat)
    requires a <= b
    ensures Pow2(a) <= Pow2(b)
  {
    if a < b {
      Pow2Monotone(a, b - 1);
    }
  }

  // ---------- the textbook root ----------

  /** Hash a list of two to the `depth` leaves by hashing its halves. */
  function HalvingRoot(h: PairHash, list: seq<Hash>, depth: nat): Hash
    requires |list| == Pow2(depth)
  {
    if depth == 0 then list[0]
    else h(HalvingRoot(h, list[..Pow2(depth - 1)], depth - 1), HalvingRoot(h, list[Pow2(depth - 1)..], depth - 1))
  }

  /** The leaves, filled up with the hash of two zero words. */
  function Padded(h: PairHash, leaves: seq<Hash>, size: nat): (list: seq<Hash>)
    requires |leaves| <= size
    ensures |list| == size
  {
    leaves + seq(size - |leaves|, _ => h(Zeros(32), Zeros(32)))
  }

  /** Node `index` of a level is the root of its own stretch of the padded list. */
  lemma {:induction false} NodeIsHalving(h: PairHash, leaves: seq<Hash>, list: seq<Hash>, level: nat, index: nat, lo: nat)
    requires |leaves| <= |list| && list == Padded(h, leaves, |list|)
    requires lo == index * Pow2(level) && lo + Pow2(level) <= |list|
    ensures FullNode(h, leaves, level, index) == HalvingRoot(h, list[lo..lo + Pow2(level)], level)
    decreases level
  {
    hide Padded, HalvingRoot;
    if level == 0 {
      PaddedAt(h, leaves, |list|, lo);
      OneLeaf(h, list[lo..lo + Pow2(level)]);
    } else {
      var half := Pow2(level - 1);
      HalfStart(index, half);
      NodeIsHalving(h, leaves, list, level - 1, 2 * index, lo);
      NodeIsHalving(h, leaves, list, level - 1, 2 * index + 1, lo + half);
      HalvesJoined(h, list, lo, half, level);
    }
  }

  lemma OneLeaf(h: PairHash, list: seq<Hash>)
    requires |list| == 1
    ensures Pow2(0) == 1 && HalvingRoot(h, list, 0) == list[0]
  {
  }

  lemma HalvesJoined(h: PairHash, list: seq<Hash>, lo: nat, half: nat, level: nat)
    requires level > 0 && half == Pow2(level - 1) && lo + half + half <= |list|
    ensures Pow2(level) == half + half
    ensures HalvingRoot(h, list[lo..lo + Pow2(level)], level)
         == h(HalvingRoot(h, list[lo..lo + half], level - 1), HalvingRoot(h, list[lo + half..lo + half + half], level - 1))
  {
    var both := list[lo..lo + half + half];
    assert both[..half] == list[lo..lo + half] && both[half..] == list[lo + half..lo + half + half];
  }

  lemma PaddedAt(h: PairHash, leaves: seq<Hash>, size: nat, i: nat)
    requires |leaves| <= size && i < size
    ensures Padded(h, leaves, size)[i] == if i < |leaves| then leaves[i] else h(Zeros(32), Zeros(32))
  {
  }

  lemma HalfStart(index: nat, half: nat)
    ensures 2 * index * half == index * (2 * half) && (2 * index + 1) * half == index * (2 * half) + half
  {
  }

  /** The root is that of the complete list of 2^32 leaves, hashed half by half. */
  lemma RootOfPaddedList(h: PairHash, leaves: seq<Hash>)
    requires |leaves| <= 0x1_0000_0000
    ensures Pow2(32) == 0x1_0000_0000
    ensures FullRoot(h, leaves) == HalvingRoot(h, Padded(h, leaves, 0x1_0000_0000), 32)
  {
    hide Padded, HalvingRoot, FullNode, Pow2;
    Pow2Depth();
    var list := Padded(h, leaves, 0x1_0000_0000);
    NodeIsHalving(h, leaves, list, 32, 0, 0);
    assert list[0..0x1_0000_0000] == list;
  }

  // ---------- node keys ----------

  /** Level and index packed into one 64-bit key, the index masked to 32 bits. */
  function NodeKey(level: nat, index: nat): nat {
    level * MAX_TREE_LEAVES + index % MAX_TREE_LEAVES
  }

  /** Two positions share a key exactly when they agree on the level and, modulo 2^32, on the index. */
  lemma NodeKeyCollision(level: nat, index: nat, level': nat, index': nat)
    ensures NodeKey(level, index) == NodeKey(level', index') <==>
              level == level' && index % MAX_TREE_LEAVES == index' % MAX_TREE_LEAVES
  {
    if NodeKey(level, index) == NodeKey(level', index') {
      assert (level - level') * MAX_TREE_LEAVES == index' % MAX_TREE_LEAVES - index % MAX_TREE_LEAVES;
    }
  }

  /** Below capacity no two positions of the tree share a key. */
  lemma NodeKeyInjective(level: nat, index: nat, level': nat, index': nat)
    requires index < MAX_TREE_LEAVES && index' < MAX_TREE_LEAVES
    requires NodeKey(level, index) == NodeKey(level', index')
    ensures level == level' && index == index'
  {
    NodeKeyCollision(level, index, level', index');
  }
}
