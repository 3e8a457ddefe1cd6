/**
The stable maps of the Merkle canister as values: the sparse node cache and the root ring,
what they must hold for a list of leaves, and why one append keeps that.
*/
module MerkleCache {
  import opened Wrappers
  import opened ByteStrings
  import opened MerkleSpec

  // ---------- node cache ----------

  /** A cache entry is present exactly for the covered positions below the root, with the subtree's hash. */
  ghost predicate NodeOk(h: PairHash, nodes: map<nat, Hash>, leaves: seq<Hash>, k: nat) {
    var level, index := k / MAX_TREE_LEAVES, k % MAX_TREE_LEAVES;
    && (k in nodes <==> level < TREE_DEPTH && Covered(|leaves|, level, index))
    && (k in nodes ==> nodes[k] == FullNode(h, leaves, level, index))
  }

  ghost predicate NodesOk(h: PairHash, nodes: map<nat, Hash>, leaves: seq<Hash>) {
    forall k: nat :: NodeOk(h, nodes, leaves, k)
  }

  /** Midway through an append: the levels below `level` already show the new leaf. */
  ghost predicate NodesUpTo(h: PairHash, nodes: map<nat, Hash>, leaves: seq<Hash>, x: Hash, level: nat) {
    forall k: nat :: NodeOk(h, nodes, if k / MAX_TREE_LEAVES < level then leaves + [x] else leaves, k)
  }

  /** The sibling of a node on its level. */
  function Sibling(index: nat): nat {
    if index % 2 == 0 then index + 1 else index - 1
  }

  /** The cached sibling, or the empty-subtree hash when the cache has none. */
  function SiblingHash(h: PairHash, nodes: map<nat, Hash>, level: nat, index: nat): Hash {
    var key := NodeKey(level, Sibling(index));
    if key in nodes then nodes[key] else ZeroValue(h, level)
  }

  function Combine(h: PairHash, index: nat, current: Hash, sibling: Hash): Hash {
    if index % 2 == 0 then h(current, sibling) else h(sibling, current)
  }

  lemma KeyParts(level: nat, index: nat)
    requires index < MAX_TREE_LEAVES
    ensures NodeKey(level, index) / MAX_TREE_LEAVES == level && NodeKey(level, index) % MAX_TREE_LEAVES == index
  {
  }

  /** The path of a leaf below capacity, and its siblings, stay within 32-bit indices. */
  lemma PathInRange(n: nat, level: nat)
    requires n < MAX_TREE_LEAVES && level < TREE_DEPTH
    ensures Ancestor(n, level) < MAX_TREE_LEAVES && Sibling(Ancestor(n, level)) < MAX_TREE_LEAVES
  {
    Pow2Depth();
    AncestorBound(n, level, TREE_DEPTH);
    Pow2Monotone(TREE_DEPTH - level, TREE_DEPTH);
    assert Pow2(TREE_DEPTH - level) % 2 == 0;
  }

  /** Writing the path node of one level completes that level for the new leaf. */
  lemma LevelWritten(h: PairHash, nodes: map<nat, Hash>, leaves: seq<Hash>, x: Hash, level: nat)
    requires |leaves| < MAX_TREE_LEAVES && level < TREE_DEPTH
    requires NodesUpTo(h, nodes, leaves, x, level)
    ensures
      var index := Ancestor(|leaves|, level);
      NodesUpTo(h, nodes[NodeKey(level, index) := FullNode(h, leaves + [x], level, index)], leaves, x, level + 1)
  {
    var index := Ancestor(|leaves|, level);
    var nodes' := nodes[NodeKey(level, index) := FullNode(h, leaves + [x], level, index)];
    PathInRange(|leaves|, level);
    KeyParts(level, index);
    forall k: nat
      ensures NodeOk(h, nodes', if k / MAX_TREE_LEAVES < level + 1 then leaves + [x] else leaves, k)
    {
      assert NodeOk(h, nodes, if k / MAX_TREE_LEAVES < level then leaves + [x] else leaves, k);
      if k / MAX_TREE_LEAVES == level && k != NodeKey(level, index) {
        CoveredNext(|leaves|, level, k % MAX_TREE_LEAVES);
        OffPathUnchanged(h, leaves, x, level, k % MAX_TREE_LEAVES);
      } else if k == NodeKey(level, index) {
        CoveredNext(|leaves|, level, index);
      }
    }
  }

  /** The sibling read back is that of the full tree, so combining gives the next path node. */
  lemma LevelClimbed(h: PairHash, nodes: map<nat, Hash>, leaves: seq<Hash>, x: Hash, level: nat)
    requires |leaves| < MAX_TREE_LEAVES && level < TREE_DEPTH
    requires NodesUpTo(h, nodes, leaves, x, level + 1)
    ensures
      var index := Ancestor(|leaves|, level);
      Combine(h, index, FullNode(h, leaves + [x], level, index), SiblingHash(h, nodes, level, index))
      == FullNode(h, leaves + [x], level + 1, Ancestor(|leaves|, level + 1))
  {
    var leaves' := leaves + [x];
    var index := Ancestor(|leaves|, level);
    var sibling := Sibling(index);
    PathInRange(|leaves|, level);
    KeyParts(level, sibling);
    assert NodeOk(h, nodes, leaves', NodeKey(level, sibling));
    if !Covered(|leaves'|, level, sibling) {
      UncoveredIsZero(h, leaves', level, sibling);
    }
    assert SiblingHash(h, nodes, level, index) == FullNode(h, leaves', level, sibling);
    assert Ancestor(|leaves|, level + 1) == index / 2;
  }

  lemma EmptyNodes(h: PairHash)
    ensures NodesOk(h, map[], [])
  {
    forall k: nat ensures NodeOk(h, map[], [], k) {
      CoveredMeans(0, k / MAX_TREE_LEAVES, k % MAX_TREE_LEAVES);
    }
  }

  lemma NodesDone(h: PairHash, nodes: map<nat, Hash>, leaves: seq<Hash>, x: Hash)
    requires NodesUpTo(h, nodes, leaves, x, TREE_DEPTH)
    ensures NodesOk(h, nodes, leaves + [x])
  {
    forall k: nat ensures NodeOk(h, nodes, leaves + [x], k) {
      assert NodeOk(h, nodes, if k / MAX_TREE_LEAVES < TREE_DEPTH then leaves + [x] else leaves, k);
    }
  }

  lemma NodesStart(h: PairHash, nodes: map<nat, Hash>, leaves: seq<Hash>, x: Hash)
    requires NodesOk(h, nodes, leaves)
    ensures NodesUpTo(h, nodes, leaves, x, 0)
  {
    forall k: nat ensures NodeOk(h, nodes, if k / MAX_TREE_LEAVES < 0 then leaves + [x] else leaves, k) {
      assert NodeOk(h, nodes, leaves, k);
    }
  }

  // ---------- root ring ----------

  /** How many of the `n + 1` roots ever stored are still in the ring. */
  function Retained(n: nat): nat {
    Min(n + 1, ROOT_HISTORY_SIZE)
  }

  /** The root over the first `k` leaves is one of the last hundred stored after `n` leaves. */
  predicate InRing(n: nat, k: nat) {
    k <= n < k + ROOT_HISTORY_SIZE
  }

  /** Occupied slots are exactly `0..min(n + 1, 100)`, and each of the last hundred roots is in its slot. */
  ghost predicate RingOk(h: PairHash, ring: map<nat, Hash>, leaves: seq<Hash>) {
    && (forall s: nat :: s in ring <==> s < Retained(|leaves|))
    && (forall k: nat :: InRing(|leaves|, k) ==> RingSlot(h, ring, leaves, k))
  }

  ghost predicate RingSlot(h: PairHash, ring: map<nat, Hash>, leaves: seq<Hash>, k: nat)
    requires k <= |leaves|
  {
    k % ROOT_HISTORY_SIZE in ring && ring[k % ROOT_HISTORY_SIZE] == FullRoot(h, leaves[..k])
  }

  lemma EmptyTreeRoot(h: PairHash, leaves: seq<Hash>, depth: nat)
    requires leaves == []
    ensures FullNode(h, leaves, depth, 0) == ZeroValue(h, depth)
  {
    CoveredMeans(|leaves|, depth, 0);
    UncoveredIsZero(h, leaves, depth, 0);
  }

  /** The ring starts with the root of the empty tree in slot 0. */
  lemma RingStart(h: PairHash, leaves: seq<Hash>, root: Hash)
    requires leaves == [] && root == FullRoot(h, leaves)
    ensures RingOk(h, map[0 := root], leaves)
  {
    forall k: nat | InRing(|leaves|, k) ensures RingSlot(h, map[0 := root], leaves, k) {
      assert leaves[..k] == leaves;
    }
  }

  lemma RingStored(h: PairHash, ring: map<nat, Hash>, leaves: seq<Hash>, x: Hash)
    requires RingOk(h, ring, leaves)
    ensures RingOk(h, ring[(|leaves| + 1) % ROOT_HISTORY_SIZE := FullRoot(h, leaves + [x])], leaves + [x])
  {
    var leaves' := leaves + [x];
    var ring' := ring[(|leaves| + 1) % ROOT_HISTORY_SIZE := FullRoot(h, leaves')];
    forall k: nat | InRing(|leaves'|, k) ensures RingSlot(h, ring', leaves', k) {
      if k == |leaves'| {
        assert leaves'[..k] == leaves';
      } else {
        assert leaves'[..k] == leaves[..k] && RingSlot(h, ring, leaves, k);
        SlotsDiffer(k, |leaves'|);
      }
    }
  }

  lemma SlotsDiffer(k: nat, n: nat)
    requires k < n < k + ROOT_HISTORY_SIZE
    ensures k % ROOT_HISTORY_SIZE != n % ROOT_HISTORY_SIZE
  {
    assert n == ROOT_HISTORY_SIZE * (n / ROOT_HISTORY_SIZE) + n % ROOT_HISTORY_SIZE;
    assert k == ROOT_HISTORY_SIZE * (k / ROOT_HISTORY_SIZE) + k % ROOT_HISTORY_SIZE;
  }

  /** Every occupied slot holds one of the last hundred roots. */
  lemma SlotHoldsRecent(h: PairHash, ring: map<nat, Hash>, leaves: seq<Hash>, s: nat) returns (k: nat)
    requires RingOk(h, ring, leaves) && s in ring
    ensures InRing(|leaves|, k) && k % ROOT_HISTORY_SIZE == s && ring[s] == FullRoot(h, leaves[..k])
  {
    var n := |leaves|;
    k := n - (n - s) % ROOT_HISTORY_SIZE;
    assert (n - s) % ROOT_HISTORY_SIZE == n - k;
    assert (k - s) % ROOT_HISTORY_SIZE == 0 by {
      assert k - s == ROOT_HISTORY_SIZE * ((n - s) / ROOT_HISTORY_SIZE);
    }
    assert k % ROOT_HISTORY_SIZE == s by {
      assert k == s + ROOT_HISTORY_SIZE * ((n - s) / ROOT_HISTORY_SIZE);
    }
    assert RingSlot(h, ring, leaves, k);
  }

  // ---------- dense maps ----------

  ghost predicate Dense<T>(m: map<nat, T>, n: nat) {
    forall i: nat :: i in m <==> i < n
  }

  /** A map keyed densely from zero has as many entries as its upper bound. */
  lemma {:induction false} DenseSize<T>(m: map<nat, T>, n: nat)
    requires Dense(m, n)
    ensures |m| == n
  {
    if n == 0 {
      assert m.Keys == {};
    } else {
      DenseSize(m - {n - 1}, n - 1);
      assert m.Keys == (m - {n - 1}).Keys + {n - 1};
    }
  }

  ghost function Listed<T>(m: map<nat, T>, n: nat): (s: seq<T>)
    requires Dense(m, n)
    ensures |s| == n
    ensures forall i :: 0 <= i < n ==> s[i] == m[i]
  {
    seq(n, i requires 0 <= i < n => m[i])
  }
}
