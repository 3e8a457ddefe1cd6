/**
The Merkle canister: appends update the stable maps and the two heap counters in place; the
queries read them. The pool-caller check and the stored pool principal are left out.
*/
module MerkleTree {
  import opened Wrappers
  import opened ByteStrings
  import opened FieldUtils
  import opened MerkleSpec
  import opened MerkleCache

  const MAX_BATCH_SIZE: nat := 10
  const MAX_SCAN_PAGE_SIZE: nat := 500
  const MAX_ENCRYPTED_PAYLOAD_BYTES: nat := 1024

  datatype AppendError = InvalidLength | InvalidCommitment | PayloadTooLarge | TreeFull | BatchTooLarge

  datatype ScanError = PageTooLarge | RangeOverflow | ScanInvariantViolation

  datatype Item = Item(commitment: Bytes, payload: Bytes)

  datatype ScanPageEntry = ScanPageEntry(index: nat, leaf: Bytes, payload: Bytes)

  /** Everything a tree means: its leaves and the payloads beside them, in order. */
  datatype Contents = Contents(leaves: seq<Hash>, payloads: seq<Bytes>)

  // ---------- what an append means ----------

  function ItemError(item: Item): Option<AppendError> {
    if |item.commitment| != 32 then Some(InvalidLength)
    else if FromLE(item.commitment) >= FR_MODULUS then Some(InvalidCommitment)
    else if |item.payload| > MAX_ENCRYPTED_PAYLOAD_BYTES then Some(PayloadTooLarge)
    else None
  }

  function AppendOne(c: Contents, item: Item): (r: Result<Contents, AppendError>) {
    if ItemError(item).Some? then Err(ItemError(item).value)
    else if |c.leaves| + 1 > MAX_TREE_LEAVES then Err(TreeFull)
    else Ok(Contents(c.leaves + [item.commitment], c.payloads + [item.payload]))
  }

  /** The first invalid item decides the error. */
  function FirstItemError(items: seq<Item>): Option<AppendError> {
    if items == [] then None
    else if ItemError(items[0]).Some? then ItemError(items[0])
    else FirstItemError(items[1..])
  }

  function BatchError(n: nat, items: seq<Item>): Option<AppendError> {
    if |items| > MAX_BATCH_SIZE then Some(BatchTooLarge)
    else if n + |items| > MAX_TREE_LEAVES then Some(TreeFull)
    else FirstItemError(items)
  }

  lemma {:induction false} ItemsAllValid(items: seq<Item>)
    requires FirstItemError(items).None?
    ensures forall i :: 0 <= i < |items| ==> ItemError(items[i]).None?
  {
    if items != [] {
      ItemsAllValid(items[1..]);
      forall i | 0 <= i < |items| ensures ItemError(items[i]).None? {
        assert i > 0 ==> items[i] == items[1..][i - 1];
      }
    }
  }

  /** Appending items one call at a time, stopping at the first refusal. */
  function AppendEach(c: Contents, items: seq<Item>): Result<Contents, AppendError>
    decreases |items|
  {
    if items == [] then Ok(c)
    else
      var first := AppendOne(c, items[0]);
      if first.Err? then first else AppendEach(first.value, items[1..])
  }

  /** What every appended item satisfies. */
  predicate Appendable(item: Item) {
    |item.commitment| == 32 && FromLE(item.commitment) < FR_MODULUS && |item.payload| <= 1024
  }

  /** What is wrong with an item: its length, its value, or else its payload. */
  predicate WrongAs(item: Item, e: AppendError) {
    if |item.commitment| != 32 then e == InvalidLength
    else if FromLE(item.commitment) >= FR_MODULUS then e == InvalidCommitment
    else e == PayloadTooLarge && |item.payload| > 1024
  }

  /** A single append succeeds exactly on an appendable item while one of the 2^32 places is free. */
  lemma AppendsExactly(c: Contents, item: Item)
    ensures
      var r := AppendOne(c, item);
      && (r.Ok? <==> Appendable(item) && |c.leaves| < 0x1_0000_0000)
      && (r.Ok? ==> Extended(c, [item], r.value))
      && (r.Err? ==> if Appendable(item) then r.error == TreeFull else WrongAs(item, r.error))
  {
    hide FromLE;
  }

  /** The items, and nothing else, have been added at the end, in order, each leaf beside its payload. */
  predicate Extended(c: Contents, items: seq<Item>, c': Contents) {
    && |c'.leaves| == |c.leaves| + |items| && |c'.payloads| == |c.payloads| + |items|
    && c.leaves <= c'.leaves && c.payloads <= c'.payloads
    && (forall i :: 0 <= i < |items| ==>
          c'.leaves[|c.leaves| + i] == items[i].commitment && c'.payloads[|c.payloads| + i] == items[i].payload)
  }

  lemma {:induction false} FirstWrongItem(items: seq<Item>)
    ensures FirstItemError(items).None? <==> forall i :: 0 <= i < |items| ==> Appendable(items[i])
    ensures FirstItemError(items).Some? ==>
              exists i :: 0 <= i < |items| && WrongAs(items[i], FirstItemError(items).value)
                          && forall j :: 0 <= j < i ==> Appendable(items[j])
  {
    hide FromLE;
    if items != [] && ItemError(items[0]).None? {
      var rest := items[1..];
      FirstWrongItem(rest);
      assert forall i :: 0 < i < |items| ==> items[i] == rest[i - 1];
      if FirstItemError(rest).Some? {
        var i :| 0 <= i < |rest| && WrongAs(rest[i], FirstItemError(rest).value)
                 && forall j :: 0 <= j < i ==> Appendable(rest[j]);
        assert WrongAs(items[i + 1], FirstItemError(items).value);
      }
    }
  }

  /** A batch is accepted exactly if it has at most ten items, they all fit, and each is appendable. */
  lemma BatchExactly(n: nat, items: seq<Item>)
    ensures
      var e := BatchError(n, items);
      && (e.None? <==>
            |items| <= 10 && n + |items| <= 0x1_0000_0000 && forall i :: 0 <= i < |items| ==> Appendable(items[i]))
      && (e == Some(BatchTooLarge) <==> |items| > 10)
      && (e == Some(TreeFull) <==> |items| <= 10 && n + |items| > 0x1_0000_0000)
      && (e.Some? && |items| <= 10 && n + |items| <= 0x1_0000_0000 ==>
            exists i :: 0 <= i < |items| && WrongAs(items[i], e.value) && forall j :: 0 <= j < i ==> Appendable(items[j]))
  {
    hide FromLE, FirstItemError;
    FirstWrongItem(items);
  }

  lemma {:induction false} EachExtends(c: Contents, items: seq<Item>)
    requires AppendEach(c, items).Ok?
    ensures Extended(c, items, AppendEach(c, items).value)
    decreases |items|
  {
    hide FromLE, ItemError;
    if items != [] {
      AppendsExactly(c, items[0]);
      EachExtends(AppendOne(c, items[0]).value, items[1..]);
      assert forall i :: 0 < i < |items| ==> items[i] == items[1..][i - 1];
    }
  }

  function Commitments(items: seq<Item>): seq<Hash>
    requires FirstItemError(items).None?
  {
    if items == [] then [] else [items[0].commitment] + Commitments(items[1..])
  }

  function Payloads(items: seq<Item>): seq<Bytes> {
    if items == [] then [] else [items[0].payload] + Payloads(items[1..])
  }

  lemma FirstAndRest<T>(done: seq<T>, first: T, rest: seq<T>)
    ensures done + ([first] + rest) == done + [first] + rest
  {
  }

  /**
  An accepted batch is the fold of single appends; and single appends of a batch-sized list
  succeed altogether exactly when the batch is accepted.
  */
  lemma {:induction false} BatchIsFold(c: Contents, items: seq<Item>)
    requires |items| <= MAX_BATCH_SIZE && |c.leaves| <= MAX_TREE_LEAVES
    decreases |items|
    ensures BatchError(|c.leaves|, items).None? <==> AppendEach(c, items).Ok?
    ensures BatchError(|c.leaves|, items).None? ==>
              AppendEach(c, items) == Ok(Contents(c.leaves + Commitments(items), c.payloads + Payloads(items)))
  {
    hide FromLE, ItemError;
    if items == [] {
      assert c.leaves + [] == c.leaves && c.payloads + [] == c.payloads;
    } else if AppendOne(c, items[0]).Ok? {
      BatchIsFold(AppendOne(c, items[0]).value, items[1..]);
      if BatchError(|c.leaves|, items).None? {
        FirstAndRest(c.leaves, items[0].commitment, Commitments(items[1..]));
        FirstAndRest(c.payloads, items[0].payload, Payloads(items[1..]));
      }
    }
  }

  // ---------- scanning ----------

  function Page(c: Contents, from: nat, limit: nat): seq<ScanPageEntry>
    requires |c.payloads| == |c.leaves|
  {
    var size := SatSub(Min(from + limit, |c.leaves|), from);
    seq(size, i requires 0 <= i < size => ScanPageEntry(from + i, c.leaves[from + i], c.payloads[from + i]))
  }

  /** The entries of a page: the stretch asked for, as far as there are leaves, each leaf beside its own payload. */
  predicate PageOf(c: Contents, from: nat, limit: nat, page: seq<ScanPageEntry>)
    requires |c.payloads| == |c.leaves|
  {
    && |page| == (if |c.leaves| <= from then 0 else if from + limit <= |c.leaves| then limit else |c.leaves| - from)
    && forall i :: 0 <= i < |page| ==>
         && page[i].index == from + i && from + i < |c.leaves|
         && page[i].leaf == c.leaves[from + i] && page[i].payload == c.payloads[from + i]
  }

  lemma PageEntries(c: Contents, from: nat, limit: nat)
    requires |c.payloads| == |c.leaves|
    ensures PageOf(c, from, limit, Page(c, from, limit))
  {
  }

  /** What a wallet collects by asking for pages of the given sizes, each from where the last one ended. */
  function Walk(c: Contents, from: nat, limits: seq<nat>): seq<ScanPageEntry>
    requires |c.payloads| == |c.leaves|
    decreases |limits|
  {
    if limits == [] then []
    else
      var page := Page(c, from, limits[0]);
      page + Walk(c, from + |page|, limits[1..])
  }

  function Sum(limits: seq<nat>): nat {
    if limits == [] then 0 else limits[0] + Sum(limits[1..])
  }

  /** Consecutive pages tile the stream: together they are one page over the summed sizes, no gap, no repeat. */
  lemma {:induction false} PagesTile(c: Contents, from: nat, limits: seq<nat>)
    requires |c.payloads| == |c.leaves|
    ensures Walk(c, from, limits) == Page(c, from, Sum(limits))
    ensures PageOf(c, from, Sum(limits), Walk(c, from, limits))
    decreases |limits|
  {
    PageEntries(c, from, Sum(limits));
    if limits != [] {
      var page := Page(c, from, limits[0]);
      PagesTile(c, from + |page|, limits[1..]);
    }
  }

  // ---------- the canister ----------

  class Tree {
    const h: PairHash
    var commitments: map<nat, Hash>
    var payloads: map<nat, Bytes>
    var rootHistory: map<nat, Hash>
    var nodes: map<nat, Hash>
    var leafCount: nat
    var rootIndex: nat

    /** What survives an upgrade is consistent for `n` leaves; the heap counters are not mentioned. */
    ghost predicate StableValid(n: nat)
      reads this
    {
      && n <= MAX_TREE_LEAVES
      && Dense(commitments, n) && Dense(payloads, n)
      && NodesOk(h, nodes, Listed(commitments, n))
      && RingOk(h, rootHistory, Listed(commitments, n))
    }

    ghost predicate Valid()
      reads this
    {
      StableValid(leafCount) && rootIndex == leafCount + 1
    }

    ghost function View(): (c: Contents)
      requires Valid()
      reads this
    {
      Contents(Listed(commitments, leafCount), Listed(payloads, leafCount))
    }

    constructor (h: PairHash)
      ensures Valid() && this.h == h && View() == Contents([], [])
    {
      hide FullNode, ZeroValue;
      this.h := h;
      commitments := map[];
      payloads := map[];
      nodes := map[];
      leafCount := 0;
      rootHistory := map[];
      rootIndex := 0;
      new;
      var zeros := ComputeZeroValues();
      StoreRoot(zeros[TREE_DEPTH]);
      ghost var none := Listed(commitments, 0);
      assert none == [] && Listed(payloads, 0) == [];
      EmptyNodes(h);
      EmptyTreeRoot(h, none, TREE_DEPTH);
      RingStart(h, none, zeros[TREE_DEPTH]);
    }

    /** The 33 empty-subtree hashes, computed level by level. */
    method ComputeZeroValues() returns (z: seq<Hash>)
      ensures |z| == TREE_DEPTH + 1
      ensures forall i :: 0 <= i <= TREE_DEPTH ==> z[i] == ZeroValue(h, i)
    {
      z := [h(Zeros(32), Zeros(32))];
      var i := 1;
      while i < TREE_DEPTH + 1
        invariant 1 <= i <= TREE_DEPTH + 1 && |z| == i
        invariant forall j :: 0 <= j < i ==> z[j] == ZeroValue(h, j)
      {
        z := z + [h(z[i - 1], z[i - 1])];
        i := i + 1;
      }
    }

    method StoreRoot(root: Hash)
      modifies this`rootHistory, this`rootIndex
      ensures rootIndex == old(rootIndex) + 1
      ensures rootHistory == old(rootHistory)[old(rootIndex) % ROOT_HISTORY_SIZE := root]
    {
      var index := rootIndex;
      rootIndex := rootIndex + 1;
      rootHistory := rootHistory[index % ROOT_HISTORY_SIZE := root];
    }

    /**
    Climb from the new leaf to the root, caching the path. The result is the root of the full
    zero-padded tree over the leaves including the new one, and the cache agrees with that tree.
    */
    method UpdateTree(leafIndex: nat, leafHash: Hash, ghost leaves: seq<Hash>) returns (root: Hash)
      requires leafIndex == |leaves| < MAX_TREE_LEAVES && NodesOk(h, nodes, leaves)
      modifies this`nodes
      ensures NodesOk(h, nodes, leaves + [leafHash])
      ensures root == FullRoot(h, leaves + [leafHash])
    {
      var current := leafHash;
      var index := leafIndex;
      NodesStart(h, nodes, leaves, leafHash);
      for level := 0 to TREE_DEPTH
        invariant index == Ancestor(leafIndex, level)
        invariant current == FullNode(h, leaves + [leafHash], level, index)
        invariant NodesUpTo(h, nodes, leaves, leafHash, level)
      {
        LevelWritten(h, nodes, leaves, leafHash, level);
        nodes := nodes[NodeKey(level, index) := current];
        var siblingIndex := if index % 2 == 0 then index + 1 else index - 1;
        var siblingKey := NodeKey(level, siblingIndex);
        var sibling := if siblingKey in nodes then nodes[siblingKey] else ZeroValue(h, level);
        LevelClimbed(h, nodes, leaves, leafHash, level);
        current := if index % 2 == 0 then h(current, sibling) else h(sibling, current);
        index := index / 2;
      }
      NodesDone(h, nodes, leaves, leafHash);
      PathEndsAtRoot(leafIndex);
      root := current;
    }

    method ValidateCommitmentBytes(commitment: Bytes) returns (r: Result<Hash, AppendError>)
      ensures r.Ok? <==> |commitment| == 32 && FromLE(commitment) < FR_MODULUS
      ensures r.Ok? ==> r.value == commitment
      ensures r.Err? ==> r.error == if |commitment| != 32 then InvalidLength else InvalidCommitment
    {
      if |commitment| != 32 {
        return Err(InvalidLength);
      }
      var canonical := IsCanonicalFrLe(commitment);
      if !canonical {
        return Err(InvalidCommitment);
      }
      r := Ok(commitment);
    }

    /** The mutation shared by both append endpoints, after every check has passed. */
    method AppendChecked(leaf: Hash, payload: Bytes) returns (index: nat)
      requires Valid() && leafCount < MAX_TREE_LEAVES
      modifies this
      ensures Valid() && index == old(leafCount)
      ensures View() == Contents(old(View()).leaves + [leaf], old(View()).payloads + [payload])
    {
      hide FullNode, NodesOk, RingOk;
      ghost var leaves := View().leaves;
      index := leafCount;
      leafCount := leafCount + 1;
      commitments := commitments[index := leaf];
      payloads := payloads[index := payload];
      var root := UpdateTree(index, leaf, leaves);
      RingStored(h, rootHistory, leaves, leaf);
      StoreRoot(root);
      assert Listed(commitments, leafCount) == leaves + [leaf];
      assert Listed(payloads, leafCount) == old(View()).payloads + [payload];
    }

    method AppendCommitment(commitment: Bytes, payload: Bytes) returns (r: Result<nat, AppendError>)
      requires Valid()
      modifies this
      ensures Valid()
      ensures match AppendOne(old(View()), Item(commitment, payload))
              case Ok(c) => r == Ok(old(leafCount)) && View() == c
              case Err(e) => r == Err(e) && unchanged(this)
      ensures r.Ok? <==> Appendable(Item(commitment, payload)) && old(leafCount) < 0x1_0000_0000
      ensures r.Ok? ==> r.value == old(leafCount) && Extended(old(View()), [Item(commitment, payload)], View())
    {
      AppendsExactly(View(), Item(commitment, payload));
      var leaf := ValidateCommitmentBytes(commitment);
      if leaf.Err? {
        return Err(leaf.error);
      }
      if |payload| > MAX_ENCRYPTED_PAYLOAD_BYTES {
        return Err(PayloadTooLarge);
      }
      if leafCount + 1 > MAX_TREE_LEAVES {
        return Err(TreeFull);
      }
      var index := AppendChecked(leaf.value, payload);
      r := Ok(index);
    }

    /** Every item is checked before anything is written; the first invalid one decides. */
    method CheckItems(items: seq<Item>) returns (invalid: Option<AppendError>)
      ensures invalid == FirstItemError(items)
    {
      var i := 0;
      while i < |items|
        invariant 0 <= i <= |items|
        invariant FirstItemError(items) == FirstItemError(items[i..])
      {
        assert items[i..][1..] == items[i + 1..];
        var leaf := ValidateCommitmentBytes(items[i].commitment);
        if leaf.Err? {
          return Some(leaf.error);
        }
        if |items[i].payload| > MAX_ENCRYPTED_PAYLOAD_BYTES {
          return Some(PayloadTooLarge);
        }
        i := i + 1;
      }
      invalid := None;
    }

    method AppendCommitments(items: seq<Item>) returns (r: Result<seq<nat>, AppendError>)
      requires Valid()
      modifies this
      ensures Valid()
      ensures BatchError(old(leafCount), items).Some? ==> r == Err(BatchError(old(leafCount), items).value) && unchanged(this)
      ensures BatchError(old(leafCount), items).None? ==>
                && AppendEach(old(View()), items) == Ok(View())
                && r == Ok(seq(|items|, i => old(leafCount) + i))
      ensures r.Ok? <==>
                && |items| <= 10 && old(leafCount) + |items| <= 0x1_0000_0000
                && forall i :: 0 <= i < |items| ==> Appendable(items[i])
      ensures r.Ok? ==> Extended(old(View()), items, View())
    {
      BatchExactly(leafCount, items);
      if |items| > MAX_BATCH_SIZE {
        return Err(BatchTooLarge);
      }
      if leafCount + |items| > MAX_TREE_LEAVES {
        return Err(TreeFull);
      }
      var invalid := CheckItems(items);
      if invalid.Some? {
        return Err(invalid.value);
      }
      hide FromLE, FirstItemError;
      ItemsAllValid(items);
      var indices := [];
      var i := 0;
      while i < |items|
        invariant 0 <= i <= |items|
        invariant Valid() && leafCount == old(leafCount) + i
        invariant AppendEach(View(), items[i..]) == AppendEach(old(View()), items)
        invariant indices == seq(i, j => old(leafCount) + j)
      {
        assert items[i..][1..] == items[i + 1..];
        assert ItemError(items[i]).None?;
        var index := AppendChecked(items[i].commitment, items[i].payload);
        indices := indices + [index];
        i := i + 1;
      }
      EachExtends(old(View()), items);
      r := Ok(indices);
    }

    method CurrentRoot() returns (root: Hash)
      requires Valid()
      ensures root == FullRoot(h, View().leaves)
    {
      var index := SatSub(rootIndex, 1);
      assert InRing(leafCount, leafCount) && RingSlot(h, rootHistory, View().leaves, leafCount);
      assert View().leaves[..leafCount] == View().leaves;
      var slot := index % ROOT_HISTORY_SIZE;
      var empty := ZeroValue(h, TREE_DEPTH);
      root := if slot in rootHistory then rootHistory[slot] else empty;
    }

    /** One coherent checkpoint: the leaf count together with the root over exactly that many leaves. */
    method GetScanHead() returns (count: nat, root: Hash)
      requires Valid()
      ensures count == |View().leaves| && root == FullRoot(h, View().leaves)
    {
      count := leafCount;
      root := CurrentRoot();
    }

    /** The root after leaf `index`, for exactly the last hundred leaves. */
    method GetRootAtIndex(index: nat) returns (root: Option<Hash>)
      requires Valid()
      ensures root.Some? <==> index < |View().leaves| <= index + 100
      ensures root.Some? ==> root.value == FullRoot(h, View().leaves[..index + 1])
    {
      if index >= leafCount {
        return None;
      }
      if index < SatSub(leafCount, ROOT_HISTORY_SIZE) {
        return None;
      }
      assert InRing(leafCount, index + 1) && RingSlot(h, rootHistory, View().leaves, index + 1);
      var slot := (index + 1) % ROOT_HISTORY_SIZE;
      root := if slot in rootHistory then Some(rootHistory[slot]) else None;
    }

    /** Accepts exactly the last `min(100, n + 1)` roots, the empty-tree root included while it lasts. */
    method IsValidAnchor(root: Bytes) returns (valid: bool)
      requires Valid()
      ensures valid <==> exists k: nat :: InRing(|View().leaves|, k) && root == FullRoot(h, View().leaves[..k])
    {
      if |root| != 32 {
        return false;
      }
      var i := 0;
      while i < ROOT_HISTORY_SIZE
        invariant 0 <= i <= ROOT_HISTORY_SIZE
        invariant forall s :: 0 <= s < i && s in rootHistory ==> rootHistory[s] != root
      {
        if i in rootHistory && rootHistory[i] == root {
          ghost var k := SlotHoldsRecent(h, rootHistory, View().leaves, i);
          return true;
        }
        i := i + 1;
      }
      forall k: nat | InRing(leafCount, k) ensures root != FullRoot(h, View().leaves[..k]) {
        assert RingSlot(h, rootHistory, View().leaves, k);
        assert k % ROOT_HISTORY_SIZE in rootHistory;
      }
      valid := false;
    }

    method GetScanPage(from: nat, limit: nat) returns (r: Result<seq<ScanPageEntry>, ScanError>)
      requires Valid() && from <= U64_MAX && limit <= U64_MAX
      ensures r == if limit > MAX_SCAN_PAGE_SIZE then Err(PageTooLarge)
                   else if from + limit > U64_MAX then Err(RangeOverflow)
                   else Ok(Page(View(), from, limit))
      ensures r.Ok? <==> limit <= 500 && from + limit <= U64_MAX
      ensures r.Ok? ==> PageOf(View(), from, limit, r.value)
    {
      if limit > MAX_SCAN_PAGE_SIZE {
        return Err(PageTooLarge);
      }
      if from + limit > U64_MAX {
        return Err(RangeOverflow);
      }
      var end := Min(from + limit, leafCount);
      var page := [];
      var index := from;
      while index < end
        invariant from <= index && (from <= end ==> index <= end)
        invariant page == Page(View(), from, index - from)
      {
        if index !in commitments || index !in payloads {
          return Err(ScanInvariantViolation);
        }
        page := page + [ScanPageEntry(index, commitments[index], payloads[index])];
        index := index + 1;
      }
      PageEntries(View(), from, limit);
      r := Ok(page);
    }

    /**
    After an upgrade the heap counters hold anything; re-deriving them from the stable maps restores
    the tree, and none of the three assertions traps.
    */
    method PostUpgrade(ghost n: nat) returns (trapped: bool)
      requires StableValid(n)
      modifies this`leafCount, this`rootIndex
      ensures !trapped && Valid() && leafCount == n
    {
      DenseSize(commitments, n);
      DenseSize(rootHistory, Retained(n));
      leafCount := |commitments|;
      rootIndex := leafCount + 1;
      trapped := leafCount > 0 && leafCount - 1 !in commitments;
      trapped := trapped || leafCount in commitments;
      trapped := trapped || |rootHistory| != Min(rootIndex, ROOT_HISTORY_SIZE);
    }
  }

  lemma PathEndsAtRoot(n: nat)
    requires n < MAX_TREE_LEAVES
    ensures Ancestor(n, TREE_DEPTH) == 0
  {
    Pow2Depth();
    AncestorBound(n, TREE_DEPTH, TREE_DEPTH);
  }

  /** The contents determine the stable maps: two caches and rings for the same leaves are the same maps. */
  lemma StableMapsDetermined(h: PairHash, leaves: seq<Hash>, nodes: map<nat, Hash>, nodes': map<nat, Hash>,
                             ring: map<nat, Hash>, ring': map<nat, Hash>)
    requires NodesOk(h, nodes, leaves) && NodesOk(h, nodes', leaves)
    requires RingOk(h, ring, leaves) && RingOk(h, ring', leaves)
    ensures nodes == nodes' && ring == ring'
  {
    forall k: nat ensures k in nodes <==> k in nodes' && (k in nodes ==> nodes[k] == nodes'[k]) {
      assert NodeOk(h, nodes, leaves, k) && NodeOk(h, nodes', leaves, k);
    }
    forall s: nat | s in ring ensures s in ring' && ring[s] == ring'[s] {
      var k := SlotHoldsRecent(h, ring, leaves, s);
      assert RingSlot(h, ring, leaves, k) && RingSlot(h, ring', leaves, k);
    }
  }
}
