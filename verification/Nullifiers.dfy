/**
The spent-nullifier registry: canonical keys, all-or-nothing batches, and the cursor pagination a
wallet walks to obtain the exact set.
*/
module Nullifiers {
  import opened Wrappers
  import opened ByteStrings
  import opened ByteOrder
  import opened FieldUtils

  const MAX_NULLIFIERS_PAGE_SIZE: nat := 500

  datatype Error =
    | InvalidNullifier(length: nat)
    | NonCanonicalNullifier
    | NullifierAlreadySpent(key: Bytes)
    | InvalidLimit
    | PageTooLarge(limit: nat)

  type Entries = map<Bytes, nat>

  /** What `to_nullifier_key` accepts: 32 bytes below the scalar modulus. */
  predicate IsKey(bytes: Bytes) {
    |bytes| == 32 && FromLE(bytes) < FR_MODULUS
  }

  function ToKey(bytes: Bytes): Result<Bytes, Error> {
    if |bytes| != 32 then Err(InvalidNullifier(|bytes|))
    else if FromLE(bytes) >= FR_MODULUS then Err(NonCanonicalNullifier)
    else Ok(bytes)
  }

  method ToNullifierKey(bytes: Bytes) returns (r: Result<Bytes, Error>)
    ensures r == ToKey(bytes)
  {
    if |bytes| != 32 {
      return Err(InvalidNullifier(|bytes|));
    }
    var canonical := IsCanonicalFrLe(bytes);
    if !canonical {
      return Err(NonCanonicalNullifier);
    }
    r := Ok(bytes);
  }

  // ---------- insertion ----------

  function InsertOne(m: Entries, bytes: Bytes, now: nat): (Entries, Option<Error>) {
    var key := ToKey(bytes);
    if key.Err? then (m, Some(key.error))
    else if key.value in m then (m, Some(NullifierAlreadySpent(key.value)))
    else (m[key.value := now], None)
  }

  /** Why an entry is no key: its length first, its value second. */
  predicate MalformedAs(bytes: Bytes, e: Error) {
    || (|bytes| != 32 && e == InvalidNullifier(|bytes|))
    || (|bytes| == 32 && FromLE(bytes) >= FR_MODULUS && e == NonCanonicalNullifier)
  }

  /**
  A single insertion succeeds exactly on a canonical key that is not stored, and then stores it with
  this timestamp; any other changes nothing, and is told what is wrong with it.
  */
  lemma InsertsExactly(m: Entries, bytes: Bytes, now: nat)
    ensures
      var (m', error) := InsertOne(m, bytes, now);
      && (error.None? <==> |bytes| == 32 && FromLE(bytes) < FR_MODULUS && bytes !in m)
      && m' == (if error.None? then m[bytes := now] else m)
      && (error.Some? ==> MalformedAs(bytes, error.value) || (bytes in m && error == Some(NullifierAlreadySpent(bytes))))
  {
    hide FromLE;
  }

  /** The first malformed entry of a batch, if any. */
  function FirstMalformed(batch: seq<Bytes>): (e: Option<Error>)
    ensures e.None? <==> forall b :: b in batch ==> IsKey(b)
  {
    if batch == [] then None
    else
      var before := FirstMalformed(batch[..|batch| - 1]);
      var last := ToKey(batch[|batch| - 1]);
      assert batch == batch[..|batch| - 1] + [batch[|batch| - 1]] && batch[|batch| - 1] in batch;
      if before.Some? then before else if last.Err? then Some(last.error) else None
  }

  predicate Distinct(keys: seq<Bytes>) {
    forall i, j :: 0 <= i < j < |keys| ==> keys[i] != keys[j]
  }

  /** What a list has in common with the list without its last element. */
  lemma SplitLast(keys: seq<Bytes>)
    requires keys != []
    ensures
      var init, last := keys[..|keys| - 1], keys[|keys| - 1];
      && (Distinct(keys) <==> Distinct(init) && last !in init)
      && (forall b :: b in keys <==> b in init || b == last)
  {
    var init, last := keys[..|keys| - 1], keys[|keys| - 1];
    assert keys == init + [last];
    if last in init {
      var i :| 0 <= i < |init| && init[i] == last;
      assert keys[i] == keys[|keys| - 1];
    }
    if !Distinct(init) {
      var i, j :| 0 <= i < j < |init| && init[i] == init[j];
      assert keys[i] == keys[j];
    }
  }

  /** The first key that is already stored or repeats an earlier one of the batch. */
  function FirstSpent(m: Entries, keys: seq<Bytes>): (k: Option<Bytes>)
    ensures k.None? <==> Distinct(keys) && forall b :: b in keys ==> b !in m
  {
    if keys == [] then None
    else
      var init, last := keys[..|keys| - 1], keys[|keys| - 1];
      var before := FirstSpent(m, init);
      SplitLast(keys);
      if before.Some? then before
      else if last in m then Some(last)
      else if last in init then Some(last)
      else None
  }

  function StampedAll(m: Entries, keys: seq<Bytes>, now: nat): Entries {
    m + map k | k in keys :: now
  }

  function InsertMany(m: Entries, batch: seq<Bytes>, now: nat): (Entries, Option<Error>) {
    var malformed := FirstMalformed(batch);
    if malformed.Some? then (m, malformed)
    else
      var spent := FirstSpent(m, batch);
      if spent.Some? then (m, Some(NullifierAlreadySpent(spent.value)))
      else (StampedAll(m, batch, now), None)
  }

  /**
  A batch commits exactly when all its entries are canonical, pairwise distinct and unspent; then
  precisely these are added, all with this timestamp, and otherwise nothing changes.
  */
  lemma BatchAllOrNothing(m: Entries, batch: seq<Bytes>, now: nat)
    ensures
      var (m', error) := InsertMany(m, batch, now);
      && (error.None? <==>
            Distinct(batch) && forall b :: b in batch ==> IsKey(b) && b !in m)
      && (error.Some? ==> m' == m)
      && (error.None? ==> m'.Keys == m.Keys + Elements(batch) && forall b :: b in batch ==> m'[b] == now)
      && (forall k :: k in m ==> k in m' && m'[k] == m[k])
  {
  }

  lemma {:induction false} FirstMalformedIs(batch: seq<Bytes>)
    ensures FirstMalformed(batch).Some? ==>
              exists i :: 0 <= i < |batch| && MalformedAs(batch[i], FirstMalformed(batch).value)
                          && forall j :: 0 <= j < i ==> IsKey(batch[j])
  {
    hide FromLE;
    if batch != [] {
      var init := batch[..|batch| - 1];
      FirstMalformedIs(init);
      if FirstMalformed(init).Some? {
        var i :| 0 <= i < |init| && MalformedAs(init[i], FirstMalformed(init).value)
                 && forall j :: 0 <= j < i ==> IsKey(init[j]);
        assert batch[i] == init[i] && forall j :: 0 <= j < i ==> batch[j] == init[j];
      } else if FirstMalformed(batch).Some? {
        assert MalformedAs(batch[|batch| - 1], FirstMalformed(batch).value);
        assert forall j :: 0 <= j < |init| ==> init[j] in init && batch[j] == init[j];
      }
    }
  }

  /** Entry `i` is stored already or repeats an earlier entry. */
  predicate Stale(m: Entries, batch: seq<Bytes>, i: nat)
    requires i < |batch|
  {
    batch[i] in m || batch[i] in batch[..i]
  }

  lemma {:induction false} FirstSpentIs(m: Entries, keys: seq<Bytes>)
    ensures FirstSpent(m, keys).Some? ==>
              exists i :: 0 <= i < |keys| && keys[i] == FirstSpent(m, keys).value && Stale(m, keys, i)
                          && forall j :: 0 <= j < i ==> !Stale(m, keys, j)
  {
    if keys != [] {
      var init := keys[..|keys| - 1];
      FirstSpentIs(m, init);
      assert forall j :: 0 <= j < |init| ==> keys[j] == init[j] && keys[..j] == init[..j];
      assert forall j :: 0 <= j < |init| ==> (Stale(m, keys, j) <==> Stale(m, init, j));
      if FirstSpent(m, init).None? {
        forall j | 0 <= j < |init| ensures !Stale(m, init, j) {
          assert init[j] in init;
        }
        if FirstSpent(m, keys).Some? {
          assert Stale(m, keys, |keys| - 1);
        }
      }
    }
  }

  /** A refused batch names its first offender: the first malformed entry, or else the first stale one. */
  lemma BatchNamesOffender(m: Entries, batch: seq<Bytes>, now: nat)
    requires InsertMany(m, batch, now).1.Some?
    ensures
      var error := InsertMany(m, batch, now).1.value;
      if forall b :: b in batch ==> IsKey(b)
      then exists i :: 0 <= i < |batch| && error == NullifierAlreadySpent(batch[i]) && Stale(m, batch, i)
                       && forall j :: 0 <= j < i ==> !Stale(m, batch, j)
      else exists i :: 0 <= i < |batch| && MalformedAs(batch[i], error) && forall j :: 0 <= j < i ==> IsKey(batch[j])
  {
    hide IsKey;
    FirstMalformedIs(batch);
    FirstSpentIs(m, batch);
  }

  // ---------- the paged view ----------

  /** The one ascending list of a set of keys. */
  ghost function Enumerate(s: set<Bytes>): (e: seq<Bytes>)
    ensures Ascending(e) && Elements(e) == s
  {
    if s == {} then []
    else
      var x :| x in s;
      InsertSpec(x, Enumerate(s - {x}));
      ByteOrder.Insert(x, Enumerate(s - {x}))
  }

  predicate Above(cursor: Option<Bytes>, key: Bytes) {
    cursor.None? || Less(cursor.value, key)
  }

  function Beyond(keys: set<Bytes>, cursor: Option<Bytes>): set<Bytes> {
    set k | k in keys && Above(cursor, k)
  }

  /** The first `limit` keys after the cursor, in ascending order. */
  ghost function Page(keys: set<Bytes>, cursor: Option<Bytes>, limit: nat): seq<Bytes> {
    var e := Enumerate(Beyond(keys, cursor));
    if |e| <= limit then e else e[..limit]
  }

  ghost function PageResult(m: Entries, startAfter: Option<Bytes>, limit: nat): Result<seq<Bytes>, Error> {
    if limit == 0 then Err(InvalidLimit)
    else if limit > MAX_NULLIFIERS_PAGE_SIZE then Err(PageTooLarge(limit))
    else if startAfter.Some? && ToKey(startAfter.value).Err? then Err(ToKey(startAfter.value).error)
    else Ok(Page(m.Keys, startAfter, limit))
  }

  predicate KeysOk(m: Entries) {
    forall k :: k in m ==> IsKey(k)
  }

  /** Validate length and canonicality entry by entry; the keys are the entries themselves. */
  method BuildKeys(batch: seq<Bytes>) returns (r: Result<seq<Bytes>, Error>)
    ensures r == if FirstMalformed(batch).Some? then Err(FirstMalformed(batch).value) else Ok(batch)
  {
    var keys: seq<Bytes> := [];
    var i := 0;
    while i < |batch|
      invariant 0 <= i <= |batch|
      invariant keys == batch[..i] && FirstMalformed(batch[..i]).None?
    {
      assert batch[..i + 1][..i] == batch[..i];
      var key := ToNullifierKey(batch[i]);
      if key.Err? {
        MalformedPrefix(batch, i + 1);
        return Err(key.error);
      }
      keys := keys + [key.value];
      i := i + 1;
    }
    assert batch[..i] == batch;
    r := Ok(keys);
  }

  lemma StampedNothing(m: Entries, keys: seq<Bytes>, now: nat)
    ensures StampedAll(m, keys[..0], now) == m
  {
  }

  lemma StampedNext(m: Entries, keys: seq<Bytes>, i: nat, now: nat)
    requires i < |keys|
    ensures StampedAll(m, keys[..i + 1], now) == StampedAll(m, keys[..i], now)[keys[i] := now]
  {
    assert keys[..i + 1] == keys[..i] + [keys[i]];
  }

  /** The freshness phase: against the registry and against the keys of the batch seen so far. */
  method FindSpent(stored: Entries, keys: seq<Bytes>) returns (spent: Option<Bytes>)
    ensures spent == FirstSpent(stored, keys)
  {
    var seen: set<Bytes> := {};
    var i := 0;
    while i < |keys|
      invariant 0 <= i <= |keys|
      invariant seen == Elements(keys[..i]) && FirstSpent(stored, keys[..i]).None?
    {
      assert keys[..i + 1][..i] == keys[..i] && keys[..i + 1] == keys[..i] + [keys[i]];
      if keys[i] in stored || keys[i] in seen {
        SpentPrefix(stored, keys, i + 1);
        return Some(keys[i]);
      }
      ElementsConcat(keys[..i], [keys[i]]);
      seen := seen + {keys[i]};
      i := i + 1;
    }
    assert keys[..i] == keys;
    spent := None;
  }

  class Registry {
    var nullifiers: Entries

    constructor ()
      ensures nullifiers == map[]
    {
      nullifiers := map[];
    }

    method InsertNullifier(bytes: Bytes, now: nat) returns (error: Option<Error>)
      modifies this
      ensures (nullifiers, error) == InsertOne(old(nullifiers), bytes, now)
      ensures error.None? <==> IsKey(bytes) && bytes !in old(nullifiers)
      ensures nullifiers == if error.None? then old(nullifiers)[bytes := now] else old(nullifiers)
    {
      var key := ToNullifierKey(bytes);
      if key.Err? {
        return Some(key.error);
      }
      if key.value in nullifiers {
        return Some(NullifierAlreadySpent(key.value));
      }
      nullifiers := nullifiers[key.value := now];
      error := None;
    }

    /** The writes of a batch, after both checks have passed. */
    method InsertFresh(keys: seq<Bytes>, now: nat)
      modifies this
      ensures nullifiers == StampedAll(old(nullifiers), keys, now)
    {
      hide StampedAll;
      StampedNothing(nullifiers, keys, now);
      var i := 0;
      while i < |keys|
        invariant 0 <= i <= |keys|
        invariant nullifiers == StampedAll(old(nullifiers), keys[..i], now)
      {
        StampedNext(old(nullifiers), keys, i, now);
        nullifiers := nullifiers[keys[i] := now];
        i := i + 1;
      }
      assert keys[..i] == keys;
    }

    method InsertBatch(batch: seq<Bytes>, now: nat) returns (error: Option<Error>)
      modifies this
      ensures (nullifiers, error) == InsertMany(old(nullifiers), batch, now)
    {
      hide StampedAll, FirstMalformed, FirstSpent;
      var keys := BuildKeys(batch);
      if keys.Err? {
        return Some(keys.error);
      }
      var spent := FindSpent(nullifiers, keys.value);
      if spent.Some? {
        return Some(NullifierAlreadySpent(spent.value));
      }
      InsertFresh(keys.value, now);
      error := None;
    }

    method ContainsNullifier(bytes: Bytes) returns (spent: bool)
      ensures spent <==> IsKey(bytes) && bytes in nullifiers
    {
      var key := ToNullifierKey(bytes);
      spent := key.Ok? && key.value in nullifiers;
    }

    method SpentAt(bytes: Bytes) returns (at: Option<nat>)
      ensures at == if IsKey(bytes) && bytes in nullifiers then Some(nullifiers[bytes]) else None
    {
      var key := ToNullifierKey(bytes);
      if key.Err? || key.value !in nullifiers {
        return None;
      }
      at := Some(nullifiers[key.value]);
    }

    method GetNullifiersPage(startAfter: Option<Bytes>, limit: nat) returns (r: Result<seq<Bytes>, Error>)
      ensures r == PageResult(nullifiers, startAfter, limit)
    {
      if limit == 0 {
        return Err(InvalidLimit);
      }
      if limit > MAX_NULLIFIERS_PAGE_SIZE {
        return Err(PageTooLarge(limit));
      }
      if startAfter.Some? {
        var key := ToNullifierKey(startAfter.value);
        if key.Err? {
          return Err(key.error);
        }
      }
      hide Less, Beyond, Enumerate, Ascending, FromLE;
      var page: seq<Bytes> := [];
      var cursor := startAfter;
      ghost var all := Enumerate(Beyond(nullifiers.Keys, startAfter));
      var more := true;
      while more && |page| < limit
        invariant |page| <= |all| && |page| <= limit && page == all[..|page|]
        invariant cursor == if page == [] then startAfter else Some(page[|page| - 1])
        invariant !more ==> page == all
        decreases limit - |page|, more
      {
        var next := NextKey(nullifiers.Keys, cursor);
        LeastIsNext(nullifiers.Keys, startAfter, all, |page|, next);
        if next.Some? {
          page := page + [next.value];
          cursor := next;
        } else {
          more := false;
        }
      }
      assert all[..|all|] == all;
      r := Ok(page);
    }
  }

  /** The key-ordered map's next entry: the least key above the cursor. */
  method NextKey(keys: set<Bytes>, cursor: Option<Bytes>) returns (next: Option<Bytes>)
    ensures next.None? ==> Beyond(keys, cursor) == {}
    ensures next.Some? ==> next.value in Beyond(keys, cursor)
                           && forall k :: k in Beyond(keys, cursor) ==> !Less(k, next.value)
  {
    next := None;
    var rest := keys;
    while rest != {}
      invariant rest <= keys
      invariant next.None? ==> Beyond(keys - rest, cursor) == {}
      invariant next.Some? ==> next.value in Beyond(keys, cursor)
                               && forall k :: k in Beyond(keys - rest, cursor) ==> !Less(k, next.value)
      decreases |rest|
    {
      var k :| k in rest;
      rest := rest - {k};
      if Above(cursor, k) && (next.None? || Less(k, next.value)) {
        forall j | j in Beyond(keys - rest, cursor) ensures !Less(j, k) {
          LessIrreflexive(k);
          assert j == k || j in Beyond(keys - (rest + {k}), cursor);
          if j != k && Less(j, k) && next.Some? {
            LessTransitive(j, k, next.value);
          }
        }
        next := Some(k);
      }
    }
    assert keys - rest == keys;
  }

  lemma {:induction false} MalformedPrefix(batch: seq<Bytes>, n: nat)
    requires n <= |batch| && FirstMalformed(batch[..n]).Some?
    ensures FirstMalformed(batch) == FirstMalformed(batch[..n])
    decreases |batch| - n
  {
    if n == |batch| {
      assert batch[..n] == batch;
    } else {
      assert batch[..n + 1][..n] == batch[..n];
      MalformedPrefix(batch, n + 1);
    }
  }

  lemma {:induction false} SpentPrefix(m: Entries, keys: seq<Bytes>, n: nat)
    requires n <= |keys| && FirstSpent(m, keys[..n]).Some?
    ensures FirstSpent(m, keys) == FirstSpent(m, keys[..n])
    decreases |keys| - n
  {
    if n == |keys| {
      assert keys[..n] == keys;
    } else {
      assert keys[..n + 1][..n] == keys[..n];
      SpentPrefix(m, keys, n + 1);
    }
  }

  /** In an ascending list, the least key above the one at `n - 1` is the one at `n`. */
  lemma LeastIsNext(keys: set<Bytes>, start: Option<Bytes>, all: seq<Bytes>, n: nat, next: Option<Bytes>)
    requires Ascending(all) && Elements(all) == Beyond(keys, start) && n <= |all|
    requires var cursor := if n == 0 then start else Some(all[n - 1]);
             && (next.None? ==> Beyond(keys, cursor) == {})
             && (next.Some? ==> next.value in Beyond(keys, cursor)
                                && forall k :: k in Beyond(keys, cursor) ==> !Less(k, next.value))
    ensures next == if n < |all| then Some(all[n]) else None
  {
    var cursor := if n == 0 then start else Some(all[n - 1]);
    if n < |all| {
      assert all[n] in Elements(all);
      assert all[n] in Beyond(keys, cursor);
    }
    if next.Some? {
      if n > 0 && start.Some? {
        assert all[n - 1] in Elements(all);
        LessTransitive(start.value, all[n - 1], next.value);
      }
      assert next.value in Elements(all);
      var j :| 0 <= j < |all| && all[j] == next.value;
      if j < n {
        LessIrreflexive(all[j]);
        if j < n - 1 {
          LessTransitive(all[j], all[n - 1], all[j]);
        }
      }
    }
  }

  // ---------- runs ----------

  datatype Op = One(bytes: Bytes, now: nat) | Many(batch: seq<Bytes>, now: nat)

  function Apply(m: Entries, op: Op): Entries {
    match op
    case One(b, now) => InsertOne(m, b, now).0
    case Many(batch, now) => InsertMany(m, batch, now).0
  }

  ghost predicate Run(ms: seq<Entries>, ops: seq<Op>) {
    && |ms| == |ops| + 1 && ms[0] == map[]
    && forall i :: 0 <= i < |ops| ==> ms[i + 1] == Apply(ms[i], ops[i])
  }

  lemma ApplyGrows(m: Entries, op: Op)
    requires KeysOk(m)
    ensures KeysOk(Apply(m, op)) && m.Keys <= Apply(m, op).Keys
    ensures forall k :: k in m ==> Apply(m, op)[k] == m[k]
  {
    if op.Many? {
      BatchAllOrNothing(m, op.batch, op.now);
    }
  }

  lemma {:induction false} KeysStayCanonical(ms: seq<Entries>, ops: seq<Op>, n: nat)
    requires Run(ms, ops) && n < |ms|
    ensures KeysOk(ms[n])
  {
    hide Apply, IsKey;
    if n > 0 {
      KeysStayCanonical(ms, ops, n - 1);
      assert ms[n - 1 + 1] == Apply(ms[n - 1], ops[n - 1]);
      ApplyGrows(ms[n - 1], ops[n - 1]);
    }
  }

  /** A stored key stays stored, and its timestamp never changes. */
  lemma {:induction false} TimestampsNeverChange(ms: seq<Entries>, ops: seq<Op>, i: nat, j: nat)
    requires Run(ms, ops) && i <= j < |ms|
    ensures ms[i].Keys <= ms[j].Keys
    ensures forall k :: k in ms[i] ==> ms[j][k] == ms[i][k]
    decreases j - i
  {
    hide Apply, IsKey;
    if i < j {
      TimestampsNeverChange(ms, ops, i, j - 1);
      KeysStayCanonical(ms, ops, j - 1);
      assert ms[j - 1 + 1] == Apply(ms[j - 1], ops[j - 1]);
      ApplyGrows(ms[j - 1], ops[j - 1]);
    }
  }

  /** In every reachable registry distinct keys are distinct field elements, and none is reduced by the field. */
  lemma StoredKeysAreElements(ms: seq<Entries>, ops: seq<Op>, n: nat, a: Bytes, b: Bytes)
    requires Run(ms, ops) && n < |ms| && a in ms[n] && b in ms[n]
    ensures FrElement(a) == FromLE(a)
    ensures a != b ==> FrElement(a) != FrElement(b)
  {
    KeysStayCanonical(ms, ops, n);
    CanonicalIdentity(a, b);
  }

  // ---------- every key is spent at most once ----------

  /** The keys an operation presents, and its timestamp. */
  function KeysOf(op: Op): seq<Bytes> {
    match op
    case One(b, _) => [b]
    case Many(batch, _) => batch
  }

  function Answer(m: Entries, op: Op): Option<Error> {
    match op
    case One(b, now) => InsertOne(m, b, now).1
    case Many(batch, now) => InsertMany(m, batch, now).1
  }

  /** A run together with what each operation was told; `None` is success. */
  ghost predicate Answered(ms: seq<Entries>, ops: seq<Op>, answers: seq<Option<Error>>) {
    && Run(ms, ops) && |answers| == |ops|
    && forall i :: 0 <= i < |ops| ==> answers[i] == Answer(ms[i], ops[i])
  }

  /** Operation `i` was accepted and spent `k`. */
  predicate SpentBy(ops: seq<Op>, answers: seq<Option<Error>>, i: nat, k: Bytes)
    requires |answers| == |ops|
  {
    i < |ops| && answers[i].None? && k in KeysOf(ops[i])
  }

  /** One operation of either kind: accepted exactly when all its keys are canonical, distinct and new. */
  lemma OperationExactly(m: Entries, op: Op)
    ensures
      var keys, m' := KeysOf(op), Apply(m, op);
      && (Answer(m, op).None? <==>
            Distinct(keys) && forall b :: b in keys ==> |b| == 32 && FromLE(b) < FR_MODULUS && b !in m)
      && (Answer(m, op).Some? ==> m' == m)
      && (Answer(m, op).None? ==>
            && (forall k :: k in m' <==> k in m || k in keys)
            && (forall k :: k in m ==> m'[k] == m[k]) && (forall k :: k in keys ==> m'[k] == op.now))
  {
    hide FromLE, InsertOne, InsertMany;
    match op
    case One(b, now) => InsertsExactly(m, b, now);
    case Many(batch, now) =>
      BatchAllOrNothing(m, batch, now);
      assert forall k :: k in Elements(batch) <==> k in batch;
  }

  /** One operation, seen from one key. */
  lemma KeyAfter(m: Entries, op: Op, k: Bytes)
    ensures
      var m', spends := Apply(m, op), Answer(m, op).None? && k in KeysOf(op);
      && (k in m' <==> k in m || spends) && !(k in m && spends)
      && (k in m ==> m'[k] == m[k]) && (spends ==> m'[k] == op.now)
  {
    hide Apply, Answer, FromLE;
    OperationExactly(m, op);
  }

  lemma {:induction false} StoredKey(ms: seq<Entries>, ops: seq<Op>, answers: seq<Option<Error>>, n: nat, k: Bytes)
    requires Answered(ms, ops, answers) && n < |ms|
    ensures k in ms[n] <==> exists i :: 0 <= i < n && SpentBy(ops, answers, i, k)
    ensures forall i :: 0 <= i < n && SpentBy(ops, answers, i, k) ==> k in ms[n] && ms[n][k] == ops[i].now
  {
    hide Apply, Answer, KeysOf;
    if n > 0 {
      StoredKey(ms, ops, answers, n - 1, k);
      assert ms[n - 1 + 1] == Apply(ms[n - 1], ops[n - 1]) && answers[n - 1] == Answer(ms[n - 1], ops[n - 1]);
      KeyAfter(ms[n - 1], ops[n - 1], k);
      if k in ms[n] && k !in ms[n - 1] {
        assert SpentBy(ops, answers, n - 1, k);
      }
    }
  }

  /** The registry holds exactly the keys of the accepted operations, each with its operation's timestamp. */
  lemma StoredExactly(ms: seq<Entries>, ops: seq<Op>, answers: seq<Option<Error>>, n: nat)
    requires Answered(ms, ops, answers) && n < |ms|
    ensures forall k :: k in ms[n] <==> exists i :: 0 <= i < n && SpentBy(ops, answers, i, k)
    ensures forall i, k :: 0 <= i < n && SpentBy(ops, answers, i, k) ==> k in ms[n] && ms[n][k] == ops[i].now
  {
    hide Apply, Answer, SpentBy;
    forall k
      ensures k in ms[n] <==> exists i :: 0 <= i < n && SpentBy(ops, answers, i, k)
      ensures forall i :: 0 <= i < n && SpentBy(ops, answers, i, k) ==> k in ms[n] && ms[n][k] == ops[i].now
    {
      StoredKey(ms, ops, answers, n, k);
    }
  }

  /** An operation is accepted exactly when its keys are canonical, distinct, and in no operation accepted before it. */
  lemma AcceptedExactly(ms: seq<Entries>, ops: seq<Op>, answers: seq<Option<Error>>, j: nat)
    requires Answered(ms, ops, answers) && j < |ops|
    ensures
      answers[j].None? <==>
        && Distinct(KeysOf(ops[j]))
        && forall b :: b in KeysOf(ops[j]) ==>
             |b| == 32 && FromLE(b) < FR_MODULUS && forall i :: 0 <= i < j ==> !SpentBy(ops, answers, i, b)
  {
    hide Apply, Answer, FromLE;
    StoredExactly(ms, ops, answers, j);
    OperationExactly(ms[j], ops[j]);
  }

  /**
  No double spend. Whatever operations follow or precede, one by one or in batches, a key is spent by
  at most one operation of a run, and from then on it is stored with that operation's timestamp; every
  other operation that contains it is refused.
  */
  lemma SpentAtMostOnce(ms: seq<Entries>, ops: seq<Op>, answers: seq<Option<Error>>, i: nat, j: nat, k: Bytes, n: nat)
    requires Answered(ms, ops, answers) && SpentBy(ops, answers, i, k)
    requires j < |ops| && k in KeysOf(ops[j]) && i < n < |ms|
    ensures answers[j].None? <==> j == i
    ensures k in ms[n] && ms[n][k] == ops[i].now
  {
    hide Apply, Answer, KeysOf;
    StoredKey(ms, ops, answers, n, k);
    if i < j {
      LaterIsRefused(ms, ops, answers, i, j, k);
    } else if j < i && answers[j].None? {
      LaterIsRefused(ms, ops, answers, j, i, k);
    }
  }

  lemma LaterIsRefused(ms: seq<Entries>, ops: seq<Op>, answers: seq<Option<Error>>, i: nat, j: nat, k: Bytes)
    requires Answered(ms, ops, answers) && SpentBy(ops, answers, i, k)
    requires i < j < |ops| && k in KeysOf(ops[j])
    ensures answers[j].Some?
  {
    hide Apply, Answer, FromLE, KeysOf, Distinct;
    AcceptedExactly(ms, ops, answers, j);
  }

  /** The registry object carries out any list of operations, and answers as the run says. */
  method PerformRun(r: Registry, ops: seq<Op>) returns (answers: seq<Option<Error>>, ghost ms: seq<Entries>)
    requires r.nullifiers == map[]
    modifies r
    ensures Answered(ms, ops, answers) && r.nullifiers == ms[|ops|]
  {
    hide InsertOne, InsertMany, IsKey;
    answers, ms := [], [r.nullifiers];
    var i := 0;
    while i < |ops|
      invariant 0 <= i <= |ops| && Answered(ms, ops[..i], answers)
      invariant r.nullifiers == ms[i]
    {
      var answer: Option<Error>;
      match ops[i] {
        case One(b, now) => answer := r.InsertNullifier(b, now);
        case Many(batch, now) => answer := r.InsertBatch(batch, now);
      }
      assert ops[..i + 1] == ops[..i] + [ops[i]];
      answers, ms := answers + [answer], ms + [r.nullifiers];
      i := i + 1;
    }
    assert ops[..i] == ops;
  }

  // ---------- a paged walk while the registry grows ----------

  /** One page request of a walk: the registry state it hit, and the limit asked for. */
  datatype Request = Request(state: nat, limit: nat)

  function Flatten(pages: seq<seq<Bytes>>): seq<Bytes> {
    if pages == [] then [] else Flatten(pages[..|pages| - 1]) + pages[|pages| - 1]
  }

  /** The cursor after some pages: the last key received so far. */
  function Cursor(pages: seq<seq<Bytes>>): Option<Bytes> {
    var got := Flatten(pages);
    if got == [] then None else Some(got[|got| - 1])
  }

  /** Each request hits the same state as its predecessor or a later one, and starts after the last key received. */
  ghost predicate Walk(ms: seq<Entries>, rs: seq<Request>, pages: seq<seq<Bytes>>) {
    && |rs| == |pages|
    && (forall i :: 0 <= i < |rs| ==> rs[i].state < |ms|)
    && (forall i, j :: 0 <= i <= j < |rs| ==> rs[i].state <= rs[j].state)
    && (forall i :: 0 <= i < |rs| ==> PageResult(ms[rs[i].state], Cursor(pages[..i]), rs[i].limit) == Ok(pages[i]))
  }

  /** What the pages so far are worth, as seen from one registry state at their start and one at their end. */
  ghost predicate Collected(got: seq<Bytes>, first: set<Bytes>, last: set<Bytes>) {
    && Ascending(got) && Elements(got) <= last
    && forall k :: k in first && (got != [] && !Less(got[|got| - 1], k)) ==> k in got
  }

  lemma PageFacts(keys: set<Bytes>, cursor: Option<Bytes>, limit: nat)
    requires limit > 0
    ensures
      var p := Page(keys, cursor, limit);
      && Ascending(p) && Elements(p) <= Beyond(keys, cursor)
      && (|p| < limit ==> Elements(p) == Beyond(keys, cursor))
      && (p == [] ==> Beyond(keys, cursor) == {})
      && (p != [] ==> forall k :: k in Beyond(keys, cursor) && !Less(p[|p| - 1], k) ==> k in p)
  {
    var e := Enumerate(Beyond(keys, cursor));
    var p := Page(keys, cursor, limit);
    forall k | k in Elements(p) ensures k in Elements(e) {
    }
    if p != [] {
      forall k | k in Beyond(keys, cursor) && !Less(p[|p| - 1], k) ensures k in p {
        assert k in Elements(e);
        var j :| 0 <= j < |e| && e[j] == k;
        assert j < |p| ==> p[j] == k;
      }
    }
  }

  /**
  One page, without its enumeration: at most `limit` stored keys after the cursor, ascending, and a
  key it leaves out is missing only because the page is full of smaller ones.
  */
  lemma PageExactly(m: Entries, startAfter: Option<Bytes>, limit: nat)
    ensures
      var r := PageResult(m, startAfter, limit);
      && (r.Ok? <==>
            1 <= limit <= 500 && (startAfter.Some? ==> |startAfter.value| == 32 && FromLE(startAfter.value) < FR_MODULUS))
      && (limit == 0 ==> r == Err(InvalidLimit)) && (limit > 500 ==> r == Err(PageTooLarge(limit)))
      && (1 <= limit <= 500 && r.Err? ==> startAfter.Some? && MalformedAs(startAfter.value, r.error))
      && (r.Ok? ==>
            && |r.value| <= limit && (forall i, j :: 0 <= i < j < |r.value| ==> Less(r.value[i], r.value[j]))
            && (forall k :: k in r.value ==> k in m && (startAfter.Some? ==> Less(startAfter.value, k)))
            && (forall k :: k in m && (startAfter.Some? ==> Less(startAfter.value, k)) && k !in r.value ==>
                  |r.value| == limit && forall i :: 0 <= i < limit ==> Less(r.value[i], k)))
  {
    hide FromLE, Less, Enumerate;
    var r := PageResult(m, startAfter, limit);
    if r.Ok? {
      PageFacts(m.Keys, startAfter, limit);
      assert forall k :: k in r.value ==> k in Elements(r.value);
      forall k | k in m && (startAfter.Some? ==> Less(startAfter.value, k)) && k !in r.value
        ensures |r.value| == limit && forall i :: 0 <= i < limit ==> Less(r.value[i], k)
      {
        assert k in Beyond(m.Keys, startAfter);
        forall i | 0 <= i < limit ensures Less(r.value[i], k) {
          if i < limit - 1 {
            LessTransitive(r.value[i], r.value[limit - 1], k);
          }
        }
      }
    }
  }

  lemma AscendingJoin(a: seq<Bytes>, b: seq<Bytes>)
    requires Ascending(a) && Ascending(b)
    requires a != [] ==> forall k :: k in b ==> Less(a[|a| - 1], k)
    ensures Ascending(a + b)
  {
    forall i, j | 0 <= i < |a| && 0 <= j < |b| ensures Less(a[i], b[j]) {
      assert b[j] in b;
      if i < |a| - 1 {
        LessTransitive(a[i], a[|a| - 1], b[j]);
      }
    }
  }

  /** Adding the next page of a larger state keeps what was collected, and extends it up to the new cursor. */
  lemma CollectPage(got: seq<Bytes>, first: set<Bytes>, last: set<Bytes>, next: set<Bytes>, limit: nat)
    requires Collected(got, first, last) && first <= next && last <= next && limit > 0
    ensures
      var cursor := if got == [] then None else Some(got[|got| - 1]);
      var p := Page(next, cursor, limit);
      && Collected(got + p, first, next)
      && (|p| < limit ==> first <= Elements(got + p))
  {
    var cursor := if got == [] then None else Some(got[|got| - 1]);
    var p := Page(next, cursor, limit);
    PageFacts(next, cursor, limit);
    forall k | k in p ensures Above(cursor, k) && k in next {
      assert k in Elements(p);
    }
    AscendingJoin(got, p);
    ElementsConcat(got, p);
    forall k | k in first && (|p| < limit || (got + p != [] && !Less((got + p)[|got + p| - 1], k)))
      ensures k in got + p
    {
      if got != [] && !Less(got[|got| - 1], k) {
        assert k in got;
      } else {
        assert k in Beyond(next, cursor);
        if p == [] || |p| < limit {
          assert k in Elements(p);
        }
      }
    }
  }

  /** Page `i` of a walk is the page of the state it hit, from the last key received before it. */
  lemma WalkPage(ms: seq<Entries>, rs: seq<Request>, pages: seq<seq<Bytes>>, i: nat)
    requires Walk(ms, rs, pages) && i < |pages|
    ensures rs[i].state < |ms| && rs[0].state <= rs[i].state && (i > 0 ==> rs[i - 1].state <= rs[i].state)
    ensures rs[i].limit > 0 && pages[i] == Page(ms[rs[i].state].Keys, Cursor(pages[..i]), rs[i].limit)
    ensures Flatten(pages[..i + 1]) == Flatten(pages[..i]) + pages[i]
  {
    hide Page, Cursor;
    assert PageResult(ms[rs[i].state], Cursor(pages[..i]), rs[i].limit) == Ok(pages[i]);
    assert pages[..i + 1][..i] == pages[..i];
  }

  lemma {:induction false} WalkCollects(ms: seq<Entries>, ops: seq<Op>, rs: seq<Request>, pages: seq<seq<Bytes>>, n: nat)
    requires Run(ms, ops) && Walk(ms, rs, pages) && 0 < n <= |pages|
    ensures rs[0].state < |ms| && rs[n - 1].state < |ms|
    ensures Collected(Flatten(pages[..n]), ms[rs[0].state].Keys, ms[rs[n - 1].state].Keys)
    ensures |pages[n - 1]| < rs[n - 1].limit ==> ms[rs[0].state].Keys <= Elements(Flatten(pages[..n]))
  {
    var got := Flatten(pages[..n - 1]);
    WalkPage(ms, rs, pages, n - 1);
    if n > 1 {
      WalkPage(ms, rs, pages, n - 2);
      WalkCollects(ms, ops, rs, pages, n - 1);
    }
    hide Walk, Run, Collected, Page, Flatten;
    var first, next := ms[rs[0].state].Keys, ms[rs[n - 1].state].Keys;
    TimestampsNeverChange(ms, ops, rs[0].state, rs[n - 1].state);
    if n == 1 {
      NothingCollected(got, first);
      CollectPage(got, first, {}, next, rs[0].limit);
    } else {
      TimestampsNeverChange(ms, ops, rs[n - 2].state, rs[n - 1].state);
      CollectPage(got, first, ms[rs[n - 2].state].Keys, next, rs[n - 1].limit);
    }
  }

  lemma NothingCollected(got: seq<Bytes>, first: set<Bytes>)
    requires got == []
    ensures Collected(got, first, {})
  {
  }

  /**
  The walk is exact: whatever the page sizes and whatever is inserted between pages, following the
  last key as cursor yields a strictly ascending list of keys present at the end; once a page comes
  back short, the list contains every key present at the start, and if the two states hold equally
  many keys it is exactly their set.
  */
  lemma PagedWalkIsExact(ms: seq<Entries>, ops: seq<Op>, rs: seq<Request>, pages: seq<seq<Bytes>>)
    requires Run(ms, ops) && Walk(ms, rs, pages) && pages != []
    ensures
      var got := Flatten(pages);
      var first, last := ms[rs[0].state].Keys, ms[rs[|rs| - 1].state].Keys;
      && Ascending(got) && Elements(got) <= last
      && (|pages[|pages| - 1]| < rs[|rs| - 1].limit ==>
            && first <= Elements(got)
            && (|first| == |last| ==> got == Enumerate(first)))
  {
    WalkCollects(ms, ops, rs, pages, |pages|);
    assert pages[..|pages|] == pages;
    var got := Flatten(pages);
    var first, last := ms[rs[0].state].Keys, ms[rs[|rs| - 1].state].Keys;
    if first <= Elements(got) && |first| == |last| {
      SameSize(first, last);
      AscendingUnique(got, Enumerate(first));
    }
  }

  lemma SameSize(a: set<Bytes>, b: set<Bytes>)
    requires a <= b && |a| == |b|
    ensures a == b
  {
    assert b == a + (b - a);
    assert |b| == |a| + |b - a|;
  }

  /** A walk is never rejected half way: the last key of a page is always an acceptable cursor. */
  lemma CursorIsAccepted(ms: seq<Entries>, ops: seq<Op>, rs: seq<Request>, pages: seq<seq<Bytes>>, state: nat, limit: nat)
    requires Run(ms, ops) && Walk(ms, rs, pages) && pages != [] && state < |ms|
    requires 1 <= limit <= MAX_NULLIFIERS_PAGE_SIZE
    ensures PageResult(ms[state], Cursor(pages), limit).Ok?
  {
    PagedWalkIsExact(ms, ops, rs, pages);
    WalkPage(ms, rs, pages, |pages| - 1);
    hide Run, Walk, Ascending, Enumerate, IsKey, KeysOk, PageResult, Flatten;
    KeysStayCanonical(ms, ops, rs[|rs| - 1].state);
    ReceivedAreKeys(ms[rs[|rs| - 1].state], Flatten(pages));
    KeyIsAccepted(ms[state], Cursor(pages), limit);
  }

  lemma KeyIsAccepted(m: Entries, cursor: Option<Bytes>, limit: nat)
    requires cursor.Some? ==> IsKey(cursor.value)
    requires 1 <= limit <= MAX_NULLIFIERS_PAGE_SIZE
    ensures PageResult(m, cursor, limit).Ok?
  {
    hide FromLE, Page;
  }

  lemma ReceivedAreKeys(m: Entries, got: seq<Bytes>)
    requires KeysOk(m) && Elements(got) <= m.Keys
    ensures got != [] ==> IsKey(got[|got| - 1])
  {
    if got != [] {
      assert got[|got| - 1] in Elements(got);
    }
  }
}
