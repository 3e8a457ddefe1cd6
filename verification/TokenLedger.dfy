/**
The token ledger's `icrc1_transfer`, as far as a deduplicated transfer is concerned.

Balances, the ledger clock, the live fee and the amount of expired dedup rows that one
call happens to prune are supplied by the environment with each call; the dedup map and
the block log are the ledger's own state.
*/
module TokenLedger {
  import opened Wrappers
  import opened ByteStrings

  const TX_DEDUP_WINDOW_NS: nat := 24 * 60 * 60 * 1_000_000_000
  const PERMITTED_DRIFT_NS: nat := 5 * 60 * 1_000_000_000

  datatype Account = Account(owner: Principal, subaccount: Option<Bytes>) {
    /** The all-zero subaccount names the default account. */
    function Key(): Account {
      if subaccount == Some(Zeros(32)) then Account(owner, None) else this
    }
  }

  datatype TransferArgs = TransferArgs(
    fromSubaccount: Option<Bytes>,
    to: Account,
    amount: nat,
    fee: Option<nat>,
    memo: Option<Bytes>,
    createdAt: Option<nat>)

  /** The transfer identity that the dedup map is keyed by. */
  datatype TransferKey = TransferKey(
    from: Account, to: Account, amount: nat, fee: Option<nat>, memo: Bytes, createdAt: Option<nat>)

  datatype Block = Block(key: TransferKey, charged: nat) {
    function Debit(): nat {
      key.amount + charged
    }
  }

  datatype Ledger = Ledger(now: nat, dedup: map<TransferKey, nat>, blocks: seq<Block>)

  /** What the environment decides for one call. */
  datatype Conditions = Conditions(
    now: nat, fee: nat, liquid: nat, creditFits: bool, pruned: set<TransferKey>)

  datatype Reply =
    | Accepted(block: nat)
    | Duplicate(of: nat)
    | BadFee
    | BadBurn
    | InsufficientFunds
    | TooOld
    | CreatedInFuture
    | TemporarilyUnavailable
    | GenericError

  function KeyOf(caller: Principal, args: TransferArgs): TransferKey {
    TransferKey(
      Account(caller, args.fromSubaccount).Key(), args.to.Key(), args.amount, args.fee,
      if args.memo.Some? then args.memo.value else [], args.createdAt)
  }

  /** A dedup row is expired once its creation time lies more than the window in the past. */
  predicate Expired(key: TransferKey, now: nat) {
    key.createdAt.Some? && key.createdAt.value + TX_DEDUP_WINDOW_NS < now
  }

  function Prune(dedup: map<TransferKey, nat>, pruned: set<TransferKey>, now: nat): map<TransferKey, nat> {
    map k | k in dedup && !(k in pruned && Expired(k, now)) :: dedup[k]
  }

  function Transfer(l: Ledger, c: Conditions, caller: Principal, args: TransferArgs): (Ledger, Reply) {
    var seen := l.(now := c.now);
    if args.fee.Some? && args.fee.value != c.fee then (seen, BadFee)
    else if args.createdAt.Some? && args.createdAt.value > c.now + PERMITTED_DRIFT_NS then (seen, CreatedInFuture)
    else if args.createdAt.Some? && SatSub(c.now, args.createdAt.value) > TX_DEDUP_WINDOW_NS then (seen, TooOld)
    else if args.amount > U128_MAX || args.amount == 0 || args.amount + c.fee > U128_MAX then (seen, GenericError)
    else
      var key := KeyOf(caller, args);
      if args.createdAt.Some? && key in l.dedup then (seen, Duplicate(l.dedup[key]))
      else if c.liquid < args.amount + c.fee then (seen, InsufficientFunds)
      else if !c.creditFits then (seen, GenericError)
      else (Execute(l, c, key), Accepted(|l.blocks|))
  }

  /** Every check passed: write the block and, for a dated transfer, prune and record its dedup row. */
  function Execute(l: Ledger, c: Conditions, key: TransferKey): Ledger {
    var dedup :=
      if key.createdAt.Some? then Prune(l.dedup, c.pruned, c.now)[key := |l.blocks|] else l.dedup;
    Ledger(c.now, dedup, l.blocks + [Block(key, c.fee)])
  }

  /**
  Every executed transfer that carries a creation time is either still in the dedup map
  under its own block index or too old to be presented again; hence no identity executes twice.
  */
  ghost predicate LedgerInv(l: Ledger) {
    && (forall i :: 0 <= i < |l.blocks| && l.blocks[i].key.createdAt.Some? ==>
          Remembered(l, i) || Expired(l.blocks[i].key, l.now))
    && (forall k :: k in l.dedup ==>
          l.dedup[k] < |l.blocks| && l.blocks[l.dedup[k]].key == k && k.createdAt.Some?)
    && ExecutedOnce(l)
    && (forall i :: 0 <= i < |l.blocks| && l.blocks[i].key.fee.Some? ==>
          l.blocks[i].charged == l.blocks[i].key.fee.value)
  }

  ghost predicate Remembered(l: Ledger, i: nat)
    requires i < |l.blocks|
  {
    l.blocks[i].key in l.dedup && l.dedup[l.blocks[i].key] == i
  }

  /** Identical arguments with a creation time execute at most once over the ledger's life. */
  ghost predicate ExecutedOnce(l: Ledger) {
    forall i, j :: 0 <= i < j < |l.blocks| && l.blocks[i].key.createdAt.Some? ==>
      l.blocks[i].key != l.blocks[j].key
  }

  /**
  One call of `icrc1_transfer` at a time no earlier than the last: it keeps the at-most-once
  invariant, appends exactly the presented identity when it accepts, and answers `Duplicate`
  only with the block that executed that same identity.
  */
  lemma TransferKeepsInv(l: Ledger, c: Conditions, caller: Principal, args: TransferArgs)
    requires LedgerInv(l) && l.now <= c.now
    ensures
      var (l', reply) := Transfer(l, c, caller, args);
      && LedgerInv(l')
      && l'.now == c.now
      && (reply.Accepted? ==>
            reply.block == |l.blocks| && l'.blocks == l.blocks + [Block(KeyOf(caller, args), c.fee)])
      && (reply.Duplicate? ==>
            reply.of < |l.blocks| && l.blocks[reply.of].key == KeyOf(caller, args))
      && (!reply.Accepted? ==> l'.blocks == l.blocks)
  {
    var (l', reply) := Transfer(l, c, caller, args);
    if reply.Accepted? {
      ExecuteKeepsInv(l, c, KeyOf(caller, args));
    } else {
      ClockKeepsInv(l, c.now);
    }
  }

  lemma ClockKeepsInv(l: Ledger, now: nat)
    requires LedgerInv(l) && l.now <= now
    ensures LedgerInv(l.(now := now))
  {
    var l' := l.(now := now);
    forall i | 0 <= i < |l'.blocks| && l'.blocks[i].key.createdAt.Some?
      ensures Remembered(l', i) || Expired(l'.blocks[i].key, l'.now)
    {
      assert Remembered(l, i) || Expired(l.blocks[i].key, l.now);
    }
    assert ExecutedOnce(l');
  }

  lemma ExecuteKeepsInv(l: Ledger, c: Conditions, key: TransferKey)
    requires LedgerInv(l) && l.now <= c.now
    requires key.fee.Some? ==> key.fee.value == c.fee
    requires key.createdAt.Some? ==> !Expired(key, c.now) && key !in l.dedup
    ensures LedgerInv(Execute(l, c, key))
  {
    var l' := Execute(l, c, key);
    forall i | 0 <= i < |l.blocks| && l.blocks[i].key.createdAt.Some?
      ensures l'.blocks[i] == l.blocks[i]
      ensures l.blocks[i].key != key
      ensures Remembered(l', i) || Expired(l.blocks[i].key, c.now)
    {
      assert Remembered(l, i) || Expired(l.blocks[i].key, l.now);
    }
    forall i, j | 0 <= i < j < |l'.blocks| && l'.blocks[i].key.createdAt.Some?
      ensures l'.blocks[i].key != l'.blocks[j].key
    {
      if j < |l.blocks| {
        assert l.blocks[i].key != l.blocks[j].key;
      }
    }
  }

  /** The creation time lies within five minutes ahead and 24 hours behind the ledger's clock. */
  predicate InTime(created: nat, now: nat) {
    created <= now + 300_000_000_000 && now <= created + 86_400_000_000_000
  }

  /** The default account has one name, and an absent memo counts as an empty one. */
  function IdentityOf(caller: Principal, args: TransferArgs): TransferKey {
    var from := if args.fromSubaccount == Some(Zeros(32)) then None else args.fromSubaccount;
    var to := if args.to.subaccount == Some(Zeros(32)) then None else args.to.subaccount;
    TransferKey(Account(caller, from), Account(args.to.owner, to), args.amount, args.fee,
                if args.memo.None? then [] else args.memo.value, args.createdAt)
  }

  /**
  How a dated transfer is answered, measured by the block log alone: a wrong fee first, then the
  clock, then the amount; an identity the log already holds is answered with its block and moves
  nothing; one it does not hold is executed exactly if the funds suffice and the credit fits.
  */
  lemma DatedTransferExactly(l: Ledger, c: Conditions, caller: Principal, args: TransferArgs, created: nat)
    requires args.createdAt == Some(created) && l.now <= c.now
    requires LedgerInv(l)
    ensures
      var (l', reply) := Transfer(l, c, caller, args);
      var key := IdentityOf(caller, args);
      var feeRight := args.fee == None || args.fee == Some(c.fee);
      var sound := feeRight && InTime(created, c.now) && 0 < args.amount && args.amount + c.fee <= U128_MAX;
      var done := exists i :: 0 <= i < |l.blocks| && l.blocks[i].key == key;
      && (reply == BadFee <==> !feeRight)
      && (reply == CreatedInFuture <==> feeRight && created > c.now + 300_000_000_000)
      && (reply == TooOld <==> feeRight && c.now > created + 86_400_000_000_000)
      && (reply.Duplicate? <==> sound && done)
      && (reply.Duplicate? ==> reply.of < |l.blocks| && l.blocks[reply.of].key == key)
      && (reply == InsufficientFunds <==> sound && !done && c.liquid < args.amount + c.fee)
      && (reply.Accepted? <==> sound && !done && args.amount + c.fee <= c.liquid && c.creditFits)
      && (if reply.Accepted? then reply.block == |l.blocks| && l'.blocks == l.blocks + [Block(key, c.fee)]
          else l'.blocks == l.blocks)
  {
    hide Prune, ExecutedOnce;
    var key := IdentityOf(caller, args);
    assert key == KeyOf(caller, args);
    if i :| 0 <= i < |l.blocks| && l.blocks[i].key == key {
      assert Remembered(l, i) || Expired(l.blocks[i].key, l.now);
    }
  }
}
