/**
Records, control cell and memo identity of the private-spend payout executor.
*/
module PayoutTypes {
  import opened Wrappers
  import opened ByteStrings
  import opened TokenLedger

  type SpendId = nat

  const MAX_LIVE_PAYOUT_ATTEMPTS: nat := 64

  datatype PoolError =
    | SpendNotFound
    | WrongSpendStatus
    | PayoutLegacyHold
    | PayoutStateInvalid
    | PayoutNotPending
    | PayoutExecutorBusy
    | PayoutMemoKeyNotReady
    | EscrowUnderfunded(required: nat, available: nat)
    | GrossAmountBelowFees(gross: nat, fee: nat)
    | TransferFailed

  // ---------- control cell ----------

  datatype Control = Control(boot: nat, next: nat, key: Option<Bytes>) {
    /** The ranges of the stored fields; a zero boot number is never written. */
    predicate Valid() {
      && 1 <= boot <= U64_MAX
      && next <= U128_MAX
      && (key.Some? ==> |key.value| == 32)
    }
  }

  const INITIAL_CONTROL: Control := Control(1, 0, None)

  const CONTROL_MAGIC: Bytes := [0x53, 0x54, 0x53, 0x48, 0x52, 0x31, 0x35, 0x01]

  function EncodeControl(c: Control): Bytes {
    CONTROL_MAGIC + ToLE(c.boot, 8) + ToLE(c.next, 16)
    + [if c.key.Some? then 1 else 0]
    + (if c.key.Some? then c.key.value else Zeros(32))
  }

  /** `None` stands for the trap on a corrupt, missing or invalid cell. */
  function DecodeControl(b: Bytes): Option<Control> {
    if |b| != 65 || b[..8] != CONTROL_MAGIC || b[32] > 1 then None
    else
      var boot := FromLE(b[8..16]);
      if boot == 0 || (b[32] == 0 && exists i :: 33 <= i < 65 && b[i] != 0) then None
      else Some(Control(boot, FromLE(b[16..32]), if b[32] == 1 then Some(b[33..65]) else None))
  }

  /** What is written is what is read back, counters in full and key included. */
  lemma ControlRoundTrip(c: Control)
    requires c.Valid()
    ensures |EncodeControl(c)| == 65
    ensures DecodeControl(EncodeControl(c)) == Some(c)
  {
    hide FromLE, ToLE;
    var b := EncodeControl(c);
    Pow256Values();
    LERoundTrip(c.boot, 8);
    LERoundTrip(c.next, 16);
    assert b[..8] == CONTROL_MAGIC;
    assert b[8..16] == ToLE(c.boot, 8);
    assert b[16..32] == ToLE(c.next, 16);
    if c.key.Some? {
      assert b[33..65] == c.key.value;
    }
  }

  /** The cell has one encoding per control value: whatever decodes re-encodes to the same bytes. */
  lemma ControlCanonical(b: Bytes)
    requires DecodeControl(b).Some?
    ensures DecodeControl(b).value.Valid()
    ensures EncodeControl(DecodeControl(b).value) == b
  {
    hide FromLE, ToLE;
    CounterFields(b[8..16], b[16..32]);
    var boot, next, key := b[8..16], b[16..32], b[33..65];
    assert b[32] == 0 ==> key == Zeros(32) by {
      if b[32] == 0 {
        KeyFieldZero(b);
      }
    }
    assert b == b[..8] + boot + next + [b[32]] + key;
  }

  /** The cell byte by byte: the tag, two little-endian counters, a presence byte, and the key or zeros. */
  lemma CellLayout(c: Control)
    requires c.Valid()
    ensures
      var b := EncodeControl(c);
      && |b| == 65 && b[0..8] == [0x53, 0x54, 0x53, 0x48, 0x52, 0x31, 0x35, 0x01]
      && FromLE(b[8..16]) == c.boot && FromLE(b[16..32]) == c.next
      && b[33..65] == (if c.key.Some? then c.key.value else seq(32, _ => 0))
      && b[32] == (if c.key.Some? then 1 else 0)
  {
    hide FromLE, ToLE;
    var b := EncodeControl(c);
    Pow256Values();
    LERoundTrip(c.boot, 8);
    LERoundTrip(c.next, 16);
    assert b[8..16] == ToLE(c.boot, 8) && b[16..32] == ToLE(c.next, 16);
    assert b[0..8] == CONTROL_MAGIC;
  }

  /** A cell is accepted exactly if it is one of those, with a boot number of at least one. */
  lemma CellAccepted(b: Bytes)
    ensures DecodeControl(b).Some? <==> exists c: Control :: c.Valid() && EncodeControl(c) == b
  {
    hide FromLE, ToLE, EncodeControl, DecodeControl;
    if DecodeControl(b).Some? {
      ControlCanonical(b);
    }
    if c: Control :| c.Valid() && EncodeControl(c) == b {
      ControlRoundTrip(c);
    }
  }

  lemma CounterFields(boot: Bytes, next: Bytes)
    requires |boot| == 8 && |next| == 16
    ensures FromLE(boot) <= U64_MAX && ToLE(FromLE(boot), 8) == boot
    ensures FromLE(next) <= U128_MAX && ToLE(FromLE(next), 16) == next
  {
    Pow256Values();
    FromLEBound(boot);
    FromLEBound(next);
    LEReencode(boot);
    LEReencode(next);
  }

  lemma KeyFieldZero(b: Bytes)
    requires |b| == 65 && forall i :: 33 <= i < 65 ==> b[i] == 0
    ensures b[33..65] == Zeros(32)
  {
  }

  // ---------- frozen request and memo ----------

  datatype FrozenPayout = FrozenPayout(
    ledger: Principal,
    fromSubaccount: Option<Bytes>,
    destination: Principal,
    destinationSubaccount: Option<Bytes>,
    amount: nat,
    fee: Option<nat>,
    memo: Option<Bytes>,
    createdAt: Option<nat>)
  {
    function Args(): TransferArgs {
      TransferArgs(fromSubaccount, Account(destination, destinationSubaccount), amount, fee, memo, createdAt)
    }
  }

  /** The ASCII bytes of "stsh.private-payout.memo.v1". */
  const MEMO_DOMAIN: Bytes := [
    0x73, 0x74, 0x73, 0x68, 0x2e, 0x70, 0x72, 0x69, 0x76, 0x61, 0x74, 0x65, 0x2d, 0x70, 0x61, 0x79,
    0x6f, 0x75, 0x74, 0x2e, 0x6d, 0x65, 0x6d, 0x6f, 0x2e, 0x76, 0x31]

  function MemoMessage(pool: Principal, ledger: Principal, id: SpendId, sequence: nat): Bytes {
    MEMO_DOMAIN + ([|pool|] + pool) + ([|ledger|] + ledger) + ToLE(id, 8) + ToLE(sequence, 16)
  }

  /** A one-byte length in front of a principal makes the end of the principal unambiguous. */
  lemma PrefixedInjective(p: Principal, rest: Bytes, p': Principal, rest': Bytes)
    requires [|p|] + p + rest == [|p'|] + p' + rest'
    ensures p == p' && rest == rest'
  {
    var m, m' := [|p|] + p + rest, [|p'|] + p' + rest';
    assert m[0] == |p| && m'[0] == |p'|;
    assert m[1..1 + |p|] == p && m'[1..1 + |p'|] == p';
    assert m[1 + |p|..] == rest && m'[1 + |p'|..] == rest';
  }

  lemma CountersInjective(i: SpendId, s: nat, i': SpendId, s': nat)
    requires i <= U64_MAX && i' <= U64_MAX && s <= U128_MAX && s' <= U128_MAX
    requires ToLE(i, 8) + ToLE(s, 16) == ToLE(i', 8) + ToLE(s', 16)
    ensures i == i' && s == s'
  {
    hide ToLE;
    var m, m' := ToLE(i, 8) + ToLE(s, 16), ToLE(i', 8) + ToLE(s', 16);
    assert m[..8] == ToLE(i, 8) && m'[..8] == ToLE(i', 8);
    assert m[8..] == ToLE(s, 16) && m'[8..] == ToLE(s', 16);
    Pow256Values();
    ToLEInjective(i, i', 8);
    ToLEInjective(s, s', 16);
  }

  /** The message in the order its parts are parsed. */
  lemma MemoMessageParts(p: Principal, l: Principal, i: SpendId, s: nat)
    ensures MemoMessage(p, l, i, s) == MEMO_DOMAIN + ([|p|] + p + ([|l|] + l + (ToLE(i, 8) + ToLE(s, 16))))
  {
    hide ToLE;
  }

  /** The message fed to the MAC determines the pool, the ledger, the spend id and the ordinal. */
  lemma MemoMessageInjective(p: Principal, l: Principal, i: SpendId, s: nat,
                             p': Principal, l': Principal, i': SpendId, s': nat)
    requires i <= U64_MAX && i' <= U64_MAX && s <= U128_MAX && s' <= U128_MAX
    requires MemoMessage(p, l, i, s) == MemoMessage(p', l', i', s')
    ensures p == p' && l == l' && i == i' && s == s'
  {
    hide MemoMessage, ToLE;
    var tail, tail' := ToLE(i, 8) + ToLE(s, 16), ToLE(i', 8) + ToLE(s', 16);
    var rest, rest' := [|l|] + l + tail, [|l'|] + l' + tail';
    MemoMessageParts(p, l, i, s);
    MemoMessageParts(p', l', i', s');
    SamePrefix(MEMO_DOMAIN, [|p|] + p + rest, [|p'|] + p' + rest');
    PrefixedInjective(p, rest, p', rest');
    PrefixedInjective(l, tail, l', tail');
    CountersInjective(i, s, i', s');
  }

  lemma SamePrefix(prefix: Bytes, a: Bytes, b: Bytes)
    requires prefix + a == prefix + b
    ensures a == b
  {
    assert (prefix + a)[|prefix|..] == a && (prefix + b)[|prefix|..] == b;
  }

  /** HMAC-SHA256 digests, and so payout memos, have 32 bytes. */
  const PAYOUT_MEMO_LENGTH: nat := 32

  /** The executor's fixed surroundings: its own principal and the keyed MAC of its memos. */
  datatype Env = Env(self: Principal, mac: (Bytes, Bytes) -> Bytes) {
    function Memo(key: Bytes, ledger: Principal, id: SpendId, sequence: nat): Bytes {
      mac(key, MemoMessage(self, ledger, id, sequence))
    }

    /**
    What is assumed of HMAC-SHA256: 32-byte digests, and no collision between two memo
    messages of this pool on one ledger.
    */
    ghost predicate SoundMac() {
      && (forall key: Bytes, message: Bytes :: |mac(key, message)| == PAYOUT_MEMO_LENGTH)
      && (forall key: Bytes, ledger: Principal, i: nat, s: nat, i': nat, s': nat ::
            i <= U64_MAX && i' <= U64_MAX && s <= U128_MAX && s' <= U128_MAX
            && Memo(key, ledger, i, s) == Memo(key, ledger, i', s') ==>
            MemoMessage(self, ledger, i, s) == MemoMessage(self, ledger, i', s'))
    }
  }

  /** On one ledger a memo belongs to one spend id and one ordinal. */
  lemma MemoIdentifiesSpend(env: Env, key: Bytes, ledger: Principal, i: SpendId, s: nat, i': SpendId, s': nat)
    requires env.SoundMac()
    requires i <= U64_MAX && i' <= U64_MAX && s <= U128_MAX && s' <= U128_MAX
    requires env.Memo(key, ledger, i, s) == env.Memo(key, ledger, i', s')
    ensures i == i' && s == s'
  {
    MemoMessageInjective(env.self, ledger, i, s, env.self, ledger, i', s');
  }

  /** The assumption on the MAC is satisfiable: the two counters alone fit the digest. */
  lemma SoundMacExists(self: Principal)
    ensures exists mac: (Bytes, Bytes) -> Bytes :: Env(self, mac).SoundMac()
  {
    var mac: (Bytes, Bytes) -> Bytes :=
      (key: Bytes, m: Bytes) => if |m| < 24 then Zeros(32) else m[|m| - 24..] + Zeros(8);
    var env := Env(self, mac);
    forall key: Bytes, ledger: Principal, i: nat, s: nat, i': nat, s': nat |
      && i <= U64_MAX && i' <= U64_MAX && s <= U128_MAX && s' <= U128_MAX
      && env.Memo(key, ledger, i, s) == env.Memo(key, ledger, i', s')
      ensures MemoMessage(self, ledger, i, s) == MemoMessage(self, ledger, i', s')
    {
      var m, m' := MemoMessage(self, ledger, i, s), MemoMessage(self, ledger, i', s');
      var tail, tail' := ToLE(i, 8) + ToLE(s, 16), ToLE(i', 8) + ToLE(s', 16);
      assert m[|m| - 24..] == tail && m'[|m'| - 24..] == tail';
      assert (tail + Zeros(8))[..24] == tail && (tail' + Zeros(8))[..24] == tail';
      assert m == m[..|m| - 24] + tail && m' == m'[..|m'| - 24] + tail';
    }
    assert env.SoundMac();
  }

  // ---------- spend records ----------

  datatype Phase = PreDispatch | MayHaveDispatched

  datatype RetryState = RetryState(
    memoSequence: nat,
    generation: nat,
    boot: nat,
    phase: Phase,
    priorAmbiguity: bool,
    dispatched: bool,
    frozen: Option<FrozenPayout>)

  datatype PublicPayout = PublicPayout(
    destination: Principal,
    destinationSubaccount: Option<Bytes>,
    publicAmount: nat,
    blockIndex: Option<nat>,
    ledgerCreatedAt: Option<nat>,
    retry: Option<RetryState>)

  /**
  `PrePayout` stands for every status before promotion and `Failed` for the two terminal
  failures; the reason strings of the pending and unknown statuses are dropped.
  */
  datatype SpendStatus = PrePayout | PayoutPending | PayoutSubmitting | PayoutUnknown | Finalized | Failed

  datatype FeeSplit = FeeSplit(operations: nat, insurance: nat, staking: nat)

  datatype PendingSpend = PendingSpend(payout: Option<PublicPayout>, status: SpendStatus, split: Option<FeeSplit>) {
    predicate HasRetry() {
      payout.Some? && payout.value.retry.Some?
    }

    function Retry(): RetryState
      requires HasRetry()
    {
      payout.value.retry.value
    }

    function WithRetry(r: RetryState): PendingSpend
      requires HasRetry()
    {
      this.(payout := Some(payout.value.(retry := Some(r))))
    }
  }

  /** The token that names one executor of one spend. */
  datatype Attempt = Attempt(id: SpendId, sequence: nat, generation: nat, boot: nat)

  function AttemptOf(id: SpendId, r: RetryState): Attempt {
    Attempt(id, r.memoSequence, r.generation, r.boot)
  }

  /** Everything the payout executor reads and writes between awaits. */
  datatype Pool = Pool(
    control: Control,
    records: map<SpendId, PendingSpend>,
    live: map<SpendId, Attempt>,
    accrued: FeeSplit)
}
