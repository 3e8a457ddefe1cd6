/**
Specification of the payout executor's no-await segments: each is one atomic step from
pool state to pool state. The class `PayoutPlane.Executor` is proved against these.
*/
module PayoutSegments {
  import opened Wrappers
  import opened ByteStrings
  import opened TokenLedger
  import opened PayoutTypes

  function Put(p: Pool, id: SpendId, rec: PendingSpend): Pool {
    p.(records := p.records[id := rec])
  }

  // ---------- provisioning, admission, boot ----------

  /** After the random beacon answers: the key is written once, and only by a call of this boot. */
  function ProvisionKey(p: Pool, initialBoot: nat, beacon: Option<Bytes>): (Pool, Result<bool, PoolError>) {
    if beacon.None? || |beacon.value| != 32 then (p, Err(PayoutMemoKeyNotReady))
    else if p.control.boot != initialBoot then (p, Err(PayoutStateInvalid))
    else if p.control.key.None? then (p.(control := p.control.(key := Some(beacon.value))), Ok(true))
    else (p, Ok(true))
  }

  function ReserveSequence(p: Pool): (Pool, Result<RetryState, PoolError>) {
    if p.control.key.None? then (p, Err(PayoutMemoKeyNotReady))
    else if p.control.next + 1 > U128_MAX then (p, Err(PayoutStateInvalid))
    else
      (p.(control := p.control.(next := p.control.next + 1)),
       Ok(RetryState(p.control.next, 0, p.control.boot, PreDispatch, false, false, None)))
  }

  /** A new boot number and an empty executor map; exhausting the boot number traps the upgrade. */
  function Upgrade(p: Pool): Option<Pool> {
    if p.control.boot + 1 > U64_MAX then None
    else Some(p.(control := p.control.(boot := p.control.boot + 1), live := map[]))
  }

  // ---------- record validation ----------

  function ValidateRetry(p: PublicPayout, c: Control): Result<(), PoolError> {
    if p.retry.None? then Ok(())
    else
      var r := p.retry.value;
      if r.boot == 0 || r.boot > c.boot || r.memoSequence > U128_MAX || r.memoSequence >= c.next
         || (r.dispatched && r.frozen.None?)
         || (r.phase == MayHaveDispatched && (!r.dispatched || r.generation == 0))
      then Err(PayoutStateInvalid)
      else if r.frozen.None? then Ok(())
      else
        var f := r.frozen.value;
        if f.amount > U128_MAX || f.fee.None? || f.fee.value > U128_MAX
           || f.amount == 0 || f.amount + f.fee.value > U128_MAX || f.amount + f.fee.value != p.publicAmount
           || f.destination != p.destination || f.destinationSubaccount != p.destinationSubaccount
           || f.memo.None? || |f.memo.value| != 32
           || f.createdAt.None? || f.createdAt != p.ledgerCreatedAt
           || r.generation == 0
        then Err(PayoutStateInvalid)
        else Ok(())
  }

  // ---------- normalization and claim ----------

  function Normalize(p: Pool, id: SpendId): (Pool, Result<PendingSpend, PoolError>) {
    if id !in p.records then (p, Err(SpendNotFound))
    else
      var rec := p.records[id];
      if rec.payout.Some? && ValidateRetry(rec.payout.value, p.control).Err? then (p, Err(PayoutStateInvalid))
      else if rec.status != PayoutSubmitting || id in p.live then (p, Ok(rec))
      else if !rec.HasRetry() then
        var held := rec.(status := PayoutUnknown);
        (Put(p, id, held), Ok(held))
      else if rec.Retry().boot > p.control.boot || rec.Retry().generation == 0 then (p, Err(PayoutStateInvalid))
      else
        var quiet := Quiesced(rec);
        (Put(p, id, quiet), Ok(quiet))
  }

  /** A submitting record whose executor is gone: unknown if anything may have been dispatched. */
  function Quiesced(rec: PendingSpend): PendingSpend
    requires rec.HasRetry()
  {
    var r := rec.Retry();
    if r.phase == MayHaveDispatched || r.priorAmbiguity
    then rec.WithRetry(r.(priorAmbiguity := true)).(status := PayoutUnknown)
    else rec.(status := PayoutPending)
  }

  function Claim(p: Pool, id: SpendId): (Pool, Result<Attempt, PoolError>) {
    var (n, found) := Normalize(p, id);
    if found.Err? then (n, Err(found.error))
    else if found.value.status != PayoutPending then (n, Err(PayoutNotPending))
    else if !found.value.HasRetry() then (n, Err(PayoutLegacyHold))
    else if |n.live| >= MAX_LIVE_PAYOUT_ATTEMPTS then (n, Err(PayoutExecutorBusy))
    else if id in n.live then (n, Err(PayoutNotPending))
    else
      var r := found.value.Retry();
      if r.generation + 1 > U64_MAX || r.memoSequence > U128_MAX then (n, Err(PayoutStateInvalid))
      else
        var claimed := Claimed(found.value, n.control.boot);
        var a := AttemptOf(id, claimed.Retry());
        (Put(n, id, claimed).(live := n.live[id := a]), Ok(a))
  }

  function Claimed(rec: PendingSpend, boot: nat): PendingSpend
    requires rec.HasRetry()
  {
    var r := rec.Retry();
    rec.WithRetry(r.(generation := r.generation + 1, boot := boot, phase := PreDispatch))
       .(status := PayoutSubmitting)
  }

  // ---------- ownership ----------

  /** The record is submitting under exactly this token, and the token still holds its executor slot. */
  predicate Holds(records: map<SpendId, PendingSpend>, live: map<SpendId, Attempt>, a: Attempt) {
    && a.id in records
    && records[a.id].HasRetry()
    && records[a.id].status == PayoutSubmitting
    && records[a.id].Retry().memoSequence <= U128_MAX
    && AttemptOf(a.id, records[a.id].Retry()) == a
    && a.id in live && live[a.id] == a
  }

  predicate Owns(p: Pool, a: Attempt) {
    Holds(p.records, p.live, a)
  }

  function Owned(p: Pool, a: Attempt): Result<PendingSpend, PoolError> {
    if a.id !in p.records then Err(SpendNotFound)
    else if !p.records[a.id].HasRetry() then Err(PayoutLegacyHold)
    else if Owns(p, a) then Ok(p.records[a.id])
    else Err(PayoutStateInvalid)
  }

  /** Dropping a guard releases the executor slot only if the slot still holds that very token. */
  function DropGuard(p: Pool, a: Attempt): Pool {
    if a.id in p.live && p.live[a.id] == a then p.(live := p.live - {a.id}) else p
  }

  // ---------- endings ----------

  function FailedAttempt(rec: PendingSpend, ambiguous: bool): PendingSpend
    requires rec.HasRetry()
  {
    var doubt := rec.Retry().priorAmbiguity || ambiguous;
    rec.WithRetry(rec.Retry().(priorAmbiguity := doubt))
       .(status := if doubt then PayoutUnknown else PayoutPending)
  }

  function FinishError(p: Pool, a: Attempt, error: PoolError, ambiguous: bool): (Pool, Progress) {
    match Owned(p, a)
    case Err(e) => (p, Finished(Err(e)))
    case Ok(rec) => (Put(p, a.id, FailedAttempt(rec, ambiguous)), Finished(Err(error)))
  }

  function Accrue(total: FeeSplit, split: Option<FeeSplit>): FeeSplit {
    match split
    case None => total
    case Some(s) =>
      FeeSplit(SatAdd(total.operations, s.operations, U128_MAX),
               SatAdd(total.insurance, s.insurance, U128_MAX),
               SatAdd(total.staking, s.staking, U128_MAX))
  }

  /** The flush timer takes the window's accrual and starts the next window at zero. */
  function Drain(p: Pool): (Pool, FeeSplit) {
    (p.(accrued := FeeSplit(0, 0, 0)), p.accrued)
  }

  /** The record after a terminal transition; an already failed record keeps its status. */
  function Terminated(rec: PendingSpend, block: Option<nat>): PendingSpend {
    var noted := if block.Some? && rec.payout.Some?
      then rec.(payout := Some(rec.payout.value.(blockIndex := block))) else rec;
    if rec.status == Failed then noted else noted.(status := Finalized)
  }

  function Terminal(p: Pool, id: SpendId, block: Option<nat>): (Pool, Result<(), PoolError>) {
    if id !in p.records then (p, Err(SpendNotFound))
    else
      var rec := p.records[id];
      if rec.status == Finalized then (p, Ok(()))
      else if block.Some? && rec.payout.None? then (p, Err(WrongSpendStatus))
      else (Put(p, id, Terminated(rec, block)).(accrued := Accrue(p.accrued, rec.split)), Ok(()))
  }

  // ---------- the asynchronous run, segment by segment ----------

  /** What a segment ends with: a result, or the inter-canister call it awaits next. */
  datatype Progress =
    | Finished(result: Result<nat, PoolError>)
    | AskBalance(ledger: Principal, required: nat, frozenKnown: bool)
    | AskFee(feeLedger: Principal)
    | Send(request: FrozenPayout)

  datatype TransferOutcome = Answer(reply: Reply) | Transport

  function Begin(p: Pool, a: Attempt, configured: Principal): (Pool, Progress) {
    match Owned(p, a)
    case Err(e) => (p, Finished(Err(e)))
    case Ok(rec) =>
      if ValidateRetry(rec.payout.value, p.control).Err? then (p, Finished(Err(PayoutStateInvalid)))
      else
        var r := rec.Retry();
        var ledger := if r.frozen.Some? then r.frozen.value.ledger else configured;
        if !r.dispatched then (p, AskBalance(ledger, rec.payout.value.publicAmount, r.frozen.Some?))
        else if r.frozen.None? then (p, AskFee(ledger))
        else Dispatch(p, a)
  }

  function AfterBalance(p: Pool, a: Attempt, ledger: Principal, required: nat, frozenKnown: bool,
                        balance: Option<nat>): (Pool, Progress)
  {
    match Owned(p, a)
    case Err(e) => (p, Finished(Err(e)))
    case Ok(_) =>
      if balance.None? then FinishError(p, a, TransferFailed, false)
      else if balance.value < required then FinishError(p, a, EscrowUnderfunded(required, balance.value), false)
      else if !frozenKnown then (p, AskFee(ledger))
      else Dispatch(p, a)
  }

  function AfterFee(env: Env, p: Pool, a: Attempt, ledger: Principal, fee: Option<nat>, stamp: nat): (Pool, Progress) {
    match Owned(p, a)
    case Err(e) => (p, Finished(Err(e)))
    case Ok(rec) =>
      if fee.None? then FinishError(p, a, TransferFailed, false)
      else if rec.payout.value.publicAmount <= fee.value then
        FinishError(p, a, GrossAmountBelowFees(rec.payout.value.publicAmount, fee.value), false)
      else if p.control.key.None? then FinishError(p, a, PayoutMemoKeyNotReady, false)
      else Dispatch(Put(p, a.id, Frozen(env, p.control.key.value, a, rec, ledger, fee.value, stamp)), a)
  }

  /** The record once the complete ledger request is fixed. */
  function Frozen(env: Env, key: Bytes, a: Attempt, rec: PendingSpend, ledger: Principal, fee: nat, stamp: nat): PendingSpend
    requires rec.HasRetry() && fee < rec.payout.value.publicAmount
  {
    var p := rec.payout.value;
    var request := FrozenPayout(
      ledger, None, p.destination, p.destinationSubaccount, p.publicAmount - fee, Some(fee),
      Some(env.Memo(key, ledger, a.id, rec.Retry().memoSequence)), Some(stamp));
    rec.(payout := Some(p.(ledgerCreatedAt := Some(stamp), retry := Some(rec.Retry().(frozen := Some(request))))))
  }

  function Dispatch(p: Pool, a: Attempt): (Pool, Progress) {
    match Owned(p, a)
    case Err(e) => (p, Finished(Err(e)))
    case Ok(rec) =>
      if rec.Retry().frozen.None? then (p, Finished(Err(PayoutStateInvalid)))
      else (Put(p, a.id, Dispatched(rec)), Send(rec.Retry().frozen.value))
  }

  function Dispatched(rec: PendingSpend): PendingSpend
    requires rec.HasRetry()
  {
    rec.WithRetry(rec.Retry().(phase := MayHaveDispatched, dispatched := true))
  }

  /** These three refusals do not prove that no earlier copy of the request was executed. */
  predicate AmbiguousRefusal(reply: Reply) {
    reply.BadFee? || reply.TooOld? || reply.CreatedInFuture?
  }

  predicate Confirms(reply: Reply) {
    reply.Accepted? || reply.Duplicate?
  }

  function BlockOf(reply: Reply): nat
    requires Confirms(reply)
  {
    if reply.Accepted? then reply.block else reply.of
  }

  function AfterTransfer(p: Pool, a: Attempt, outcome: TransferOutcome): (Pool, Progress) {
    match Owned(p, a)
    case Err(e) => (p, Finished(Err(e)))
    case Ok(_) =>
      if outcome.Transport? then FinishError(p, a, TransferFailed, true)
      else if Confirms(outcome.reply) then
        var (p', done) := Terminal(p, a.id, Some(BlockOf(outcome.reply)));
        (p', Finished(if done.Ok? then Ok(BlockOf(outcome.reply)) else Err(done.error)))
      else FinishError(p, a, TransferFailed, AmbiguousRefusal(outcome.reply))
  }

  /** The guard lives exactly as long as the future that holds it. */
  function Leave(p: Pool, a: Attempt, progress: Progress): Pool {
    if progress.Finished? then DropGuard(p, a) else p
  }

  // ---------- operator reconciliation ----------

  datatype PayoutOutcome = Executed(block: nat) | NotExecuted

  datatype ReconcileResult = SettledAt(block: nat) | RevertedToPending | AlreadyExecuted(block: nat)

  function Reconcile(p: Pool, id: SpendId, outcome: PayoutOutcome): (Pool, Result<ReconcileResult, PoolError>) {
    var (n, found) := Normalize(p, id);
    if found.Err? then (n, Err(found.error))
    else
      var rec := found.value;
      if rec.status == PayoutSubmitting then (n, Err(PayoutNotPending))
      else if rec.status == Finalized then
        if rec.payout.Some? && rec.payout.value.blockIndex.Some?
        then (n, Ok(AlreadyExecuted(rec.payout.value.blockIndex.value)))
        else (n, Err(WrongSpendStatus))
      else if rec.status == PayoutPending && rec.payout.Some? && rec.payout.value.retry.None? then
        if outcome.NotExecuted? then (n, Err(PayoutLegacyHold)) else Assert(n, id, outcome.block)
      else if rec.status != PayoutUnknown then (n, Err(WrongSpendStatus))
      else if outcome.Executed? then Assert(n, id, outcome.block)
      else if !rec.HasRetry() || rec.Retry().frozen.None? then (n, Err(PayoutLegacyHold))
      else (Put(n, id, rec.(status := PayoutPending)), Ok(RevertedToPending))
  }

  function Assert(p: Pool, id: SpendId, block: nat): (Pool, Result<ReconcileResult, PoolError>) {
    var (p', done) := Terminal(p, id, Some(block));
    (p', if done.Ok? then Ok(SettledAt(block)) else Err(done.error))
  }
}
