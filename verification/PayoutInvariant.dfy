/**
The inductive invariant of the payout world, one named conjunct per concern.
*/
module PayoutInvariant {
  import opened Wrappers
  import opened ByteStrings
  import opened TokenLedger
  import opened PayoutTypes
  import opened PayoutSegments
  import opened PayoutWorld

  type Records = map<SpendId, PendingSpend>

  // ---------- records ----------

  /** What `validate_retry` accepts, plus what the status says about dispatch and doubt. */
  ghost predicate RecordOk(c: Control, pins: map<nat, Pin>, id: SpendId, rec: PendingSpend) {
    && id <= U64_MAX
    && (rec.payout.Some? ==> rec.payout.value.publicAmount <= U128_MAX && ValidateRetry(rec.payout.value, c).Ok?)
    && (rec.HasRetry() ==> RetryOk(c, pins, id, rec))
  }

  ghost predicate RetryOk(c: Control, pins: map<nat, Pin>, id: SpendId, rec: PendingSpend)
    requires rec.HasRetry()
  {
    var r := rec.Retry();
    && c.key.Some? && r.memoSequence < c.next
    && (rec.status == PayoutSubmitting ==> r.generation >= 1)
    && (rec.status == PayoutUnknown ==> r.priorAmbiguity)
    && (r.priorAmbiguity ==> r.dispatched)
    && (rec.status in {PrePayout, Failed} ==> r.generation == 0)
    && (r.frozen.Some? <==> r.memoSequence in pins)
    && (r.frozen.Some? ==> pins[r.memoSequence] == Pin(id, r.frozen.value, rec.payout.value.publicAmount))
  }

  ghost predicate RecordsOk(c: Control, pins: map<nat, Pin>, records: Records) {
    forall id :: id in records ==> RecordOk(c, pins, id, records[id])
  }

  ghost predicate SequencesDistinct(records: Records) {
    forall i, j :: i in records && j in records && i != j && records[i].HasRetry() && records[j].HasRetry() ==>
      records[i].Retry().memoSequence != records[j].Retry().memoSequence
  }

  // ---------- executors ----------

  ghost predicate LiveOk(records: Records, live: map<SpendId, Attempt>) {
    && |live| <= MAX_LIVE_PAYOUT_ATTEMPTS
    && forall id :: id in live ==> live[id].id == id && Holds(records, live, live[id])
  }

  /** No executor slot is leaked: each is held by the guard of an outstanding future. */
  ghost predicate LiveHasTask(live: map<SpendId, Attempt>, issued: seq<Attempt>, tasks: map<nat, Pc>) {
    forall id :: id in live ==> exists t :: t in tasks && t < |issued| && issued[t] == live[id]
  }

  ghost predicate IssuedOk(c: Control, records: Records, issued: seq<Attempt>) {
    && (forall i :: 0 <= i < |issued| ==>
          issued[i].sequence < c.next && issued[i].generation >= 1 && 1 <= issued[i].boot <= c.boot)
    && (forall i, id :: 0 <= i < |issued| && id in records ==> IssuedBefore(issued[i], id, records[id]))
    && TokensUnique(issued)
  }

  /** A token over this record's ordinal names this spend and no later generation. */
  ghost predicate IssuedBefore(a: Attempt, id: SpendId, rec: PendingSpend) {
    rec.HasRetry() && rec.Retry().memoSequence == a.sequence ==> a.id == id && a.generation <= rec.Retry().generation
  }

  /** Tokens differ even without looking at the spend id or the boot number. */
  ghost predicate TokensUnique(issued: seq<Attempt>) {
    forall i, j :: 0 <= i < j < |issued| ==>
      issued[i].sequence != issued[j].sequence || issued[i].generation != issued[j].generation
  }

  ghost predicate TasksOk(records: Records, live: map<SpendId, Attempt>, issued: seq<Attempt>, tasks: map<nat, Pc>, calls: seq<Call>) {
    forall t :: t in tasks ==> t < |issued| && TaskOk(records, live, issued[t], t, tasks[t], calls)
  }

  /** What a suspended future may rely on if it still owns its record when it wakes. */
  ghost predicate TaskOk(records: Records, live: map<SpendId, Attempt>, a: Attempt, t: nat, pc: Pc, calls: seq<Call>) {
    && (if pc.AwaitTransfer? then pc.call < |calls| && calls[pc.call].task == t else Unsent(calls, t))
    && (Holds(records, live, a) ==> Expects(records[a.id], pc))
  }

  ghost predicate Unsent(calls: seq<Call>, t: nat) {
    forall c :: 0 <= c < |calls| ==> calls[c].task != t
  }

  ghost predicate Expects(rec: PendingSpend, pc: Pc)
    requires rec.HasRetry()
  {
    match pc
    case AtStart(_) => rec.Retry().phase == PreDispatch
    case AwaitBalance(_, required, known) =>
      rec.Retry().phase == PreDispatch && required == rec.payout.value.publicAmount && known == rec.Retry().frozen.Some?
    case AwaitFee(_) => rec.Retry().phase == PreDispatch && rec.Retry().frozen.None?
    case AwaitTransfer(_) => rec.Retry().phase == MayHaveDispatched && rec.Retry().frozen.Some?
  }

  // ---------- transfers ----------

  ghost predicate PinsOk(env: Env, c: Control, pins: map<nat, Pin>) {
    forall s :: s in pins ==> PinOk(env, c, s, pins[s])
  }

  ghost predicate PinOk(env: Env, c: Control, s: nat, pin: Pin) {
    && s < c.next && c.key.Some? && pin.id <= U64_MAX
    && pin.request.memo == Some(env.Memo(c.key.value, pin.request.ledger, pin.id, s))
    && pin.request.createdAt.Some? && pin.request.fromSubaccount.None?
    && pin.request.fee.Some? && pin.request.amount + pin.request.fee.value == pin.gross
    && pin.request.amount > 0 && pin.gross <= U128_MAX
  }

  /** Every transfer ever sent for an ordinal carries the request pinned for it. */
  ghost predicate CallsOk(issued: seq<Attempt>, calls: seq<Call>, pins: map<nat, Pin>) {
    && (forall c :: 0 <= c < |calls| ==> CallOk(issued, calls[c], pins))
    && (forall c, d :: 0 <= c < d < |calls| ==> calls[c].task != calls[d].task)
  }

  ghost predicate CallOk(issued: seq<Attempt>, call: Call, pins: map<nat, Pin>) {
    && call.task < |issued|
    && issued[call.task].sequence in pins
    && pins[issued[call.task].sequence].request == call.request
    && pins[issued[call.task].sequence].id == issued[call.task].id
  }

  /** Doubt about a transfer survives until a definite refusal or a reconciliation. */
  ghost predicate StickyOk(records: Records, issued: seq<Attempt>, calls: seq<Call>) {
    forall c, id :: 0 <= c < |calls| && id in records && calls[c].task < |issued| ==>
      StickyFor(records[id], issued[calls[c].task], calls[c])
  }

  ghost predicate StickyFor(rec: PendingSpend, a: Attempt, call: Call) {
    rec.HasRetry() && rec.Retry().memoSequence == a.sequence && !call.refused ==>
      || rec.status == Finalized
      || (rec.status == PayoutSubmitting && rec.Retry().generation == a.generation && rec.Retry().phase == MayHaveDispatched)
      || (rec.Retry().priorAmbiguity && (call.cleared || rec.status == PayoutUnknown))
  }

  // ---------- ledgers ----------

  ghost predicate LedgersOk(env: Env, ledgers: map<Principal, Ledger>, calls: seq<Call>) {
    forall l :: l in ledgers ==> LedgerInv(ledgers[l]) && OwnBlocks(env, l, ledgers[l], calls)
  }

  /** Every block that debits the pool under a payout memo executes one of the transfers this path sent. */
  ghost predicate OwnBlocks(env: Env, l: Principal, ledger: Ledger, calls: seq<Call>) {
    forall i :: 0 <= i < |ledger.blocks| && PayoutBlock(env.self, ledger.blocks[i]) ==>
      exists c :: 0 <= c < |calls| && Pays(env, l, ledger, i, calls[c])
  }

  ghost predicate Pays(env: Env, l: Principal, ledger: Ledger, i: nat, call: Call) {
    call.request.ledger == l && i < |ledger.blocks| && ledger.blocks[i].key == KeyOf(env.self, call.request.Args())
  }

  ghost predicate AnswersOk(env: Env, ledgers: map<Principal, Ledger>, calls: seq<Call>) {
    forall c :: 0 <= c < |calls| ==> AnswerOk(env, ledgers, calls[c])
  }

  ghost predicate AnswerOk(env: Env, ledgers: map<Principal, Ledger>, call: Call) {
    call.answer.Some? && Confirms(call.answer.value) ==>
      && call.request.ledger in ledgers
      && Pays(env, call.request.ledger, ledgers[call.request.ledger], BlockOf(call.answer.value), call)
  }

  ghost predicate SettledOk(env: Env, records: Records, ledgers: map<Principal, Ledger>, pins: map<nat, Pin>, settled: map<nat, nat>) {
    && (forall s :: s in settled ==> s in pins && PaidBy(env, ledgers, pins[s], settled[s]))
    && (forall id :: id in records && records[id].HasRetry() && records[id].Retry().memoSequence in settled ==>
          && records[id].status == Finalized
          && records[id].payout.value.blockIndex == Some(settled[records[id].Retry().memoSequence]))
  }

  ghost predicate PaidBy(env: Env, ledgers: map<Principal, Ledger>, pin: Pin, block: nat) {
    && pin.request.ledger in ledgers
    && block < |ledgers[pin.request.ledger].blocks|
    && ledgers[pin.request.ledger].blocks[block].key == KeyOf(env.self, pin.request.Args())
  }

  // ---------- fee accrual ----------

  function AccrualTotal(accruals: seq<Accrual>): FeeSplit {
    if accruals == [] then FeeSplit(0, 0, 0)
    else Accrue(AccrualTotal(accruals[..|accruals| - 1]), Some(accruals[|accruals| - 1].split))
  }

  ghost predicate BirthsOk(records: Records, births: map<SpendId, nat>, nextBirth: nat, accruals: seq<Accrual>) {
    && births.Keys == records.Keys
    && (forall id :: id in births ==> births[id] < nextBirth)
    && (forall i, j :: i in births && j in births && i != j ==> births[i] != births[j])
    && (forall k :: 0 <= k < |accruals| ==> accruals[k].birth < nextBirth)
    && (forall k, id :: 0 <= k < |accruals| && id in births && accruals[k].birth == births[id] ==> records[id].status == Finalized)
    && AccruedOnce(accruals)
  }

  ghost predicate AccruedOnce(accruals: seq<Accrual>) {
    forall k, m :: 0 <= k < m < |accruals| ==> accruals[k].birth != accruals[m].birth
  }

  /** How many accruals had been made when window `k` opened. */
  function Cut(flushes: seq<Flush>, k: nat): nat
    requires k <= |flushes|
  {
    if k == 0 then 0 else flushes[k - 1].upTo
  }

  ghost predicate WindowOk(accruals: seq<Accrual>, flushes: seq<Flush>, k: nat)
    requires k < |flushes|
  {
    && Cut(flushes, k) <= flushes[k].upTo <= |accruals|
    && flushes[k].row == AccrualTotal(accruals[Cut(flushes, k)..flushes[k].upTo])
  }

  /** Each published row is the sum of its own window, and the accrual cell that of the open one. */
  ghost predicate FeesOk(accrued: FeeSplit, accruals: seq<Accrual>, flushes: seq<Flush>) {
    && (forall k: nat :: k < |flushes| ==> WindowOk(accruals, flushes, k))
    && Cut(flushes, |flushes|) <= |accruals|
    && accrued == AccrualTotal(accruals[Cut(flushes, |flushes|)..])
  }

  // ---------- the whole ----------

  ghost predicate Inv(env: Env, w: World) {
    && w.pool.control.Valid()
    && RecordsOk(w.pool.control, w.pins, w.pool.records)
    && SequencesDistinct(w.pool.records)
    && LiveOk(w.pool.records, w.pool.live)
    && LiveHasTask(w.pool.live, w.issued, w.tasks)
    && IssuedOk(w.pool.control, w.pool.records, w.issued)
    && TasksOk(w.pool.records, w.pool.live, w.issued, w.tasks, w.calls)
    && PinsOk(env, w.pool.control, w.pins)
    && CallsOk(w.issued, w.calls, w.pins)
    && StickyOk(w.pool.records, w.issued, w.calls)
    && LedgersOk(env, w.ledgers, w.calls)
    && AnswersOk(env, w.ledgers, w.calls)
    && SettledOk(env, w.pool.records, w.ledgers, w.pins, w.settled)
    && BirthsOk(w.pool.records, w.births, w.nextBirth, w.accruals)
    && FeesOk(w.pool.accrued, w.accruals, w.flushes)
  }

  lemma InitHasInv(env: Env, w: World)
    requires env.SoundMac() && Init(env, w)
    ensures Inv(env, w)
  {
    hide RecordsOk, SequencesDistinct, LiveOk, LiveHasTask, IssuedOk, TasksOk, PinsOk, CallsOk, StickyOk;
    hide LedgersOk, AnswersOk, SettledOk, FeesOk;
    hide Env.SoundMac, LegacyRecord, LedgerInv, NoBlocksOf;
    AdoptedRecords(w.pool.control, w.pins, w.pool.records);
    UntouchedLedgers(env, w);
    NothingOutstanding(env, w.pool.control, w.pool.records, w.ledgers);
  }

  /** Before anything happens the remaining conjuncts have nothing to speak about. */
  lemma NothingOutstanding(env: Env, c: Control, records: Records, ledgers: map<Principal, Ledger>)
    ensures LiveOk(records, map[]) && LiveHasTask(map[], [], map[]) && IssuedOk(c, records, [])
    ensures TasksOk(records, map[], [], map[], []) && PinsOk(env, c, map[]) && CallsOk([], [], map[])
    ensures StickyOk(records, [], []) && AnswersOk(env, ledgers, []) && SettledOk(env, records, ledgers, map[], map[])
    ensures FeesOk(FeeSplit(0, 0, 0), [], [])
  {
  }

  /** Records without retry data satisfy everything a record must, whatever the counters. */
  lemma AdoptedRecords(c: Control, pins: map<nat, Pin>, records: Records)
    requires forall id :: id in records ==> LegacyRecord(id, records[id])
    ensures RecordsOk(c, pins, records) && SequencesDistinct(records)
  {
    forall id | id in records ensures RecordOk(c, pins, id, records[id]) {
      assert LegacyRecord(id, records[id]);
    }
  }

  lemma UntouchedLedgers(env: Env, w: World)
    requires forall l :: l in w.ledgers ==> LedgerInv(w.ledgers[l]) && NoBlocksOf(env.self, w.ledgers[l])
    ensures LedgersOk(env, w.ledgers, w.calls)
  {
    hide LedgerInv;
    forall l | l in w.ledgers ensures OwnBlocks(env, l, w.ledgers[l], w.calls) {
      assert NoBlocksOf(env.self, w.ledgers[l]);
    }
  }
}
