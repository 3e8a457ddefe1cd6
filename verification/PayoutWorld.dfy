/**
The payout executor composed with its surroundings: outstanding futures, transfers in flight,
deduplicating ledgers, operators, upgrades and traps, all interleaving at message boundaries.

History variables record what has happened: the attempt tokens issued, the transfers sent, the
first frozen request per ordinal, the settlements confirmed by a ledger, the fee accruals and the
flushed windows.
*/
module PayoutWorld {
  import opened Wrappers
  import opened ByteStrings
  import opened TokenLedger
  import opened PayoutTypes
  import opened PayoutSegments

  /** Where an outstanding future is suspended. */
  datatype Pc =
    | AtStart(configured: Principal)
    | AwaitBalance(ledger: Principal, required: nat, frozenKnown: bool)
    | AwaitFee(feeLedger: Principal)
    | AwaitTransfer(call: nat)

  /**
  One dispatched transfer. `refused` is set when its executor, still the owner, took in a definite
  rejection of it; `cleared` when an operator later reconciled the spend back to pending.
  */
  datatype Call = Call(task: nat, request: FrozenPayout, answer: Option<Reply>, refused: bool, cleared: bool)

  datatype Pin = Pin(id: SpendId, request: FrozenPayout, gross: nat)

  datatype Accrual = Accrual(birth: nat, split: FeeSplit)

  /** One flushed window: the row it published, and how many accruals had been made when it closed. */
  datatype Flush = Flush(upTo: nat, row: FeeSplit)

  datatype World = World(
    pool: Pool,
    issued: seq<Attempt>,
    tasks: map<nat, Pc>,
    calls: seq<Call>,
    ledgers: map<Principal, Ledger>,
    pins: map<nat, Pin>,
    settled: map<nat, nat>,
    births: map<SpendId, nat>,
    nextBirth: nat,
    accruals: seq<Accrual>,
    flushes: seq<Flush>)

  datatype Wake =
    | Poll
    | BalanceIs(balance: Option<nat>)
    | FeeIs(fee: Option<nat>, stamp: nat)
    | Replied
    | TransportFailed

  datatype PayoutTerms = PayoutTerms(destination: Principal, subaccount: Option<Bytes>, gross: nat)

  datatype Event =
    | Admit(id: SpendId, terms: Option<PayoutTerms>, split: Option<FeeSplit>)
    | Promote(id: SpendId)
    | FinishWithoutPayout(id: SpendId)
    | Abandon(id: SpendId)
    | Forget(id: SpendId)
    | Provision(initialBoot: nat, beacon: Option<Bytes>)
    | Upgraded
    | Normalized(id: SpendId)
    | Claims(id: SpendId, configured: Principal)
    | Resume(task: nat, wake: Wake)
    | LoseGuard(task: nat)
    | Reconciled(id: SpendId, outcome: PayoutOutcome)
    | FlushFees
    | LedgerHandles(call: nat, conditions: Conditions)
    | LedgerServesOther(ledger: Principal, caller: Principal, args: TransferArgs, conditions: Conditions)

  // ---------- initial states ----------

  /** A fresh control cell over records that carry no retry state: a new pool, or an adopted legacy one. */
  ghost predicate Init(env: Env, w: World) {
    && w.pool.control == INITIAL_CONTROL && w.pool.live == map[] && w.pool.accrued == FeeSplit(0, 0, 0)
    && (forall id :: id in w.pool.records ==> LegacyRecord(id, w.pool.records[id]))
    && w.issued == [] && w.tasks == map[] && w.calls == [] && w.pins == map[] && w.settled == map[]
    && w.accruals == [] && w.flushes == []
    && (forall l :: l in w.ledgers ==> LedgerInv(w.ledgers[l]) && NoBlocksOf(env.self, w.ledgers[l]))
    && w.births.Keys == w.pool.records.Keys
    && (forall id :: id in w.births ==> w.births[id] < w.nextBirth)
    && (forall i, j :: i in w.births && j in w.births && i != j ==> w.births[i] != w.births[j])
  }

  predicate LegacyRecord(id: SpendId, rec: PendingSpend) {
    && id <= U64_MAX && !rec.HasRetry()
    && (rec.payout.Some? ==> rec.payout.value.publicAmount <= U128_MAX)
  }

  /** A debit of the pool under a memo of the payouts' length; the pool's other transfers use other lengths. */
  predicate PayoutBlock(self: Principal, b: Block) {
    b.key.from.owner == self && |b.key.memo| == PAYOUT_MEMO_LENGTH
  }

  ghost predicate NoBlocksOf(self: Principal, l: Ledger) {
    forall i :: 0 <= i < |l.blocks| ==> !PayoutBlock(self, l.blocks[i])
  }

  // ---------- steps ----------

  predicate Enabled(env: Env, w: World, e: Event) {
    match e
    case Admit(id, terms, _) =>
      id <= U64_MAX && id !in w.pool.records && (terms.Some? ==> terms.value.gross <= U128_MAX)
    case Promote(id) => id in w.pool.records && w.pool.records[id].status == PrePayout && w.pool.records[id].payout.Some?
    case FinishWithoutPayout(id) => id in w.pool.records && w.pool.records[id].status == PrePayout && w.pool.records[id].payout.None?
    case Abandon(id) => id in w.pool.records && w.pool.records[id].status == PrePayout
    case Forget(id) => id in w.pool.records && w.pool.records[id].status in {PrePayout, Finalized, Failed}
    case Provision(_, _) => true
    case Upgraded => Upgrade(w.pool).Some?
    case Normalized(_) => true
    case Claims(_, _) => true
    case Resume(t, wake) => t in w.tasks && t < |w.issued| && Wakes(w, w.tasks[t], wake)
    case LoseGuard(t) => t in w.tasks && t < |w.issued|
    case Reconciled(_, _) => true
    case LedgerHandles(c, cond) =>
      && c < |w.calls| && w.calls[c].answer.None? && w.calls[c].request.ledger in w.ledgers
      && w.ledgers[w.calls[c].request.ledger].now <= cond.now
    case FlushFees => true
    case LedgerServesOther(l, caller, args, cond) =>
      && l in w.ledgers && w.ledgers[l].now <= cond.now
      && (caller == env.self ==> args.memo.None? || |args.memo.value| != PAYOUT_MEMO_LENGTH)
  }

  predicate Wakes(w: World, pc: Pc, wake: Wake) {
    match pc
    case AtStart(_) => wake.Poll?
    case AwaitBalance(_, _, _) => wake.BalanceIs?
    case AwaitFee(_) => wake.FeeIs?
    case AwaitTransfer(c) => c < |w.calls| && (wake.TransportFailed? || (wake.Replied? && w.calls[c].answer.Some?))
  }

  function Step(env: Env, w: World, e: Event): World
    requires Enabled(env, w, e)
  {
    match e
    case Admit(id, terms, split) => AdmitStep(w, id, terms, split)
    case Promote(id) => w.(pool := Put(w.pool, id, w.pool.records[id].(status := PayoutPending)))
    case FinishWithoutPayout(id) => TerminalStep(w, id, Terminal(w.pool, id, None).0)
    case Abandon(id) => w.(pool := Put(w.pool, id, w.pool.records[id].(status := Failed)))
    case Forget(id) => w.(pool := w.pool.(records := w.pool.records - {id}), births := w.births - {id})
    case Provision(boot, beacon) => w.(pool := ProvisionKey(w.pool, boot, beacon).0)
    case Upgraded => w.(pool := Upgrade(w.pool).value)
    case Normalized(id) => w.(pool := Normalize(w.pool, id).0)
    case Claims(id, configured) => ClaimStep(w, id, configured)
    case Resume(t, wake) => ResumeStep(env, w, t, wake)
    case LoseGuard(t) => w.(pool := DropGuard(w.pool, w.issued[t]), tasks := w.tasks - {t})
    case Reconciled(id, outcome) => ReconcileStep(w, id, outcome)
    case FlushFees =>
      var (p, row) := Drain(w.pool);
      w.(pool := p, flushes := w.flushes + [Flush(|w.accruals|, row)])
    case LedgerHandles(c, cond) => LedgerStep(env, w, c, cond)
    case LedgerServesOther(l, caller, args, cond) =>
      w.(ledgers := w.ledgers[l := Transfer(w.ledgers[l], cond, caller, args).0])
  }

  /** Admission reserves the ordinal of a payout-bearing spend; without a memo key nothing is written. */
  function AdmitStep(w: World, id: SpendId, terms: Option<PayoutTerms>, split: Option<FeeSplit>): World {
    if terms.None? then Born(w, id, PendingSpend(None, PrePayout, split))
    else
      var (p, reserved) := ReserveSequence(w.pool);
      if reserved.Err? then w
      else
        var t := terms.value;
        Born(w.(pool := p), id,
             PendingSpend(Some(PublicPayout(t.destination, t.subaccount, t.gross, None, None, Some(reserved.value))),
                          PrePayout, split))
  }

  function Born(w: World, id: SpendId, rec: PendingSpend): World {
    w.(pool := Put(w.pool, id, rec), births := w.births[id := w.nextBirth], nextBirth := w.nextBirth + 1)
  }

  function ClaimStep(w: World, id: SpendId, configured: Principal): World {
    var (p, claimed) := Claim(w.pool, id);
    if claimed.Err? then w.(pool := p)
    else w.(pool := p, issued := w.issued + [claimed.value], tasks := w.tasks[|w.issued| := AtStart(configured)])
  }

  /** A step in which record `id` may become final: the accrual it causes is logged. */
  function TerminalStep(w: World, id: SpendId, p: Pool): World {
    w.(pool := p,
       accruals := w.accruals +
         (if FinalizesNow(w, id, p) && w.pool.records[id].split.Some? && id in w.births
          then [Accrual(w.births[id], w.pool.records[id].split.value)] else []))
  }

  predicate FinalizesNow(w: World, id: SpendId, p: Pool) {
    && id in w.pool.records && w.pool.records[id].status != Finalized
    && id in p.records && p.records[id].status == Finalized
  }

  function ReconcileStep(w: World, id: SpendId, outcome: PayoutOutcome): World {
    var (p, r) := Reconcile(w.pool, id, outcome);
    var w1 := TerminalStep(w, id, p);
    if r == Ok(RevertedToPending) then w1.(calls := ClearCalls(w, id, p)) else w1
  }

  function ClearCalls(w: World, id: SpendId, p: Pool): seq<Call> {
    seq(|w.calls|, c requires 0 <= c < |w.calls| =>
      if id in p.records && p.records[id].HasRetry() && w.calls[c].task < |w.issued|
         && w.issued[w.calls[c].task].sequence == p.records[id].Retry().memoSequence
      then w.calls[c].(cleared := true) else w.calls[c])
  }

  function Segment(env: Env, w: World, a: Attempt, pc: Pc, wake: Wake): (Pool, Progress)
    requires Wakes(w, pc, wake)
  {
    match pc
    case AtStart(configured) => Begin(w.pool, a, configured)
    case AwaitBalance(l, required, known) => AfterBalance(w.pool, a, l, required, known, wake.balance)
    case AwaitFee(l) => AfterFee(env, w.pool, a, l, wake.fee, wake.stamp)
    case AwaitTransfer(c) =>
      AfterTransfer(w.pool, a, if wake.Replied? then Answer(w.calls[c].answer.value) else Transport)
  }

  function ResumeStep(env: Env, w: World, t: nat, wake: Wake): World
    requires t in w.tasks && t < |w.issued| && Wakes(w, w.tasks[t], wake)
  {
    var a := w.issued[t];
    var (p, progress) := Segment(env, w, a, w.tasks[t], wake);
    var w1 := TerminalStep(w, a.id, Leave(p, a, progress));
    w1.(tasks := NextTasks(w, t, progress),
        calls := NextCalls(w, t, a, wake, progress),
        pins := NextPins(w.pins, p, a),
        settled := if ConfirmedNow(w, t, wake, progress) then w.settled[a.sequence := progress.result.value] else w.settled)
  }

  function NextTasks(w: World, t: nat, progress: Progress): map<nat, Pc> {
    match progress
    case Finished(_) => w.tasks - {t}
    case AskBalance(l, required, known) => w.tasks[t := AwaitBalance(l, required, known)]
    case AskFee(l) => w.tasks[t := AwaitFee(l)]
    case Send(_) => w.tasks[t := AwaitTransfer(|w.calls|)]
  }

  function NextCalls(w: World, t: nat, a: Attempt, wake: Wake, progress: Progress): seq<Call>
    requires t in w.tasks && Wakes(w, w.tasks[t], wake)
  {
    if progress.Send? then w.calls + [Call(t, progress.request, None, false, false)]
    else if wake.Replied? && Owns(w.pool, a) && DefiniteRefusal(w.calls[w.tasks[t].call].answer.value)
    then w.calls[w.tasks[t].call := w.calls[w.tasks[t].call].(refused := true)]
    else w.calls
  }

  predicate DefiniteRefusal(reply: Reply) {
    !Confirms(reply) && !AmbiguousRefusal(reply)
  }

  /** Only the first frozen request of an ordinal is ever pinned. */
  function NextPins(pins: map<nat, Pin>, p: Pool, a: Attempt): map<nat, Pin> {
    if a.id in p.records && p.records[a.id].HasRetry() && p.records[a.id].Retry().frozen.Some?
       && p.records[a.id].Retry().memoSequence == a.sequence && a.sequence !in pins
    then pins[a.sequence := Pin(a.id, p.records[a.id].Retry().frozen.value, p.records[a.id].payout.value.publicAmount)]
    else pins
  }

  predicate ConfirmedNow(w: World, t: nat, wake: Wake, progress: Progress)
    requires t in w.tasks && Wakes(w, w.tasks[t], wake)
  {
    wake.Replied? && progress.Finished? && progress.result.Ok?
  }

  function LedgerStep(env: Env, w: World, c: nat, cond: Conditions): World
    requires c < |w.calls| && w.calls[c].request.ledger in w.ledgers
  {
    var request := w.calls[c].request;
    var (l, reply) := Transfer(w.ledgers[request.ledger], cond, env.self, request.Args());
    w.(ledgers := w.ledgers[request.ledger := l], calls := w.calls[c := w.calls[c].(answer := Some(reply))])
  }

  /** A finite run from an initial state. */
  ghost predicate Run(env: Env, ws: seq<World>, es: seq<Event>) {
    && |ws| == |es| + 1
    && Init(env, ws[0])
    && forall i :: 0 <= i < |es| ==> Enabled(env, ws[i], es[i]) && ws[i + 1] == Step(env, ws[i], es[i])
  }
}
