/**
What each event of a run does to the record it is about, to the executor map, to the accrual cell
and to the transfers in flight. Every statement names stored fields and event contents only: none
of the functions the executor is specified by.
*/
module PayoutLaws {
  import opened Wrappers
  import opened ByteStrings
  import opened TokenLedger
  import opened PayoutTypes
  import opened PayoutSegments
  import opened PayoutWorld
  import opened PayoutInvariant
  import opened PayoutResume
  import opened PayoutRuns
  import opened PayoutTheorems

  predicate StepAt(ws: seq<World>, es: seq<Event>, n: nat, w: World, e: Event, next: World) {
    n < |es| && n + 1 < |ws| && ws[n] == w && es[n] == e && ws[n + 1] == next
  }

  /** Some run has a step in which event `e` leads from `w` to `next`. */
  ghost predicate Leads(env: Env, w: World, e: Event, next: World) {
    env.SoundMac() && exists ws, es, n :: Run(env, ws, es) && StepAt(ws, es, n, w, e, next)
  }

  lemma LeadsFacts(env: Env, w: World, e: Event, next: World)
    requires Leads(env, w, e, next)
    ensures env.SoundMac() && Enabled(env, w, e) && next == Step(env, w, e)
    ensures Inv(env, w)
  {
    hide Run, Inv, Enabled, Step, Env.SoundMac;
    var ws, es, n :| Run(env, ws, es) && StepAt(ws, es, n, w, e, next);
    RunStep(env, ws, es, n);
    ReachableInv(env, ws, es, n);
  }

  // ---------- the holder of an executor slot ----------

  /** Future `t` is outstanding and its token is the one in its spend's executor slot. */
  predicate Holder(w: World, t: nat) {
    && t in w.tasks && t < |w.issued|
    && w.issued[t].id in w.pool.live && w.pool.live[w.issued[t].id] == w.issued[t]
    && w.issued[t].id in w.pool.records && w.pool.records[w.issued[t].id].HasRetry()
  }

  function RecordOf(w: World, t: nat): PendingSpend
    requires Holder(w, t)
  {
    w.pool.records[w.issued[t].id]
  }

  /** The world after the holder's record is rewritten; its slot goes with `live`. */
  function Rewritten(w: World, t: nat, rec: PendingSpend): Pool
    requires Holder(w, t)
  {
    w.pool.(records := w.pool.records[w.issued[t].id := rec])
  }

  function SlotFree(p: Pool, id: SpendId): Pool {
    p.(live := p.live - {id})
  }

  /** A record whose transfer has just left. */
  function OnItsWay(rec: PendingSpend): PendingSpend
    requires rec.HasRetry()
  {
    rec.(payout := Some(rec.payout.value.(
      retry := Some(rec.payout.value.retry.value.(phase := MayHaveDispatched, dispatched := true)))))
  }

  /** Who holds the slot owns the record, in the state its suspended future relies on. */
  lemma HolderOwns(env: Env, w: World, t: nat, wake: Wake, next: World)
    requires Leads(env, w, Resume(t, wake), next) && Holder(w, t)
    ensures Owns(w.pool, w.issued[t]) && OwnedWake(env, w, t, wake) && Expects(RecordOf(w, t), w.tasks[t])
    ensures next == ResumeStep(env, w, t, wake)
    ensures w.pool.control.key.Some? && RecordOf(w, t).Retry().memoSequence == w.issued[t].sequence
  {
    hide RecordsOk, SequencesDistinct, LiveHasTask, IssuedOk, TasksOk, PinsOk, CallsOk, StickyOk;
    hide LedgersOk, AnswersOk, SettledOk, BirthsOk, FeesOk;
    hide Step, ResumeStep, Leads;
    LeadsFacts(env, w, Resume(t, wake), next);
    OwnerFacts(w, t);
    StepOfResume(env, w, t, wake);
  }

  /** A future that does not hold its slot changes nothing: it sends nothing, settles nothing, and ends. */
  lemma NonHolderIsIdle(env: Env, w: World, t: nat, wake: Wake, next: World)
    requires Leads(env, w, Resume(t, wake), next) && t < |w.issued|
    requires w.issued[t].id !in w.pool.live || w.pool.live[w.issued[t].id] != w.issued[t]
    ensures next == w.(tasks := w.tasks - {t})
  {
    hide SequencesDistinct, LiveHasTask, IssuedOk, TasksOk, PinsOk, CallsOk, StickyOk;
    hide LedgersOk, AnswersOk, SettledOk, BirthsOk, FeesOk;
    hide Step, ResumeStep, RecordsOk;
    LeadsFacts(env, w, Resume(t, wake), next);
    StepOfResume(env, w, t, wake);
    StaleChangesNothing(env, w, t, wake);
  }

  // ---------- the first segment ----------

  /**
  A started future of a spend never dispatched before first asks for the balance: of the ledger
  its request names if it is frozen, of the configured one otherwise.
  */
  lemma StartAsksBalance(env: Env, w: World, t: nat, next: World)
    requires Leads(env, w, Resume(t, Poll), next) && Holder(w, t) && !RecordOf(w, t).Retry().dispatched
    ensures w.tasks[t].AtStart?
    ensures
      var payout := RecordOf(w, t).payout.value;
      var frozen := payout.retry.value.frozen;
      var ledger := if frozen.Some? then frozen.value.ledger else w.tasks[t].configured;
      next == w.(tasks := w.tasks[t := AwaitBalance(ledger, payout.publicAmount, frozen.Some?)])
  {
    hide Leads, ResumeStep, Expects;
    HolderOwns(env, w, t, Poll, next);
    AskShape(env, w, t, Poll);
  }

  /** A spend dispatched before skips the preflight: its frozen request leaves again, unchanged. */
  lemma StartResends(env: Env, w: World, t: nat, next: World)
    requires Leads(env, w, Resume(t, Poll), next) && Holder(w, t) && RecordOf(w, t).Retry().dispatched
    ensures RecordOf(w, t).Retry().frozen.Some? && Resent(w, t, next)
  {
    hide Leads, ResumeStep, Expects;
    HolderOwns(env, w, t, Poll, next);
    ResendShape(env, w, t, Poll);
  }

  /** Exactly one more transfer is in flight: the frozen request, with the dispatch noted on the record. */
  predicate Resent(w: World, t: nat, next: World) {
    && Holder(w, t) && RecordOf(w, t).Retry().frozen.Some?
    && next == w.(pool := Rewritten(w, t, OnItsWay(RecordOf(w, t))),
                  tasks := w.tasks[t := AwaitTransfer(|w.calls|)],
                  calls := w.calls + [Call(t, RecordOf(w, t).Retry().frozen.value, None, false, false)])
  }

  // ---------- preflight answers ----------

  /** The preflight answer refuses: no balance, too little of it, no fee, or a fee that eats the whole amount. */
  predicate PreflightRefuses(pc: Pc, wake: Wake, gross: nat) {
    || (pc.AwaitBalance? && wake.BalanceIs? && (wake.balance.None? || wake.balance.value < gross))
    || (pc.AwaitFee? && wake.FeeIs? && (wake.fee.None? || gross <= wake.fee.value))
  }

  /** What the caller is told: the amount needed and found, the amount and the fee, or that nothing was answered. */
  function RefusalError(wake: Wake, gross: nat): PoolError {
    match wake
    case BalanceIs(Some(found)) => EscrowUnderfunded(gross, found)
    case FeeIs(Some(fee), _) => GrossAmountBelowFees(gross, fee)
    case _ => TransferFailed
  }

  /**
  A refused preflight sends nothing: the slot is free again, and the record is pending with its
  retry data untouched, or unknown if it was in doubt already.
  */
  lemma RefusedPreflightSendsNothing(env: Env, w: World, t: nat, wake: Wake, next: World)
    requires Leads(env, w, Resume(t, wake), next) && Holder(w, t)
    requires PreflightRefuses(w.tasks[t], wake, RecordOf(w, t).payout.value.publicAmount)
    ensures
      var rec := RecordOf(w, t);
      var status := if rec.Retry().priorAmbiguity then PayoutUnknown else PayoutPending;
      next == w.(pool := SlotFree(Rewritten(w, t, rec.(status := status)), w.issued[t].id), tasks := w.tasks - {t})
    ensures Wakes(w, w.tasks[t], wake)
    ensures Segment(env, w, w.issued[t], w.tasks[t], wake).1
         == Finished(Err(RefusalError(wake, RecordOf(w, t).payout.value.publicAmount)))
  {
    hide Leads, ResumeStep;
    HolderOwns(env, w, t, wake, next);
    FailShape(env, w, t, wake, RefusalError(wake, RecordOf(w, t).payout.value.publicAmount), false);
  }

  /** Enough balance for a request not yet frozen: the same ledger is asked for its fee, and nothing else changes. */
  lemma EnoughBalanceAsksFee(env: Env, w: World, t: nat, balance: nat, next: World)
    requires Leads(env, w, Resume(t, BalanceIs(Some(balance))), next) && Holder(w, t) && w.tasks[t].AwaitBalance?
    requires RecordOf(w, t).payout.value.publicAmount <= balance && RecordOf(w, t).Retry().frozen.None?
    ensures next == w.(tasks := w.tasks[t := AwaitFee(w.tasks[t].ledger)])
  {
    hide Leads, ResumeStep;
    HolderOwns(env, w, t, BalanceIs(Some(balance)), next);
    AskShape(env, w, t, BalanceIs(Some(balance)));
  }

  lemma EnoughBalanceResends(env: Env, w: World, t: nat, balance: nat, next: World)
    requires Leads(env, w, Resume(t, BalanceIs(Some(balance))), next) && Holder(w, t) && w.tasks[t].AwaitBalance?
    requires RecordOf(w, t).payout.value.publicAmount <= balance && RecordOf(w, t).Retry().frozen.Some?
    ensures Resent(w, t, next)
  {
    hide Leads, ResumeStep;
    HolderOwns(env, w, t, BalanceIs(Some(balance)), next);
    ResendShape(env, w, t, BalanceIs(Some(balance)));
  }

  /** The request a fee reply makes of a record: the reported fee comes out of the amount. */
  function RequestFor(env: Env, key: Bytes, a: Attempt, p: PublicPayout, ledger: Principal, fee: nat, stamp: nat)
    : FrozenPayout
    requires fee <= p.publicAmount
  {
    var message :=
      MEMO_DOMAIN + ([|env.self|] + env.self) + ([|ledger|] + ledger) + ToLE(a.id, 8) + ToLE(a.sequence, 16);
    FrozenPayout(ledger, None, p.destination, p.destinationSubaccount, p.publicAmount - fee, Some(fee),
                 Some(env.mac(key, message)), Some(stamp))
  }

  /**
  The reported fee is the fee paid. A fee below the amount freezes, pins and sends in one step
  exactly one request: to the ledger that reported the fee, for the amount less that fee, to the
  record's destination, under the memo of this spend and ordinal, stamped with the time of the reply.
  */
  lemma FeeReplyFreezes(env: Env, w: World, t: nat, fee: nat, stamp: nat, next: World)
    requires Leads(env, w, Resume(t, FeeIs(Some(fee), stamp)), next) && Holder(w, t) && w.tasks[t].AwaitFee?
    requires fee < RecordOf(w, t).payout.value.publicAmount
    ensures w.pool.control.key.Some?
    ensures
      var a, rec := w.issued[t], RecordOf(w, t);
      var p := rec.payout.value;
      var request := RequestFor(env, w.pool.control.key.value, a, p, w.tasks[t].feeLedger, fee, stamp);
      var frozen := rec.(payout := Some(p.(
        ledgerCreatedAt := Some(stamp), retry := Some(p.retry.value.(frozen := Some(request))))));
      next == w.(pool := Rewritten(w, t, OnItsWay(frozen)),
                 tasks := w.tasks[t := AwaitTransfer(|w.calls|)],
                 calls := w.calls + [Call(t, request, None, false, false)],
                 pins := w.pins[a.sequence := Pin(a.id, request, p.publicAmount)])
  {
    hide Leads, ResumeStep, ToLE;
    HolderOwns(env, w, t, FeeIs(Some(fee), stamp), next);
    FirstSendShape(env, w, t, FeeIs(Some(fee), stamp));
  }

  // ---------- the ledger's answer ----------

  /** Each reserve grows by its own share, up to the end of 128 bits. */
  function Added(total: FeeSplit, split: Option<FeeSplit>): FeeSplit {
    match split
    case None => total
    case Some(s) =>
      FeeSplit(Min(total.operations + s.operations, U128_MAX),
               Min(total.insurance + s.insurance, U128_MAX),
               Min(total.staking + s.staking, U128_MAX))
  }

  /** The confirmed record: final, with the block noted, and otherwise as it was. */
  function PaidIn(rec: PendingSpend, block: nat): PendingSpend
    requires rec.payout.Some?
  {
    rec.(status := Finalized, payout := Some(rec.payout.value.(blockIndex := Some(block))))
  }

  /** The accrual of a spend that just became final is logged, once, under its own incarnation. */
  predicate Logged(w: World, id: SpendId, split: Option<FeeSplit>, accruals: seq<Accrual>) {
    match split
    case None => accruals == w.accruals
    case Some(s) => id in w.births && accruals == w.accruals + [Accrual(w.births[id], s)]
  }

  /** Final with the named block, slot free, ordinal settled, split accrued: in one step, and nothing else. */
  predicate Finalizes(w: World, t: nat, block: nat, next: World) {
    && Holder(w, t)
    && var a, rec := w.issued[t], RecordOf(w, t);
    && next == w.(pool := SlotFree(Rewritten(w, t, PaidIn(rec, block)), a.id)
                          .(accrued := Added(w.pool.accrued, rec.split)),
                  tasks := w.tasks - {t}, settled := w.settled[a.sequence := block], accruals := next.accruals)
    && Logged(w, a.id, rec.split, next.accruals)
  }

  /** Executed now, or found executed before, in this block. */
  predicate NamesBlock(answer: Option<Reply>, block: nat) {
    answer == Some(Accepted(block)) || answer == Some(Duplicate(block))
  }

  lemma ConfirmationFinalizes(env: Env, w: World, t: nat, block: nat, next: World)
    requires Leads(env, w, Resume(t, Replied), next) && Holder(w, t)
    requires w.tasks[t].AwaitTransfer? && w.tasks[t].call < |w.calls|
    requires NamesBlock(w.calls[w.tasks[t].call].answer, block)
    ensures Finalizes(w, t, block, next)
  {
    hide RecordsOk, SequencesDistinct, LiveOk, LiveHasTask, IssuedOk, TasksOk, PinsOk, CallsOk, StickyOk;
    hide LedgersOk, AnswersOk, SettledOk, FeesOk;
    hide Leads, ResumeStep, Step;
    LeadsFacts(env, w, Resume(t, Replied), next);
    HolderOwns(env, w, t, Replied, next);
    EndShape(env, w, t, Replied);
    assert w.accruals + [] == w.accruals;
  }

  /** And the caller is told that block. */
  lemma ConfirmationIsReturned(env: Env, w: World, t: nat, block: nat, next: World)
    requires Leads(env, w, Resume(t, Replied), next) && Holder(w, t)
    requires w.tasks[t].AwaitTransfer? && w.tasks[t].call < |w.calls|
    requires NamesBlock(w.calls[w.tasks[t].call].answer, block)
    ensures Wakes(w, w.tasks[t], Replied)
    ensures Segment(env, w, w.issued[t], w.tasks[t], Replied).1 == Finished(Ok(block))
  {
    hide Leads, ResumeStep;
    HolderOwns(env, w, t, Replied, next);
  }

  /** Replies that leave open whether an earlier copy of the request was executed. */
  predicate LeavesOpen(answer: Option<Reply>) {
    answer in {Some(BadFee), Some(TooOld), Some(CreatedInFuture)}
  }

  /** Replies that prove that nothing was executed. */
  predicate ProvesNothingDone(answer: Option<Reply>) {
    answer in {Some(BadBurn), Some(InsufficientFunds), Some(TemporarilyUnavailable), Some(GenericError)}
  }

  /** A lost reply, or one that leaves the outcome open: the spend is unknown and in doubt, its slot free. */
  lemma OpenOutcomeIsDoubt(env: Env, w: World, t: nat, wake: Wake, next: World)
    requires Leads(env, w, Resume(t, wake), next) && Holder(w, t)
    requires w.tasks[t].AwaitTransfer? && w.tasks[t].call < |w.calls|
    requires wake.TransportFailed? || (wake.Replied? && LeavesOpen(w.calls[w.tasks[t].call].answer))
    ensures
      var rec := RecordOf(w, t);
      var doubted := rec.(
        status := PayoutUnknown,
        payout := Some(rec.payout.value.(retry := Some(rec.payout.value.retry.value.(priorAmbiguity := true)))));
      next == w.(pool := SlotFree(Rewritten(w, t, doubted), w.issued[t].id), tasks := w.tasks - {t})
    ensures Wakes(w, w.tasks[t], wake)
    ensures Segment(env, w, w.issued[t], w.tasks[t], wake).1 == Finished(Err(TransferFailed))
  {
    hide Leads, ResumeStep;
    HolderOwns(env, w, t, wake, next);
    FailShape(env, w, t, wake, TransferFailed, true);
  }

  /** A refusal that proves nothing was executed is marked on its transfer; the record keeps its retry data. */
  lemma RefusalIsMarked(env: Env, w: World, t: nat, next: World)
    requires Leads(env, w, Resume(t, Replied), next) && Holder(w, t)
    requires w.tasks[t].AwaitTransfer? && w.tasks[t].call < |w.calls|
    requires ProvesNothingDone(w.calls[w.tasks[t].call].answer)
    ensures
      var rec, c := RecordOf(w, t), w.tasks[t].call;
      var status := if rec.Retry().priorAmbiguity then PayoutUnknown else PayoutPending;
      next == w.(pool := SlotFree(Rewritten(w, t, rec.(status := status)), w.issued[t].id),
                 tasks := w.tasks - {t}, calls := w.calls[c := w.calls[c].(refused := true)])
    ensures Wakes(w, w.tasks[t], Replied)
    ensures Segment(env, w, w.issued[t], w.tasks[t], Replied).1 == Finished(Err(TransferFailed))
  {
    hide Leads, ResumeStep;
    HolderOwns(env, w, t, Replied, next);
    FailShape(env, w, t, Replied, TransferFailed, false);
  }

  // ---------- where transfers come from ----------

  /**
  What lets a transfer leave: a fee below the amount for a spend without a request, a balance that
  covers the amount for a frozen one, or a start of a spend dispatched before.
  */
  predicate MaySend(pc: Pc, wake: Wake, p: PublicPayout)
    requires p.retry.Some?
  {
    || (pc.AwaitFee? && wake.FeeIs? && wake.fee.Some? && wake.fee.value < p.publicAmount)
    || (pc.AwaitBalance? && wake.BalanceIs? && wake.balance.Some? && p.publicAmount <= wake.balance.value
        && p.retry.value.frozen.Some?)
    || (pc.AtStart? && wake.Poll? && p.retry.value.dispatched)
  }

  /** Transfers leave one at a time, only from the holder of the spend's slot, and only for these reasons. */
  lemma TransfersHaveACause(env: Env, w: World, e: Event, next: World)
    requires Leads(env, w, e, next) && |w.calls| != |next.calls|
    ensures e.Resume? && Holder(w, e.task)
    ensures MaySend(w.tasks[e.task], e.wake, RecordOf(w, e.task).payout.value)
    ensures |next.calls| == |w.calls| + 1 && next.calls[..|w.calls|] == w.calls && next.calls[|w.calls|].task == e.task
  {
    hide Leads, Inv, Step, ResumeStep, Resent;
    LeadsFacts(env, w, e, next);
    if !e.Resume? {
      OthersSendNothing(env, w, e);
    } else {
      WakeSends(env, w, e.task, e.wake, next);
    }
  }

  lemma WakeSends(env: Env, w: World, t: nat, wake: Wake, next: World)
    requires Leads(env, w, Resume(t, wake), next) && t in w.tasks && t < |w.issued| && Wakes(w, w.tasks[t], wake)
    requires |w.calls| != |next.calls|
    ensures Holder(w, t) && MaySend(w.tasks[t], wake, RecordOf(w, t).payout.value)
    ensures |next.calls| == |w.calls| + 1 && next.calls[..|w.calls|] == w.calls && next.calls[|w.calls|].task == t
  {
    hide Leads;
    if w.issued[t].id !in w.pool.live || w.pool.live[w.issued[t].id] != w.issued[t] {
      NonHolderIsIdle(env, w, t, wake, next);
    } else {
      SlotMakesHolder(env, w, t, wake, next);
      HolderSends(env, w, t, wake, next);
    }
  }

  lemma SlotMakesHolder(env: Env, w: World, t: nat, wake: Wake, next: World)
    requires Leads(env, w, Resume(t, wake), next) && t in w.tasks && t < |w.issued|
    requires w.issued[t].id in w.pool.live && w.pool.live[w.issued[t].id] == w.issued[t]
    ensures Holder(w, t)
  {
    hide RecordsOk, SequencesDistinct, LiveHasTask, IssuedOk, TasksOk, PinsOk, CallsOk, StickyOk;
    hide LedgersOk, AnswersOk, SettledOk, BirthsOk, FeesOk;
    hide Leads;
    LeadsFacts(env, w, Resume(t, wake), next);
  }

  lemma HolderSends(env: Env, w: World, t: nat, wake: Wake, next: World)
    requires Leads(env, w, Resume(t, wake), next) && Holder(w, t) && Wakes(w, w.tasks[t], wake)
    requires |w.calls| != |next.calls|
    ensures MaySend(w.tasks[t], wake, RecordOf(w, t).payout.value)
    ensures |next.calls| == |w.calls| + 1 && next.calls[..|w.calls|] == w.calls && next.calls[|w.calls|].task == t
  {
    hide Leads, Rewritten, OnItsWay, RequestFor;
    var p := RecordOf(w, t).payout.value;
    match w.tasks[t]
    case AtStart(_) =>
      if p.retry.value.dispatched {
        StartResends(env, w, t, next);
      } else {
        StartAsksBalance(env, w, t, next);
      }
    case AwaitBalance(_, _, _) =>
      if PreflightRefuses(w.tasks[t], wake, p.publicAmount) {
        RefusedPreflightSendsNothing(env, w, t, wake, next);
      } else if p.retry.value.frozen.None? {
        EnoughBalanceAsksFee(env, w, t, wake.balance.value, next);
      } else {
        EnoughBalanceResends(env, w, t, wake.balance.value, next);
      }
    case AwaitFee(_) =>
      if PreflightRefuses(w.tasks[t], wake, p.publicAmount) {
        RefusedPreflightSendsNothing(env, w, t, wake, next);
      } else {
        FeeReplyFreezes(env, w, t, wake.fee.value, wake.stamp, next);
      }
    case AwaitTransfer(c) => AnswerSends(env, w, t, wake, next);
  }

  lemma AnswerSends(env: Env, w: World, t: nat, wake: Wake, next: World)
    requires Leads(env, w, Resume(t, wake), next) && Holder(w, t) && Wakes(w, w.tasks[t], wake)
    requires w.tasks[t].AwaitTransfer?
    ensures |w.calls| == |next.calls|
  {
    hide Leads, Rewritten;
    var answer := w.calls[w.tasks[t].call].answer;
    if wake.TransportFailed? || LeavesOpen(answer) {
      OpenOutcomeIsDoubt(env, w, t, wake, next);
    } else if ProvesNothingDone(answer) {
      RefusalIsMarked(env, w, t, next);
    } else {
      ConfirmationFinalizes(env, w, t, BlockOf(answer.value), next);
    }
  }

  lemma OthersSendNothing(env: Env, w: World, e: Event)
    requires Enabled(env, w, e) && !e.Resume?
    ensures |Step(env, w, e).calls| == |w.calls|
  {
    hide Transfer, AdmitStep, ClaimStep, ReconcileStep, ResumeStep, LedgerStep, TerminalStep, Normalize, ProvisionKey;
    hide Upgrade, Drain, DropGuard, Terminal, Reconcile;
    match e
    case Reconciled(id, outcome) => ReconcileSendsNothing(w, id, outcome);
    case Claims(id, configured) => ClaimTouches(w, id, configured);
    case Admit(id, terms, split) => AdmitTouches(w, id, terms, split);
    case FinishWithoutPayout(id) => TerminalTouches(w, id, Terminal(w.pool, id, None).0);
    case LedgerHandles(c, cond) => LedgerTouches(env, w, c, cond);
    case _ =>
  }

  lemma ReconcileSendsNothing(w: World, id: SpendId, outcome: PayoutOutcome)
    ensures |ReconcileStep(w, id, outcome).calls| == |w.calls|
  {
    hide Reconcile, TerminalStep;
    TerminalTouches(w, id, Reconcile(w.pool, id, outcome).0);
  }
}
