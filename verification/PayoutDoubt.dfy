/**
Doubt about dispatched transfers: it blocks every further claim until it is lifted, it is lifted
only by a definite refusal or an operator, it never arises without cause, and a spend that was
definitely refused is released at once.
*/
module PayoutDoubt {
  import opened Wrappers
  import opened ByteStrings
  import opened TokenLedger
  import opened PayoutTypes
  import opened PayoutSegments
  import opened PayoutWorld
  import opened PayoutInvariant
  import opened PayoutResume
  import opened PayoutRuns
  import opened PayoutTheorems

  /** A transfer sent for the ordinal of record `id`. */
  ghost predicate SentFor(w: World, c: nat, id: SpendId) {
    && c < |w.calls| && w.calls[c].task < |w.issued|
    && id in w.pool.records && w.pool.records[id].HasRetry()
    && w.issued[w.calls[c].task].sequence == w.pool.records[id].Retry().memoSequence
  }

  /**
  Ambiguity is sticky. While any transfer sent for a spend has neither been definitely refused to
  its owner nor been cleared by a reconciliation, the spend cannot be claimed; and if its executor
  is gone, normalization reports the outcome as unknown.
  */
  lemma AmbiguityIsSticky(env: Env, ws: seq<World>, es: seq<Event>, n: nat, id: SpendId, c: nat)
    requires env.SoundMac() && Run(env, ws, es) && n < |ws| && SentFor(ws[n], c, id)
    requires !ws[n].calls[c].refused && !ws[n].calls[c].cleared
    ensures Claim(ws[n].pool, id).1.Err?
    ensures ws[n].pool.records[id].status == PayoutSubmitting && id !in ws[n].pool.live ==>
              Normalize(ws[n].pool, id).1.Ok? && Normalize(ws[n].pool, id).1.value.status == PayoutUnknown
  {
    hide Run, Claim, Normalize, RecordsOk, StickyOk;
    ReachableInv(env, ws, es, n);
    DoubtBlocks(ws[n], id, c);
  }

  lemma DoubtBlocks(w: World, id: SpendId, c: nat)
    requires SentFor(w, c, id) && !w.calls[c].refused && !w.calls[c].cleared
    requires RecordsOk(w.pool.control, w.pins, w.pool.records) && StickyOk(w.pool.records, w.issued, w.calls)
    ensures Claim(w.pool, id).1.Err?
    ensures w.pool.records[id].status == PayoutSubmitting && id !in w.pool.live ==>
              Normalize(w.pool, id).1.Ok? && Normalize(w.pool, id).1.value.status == PayoutUnknown
  {
    assert RecordOk(w.pool.control, w.pins, id, w.pool.records[id]);
    assert StickyFor(w.pool.records[id], w.issued[w.calls[c].task], w.calls[c]);
  }

  /**
  The two marks that lift the doubt are earned: a call becomes refused only when its own still
  owning future takes in a definite rejection of it, and cleared only when an operator reverts
  that spend to pending.
  */
  lemma DoubtIsLiftedOnlyBy(env: Env, w: World, e: Event, c: nat)
    requires Enabled(env, w, e) && c < |w.calls|
    ensures c < |Step(env, w, e).calls|
    ensures Step(env, w, e).calls[c].refused && !w.calls[c].refused ==> RefusedBy(w, e, c)
    ensures Step(env, w, e).calls[c].cleared && !w.calls[c].cleared ==> RevertedBy(w, e)
  {
    hide ResumeStep, ReconcileStep, ClaimStep, AdmitStep, TerminalStep, LedgerStep, Normalize, ProvisionKey;
    hide Transfer, RefusedBy, RevertedBy;
    match e
    case Resume(t, wake) => ResumeMarks(env, w, t, wake, c);
    case Reconciled(id, outcome) => ReconcileMarks(w, id, outcome, c);
    case Claims(id, configured) => ClaimTouches(w, id, configured);
    case Admit(id, terms, split) => AdmitTouches(w, id, terms, split);
    case FinishWithoutPayout(id) => TerminalTouches(w, id, Terminal(w.pool, id, None).0);
    case LedgerHandles(k, cond) => LedgerTouches(env, w, k, cond);
    case _ =>
  }

  /** The future of call `c` itself, still owning its record, takes in a definite rejection. */
  ghost predicate RefusedBy(w: World, e: Event, c: nat) {
    && e.Resume? && e.wake.Replied? && e.task in w.tasks && e.task < |w.issued| && c < |w.calls|
    && w.tasks[e.task] == AwaitTransfer(c) && Owns(w.pool, w.issued[e.task])
    && w.calls[c].answer.Some? && DefiniteRefusal(w.calls[c].answer.value)
  }

  /** An operator asserts that nothing was executed, and the spend goes back to pending. */
  predicate RevertedBy(w: World, e: Event) {
    e.Reconciled? && e.outcome.NotExecuted? && Reconcile(w.pool, e.id, e.outcome).1 == Ok(RevertedToPending)
  }

  lemma ResumeMarks(env: Env, w: World, t: nat, wake: Wake, c: nat)
    requires Enabled(env, w, Resume(t, wake)) && c < |w.calls|
    ensures c < |ResumeStep(env, w, t, wake).calls|
    ensures ResumeStep(env, w, t, wake).calls[c].refused && !w.calls[c].refused ==> RefusedBy(w, Resume(t, wake), c)
    ensures ResumeStep(env, w, t, wake).calls[c].cleared ==> w.calls[c].cleared
  {
    hide Segment, NextTasks, NextPins;
  }

  lemma ReconcileMarks(w: World, id: SpendId, outcome: PayoutOutcome, c: nat)
    requires c < |w.calls|
    ensures c < |ReconcileStep(w, id, outcome).calls|
    ensures ReconcileStep(w, id, outcome).calls[c].refused ==> w.calls[c].refused
    ensures ReconcileStep(w, id, outcome).calls[c].cleared && !w.calls[c].cleared ==> RevertedBy(w, Reconciled(id, outcome))
  {
    hide Reconcile, TerminalStep;
    RevertsOnlyWhenToldSo(w.pool, id, outcome);
    TerminalTouches(w, id, Reconcile(w.pool, id, outcome).0);
  }

  lemma RevertsOnlyWhenToldSo(p: Pool, id: SpendId, outcome: PayoutOutcome)
    ensures Reconcile(p, id, outcome).1 == Ok(RevertedToPending) ==> outcome.NotExecuted?
  {
    hide Normalize, Terminal;
  }

  predicate InDoubt(p: Pool, id: SpendId) {
    id in p.records && p.records[id].HasRetry() && p.records[id].Retry().priorAmbiguity
  }

  /** The spend existed with retry data and without doubt before the step, and is in doubt after it. */
  ghost predicate DoubtArises(env: Env, w: World, e: Event, id: SpendId) {
    && Enabled(env, w, e) && id in w.pool.records && w.pool.records[id].HasRetry()
    && !InDoubt(w.pool, id) && InDoubt(Step(env, w, e).pool, id)
  }

  /** The owner's transfer came back without telling whether any copy of it was executed. */
  ghost predicate AnswerWasAmbiguous(w: World, t: nat, wake: Wake, id: SpendId)
    requires t in w.tasks && t < |w.issued| && Wakes(w, w.tasks[t], wake)
  {
    && w.issued[t].id == id && Owns(w.pool, w.issued[t]) && w.tasks[t].AwaitTransfer?
    && (wake.TransportFailed? || AmbiguousRefusal(w.calls[w.tasks[t].call].answer.value))
  }

  /** The record is submitting, may have been dispatched, and its executor is gone. */
  ghost predicate LostInDispatch(p: Pool, id: SpendId)
    requires id in p.records && p.records[id].HasRetry()
  {
    p.records[id].status == PayoutSubmitting && id !in p.live && p.records[id].Retry().phase == MayHaveDispatched
  }

  /**
  Doubt is never invented: it arises only from an unanswered or ambiguously refused transfer of the
  spend's own executor, or because that executor vanished after its dispatch boundary.
  */
  lemma DoubtHasACause(env: Env, w: World, e: Event, id: SpendId)
    requires DoubtArises(env, w, e, id)
    ensures
      || (e.Resume? && AnswerWasAmbiguous(w, e.task, e.wake, id))
      || ((e.Normalized? || e.Claims? || e.Reconciled?) && e.id == id && LostInDispatch(w.pool, id))
  {
    hide ResumeStep, Normalize, Claim, Reconcile, Terminal, Transfer;
    hide AdmitStep, LedgerStep, ProvisionKey, Upgrade, Drain, DropGuard, ClaimStep, ReconcileStep, TerminalStep;
    match e
    case Resume(t, wake) => ResumeDoubt(env, w, t, wake, id);
    case Normalized(k) => NormalizeDoubt(w.pool, k, id);
    case Claims(k, configured) =>
      ClaimTouches(w, k, configured);
      ClaimDoubt(w.pool, k, id);
    case Reconciled(k, outcome) =>
      ReconcileTouches(w, k, outcome);
      ReconcileDoubt(w.pool, k, outcome, id);
    case FinishWithoutPayout(k) =>
      TerminalTouches(w, k, Terminal(w.pool, k, None).0);
      TerminalDoubt(w.pool, k, None, id);
    case _ => OtherStepsRaiseNoDoubt(env, w, e, id);
  }

  lemma OtherStepsRaiseNoDoubt(env: Env, w: World, e: Event, id: SpendId)
    requires Enabled(env, w, e) && id in w.pool.records
    requires !(e.Resume? || e.Normalized? || e.Claims? || e.Reconciled? || e.FinishWithoutPayout?)
    ensures InDoubt(Step(env, w, e).pool, id) ==> InDoubt(w.pool, id)
  {
    hide Step, Enabled;
    if id !in Step(env, w, e).pool.records {
    } else if e.Promote? || e.Abandon? {
      PromotionRewrites(env, w, e, id);
    } else {
      OthersLeaveRecords(env, w, e, id);
    }
  }

  lemma NormalizeDoubt(p: Pool, k: SpendId, id: SpendId)
    requires id in p.records && p.records[id].HasRetry() && !InDoubt(p, id)
    ensures InDoubt(Normalize(p, k).0, id) ==> k == id && LostInDispatch(p, id)
    ensures Normalize(p, k).1.Ok? ==> k in Normalize(p, k).0.records && Normalize(p, k).0.records[k] == Normalize(p, k).1.value
  {
  }

  lemma ClaimDoubt(p: Pool, k: SpendId, id: SpendId)
    requires id in p.records && p.records[id].HasRetry() && !InDoubt(p, id)
    ensures InDoubt(Claim(p, k).0, id) ==> k == id && LostInDispatch(p, id)
  {
    hide Normalize;
    NormalizeDoubt(p, k, id);
  }

  lemma TerminalDoubt(p: Pool, k: SpendId, block: Option<nat>, id: SpendId)
    ensures InDoubt(Terminal(p, k, block).0, id) ==> InDoubt(p, id)
  {
  }

  lemma ReconcileDoubt(p: Pool, k: SpendId, outcome: PayoutOutcome, id: SpendId)
    requires id in p.records && p.records[id].HasRetry() && !InDoubt(p, id)
    ensures InDoubt(Reconcile(p, k, outcome).0, id) ==> k == id && LostInDispatch(p, id)
  {
    hide Normalize, Terminal;
    NormalizeDoubt(p, k, id);
    if outcome.Executed? {
      TerminalDoubt(Normalize(p, k).0, k, Some(outcome.block), id);
    }
  }

  lemma ResumeDoubt(env: Env, w: World, t: nat, wake: Wake, id: SpendId)
    requires Enabled(env, w, Resume(t, wake)) && id in w.pool.records && !InDoubt(w.pool, id)
    ensures InDoubt(ResumeStep(env, w, t, wake).pool, id) ==> AnswerWasAmbiguous(w, t, wake, id)
  {
    hide Segment;
    SegmentDoubt(env, w, t, wake, id);
  }

  /** What a failed attempt adds is the doubt it was told of, and only to its own record. */
  lemma FinishDoubt(p: Pool, a: Attempt, error: PoolError, ambiguous: bool, id: SpendId)
    ensures InDoubt(FinishError(p, a, error, ambiguous).0, id) ==> InDoubt(p, id) || (ambiguous && a.id == id && Owns(p, a))
  {
  }

  lemma DispatchDoubt(p: Pool, a: Attempt, id: SpendId)
    ensures InDoubt(Dispatch(p, a).0, id) ==> InDoubt(p, id)
  {
  }

  lemma SegmentDoubt(env: Env, w: World, t: nat, wake: Wake, id: SpendId)
    requires Enabled(env, w, Resume(t, wake)) && !InDoubt(w.pool, id)
    ensures InDoubt(Segment(env, w, w.issued[t], w.tasks[t], wake).0, id) ==> AnswerWasAmbiguous(w, t, wake, id)
  {
    hide FinishError, Dispatch, Terminal;
    var a := w.issued[t];
    DispatchDoubt(w.pool, a, id);
    match w.tasks[t]
    case AtStart(_) =>
    case AwaitBalance(_, required, _) =>
      FinishDoubt(w.pool, a, TransferFailed, false, id);
      if wake.balance.Some? {
        FinishDoubt(w.pool, a, EscrowUnderfunded(required, wake.balance.value), false, id);
      }
    case AwaitFee(ledger) => FeeDoubt(env, w.pool, a, ledger, wake.fee, wake.stamp, id);
    case AwaitTransfer(c) =>
      FinishDoubt(w.pool, a, TransferFailed, true, id);
      FinishDoubt(w.pool, a, TransferFailed, false, id);
      if wake.Replied? && Confirms(w.calls[c].answer.value) {
        TerminalDoubt(w.pool, a.id, Some(BlockOf(w.calls[c].answer.value)), id);
      }
  }

  lemma FeeDoubt(env: Env, p: Pool, a: Attempt, ledger: Principal, fee: Option<nat>, stamp: nat, id: SpendId)
    ensures InDoubt(AfterFee(env, p, a, ledger, fee, stamp).0, id) ==> InDoubt(p, id)
  {
    hide FinishError, Dispatch;
    if Owns(p, a) {
      var gross := p.records[a.id].payout.value.publicAmount;
      FinishDoubt(p, a, TransferFailed, false, id);
      FinishDoubt(p, a, PayoutMemoKeyNotReady, false, id);
      if fee.Some? {
        FinishDoubt(p, a, GrossAmountBelowFees(gross, fee.value), false, id);
        if fee.value < gross && p.control.key.Some? {
          DispatchDoubt(Put(p, a.id, Frozen(env, p.control.key.value, a, p.records[a.id], ledger, fee.value, stamp)), a, id);
        }
      }
    }
  }

  /**
  The other side of stickiness: a definite refusal taken in by the owner of a spend without earlier
  doubt releases it at once, and it can then be claimed again exactly while its generation is not exhausted.
  */
  lemma DefiniteRefusalReleases(env: Env, ws: seq<World>, es: seq<Event>, n: nat)
    requires env.SoundMac() && Run(env, ws, es) && n < |es|
    requires DefinitelyRefused(env, ws[n], es[n])
    ensures Released(ws[n + 1].pool, ws[n].issued[es[n].task].id)
  {
    hide Inv, Step, Enabled, Init, DefinitelyRefused, Released;
    RunStep(env, ws, es, n);
    ReachableInv(env, ws, es, n);
    ReachableInv(env, ws, es, n + 1);
    RefusalIsAWake(env, ws[n], es[n]);
    RefusedStep(env, ws[n], es[n], ws[n + 1], ws[n].issued[es[n].task]);
  }

  /** The owner of a spend without earlier doubt takes in a refusal that proves nothing was executed. */
  ghost predicate DefinitelyRefused(env: Env, w: World, e: Event) {
    && e.Resume? && Enabled(env, w, e) && w.tasks[e.task].AwaitTransfer? && e.wake.Replied?
    && Owns(w.pool, w.issued[e.task]) && !InDoubt(w.pool, w.issued[e.task].id)
    && DefiniteRefusal(w.calls[w.tasks[e.task].call].answer.value)
  }

  /** Pending, with its frozen request and without executor: claimable unless the generation is exhausted. */
  predicate Released(p: Pool, id: SpendId) {
    && id in p.records && p.records[id].status == PayoutPending && id !in p.live
    && p.records[id].HasRetry() && p.records[id].Retry().frozen.Some?
    && (Claim(p, id).1.Ok? <==> p.records[id].Retry().generation < U64_MAX)
  }

  lemma RefusalIsAWake(env: Env, w: World, e: Event)
    requires DefinitelyRefused(env, w, e)
    ensures e.Resume? && e.task < |w.issued|
  {
    hide Owns, InDoubt;
  }

  lemma RefusedStep(env: Env, w: World, e: Event, next: World, a: Attempt)
    requires DefinitelyRefused(env, w, e) && next == Step(env, w, e) && a == w.issued[e.task]
    requires Inv(env, w) && Inv(env, next)
    ensures Released(next.pool, a.id)
  {
    hide RecordsOk, SequencesDistinct, LiveOk, LiveHasTask, IssuedOk, TasksOk, PinsOk, CallsOk, StickyOk;
    hide LedgersOk, AnswersOk, SettledOk, BirthsOk, FeesOk;
    hide Claim, Step, Normalize, ValidateRetry;
    OwnerFacts(w, e.task);
    FailShape(env, w, e.task, e.wake, TransferFailed, false);
    StepOfResume(env, w, e.task, e.wake);
    SlotFreed(w.pool, a, next.pool);
    ClaimableAgain(next.pool, next.pins, a.id);
  }

  lemma SlotFreed(p: Pool, a: Attempt, p': Pool)
    requires LiveOk(p.records, p.live) && Owns(p, a) && p'.live == p.live - {a.id}
    ensures |p'.live| < MAX_LIVE_PAYOUT_ATTEMPTS
  {
    assert p.live.Keys == p'.live.Keys + {a.id};
    assert |p.live.Keys| == |p'.live.Keys| + 1;
    assert |p.live| == |p.live.Keys| && |p'.live| == |p'.live.Keys|;
  }

  lemma ClaimableAgain(p: Pool, pins: map<nat, Pin>, id: SpendId)
    requires id in p.records && p.records[id].HasRetry() && p.records[id].status == PayoutPending
    requires id !in p.live && |p.live| < MAX_LIVE_PAYOUT_ATTEMPTS && RecordsOk(p.control, pins, p.records)
    ensures Claim(p, id).1.Ok? <==> p.records[id].Retry().generation < U64_MAX
  {
    assert RecordOk(p.control, pins, id, p.records[id]);
  }
}
