/**
Whole runs of the payout world: the invariant holds in every reachable state.
*/
module PayoutRuns {
  import opened Wrappers
  import opened ByteStrings
  import opened TokenLedger
  import opened PayoutTypes
  import opened PayoutSegments
  import opened PayoutWorld
  import opened PayoutInvariant
  import opened PayoutPreserved
  import opened PayoutSteps
  import opened PayoutResume

  // ---------- the segments of one future ----------

  /** A future that no longer owns its record changes nothing and leaves. */
  lemma StaleChangesNothing(env: Env, w: World, t: nat, wake: Wake)
    requires Enabled(env, w, Resume(t, wake)) && !Owns(w.pool, w.issued[t])
    requires RecordsOk(w.pool.control, w.pins, w.pool.records)
    ensures ResumeStep(env, w, t, wake) == Dropped(w, t)
  {
    hide Segment, Owns, NextPins, RecordsOk;
    StaleSegment(env, w, t, wake);
    NothingToPin(w, w.issued[t]);
    assert w.accruals + [] == w.accruals;
  }

  /** A record's frozen request is pinned already. */
  lemma NothingToPin(w: World, a: Attempt)
    requires RecordsOk(w.pool.control, w.pins, w.pool.records)
    ensures NextPins(w.pins, w.pool, a) == w.pins
  {
    if a.id in w.pool.records {
      assert RecordOk(w.pool.control, w.pins, a.id, w.pool.records[a.id]);
    }
  }

  lemma StaleSegment(env: Env, w: World, t: nat, wake: Wake)
    requires Enabled(env, w, Resume(t, wake)) && !Owns(w.pool, w.issued[t])
    ensures
      var (p, progress) := Segment(env, w, w.issued[t], w.tasks[t], wake);
      p == w.pool && progress.Finished? && progress.result.Err?
  {
    hide Owned, Owns, Dispatch, FinishError, Terminal, ValidateRetry;
    NotOwned(w.pool, w.issued[t]);
  }

  lemma NotOwned(p: Pool, a: Attempt)
    requires !Owns(p, a)
    ensures Owned(p, a).Err?
  {
  }

  /** The owner's record together with what its suspended future may rely on. */
  lemma OwnerFacts(w: World, t: nat)
    requires t in w.tasks && t < |w.issued| && Owns(w.pool, w.issued[t])
    requires RecordsOk(w.pool.control, w.pins, w.pool.records)
    requires TasksOk(w.pool.records, w.pool.live, w.issued, w.tasks, w.calls)
    requires CallsOk(w.issued, w.calls, w.pins)
    ensures
      var rec := w.pool.records[w.issued[t].id];
      && RecordOk(w.pool.control, w.pins, w.issued[t].id, rec)
      && Expects(rec, w.tasks[t])
      && (if w.tasks[t].AwaitTransfer?
          then w.tasks[t].call < |w.calls| && w.calls[w.tasks[t].call].task == t
               && (forall c :: 0 <= c < |w.calls| && c != w.tasks[t].call ==> w.calls[c].task != t)
          else Unsent(w.calls, t))
  {
    assert TaskOk(w.pool.records, w.pool.live, w.issued[t], t, w.tasks[t], w.calls);
    assert RecordOk(w.pool.control, w.pins, w.issued[t].id, w.pool.records[w.issued[t].id]);
  }

  /** The request of a record already frozen is the pinned one, so sending it again pins nothing. */
  lemma ResendKeeps(env: Env, w: World, t: nat, next: World)
    requires t in w.tasks && t < |w.issued| && Owns(w.pool, w.issued[t])
    requires !w.tasks[t].AwaitTransfer? && w.pool.records[w.issued[t].id].Retry().frozen.Some?
    requires next == Sent(w, t, Dispatched(w.pool.records[w.issued[t].id]), w.pins)
    requires Inv(env, w)
    ensures Inv(env, next)
  {
    hide RecordsOk, SequencesDistinct, LiveOk, LiveHasTask, IssuedOk, TasksOk, PinsOk, CallsOk, StickyOk;
    hide LedgersOk, AnswersOk, SettledOk, BirthsOk;
    OwnerFacts(w, t);
    SendKeeps(env, w, t, Dispatched(w.pool.records[w.issued[t].id]), w.pins);
  }

  /** The pins once the first frozen request of token `a`'s ordinal is recorded. */
  function Pinned(pins: map<nat, Pin>, a: Attempt, rec: PendingSpend): map<nat, Pin>
    requires rec.HasRetry() && rec.Retry().frozen.Some?
  {
    pins[a.sequence := Pin(a.id, rec.Retry().frozen.value, rec.payout.value.publicAmount)]
  }

  /** The first freeze pins the request and sends it in the same segment. */
  lemma FirstSendKeeps(env: Env, w: World, t: nat, ledger: Principal, fee: nat, stamp: nat, rec: PendingSpend, next: World)
    requires env.SoundMac()
    requires t in w.tasks && t < |w.issued| && Owns(w.pool, w.issued[t])
    requires !w.tasks[t].AwaitTransfer? && w.pool.records[w.issued[t].id].Retry().frozen.None?
    requires w.pool.control.key.Some? && fee < w.pool.records[w.issued[t].id].payout.value.publicAmount
    requires rec == Frozen(env, w.pool.control.key.value, w.issued[t], w.pool.records[w.issued[t].id], ledger, fee, stamp)
    requires next == Sent(w, t, Dispatched(rec), Pinned(w.pins, w.issued[t], rec))
    requires Inv(env, w)
    ensures Inv(env, next)
  {
    hide RecordsOk, SequencesDistinct, LiveOk, LiveHasTask, IssuedOk, TasksOk, PinsOk, CallsOk, StickyOk;
    hide LedgersOk, AnswersOk, SettledOk, BirthsOk, FeesOk;
    hide Env.SoundMac, RecordOk, PinOk;
    var a := w.issued[t];
    OwnerFacts(w, t);
    FrozenOk(env, w.pool.control, w.pins, a, w.pool.records[a.id], ledger, fee, stamp);
    PinAdded(env, w.pool.control, w.pins, a.sequence, Pinned(w.pins, a, rec)[a.sequence]);
    SendKeeps(env, w, t, Dispatched(rec), Pinned(w.pins, a, rec));
  }

  lemma PinAdded(env: Env, c: Control, pins: map<nat, Pin>, s: nat, pin: Pin)
    requires PinsOk(env, c, pins) && PinOk(env, c, s, pin)
    ensures PinsOk(env, c, pins[s := pin])
  {
    hide PinOk;
  }

  lemma FrozenOk(env: Env, c: Control, pins: map<nat, Pin>, a: Attempt, before: PendingSpend, ledger: Principal, fee: nat, stamp: nat)
    requires env.SoundMac() && c.key.Some?
    requires RecordOk(c, pins, a.id, before) && before.HasRetry() && before.Retry().memoSequence == a.sequence
    requires before.status == PayoutSubmitting && before.Retry().frozen.None? && fee < before.payout.value.publicAmount
    ensures
      var rec := Frozen(env, c.key.value, a, before, ledger, fee, stamp);
      var pin := Pin(a.id, rec.Retry().frozen.value, rec.payout.value.publicAmount);
      && a.sequence !in pins && RecordOk(c, pins[a.sequence := pin], a.id, Dispatched(rec))
      && PinOk(env, c, a.sequence, pin)
  {
  }

  /** A future woken with a reply that its ledger confirms was really paid for. */
  lemma ConfirmedWasPaid(env: Env, w: World, t: nat)
    requires t in w.tasks && t < |w.issued| && Owns(w.pool, w.issued[t])
    requires w.tasks[t].AwaitTransfer? && w.tasks[t].call < |w.calls| && w.calls[w.tasks[t].call].answer.Some?
    requires Confirms(w.calls[w.tasks[t].call].answer.value)
    requires Inv(env, w)
    ensures w.issued[t].sequence in w.pins
    ensures PaidBy(env, w.ledgers, w.pins[w.issued[t].sequence], BlockOf(w.calls[w.tasks[t].call].answer.value))
  {
    var call := w.calls[w.tasks[t].call];
    OwnerFacts(w, t);
    assert CallOk(w.issued, call, w.pins) && AnswerOk(env, w.ledgers, call);
  }

  // ---------- what a wake-up amounts to ----------

  /** A wake-up of a future that still owns a well-formed record. */
  ghost predicate OwnedWake(env: Env, w: World, t: nat, wake: Wake) {
    && Enabled(env, w, Resume(t, wake)) && Owns(w.pool, w.issued[t])
    && RecordOk(w.pool.control, w.pins, w.issued[t].id, w.pool.records[w.issued[t].id])
  }

  lemma AskShape(env: Env, w: World, t: nat, wake: Wake)
    requires OwnedWake(env, w, t, wake)
    requires
      var (p, progress) := Segment(env, w, w.issued[t], w.tasks[t], wake);
      p == w.pool && (progress.AskBalance? || progress.AskFee?)
    ensures
      var progress := Segment(env, w, w.issued[t], w.tasks[t], wake).1;
      ResumeStep(env, w, t, wake) == w.(tasks := NextTasks(w, t, progress))
  {
    assert w.accruals + [] == w.accruals;
  }

  lemma FailShape(env: Env, w: World, t: nat, wake: Wake, error: PoolError, ambiguous: bool)
    requires OwnedWake(env, w, t, wake)
    requires Segment(env, w, w.issued[t], w.tasks[t], wake) == FinishError(w.pool, w.issued[t], error, ambiguous)
    ensures
      var a := w.issued[t];
      ResumeStep(env, w, t, wake) ==
      w.(pool := DropGuard(Put(w.pool, a.id, FailedAttempt(w.pool.records[a.id], ambiguous)), a),
         tasks := w.tasks - {t}, calls := NextCalls(w, t, a, wake, Finished(Err(error))))
  {
    assert w.accruals + [] == w.accruals;
  }

  lemma ResendShape(env: Env, w: World, t: nat, wake: Wake)
    requires OwnedWake(env, w, t, wake)
    requires w.pool.records[w.issued[t].id].Retry().frozen.Some?
    requires Segment(env, w, w.issued[t], w.tasks[t], wake) == Dispatch(w.pool, w.issued[t])
    ensures ResumeStep(env, w, t, wake) == Sent(w, t, Dispatched(w.pool.records[w.issued[t].id]), w.pins)
  {
    assert w.accruals + [] == w.accruals;
  }

  lemma FirstSendShape(env: Env, w: World, t: nat, wake: Wake)
    requires OwnedWake(env, w, t, wake) && w.tasks[t].AwaitFee? && wake.FeeIs? && wake.fee.Some?
    requires w.pool.records[w.issued[t].id].Retry().frozen.None?
    requires w.pool.control.key.Some? && wake.fee.value < w.pool.records[w.issued[t].id].payout.value.publicAmount
    ensures
      var a := w.issued[t];
      var rec := Frozen(env, w.pool.control.key.value, a, w.pool.records[a.id], w.tasks[t].feeLedger, wake.fee.value, wake.stamp);
      ResumeStep(env, w, t, wake) == Sent(w, t, Dispatched(rec), Pinned(w.pins, a, rec))
  {
    var a := w.issued[t];
    var rec := Frozen(env, w.pool.control.key.value, a, w.pool.records[a.id], w.tasks[t].feeLedger, wake.fee.value, wake.stamp);
    assert w.accruals + [] == w.accruals;
    assert w.pool.records[a.id := rec][a.id := Dispatched(rec)] == w.pool.records[a.id := Dispatched(rec)];
  }

  lemma EndShape(env: Env, w: World, t: nat, wake: Wake)
    requires OwnedWake(env, w, t, wake) && w.tasks[t].AwaitTransfer? && wake.Replied?
    requires Confirms(w.calls[w.tasks[t].call].answer.value)
    ensures
      var a := w.issued[t];
      var block := BlockOf(w.calls[w.tasks[t].call].answer.value);
      ResumeStep(env, w, t, wake) ==
      TerminalStep(w, a.id, DropGuard(Terminal(w.pool, a.id, Some(block)).0, a))
      .(tasks := w.tasks - {t}, settled := w.settled[a.sequence := block])
  {
  }

  lemma ResumeStartKeeps(env: Env, w: World, t: nat, wake: Wake)
    requires Enabled(env, w, Resume(t, wake)) && Owns(w.pool, w.issued[t]) && w.tasks[t].AtStart?
    requires Inv(env, w)
    ensures Inv(env, ResumeStep(env, w, t, wake))
  {
    hide RecordsOk, SequencesDistinct, LiveOk, LiveHasTask, IssuedOk, TasksOk, PinsOk, CallsOk, StickyOk;
    hide LedgersOk, AnswersOk, SettledOk, BirthsOk;
    hide ResumeStep;
    var progress := Segment(env, w, w.issued[t], w.tasks[t], wake).1;
    OwnerFacts(w, t);
    if progress.AskBalance? {
      AskShape(env, w, t, wake);
      AskKeeps(env, w, t, AwaitBalance(progress.ledger, progress.required, progress.frozenKnown));
    } else {
      ResendShape(env, w, t, wake);
      ResendKeeps(env, w, t, ResumeStep(env, w, t, wake));
    }
  }

  lemma ResumeBalanceKeeps(env: Env, w: World, t: nat, wake: Wake)
    requires Enabled(env, w, Resume(t, wake)) && Owns(w.pool, w.issued[t]) && w.tasks[t].AwaitBalance?
    requires Inv(env, w)
    ensures Inv(env, ResumeStep(env, w, t, wake))
  {
    hide RecordsOk, SequencesDistinct, LiveOk, LiveHasTask, IssuedOk, TasksOk, PinsOk, CallsOk, StickyOk;
    hide LedgersOk, AnswersOk, SettledOk, BirthsOk;
    hide ResumeStep;
    var progress := Segment(env, w, w.issued[t], w.tasks[t], wake).1;
    OwnerFacts(w, t);
    if progress.Finished? {
      FailShape(env, w, t, wake, progress.result.error, false);
      FailKeeps(env, w, t, w.calls, false);
    } else if progress.AskFee? {
      AskShape(env, w, t, wake);
      AskKeeps(env, w, t, AwaitFee(progress.feeLedger));
    } else {
      ResendShape(env, w, t, wake);
      ResendKeeps(env, w, t, ResumeStep(env, w, t, wake));
    }
  }

  lemma ResumeFeeKeeps(env: Env, w: World, t: nat, wake: Wake)
    requires env.SoundMac()
    requires Enabled(env, w, Resume(t, wake)) && Owns(w.pool, w.issued[t]) && w.tasks[t].AwaitFee?
    requires Inv(env, w)
    ensures Inv(env, ResumeStep(env, w, t, wake))
  {
    hide RecordsOk, SequencesDistinct, LiveOk, LiveHasTask, IssuedOk, TasksOk, PinsOk, CallsOk, StickyOk;
    hide LedgersOk, AnswersOk, SettledOk, BirthsOk;
    hide ResumeStep;
    var progress := Segment(env, w, w.issued[t], w.tasks[t], wake).1;
    OwnerFacts(w, t);
    if progress.Finished? {
      FailShape(env, w, t, wake, progress.result.error, false);
      FailKeeps(env, w, t, w.calls, false);
    } else {
      FirstSendShape(env, w, t, wake);
      var a := w.issued[t];
      var rec := Frozen(env, w.pool.control.key.value, a, w.pool.records[a.id], w.tasks[t].feeLedger, wake.fee.value, wake.stamp);
      FirstSendKeeps(env, w, t, w.tasks[t].feeLedger, wake.fee.value, wake.stamp, rec, ResumeStep(env, w, t, wake));
    }
  }

  lemma ResumeTransferKeeps(env: Env, w: World, t: nat, wake: Wake)
    requires Enabled(env, w, Resume(t, wake)) && Owns(w.pool, w.issued[t]) && w.tasks[t].AwaitTransfer?
    requires Inv(env, w)
    ensures Inv(env, ResumeStep(env, w, t, wake))
  {
    hide RecordsOk, SequencesDistinct, LiveOk, LiveHasTask, IssuedOk, TasksOk, PinsOk, CallsOk, StickyOk;
    hide LedgersOk, AnswersOk, SettledOk, BirthsOk;
    hide ResumeStep;
    var c := w.tasks[t].call;
    OwnerFacts(w, t);
    if wake.TransportFailed? {
      FailShape(env, w, t, wake, TransferFailed, true);
      FailKeeps(env, w, t, w.calls, true);
    } else if Confirms(w.calls[c].answer.value) {
      ConfirmedWasPaid(env, w, t);
      EndShape(env, w, t, wake);
      EndKeeps(env, w, t, BlockOf(w.calls[c].answer.value));
    } else {
      var ambiguous := AmbiguousRefusal(w.calls[c].answer.value);
      FailShape(env, w, t, wake, TransferFailed, ambiguous);
      FailKeeps(env, w, t, NextCalls(w, t, w.issued[t], wake, Finished(Err(TransferFailed))), ambiguous);
    }
  }

  lemma ResumeKeeps(env: Env, w: World, t: nat, wake: Wake)
    requires env.SoundMac() && Enabled(env, w, Resume(t, wake))
    requires Inv(env, w)
    ensures Inv(env, ResumeStep(env, w, t, wake))
  {
    hide RecordsOk, SequencesDistinct, LiveOk, LiveHasTask, IssuedOk, TasksOk, PinsOk, CallsOk, StickyOk;
    hide LedgersOk, AnswersOk, SettledOk, BirthsOk;
    if !Owns(w.pool, w.issued[t]) {
      StaleChangesNothing(env, w, t, wake);
      DropKeeps(env, w, t);
    } else {
      match w.tasks[t]
      case AtStart(_) => ResumeStartKeeps(env, w, t, wake);
      case AwaitBalance(_, _, _) => ResumeBalanceKeeps(env, w, t, wake);
      case AwaitFee(_) => ResumeFeeKeeps(env, w, t, wake);
      case AwaitTransfer(_) => ResumeTransferKeeps(env, w, t, wake);
    }
  }

  // ---------- what a step leaves alone ----------

  lemma TerminalTouches(w: World, id: SpendId, p: Pool)
    ensures
      var next := TerminalStep(w, id, p);
      next.ledgers == w.ledgers && next.calls == w.calls && next.pins == w.pins && next.pool == p
  {
  }

  lemma ClaimTouches(w: World, id: SpendId, configured: Principal)
    ensures
      var next := ClaimStep(w, id, configured);
      && next.ledgers == w.ledgers && next.calls == w.calls && next.pins == w.pins
      && next.pool == Claim(w.pool, id).0
  {
    hide Claim;
  }

  lemma AdmitTouches(w: World, id: SpendId, terms: Option<PayoutTerms>, split: Option<FeeSplit>)
    ensures
      var next := AdmitStep(w, id, terms, split);
      next.ledgers == w.ledgers && next.calls == w.calls && next.pins == w.pins
  {
  }

  lemma ReconcileTouches(w: World, id: SpendId, outcome: PayoutOutcome)
    ensures
      var next := ReconcileStep(w, id, outcome);
      && next.ledgers == w.ledgers && next.pins == w.pins && next.pool == Reconcile(w.pool, id, outcome).0
      && (Reconcile(w.pool, id, outcome).1 != Ok(RevertedToPending) ==> next.calls == w.calls)
  {
    hide Reconcile, ClearCalls, TerminalStep;
    TerminalTouches(w, id, Reconcile(w.pool, id, outcome).0);
  }

  lemma ResumeTouches(env: Env, w: World, t: nat, wake: Wake)
    requires t in w.tasks && t < |w.issued| && Wakes(w, w.tasks[t], wake)
    ensures
      var next := ResumeStep(env, w, t, wake);
      var (p, progress) := Segment(env, w, w.issued[t], w.tasks[t], wake);
      && next.ledgers == w.ledgers && next.pool == Leave(p, w.issued[t], progress)
      && forall s :: s in w.pins ==> s in next.pins && next.pins[s] == w.pins[s]
  {
    hide Segment, NextTasks, NextCalls, TerminalStep;
    var (p, progress) := Segment(env, w, w.issued[t], w.tasks[t], wake);
    TerminalTouches(w, w.issued[t].id, Leave(p, w.issued[t], progress));
  }

  lemma LedgerTouches(env: Env, w: World, c: nat, cond: Conditions)
    requires c < |w.calls| && w.calls[c].request.ledger in w.ledgers
    ensures
      var next := LedgerStep(env, w, c, cond);
      && next.pins == w.pins && next.pool == w.pool && |next.calls| == |w.calls|
      && forall d :: 0 <= d < |w.calls| ==>
           next.calls[d].refused == w.calls[d].refused && next.calls[d].cleared == w.calls[d].cleared
  {
    hide Transfer;
  }

  // ---------- every step, every reachable state ----------

  lemma StepKeepsInv(env: Env, w: World, e: Event)
    requires env.SoundMac() && Enabled(env, w, e)
    requires Inv(env, w)
    ensures Inv(env, Step(env, w, e))
  {
    hide Inv, Env.SoundMac, Transfer, AdmitStep, ClaimStep, ReconcileStep, ResumeStep, LedgerStep, TerminalStep, Normalize;
    match e
    case Admit(id, terms, split) => AdmitKeeps(env, w, id, terms, split);
    case Promote(id) => PromoteKeeps(env, w, id, PayoutPending);
    case FinishWithoutPayout(id) => FinishWithoutPayoutKeeps(env, w, id);
    case Abandon(id) => PromoteKeeps(env, w, id, Failed);
    case Forget(id) => ForgetKeeps(env, w, id, Step(env, w, e));
    case Provision(boot, beacon) => ProvisionKeeps(env, w, boot, beacon);
    case Upgraded => UpgradeKeeps(env, w);
    case Normalized(id) => NormalizeKeeps(env, w, id);
    case Claims(id, configured) => ClaimKeeps(env, w, id, configured);
    case Resume(t, wake) => ResumeKeeps(env, w, t, wake);
    case LoseGuard(t) => DropKeeps(env, w, t);
    case Reconciled(id, outcome) => ReconcileKeeps(env, w, id, outcome);
    case FlushFees => FlushKeeps(env, w, Step(env, w, e));
    case LedgerHandles(c, cond) => LedgerKeeps(env, w, c, cond, Step(env, w, e));
    case LedgerServesOther(l, caller, args, cond) => OtherTrafficKeeps(env, w, l, caller, args, cond, Step(env, w, e));
  }

  lemma ProvisionKeeps(env: Env, w: World, boot: nat, beacon: Option<Bytes>)
    requires Inv(env, w)
    ensures Inv(env, w.(pool := ProvisionKey(w.pool, boot, beacon).0))
  {
    hide RecordsOk, SequencesDistinct, LiveOk, LiveHasTask, IssuedOk, TasksOk, PinsOk, CallsOk, StickyOk;
    hide LedgersOk, AnswersOk, SettledOk, BirthsOk, FeesOk;
    ControlKeeps(env, w, ProvisionKey(w.pool, boot, beacon).0.control);
  }

  lemma UpgradeKeeps(env: Env, w: World)
    requires Upgrade(w.pool).Some?
    requires Inv(env, w)
    ensures Inv(env, w.(pool := Upgrade(w.pool).value))
  {
    hide RecordsOk, SequencesDistinct, LiveOk, LiveHasTask, IssuedOk, TasksOk, PinsOk, CallsOk, StickyOk;
    hide LedgersOk, AnswersOk, SettledOk, BirthsOk, FeesOk;
    ControlKeeps(env, w, Upgrade(w.pool).value.control);
    NoExecutorsKeep(env, w.(pool := w.pool.(control := Upgrade(w.pool).value.control)));
  }

  /** A spend leaves its pre-payout life: promoted with a payout outstanding, or abandoned. */
  lemma PromoteKeeps(env: Env, w: World, id: SpendId, status: SpendStatus)
    requires id in w.pool.records && w.pool.records[id].status == PrePayout
    requires status == PayoutPending || status == Failed
    requires Inv(env, w)
    ensures Inv(env, w.(pool := Put(w.pool, id, w.pool.records[id].(status := status))))
  {
    hide SequencesDistinct, LiveHasTask, IssuedOk, TasksOk, PinsOk, CallsOk, LedgersOk, AnswersOk, SettledOk;
    hide BirthsOk;
    var rec := w.pool.records[id];
    assert RecordOk(w.pool.control, w.pins, id, rec);
    forall c | 0 <= c < |w.calls| && w.calls[c].task < |w.issued|
      ensures StickyFor(rec.(status := status), w.issued[w.calls[c].task], w.calls[c])
    {
      assert StickyFor(rec, w.issued[w.calls[c].task], w.calls[c]);
    }
    RewriteKeeps(env, w, id, rec.(status := status));
  }

  lemma FinishWithoutPayoutKeeps(env: Env, w: World, id: SpendId)
    requires id in w.pool.records && w.pool.records[id].status == PrePayout && w.pool.records[id].payout.None?
    requires Inv(env, w)
    ensures Inv(env, TerminalStep(w, id, Terminal(w.pool, id, None).0))
  {
    hide RecordsOk, SequencesDistinct, LiveOk, LiveHasTask, IssuedOk, TasksOk, PinsOk, CallsOk, StickyOk;
    hide LedgersOk, AnswersOk, SettledOk, BirthsOk, FeesOk;
    hide TerminalStep, Terminal;
    NotExecuting(w.pool.records, w.pool.live, id);
    FinalizeKeeps(env, w, id, None);
  }

  /** One step of a run, without the rest of it. */
  lemma RunStep(env: Env, ws: seq<World>, es: seq<Event>, k: nat)
    requires Run(env, ws, es) && k < |es|
    ensures k + 1 < |ws| && Enabled(env, ws[k], es[k]) && ws[k + 1] == Step(env, ws[k], es[k])
  {
    hide Init, Step, Enabled;
  }

  lemma {:induction false} ReachableInv(env: Env, ws: seq<World>, es: seq<Event>, i: nat)
    requires env.SoundMac() && Run(env, ws, es) && i < |ws|
    ensures Inv(env, ws[i])
  {
    hide Inv, Init, Step, Enabled, Env.SoundMac;
    if i == 0 {
      InitHasInv(env, ws[0]);
    } else {
      ReachableInv(env, ws, es, i - 1);
      RunStep(env, ws, es, i - 1);
      StepKeepsInv(env, ws[i - 1], es[i - 1]);
    }
  }
}
