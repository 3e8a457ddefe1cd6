/**
Requests that outlived the ledger's deduplication window unexecuted: no ledger will ever execute
them again, so from then on only an operator's assertion can finalize the spend.
*/
module PayoutExpiry {
  import opened Wrappers
  import opened ByteStrings
  import opened TokenLedger
  import opened PayoutTypes
  import opened PayoutSegments
  import opened PayoutWorld
  import opened PayoutInvariant
  import opened PayoutRuns
  import opened PayoutTheorems

  ghost predicate NeverExecuted(l: Ledger, key: TransferKey) {
    forall i :: 0 <= i < |l.blocks| ==> l.blocks[i].key != key
  }

  /** The identity under which the pinned request of ordinal `s` executes. */
  function PinnedKey(env: Env, w: World, s: nat): TransferKey
    requires s in w.pins
  {
    KeyOf(env.self, w.pins[s].request.Args())
  }

  /** The pinned request was not executed while its ledger could still accept it. */
  ghost predicate ExpiredUnpaid(env: Env, w: World, s: nat) {
    && s in w.pins && w.pins[s].request.ledger in w.ledgers
    && Expired(PinnedKey(env, w, s), w.ledgers[w.pins[s].request.ledger].now)
    && NeverExecuted(w.ledgers[w.pins[s].request.ledger], PinnedKey(env, w, s))
  }

  /** An expired identity is refused by every later call, whoever presents it. */
  lemma TransferOfExpired(l: Ledger, c: Conditions, caller: Principal, args: TransferArgs, key: TransferKey)
    requires l.now <= c.now && Expired(key, l.now) && NeverExecuted(l, key)
    ensures
      var l' := Transfer(l, c, caller, args).0;
      Expired(key, l'.now) && NeverExecuted(l', key)
  {
  }

  lemma ExpiredStays(env: Env, w: World, e: Event, s: nat)
    requires Enabled(env, w, e) && ExpiredUnpaid(env, w, s)
    ensures ExpiredUnpaid(env, Step(env, w, e), s)
  {
    hide Step, Transfer, NeverExecuted;
    StepKeepsPins(env, w, e);
    LedgersAfter(env, w, e);
    match e
    case LedgerHandles(c, cond) => CallOfExpired(env, w, w.calls[c].request.ledger, cond, env.self, w.calls[c].request.Args(), s, Step(env, w, e));
    case LedgerServesOther(l, caller, args, cond) => CallOfExpired(env, w, l, cond, caller, args, s, Step(env, w, e));
    case _ => SameLedgers(env, w, s, Step(env, w, e));
  }

  /** The ledgers move only when one of them serves a call. */
  lemma LedgersAfter(env: Env, w: World, e: Event)
    requires Enabled(env, w, e)
    ensures
      Step(env, w, e).ledgers ==
      match e
      case LedgerHandles(c, cond) =>
        var l := w.calls[c].request.ledger;
        w.ledgers[l := Transfer(w.ledgers[l], cond, env.self, w.calls[c].request.Args()).0]
      case LedgerServesOther(l, caller, args, cond) => w.ledgers[l := Transfer(w.ledgers[l], cond, caller, args).0]
      case _ => w.ledgers
  {
    hide Transfer, ResumeStep, ReconcileStep, ClaimStep, AdmitStep, TerminalStep, Normalize, ProvisionKey;
    match e
    case Resume(t, wake) => ResumeTouches(env, w, t, wake);
    case Reconciled(id, outcome) => ReconcileTouches(w, id, outcome);
    case Claims(id, configured) => ClaimTouches(w, id, configured);
    case Admit(id, terms, split) => AdmitTouches(w, id, terms, split);
    case FinishWithoutPayout(id) => TerminalTouches(w, id, Terminal(w.pool, id, None).0);
    case _ =>
  }

  lemma CallOfExpired(env: Env, w: World, l: Principal, cond: Conditions, caller: Principal, args: TransferArgs, s: nat, next: World)
    requires ExpiredUnpaid(env, w, s) && l in w.ledgers && w.ledgers[l].now <= cond.now
    requires s in next.pins && next.pins[s] == w.pins[s]
    requires next.ledgers == w.ledgers[l := Transfer(w.ledgers[l], cond, caller, args).0]
    ensures ExpiredUnpaid(env, next, s)
  {
    hide Transfer;
    if l == w.pins[s].request.ledger {
      TransferOfExpired(w.ledgers[l], cond, caller, args, PinnedKey(env, w, s));
    }
  }

  lemma SameLedgers(env: Env, w: World, s: nat, next: World)
    requires ExpiredUnpaid(env, w, s) && next.ledgers == w.ledgers
    requires s in next.pins && next.pins[s] == w.pins[s]
    ensures ExpiredUnpaid(env, next, s)
  {
  }

  lemma {:induction false} ExpiredForever(env: Env, ws: seq<World>, es: seq<Event>, i: nat, j: nat, s: nat)
    requires Run(env, ws, es) && i <= j < |ws| && ExpiredUnpaid(env, ws[i], s)
    ensures ExpiredUnpaid(env, ws[j], s)
    decreases j
  {
    hide Init, Step, Enabled, ExpiredUnpaid;
    if i < j {
      ExpiredForever(env, ws, es, i, j - 1, s);
      RunStep(env, ws, es, j - 1);
      ExpiredStays(env, ws[j - 1], es[j - 1], s);
    }
  }

  /** Once expired unpaid, a spend is never debited on its ledger and never settled by a reply. */
  lemma ExpiredNeverPays(env: Env, ws: seq<World>, es: seq<Event>, i: nat, j: nat, s: nat)
    requires env.SoundMac() && Run(env, ws, es) && i <= j < |ws| && ExpiredUnpaid(env, ws[i], s)
    ensures s in ws[j].pins && ws[j].pins[s].request.ledger in ws[j].ledgers && ws[j].pool.control.key.Some?
    ensures
      var pin := ws[j].pins[s];
      && Debited(ws[j].ledgers[pin.request.ledger].blocks, env.self,
                 env.Memo(ws[j].pool.control.key.value, pin.request.ledger, pin.id, s)) == 0
      && s !in ws[j].settled
  {
    hide Run, NeverExecuted, Inv;
    ExpiredForever(env, ws, es, i, j, s);
    ReachableInv(env, ws, es, j);
    NothingDebited(env, ws[j], s);
  }

  lemma NothingDebited(env: Env, w: World, s: nat)
    requires env.SoundMac() && ExpiredUnpaid(env, w, s) && Inv(env, w)
    ensures w.pool.control.key.Some?
    ensures
      var pin := w.pins[s];
      && Debited(w.ledgers[pin.request.ledger].blocks, env.self,
                 env.Memo(w.pool.control.key.value, pin.request.ledger, pin.id, s)) == 0
      && s !in w.settled
  {
    hide RecordsOk, SequencesDistinct, LiveOk, LiveHasTask, IssuedOk, TasksOk, CallsOk, StickyOk, LedgersOk, AnswersOk, BirthsOk, FeesOk;
    assert PinOk(env, w.pool.control, s, w.pins[s]);
    var l, id := w.pins[s].request.ledger, w.pins[s].id;
    var memo := env.Memo(w.pool.control.key.value, l, id, s);
    var blocks := w.ledgers[l].blocks;
    forall k | 0 <= k < |blocks| ensures blocks[k].key.from.owner != env.self || blocks[k].key.memo != memo {
      if blocks[k].key.from.owner == env.self && blocks[k].key.memo == memo {
        OwnBlockIsPinned(env, w, l, id, s, k);
        assert false;
      }
    }
    DebitedNothing(blocks, env.self, memo);
  }

  // ---------- who can finalize ----------

  predicate Final(p: Pool, id: SpendId) {
    id in p.records && p.records[id].status == Finalized
  }

  /** This step finalizes record `id`, which carries the ordinal `s`. */
  ghost predicate Finalizes(env: Env, w: World, e: Event, id: SpendId, s: nat) {
    Enabled(env, w, e) && OrdinalOf(w, id, s) && !Final(w.pool, id) && Final(Step(env, w, e).pool, id)
  }

  /** A payout record is finalized by its own owner's confirmed transfer or by an operator's assertion, nothing else. */
  lemma FinalizedBy(env: Env, w: World, e: Event, id: SpendId, s: nat)
    requires Finalizes(env, w, e, id, s)
    ensures
      || (e.Reconciled? && e.id == id && e.outcome.Executed?)
      || (e.Resume? && s in Step(env, w, e).settled)
  {
    hide ResumeStep, Normalize, Claim, Reconcile, Terminal, Transfer;
    match e
    case Resume(t, wake) => ResumeFinal(env, w, t, wake, id);
    case Normalized(k) => NormalizeFinal(w.pool, k, id);
    case Claims(k, _) => ClaimFinal(w.pool, k, id);
    case Reconciled(k, outcome) => ReconcileFinal(w.pool, k, outcome, id);
    case FinishWithoutPayout(k) => TerminalFinal(w.pool, k, None, id);
    case _ => OthersFinalizeNothing(env, w, e, id);
  }

  lemma OthersFinalizeNothing(env: Env, w: World, e: Event, id: SpendId)
    requires Enabled(env, w, e) && id in w.pool.records
    requires !(e.Resume? || e.Normalized? || e.Claims? || e.Reconciled? || e.FinishWithoutPayout?)
    ensures Final(Step(env, w, e).pool, id) ==> Final(w.pool, id)
  {
    hide Step, Enabled;
    if id !in Step(env, w, e).pool.records {
    } else if e.Promote? || e.Abandon? {
      PromotionIsNotFinal(env, w, e, id);
    } else {
      OthersLeaveRecords(env, w, e, id);
    }
  }

  lemma PromotionIsNotFinal(env: Env, w: World, e: Event, id: SpendId)
    requires e.Promote? || e.Abandon?
    requires Enabled(env, w, e)
    ensures Final(Step(env, w, e).pool, id) ==> Final(w.pool, id)
  {
  }

  lemma NormalizeFinal(p: Pool, k: SpendId, id: SpendId)
    ensures Final(Normalize(p, k).0, id) ==> Final(p, id)
  {
  }

  lemma ClaimFinal(p: Pool, k: SpendId, id: SpendId)
    ensures Final(Claim(p, k).0, id) ==> Final(p, id)
  {
    hide Normalize;
    NormalizeFinal(p, k, id);
  }

  lemma TerminalFinal(p: Pool, k: SpendId, block: Option<nat>, id: SpendId)
    ensures Final(Terminal(p, k, block).0, id) ==> Final(p, id) || k == id
  {
  }

  lemma ReconcileFinal(p: Pool, k: SpendId, outcome: PayoutOutcome, id: SpendId)
    ensures Final(Reconcile(p, k, outcome).0, id) ==> Final(p, id) || (k == id && outcome.Executed?)
  {
    hide Normalize, Terminal;
    NormalizeFinal(p, k, id);
    if outcome.Executed? {
      TerminalFinal(Normalize(p, k).0, k, Some(outcome.block), id);
    }
  }

  lemma FinishFinal(p: Pool, a: Attempt, error: PoolError, ambiguous: bool, id: SpendId)
    ensures Final(FinishError(p, a, error, ambiguous).0, id) ==> Final(p, id)
  {
  }

  lemma DispatchFinal(p: Pool, a: Attempt, id: SpendId)
    ensures Final(Dispatch(p, a).0, id) ==> Final(p, id)
  {
  }

  lemma ResumeFinal(env: Env, w: World, t: nat, wake: Wake, id: SpendId)
    requires Enabled(env, w, Resume(t, wake)) && id in w.pool.records && w.pool.records[id].HasRetry()
    requires !Final(w.pool, id) && Final(ResumeStep(env, w, t, wake).pool, id)
    ensures w.pool.records[id].Retry().memoSequence in ResumeStep(env, w, t, wake).settled
  {
    hide Segment;
    SegmentFinal(env, w, t, wake, id);
  }

  /** A segment finalizes only its own owned record, and only on a confirmation. */
  lemma SegmentFinal(env: Env, w: World, t: nat, wake: Wake, id: SpendId)
    requires Enabled(env, w, Resume(t, wake)) && !Final(w.pool, id)
    requires Final(Segment(env, w, w.issued[t], w.tasks[t], wake).0, id)
    ensures w.issued[t].id == id && Owns(w.pool, w.issued[t])
    ensures ConfirmedNow(w, t, wake, Segment(env, w, w.issued[t], w.tasks[t], wake).1)
  {
    hide FinishError, Dispatch;
    var a := w.issued[t];
    DispatchFinal(w.pool, a, id);
    match w.tasks[t]
    case AtStart(_) =>
    case AwaitBalance(_, required, _) =>
      FinishFinal(w.pool, a, TransferFailed, false, id);
      if wake.balance.Some? {
        FinishFinal(w.pool, a, EscrowUnderfunded(required, wake.balance.value), false, id);
      }
    case AwaitFee(ledger) => FeeFinal(env, w.pool, a, ledger, wake.fee, wake.stamp, id);
    case AwaitTransfer(c) =>
      FinishFinal(w.pool, a, TransferFailed, true, id);
      FinishFinal(w.pool, a, TransferFailed, false, id);
  }

  lemma FeeFinal(env: Env, p: Pool, a: Attempt, ledger: Principal, fee: Option<nat>, stamp: nat, id: SpendId)
    ensures Final(AfterFee(env, p, a, ledger, fee, stamp).0, id) ==> Final(p, id)
  {
    hide FinishError, Dispatch;
    if Owns(p, a) {
      var gross := p.records[a.id].payout.value.publicAmount;
      FinishFinal(p, a, TransferFailed, false, id);
      FinishFinal(p, a, PayoutMemoKeyNotReady, false, id);
      if fee.Some? {
        FinishFinal(p, a, GrossAmountBelowFees(gross, fee.value), false, id);
        if fee.value < gross && p.control.key.Some? {
          DispatchFinal(Put(p, a.id, Frozen(env, p.control.key.value, a, p.records[a.id], ledger, fee.value, stamp)), a, id);
        }
      }
    }
  }

  /**
  After its request expired unpaid, a spend can be finalized by an operator who asserts a block, and
  by nothing else, however often it is retried.
  */
  lemma OnlyAnOperatorFinalizes(env: Env, ws: seq<World>, es: seq<Event>, i: nat, n: nat, id: SpendId, s: nat)
    requires env.SoundMac() && Run(env, ws, es) && i <= n < |es|
    requires ExpiredUnpaid(env, ws[i], s) && Finalizes(env, ws[n], es[n], id, s)
    ensures es[n].Reconciled? && es[n].id == id && es[n].outcome.Executed?
  {
    hide Init, Step, Enabled, ExpiredUnpaid, Finalizes, Inv;
    ExpiredNeverPays(env, ws, es, i, n + 1, s);
    RunStep(env, ws, es, n);
    FinalizedBy(env, ws[n], es[n], id, s);
  }
}
