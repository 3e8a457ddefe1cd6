/**
What every run of the payout executor guarantees, whatever claims, traps, lost replies,
upgrades, reconciliations and other ledger traffic it is interleaved with.
*/
module PayoutTheorems {
  import opened Wrappers
  import opened ByteStrings
  import opened TokenLedger
  import opened PayoutTypes
  import opened PayoutSegments
  import opened PayoutWorld
  import opened PayoutInvariant
  import opened PayoutPreserved
  import opened PayoutSteps
  import opened PayoutResume
  import opened PayoutRuns

  // ---------- exactly once ----------

  /** What the pool's account has been debited on one ledger under one memo. */
  function Debited(blocks: seq<Block>, self: Principal, memo: Bytes): nat {
    if blocks == [] then 0
    else
      var last := blocks[|blocks| - 1];
      Debited(blocks[..|blocks| - 1], self, memo) +
      (if last.key.from.owner == self && last.key.memo == memo then last.Debit() else 0)
  }

  lemma {:induction false} DebitedNothing(blocks: seq<Block>, self: Principal, memo: Bytes)
    requires forall i :: 0 <= i < |blocks| ==> blocks[i].key.from.owner != self || blocks[i].key.memo != memo
    ensures Debited(blocks, self, memo) == 0
  {
    if blocks != [] {
      DebitedNothing(blocks[..|blocks| - 1], self, memo);
    }
  }

  lemma {:induction false} DebitedAtOne(blocks: seq<Block>, self: Principal, memo: Bytes, k: nat)
    requires k < |blocks| && blocks[k].key.from.owner == self && blocks[k].key.memo == memo
    requires forall i :: 0 <= i < |blocks| && i != k ==> blocks[i].key.from.owner != self || blocks[i].key.memo != memo
    ensures Debited(blocks, self, memo) == blocks[k].Debit()
  {
    if k == |blocks| - 1 {
      DebitedNothing(blocks[..|blocks| - 1], self, memo);
    } else {
      DebitedAtOne(blocks[..|blocks| - 1], self, memo, k);
    }
  }

  /** A block under a spend's memo executes exactly the request pinned for that spend. */
  lemma OwnBlockIsPinned(env: Env, w: World, l: Principal, id: SpendId, s: nat, i: nat)
    requires env.SoundMac() && Inv(env, w) && l in w.ledgers && id <= U64_MAX && s <= U128_MAX
    requires w.pool.control.key.Some?
    requires i < |w.ledgers[l].blocks|
    requires w.ledgers[l].blocks[i].key.from.owner == env.self
    requires w.ledgers[l].blocks[i].key.memo == env.Memo(w.pool.control.key.value, l, id, s)
    ensures s in w.pins && w.pins[s].id == id && w.pins[s].request.ledger == l
    ensures w.ledgers[l].blocks[i].key == KeyOf(env.self, w.pins[s].request.Args())
  {
    var c :| 0 <= c < |w.calls| && Pays(env, l, w.ledgers[l], i, w.calls[c]);
    assert CallOk(w.issued, w.calls[c], w.pins);
    var s' := w.issued[w.calls[c].task].sequence;
    assert PinOk(env, w.pool.control, s', w.pins[s']);
    MemoIdentifiesSpend(env, w.pool.control.key.value, l, id, s, w.pins[s'].id, s');
  }

  /** Record `id` is stored and carries the ordinal `s`. */
  predicate OrdinalOf(w: World, id: SpendId, s: nat) {
    id in w.pool.records && w.pool.records[id].HasRetry() && w.pool.records[id].Retry().memoSequence == s
  }

  /**
  Exactly-once payout. In every reachable state and on every ledger, the debits under a spend's
  memo are nothing at all, or exactly the proof-bound amount, once; and they are exactly that
  amount as soon as a ledger's reply has finalized the spend, in the very block it recorded. While
  the record is stored, that amount is the one its own payout terms name.
  */
  lemma ExactlyOncePayout(env: Env, ws: seq<World>, es: seq<Event>, n: nat, l: Principal, id: SpendId, s: nat)
    requires env.SoundMac() && Run(env, ws, es) && n < |ws|
    requires l in ws[n].ledgers && id <= U64_MAX && s <= U128_MAX && ws[n].pool.control.key.Some?
    ensures
      var w := ws[n];
      var paid := Debited(w.ledgers[l].blocks, env.self, env.Memo(w.pool.control.key.value, l, id, s));
      && (paid == 0 || (s in w.pins && w.pins[s].id == id && w.pins[s].request.ledger == l && paid == w.pins[s].gross))
      && (s in w.settled ==> s in w.pins)
      && (s in w.settled && w.pins[s].id == id && w.pins[s].request.ledger == l ==>
            && paid == w.pins[s].gross && w.settled[s] < |w.ledgers[l].blocks|
            && w.ledgers[l].blocks[w.settled[s]].Debit() == w.pins[s].gross)
    ensures
      var w := ws[n];
      var paid := Debited(w.ledgers[l].blocks, env.self, env.Memo(w.pool.control.key.value, l, id, s));
      OrdinalOf(w, id, s) ==>
        && (paid == 0 || paid == w.pool.records[id].payout.value.publicAmount)
        && (s in w.settled && w.pins[s].request.ledger == l ==>
              paid == w.pool.records[id].payout.value.publicAmount && w.pool.records[id].status == Finalized)
  {
    hide RecordsOk, SequencesDistinct, LiveOk, LiveHasTask, IssuedOk, TasksOk, CallsOk, StickyOk, LedgersOk;
    hide AnswersOk, BirthsOk, FeesOk, Run, PinOk, PaidBy, Env.Memo, Env.SoundMac;
    ReachableInv(env, ws, es, n);
    var w := ws[n];
    var memo := env.Memo(w.pool.control.key.value, l, id, s);
    if i :| 0 <= i < |w.ledgers[l].blocks| && w.ledgers[l].blocks[i].key.from.owner == env.self
            && w.ledgers[l].blocks[i].key.memo == memo {
      OneBlock(env, w, l, id, s, i);
    } else {
      DebitedNothing(w.ledgers[l].blocks, env.self, memo);
    }
    if s in w.settled && w.pins[s].id == id && w.pins[s].request.ledger == l {
      SettledBlock(env, w, s);
      OneBlock(env, w, l, id, s, w.settled[s]);
    }
    if OrdinalOf(w, id, s) && s in w.pins {
      PinnedGross(w, id, s);
    }
  }

  /** The settled block lies in the pinned ledger, debits the pool, and carries the spend's memo. */
  lemma SettledBlock(env: Env, w: World, s: nat)
    requires s in w.settled && w.pool.control.key.Some?
    requires SettledOk(env, w.pool.records, w.ledgers, w.pins, w.settled) && PinsOk(env, w.pool.control, w.pins)
    ensures s in w.pins && w.pins[s].request.ledger in w.ledgers
    ensures
      var pin, blocks := w.pins[s], w.ledgers[w.pins[s].request.ledger].blocks;
      && w.settled[s] < |blocks| && blocks[w.settled[s]].key.from.owner == env.self
      && blocks[w.settled[s]].key.memo == env.Memo(w.pool.control.key.value, pin.request.ledger, pin.id, s)
  {
    hide Env.Memo;
    assert PaidBy(env, w.ledgers, w.pins[s], w.settled[s]) && PinOk(env, w.pool.control, s, w.pins[s]);
  }

  /** The pinned amount is the public amount of the record that still carries the ordinal. */
  lemma PinnedGross(w: World, id: SpendId, s: nat)
    requires OrdinalOf(w, id, s) && s in w.pins
    requires RecordsOk(w.pool.control, w.pins, w.pool.records)
    ensures w.pins[s].id == id && w.pins[s].gross == w.pool.records[id].payout.value.publicAmount
  {
    assert RecordOk(w.pool.control, w.pins, id, w.pool.records[id]);
  }

  lemma OneBlock(env: Env, w: World, l: Principal, id: SpendId, s: nat, k: nat)
    requires env.SoundMac() && Inv(env, w) && l in w.ledgers && id <= U64_MAX && s <= U128_MAX
    requires w.pool.control.key.Some?
    requires k < |w.ledgers[l].blocks| && w.ledgers[l].blocks[k].key.from.owner == env.self
    requires w.ledgers[l].blocks[k].key.memo == env.Memo(w.pool.control.key.value, l, id, s)
    ensures s in w.pins && w.pins[s].id == id && w.pins[s].request.ledger == l
    ensures w.ledgers[l].blocks[k].Debit() == w.pins[s].gross
    ensures Debited(w.ledgers[l].blocks, env.self, env.Memo(w.pool.control.key.value, l, id, s)) == w.pins[s].gross
  {
    hide RecordsOk, SequencesDistinct, LiveOk, LiveHasTask, IssuedOk, TasksOk, CallsOk, StickyOk, AnswersOk;
    hide SettledOk, BirthsOk;
    var blocks := w.ledgers[l].blocks;
    var memo := env.Memo(w.pool.control.key.value, l, id, s);
    OwnBlockIsPinned(env, w, l, id, s, k);
    assert PinOk(env, w.pool.control, s, w.pins[s]);
    assert ExecutedOnce(w.ledgers[l]);
    forall i | 0 <= i < |blocks| && i != k ensures blocks[i].key.from.owner != env.self || blocks[i].key.memo != memo {
      if blocks[i].key.from.owner == env.self && blocks[i].key.memo == memo {
        OwnBlockIsPinned(env, w, l, id, s, i);
      }
    }
    DebitedAtOne(blocks, env.self, memo, k);
  }

  /** This step ends a payout run that returns block `b` to its caller. */
  ghost predicate ReturnsBlock(env: Env, w: World, e: Event, b: nat) {
    && e.Resume? && Enabled(env, w, e)
    && Segment(env, w, w.issued[e.task], w.tasks[e.task], e.wake).1 == Finished(Ok(b))
  }

  /** The record is final and names block `b`, which pays its destination the public amount less the fee charged. */
  ghost predicate PaidOut(w: World, rec: PendingSpend, l: Principal, b: nat) {
    && rec.status == Finalized && rec.payout.Some? && rec.payout.value.blockIndex == Some(b)
    && l in w.ledgers && b < |w.ledgers[l].blocks|
    && var block := w.ledgers[l].blocks[b];
    && block.key.to == Account(rec.payout.value.destination, rec.payout.value.destinationSubaccount).Key()
    && block.key.amount + block.charged == rec.payout.value.publicAmount
  }

  /**
  When a payout returns a block index to its caller, the record is final and names it, and that
  block of the ledger its request was frozen for debits the pool exactly the proof-bound amount:
  the recipient gets that amount less the fee the ledger charged.
  */
  lemma ReturnedBlockPaid(env: Env, ws: seq<World>, es: seq<Event>, n: nat, b: nat)
    requires env.SoundMac() && Run(env, ws, es) && n < |es|
    requires ReturnsBlock(env, ws[n], es[n], b)
    ensures PayoutMade(ws[n + 1], ws[n].issued[es[n].task], b)
  {
    hide Inv, Step, Enabled, Init, ReturnsBlock, PayoutMade;
    RunStep(env, ws, es, n);
    ReachableInv(env, ws, es, n);
    ReachableInv(env, ws, es, n + 1);
    ReturningIsAWake(env, ws[n], es[n], b);
    ReturningStep(env, ws[n], es[n], b, ws[n + 1], ws[n].issued[es[n].task]);
  }

  /** The attempt's record is paid out in block `b` of the ledger its request is pinned to. */
  ghost predicate PayoutMade(w: World, a: Attempt, b: nat) {
    && a.id in w.pool.records && a.sequence in w.pins
    && PaidOut(w, w.pool.records[a.id], w.pins[a.sequence].request.ledger, b)
  }

  /** The attempt's record is final, names block `b`, and that block executes the pinned request. */
  ghost predicate Confirmed(env: Env, w: World, a: Attempt, b: nat) {
    && OrdinalOf(w, a.id, a.sequence)
    && w.pool.records[a.id].status == Finalized && w.pool.records[a.id].payout.value.blockIndex == Some(b)
    && a.sequence in w.pins && PaidBy(env, w.ledgers, w.pins[a.sequence], b)
  }

  lemma ReturningIsAWake(env: Env, w: World, e: Event, b: nat)
    requires ReturnsBlock(env, w, e, b)
    ensures e.Resume? && e.task < |w.issued|
  {
    hide Segment;
  }

  lemma ReturningStep(env: Env, w: World, e: Event, b: nat, next: World, a: Attempt)
    requires env.SoundMac() && ReturnsBlock(env, w, e, b) && next == Step(env, w, e) && a == w.issued[e.task]
    requires Inv(env, w) && Inv(env, next)
    ensures PayoutMade(next, a, b)
  {
    hide RecordsOk, SequencesDistinct, LiveOk, LiveHasTask, IssuedOk, TasksOk, PinsOk, CallsOk, StickyOk;
    hide LedgersOk, AnswersOk, SettledOk, BirthsOk, FeesOk;
    hide Step, PaidOut, Confirmed, Segment;
    StepOfResume(env, w, e.task, e.wake);
    StepPays(env, w, e.task, e.wake, b, next);
    PinnedRecordPaid(env, next, a, b);
  }

  lemma StepOfResume(env: Env, w: World, t: nat, wake: Wake)
    requires Enabled(env, w, Resume(t, wake))
    ensures Step(env, w, Resume(t, wake)) == ResumeStep(env, w, t, wake)
  {
    hide ResumeStep;
  }

  /** A final record with a pinned request, paid in block `b`, has paid its own destination. */
  lemma PinnedRecordPaid(env: Env, w: World, a: Attempt, b: nat)
    requires Confirmed(env, w, a, b)
    requires RecordsOk(w.pool.control, w.pins, w.pool.records)
    requires LedgersOk(env, w.ledgers, w.calls) && PinsOk(env, w.pool.control, w.pins)
    ensures PayoutMade(w, a, b)
  {
    assert RecordOk(w.pool.control, w.pins, a.id, w.pool.records[a.id]);
    ChargedGross(env, w, a.sequence, b);
  }

  /** The segment of the owner that takes in a confirmation finalizes its record, whose request the ledger has executed. */
  lemma StepPays(env: Env, w: World, t: nat, wake: Wake, b: nat, next: World)
    requires env.SoundMac() && Enabled(env, w, Resume(t, wake))
    requires Segment(env, w, w.issued[t], w.tasks[t], wake).1 == Finished(Ok(b))
    requires next == ResumeStep(env, w, t, wake)
    requires Inv(env, w)
    ensures Confirmed(env, next, w.issued[t], b)
  {
    hide RecordsOk, SequencesDistinct, LiveOk, LiveHasTask, IssuedOk, TasksOk, PinsOk, CallsOk, StickyOk;
    hide LedgersOk, AnswersOk, SettledOk, BirthsOk, FeesOk;
    hide Segment, ResumeStep;
    OwnerOfResult(env, w, t, wake, b);
    OwnerFacts(w, t);
    ConfirmedWasPaid(env, w, t);
    EndShape(env, w, t, wake);
  }

  lemma OwnerOfResult(env: Env, w: World, t: nat, wake: Wake, b: nat)
    requires Enabled(env, w, Resume(t, wake))
    requires Segment(env, w, w.issued[t], w.tasks[t], wake).1 == Finished(Ok(b))
    ensures Owns(w.pool, w.issued[t]) && w.tasks[t].AwaitTransfer? && wake.Replied?
    ensures Confirms(w.calls[w.tasks[t].call].answer.value) && BlockOf(w.calls[w.tasks[t].call].answer.value) == b
  {
  }

  lemma ChargedGross(env: Env, w: World, s: nat, b: nat)
    requires s in w.pins && PaidBy(env, w.ledgers, w.pins[s], b)
    requires LedgersOk(env, w.ledgers, w.calls) && PinsOk(env, w.pool.control, w.pins)
    ensures w.ledgers[w.pins[s].request.ledger].blocks[b].Debit() == w.pins[s].gross
  {
    assert PinOk(env, w.pool.control, s, w.pins[s]);
    assert LedgerInv(w.ledgers[w.pins[s].request.ledger]);
  }

  // ---------- frozen identity ----------

  /** Two states of one record, the second not earlier than the first. */
  ghost predicate Advances(rec: PendingSpend, rec': PendingSpend) {
    && (rec.status == Finalized ==> rec' == rec)
    && rec'.split == rec.split
    && (rec.payout.Some? <==> rec'.payout.Some?)
    && (rec.HasRetry() <==> rec'.HasRetry())
    && (rec.payout.Some? ==>
          && rec'.payout.value.destination == rec.payout.value.destination
          && rec'.payout.value.destinationSubaccount == rec.payout.value.destinationSubaccount
          && rec'.payout.value.publicAmount == rec.payout.value.publicAmount)
    && (rec.HasRetry() ==>
          var r, r' := rec.Retry(), rec'.Retry();
          && r'.memoSequence == r.memoSequence
          && r.generation <= r'.generation && r.boot <= r'.boot
          && (r.priorAmbiguity ==> r'.priorAmbiguity)
          && (r.dispatched ==> r'.dispatched)
          && (r.frozen.Some? ==> r'.frozen == r.frozen))
  }

  /**
  One step on one record that is still the same incarnation: its destination, amount, split and
  ordinal never change, a frozen request is never replaced, doubt is never withdrawn, the
  generation never falls, and a finalized record is never touched again.
  */
  lemma StepAdvances(env: Env, w: World, e: Event, id: SpendId)
    requires Enabled(env, w, e)
    requires id in w.pool.records && id in Step(env, w, e).pool.records
    requires RecordsOk(w.pool.control, w.pins, w.pool.records)
    requires TasksOk(w.pool.records, w.pool.live, w.issued, w.tasks, w.calls)
    requires CallsOk(w.issued, w.calls, w.pins)
    ensures Advances(w.pool.records[id], Step(env, w, e).pool.records[id])
  {
    hide RecordsOk, TasksOk, CallsOk, Step, Advances;
    if e.Resume? {
      WakeStepAdvances(env, w, e, id);
    } else if e.Normalized? || e.Claims? {
      ClaimStepAdvances(env, w, e, id);
    } else if e.Reconciled? || e.FinishWithoutPayout? {
      FinalStepAdvances(env, w, e, id);
    } else {
      OtherStepsAdvance(env, w, e, id);
    }
  }

  lemma WakeStepAdvances(env: Env, w: World, e: Event, id: SpendId)
    requires e.Resume? && Enabled(env, w, e) && id in w.pool.records
    requires RecordsOk(w.pool.control, w.pins, w.pool.records)
    requires TasksOk(w.pool.records, w.pool.live, w.issued, w.tasks, w.calls)
    requires CallsOk(w.issued, w.calls, w.pins)
    ensures id in Step(env, w, e).pool.records
    ensures Advances(w.pool.records[id], Step(env, w, e).pool.records[id])
  {
    hide RecordsOk, TasksOk, CallsOk, ResumeStep, Advances;
    ResumeAdvances(env, w, e.task, e.wake, id);
  }

  lemma ClaimStepAdvances(env: Env, w: World, e: Event, id: SpendId)
    requires e.Normalized? || e.Claims?
    requires Enabled(env, w, e) && id in w.pool.records
    requires RecordsOk(w.pool.control, w.pins, w.pool.records)
    ensures id in Step(env, w, e).pool.records
    ensures Advances(w.pool.records[id], Step(env, w, e).pool.records[id])
  {
    hide RecordsOk, Normalize, Claim, Advances;
    NormalizeAdvances(w.pool, e.id, id);
    ClaimAdvances(w.pool, w.pins, e.id, id);
  }

  lemma FinalStepAdvances(env: Env, w: World, e: Event, id: SpendId)
    requires e.Reconciled? || e.FinishWithoutPayout?
    requires Enabled(env, w, e) && id in w.pool.records
    ensures id in Step(env, w, e).pool.records
    ensures Advances(w.pool.records[id], Step(env, w, e).pool.records[id])
  {
    hide Reconcile, Terminal, Advances;
    if e.Reconciled? {
      ReconcileAdvances(w.pool, e.id, e.outcome, id);
    } else {
      TerminalAdvances(w.pool, e.id, None, id);
    }
  }

  lemma OtherStepsAdvance(env: Env, w: World, e: Event, id: SpendId)
    requires Enabled(env, w, e) && id in w.pool.records && id in Step(env, w, e).pool.records
    requires !(e.Resume? || e.Normalized? || e.Claims? || e.Reconciled? || e.FinishWithoutPayout?)
    ensures Advances(w.pool.records[id], Step(env, w, e).pool.records[id])
  {
    hide Advances, Step, Enabled;
    var rec, rec' := w.pool.records[id], Step(env, w, e).pool.records[id];
    if e.Promote? || e.Abandon? {
      PromotionRewrites(env, w, e, id);
      StatusAdvances(rec, rec'.status);
      AdvancesReflexive(rec);
    } else {
      OthersLeaveRecords(env, w, e, id);
      AdvancesReflexive(rec);
    }
  }

  lemma PromotionRewrites(env: Env, w: World, e: Event, id: SpendId)
    requires e.Promote? || e.Abandon?
    requires Enabled(env, w, e) && id in w.pool.records && id in Step(env, w, e).pool.records
    ensures
      var rec, rec' := w.pool.records[id], Step(env, w, e).pool.records[id];
      rec' == rec || (rec.status == PrePayout && rec' == rec.(status := rec'.status))
  {
  }

  lemma OthersLeaveRecords(env: Env, w: World, e: Event, id: SpendId)
    requires e.Admit? || e.Forget? || e.Provision? || e.Upgraded? || e.LoseGuard? || e.FlushFees? || e.LedgerHandles? || e.LedgerServesOther?
    requires Enabled(env, w, e) && id in w.pool.records && id in Step(env, w, e).pool.records
    ensures Step(env, w, e).pool.records[id] == w.pool.records[id]
  {
    hide Transfer, ResumeStep, ReconcileStep, ClaimStep, TerminalStep, LedgerStep, AdmitStep, Normalize;
    if e.Admit? {
      AdmissionAddsOne(w, e.id, e.terms, e.split);
    } else if e.LedgerHandles? {
      LedgerTouches(env, w, e.call, e.conditions);
    }
  }

  lemma AdmissionAddsOne(w: World, id: SpendId, terms: Option<PayoutTerms>, split: Option<FeeSplit>)
    ensures forall k :: k in w.pool.records && k != id ==>
              k in AdmitStep(w, id, terms, split).pool.records && AdmitStep(w, id, terms, split).pool.records[k] == w.pool.records[k]
  {
  }

  lemma StatusAdvances(rec: PendingSpend, status: SpendStatus)
    ensures rec.status != Finalized ==> Advances(rec, rec.(status := status))
  {
  }

  lemma AdvancesReflexive(rec: PendingSpend)
    ensures Advances(rec, rec)
  {
  }

  lemma NormalizeAdvances(p: Pool, k: SpendId, id: SpendId)
    requires id in p.records
    ensures id in Normalize(p, k).0.records
    ensures Advances(p.records[id], Normalize(p, k).0.records[id])
  {
  }

  lemma ClaimAdvances(p: Pool, pins: map<nat, Pin>, k: SpendId, id: SpendId)
    requires id in p.records && RecordsOk(p.control, pins, p.records)
    ensures id in Claim(p, k).0.records
    ensures Advances(p.records[id], Claim(p, k).0.records[id])
  {
    hide Normalize;
    NormalizeAdvances(p, k, id);
    NormalizeShape(p, k);
    assert RecordOk(p.control, pins, id, p.records[id]);
  }

  /** What a successful normalization reports is the stored record; the control cell is untouched. */
  lemma NormalizeShape(p: Pool, k: SpendId)
    ensures Normalize(p, k).0.control == p.control
    ensures Normalize(p, k).1.Ok? ==> k in p.records && k in Normalize(p, k).0.records
    ensures Normalize(p, k).1.Ok? ==> Normalize(p, k).0.records[k] == Normalize(p, k).1.value
    ensures Normalize(p, k).1.Ok? && p.records[k].HasRetry() ==> Normalize(p, k).1.value.HasRetry()
    ensures Normalize(p, k).1.Ok? && p.records[k].HasRetry() ==>
              Normalize(p, k).1.value.Retry().boot == p.records[k].Retry().boot
  {
  }

  lemma TerminalAdvances(p: Pool, k: SpendId, block: Option<nat>, id: SpendId)
    requires id in p.records
    ensures id in Terminal(p, k, block).0.records
    ensures Advances(p.records[id], Terminal(p, k, block).0.records[id])
  {
  }

  lemma AdvancesTransitive(a: PendingSpend, b: PendingSpend, c: PendingSpend)
    requires Advances(a, b) && Advances(b, c)
    ensures Advances(a, c)
  {
  }

  lemma ReconcileAdvances(p: Pool, k: SpendId, outcome: PayoutOutcome, id: SpendId)
    requires id in p.records
    ensures id in Reconcile(p, k, outcome).0.records
    ensures Advances(p.records[id], Reconcile(p, k, outcome).0.records[id])
  {
    hide Normalize, Terminal;
    var n := Normalize(p, k).0;
    NormalizeAdvances(p, k, id);
    NormalizeShape(p, k);
    if outcome.Executed? {
      TerminalAdvances(n, k, Some(outcome.block), id);
    }
  }

  lemma ResumeAdvances(env: Env, w: World, t: nat, wake: Wake, id: SpendId)
    requires Enabled(env, w, Resume(t, wake)) && id in w.pool.records
    requires RecordsOk(w.pool.control, w.pins, w.pool.records)
    requires TasksOk(w.pool.records, w.pool.live, w.issued, w.tasks, w.calls)
    requires CallsOk(w.issued, w.calls, w.pins)
    ensures id in ResumeStep(env, w, t, wake).pool.records
    ensures Advances(w.pool.records[id], ResumeStep(env, w, t, wake).pool.records[id])
  {
    hide Advances, Segment, RecordsOk, TasksOk, CallsOk, TerminalStep, NextTasks, NextCalls, NextPins;
    ResumeTouches(env, w, t, wake);
    var a := w.issued[t];
    if Owns(w.pool, a) {
      OwnerFacts(w, t);
      SegmentAdvances(env, w, t, wake);
    } else {
      StaleChangesNothing(env, w, t, wake);
    }
    AdvancesReflexive(w.pool.records[id]);
  }

  /** A segment rewrites at most its own record, and only forwards. */
  ghost predicate OwnRecordAdvances(p: Pool, a: Attempt, p': Pool) {
    && a.id in p.records && a.id in p'.records
    && Advances(p.records[a.id], p'.records[a.id])
    && p'.records == p.records[a.id := p'.records[a.id]]
  }

  lemma SegmentAdvances(env: Env, w: World, t: nat, wake: Wake)
    requires Enabled(env, w, Resume(t, wake)) && Owns(w.pool, w.issued[t])
    requires Expects(w.pool.records[w.issued[t].id], w.tasks[t])
    ensures OwnRecordAdvances(w.pool, w.issued[t], Segment(env, w, w.issued[t], w.tasks[t], wake).0)
  {
    hide Terminal, FinishError, Dispatch, OwnRecordAdvances;
    var a := w.issued[t];
    OwnedAdvances(w.pool, a);
    match w.tasks[t]
    case AtStart(_) =>
    case AwaitBalance(_, required, _) => BalanceAdvances(w.pool, a, required, wake.balance);
    case AwaitFee(l) => FeeAdvances(env, w.pool, a, l, wake.fee, wake.stamp);
    case AwaitTransfer(c) => TransferAdvances(w.pool, a, if wake.Replied? then Answer(w.calls[c].answer.value) else Transport);
  }

  lemma OwnedAdvances(p: Pool, a: Attempt)
    requires Owns(p, a)
    ensures OwnRecordAdvances(p, a, p) && OwnRecordAdvances(p, a, Dispatch(p, a).0)
  {
    assert p.records[a.id := p.records[a.id]] == p.records;
  }

  lemma FinishAdvances(p: Pool, a: Attempt, error: PoolError, ambiguous: bool)
    requires Owns(p, a)
    ensures OwnRecordAdvances(p, a, FinishError(p, a, error, ambiguous).0)
  {
  }

  lemma BalanceAdvances(p: Pool, a: Attempt, required: nat, balance: Option<nat>)
    requires Owns(p, a)
    ensures OwnRecordAdvances(p, a, FinishError(p, a, TransferFailed, false).0)
    ensures balance.Some? ==> OwnRecordAdvances(p, a, FinishError(p, a, EscrowUnderfunded(required, balance.value), false).0)
  {
    hide FinishError, OwnRecordAdvances;
    FinishAdvances(p, a, TransferFailed, false);
    if balance.Some? {
      FinishAdvances(p, a, EscrowUnderfunded(required, balance.value), false);
    }
  }

  lemma FeeAdvances(env: Env, p: Pool, a: Attempt, ledger: Principal, fee: Option<nat>, stamp: nat)
    requires Owns(p, a) && p.records[a.id].Retry().frozen.None?
    ensures OwnRecordAdvances(p, a, AfterFee(env, p, a, ledger, fee, stamp).0)
  {
    var gross := p.records[a.id].payout.value.publicAmount;
    if fee.None? {
      FinishAdvances(p, a, TransferFailed, false);
    } else if gross <= fee.value {
      FinishAdvances(p, a, GrossAmountBelowFees(gross, fee.value), false);
    } else if p.control.key.None? {
      FinishAdvances(p, a, PayoutMemoKeyNotReady, false);
    } else {
      var rec := Frozen(env, p.control.key.value, a, p.records[a.id], ledger, fee.value, stamp);
      assert p.records[a.id := rec][a.id := Dispatched(rec)] == p.records[a.id := Dispatched(rec)];
    }
  }

  lemma TransferAdvances(p: Pool, a: Attempt, outcome: TransferOutcome)
    requires Owns(p, a)
    ensures OwnRecordAdvances(p, a, AfterTransfer(p, a, outcome).0)
  {
    hide FinishError;
    if outcome.Transport? {
      FinishAdvances(p, a, TransferFailed, true);
    } else if !Confirms(outcome.reply) {
      FinishAdvances(p, a, TransferFailed, AmbiguousRefusal(outcome.reply));
    }
  }

  /**
  Over any stretch of a run in which a spend's record stays, it only advances: what one step may
  not change, no number of steps changes.
  */
  lemma {:induction false} RecordsOnlyAdvance(env: Env, ws: seq<World>, es: seq<Event>, i: nat, j: nat, id: SpendId)
    requires env.SoundMac() && Run(env, ws, es) && i <= j < |ws|
    requires forall k: nat :: i <= k <= j ==> id in ws[k].pool.records
    ensures Advances(ws[i].pool.records[id], ws[j].pool.records[id])
    decreases j
  {
    hide Init, Step, Enabled, Advances, RecordsOk, TasksOk, CallsOk, Env.SoundMac;
    if i < j {
      RecordsOnlyAdvance(env, ws, es, i, j - 1, id);
      RunStep(env, ws, es, j - 1);
      AdvancesInRun(env, ws, es, j - 1, id);
      AdvancesTransitive(ws[i].pool.records[id], ws[j - 1].pool.records[id], ws[j].pool.records[id]);
    } else {
      AdvancesReflexive(ws[i].pool.records[id]);
    }
  }

  lemma AdvancesInRun(env: Env, ws: seq<World>, es: seq<Event>, k: nat, id: SpendId)
    requires env.SoundMac() && Run(env, ws, es) && k < |es|
    requires id in ws[k].pool.records && id in ws[k + 1].pool.records
    ensures Advances(ws[k].pool.records[id], ws[k + 1].pool.records[id])
  {
    hide Run, Step, Enabled, Advances, RecordsOk, TasksOk, CallsOk, Env.SoundMac;
    RunStep(env, ws, es, k);
    ReachableInv(env, ws, es, k);
    StepAdvances(env, ws[k], es[k], id);
  }

  /** A pinned request stays pinned: the ordinal's ledger arguments are fixed for good. */
  lemma StepKeepsPins(env: Env, w: World, e: Event)
    requires Enabled(env, w, e)
    ensures forall s :: s in w.pins ==> s in Step(env, w, e).pins && Step(env, w, e).pins[s] == w.pins[s]
  {
    hide Transfer, AdmitStep, ClaimStep, ReconcileStep, ResumeStep, LedgerStep, TerminalStep, Normalize, ProvisionKey;
    hide Upgrade, Drain, DropGuard, Terminal, Reconcile, Segment, Leave, Claim;
    match e
    case Resume(t, wake) => ResumeTouches(env, w, t, wake);
    case Reconciled(id, outcome) => ReconcileTouches(w, id, outcome);
    case Claims(id, configured) => ClaimTouches(w, id, configured);
    case Admit(id, terms, split) => AdmitTouches(w, id, terms, split);
    case FinishWithoutPayout(id) => TerminalTouches(w, id, Terminal(w.pool, id, None).0);
    case LedgerHandles(c, cond) => LedgerTouches(env, w, c, cond);
    case _ =>
  }

  lemma {:induction false} PinsForever(env: Env, ws: seq<World>, es: seq<Event>, i: nat, j: nat, s: nat)
    requires Run(env, ws, es) && i <= j < |ws| && s in ws[i].pins
    ensures s in ws[j].pins && ws[j].pins[s] == ws[i].pins[s]
    decreases j
  {
    hide Init, Step, Enabled;
    if i < j {
      PinsForever(env, ws, es, i, j - 1, s);
      RunStep(env, ws, es, j - 1);
      StepKeepsPins(env, ws[j - 1], es[j - 1]);
    }
  }

  /**
  Frozen identity. Once a spend's record holds a frozen request, every later record of that
  ordinal holds the same one, and every transfer ever sent for it, before or after, carries
  exactly those arguments.
  */
  lemma FrozenIdentity(env: Env, ws: seq<World>, es: seq<Event>, i: nat, j: nat, id: SpendId, f: FrozenPayout)
    requires env.SoundMac() && Run(env, ws, es) && i <= j < |ws|
    requires id in ws[i].pool.records && ws[i].pool.records[id].HasRetry()
    requires ws[i].pool.records[id].Retry().frozen == Some(f)
    ensures
      var s := ws[i].pool.records[id].Retry().memoSequence;
      && (forall k :: k in ws[j].pool.records && ws[j].pool.records[k].HasRetry()
                      && ws[j].pool.records[k].Retry().memoSequence == s ==>
            k == id && ws[j].pool.records[k].Retry().frozen == Some(f))
      && (forall c :: 0 <= c < |ws[j].calls| && ws[j].calls[c].task < |ws[j].issued|
                      && ws[j].issued[ws[j].calls[c].task].sequence == s ==>
            ws[j].calls[c].request == f)
  {
    ReachableInv(env, ws, es, i);
    ReachableInv(env, ws, es, j);
    var s := ws[i].pool.records[id].Retry().memoSequence;
    assert RecordOk(ws[i].pool.control, ws[i].pins, id, ws[i].pool.records[id]);
    PinsForever(env, ws, es, i, j, s);
    PinnedEverywhere(ws[j], s);
  }

  lemma PinnedEverywhere(w: World, s: nat)
    requires s in w.pins
    requires RecordsOk(w.pool.control, w.pins, w.pool.records) && CallsOk(w.issued, w.calls, w.pins)
    ensures forall k :: k in w.pool.records && w.pool.records[k].HasRetry() && w.pool.records[k].Retry().memoSequence == s ==>
              k == w.pins[s].id && w.pool.records[k].Retry().frozen == Some(w.pins[s].request)
    ensures forall c :: 0 <= c < |w.calls| && w.calls[c].task < |w.issued| && w.issued[w.calls[c].task].sequence == s ==>
              w.calls[c].request == w.pins[s].request
  {
    forall k | k in w.pool.records && w.pool.records[k].HasRetry() && w.pool.records[k].Retry().memoSequence == s
      ensures k == w.pins[s].id && w.pool.records[k].Retry().frozen == Some(w.pins[s].request)
    {
      assert RecordOk(w.pool.control, w.pins, k, w.pool.records[k]);
    }
    forall c | 0 <= c < |w.calls| && w.calls[c].task < |w.issued| && w.issued[w.calls[c].task].sequence == s
      ensures w.calls[c].request == w.pins[s].request
    {
      assert CallOk(w.issued, w.calls[c], w.pins);
    }
  }

  /** Every payout record of every reachable state passes the retry validation, across boots. */
  lemma AlwaysValid(env: Env, ws: seq<World>, es: seq<Event>, n: nat, id: SpendId)
    requires env.SoundMac() && Run(env, ws, es) && n < |ws|
    requires id in ws[n].pool.records && ws[n].pool.records[id].payout.Some?
    ensures ValidateRetry(ws[n].pool.records[id].payout.value, ws[n].pool.control) == Ok(())
  {
    ReachableInv(env, ws, es, n);
    assert RecordOk(ws[n].pool.control, ws[n].pins, id, ws[n].pool.records[id]);
  }

  // ---------- single executor ----------

  /** No attempt token is issued twice in any run, not even across upgrades or re-admissions. */
  lemma TokensNeverRepeat(env: Env, ws: seq<World>, es: seq<Event>, n: nat, i: nat, j: nat)
    requires env.SoundMac() && Run(env, ws, es) && n < |ws| && i < j < |ws[n].issued|
    ensures ws[n].issued[i] != ws[n].issued[j]
  {
    ReachableInv(env, ws, es, n);
    assert TokensUnique(ws[n].issued);
  }

  /** At most one outstanding future per spend passes the ownership check. */
  lemma SingleOwner(env: Env, ws: seq<World>, es: seq<Event>, n: nat, t: nat, u: nat)
    requires env.SoundMac() && Run(env, ws, es) && n < |ws|
    requires t in ws[n].tasks && u in ws[n].tasks && t < |ws[n].issued| && u < |ws[n].issued|
    requires Owns(ws[n].pool, ws[n].issued[t]) && Owns(ws[n].pool, ws[n].issued[u])
    requires ws[n].issued[t].id == ws[n].issued[u].id
    ensures t == u
  {
    ReachableInv(env, ws, es, n);
    assert TokensUnique(ws[n].issued);
  }

  /** Future `t` is outstanding and holds the guard with this token. */
  ghost predicate Guards(w: World, t: nat, a: Attempt) {
    t in w.tasks && t < |w.issued| && w.issued[t] == a
  }

  /**
  The executor map is exact at message boundaries: at most 64 slots; each slot's token matches a
  submitting record and belongs to exactly one outstanding future.
  */
  lemma ExecutorMapIsExact(env: Env, ws: seq<World>, es: seq<Event>, n: nat, id: SpendId)
    requires env.SoundMac() && Run(env, ws, es) && n < |ws|
    ensures |ws[n].pool.live| <= MAX_LIVE_PAYOUT_ATTEMPTS
    ensures id in ws[n].pool.live ==>
              && Owns(ws[n].pool, ws[n].pool.live[id]) && ws[n].pool.live[id].id == id
              && (exists t :: Guards(ws[n], t, ws[n].pool.live[id]))
              && (forall t, u :: Guards(ws[n], t, ws[n].pool.live[id]) && Guards(ws[n], u, ws[n].pool.live[id]) ==> t == u)
  {
    ReachableInv(env, ws, es, n);
    var w := ws[n];
    if id in w.pool.live {
      var t :| t in w.tasks && t < |w.issued| && w.issued[t] == w.pool.live[id];
      assert Guards(w, t, w.pool.live[id]);
      assert TokensUnique(w.issued);
    }
  }

  /** A stale guard, dropped whenever and however often, releases nobody else's slot. */
  lemma StaleDropReleasesNothing(env: Env, w: World, t: nat)
    requires Enabled(env, w, LoseGuard(t)) && LiveOk(w.pool.records, w.pool.live)
    ensures forall id :: id in w.pool.live && w.pool.live[id] != w.issued[t] ==>
              id in Step(env, w, LoseGuard(t)).pool.live && Step(env, w, LoseGuard(t)).pool.live[id] == w.pool.live[id]
    ensures !Owns(w.pool, w.issued[t]) ==> Step(env, w, LoseGuard(t)).pool == w.pool
  {
    hide ResumeStep, ReconcileStep, ClaimStep, AdmitStep, TerminalStep, LedgerStep, Transfer, Normalize, Terminal;
  }

  // ---------- fees ----------

  /**
  Each incarnation of a spend accrues its fee split at most once, and only when it is final.
  */
  lemma FeeAccruedOnce(env: Env, ws: seq<World>, es: seq<Event>, n: nat)
    requires env.SoundMac() && Run(env, ws, es) && n < |ws|
    ensures forall k, m :: 0 <= k < m < |ws[n].accruals| ==> ws[n].accruals[k].birth != ws[n].accruals[m].birth
    ensures forall k, id :: 0 <= k < |ws[n].accruals| && id in ws[n].births
                            && ws[n].births[id] == ws[n].accruals[k].birth ==>
              id in ws[n].pool.records && ws[n].pool.records[id].status == Finalized
  {
    ReachableInv(env, ws, es, n);
    assert AccruedOnce(ws[n].accruals);
  }

  /** Accrual `i` falls into window `k`; the window after the last flush is the open one. */
  ghost predicate InWindow(w: World, i: nat, k: nat) {
    && i < |w.accruals| && k <= |w.flushes|
    && Cut(w.flushes, k) <= i
    && (k < |w.flushes| ==> i < w.flushes[k].upTo)
  }

  ghost predicate InOneWindow(w: World, i: nat) {
    exists k :: InWindow(w, i, k) && forall m :: InWindow(w, i, m) ==> m == k
  }

  /**
  Fee conservation across flushes: every accrual belongs to exactly one window, each published row
  is the saturating sum of exactly its window's accruals, and the cell holds the open window's sum.
  */
  lemma FeesFlushedOnce(env: Env, ws: seq<World>, es: seq<Event>, n: nat)
    requires env.SoundMac() && Run(env, ws, es) && n < |ws|
    ensures forall i: nat :: i < |ws[n].accruals| ==> InOneWindow(ws[n], i)
    ensures FeesOk(ws[n].pool.accrued, ws[n].accruals, ws[n].flushes)
  {
    hide Run, FeesOk, InOneWindow;
    ReachableInv(env, ws, es, n);
    assert FeesOk(ws[n].pool.accrued, ws[n].accruals, ws[n].flushes) by {
      FeesOfInv(env, ws[n]);
    }
    forall i: nat | i < |ws[n].accruals| ensures InOneWindow(ws[n], i) {
      OneWindow(ws[n], i);
    }
  }

  lemma FeesOfInv(env: Env, w: World)
    requires Inv(env, w)
    ensures FeesOk(w.pool.accrued, w.accruals, w.flushes)
  {
  }

  lemma OneWindow(w: World, i: nat)
    requires FeesOk(w.pool.accrued, w.accruals, w.flushes) && i < |w.accruals|
    ensures InOneWindow(w, i)
  {
    hide AccrualTotal;
    var k := WindowOf(w, i, |w.flushes|);
    forall m | InWindow(w, i, m) ensures m == k {
      if k < m {
        CutsGrow(w.accruals, w.flushes, k + 1, m);
      } else if m < k {
        CutsGrow(w.accruals, w.flushes, m + 1, k);
      }
    }
  }

  lemma {:induction false} WindowOf(w: World, i: nat, n: nat) returns (k: nat)
    requires i < |w.accruals| && n <= |w.flushes|
    requires n < |w.flushes| ==> i < w.flushes[n].upTo
    ensures InWindow(w, i, k)
    decreases n
  {
    if Cut(w.flushes, n) <= i {
      k := n;
    } else {
      k := WindowOf(w, i, n - 1);
    }
  }

  lemma {:induction false} CutsGrow(accruals: seq<Accrual>, flushes: seq<Flush>, i: nat, j: nat)
    requires i <= j <= |flushes| && forall k: nat :: k < |flushes| ==> WindowOk(accruals, flushes, k)
    ensures Cut(flushes, i) <= Cut(flushes, j)
    decreases j
  {
    if i < j {
      assert WindowOk(accruals, flushes, j - 1);
      CutsGrow(accruals, flushes, i, j - 1);
    }
  }
}
