/**
What claims, normalizations, operators, admissions, boots and flushes do to the stored fields, and
exactly when each of them succeeds, in every reachable world. As in `PayoutLaws`, nothing is stated
through the functions the executor is specified by.
*/
module PayoutStanding {
  import opened Wrappers
  import opened ByteStrings
  import opened TokenLedger
  import opened PayoutTypes
  import opened PayoutSegments
  import opened PayoutWorld
  import opened PayoutInvariant
  import opened PayoutRuns
  import opened PayoutTheorems
  import opened PayoutLaws

  // ---------- normalization, claims, operators ----------

  /**
  How a record reads when nobody is at work on it: a submitting one without an executor goes back
  to pending if nothing was dispatched and nothing is in doubt, and is unknown otherwise.
  */
  function AtRest(rec: PendingSpend, taken: bool): PendingSpend {
    if rec.status != PayoutSubmitting || taken then rec
    else if rec.payout.None? || rec.payout.value.retry.None? then rec.(status := PayoutUnknown)
    else
      var r := rec.payout.value.retry.value;
      if r.phase == PreDispatch && !r.priorAmbiguity then rec.(status := PayoutPending)
      else rec.(status := PayoutUnknown, payout := Some(rec.payout.value.(retry := Some(r.(priorAmbiguity := true)))))
  }

  /** The pool with record `id` at rest, if there is one. */
  function PoolAtRest(w: World, id: SpendId): Pool {
    if id !in w.pool.records then w.pool
    else w.pool.(records := w.pool.records[id := AtRest(w.pool.records[id], id in w.pool.live)])
  }

  lemma StoredIsNormalizable(env: Env, w: World, id: SpendId)
    requires Inv(env, w)
    ensures Normalize(w.pool, id).0 == PoolAtRest(w, id)
    ensures Normalize(w.pool, id).1 ==
              if id in w.pool.records then Ok(AtRest(w.pool.records[id], id in w.pool.live)) else Err(SpendNotFound)
  {
    hide SequencesDistinct, LiveOk, LiveHasTask, IssuedOk, TasksOk, PinsOk, CallsOk, StickyOk;
    hide LedgersOk, AnswersOk, SettledOk, BirthsOk, FeesOk;
    if id in w.pool.records {
      assert RecordOk(w.pool.control, w.pins, id, w.pool.records[id]);
      assert w.pool.records[id := w.pool.records[id]] == w.pool.records;
    }
  }

  lemma NormalizationRests(env: Env, w: World, id: SpendId, next: World)
    requires Leads(env, w, Normalized(id), next)
    ensures next == w.(pool := PoolAtRest(w, id))
  {
    hide Leads, Inv, Normalize, AtRest;
    LeadsFacts(env, w, Normalized(id), next);
    StoredIsNormalizable(env, w, id);
  }

  /** Free to be claimed: payable, with a generation left, and one of the 64 slots free and not yet its own. */
  predicate Claimable(p: Pool, id: SpendId) {
    && id in p.records && p.records[id].HasRetry() && p.records[id].Retry().generation < U64_MAX
    && |p.live| < 64 && id !in p.live
    && (|| p.records[id].status == PayoutPending
        || (p.records[id].status == PayoutSubmitting
            && p.records[id].Retry().phase == PreDispatch && !p.records[id].Retry().priorAmbiguity))
  }

  /** The claim's token, and the record as the claim leaves it: submitting under that token, nothing dispatched by it. */
  predicate ClaimedBy(p: Pool, id: SpendId, a: Attempt, p': Pool) {
    && id in p.records && p.records[id].HasRetry()
    && var rec, r := p.records[id], p.records[id].Retry();
    && a == Attempt(id, r.memoSequence, r.generation + 1, p.control.boot)
    && p' == p.(live := p.live[id := a],
                records := p.records[id := rec.(
                  status := PayoutSubmitting,
                  payout := Some(rec.payout.value.(
                    retry := Some(r.(generation := r.generation + 1, boot := p.control.boot, phase := PreDispatch)))))])
  }

  /** A claim succeeds exactly on a claimable spend; otherwise it only lets the record come to rest. */
  lemma ClaimsExactly(env: Env, w: World, id: SpendId, configured: Principal, next: World)
    requires Leads(env, w, Claims(id, configured), next)
    ensures Claimable(w.pool, id) ==>
              && |next.issued| == |w.issued| + 1 && ClaimedBy(w.pool, id, next.issued[|w.issued|], next.pool)
              && next == w.(pool := next.pool, issued := w.issued + [next.issued[|w.issued|]],
                            tasks := w.tasks[|w.issued| := AtStart(configured)])
    ensures !Claimable(w.pool, id) ==> next == w.(pool := PoolAtRest(w, id))
  {
    hide Leads, Inv, Claim, Claimable, ClaimedBy, PoolAtRest;
    LeadsFacts(env, w, Claims(id, configured), next);
    ClaimOfStored(env, w, id);
  }

  lemma ClaimOfStored(env: Env, w: World, id: SpendId)
    requires Inv(env, w)
    ensures
      var (p, claimed) := Claim(w.pool, id);
      if Claimable(w.pool, id) then claimed.Ok? && ClaimedBy(w.pool, id, claimed.value, p)
      else claimed.Err? && p == PoolAtRest(w, id)
  {
    hide Inv, Normalize;
    StoredIsNormalizable(env, w, id);
    OrdinalInRange(env, w, id);
    if Claimable(w.pool, id) {
      var rec := AtRest(w.pool.records[id], false);
      assert w.pool.records[id := rec][id := Claimed(rec, w.pool.control.boot)]
          == w.pool.records[id := Claimed(rec, w.pool.control.boot)];
    }
  }

  /** Why a claim is refused, in the order the reasons are looked at. */
  function ClaimRefusal(p: Pool, id: SpendId): Option<PoolError> {
    if id !in p.records then Some(SpendNotFound)
    else if AtRest(p.records[id], id in p.live).status != PayoutPending then Some(PayoutNotPending)
    else if !p.records[id].HasRetry() then Some(PayoutLegacyHold)
    else if |p.live| >= 64 then Some(PayoutExecutorBusy)
    else if p.records[id].Retry().generation >= U64_MAX then Some(PayoutStateInvalid)
    else None
  }

  lemma ClaimRefusedFor(env: Env, w: World, id: SpendId, configured: Principal, next: World)
    requires Leads(env, w, Claims(id, configured), next)
    ensures ClaimRefusal(w.pool, id).None? <==> Claimable(w.pool, id)
    ensures Claim(w.pool, id).1.Ok? <==> Claimable(w.pool, id)
    ensures !Claimable(w.pool, id) ==> Claim(w.pool, id).1 == Err(ClaimRefusal(w.pool, id).value)
  {
    hide Leads, Inv, Normalize;
    LeadsFacts(env, w, Claims(id, configured), next);
    StoredIsNormalizable(env, w, id);
    OrdinalInRange(env, w, id);
    SlotMeansSubmitting(env, w, id);
  }

  lemma SlotMeansSubmitting(env: Env, w: World, id: SpendId)
    requires Inv(env, w)
    ensures id in w.pool.live ==> id in w.pool.records && w.pool.records[id].status == PayoutSubmitting
  {
    hide SequencesDistinct, RecordsOk, LiveHasTask, IssuedOk, TasksOk, PinsOk, CallsOk, StickyOk;
    hide LedgersOk, AnswersOk, SettledOk, BirthsOk, FeesOk;
  }

  lemma OrdinalInRange(env: Env, w: World, id: SpendId)
    requires Inv(env, w)
    ensures id in w.pool.records && w.pool.records[id].HasRetry() ==> w.pool.records[id].Retry().memoSequence <= U128_MAX
  {
    hide SequencesDistinct, LiveOk, LiveHasTask, IssuedOk, TasksOk, PinsOk, CallsOk, StickyOk;
    hide LedgersOk, AnswersOk, SettledOk, BirthsOk, FeesOk;
    if id in w.pool.records {
      assert RecordOk(w.pool.control, w.pins, id, w.pool.records[id]);
    }
  }

  /** The transfers sent for record `id` are marked as cleared by an operator, all others are as they were. */
  ghost predicate ClearedFor(w: World, id: SpendId, calls: seq<Call>)
    requires id in w.pool.records && w.pool.records[id].HasRetry()
  {
    && |calls| == |w.calls|
    && forall c :: 0 <= c < |calls| ==>
         if w.calls[c].task < |w.issued| && w.issued[w.calls[c].task].sequence == w.pool.records[id].Retry().memoSequence
         then calls[c] == w.calls[c].(cleared := true) else calls[c] == w.calls[c]
  }

  /** An operator may assert a block for a spend at rest that is unknown, or pending without retry data. */
  predicate MayAssert(p: Pool, id: SpendId) {
    && id in p.records && p.records[id].payout.Some?
    && var rec := AtRest(p.records[id], id in p.live);
    rec.status == PayoutUnknown || (rec.status == PayoutPending && rec.payout.value.retry.None?)
  }

  /** And may revert to pending a spend at rest that is unknown and has its request frozen. */
  predicate MayRevert(p: Pool, id: SpendId) {
    && id in p.records && p.records[id].HasRetry() && p.records[id].Retry().frozen.Some?
    && AtRest(p.records[id], id in p.live).status == PayoutUnknown
  }

  /** Asserted: final with the operator's block, the split accrued once; nothing settled by a ledger. */
  predicate Asserted(w: World, id: SpendId, block: nat, next: World) {
    && id in w.pool.records && w.pool.records[id].payout.Some?
    && var rec := AtRest(w.pool.records[id], id in w.pool.live);
    && rec.payout.Some?
    && next == w.(pool := w.pool.(records := w.pool.records[id := PaidIn(rec, block)],
                                  accrued := Added(w.pool.accrued, rec.split)),
                  accruals := next.accruals)
    && Logged(w, id, rec.split, next.accruals)
  }

  /** Reverted: pending with its frozen request, and with the doubt it had. */
  ghost predicate Reverted(w: World, id: SpendId, next: World) {
    && id in w.pool.records && w.pool.records[id].HasRetry()
    && var rec := AtRest(w.pool.records[id], id in w.pool.live);
    && next == w.(pool := w.pool.(records := w.pool.records[id := rec.(status := PayoutPending)]), calls := next.calls)
    && ClearedFor(w, id, next.calls)
  }

  lemma ReconcilesExactly(env: Env, w: World, id: SpendId, outcome: PayoutOutcome, next: World)
    requires Leads(env, w, Reconciled(id, outcome), next)
    ensures outcome.Executed? && MayAssert(w.pool, id) ==> Asserted(w, id, outcome.block, next)
    ensures outcome.NotExecuted? && MayRevert(w.pool, id) ==> Reverted(w, id, next)
    ensures !(if outcome.Executed? then MayAssert(w.pool, id) else MayRevert(w.pool, id)) ==>
              next == w.(pool := PoolAtRest(w, id))
  {
    hide Leads, Inv, Reconcile, MayAssert, PoolAtRest, PoolAsserted, Asserted, AtRest;
    hide TerminalStep, ClearCalls, ClearedFor;
    LeadsFacts(env, w, Reconciled(id, outcome), next);
    ReconcileOfStored(env, w, id, outcome);
    StoredHasBirth(env, w, id);
    if outcome.Executed? && MayAssert(w.pool, id) {
      AssertableIsStored(w.pool, id);
      AssertionLogs(w, id, outcome.block);
    } else if outcome.NotExecuted? && MayRevert(w.pool, id) {
      RevertClears(w, id);
    } else {
      RestLogsNothing(w, id);
    }
  }

  /** The record names a final block already. */
  predicate FinalIn(p: Pool, id: SpendId, block: nat) {
    && id in p.records && p.records[id].status == Finalized
    && p.records[id].payout.Some? && p.records[id].payout.value.blockIndex == Some(block)
  }

  /** At rest, but without the frozen request that a revert would keep. */
  predicate NothingToRevert(p: Pool, id: SpendId) {
    && id in p.records
    && var rec := AtRest(p.records[id], id in p.live);
    if rec.HasRetry() then rec.status == PayoutUnknown && rec.Retry().frozen.None?
    else rec.status == PayoutUnknown || (rec.status == PayoutPending && rec.payout.Some?)
  }

  /** What the operator is told. */
  lemma ReconcileAnswers(env: Env, w: World, id: SpendId, outcome: PayoutOutcome, next: World)
    requires Leads(env, w, Reconciled(id, outcome), next)
    ensures
      var r := Reconcile(w.pool, id, outcome).1;
      && (forall b :: r == Ok(SettledAt(b)) <==> outcome == Executed(b) && MayAssert(w.pool, id))
      && (r == Ok(RevertedToPending) <==> outcome == NotExecuted && MayRevert(w.pool, id))
      && (forall b :: r == Ok(AlreadyExecuted(b)) <==> FinalIn(w.pool, id, b))
      && (r == Err(SpendNotFound) <==> id !in w.pool.records)
      && (r == Err(PayoutNotPending) <==>
            id in w.pool.records && AtRest(w.pool.records[id], id in w.pool.live).status == PayoutSubmitting)
      && (r == Err(PayoutLegacyHold) <==> outcome == NotExecuted && NothingToRevert(w.pool, id))
      && (r.Err? ==>
            r.error.SpendNotFound? || r.error.PayoutNotPending? || r.error.PayoutLegacyHold? || r.error.WrongSpendStatus?)
  {
    hide Leads, Inv, Normalize;
    LeadsFacts(env, w, Reconciled(id, outcome), next);
    StoredIsNormalizable(env, w, id);
  }

  lemma AssertableIsStored(p: Pool, id: SpendId)
    requires MayAssert(p, id)
    ensures id in p.records
  {
  }

  lemma StoredHasBirth(env: Env, w: World, id: SpendId)
    requires Inv(env, w)
    ensures id in w.pool.records <==> id in w.births
  {
    hide RecordsOk, SequencesDistinct, LiveOk, LiveHasTask, IssuedOk, TasksOk, PinsOk, CallsOk, StickyOk;
    hide LedgersOk, AnswersOk, SettledOk, FeesOk;
  }

  /** The operator's answer on the pool alone. */
  lemma ReconcileOfStored(env: Env, w: World, id: SpendId, outcome: PayoutOutcome)
    requires Inv(env, w)
    ensures
      var (p, r) := Reconcile(w.pool, id, outcome);
      if outcome.Executed? && MayAssert(w.pool, id) then
        r.Ok? && !r.value.RevertedToPending? && p == PoolAsserted(w, id, outcome.block)
      else if outcome.NotExecuted? && MayRevert(w.pool, id) then
        r == Ok(RevertedToPending) && p == PoolReverted(w, id)
      else (r.Ok? ==> r.value.AlreadyExecuted?) && p == PoolAtRest(w, id)
  {
    hide Inv, Normalize;
    StoredIsNormalizable(env, w, id);
    if outcome.Executed? && MayAssert(w.pool, id) {
      AssertsAtRest(Normalize(w.pool, id).0, id, outcome.block);
      var rec := AtRest(w.pool.records[id], id in w.pool.live);
      assert w.pool.records[id := rec][id := PaidIn(rec, outcome.block)]
          == w.pool.records[id := PaidIn(rec, outcome.block)];
    } else if outcome.NotExecuted? && MayRevert(w.pool, id) {
      var rec := AtRest(w.pool.records[id], id in w.pool.live);
      assert w.pool.records[id := rec][id := rec.(status := PayoutPending)]
          == w.pool.records[id := rec.(status := PayoutPending)];
    }
  }

  function PoolAsserted(w: World, id: SpendId, block: nat): Pool
    requires MayAssert(w.pool, id)
  {
    var rec := AtRest(w.pool.records[id], id in w.pool.live);
    w.pool.(records := w.pool.records[id := PaidIn(rec, block)], accrued := Added(w.pool.accrued, rec.split))
  }

  function PoolReverted(w: World, id: SpendId): Pool
    requires MayRevert(w.pool, id)
  {
    var rec := AtRest(w.pool.records[id], id in w.pool.live);
    w.pool.(records := w.pool.records[id := rec.(status := PayoutPending)])
  }

  /** Asserting a block for a record that is neither final nor failed. */
  lemma AssertsAtRest(p: Pool, id: SpendId, block: nat)
    requires id in p.records && p.records[id].payout.Some?
    requires p.records[id].status == PayoutUnknown || p.records[id].status == PayoutPending
    ensures Assert(p, id, block).1 == Ok(SettledAt(block))
    ensures Assert(p, id, block).0 == p.(records := p.records[id := PaidIn(p.records[id], block)],
                                         accrued := Added(p.accrued, p.records[id].split))
  {
  }

  /** A step that leaves every record short of final logs nothing. */
  lemma RestLogsNothing(w: World, id: SpendId)
    ensures TerminalStep(w, id, PoolAtRest(w, id)) == w.(pool := PoolAtRest(w, id))
  {
    assert w.accruals + [] == w.accruals;
  }

  lemma AssertionLogs(w: World, id: SpendId, block: nat)
    requires MayAssert(w.pool, id) && id in w.births
    ensures Asserted(w, id, block, TerminalStep(w, id, PoolAsserted(w, id, block)))
  {
    assert w.accruals + [] == w.accruals;
  }

  lemma RevertClears(w: World, id: SpendId)
    requires MayRevert(w.pool, id)
    ensures TerminalStep(w, id, PoolReverted(w, id)) == w.(pool := PoolReverted(w, id))
    ensures ClearedFor(w, id, ClearCalls(w, id, PoolReverted(w, id)))
  {
    assert w.accruals + [] == w.accruals;
  }

  // ---------- admission and life cycle ----------

  /** The record of a spend admitted with payout terms: the terms as given, under the next ordinal. */
  function AdmittedRecord(c: Control, t: PayoutTerms, split: Option<FeeSplit>): PendingSpend {
    var retry := RetryState(c.next, 0, c.boot, PreDispatch, false, false, None);
    PendingSpend(Some(PublicPayout(t.destination, t.subaccount, t.gross, None, None, Some(retry))), PrePayout, split)
  }

  /** One more record, of a new incarnation. */
  predicate Stored(w: World, id: SpendId, rec: PendingSpend, control: Control, next: World) {
    next == w.(pool := w.pool.(records := w.pool.records[id := rec], control := control),
               births := w.births[id := w.nextBirth], nextBirth := w.nextBirth + 1)
  }

  /**
  Admission stores exactly the admitted terms and split. A payout-bearing spend takes the next
  ordinal, and is refused without a trace while there is no memo key or no ordinal left.
  */
  lemma AdmitsExactly(env: Env, w: World, id: SpendId, terms: Option<PayoutTerms>, split: Option<FeeSplit>, next: World)
    requires Leads(env, w, Admit(id, terms, split), next)
    ensures terms.None? ==> Stored(w, id, PendingSpend(None, PrePayout, split), w.pool.control, next)
    ensures terms.Some? && (w.pool.control.key.None? || w.pool.control.next == U128_MAX) ==> next == w
    ensures terms.Some? && w.pool.control.key.Some? && w.pool.control.next < U128_MAX ==>
              Stored(w, id, AdmittedRecord(w.pool.control, terms.value, split),
                     w.pool.control.(next := w.pool.control.next + 1), next)
    ensures ReserveSequence(w.pool).1.Err? ==>
              ReserveSequence(w.pool).1
              == Err(if w.pool.control.key.None? then PayoutMemoKeyNotReady else PayoutStateInvalid)
  {
    hide Leads;
    LeadsFacts(env, w, Admit(id, terms, split), next);
    ControlInRange(env, w);
  }

  lemma ControlInRange(env: Env, w: World)
    requires Inv(env, w)
    ensures w.pool.control.Valid()
  {
  }

  /** A spend without payout becomes final, and its split is accrued. */
  lemma FinishesWithoutPayout(env: Env, w: World, id: SpendId, next: World)
    requires Leads(env, w, FinishWithoutPayout(id), next)
    ensures id in w.pool.records
    ensures
      var rec := w.pool.records[id];
      && next == w.(pool := w.pool.(records := w.pool.records[id := rec.(status := Finalized)],
                                    accrued := Added(w.pool.accrued, rec.split)),
                    accruals := next.accruals)
      && Logged(w, id, rec.split, next.accruals)
  {
    hide Leads, Inv;
    LeadsFacts(env, w, FinishWithoutPayout(id), next);
    StoredHasBirth(env, w, id);
    assert w.accruals + [] == w.accruals;
  }

  /** The key is written once: by a 32-byte beacon that arrives in the boot it was asked for, while there is none. */
  lemma ProvisionsOnce(env: Env, w: World, boot: nat, beacon: Option<Bytes>, next: World)
    requires Leads(env, w, Provision(boot, beacon), next)
    ensures
      if beacon.Some? && |beacon.value| == 32 && w.pool.control.boot == boot && w.pool.control.key.None?
      then next == w.(pool := w.pool.(control := w.pool.control.(key := beacon)))
      else next == w
    ensures ProvisionKey(w.pool, boot, beacon).1 ==
              if beacon.None? || |beacon.value| != 32 then Err(PayoutMemoKeyNotReady)
              else if w.pool.control.boot != boot then Err(PayoutStateInvalid) else Ok(true)
  {
    hide Leads, Inv;
    LeadsFacts(env, w, Provision(boot, beacon), next);
  }

  /** A boot advances the boot number by one and empties the executor map; records and futures stay. */
  lemma BootEmptiesSlots(env: Env, w: World, next: World)
    requires Leads(env, w, Upgraded, next)
    ensures next == w.(pool := w.pool.(control := w.pool.control.(boot := w.pool.control.boot + 1), live := map[]))
    ensures w.pool.control.boot < U64_MAX
    ensures forall p: Pool :: Upgrade(p).None? <==> p.control.boot >= U64_MAX
  {
    hide Leads, Inv;
    LeadsFacts(env, w, Upgraded, next);
  }

  /** A future that vanishes gives up its slot if it still holds it, and nothing else. */
  lemma VanishedGuard(env: Env, w: World, t: nat, next: World)
    requires Leads(env, w, LoseGuard(t), next) && t < |w.issued|
    ensures
      var a := w.issued[t];
      if a.id in w.pool.live && w.pool.live[a.id] == a
      then next == w.(pool := SlotFree(w.pool, a.id), tasks := w.tasks - {t})
      else next == w.(tasks := w.tasks - {t})
  {
    hide Leads, Inv;
    LeadsFacts(env, w, LoseGuard(t), next);
  }

  /** A flush publishes what the window accrued and starts the next one at zero. */
  lemma FlushTakesAll(env: Env, w: World, next: World)
    requires Leads(env, w, FlushFees, next)
    ensures next == w.(pool := w.pool.(accrued := FeeSplit(0, 0, 0)),
                       flushes := w.flushes + [Flush(|w.accruals|, w.pool.accrued)])
  {
    hide Leads, Inv;
    LeadsFacts(env, w, FlushFees, next);
  }

  // ---------- what is accrued ----------

  datatype Reserve = Operations | Insurance | Staking

  function ShareOf(split: FeeSplit, r: Reserve): nat {
    match r
    case Operations => split.operations
    case Insurance => split.insurance
    case Staking => split.staking
  }

  /** The plain sum of one reserve's shares. */
  function SumOf(accruals: seq<Accrual>, r: Reserve): nat {
    if accruals == [] then 0
    else SumOf(accruals[..|accruals| - 1], r) + ShareOf(accruals[|accruals| - 1].split, r)
  }

  /** Each reserve's accrual is the sum of that reserve's own shares, cut off at 128 bits. */
  lemma {:induction false} AccrualIsTheSum(accruals: seq<Accrual>, r: Reserve)
    ensures ShareOf(AccrualTotal(accruals), r) == Min(SumOf(accruals, r), U128_MAX)
  {
    if accruals != [] {
      AccrualIsTheSum(accruals[..|accruals| - 1], r);
    }
  }

  /** Every published row, and the open window's cell, hold per reserve the sum of their own window's shares. */
  lemma WindowsHoldSums(env: Env, ws: seq<World>, es: seq<Event>, n: nat, k: nat, r: Reserve)
    requires env.SoundMac() && Run(env, ws, es) && n < |ws|
    ensures Cut(ws[n].flushes, |ws[n].flushes|) <= |ws[n].accruals|
    ensures ShareOf(ws[n].pool.accrued, r)
         == Min(SumOf(ws[n].accruals[Cut(ws[n].flushes, |ws[n].flushes|)..], r), U128_MAX)
    ensures k < |ws[n].flushes| ==>
              && Cut(ws[n].flushes, k) <= ws[n].flushes[k].upTo <= |ws[n].accruals|
              && ShareOf(ws[n].flushes[k].row, r)
                 == Min(SumOf(ws[n].accruals[Cut(ws[n].flushes, k)..ws[n].flushes[k].upTo], r), U128_MAX)
  {
    hide Run, Inv, AccrualTotal, ShareOf, SumOf;
    ReachableInv(env, ws, es, n);
    FeesOfInv(env, ws[n]);
    AccrualIsTheSum(ws[n].accruals[Cut(ws[n].flushes, |ws[n].flushes|)..], r);
    if k < |ws[n].flushes| {
      assert WindowOk(ws[n].accruals, ws[n].flushes, k);
      AccrualIsTheSum(ws[n].accruals[Cut(ws[n].flushes, k)..ws[n].flushes[k].upTo], r);
    }
  }

  // ---------- what a stored record satisfies ----------

  /** The frozen request agrees with the record it belongs to. */
  predicate RequestFits(p: PublicPayout, f: FrozenPayout) {
    && f.amount > 0 && f.fee.Some? && f.amount + f.fee.value == p.publicAmount
    && f.destination == p.destination && f.destinationSubaccount == p.destinationSubaccount
    && f.memo.Some? && |f.memo.value| == 32
    && f.createdAt.Some? && f.createdAt == p.ledgerCreatedAt
  }

  /** What a payout record must satisfy to be used at all. */
  predicate RetryFits(p: PublicPayout, c: Control) {
    p.retry.Some? ==>
      var r := p.retry.value;
      && 1 <= r.boot <= c.boot && r.memoSequence < c.next
      && (r.dispatched ==> r.frozen.Some?)
      && (r.phase == MayHaveDispatched ==> r.dispatched && r.generation > 0)
      && (r.frozen.Some? ==> r.generation > 0 && RequestFits(p, r.frozen.value))
  }

  /** `validate_retry` written out, for amounts in range. */
  lemma ValidExactly(p: PublicPayout, c: Control)
    requires p.publicAmount <= U128_MAX && c.Valid()
    ensures ValidateRetry(p, c).Ok? <==> RetryFits(p, c)
  {
  }

  /** Every payout record of every reachable world satisfies it, whatever happened to the spend. */
  lemma StoredRecordsFit(env: Env, ws: seq<World>, es: seq<Event>, n: nat, id: SpendId)
    requires env.SoundMac() && Run(env, ws, es) && n < |ws|
    requires id in ws[n].pool.records && ws[n].pool.records[id].payout.Some?
    ensures RetryFits(ws[n].pool.records[id].payout.value, ws[n].pool.control)
  {
    hide Run, ValidateRetry, RetryFits;
    AlwaysValid(env, ws, es, n, id);
    ReachableInv(env, ws, es, n);
    assert RecordOk(ws[n].pool.control, ws[n].pins, id, ws[n].pool.records[id]);
    ValidExactly(ws[n].pool.records[id].payout.value, ws[n].pool.control);
  }

  // ---------- guards on any stored data ----------

  /**
  The terminal transition on any pool: a missing record, a final one and a block without payout are
  told apart; a failed record keeps its status; the block is noted and the split accrued otherwise.
  */
  lemma TerminatesExactly(p: Pool, id: SpendId, block: Option<nat>)
    ensures id !in p.records ==> Terminal(p, id, block) == (p, Err(SpendNotFound))
    ensures id in p.records && p.records[id].status == Finalized ==> Terminal(p, id, block) == (p, Ok(()))
    ensures id in p.records && p.records[id].status != Finalized && block.Some? && p.records[id].payout.None? ==>
              Terminal(p, id, block) == (p, Err(WrongSpendStatus))
    ensures id in p.records && p.records[id].status != Finalized && (block.Some? ==> p.records[id].payout.Some?) ==>
              var rec := p.records[id];
              var noted := if block.Some? then Some(rec.payout.value.(blockIndex := block)) else rec.payout;
              var status := if rec.status == Failed then Failed else Finalized;
              Terminal(p, id, block) ==
              (p.(records := p.records[id := PendingSpend(noted, status, rec.split)],
                  accrued := Added(p.accrued, rec.split)), Ok(()))
  {
  }

  /** A record that does not fit, and a submitting one without any claim, are left exactly as they are. */
  predicate Malformed(p: Pool, id: SpendId) {
    && id in p.records && p.records[id].payout.Some?
    && (|| !RetryFits(p.records[id].payout.value, p.control)
        || (p.records[id].status == PayoutSubmitting && id !in p.live && p.records[id].HasRetry()
            && p.records[id].Retry().generation == 0))
  }

  lemma MalformedIsLeftAlone(p: Pool, id: SpendId, outcome: PayoutOutcome)
    requires Malformed(p, id) && p.records[id].payout.value.publicAmount <= U128_MAX && p.control.Valid()
    ensures Normalize(p, id) == (p, Err(PayoutStateInvalid))
    ensures Claim(p, id) == (p, Err(PayoutStateInvalid))
    ensures Reconcile(p, id, outcome) == (p, Err(PayoutStateInvalid))
  {
    hide ValidateRetry, RetryFits;
    ValidExactly(p.records[id].payout.value, p.control);
  }

  /** Why a future is no longer the owner: its record is gone, has no retry data, or is not its own any more. */
  function Disowned(p: Pool, a: Attempt): PoolError {
    if a.id !in p.records then SpendNotFound
    else if p.records[a.id].payout.None? || p.records[a.id].payout.value.retry.None? then PayoutLegacyHold
    else PayoutStateInvalid
  }

  /** The record, the token and the slot all agree. */
  predicate Agrees(p: Pool, a: Attempt) {
    && a.id in p.records && p.records[a.id].HasRetry() && p.records[a.id].status == PayoutSubmitting
    && var r := p.records[a.id].Retry();
    && a == Attempt(a.id, r.memoSequence, r.generation, r.boot)
    && a.sequence <= U128_MAX && a.id in p.live && p.live[a.id] == a
  }

  /** Without that agreement every segment changes nothing and says why; no segment needs more to go on. */
  lemma DisownedIsTold(env: Env, w: World, t: nat, wake: Wake)
    requires t in w.tasks && t < |w.issued| && Wakes(w, w.tasks[t], wake)
    ensures Owns(w.pool, w.issued[t]) <==> Agrees(w.pool, w.issued[t])
    ensures !Agrees(w.pool, w.issued[t]) ==>
              Segment(env, w, w.issued[t], w.tasks[t], wake) == (w.pool, Finished(Err(Disowned(w.pool, w.issued[t]))))
  {
    hide Dispatch, FinishError, Terminal, ValidateRetry;
  }

  /** Should the memo key be missing after all, nothing is frozen or sent. */
  lemma MissingKeyRefuses(env: Env, p: Pool, a: Attempt, ledger: Principal, fee: nat, stamp: nat)
    requires Agrees(p, a) && p.control.key.None? && fee < p.records[a.id].payout.value.publicAmount
    ensures
      var rec := p.records[a.id];
      var status := if rec.Retry().priorAmbiguity then PayoutUnknown else PayoutPending;
      AfterFee(env, p, a, ledger, Some(fee), stamp) ==
      (p.(records := p.records[a.id := rec.(status := status)]), Finished(Err(PayoutMemoKeyNotReady)))
  {
  }

  /** A start over a record that does not fit ends at once. */
  lemma MalformedStartRefused(p: Pool, a: Attempt, configured: Principal)
    requires Agrees(p, a) && p.records[a.id].payout.value.publicAmount <= U128_MAX && p.control.Valid()
    requires !RetryFits(p.records[a.id].payout.value, p.control)
    ensures Begin(p, a, configured) == (p, Finished(Err(PayoutStateInvalid)))
  {
    hide ValidateRetry, RetryFits;
    ValidExactly(p.records[a.id].payout.value, p.control);
  }
}
