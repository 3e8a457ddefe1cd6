/**
Progress: how the ledger answers a payout's transfer, and that an undisturbed payout pays.
*/
module PayoutProgress {
  import opened Wrappers
  import opened ByteStrings
  import opened TokenLedger
  import opened PayoutTypes
  import opened PayoutSegments
  import opened PayoutWorld
  import opened PayoutInvariant
  import opened PayoutRuns
  import opened PayoutTheorems
  import opened PayoutLaws
  import opened PayoutStanding

  // ---------- the ledger's answer to a payout ----------

  /** The ledger's log holds the payout already. */
  ghost predicate InLog(env: Env, l: Ledger, request: FrozenPayout) {
    exists i :: 0 <= i < |l.blocks| && l.blocks[i].key == IdentityOf(env.self, request.Args())
  }

  /** The ledger still charges the frozen fee, takes the stamp for current, and can move the money. */
  predicate Payable(request: FrozenPayout, cond: Conditions) {
    && request.fee == Some(cond.fee) && request.createdAt.Some? && InTime(request.createdAt.value, cond.now)
    && request.amount + cond.fee <= cond.liquid && cond.creditFits
  }

  /** The ledger answers transfer `c`; the spend itself is not touched by that. */
  predicate Answered(w: World, c: nat, reply: Reply, next: World) {
    && c < |w.calls|
    && next == w.(ledgers := next.ledgers, calls := w.calls[c := w.calls[c].(answer := Some(reply))])
  }

  /**
  A payout's transfer is executed exactly when the ledger's log does not hold it yet and the ledger
  charges the frozen fee, takes the stamp for current, and can move the money; then it is answered
  with the new block. A payout the log does hold is never executed again.
  */
  lemma PayoutTransferExactly(env: Env, w: World, c: nat, cond: Conditions, next: World)
    requires Leads(env, w, LedgerHandles(c, cond), next) && c < |w.calls|
    requires w.calls[c].request.ledger in w.ledgers
    ensures next.calls != [] && c < |next.calls| && next.calls[c].answer.Some?
    ensures
      var request, reply := w.calls[c].request, next.calls[c].answer.value;
      var l := w.ledgers[request.ledger];
      && Answered(w, c, reply, next)
      && next.ledgers == w.ledgers[request.ledger := next.ledgers[request.ledger]]
      && (reply.Accepted? <==> Payable(request, cond) && !InLog(env, l, request))
      && next.ledgers[request.ledger].blocks ==
           (if reply.Accepted? then l.blocks + [Block(IdentityOf(env.self, request.Args()), cond.fee)] else l.blocks)
      && (reply.Accepted? ==> reply.block == |l.blocks|)
  {
    hide Leads, Inv, Transfer, LedgerInv, Payable, InLog, IdentityOf;
    LeadsFacts(env, w, LedgerHandles(c, cond), next);
    SentInRange(env, w, c);
    PayoutAnswer(env, w.ledgers[w.calls[c].request.ledger], cond, w.calls[c].request);
  }

  /** What every transfer in flight satisfies. */
  predicate WellFormed(request: FrozenPayout) {
    && request.createdAt.Some? && request.fee.Some?
    && 0 < request.amount && request.amount + request.fee.value <= U128_MAX
  }

  lemma SentInRange(env: Env, w: World, c: nat)
    requires c < |w.calls|
    requires Inv(env, w)
    ensures WellFormed(w.calls[c].request)
    ensures w.calls[c].request.ledger in w.ledgers ==> LedgerInv(w.ledgers[w.calls[c].request.ledger])
  {
    hide RecordsOk, SequencesDistinct, LiveOk, LiveHasTask, IssuedOk, TasksOk, StickyOk;
    hide AnswersOk, SettledOk, BirthsOk, FeesOk, LedgerInv;
    assert CallOk(w.issued, w.calls[c], w.pins);
    var s := w.issued[w.calls[c].task].sequence;
    assert PinOk(env, w.pool.control, s, w.pins[s]);
  }

  lemma PayoutAnswer(env: Env, l: Ledger, cond: Conditions, request: FrozenPayout)
    requires WellFormed(request) && l.now <= cond.now
    requires LedgerInv(l)
    ensures
      var (l', reply) := Transfer(l, cond, env.self, request.Args());
      && (reply.Accepted? <==> Payable(request, cond) && !InLog(env, l, request))
      && (reply.Accepted? ==> reply.block == |l.blocks|)
      && l'.blocks ==
           (if reply.Accepted? then l.blocks + [Block(IdentityOf(env.self, request.Args()), cond.fee)] else l.blocks)
  {
    hide LedgerInv, Transfer, IdentityOf;
    DatedTransferExactly(l, cond, env.self, request.Args(), request.createdAt.value);
  }

  // ---------- an undisturbed payout ----------

  /** The six events of one payout run of spend `id` on ledger `l`, as future `t` and transfer `c`. */
  function Undisturbed(id: SpendId, l: Principal, t: nat, c: nat, balance: nat, fee: nat, stamp: nat, cond: Conditions)
    : seq<Event>
  {
    [Claims(id, l), Resume(t, Poll), Resume(t, BalanceIs(Some(balance))), Resume(t, FeeIs(Some(fee), stamp)),
     LedgerHandles(c, cond), Resume(t, Replied)]
  }

  /** A claimable spend of `gross` that was never dispatched and has no request yet. */
  predicate Untried(w: World, id: SpendId, gross: nat) {
    && Claimable(w.pool, id)
    && var p := w.pool.records[id].payout.value;
    p.publicAmount == gross && p.retry.value.frozen.None? && !p.retry.value.dispatched
  }

  /** While a spend has no request yet, no ledger holds a block under its memo. */
  lemma UntriedIsUnpaid(env: Env, w: World, id: SpendId, gross: nat, l: Principal, request: FrozenPayout)
    requires env.SoundMac() && Untried(w, id, gross) && l in w.ledgers && w.pool.control.key.Some?
    requires request.memo == Some(env.Memo(w.pool.control.key.value, l, id, w.pool.records[id].Retry().memoSequence))
    requires Inv(env, w)
    ensures !InLog(env, w.ledgers[l], request)
  {
    hide SequencesDistinct, LiveOk, LiveHasTask, IssuedOk, TasksOk, StickyOk, CallsOk, LedgersOk, PinsOk;
    hide AnswersOk, SettledOk, BirthsOk, FeesOk, LedgerInv, Env.SoundMac, Env.Memo;
    assert RecordOk(w.pool.control, w.pins, id, w.pool.records[id]);
    var s := w.pool.records[id].Retry().memoSequence;
    if i :| 0 <= i < |w.ledgers[l].blocks| && w.ledgers[l].blocks[i].key == IdentityOf(env.self, request.Args()) {
      OwnBlockIsPinned(env, w, l, id, s, i);
    }
  }

  lemma StepLeads(env: Env, ws: seq<World>, es: seq<Event>, k: nat)
    requires env.SoundMac() && Run(env, ws, es) && k < |es|
    ensures |ws| == |es| + 1 && Leads(env, ws[k], es[k], ws[k + 1])
  {
    hide Env.SoundMac, Init, Enabled, Step;
    assert StepAt(ws, es, k, ws[k], es[k], ws[k + 1]);
  }

  /** Future `t` holds the slot of spend `id`, whose terms and ordinal are still those of `p`; ledgers are as in `w0`. */
  predicate Underway(w0: World, w: World, t: nat, id: SpendId, p: PublicPayout) {
    && Holder(w, t) && w.issued[t].id == id && w.ledgers == w0.ledgers && w.pool.control == w0.pool.control
    && p.retry.Some? && w.issued[t].sequence == p.retry.value.memoSequence
    && var q := RecordOf(w, t).payout.value;
    && q.destination == p.destination && q.destinationSubaccount == p.destinationSubaccount
    && q.publicAmount == p.publicAmount
  }

  /** The claim and the two answers of the preflight: nothing has been sent yet. */
  lemma Preflight(env: Env, w0: World, w1: World, w2: World, w3: World, id: SpendId, l: Principal,
                  balance: nat, gross: nat)
    requires Leads(env, w0, Claims(id, l), w1)
    requires Leads(env, w1, Resume(|w0.issued|, Poll), w2)
    requires Leads(env, w2, Resume(|w0.issued|, BalanceIs(Some(balance))), w3)
    requires Untried(w0, id, gross) && gross <= balance
    ensures Underway(w0, w3, |w0.issued|, id, w0.pool.records[id].payout.value)
    ensures w3.tasks[|w0.issued|] == AwaitFee(l) && w3.calls == w0.calls
    ensures RecordOf(w3, |w0.issued|).Retry().frozen.None?
  {
    hide Leads, PoolAtRest;
    var t := |w0.issued|;
    ClaimsExactly(env, w0, id, l, w1);
    StartAsksBalance(env, w1, t, w2);
    EnoughBalanceAsksFee(env, w2, t, balance, w3);
  }

  /** The fee reply sends the request, and the ledger executes it. */
  lemma SentAndExecuted(env: Env, w0: World, w3: World, w4: World, w5: World, id: SpendId, l: Principal,
                        t: nat, fee: nat, stamp: nat, cond: Conditions, gross: nat)
    requires Leads(env, w3, Resume(t, FeeIs(Some(fee), stamp)), w4)
    requires Leads(env, w4, LedgerHandles(|w0.calls|, cond), w5)
    requires Inv(env, w0) && env.SoundMac()
    requires Untried(w0, id, gross) && l in w0.ledgers
    requires Underway(w0, w3, t, id, w0.pool.records[id].payout.value) && w3.calls == w0.calls
    requires w3.tasks[t] == AwaitFee(l) && fee < gross
    requires cond.fee == fee && InTime(stamp, cond.now) && gross <= cond.liquid && cond.creditFits
    ensures w0.pool.control.key.Some?
    ensures Executed(env, w0, w5, t, id, l, fee, stamp)
  {
    hide Leads, Inv, PoolAtRest, Env.SoundMac, IdentityOf, Env.Memo, InLog;
    var p := w0.pool.records[id].payout.value;
    FeeReplyFreezes(env, w3, t, fee, stamp, w4);
    var request := RequestFor(env, w0.pool.control.key.value, w3.issued[t], p, l, fee, stamp);
    assert w4.calls[|w0.calls|].request == request;
    PayoutTransferExactly(env, w4, |w0.calls|, cond, w5);
    RequestMeans(env, w0.pool.control.key.value, w3.issued[t], p, l, fee, stamp);
    UntriedIsUnpaid(env, w0, id, gross, l, request);
  }

  /** The block one payout appends: the gross amount less the fee to the destination, the fee to the ledger. */
  predicate PaysOut(b: Block, self: Principal, p: PublicPayout, fee: nat) {
    && b.key.from == Account(self, None)
    && b.key.to == (if p.destinationSubaccount == Some(Zeros(32)) then Account(p.destination, None)
                    else Account(p.destination, p.destinationSubaccount))
    && b.key.amount + fee == p.publicAmount && b.charged == fee
  }

  lemma RequestMeans(env: Env, key: Bytes, a: Attempt, p: PublicPayout, l: Principal, fee: nat, stamp: nat)
    requires fee <= p.publicAmount
    ensures
      var request := RequestFor(env, key, a, p, l, fee, stamp);
      && request.memo == Some(env.Memo(key, l, a.id, a.sequence))
      && PaysOut(Block(IdentityOf(env.self, request.Args()), fee), env.self, p, fee)
  {
  }

  /** The payout is in the ledger's log, and its future still holds the slot and waits for the answer. */
  predicate Executed(env: Env, w0: World, w: World, t: nat, id: SpendId, l: Principal, fee: nat, stamp: nat) {
    && l in w0.ledgers && l in w.ledgers && id in w0.pool.records && w0.pool.records[id].payout.Some?
    && Holder(w, t) && w.issued[t].id == id && w.tasks[t] == AwaitTransfer(|w0.calls|)
    && |w.calls| == |w0.calls| + 1 && w.calls[|w0.calls|].answer == Some(Accepted(|w0.ledgers[l].blocks|))
    && |w.ledgers[l].blocks| == |w0.ledgers[l].blocks| + 1
    && w.ledgers[l].blocks[..|w0.ledgers[l].blocks|] == w0.ledgers[l].blocks
    && PaysOut(w.ledgers[l].blocks[|w0.ledgers[l].blocks|], env.self, w0.pool.records[id].payout.value, fee)
  }

  /** The spend is final with exactly one new block, which pays its destination the amount less the fee; the slot is free. */
  predicate PaidOnce(env: Env, w0: World, w: World, id: SpendId, l: Principal, fee: nat) {
    && id in w0.pool.records && w0.pool.records[id].payout.Some? && l in w0.ledgers && l in w.ledgers
    && var n := |w0.ledgers[l].blocks|;
    && id in w.pool.records && w.pool.records[id].status == Finalized && w.pool.records[id].payout.Some?
    && w.pool.records[id].payout.value.blockIndex == Some(n) && id !in w.pool.live
    && |w.ledgers[l].blocks| == n + 1 && w.ledgers[l].blocks[..n] == w0.ledgers[l].blocks
    && PaysOut(w.ledgers[l].blocks[n], env.self, w0.pool.records[id].payout.value, fee)
  }

  /**
  An undisturbed payout pays. In any reachable world, a claimable spend that was never tried, once
  claimed and answered with enough balance and a fee below its amount, is paid out: if the ledger
  handles the transfer while it still charges that fee, takes the stamp for current, and can move the
  money, the spend ends final with exactly one new block, for its destination and its amount less the fee.
  */
  lemma UndisturbedPayoutPays(env: Env, ws: seq<World>, es: seq<Event>, n: nat, id: SpendId, l: Principal,
                              balance: nat, fee: nat, stamp: nat, cond: Conditions, gross: nat)
    requires env.SoundMac() && Run(env, ws, es) && n + 6 <= |es| && |ws| == |es| + 1
    requires es[n..n + 6] == Undisturbed(id, l, |ws[n].issued|, |ws[n].calls|, balance, fee, stamp, cond)
    requires Untried(ws[n], id, gross) && l in ws[n].ledgers && fee < gross <= balance
    requires cond.fee == fee && InTime(stamp, cond.now) && gross <= cond.liquid && cond.creditFits
    ensures PaidOnce(env, ws[n], ws[n + 6], id, l, fee)
  {
    hide Run, Leads, Inv, Env.SoundMac, Untried, PaidOnce;
    var t := |ws[n].issued|;
    forall k | n <= k < n + 6
      ensures Leads(env, ws[k], Undisturbed(id, l, t, |ws[n].calls|, balance, fee, stamp, cond)[k - n], ws[k + 1])
    {
      assert es[k] == es[n..n + 6][k - n];
      StepLeads(env, ws, es, k);
    }
    ReachableInv(env, ws, es, n);
    assert Leads(env, ws[n + 0], Claims(id, l), ws[n + 1]);
    Preflight(env, ws[n], ws[n + 1], ws[n + 2], ws[n + 3], id, l, balance, gross);
    SentAndExecuted(env, ws[n], ws[n + 3], ws[n + 4], ws[n + 5], id, l, t, fee, stamp, cond, gross);
    AnswerTaken(env, ws[n], ws[n + 5], ws[n + 6], t, id, l, fee, stamp);
  }

  lemma AnswerTaken(env: Env, w0: World, w5: World, w6: World, t: nat, id: SpendId, l: Principal, fee: nat, stamp: nat)
    requires Leads(env, w5, Resume(t, Replied), w6) && Executed(env, w0, w5, t, id, l, fee, stamp)
    ensures PaidOnce(env, w0, w6, id, l, fee)
  {
    hide Leads;
    ConfirmationFinalizes(env, w5, t, |w0.ledgers[l].blocks|, w6);
  }
}
