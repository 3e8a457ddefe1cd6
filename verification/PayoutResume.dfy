/**
Waking a suspended payout future keeps the invariant, whichever segment it runs: it is stale and
leaves, it asks another question, it sends its transfer, it fails, or it ends on a confirmation.
*/
module PayoutResume {
  import opened Wrappers
  import opened ByteStrings
  import opened TokenLedger
  import opened PayoutTypes
  import opened PayoutSegments
  import opened PayoutWorld
  import opened PayoutInvariant
  import opened PayoutPreserved

  // ---------- asking ----------

  lemma AskKeeps(env: Env, w: World, t: nat, pc: Pc)
    requires t in w.tasks && t < |w.issued| && Owns(w.pool, w.issued[t])
    requires !pc.AwaitTransfer? && !w.tasks[t].AwaitTransfer?
    requires Expects(w.pool.records[w.issued[t].id], pc)
    requires Inv(env, w)
    ensures Inv(env, w.(tasks := w.tasks[t := pc]))
  {
    AskSlots(w.pool.live, w.issued, w.tasks, t, pc);
    AskTasks(w, t, pc);
  }

  lemma AskSlots(live: map<SpendId, Attempt>, issued: seq<Attempt>, tasks: map<nat, Pc>, t: nat, pc: Pc)
    requires LiveHasTask(live, issued, tasks) && t in tasks
    ensures LiveHasTask(live, issued, tasks[t := pc])
  {
    forall id | id in live ensures exists u :: u in tasks[t := pc] && u < |issued| && issued[u] == live[id] {
      var u :| u in tasks && u < |issued| && issued[u] == live[id];
      assert u in tasks[t := pc];
    }
  }

  lemma AskTasks(w: World, t: nat, pc: Pc)
    requires TasksOk(w.pool.records, w.pool.live, w.issued, w.tasks, w.calls)
    requires t in w.tasks && Owns(w.pool, w.issued[t])
    requires !pc.AwaitTransfer? && !w.tasks[t].AwaitTransfer?
    requires Expects(w.pool.records[w.issued[t].id], pc)
    ensures TasksOk(w.pool.records, w.pool.live, w.issued, w.tasks[t := pc], w.calls)
  {
    var tasks' := w.tasks[t := pc];
    forall u | u in tasks' ensures u < |w.issued| && TaskOk(w.pool.records, w.pool.live, w.issued[u], u, tasks'[u], w.calls) {
      assert TaskOk(w.pool.records, w.pool.live, w.issued[u], u, w.tasks[u], w.calls);
    }
  }

  // ---------- failing ----------

  /** A failure may be called unambiguous only if every transfer of this future was refused. */
  ghost predicate Accounted(calls: seq<Call>, t: nat, ambiguous: bool) {
    forall c :: 0 <= c < |calls| && calls[c].task == t ==> calls[c].refused || ambiguous
  }

  lemma FailKeeps(env: Env, w: World, t: nat, calls': seq<Call>, ambiguous: bool)
    requires t in w.tasks && t < |w.issued| && Owns(w.pool, w.issued[t])
    requires FlagsOnly(w.calls, calls') && Accounted(calls', t, ambiguous)
    requires ambiguous ==> w.pool.records[w.issued[t].id].Retry().dispatched
    requires Inv(env, w)
    ensures
      var a := w.issued[t];
      var failed := FailedAttempt(w.pool.records[a.id], ambiguous);
      Inv(env, w.(pool := DropGuard(Put(w.pool, a.id, failed), a), tasks := w.tasks - {t}, calls := calls'))
  {
    hide RecordsOk, SequencesDistinct, LiveOk, LiveHasTask, IssuedOk, TasksOk, PinsOk, CallsOk, StickyOk;
    hide LedgersOk, AnswersOk, SettledOk, BirthsOk;
    var a := w.issued[t];
    var rec := w.pool.records[a.id];
    var w1 := w.(calls := calls');
    FlagsKeep(env, w, calls');
    DropKeeps(env, w1, t);
    FailedOk(w1, t, ambiguous);
    RewriteKeeps(env, Dropped(w1, t), a.id, FailedAttempt(rec, ambiguous));
  }

  lemma FailedOk(w: World, t: nat, ambiguous: bool)
    requires t < |w.issued| && Owns(w.pool, w.issued[t])
    requires RecordsOk(w.pool.control, w.pins, w.pool.records)
    requires IssuedOk(w.pool.control, w.pool.records, w.issued)
    requires StickyOk(w.pool.records, w.issued, w.calls)
    requires Accounted(w.calls, t, ambiguous)
    requires ambiguous ==> w.pool.records[w.issued[t].id].Retry().dispatched
    ensures
      var rec := w.pool.records[w.issued[t].id];
      var rec' := FailedAttempt(rec, ambiguous);
      && RecordOk(w.pool.control, w.pins, w.issued[t].id, rec')
      && SameIdentity(rec, rec') && StickyRecord(Dropped(w, t), rec')
  {
    var rec := w.pool.records[w.issued[t].id];
    assert RecordOk(w.pool.control, w.pins, w.issued[t].id, rec);
    forall c | 0 <= c < |w.calls| && w.calls[c].task < |w.issued|
      ensures StickyFor(FailedAttempt(rec, ambiguous), w.issued[w.calls[c].task], w.calls[c])
    {
      assert StickyFor(rec, w.issued[w.calls[c].task], w.calls[c]);
      assert TokensUnique(w.issued);
    }
  }

  // ---------- ending on a confirmation ----------

  lemma SettleKeeps(env: Env, w: World, s: nat, block: nat, id: SpendId)
    requires Inv(env, w)
    requires s in w.pins && PaidBy(env, w.ledgers, w.pins[s], block)
    requires id in w.pool.records && w.pool.records[id].HasRetry() && w.pool.records[id].Retry().memoSequence == s
    requires w.pool.records[id].status == Finalized && w.pool.records[id].payout.value.blockIndex == Some(block)
    ensures Inv(env, w.(settled := w.settled[s := block]))
  {
    SettleRecords(env, w, s, block, id);
  }

  lemma SettleRecords(env: Env, w: World, s: nat, block: nat, id: SpendId)
    requires SettledOk(env, w.pool.records, w.ledgers, w.pins, w.settled)
    requires SequencesDistinct(w.pool.records)
    requires s in w.pins && PaidBy(env, w.ledgers, w.pins[s], block)
    requires id in w.pool.records && w.pool.records[id].HasRetry() && w.pool.records[id].Retry().memoSequence == s
    requires w.pool.records[id].status == Finalized && w.pool.records[id].payout.value.blockIndex == Some(block)
    ensures SettledOk(env, w.pool.records, w.ledgers, w.pins, w.settled[s := block])
  {
  }

  lemma EndKeeps(env: Env, w: World, t: nat, block: nat)
    requires t in w.tasks && t < |w.issued| && Owns(w.pool, w.issued[t])
    requires w.issued[t].sequence in w.pins && PaidBy(env, w.ledgers, w.pins[w.issued[t].sequence], block)
    requires Inv(env, w)
    ensures
      var a := w.issued[t];
      Inv(env, TerminalStep(w, a.id, DropGuard(Terminal(w.pool, a.id, Some(block)).0, a))
               .(tasks := w.tasks - {t}, settled := w.settled[a.sequence := block]))
  {
    hide RecordsOk, SequencesDistinct, LiveOk, LiveHasTask, IssuedOk, TasksOk, PinsOk, CallsOk, StickyOk;
    hide LedgersOk, AnswersOk, SettledOk, BirthsOk;
    var a := w.issued[t];
    var w1 := Dropped(w, t);
    DropKeeps(env, w, t);
    FinalizeKeeps(env, w1, a.id, Some(block));
    var w2 := TerminalStep(w1, a.id, Terminal(w1.pool, a.id, Some(block)).0);
    SettleKeeps(env, w2, a.sequence, block, a.id);
    assert w2.(settled := w2.settled[a.sequence := block]) ==
      TerminalStep(w, a.id, DropGuard(Terminal(w.pool, a.id, Some(block)).0, a))
      .(tasks := w.tasks - {t}, settled := w.settled[a.sequence := block]);
  }

  // ---------- sending ----------

  /** The owner's record as it stands when the transfer leaves. */
  ghost predicate ReadyToSend(w: World, t: nat, rec: PendingSpend, pins: map<nat, Pin>)
    requires t < |w.issued|
  {
    var a := w.issued[t];
    && rec.HasRetry() && rec.status == PayoutSubmitting && AttemptOf(a.id, rec.Retry()) == a
    && rec.Retry().phase == MayHaveDispatched && rec.Retry().frozen.Some?
    && (a.id in w.pool.records && w.pool.records[a.id].HasRetry() ==>
          rec.Retry().priorAmbiguity == w.pool.records[a.id].Retry().priorAmbiguity)
    && RecordOk(w.pool.control, pins, a.id, rec)
    && (forall s :: s in w.pins ==> s in pins && pins[s] == w.pins[s])
    && (forall s :: s in pins ==> s in w.pins || s == a.sequence)
  }

  function Sent(w: World, t: nat, rec: PendingSpend, pins: map<nat, Pin>): World
    requires t < |w.issued| && rec.HasRetry() && rec.Retry().frozen.Some?
  {
    w.(pool := Put(w.pool, w.issued[t].id, rec),
       tasks := w.tasks[t := AwaitTransfer(|w.calls|)],
       calls := w.calls + [Call(t, rec.Retry().frozen.value, None, false, false)],
       pins := pins)
  }

  lemma SendKeeps(env: Env, w: World, t: nat, rec: PendingSpend, pins: map<nat, Pin>)
    requires t in w.tasks && t < |w.issued| && Owns(w.pool, w.issued[t])
    requires !w.tasks[t].AwaitTransfer? && ReadyToSend(w, t, rec, pins)
    requires PinsOk(env, w.pool.control, pins)
    requires Inv(env, w)
    ensures Inv(env, Sent(w, t, rec, pins))
  {
    hide RecordsOk, SequencesDistinct, LiveOk, LiveHasTask, IssuedOk, TasksOk, PinsOk, CallsOk, StickyOk;
    hide LedgersOk, AnswersOk, SettledOk, BirthsOk;
    var a := w.issued[t];
    var w' := Sent(w, t, rec, pins);
    SendRecords(w, t, rec, pins);
    RewriteIssued(w.pool.control, w.pool.records, w.issued, a.id, rec);
    AskSlots(w.pool.live, w.issued, w.tasks, t, AwaitTransfer(|w.calls|));
    SendTasks(w, t, rec);
    SendCalls(w, t, rec, pins);
    SendSticky(w, t, rec);
    SendLedgers(env, w, w'.calls);
    SendSettled(env, w, t, rec, pins);
    RewriteBirths(w.pool.records, w.births, w.nextBirth, w.accruals, a.id, rec);
  }

  lemma SendRecords(w: World, t: nat, rec: PendingSpend, pins: map<nat, Pin>)
    requires RecordsOk(w.pool.control, w.pins, w.pool.records) && SequencesDistinct(w.pool.records)
    requires LiveOk(w.pool.records, w.pool.live)
    requires t < |w.issued| && Owns(w.pool, w.issued[t]) && ReadyToSend(w, t, rec, pins)
    ensures
      var records' := w.pool.records[w.issued[t].id := rec];
      && RecordsOk(w.pool.control, pins, records') && SequencesDistinct(records')
      && LiveOk(records', w.pool.live)
  {
    hide RecordOk, RecordsOk, SequencesDistinct, LiveOk;
    SentRecords(w, w.issued[t], rec, pins);
    SentLive(w.pool.records, w.pool.live, w.issued[t], rec);
  }

  lemma SentRecords(w: World, a: Attempt, rec: PendingSpend, pins: map<nat, Pin>)
    requires RecordsOk(w.pool.control, w.pins, w.pool.records) && SequencesDistinct(w.pool.records)
    requires a.id in w.pool.records && w.pool.records[a.id].HasRetry() && rec.HasRetry()
    requires w.pool.records[a.id].Retry().memoSequence == rec.Retry().memoSequence == a.sequence
    requires RecordOk(w.pool.control, pins, a.id, rec)
    requires forall s :: s in w.pins ==> s in pins && pins[s] == w.pins[s]
    requires forall s :: s in pins ==> s in w.pins || s == a.sequence
    ensures RecordsOk(w.pool.control, pins, w.pool.records[a.id := rec])
    ensures SequencesDistinct(w.pool.records[a.id := rec])
  {
    hide ValidateRetry;
    var records' := w.pool.records[a.id := rec];
    forall id | id in records' ensures RecordOk(w.pool.control, pins, id, records'[id]) {
      if id != a.id {
        assert RecordOk(w.pool.control, w.pins, id, w.pool.records[id]);
      }
    }
  }

  lemma SentLive(records: Records, live: map<SpendId, Attempt>, a: Attempt, rec: PendingSpend)
    requires LiveOk(records, live) && Holds(records, live, a)
    requires rec.HasRetry() && rec.status == PayoutSubmitting && AttemptOf(a.id, rec.Retry()) == a
    ensures LiveOk(records[a.id := rec], live)
  {
    forall id | id in live ensures live[id].id == id && Holds(records[a.id := rec], live, live[id]) {
      assert Holds(records, live, live[id]);
    }
  }

  lemma SendTasks(w: World, t: nat, rec: PendingSpend)
    requires TasksOk(w.pool.records, w.pool.live, w.issued, w.tasks, w.calls)
    requires IssuedOk(w.pool.control, w.pool.records, w.issued)
    requires t in w.tasks && t < |w.issued| && Owns(w.pool, w.issued[t])
    requires rec.HasRetry() && rec.status == PayoutSubmitting && AttemptOf(w.issued[t].id, rec.Retry()) == w.issued[t]
    requires rec.Retry().phase == MayHaveDispatched && rec.Retry().frozen.Some?
    ensures TasksOk(w.pool.records[w.issued[t].id := rec], w.pool.live, w.issued,
                    w.tasks[t := AwaitTransfer(|w.calls|)],
                    w.calls + [Call(t, rec.Retry().frozen.value, None, false, false)])
  {
    var a := w.issued[t];
    var records', tasks' := w.pool.records[a.id := rec], w.tasks[t := AwaitTransfer(|w.calls|)];
    var calls' := w.calls + [Call(t, rec.Retry().frozen.value, None, false, false)];
    forall u | u in tasks' ensures u < |w.issued| && TaskOk(records', w.pool.live, w.issued[u], u, tasks'[u], calls') {
      assert TaskOk(w.pool.records, w.pool.live, w.issued[u], u, w.tasks[u], w.calls);
      assert TokensUnique(w.issued);
    }
  }

  lemma SendCalls(w: World, t: nat, rec: PendingSpend, pins: map<nat, Pin>)
    requires CallsOk(w.issued, w.calls, w.pins)
    requires TasksOk(w.pool.records, w.pool.live, w.issued, w.tasks, w.calls)
    requires t in w.tasks && t < |w.issued| && !w.tasks[t].AwaitTransfer?
    requires ReadyToSend(w, t, rec, pins)
    ensures CallsOk(w.issued, w.calls + [Call(t, rec.Retry().frozen.value, None, false, false)], pins)
  {
    var calls' := w.calls + [Call(t, rec.Retry().frozen.value, None, false, false)];
    assert TaskOk(w.pool.records, w.pool.live, w.issued[t], t, w.tasks[t], w.calls);
    forall c | 0 <= c < |calls'| ensures CallOk(w.issued, calls'[c], pins) {
      assert c < |w.calls| ==> CallOk(w.issued, w.calls[c], w.pins);
    }
  }

  lemma SendSticky(w: World, t: nat, rec: PendingSpend)
    requires StickyOk(w.pool.records, w.issued, w.calls) && SequencesDistinct(w.pool.records)
    requires TasksOk(w.pool.records, w.pool.live, w.issued, w.tasks, w.calls)
    requires t in w.tasks && t < |w.issued| && !w.tasks[t].AwaitTransfer? && Owns(w.pool, w.issued[t])
    requires rec.HasRetry() && rec.status == PayoutSubmitting && AttemptOf(w.issued[t].id, rec.Retry()) == w.issued[t]
    requires rec.Retry().phase == MayHaveDispatched && rec.Retry().frozen.Some?
    requires rec.Retry().priorAmbiguity == w.pool.records[w.issued[t].id].Retry().priorAmbiguity
    ensures StickyOk(w.pool.records[w.issued[t].id := rec], w.issued,
                     w.calls + [Call(t, rec.Retry().frozen.value, None, false, false)])
  {
    var a := w.issued[t];
    var records' := w.pool.records[a.id := rec];
    var calls' := w.calls + [Call(t, rec.Retry().frozen.value, None, false, false)];
    assert TaskOk(w.pool.records, w.pool.live, a, t, w.tasks[t], w.calls);
    forall c, id | 0 <= c < |calls'| && id in records' && calls'[c].task < |w.issued|
      ensures StickyFor(records'[id], w.issued[calls'[c].task], calls'[c])
    {
      if c < |w.calls| {
        assert StickyFor(w.pool.records[id], w.issued[w.calls[c].task], w.calls[c]);
      }
    }
  }

  lemma SendLedgers(env: Env, w: World, calls': seq<Call>)
    requires LedgersOk(env, w.ledgers, w.calls) && AnswersOk(env, w.ledgers, w.calls)
    requires |calls'| == |w.calls| + 1 && calls'[..|w.calls|] == w.calls && calls'[|w.calls|].answer.None?
    ensures LedgersOk(env, w.ledgers, calls') && AnswersOk(env, w.ledgers, calls')
  {
    forall l | l in w.ledgers ensures OwnBlocks(env, l, w.ledgers[l], calls') {
      OwnBlocksCarry(env, l, w.ledgers[l], w.ledgers[l], w.calls, calls');
    }
    forall c | 0 <= c < |calls'| ensures AnswerOk(env, w.ledgers, calls'[c]) {
      assert c < |w.calls| ==> AnswerOk(env, w.ledgers, w.calls[c]);
    }
  }

  lemma SendSettled(env: Env, w: World, t: nat, rec: PendingSpend, pins: map<nat, Pin>)
    requires SettledOk(env, w.pool.records, w.ledgers, w.pins, w.settled)
    requires t < |w.issued| && Owns(w.pool, w.issued[t]) && ReadyToSend(w, t, rec, pins)
    ensures SettledOk(env, w.pool.records[w.issued[t].id := rec], w.ledgers, pins, w.settled)
  {
    RewriteSettled(env, w.pool.records, w.ledgers, w.pins, w.settled, w.issued[t].id, rec);
  }
}
