/**
Every step of the payout world keeps the invariant. A segment that ends its future is taken
apart into elementary changes: a flag on a call, the release of a guard, one record rewrite.
*/
module PayoutPreserved {
  import opened Wrappers
  import opened ByteStrings
  import opened TokenLedger
  import opened PayoutTypes
  import opened PayoutSegments
  import opened PayoutWorld
  import opened PayoutInvariant

  // ---------- elementary changes ----------

  /** Dropping the guard of future `t` and the future itself. */
  function Dropped(w: World, t: nat): World
    requires t < |w.issued|
  {
    w.(pool := DropGuard(w.pool, w.issued[t]), tasks := w.tasks - {t})
  }

  lemma DropKeeps(env: Env, w: World, t: nat)
    requires t in w.tasks && t < |w.issued|
    requires Inv(env, w)
    ensures Inv(env, Dropped(w, t))
    ensures !Holds(w.pool.records, Dropped(w, t).pool.live, w.issued[t])
  {
    hide RecordsOk, SequencesDistinct, LiveOk, LiveHasTask, IssuedOk, TasksOk, PinsOk, CallsOk, StickyOk;
    hide LedgersOk, AnswersOk, SettledOk, BirthsOk, FeesOk;
    var w' := Dropped(w, t);
    assert w'.pool == w.pool.(live := w'.pool.live);
    DropLive(w.pool, w.issued[t]);
    DropSlots(w.pool, w.issued, w.tasks, t);
    DropTasks(w.pool, w.issued[t], w.issued, w.tasks, w.calls, t);
  }

  lemma DropLive(p: Pool, a: Attempt)
    requires LiveOk(p.records, p.live)
    ensures LiveOk(p.records, DropGuard(p, a).live)
    ensures a.id in DropGuard(p, a).live ==> p.live[a.id] != a
  {
    var live' := DropGuard(p, a).live;
    if live' != p.live {
      assert |live'| == |p.live| - 1;
    }
  }

  lemma DropSlots(p: Pool, issued: seq<Attempt>, tasks: map<nat, Pc>, t: nat)
    requires t < |issued|
    requires LiveOk(p.records, p.live) && LiveHasTask(p.live, issued, tasks)
    ensures LiveHasTask(DropGuard(p, issued[t]).live, issued, tasks - {t})
  {
    var live' := DropGuard(p, issued[t]).live;
    forall id | id in live'
      ensures exists u :: u in tasks - {t} && u < |issued| && issued[u] == live'[id]
    {
      var u :| u in tasks && u < |issued| && issued[u] == p.live[id];
      assert u in tasks - {t};
    }
  }

  lemma DropTasks(p: Pool, a: Attempt, issued: seq<Attempt>, tasks: map<nat, Pc>, calls: seq<Call>, t: nat)
    requires TasksOk(p.records, p.live, issued, tasks, calls)
    ensures TasksOk(p.records, DropGuard(p, a).live, issued, tasks - {t}, calls)
  {
    var live' := DropGuard(p, a).live;
    forall u | u in tasks - {t}
      ensures u < |issued| && TaskOk(p.records, live', issued[u], u, tasks[u], calls)
    {
      assert TaskOk(p.records, p.live, issued[u], u, tasks[u], calls);
    }
  }

  /** Nothing a token, a pin or a ledger refers to differs between the two records. */
  ghost predicate SameIdentity(rec: PendingSpend, rec': PendingSpend) {
    && (rec.payout.Some? <==> rec'.payout.Some?)
    && (rec.HasRetry() <==> rec'.HasRetry())
    && (rec.HasRetry() ==>
          && rec'.Retry().memoSequence == rec.Retry().memoSequence
          && rec'.Retry().generation == rec.Retry().generation)
  }

  ghost predicate StickyRecord(w: World, rec: PendingSpend) {
    forall c :: 0 <= c < |w.calls| && w.calls[c].task < |w.issued| ==>
      StickyFor(rec, w.issued[w.calls[c].task], w.calls[c])
  }

  lemma RewriteKeeps(env: Env, w: World, id: SpendId, rec: PendingSpend)
    requires id in w.pool.records && id !in w.pool.live
    requires SameIdentity(w.pool.records[id], rec)
    requires RecordOk(w.pool.control, w.pins, id, rec)
    requires w.pool.records[id].status != Finalized
    requires StickyRecord(w, rec)
    requires Inv(env, w)
    ensures Inv(env, w.(pool := Put(w.pool, id, rec)))
  {
    hide RecordsOk, SequencesDistinct, LiveOk, LiveHasTask, IssuedOk, TasksOk, PinsOk, CallsOk, StickyOk;
    hide LedgersOk, AnswersOk, SettledOk, BirthsOk, FeesOk;
    RewriteRecords(w.pool.control, w.pins, w.pool.records, id, rec);
    RewriteLive(w.pool.records, w.pool.live, id, rec);
    RewriteIssued(w.pool.control, w.pool.records, w.issued, id, rec);
    RewriteTasks(w.pool.records, w.pool.live, w.issued, w.tasks, w.calls, id, rec);
    RewriteSticky(w, id, rec);
    RewriteSettled(env, w.pool.records, w.ledgers, w.pins, w.settled, id, rec);
    RewriteBirths(w.pool.records, w.births, w.nextBirth, w.accruals, id, rec);
  }

  lemma RewriteRecords(c: Control, pins: map<nat, Pin>, records: Records, id: SpendId, rec: PendingSpend)
    requires RecordsOk(c, pins, records) && SequencesDistinct(records)
    requires id in records && SameIdentity(records[id], rec) && RecordOk(c, pins, id, rec)
    ensures RecordsOk(c, pins, records[id := rec]) && SequencesDistinct(records[id := rec])
  {
  }

  lemma RewriteLive(records: Records, live: map<SpendId, Attempt>, id: SpendId, rec: PendingSpend)
    requires LiveOk(records, live) && id !in live
    ensures LiveOk(records[id := rec], live)
  {
    forall i | i in live ensures live[i].id == i && Holds(records[id := rec], live, live[i]) {
      assert Holds(records, live, live[i]);
    }
  }

  lemma RewriteIssued(c: Control, records: Records, issued: seq<Attempt>, id: SpendId, rec: PendingSpend)
    requires IssuedOk(c, records, issued)
    requires id in records && SameIdentity(records[id], rec)
    ensures IssuedOk(c, records[id := rec], issued)
  {
    var records' := records[id := rec];
    forall i, j | 0 <= i < |issued| && j in records' ensures IssuedBefore(issued[i], j, records'[j])
    {
      assert IssuedBefore(issued[i], j, records[j]);
    }
  }

  lemma RewriteTasks(records: Records, live: map<SpendId, Attempt>, issued: seq<Attempt>, tasks: map<nat, Pc>,
                     calls: seq<Call>, id: SpendId, rec: PendingSpend)
    requires TasksOk(records, live, issued, tasks, calls) && id !in live
    ensures TasksOk(records[id := rec], live, issued, tasks, calls)
  {
    forall t | t in tasks
      ensures t < |issued| && TaskOk(records[id := rec], live, issued[t], t, tasks[t], calls)
    {
      assert TaskOk(records, live, issued[t], t, tasks[t], calls);
    }
  }

  lemma RewriteSticky(w: World, id: SpendId, rec: PendingSpend)
    requires StickyOk(w.pool.records, w.issued, w.calls)
    requires StickyRecord(w, rec)
    ensures StickyOk(w.pool.records[id := rec], w.issued, w.calls)
  {
    var records' := w.pool.records[id := rec];
    forall c, i | 0 <= c < |w.calls| && i in records' && w.calls[c].task < |w.issued|
      ensures StickyFor(records'[i], w.issued[w.calls[c].task], w.calls[c])
    {
      if i != id {
        assert StickyFor(w.pool.records[i], w.issued[w.calls[c].task], w.calls[c]);
      }
    }
  }

  lemma RewriteBirths(records: Records, births: map<SpendId, nat>, nextBirth: nat, accruals: seq<Accrual>,
                      id: SpendId, rec: PendingSpend)
    requires BirthsOk(records, births, nextBirth, accruals)
    requires id in records && records[id].status != Finalized
    ensures BirthsOk(records[id := rec], births, nextBirth, accruals)
  {
    assert records[id := rec].Keys == records.Keys;
  }

  lemma RewriteSettled(env: Env, records: Records, ledgers: map<Principal, Ledger>, pins: map<nat, Pin>,
                       settled: map<nat, nat>, id: SpendId, rec: PendingSpend)
    requires SettledOk(env, records, ledgers, pins, settled)
    requires id in records && records[id].status != Finalized
    requires rec.HasRetry() ==> records[id].HasRetry() && records[id].Retry().memoSequence == rec.Retry().memoSequence
    ensures SettledOk(env, records[id := rec], ledgers, pins, settled)
  {
  }

  /** Marking a call refused or cleared only weakens what is remembered about it. */
  ghost predicate FlagsOnly(calls: seq<Call>, calls': seq<Call>) {
    && |calls'| == |calls|
    && forall c :: 0 <= c < |calls| ==>
         && calls'[c].task == calls[c].task && calls'[c].request == calls[c].request
         && calls'[c].answer == calls[c].answer
         && (calls[c].refused ==> calls'[c].refused) && (calls[c].cleared ==> calls'[c].cleared)
  }

  lemma FlagsKeep(env: Env, w: World, calls': seq<Call>)
    requires FlagsOnly(w.calls, calls')
    requires Inv(env, w)
    ensures Inv(env, w.(calls := calls'))
  {
    hide RecordsOk, SequencesDistinct, LiveOk, LiveHasTask, IssuedOk, TasksOk, PinsOk, CallsOk, StickyOk;
    hide LedgersOk, AnswersOk, SettledOk, BirthsOk, FeesOk;
    hide FlagsOnly;
    FlagsTasks(w, calls');
    FlagsCalls(env, w, calls');
    FlagsSticky(w, calls');
    FlagsLedgers(env, w, calls');
  }

  lemma FlagsTasks(w: World, calls': seq<Call>)
    requires FlagsOnly(w.calls, calls') && TasksOk(w.pool.records, w.pool.live, w.issued, w.tasks, w.calls)
    ensures TasksOk(w.pool.records, w.pool.live, w.issued, w.tasks, calls')
  {
    forall t | t in w.tasks
      ensures t < |w.issued| && TaskOk(w.pool.records, w.pool.live, w.issued[t], t, w.tasks[t], calls')
    {
      assert TaskOk(w.pool.records, w.pool.live, w.issued[t], t, w.tasks[t], w.calls);
    }
  }

  lemma FlagsCalls(env: Env, w: World, calls': seq<Call>)
    requires FlagsOnly(w.calls, calls') && CallsOk(w.issued, w.calls, w.pins) && AnswersOk(env, w.ledgers, w.calls)
    ensures CallsOk(w.issued, calls', w.pins) && AnswersOk(env, w.ledgers, calls')
  {
    forall c | 0 <= c < |calls'|
      ensures CallOk(w.issued, calls'[c], w.pins) && AnswerOk(env, w.ledgers, calls'[c])
    {
      assert CallOk(w.issued, w.calls[c], w.pins) && AnswerOk(env, w.ledgers, w.calls[c]);
    }
  }

  lemma FlagsSticky(w: World, calls': seq<Call>)
    requires FlagsOnly(w.calls, calls') && StickyOk(w.pool.records, w.issued, w.calls)
    ensures StickyOk(w.pool.records, w.issued, calls')
  {
    forall c, id | 0 <= c < |calls'| && id in w.pool.records && calls'[c].task < |w.issued|
      ensures StickyFor(w.pool.records[id], w.issued[calls'[c].task], calls'[c])
    {
      assert StickyFor(w.pool.records[id], w.issued[w.calls[c].task], w.calls[c]);
    }
  }

  lemma FlagsLedgers(env: Env, w: World, calls': seq<Call>)
    requires FlagsOnly(w.calls, calls') && LedgersOk(env, w.ledgers, w.calls)
    ensures LedgersOk(env, w.ledgers, calls')
  {
    hide LedgerInv, OwnBlocks;
    forall l | l in w.ledgers ensures OwnBlocks(env, l, w.ledgers[l], calls') {
      OwnBlocksCarry(env, l, w.ledgers[l], w.ledgers[l], w.calls, calls');
    }
  }

  /** Growing either side keeps every own block accounted for. */
  lemma OwnBlocksCarry(env: Env, l: Principal, ledger: Ledger, ledger': Ledger, calls: seq<Call>, calls': seq<Call>)
    requires OwnBlocks(env, l, ledger, calls)
    requires |calls| <= |calls'| && ledger.blocks <= ledger'.blocks
    requires forall c :: 0 <= c < |calls| ==> calls'[c].request == calls[c].request
    requires forall i :: |ledger.blocks| <= i < |ledger'.blocks| && PayoutBlock(env.self, ledger'.blocks[i]) ==>
               exists c :: 0 <= c < |calls'| && Pays(env, l, ledger', i, calls'[c])
    ensures OwnBlocks(env, l, ledger', calls')
  {
    forall i | 0 <= i < |ledger'.blocks| && PayoutBlock(env.self, ledger'.blocks[i])
      ensures exists c :: 0 <= c < |calls'| && Pays(env, l, ledger', i, calls'[c])
    {
      if i < |ledger.blocks| {
        var c :| 0 <= c < |calls| && Pays(env, l, ledger, i, calls[c]);
        assert Pays(env, l, ledger', i, calls'[c]);
      }
    }
  }

  lemma AccrualKeeps(env: Env, w: World, id: SpendId, split: FeeSplit)
    requires id in w.births && id in w.pool.records && w.pool.records[id].status == Finalized
    requires forall k :: 0 <= k < |w.accruals| ==> w.accruals[k].birth != w.births[id]
    requires Inv(env, w)
    ensures Inv(env, w.(pool := w.pool.(accrued := Accrue(w.pool.accrued, Some(split))),
                        accruals := w.accruals + [Accrual(w.births[id], split)]))
  {
    hide RecordsOk, SequencesDistinct, LiveOk, LiveHasTask, IssuedOk, TasksOk, PinsOk, CallsOk, StickyOk;
    hide LedgersOk, AnswersOk, SettledOk, BirthsOk, FeesOk;
    AccrualWindows(w.pool.accrued, w.accruals, w.flushes, Accrual(w.births[id], split));
    AccrualBirths(w.pool.records, w.births, w.nextBirth, w.accruals, id, split);
  }

  lemma AccrualWindows(accrued: FeeSplit, accruals: seq<Accrual>, flushes: seq<Flush>, x: Accrual)
    requires FeesOk(accrued, accruals, flushes)
    ensures FeesOk(Accrue(accrued, Some(x.split)), accruals + [x], flushes)
  {
    var accruals', from := accruals + [x], Cut(flushes, |flushes|);
    forall k: nat | k < |flushes| ensures WindowOk(accruals', flushes, k) {
      assert WindowOk(accruals, flushes, k);
      assert accruals'[Cut(flushes, k)..flushes[k].upTo] == accruals[Cut(flushes, k)..flushes[k].upTo];
    }
    var current := accruals'[from..];
    assert current[..|current| - 1] == accruals[from..];
  }

  /** Closing a window publishes its sum and opens an empty one. */
  lemma FlushKeeps(env: Env, w: World, next: World)
    requires next == w.(pool := Drain(w.pool).0, flushes := w.flushes + [Flush(|w.accruals|, w.pool.accrued)])
    requires Inv(env, w)
    ensures Inv(env, next)
  {
    hide RecordsOk, SequencesDistinct, LiveOk, LiveHasTask, IssuedOk, TasksOk, PinsOk, CallsOk, StickyOk;
    hide LedgersOk, AnswersOk, SettledOk, BirthsOk, FeesOk;
    FlushWindows(w.pool.accrued, w.accruals, w.flushes);
  }

  lemma FlushWindows(accrued: FeeSplit, accruals: seq<Accrual>, flushes: seq<Flush>)
    requires FeesOk(accrued, accruals, flushes)
    ensures FeesOk(FeeSplit(0, 0, 0), accruals, flushes + [Flush(|accruals|, accrued)])
  {
    var flushes' := flushes + [Flush(|accruals|, accrued)];
    forall k: nat | k < |flushes'| ensures WindowOk(accruals, flushes', k) {
      if k < |flushes| {
        assert WindowOk(accruals, flushes, k);
      } else {
        assert accruals[Cut(flushes, k)..] == accruals[Cut(flushes, k)..|accruals|];
      }
    }
    assert accruals[|accruals|..] == [];
  }

  lemma AccrualBirths(records: Records, births: map<SpendId, nat>, nextBirth: nat, accruals: seq<Accrual>,
                      id: SpendId, split: FeeSplit)
    requires BirthsOk(records, births, nextBirth, accruals)
    requires id in births && records[id].status == Finalized
    requires forall k :: 0 <= k < |accruals| ==> accruals[k].birth != births[id]
    ensures BirthsOk(records, births, nextBirth, accruals + [Accrual(births[id], split)])
  {
  }

  /** One terminal transition: the record becomes final and its split is accrued, once. */
  lemma FinalizeKeeps(env: Env, w: World, id: SpendId, block: Option<nat>)
    requires id in w.pool.records && id !in w.pool.live
    requires w.pool.records[id].status !in {Finalized, Failed}
    requires block.Some? ==> w.pool.records[id].payout.Some?
    requires Inv(env, w)
    ensures Inv(env, TerminalStep(w, id, Terminal(w.pool, id, block).0))
  {
    hide SequencesDistinct, LiveOk, LiveHasTask, IssuedOk, TasksOk, PinsOk, CallsOk, StickyOk;
    hide LedgersOk, AnswersOk, SettledOk, FeesOk;
    hide Terminal, TerminalStep, RetryOk, ValidateRetry;
    var rec := w.pool.records[id];
    assert RecordOk(w.pool.control, w.pins, id, rec);
    var w1 := w.(pool := Put(w.pool, id, Terminated(rec, block)));
    TerminatedOk(w.pool.control, w.pins, id, rec, block);
    RewriteKeeps(env, w, id, Terminated(rec, block));
    if rec.split.Some? {
      AccrualKeeps(env, w1, id, rec.split.value);
    }
    TerminalStepShape(w, id, block);
  }

  lemma TerminatedOk(c: Control, pins: map<nat, Pin>, id: SpendId, rec: PendingSpend, block: Option<nat>)
    requires RecordOk(c, pins, id, rec) && rec.status !in {Finalized, Failed}
    ensures RecordOk(c, pins, id, Terminated(rec, block))
    ensures SameIdentity(rec, Terminated(rec, block)) && Terminated(rec, block).status == Finalized
  {
  }

  lemma TerminalStepShape(w: World, id: SpendId, block: Option<nat>)
    requires id in w.pool.records && w.pool.records[id].status !in {Finalized, Failed} && id in w.births
    requires block.Some? ==> w.pool.records[id].payout.Some?
    ensures
      var rec := w.pool.records[id];
      var w1 := w.(pool := Put(w.pool, id, Terminated(rec, block)));
      TerminalStep(w, id, Terminal(w.pool, id, block).0) ==
      if rec.split.None? then w1
      else w1.(pool := w1.pool.(accrued := Accrue(w.pool.accrued, rec.split)),
               accruals := w.accruals + [Accrual(w.births[id], rec.split.value)])
  {
  }

  // ---------- control, admission and removal ----------

  /** The control cell only ever moves forward, and its key, once set, stays. */
  ghost predicate Later(c: Control, c': Control) {
    && c'.Valid() && c.boot <= c'.boot && c.next <= c'.next
    && (c.key.Some? ==> c'.key == c.key)
  }

  lemma ControlKeeps(env: Env, w: World, c': Control)
    requires Later(w.pool.control, c')
    requires Inv(env, w)
    ensures Inv(env, w.(pool := w.pool.(control := c')))
  {
    hide RecordsOk, SequencesDistinct, LiveOk, LiveHasTask, IssuedOk, TasksOk, PinsOk, CallsOk, StickyOk;
    hide LedgersOk, AnswersOk, SettledOk, BirthsOk, FeesOk;
    ControlRecords(w.pool.control, c', w.pins, w.pool.records);
    ControlPins(env, w.pool.control, c', w.pins);
    ControlIssued(w.pool.control, c', w.pool.records, w.issued);
  }

  lemma ControlIssued(c: Control, c': Control, records: Records, issued: seq<Attempt>)
    requires Later(c, c') && IssuedOk(c, records, issued)
    ensures IssuedOk(c', records, issued)
  {
  }

  lemma ControlRecords(c: Control, c': Control, pins: map<nat, Pin>, records: Records)
    requires Later(c, c') && RecordsOk(c, pins, records)
    ensures RecordsOk(c', pins, records)
  {
    forall id | id in records ensures RecordOk(c', pins, id, records[id]) {
      assert RecordOk(c, pins, id, records[id]);
    }
  }

  lemma ControlPins(env: Env, c: Control, c': Control, pins: map<nat, Pin>)
    requires Later(c, c') && PinsOk(env, c, pins)
    ensures PinsOk(env, c', pins)
  {
    forall s | s in pins ensures PinOk(env, c', s, pins[s]) {
      assert PinOk(env, c, s, pins[s]);
    }
  }

  /** Without executors, nothing is owned. */
  lemma NoExecutorsKeep(env: Env, w: World)
    requires Inv(env, w)
    ensures Inv(env, w.(pool := w.pool.(live := map[])))
  {
    hide RecordsOk, SequencesDistinct, LiveOk, LiveHasTask, IssuedOk, TasksOk, PinsOk, CallsOk, StickyOk;
    hide LedgersOk, AnswersOk, SettledOk, BirthsOk, FeesOk;
    NoExecutorsTasks(w.pool.records, w.pool.live, w.issued, w.tasks, w.calls);
    NoExecutorsLive(w.pool.records, w.issued, w.tasks);
  }

  lemma NoExecutorsLive(records: Records, issued: seq<Attempt>, tasks: map<nat, Pc>)
    ensures LiveOk(records, map[]) && LiveHasTask(map[], issued, tasks)
  {
  }

  lemma NoExecutorsTasks(records: Records, live: map<SpendId, Attempt>, issued: seq<Attempt>, tasks: map<nat, Pc>, calls: seq<Call>)
    requires TasksOk(records, live, issued, tasks, calls)
    ensures TasksOk(records, map[], issued, tasks, calls)
  {
    forall t | t in tasks ensures t < |issued| && TaskOk(records, map[], issued[t], t, tasks[t], calls) {
      assert TaskOk(records, live, issued[t], t, tasks[t], calls);
    }
  }

  lemma BornKeeps(env: Env, w: World, id: SpendId, rec: PendingSpend)
    requires id !in w.pool.records && rec.status == PrePayout
    requires RecordOk(w.pool.control, w.pins, id, rec)
    requires rec.HasRetry() ==> Unused(w, rec.Retry().memoSequence)
    requires Inv(env, w)
    ensures Inv(env, Born(w, id, rec))
  {
    hide RecordsOk, SequencesDistinct, LiveOk, LiveHasTask, IssuedOk, TasksOk, PinsOk, CallsOk, StickyOk;
    hide LedgersOk, AnswersOk, SettledOk, BirthsOk, FeesOk;
    BornRecords(w, id, rec);
    NotExecuting(w.pool.records, w.pool.live, id);
    RewriteLive(w.pool.records, w.pool.live, id, rec);
    RewriteTasks(w.pool.records, w.pool.live, w.issued, w.tasks, w.calls, id, rec);
    BornIssued(w, id, rec);
    BornSticky(w, id, rec);
    BornBirths(w.pool.records, w.births, w.nextBirth, w.accruals, id, rec);
    BornSettled(env, w, id, rec);
  }

  lemma BornRecords(w: World, id: SpendId, rec: PendingSpend)
    requires RecordsOk(w.pool.control, w.pins, w.pool.records) && SequencesDistinct(w.pool.records)
    requires RecordOk(w.pool.control, w.pins, id, rec)
    requires rec.HasRetry() ==> Unused(w, rec.Retry().memoSequence)
    ensures RecordsOk(w.pool.control, w.pins, w.pool.records[id := rec])
    ensures SequencesDistinct(w.pool.records[id := rec])
  {
  }

  lemma BornIssued(w: World, id: SpendId, rec: PendingSpend)
    requires IssuedOk(w.pool.control, w.pool.records, w.issued)
    requires rec.HasRetry() ==> Unused(w, rec.Retry().memoSequence)
    ensures IssuedOk(w.pool.control, w.pool.records[id := rec], w.issued)
  {
    var records' := w.pool.records[id := rec];
    forall i, j | 0 <= i < |w.issued| && j in records' ensures IssuedBefore(w.issued[i], j, records'[j]) {
      assert j != id ==> IssuedBefore(w.issued[i], j, w.pool.records[j]);
    }
  }

  lemma BornSettled(env: Env, w: World, id: SpendId, rec: PendingSpend)
    requires SettledOk(env, w.pool.records, w.ledgers, w.pins, w.settled)
    requires rec.HasRetry() ==> rec.Retry().memoSequence !in w.settled
    ensures SettledOk(env, w.pool.records[id := rec], w.ledgers, w.pins, w.settled)
  {
  }

  /** No record, token or pin mentions this ordinal yet. */
  ghost predicate Unused(w: World, s: nat) {
    && (forall j :: j in w.pool.records && w.pool.records[j].HasRetry() ==> w.pool.records[j].Retry().memoSequence != s)
    && (forall i :: 0 <= i < |w.issued| ==> w.issued[i].sequence != s)
    && s !in w.settled
  }

  lemma BornSticky(w: World, id: SpendId, rec: PendingSpend)
    requires StickyOk(w.pool.records, w.issued, w.calls)
    requires rec.HasRetry() ==> forall i :: 0 <= i < |w.issued| ==> w.issued[i].sequence != rec.Retry().memoSequence
    ensures StickyOk(w.pool.records[id := rec], w.issued, w.calls)
  {
    RewriteSticky(w, id, rec);
  }

  lemma BornBirths(records: Records, births: map<SpendId, nat>, nextBirth: nat, accruals: seq<Accrual>, id: SpendId, rec: PendingSpend)
    requires BirthsOk(records, births, nextBirth, accruals) && id !in records
    ensures BirthsOk(records[id := rec], births[id := nextBirth], nextBirth + 1, accruals)
  {
    var births' := births[id := nextBirth];
    forall k, j | 0 <= k < |accruals| && j in births' && accruals[k].birth == births'[j]
      ensures records[id := rec][j].status == Finalized
    {
    }
  }

  lemma ForgetKeeps(env: Env, w: World, id: SpendId, next: World)
    requires id in w.pool.records && w.pool.records[id].status != PayoutSubmitting
    requires next == w.(pool := w.pool.(records := w.pool.records - {id}), births := w.births - {id})
    requires Inv(env, w)
    ensures Inv(env, next)
  {
    hide RecordsOk, SequencesDistinct, LiveOk, LiveHasTask, IssuedOk, TasksOk, PinsOk, CallsOk, StickyOk;
    hide LedgersOk, AnswersOk, SettledOk, BirthsOk, FeesOk;
    NotExecuting(w.pool.records, w.pool.live, id);
    ForgetRecords(w, id);
    ForgetLive(w.pool.records, w.pool.live, id);
    ForgetTasks(w.pool.records, w.pool.live, w.issued, w.tasks, w.calls, id);
    ForgetSticky(w, id);
    ForgetBirths(w.pool.records, w.births, w.nextBirth, w.accruals, id);
    ForgetSettled(env, w, id);
  }

  lemma NotExecuting(records: Records, live: map<SpendId, Attempt>, id: SpendId)
    requires LiveOk(records, live) && (id in records ==> records[id].status != PayoutSubmitting)
    ensures id !in live
  {
  }

  lemma ForgetSettled(env: Env, w: World, id: SpendId)
    requires SettledOk(env, w.pool.records, w.ledgers, w.pins, w.settled)
    ensures SettledOk(env, w.pool.records - {id}, w.ledgers, w.pins, w.settled)
  {
  }

  lemma ForgetRecords(w: World, id: SpendId)
    requires RecordsOk(w.pool.control, w.pins, w.pool.records) && SequencesDistinct(w.pool.records)
    requires IssuedOk(w.pool.control, w.pool.records, w.issued)
    ensures RecordsOk(w.pool.control, w.pins, w.pool.records - {id})
    ensures SequencesDistinct(w.pool.records - {id})
    ensures IssuedOk(w.pool.control, w.pool.records - {id}, w.issued)
  {
    var records' := w.pool.records - {id};
    forall i, j | 0 <= i < |w.issued| && j in records' ensures IssuedBefore(w.issued[i], j, records'[j]) {
      assert IssuedBefore(w.issued[i], j, w.pool.records[j]);
    }
  }

  lemma ForgetSticky(w: World, id: SpendId)
    requires StickyOk(w.pool.records, w.issued, w.calls)
    ensures StickyOk(w.pool.records - {id}, w.issued, w.calls)
  {
    var records' := w.pool.records - {id};
    forall c, i | 0 <= c < |w.calls| && i in records' && w.calls[c].task < |w.issued|
      ensures StickyFor(records'[i], w.issued[w.calls[c].task], w.calls[c])
    {
      assert StickyFor(w.pool.records[i], w.issued[w.calls[c].task], w.calls[c]);
    }
  }

  lemma ForgetBirths(records: Records, births: map<SpendId, nat>, nextBirth: nat, accruals: seq<Accrual>, id: SpendId)
    requires BirthsOk(records, births, nextBirth, accruals)
    ensures BirthsOk(records - {id}, births - {id}, nextBirth, accruals)
  {
  }

  lemma ForgetLive(records: Records, live: map<SpendId, Attempt>, id: SpendId)
    requires LiveOk(records, live) && id !in live
    ensures LiveOk(records - {id}, live)
  {
    forall i | i in live ensures Holds(records - {id}, live, live[i]) {
      assert Holds(records, live, live[i]);
    }
  }

  lemma ForgetTasks(records: Records, live: map<SpendId, Attempt>, issued: seq<Attempt>, tasks: map<nat, Pc>, calls: seq<Call>, id: SpendId)
    requires TasksOk(records, live, issued, tasks, calls) && id !in live
    ensures TasksOk(records - {id}, live, issued, tasks, calls)
  {
    forall t | t in tasks ensures t < |issued| && TaskOk(records - {id}, live, issued[t], t, tasks[t], calls) {
      assert TaskOk(records, live, issued[t], t, tasks[t], calls);
    }
  }

  lemma AdmitKeeps(env: Env, w: World, id: SpendId, terms: Option<PayoutTerms>, split: Option<FeeSplit>)
    requires id <= U64_MAX && id !in w.pool.records && (terms.Some? ==> terms.value.gross <= U128_MAX)
    requires Inv(env, w)
    ensures Inv(env, AdmitStep(w, id, terms, split))
  {
    hide RecordsOk, SequencesDistinct, LiveOk, LiveHasTask, IssuedOk, TasksOk, PinsOk, CallsOk, StickyOk;
    hide LedgersOk, AnswersOk, SettledOk, BirthsOk, FeesOk;
    if terms.None? {
      BornKeeps(env, w, id, PendingSpend(None, PrePayout, split));
    } else {
      var (p, reserved) := ReserveSequence(w.pool);
      if reserved.Ok? {
        var t := terms.value;
        var rec := PendingSpend(
          Some(PublicPayout(t.destination, t.subaccount, t.gross, None, None, Some(reserved.value))), PrePayout, split);
        FreshOrdinal(env, w);
        ControlKeeps(env, w, p.control);
        BornKeeps(env, w.(pool := p), id, rec);
      }
    }
  }

  lemma FreshOrdinal(env: Env, w: World)
    requires Inv(env, w)
    ensures Unused(w, w.pool.control.next) && w.pool.control.next !in w.pins
  {
    forall j | j in w.pool.records && w.pool.records[j].HasRetry()
      ensures w.pool.records[j].Retry().memoSequence != w.pool.control.next
    {
      assert RecordOk(w.pool.control, w.pins, j, w.pool.records[j]);
    }
  }
}
