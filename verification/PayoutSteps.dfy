/**
The remaining steps of the payout world: normalization, claims, the ledgers, the wake-ups of
suspended futures and operator reconciliation, each shown to keep the invariant.
*/
module PayoutSteps {
  import opened Wrappers
  import opened ByteStrings
  import opened TokenLedger
  import opened PayoutTypes
  import opened PayoutSegments
  import opened PayoutWorld
  import opened PayoutInvariant
  import opened PayoutPreserved

  // ---------- normalization ----------

  lemma NormalizeKeeps(env: Env, w: World, id: SpendId)
    requires Inv(env, w)
    ensures Inv(env, w.(pool := Normalize(w.pool, id).0))
  {
    hide RecordsOk, SequencesDistinct, LiveOk, LiveHasTask, IssuedOk, TasksOk, PinsOk, CallsOk, StickyOk;
    hide LedgersOk, AnswersOk, SettledOk, BirthsOk, FeesOk;
    hide Normalize, Quiesced;
    NormalizeRewrites(w.pool, id);
    var p := Normalize(w.pool, id).0;
    if p != w.pool {
      var rec := w.pool.records[id];
      StoredOk(w.pool.control, w.pins, w.pool.records, id);
      if rec.HasRetry() {
        QuiescedOk(w, id);
        RewriteKeeps(env, w, id, Quiesced(rec));
      } else {
        LegacyHeld(w, id);
        RewriteKeeps(env, w, id, rec.(status := PayoutUnknown));
      }
    }
  }

  /** Normalization rewrites at most its own record, and only a submitting one without executor. */
  lemma NormalizeRewrites(p: Pool, id: SpendId)
    ensures
      var p' := Normalize(p, id).0;
      p' == p ||
        (id in p.records && id !in p.live && p.records[id].status == PayoutSubmitting
         && p' == Put(p, id, if p.records[id].HasRetry() then Quiesced(p.records[id])
                             else p.records[id].(status := PayoutUnknown)))
  {
    hide ValidateRetry, Quiesced;
  }

  lemma StoredOk(c: Control, pins: map<nat, Pin>, records: Records, id: SpendId)
    requires RecordsOk(c, pins, records) && id in records
    ensures RecordOk(c, pins, id, records[id])
  {
  }

  lemma LegacyHeld(w: World, id: SpendId)
    requires id in w.pool.records && !w.pool.records[id].HasRetry()
    requires RecordOk(w.pool.control, w.pins, id, w.pool.records[id])
    ensures
      var rec := w.pool.records[id].(status := PayoutUnknown);
      RecordOk(w.pool.control, w.pins, id, rec) && SameIdentity(w.pool.records[id], rec) && StickyRecord(w, rec)
  {
  }

  lemma QuiescedOk(w: World, id: SpendId)
    requires id in w.pool.records && w.pool.records[id].HasRetry() && w.pool.records[id].status == PayoutSubmitting
    requires RecordOk(w.pool.control, w.pins, id, w.pool.records[id])
    requires StickyOk(w.pool.records, w.issued, w.calls)
    ensures RecordOk(w.pool.control, w.pins, id, Quiesced(w.pool.records[id]))
    ensures SameIdentity(w.pool.records[id], Quiesced(w.pool.records[id]))
    ensures StickyRecord(w, Quiesced(w.pool.records[id]))
  {
    var rec := w.pool.records[id];
    forall c | 0 <= c < |w.calls| && w.calls[c].task < |w.issued|
      ensures StickyFor(Quiesced(rec), w.issued[w.calls[c].task], w.calls[c])
    {
      assert StickyFor(rec, w.issued[w.calls[c].task], w.calls[c]);
    }
  }

  // ---------- claims ----------

  lemma ClaimKeeps(env: Env, w: World, id: SpendId, configured: Principal)
    requires Inv(env, w)
    ensures Inv(env, ClaimStep(w, id, configured))
  {
    hide RecordsOk, SequencesDistinct, LiveOk, LiveHasTask, IssuedOk, TasksOk, PinsOk, CallsOk, StickyOk;
    hide LedgersOk, AnswersOk, SettledOk, BirthsOk, FeesOk;
    hide Normalize, Claim, ClaimStep, Claimable;
    NormalizeKeeps(env, w, id);
    ClaimShape(w, id, configured);
    if Claim(w.pool, id).1.Ok? {
      ClaimedKeeps(env, w.(pool := Normalize(w.pool, id).0), id, configured, ClaimStep(w, id, configured));
    }
  }

  /** The world after an admitted claim of a normalized record. */
  function ClaimedWorld(n: World, id: SpendId, configured: Principal): World
    requires id in n.pool.records && n.pool.records[id].HasRetry()
  {
    var rec := Claimed(n.pool.records[id], n.pool.control.boot);
    var a := AttemptOf(id, rec.Retry());
    n.(pool := Put(n.pool, id, rec).(live := n.pool.live[id := a]),
       issued := n.issued + [a], tasks := n.tasks[|n.issued| := AtStart(configured)])
  }

  lemma ClaimShape(w: World, id: SpendId, configured: Principal)
    requires w.pool.control.Valid()
    ensures
      var n := w.(pool := Normalize(w.pool, id).0);
      if Claim(w.pool, id).1.Err? then ClaimStep(w, id, configured) == n
      else
        && Claimable(n.pool.control, n.pool.records, id)
        && id !in n.pool.live && |n.pool.live| < MAX_LIVE_PAYOUT_ATTEMPTS
        && n.pool.records[id].Retry().memoSequence <= U128_MAX
        && ClaimStep(w, id, configured) == ClaimedWorld(n, id, configured)
  {
    hide Normalize, Quiesced;
    NormalizedIs(w.pool, id);
  }

  lemma NormalizedIs(p: Pool, id: SpendId)
    ensures Normalize(p, id).0.control == p.control
    ensures Normalize(p, id).1.Ok? ==>
              id in Normalize(p, id).0.records && Normalize(p, id).0.records[id] == Normalize(p, id).1.value
  {
    hide ValidateRetry, Quiesced;
  }

  lemma ClaimedKeeps(env: Env, n: World, id: SpendId, configured: Principal, next: World)
    requires Claimable(n.pool.control, n.pool.records, id)
    requires id !in n.pool.live && |n.pool.live| < MAX_LIVE_PAYOUT_ATTEMPTS
    requires n.pool.records[id].Retry().memoSequence <= U128_MAX
    requires next == ClaimedWorld(n, id, configured)
    requires Inv(env, n)
    ensures Inv(env, next)
  {
    hide RecordsOk, SequencesDistinct, LiveOk, LiveHasTask, IssuedOk, TasksOk, PinsOk, CallsOk, StickyOk;
    hide LedgersOk, AnswersOk, SettledOk, BirthsOk, FeesOk;
    var rec := n.pool.records[id];
    var rec' := Claimed(rec, n.pool.control.boot);
    var a := AttemptOf(id, rec'.Retry());
    StoredOk(n.pool.control, n.pins, n.pool.records, id);
    ClaimRecords(n.pool.control, n.pins, n.pool.records, id);
    ClaimIssued(n.pool.control, n.pool.records, n.issued, id);
    ClaimLive(n.pool.records, n.pool.live, n.issued, n.tasks, id, rec', configured);
    ClaimTasks(n, id, rec', configured);
    ClaimSticky(n, id);
    RewriteSettled(env, n.pool.records, n.ledgers, n.pins, n.settled, id, rec');
    RewriteBirths(n.pool.records, n.births, n.nextBirth, n.accruals, id, rec');
    CallsGrowIssued(n.issued, n.calls, n.pins, a);
  }

  /** A record that a claim may take. */
  ghost predicate Claimable(c: Control, records: Records, id: SpendId) {
    && id in records && records[id].HasRetry() && records[id].status == PayoutPending
    && records[id].Retry().generation + 1 <= U64_MAX
    && 1 <= c.boot
  }

  lemma ClaimRecords(c: Control, pins: map<nat, Pin>, records: Records, id: SpendId)
    requires Claimable(c, records, id)
    requires RecordsOk(c, pins, records) && SequencesDistinct(records)
    ensures
      var rec' := Claimed(records[id], c.boot);
      RecordsOk(c, pins, records[id := rec']) && SequencesDistinct(records[id := rec'])
  {
    assert RecordOk(c, pins, id, records[id]);
  }

  lemma ClaimIssued(c: Control, records: Records, issued: seq<Attempt>, id: SpendId)
    requires Claimable(c, records, id)
    requires IssuedOk(c, records, issued) && SequencesDistinct(records)
    requires records[id].Retry().memoSequence < c.next
    ensures
      var rec' := Claimed(records[id], c.boot);
      IssuedOk(c, records[id := rec'], issued + [AttemptOf(id, rec'.Retry())])
  {
    var rec' := Claimed(records[id], c.boot);
    var records' := records[id := rec'];
    var issued' := issued + [AttemptOf(id, rec'.Retry())];
    forall i, j | 0 <= i < |issued'| && j in records' ensures IssuedBefore(issued'[i], j, records'[j]) {
      if i < |issued| {
        assert IssuedBefore(issued[i], j, records[j]);
      }
    }
    forall i | 0 <= i < |issued|
      ensures issued[i].sequence != rec'.Retry().memoSequence || issued[i].generation != rec'.Retry().generation
    {
      assert IssuedBefore(issued[i], id, records[id]);
    }
  }

  lemma ClaimLive(records: Records, live: map<SpendId, Attempt>, issued: seq<Attempt>, tasks: map<nat, Pc>,
                  id: SpendId, rec: PendingSpend, configured: Principal)
    requires LiveOk(records, live) && LiveHasTask(live, issued, tasks)
    requires id !in live && |live| < MAX_LIVE_PAYOUT_ATTEMPTS
    requires rec.HasRetry() && rec.status == PayoutSubmitting && rec.Retry().memoSequence <= U128_MAX
    ensures
      var a := AttemptOf(id, rec.Retry());
      && LiveOk(records[id := rec], live[id := a])
      && LiveHasTask(live[id := a], issued + [a], tasks[|issued| := AtStart(configured)])
  {
    var a := AttemptOf(id, rec.Retry());
    var live', issued', tasks' := live[id := a], issued + [a], tasks[|issued| := AtStart(configured)];
    forall i | i in live'
      ensures live'[i].id == i && Holds(records[id := rec], live', live'[i])
      ensures exists t :: t in tasks' && t < |issued'| && issued'[t] == live'[i]
    {
      if i == id {
        assert |issued| in tasks' && issued'[|issued|] == a;
      } else {
        assert Holds(records, live, live[i]);
        var t :| t in tasks && t < |issued| && issued[t] == live[i];
        assert t in tasks' && issued'[t] == live'[i];
      }
    }
  }

  lemma ClaimTasks(w: World, id: SpendId, rec: PendingSpend, configured: Principal)
    requires TasksOk(w.pool.records, w.pool.live, w.issued, w.tasks, w.calls)
    requires CallsOk(w.issued, w.calls, w.pins)
    requires id in w.pool.records && id !in w.pool.live
    requires rec.HasRetry() && rec.Retry().phase == PreDispatch
    requires IssuedOk(w.pool.control, w.pool.records[id := rec], w.issued + [AttemptOf(id, rec.Retry())])
    ensures
      var a := AttemptOf(id, rec.Retry());
      TasksOk(w.pool.records[id := rec], w.pool.live[id := a], w.issued + [a],
              w.tasks[|w.issued| := AtStart(configured)], w.calls)
  {
    var a := AttemptOf(id, rec.Retry());
    var records', live', issued' := w.pool.records[id := rec], w.pool.live[id := a], w.issued + [a];
    var tasks' := w.tasks[|w.issued| := AtStart(configured)];
    forall t | t in tasks'
      ensures t < |issued'| && TaskOk(records', live', issued'[t], t, tasks'[t], w.calls)
    {
      if t == |w.issued| {
        forall c | 0 <= c < |w.calls| ensures w.calls[c].task != t {
          assert CallOk(w.issued, w.calls[c], w.pins);
        }
      } else {
        assert TaskOk(w.pool.records, w.pool.live, w.issued[t], t, w.tasks[t], w.calls);
        assert issued'[|w.issued|] == a && TokensUnique(issued');
      }
    }
  }

  lemma ClaimSticky(w: World, id: SpendId)
    requires StickyOk(w.pool.records, w.issued, w.calls) && CallsOk(w.issued, w.calls, w.pins)
    requires Claimable(w.pool.control, w.pool.records, id)
    ensures
      var rec' := Claimed(w.pool.records[id], w.pool.control.boot);
      StickyOk(w.pool.records[id := rec'], w.issued + [AttemptOf(id, rec'.Retry())], w.calls)
  {
    var rec' := Claimed(w.pool.records[id], w.pool.control.boot);
    var records', issued' := w.pool.records[id := rec'], w.issued + [AttemptOf(id, rec'.Retry())];
    forall c, i | 0 <= c < |w.calls| && i in records' && w.calls[c].task < |issued'|
      ensures StickyFor(records'[i], issued'[w.calls[c].task], w.calls[c])
    {
      assert CallOk(w.issued, w.calls[c], w.pins);
      assert StickyFor(w.pool.records[i], w.issued[w.calls[c].task], w.calls[c]);
    }
  }

  lemma CallsGrowIssued(issued: seq<Attempt>, calls: seq<Call>, pins: map<nat, Pin>, a: Attempt)
    requires CallsOk(issued, calls, pins)
    ensures CallsOk(issued + [a], calls, pins)
  {
    forall c | 0 <= c < |calls| ensures CallOk(issued + [a], calls[c], pins) {
      assert CallOk(issued, calls[c], pins);
    }
  }

  // ---------- ledgers ----------

  lemma LedgerKeeps(env: Env, w: World, c: nat, cond: Conditions, next: World)
    requires c < |w.calls| && w.calls[c].request.ledger in w.ledgers
    requires w.ledgers[w.calls[c].request.ledger].now <= cond.now
    requires next == LedgerStep(env, w, c, cond)
    requires Inv(env, w)
    ensures Inv(env, next)
  {
    hide RecordsOk, SequencesDistinct, LiveOk, LiveHasTask, IssuedOk, TasksOk, PinsOk, CallsOk, StickyOk;
    hide LedgersOk, AnswersOk, SettledOk, BirthsOk, FeesOk;
    hide Transfer;
    var l := w.calls[c].request.ledger;
    var (ledger', reply) := Transfer(w.ledgers[l], cond, env.self, w.calls[c].request.Args());
    LedgerServes(env, w.ledgers, w.calls, c, cond);
    AnswerTasks(w, c, reply);
    SettledCarry(env, w.pool.records, w.ledgers, w.ledgers[l := ledger'], w.pins, w.settled);
  }

  /** One call of this path served by its ledger: blocks and answers stay accounted for. */
  lemma LedgerServes(env: Env, ledgers: map<Principal, Ledger>, calls: seq<Call>, c: nat, cond: Conditions)
    requires LedgersOk(env, ledgers, calls) && AnswersOk(env, ledgers, calls)
    requires c < |calls| && calls[c].request.ledger in ledgers && ledgers[calls[c].request.ledger].now <= cond.now
    ensures
      var l := calls[c].request.ledger;
      var (ledger', reply) := Transfer(ledgers[l], cond, env.self, calls[c].request.Args());
      var calls' := calls[c := calls[c].(answer := Some(reply))];
      && LedgersOk(env, ledgers[l := ledger'], calls') && AnswersOk(env, ledgers[l := ledger'], calls')
      && LedgersGrow(ledgers, ledgers[l := ledger'])
  {
    hide Transfer, LedgerInv, OwnBlocks, AnswersOk;
    var l := calls[c].request.ledger;
    var (ledger', reply) := Transfer(ledgers[l], cond, env.self, calls[c].request.Args());
    TransferKeepsInv(ledgers[l], cond, env.self, calls[c].request.Args());
    LedgerBlocks(env, ledgers, calls, c, ledger', reply);
    AnswersCarry(env, ledgers, ledgers[l := ledger'], calls, c, reply);
  }

  lemma AnswersCarry(env: Env, ledgers: map<Principal, Ledger>, ledgers': map<Principal, Ledger>, calls: seq<Call>, c: nat, reply: Reply)
    requires AnswersOk(env, ledgers, calls) && c < |calls|
    requires LedgersGrow(ledgers, ledgers')
    requires Confirms(reply) ==>
      calls[c].request.ledger in ledgers' &&
      Pays(env, calls[c].request.ledger, ledgers'[calls[c].request.ledger], BlockOf(reply), calls[c])
    ensures AnswersOk(env, ledgers', calls[c := calls[c].(answer := Some(reply))])
  {
    var calls' := calls[c := calls[c].(answer := Some(reply))];
    forall d | 0 <= d < |calls'| ensures AnswerOk(env, ledgers', calls'[d]) {
      assert AnswerOk(env, ledgers, calls[d]);
    }
  }

  lemma LedgerBlocks(env: Env, ledgers: map<Principal, Ledger>, calls: seq<Call>, c: nat, ledger': Ledger, reply: Reply)
    requires LedgersOk(env, ledgers, calls) && c < |calls| && calls[c].request.ledger in ledgers
    requires LedgerInv(ledger')
    requires
      var ledger := ledgers[calls[c].request.ledger];
      if reply.Accepted?
      then |ledger'.blocks| == |ledger.blocks| + 1 && ledger'.blocks[..|ledger.blocks|] == ledger.blocks
           && Pays(env, calls[c].request.ledger, ledger', |ledger.blocks|, calls[c])
      else ledger'.blocks == ledger.blocks
    ensures
      var calls' := calls[c := calls[c].(answer := Some(reply))];
      && LedgersOk(env, ledgers[calls[c].request.ledger := ledger'], calls')
      && LedgersGrow(ledgers, ledgers[calls[c].request.ledger := ledger'])
  {
    var l := calls[c].request.ledger;
    var calls' := calls[c := calls[c].(answer := Some(reply))];
    var ledgers' := ledgers[l := ledger'];
    forall k | k in ledgers' ensures LedgerInv(ledgers'[k]) && OwnBlocks(env, k, ledgers'[k], calls') {
      if k == l && reply.Accepted? {
        assert Pays(env, l, ledger', |ledgers[l].blocks|, calls'[c]);
      }
      OwnBlocksCarry(env, k, ledgers[k], ledgers'[k], calls, calls');
    }
  }

  ghost predicate LedgersGrow(ledgers: map<Principal, Ledger>, ledgers': map<Principal, Ledger>) {
    ledgers'.Keys == ledgers.Keys && forall l :: l in ledgers ==> ledgers[l].blocks <= ledgers'[l].blocks
  }

  /** An answer in flight concerns neither the futures nor the stickiness of doubt. */
  lemma AnswerTasks(w: World, c: nat, reply: Reply)
    requires c < |w.calls|
    requires TasksOk(w.pool.records, w.pool.live, w.issued, w.tasks, w.calls)
    requires CallsOk(w.issued, w.calls, w.pins)
    requires StickyOk(w.pool.records, w.issued, w.calls)
    ensures
      var calls' := w.calls[c := w.calls[c].(answer := Some(reply))];
      && TasksOk(w.pool.records, w.pool.live, w.issued, w.tasks, calls')
      && CallsOk(w.issued, calls', w.pins)
      && StickyOk(w.pool.records, w.issued, calls')
  {
    var calls' := w.calls[c := w.calls[c].(answer := Some(reply))];
    forall t | t in w.tasks
      ensures t < |w.issued| && TaskOk(w.pool.records, w.pool.live, w.issued[t], t, w.tasks[t], calls')
    {
      assert TaskOk(w.pool.records, w.pool.live, w.issued[t], t, w.tasks[t], w.calls);
    }
    forall d | 0 <= d < |calls'| ensures CallOk(w.issued, calls'[d], w.pins) {
      assert CallOk(w.issued, w.calls[d], w.pins);
    }
    forall d, id | 0 <= d < |calls'| && id in w.pool.records && calls'[d].task < |w.issued|
      ensures StickyFor(w.pool.records[id], w.issued[calls'[d].task], calls'[d])
    {
      assert StickyFor(w.pool.records[id], w.issued[w.calls[d].task], w.calls[d]);
    }
  }

  lemma SettledCarry(env: Env, records: Records, ledgers: map<Principal, Ledger>, ledgers': map<Principal, Ledger>,
                     pins: map<nat, Pin>, settled: map<nat, nat>)
    requires SettledOk(env, records, ledgers, pins, settled) && LedgersGrow(ledgers, ledgers')
    ensures SettledOk(env, records, ledgers', pins, settled)
  {
    forall s | s in settled ensures s in pins && PaidBy(env, ledgers', pins[s], settled[s]) {
      assert PaidBy(env, ledgers, pins[s], settled[s]);
    }
  }

  lemma OtherTrafficKeeps(env: Env, w: World, l: Principal, caller: Principal, args: TransferArgs, cond: Conditions, next: World)
    requires l in w.ledgers && w.ledgers[l].now <= cond.now
    requires caller == env.self ==> args.memo.None? || |args.memo.value| != PAYOUT_MEMO_LENGTH
    requires next == w.(ledgers := w.ledgers[l := Transfer(w.ledgers[l], cond, caller, args).0])
    requires Inv(env, w)
    ensures Inv(env, next)
  {
    hide RecordsOk, SequencesDistinct, LiveOk, LiveHasTask, IssuedOk, TasksOk, PinsOk, CallsOk, StickyOk;
    hide LedgersOk, AnswersOk, SettledOk, BirthsOk, FeesOk;
    hide Transfer;
    OtherServes(env, w.ledgers, w.calls, l, caller, args, cond);
    SettledCarry(env, w.pool.records, w.ledgers, next.ledgers, w.pins, w.settled);
  }

  /** Anyone else's call, and any other transfer of the pool, adds no block under a payout memo. */
  lemma OtherServes(env: Env, ledgers: map<Principal, Ledger>, calls: seq<Call>, l: Principal, caller: Principal,
                    args: TransferArgs, cond: Conditions)
    requires LedgersOk(env, ledgers, calls) && AnswersOk(env, ledgers, calls)
    requires l in ledgers && ledgers[l].now <= cond.now
    requires caller == env.self ==> args.memo.None? || |args.memo.value| != PAYOUT_MEMO_LENGTH
    ensures
      var ledgers' := ledgers[l := Transfer(ledgers[l], cond, caller, args).0];
      LedgersOk(env, ledgers', calls) && AnswersOk(env, ledgers', calls) && LedgersGrow(ledgers, ledgers')
  {
    hide Transfer, LedgerInv, OwnBlocks, AnswersOk;
    TransferKeepsInv(ledgers[l], cond, caller, args);
    OtherBlocks(env, ledgers, calls, l, Transfer(ledgers[l], cond, caller, args).0);
  }

  lemma OtherBlocks(env: Env, ledgers: map<Principal, Ledger>, calls: seq<Call>, l: Principal, ledger': Ledger)
    requires LedgersOk(env, ledgers, calls) && AnswersOk(env, ledgers, calls) && l in ledgers
    requires LedgerInv(ledger') && ledgers[l].blocks <= ledger'.blocks
    requires forall i :: |ledgers[l].blocks| <= i < |ledger'.blocks| ==> !PayoutBlock(env.self, ledger'.blocks[i])
    ensures
      var ledgers' := ledgers[l := ledger'];
      LedgersOk(env, ledgers', calls) && AnswersOk(env, ledgers', calls) && LedgersGrow(ledgers, ledgers')
  {
    var ledgers' := ledgers[l := ledger'];
    forall k | k in ledgers' ensures LedgerInv(ledgers'[k]) && OwnBlocks(env, k, ledgers'[k], calls) {
      OwnBlocksCarry(env, k, ledgers[k], ledgers'[k], calls, calls);
    }
    forall d | 0 <= d < |calls| ensures AnswerOk(env, ledgers', calls[d]) {
      assert AnswerOk(env, ledgers, calls[d]);
    }
  }

  // ---------- reconciliation ----------

  lemma ReconcileKeeps(env: Env, w: World, id: SpendId, outcome: PayoutOutcome)
    requires Inv(env, w)
    ensures Inv(env, ReconcileStep(w, id, outcome))
  {
    hide RecordsOk, SequencesDistinct, LiveOk, LiveHasTask, IssuedOk, TasksOk, PinsOk, CallsOk, StickyOk;
    hide LedgersOk, AnswersOk, SettledOk, BirthsOk, FeesOk;
    hide Normalize, TerminalStep, ClearCalls;
    NormalizeKeeps(env, w, id);
    NormalizedIs(w.pool, id);
    var n := w.(pool := Normalize(w.pool, id).0);
    var (p, r) := Reconcile(w.pool, id, outcome);
    if r == Ok(RevertedToPending) {
      RevertKeeps(env, n, id);
      ClearedSame(w, n, id, p);
    } else if p != n.pool {
      NotLiveUnlessSubmitting(n, id);
      FinalizeKeeps(env, n, id, Some(outcome.block));
      FinalizesSame(w, n, id, p);
    } else {
      FinalizesSame(w, n, id, p);
      NothingFinal(n, id);
    }
  }

  lemma NothingFinal(n: World, id: SpendId)
    ensures TerminalStep(n, id, n.pool) == n
  {
    assert n.accruals + [] == n.accruals;
  }

  lemma NotLiveUnlessSubmitting(w: World, id: SpendId)
    requires LiveOk(w.pool.records, w.pool.live)
    requires id in w.pool.records && w.pool.records[id].status != PayoutSubmitting
    ensures id !in w.pool.live
  {
  }

  /** Normalization itself never finalizes, so the accrual is the same seen from before it. */
  lemma FinalizesSame(w: World, n: World, id: SpendId, p: Pool)
    requires n == w.(pool := Normalize(w.pool, id).0)
    ensures TerminalStep(w, id, p) == TerminalStep(n, id, p)
  {
  }

  lemma RevertKeeps(env: Env, n: World, id: SpendId)
    requires id in n.pool.records && n.pool.records[id].status == PayoutUnknown
    requires n.pool.records[id].HasRetry() && n.pool.records[id].Retry().frozen.Some?
    requires Inv(env, n)
    ensures
      var p := Put(n.pool, id, n.pool.records[id].(status := PayoutPending));
      Inv(env, n.(pool := p, calls := ClearCalls(n, id, p)))
  {
    hide RecordsOk, SequencesDistinct, LiveOk, LiveHasTask, IssuedOk, TasksOk, PinsOk, CallsOk, StickyOk;
    hide LedgersOk, AnswersOk, SettledOk, BirthsOk;
    var rec := n.pool.records[id];
    var p := Put(n.pool, id, rec.(status := PayoutPending));
    FlagsKeep(env, n, ClearCalls(n, id, p));
    NotLiveUnlessSubmitting(n, id);
    RevertedOk(n, id);
    RewriteKeeps(env, n.(calls := ClearCalls(n, id, p)), id, rec.(status := PayoutPending));
  }

  /** Every doubtful transfer of the spend is cleared by the operator's assertion. */
  lemma RevertedOk(n: World, id: SpendId)
    requires RecordsOk(n.pool.control, n.pins, n.pool.records)
    requires StickyOk(n.pool.records, n.issued, n.calls)
    requires id in n.pool.records && n.pool.records[id].status == PayoutUnknown && n.pool.records[id].HasRetry()
    ensures
      var rec := n.pool.records[id].(status := PayoutPending);
      && RecordOk(n.pool.control, n.pins, id, rec) && SameIdentity(n.pool.records[id], rec)
      && StickyRecord(n.(calls := ClearCalls(n, id, Put(n.pool, id, rec))), rec)
  {
    var rec := n.pool.records[id];
    assert RecordOk(n.pool.control, n.pins, id, rec);
    forall c | 0 <= c < |n.calls| && n.calls[c].task < |n.issued|
      ensures StickyFor(rec, n.issued[n.calls[c].task], n.calls[c])
    {
    }
  }

  lemma ClearedSame(w: World, n: World, id: SpendId, p: Pool)
    requires n == w.(pool := Normalize(w.pool, id).0)
    requires id in p.records && p.records[id].status == PayoutPending
    ensures TerminalStep(w, id, p).(calls := ClearCalls(w, id, p)) == n.(pool := p, calls := ClearCalls(n, id, p))
  {
    assert ClearCalls(w, id, p) == ClearCalls(n, id, p);
    assert w.accruals + [] == w.accruals;
  }
}
