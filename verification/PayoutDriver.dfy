/**
The executor object over whole runs: each event of the payout world is carried out by calling the
segment methods the canister calls, so what holds in every run holds of the object's own state.
*/
module PayoutDriver {
  import opened Wrappers
  import opened ByteStrings
  import opened TokenLedger
  import opened PayoutTypes
  import opened PayoutSegments
  import opened PayoutPlane
  import opened PayoutWorld
  import opened PayoutInvariant
  import opened PayoutRuns
  import opened PayoutTheorems

  /** Admission stores the record with the ordinal reserved for it in the same segment. */
  method AdmitSpend(x: Executor, id: SpendId, terms: Option<PayoutTerms>, split: Option<FeeSplit>, ghost w: World)
    requires x.Valid() && x.State() == w.pool
    modifies x
    ensures x.Valid() && x.State() == AdmitStep(w, id, terms, split).pool
  {
    if terms.None? {
      x.records := x.records[id := PendingSpend(None, PrePayout, split)];
      return;
    }
    var reserved := x.ReservePayoutSequence();
    if reserved.Ok? {
      var t := terms.value;
      x.records := x.records[id := PendingSpend(
        Some(PublicPayout(t.destination, t.subaccount, t.gross, None, None, Some(reserved.value))), PrePayout, split)];
    }
  }

  /** One wake-up of a suspended future: its segment, and the guard's drop if the future ends with it. */
  method Wakeup(x: Executor, w: World, t: nat, wake: Wake)
    requires x.Valid() && x.State() == w.pool
    requires t in w.tasks && t < |w.issued| && Wakes(w, w.tasks[t], wake)
    modifies x
    ensures x.Valid()
    ensures
      var (p, progress) := Segment(x.env, w, w.issued[t], w.tasks[t], wake);
      x.State() == Leave(p, w.issued[t], progress)
  {
    hide Begin, AfterBalance, AfterFee, AfterTransfer, DropGuard;
    var a := w.issued[t];
    var progress: Progress;
    match w.tasks[t] {
      case AtStart(configured) => progress := x.RunBegin(a, configured);
      case AwaitBalance(l, required, known) => progress := x.RunAfterBalance(a, l, required, known, wake.balance);
      case AwaitFee(l) => progress := x.RunAfterFee(a, l, wake.fee, wake.stamp);
      case AwaitTransfer(c) =>
        progress := x.RunAfterTransfer(a, if wake.Replied? then Answer(w.calls[c].answer.value) else Transport);
    }
    if progress.Finished? {
      x.ReleaseGuard(a);
    }
  }

  method Perform(x: Executor, w: World, e: Event)
    requires x.Valid() && x.State() == w.pool && Enabled(x.env, w, e)
    modifies x
    ensures x.Valid() && x.State() == Step(x.env, w, e).pool
  {
    hide Segment, Transfer, Normalize, Claim, Reconcile, Terminal, ProvisionKey, Upgrade, Drain, DropGuard, DecodeControl;
    hide AdmitStep, ClaimStep, ReconcileStep, ResumeStep, LedgerStep, TerminalStep;
    match e {
      case Admit(id, terms, split) => AdmitSpend(x, id, terms, split, w);
      case Promote(id) => x.records := x.records[id := x.records[id].(status := PayoutPending)];
      case FinishWithoutPayout(id) =>
        TerminalTouches(w, id, Terminal(w.pool, id, None).0);
        var done := x.TerminalPayout(id, None);
      case Abandon(id) => x.records := x.records[id := x.records[id].(status := Failed)];
      case Forget(id) => x.records := x.records - {id};
      case Provision(boot, beacon) => var provisioned := x.FinishProvisioning(boot, beacon);
      case Upgraded => var trapped := x.PayoutControlUpgrade();
      case Normalized(id) => var normalized := x.NormalizePayout(id);
      case Claims(id, configured) =>
        ClaimTouches(w, id, configured);
        var claimed := x.ClaimPayout(id);
      case Resume(t, wake) =>
        ResumeTouches(x.env, w, t, wake);
        Wakeup(x, w, t, wake);
      case LoseGuard(t) => x.ReleaseGuard(w.issued[t]);
      case Reconciled(id, outcome) =>
        ReconcileTouches(w, id, outcome);
        var reconciled := x.ReconcilePayout(id, outcome);
      case FlushFees => var row := x.DrainFeeAccrual();
      case LedgerHandles(c, cond) => LedgerTouches(x.env, w, c, cond);
      case LedgerServesOther(_, _, _, _) =>
    }
  }

  /**
  Every run of the payout world is a run of the object: after any number of claims, crashes,
  upgrades, answers and reconciliations its records pass validation, it holds at most 64 executor
  slots, each for a record it is submitting, and its accrual cell holds exactly the open window.
  */
  method PerformRun(x: Executor, ws: seq<World>, es: seq<Event>)
    requires x.env.SoundMac() && Run(x.env, ws, es) && x.Valid() && x.State() == ws[0].pool
    modifies x
    ensures x.Valid() && x.State() == ws[|es|].pool
    ensures |x.live| <= MAX_LIVE_PAYOUT_ATTEMPTS
    ensures forall id :: id in x.live ==> Owns(x.State(), x.live[id])
    ensures forall id :: id in x.records && x.records[id].payout.Some? ==>
              ValidateRetry(x.records[id].payout.value, x.State().control) == Ok(())
    ensures FeesOk(x.accrued, ws[|es|].accruals, ws[|es|].flushes)
  {
    hide Step, Enabled, Init, Inv, FeesOk, ValidateRetry, Owns, Env.SoundMac;
    var i := 0;
    while i < |es|
      invariant 0 <= i <= |es| && x.Valid() && x.State() == ws[i].pool
    {
      RunStep(x.env, ws, es, i);
      Perform(x, ws[i], es[i]);
      i := i + 1;
    }
    FeesFlushedOnce(x.env, ws, es, |es|);
    ExecutorMapIsExact(x.env, ws, es, |es|, 0);
    forall id | id in x.live ensures Owns(x.State(), x.live[id]) {
      ExecutorMapIsExact(x.env, ws, es, |es|, id);
    }
    forall id | id in x.records && x.records[id].payout.Some?
      ensures ValidateRetry(x.records[id].payout.value, x.State().control) == Ok(())
    {
      AlwaysValid(x.env, ws, es, |es|, id);
    }
  }
}
