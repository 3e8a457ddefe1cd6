/**
The payout executor as the canister runs it: stable control cell, spend records and the
volatile executor map updated in place. Every method is one no-await segment and is proved
equal to its specification in `PayoutSegments`.
*/
module PayoutPlane {
  import opened Wrappers
  import opened ByteStrings
  import opened TokenLedger
  import opened PayoutTypes
  import opened PayoutSegments

  class Executor {
    const env: Env
    var cell: Bytes
    var records: map<SpendId, PendingSpend>
    var live: map<SpendId, Attempt>
    var accrued: FeeSplit

    /** The stable control cell decodes; everything else is unconstrained here. */
    ghost predicate Valid()
      reads this
    {
      DecodeControl(cell).Some?
    }

    ghost function State(): Pool
      requires Valid()
      reads this
    {
      Pool(DecodeControl(cell).value, records, live, accrued)
    }

    constructor (env: Env, legacy: map<SpendId, PendingSpend>)
      ensures this.env == env
      ensures Valid() && State() == Pool(INITIAL_CONTROL, legacy, map[], FeeSplit(0, 0, 0))
    {
      this.env := env;
      cell := EncodeControl(INITIAL_CONTROL);
      records := legacy;
      live := map[];
      accrued := FeeSplit(0, 0, 0);
      ControlRoundTrip(INITIAL_CONTROL);
    }

    method ReadControl() returns (c: Control)
      requires Valid()
      ensures c == State().control && c.Valid()
    {
      ControlCanonical(cell);
      c := DecodeControl(cell).value;
    }

    method WriteControl(c: Control)
      requires Valid() && c.Valid()
      modifies this`cell
      ensures Valid() && State() == old(State()).(control := c)
    {
      ControlRoundTrip(c);
      cell := EncodeControl(c);
    }

    method PayoutControlUpgrade() returns (trapped: bool)
      requires Valid()
      modifies this
      ensures Valid()
      ensures trapped <==> Upgrade(old(State())).None?
      ensures State() == if trapped then old(State()) else Upgrade(old(State())).value
    {
      var c := ReadControl();
      if c.boot + 1 > U64_MAX {
        return true;
      }
      WriteControl(c.(boot := c.boot + 1));
      live := map[];
      trapped := false;
    }

    method FinishProvisioning(initialBoot: nat, beacon: Option<Bytes>) returns (r: Result<bool, PoolError>)
      requires Valid()
      modifies this
      ensures Valid() && (State(), r) == ProvisionKey(old(State()), initialBoot, beacon)
    {
      if beacon.None? || |beacon.value| != 32 {
        return Err(PayoutMemoKeyNotReady);
      }
      var latest := ReadControl();
      if latest.boot != initialBoot {
        return Err(PayoutStateInvalid);
      }
      if latest.key.None? {
        WriteControl(latest.(key := Some(beacon.value)));
      }
      r := Ok(true);
    }

    method ReservePayoutSequence() returns (r: Result<RetryState, PoolError>)
      requires Valid()
      modifies this
      ensures Valid() && (State(), r) == ReserveSequence(old(State()))
    {
      var c := ReadControl();
      if c.key.None? {
        return Err(PayoutMemoKeyNotReady);
      }
      var sequence := c.next;
      if c.next + 1 > U128_MAX {
        return Err(PayoutStateInvalid);
      }
      WriteControl(c.(next := c.next + 1));
      r := Ok(RetryState(sequence, 0, c.boot, PreDispatch, false, false, None));
    }

    method NormalizePayout(id: SpendId) returns (r: Result<PendingSpend, PoolError>)
      requires Valid()
      modifies this`records
      ensures Valid() && (State(), r) == Normalize(old(State()), id)
    {
      if id !in records {
        return Err(SpendNotFound);
      }
      var rec := records[id];
      var c := ReadControl();
      if rec.payout.Some? && ValidateRetry(rec.payout.value, c).Err? {
        return Err(PayoutStateInvalid);
      }
      if rec.status != PayoutSubmitting {
        return Ok(rec);
      }
      if id in live {
        return Ok(rec);
      }
      if rec.payout.None? || rec.payout.value.retry.None? {
        rec := rec.(status := PayoutUnknown);
        records := records[id := rec];
        return Ok(rec);
      }
      var retry := rec.payout.value.retry.value;
      if retry.boot > c.boot || retry.generation == 0 {
        return Err(PayoutStateInvalid);
      }
      var ambiguous := retry.phase == MayHaveDispatched || retry.priorAmbiguity;
      if ambiguous {
        retry := retry.(priorAmbiguity := true);
        rec := rec.(payout := Some(rec.payout.value.(retry := Some(retry))));
      }
      rec := rec.(status := if ambiguous then PayoutUnknown else PayoutPending);
      records := records[id := rec];
      r := Ok(rec);
    }

    method ClaimPayout(id: SpendId) returns (r: Result<Attempt, PoolError>)
      requires Valid()
      modifies this`records, this`live
      ensures Valid() && (State(), r) == Claim(old(State()), id)
    {
      var found := NormalizePayout(id);
      if found.Err? {
        return Err(found.error);
      }
      var rec := found.value;
      if rec.status != PayoutPending {
        return Err(PayoutNotPending);
      }
      if !rec.HasRetry() {
        return Err(PayoutLegacyHold);
      }
      if |live| >= MAX_LIVE_PAYOUT_ATTEMPTS {
        return Err(PayoutExecutorBusy);
      }
      if id in live {
        return Err(PayoutNotPending);
      }
      var retry := rec.Retry();
      if retry.generation + 1 > U64_MAX || retry.memoSequence > U128_MAX {
        return Err(PayoutStateInvalid);
      }
      var c := ReadControl();
      retry := retry.(generation := retry.generation + 1, boot := c.boot, phase := PreDispatch);
      var a := AttemptOf(id, retry);
      live := live[id := a];
      rec := rec.WithRetry(retry).(status := PayoutSubmitting);
      records := records[id := rec];
      r := Ok(a);
    }

    method ReleaseGuard(a: Attempt)
      requires Valid()
      modifies this`live
      ensures Valid() && State() == DropGuard(old(State()), a)
    {
      if a.id in live && live[a.id] == a {
        live := live - {a.id};
      }
    }

    method CheckOwned(a: Attempt) returns (r: Result<PendingSpend, PoolError>)
      requires Valid()
      ensures r == Owned(State(), a)
      ensures r.Ok? <==> Owns(State(), a)
    {
      if a.id !in records {
        return Err(SpendNotFound);
      }
      var rec := records[a.id];
      if !rec.HasRetry() {
        return Err(PayoutLegacyHold);
      }
      var retry := rec.Retry();
      if rec.status != PayoutSubmitting || retry.memoSequence > U128_MAX || AttemptOf(a.id, retry) != a
         || !(a.id in live && live[a.id] == a) {
        return Err(PayoutStateInvalid);
      }
      r := Ok(rec);
    }

    method FailAttempt(a: Attempt, error: PoolError, ambiguous: bool) returns (progress: Progress)
      requires Valid()
      modifies this`records
      ensures Valid() && (State(), progress) == FinishError(old(State()), a, error, ambiguous)
    {
      var rec := CheckOwned(a);
      if rec.Err? {
        return Finished(Err(rec.error));
      }
      var retry := rec.value.Retry();
      retry := retry.(priorAmbiguity := retry.priorAmbiguity || ambiguous);
      var status := if retry.priorAmbiguity then PayoutUnknown else PayoutPending;
      records := records[a.id := rec.value.WithRetry(retry).(status := status)];
      progress := Finished(Err(error));
    }

    method TerminalPayout(id: SpendId, block: Option<nat>) returns (r: Result<(), PoolError>)
      requires Valid()
      modifies this`records, this`accrued
      ensures Valid() && (State(), r) == Terminal(old(State()), id, block)
    {
      if id !in records {
        return Err(SpendNotFound);
      }
      var rec := records[id];
      if rec.status == Finalized {
        return Ok(());
      }
      if block.Some? {
        if rec.payout.None? {
          return Err(WrongSpendStatus);
        }
        rec := rec.(payout := Some(rec.payout.value.(blockIndex := block)));
      }
      // The terminal mark keeps the status of a record that already failed.
      if rec.status != Failed {
        rec := rec.(status := Finalized);
      }
      records := records[id := rec];
      if rec.split.Some? {
        var s := rec.split.value;
        accrued := FeeSplit(SatAdd(accrued.operations, s.operations, U128_MAX),
                            SatAdd(accrued.insurance, s.insurance, U128_MAX),
                            SatAdd(accrued.staking, s.staking, U128_MAX));
      }
      r := Ok(());
    }

    /** What the window accrued is taken out before its row is published. */
    method DrainFeeAccrual() returns (row: FeeSplit)
      requires Valid()
      modifies this`accrued
      ensures Valid() && (State(), row) == Drain(old(State()))
    {
      row := accrued;
      accrued := FeeSplit(0, 0, 0);
    }

    method RunBegin(a: Attempt, configured: Principal) returns (progress: Progress)
      requires Valid()
      modifies this`records
      ensures Valid() && (State(), progress) == Begin(old(State()), a, configured)
    {
      var rec := CheckOwned(a);
      if rec.Err? {
        return Finished(Err(rec.error));
      }
      var c := ReadControl();
      if ValidateRetry(rec.value.payout.value, c).Err? {
        return Finished(Err(PayoutStateInvalid));
      }
      var r := rec.value.Retry();
      var ledger := if r.frozen.Some? then r.frozen.value.ledger else configured;
      if !r.dispatched {
        return AskBalance(ledger, rec.value.payout.value.publicAmount, r.frozen.Some?);
      }
      if r.frozen.None? {
        return AskFee(ledger);
      }
      progress := RunDispatch(a);
    }

    method RunAfterBalance(a: Attempt, ledger: Principal, required: nat, frozenKnown: bool, balance: Option<nat>)
      returns (progress: Progress)
      requires Valid()
      modifies this`records
      ensures Valid()
      ensures (State(), progress) == AfterBalance(old(State()), a, ledger, required, frozenKnown, balance)
    {
      var rec := CheckOwned(a);
      if rec.Err? {
        return Finished(Err(rec.error));
      }
      if balance.None? {
        progress := FailAttempt(a, TransferFailed, false);
      } else if balance.value < required {
        progress := FailAttempt(a, EscrowUnderfunded(required, balance.value), false);
      } else if !frozenKnown {
        progress := AskFee(ledger);
      } else {
        progress := RunDispatch(a);
      }
    }

    method RunAfterFee(a: Attempt, ledger: Principal, fee: Option<nat>, stamp: nat) returns (progress: Progress)
      requires Valid()
      modifies this`records
      ensures Valid() && (State(), progress) == AfterFee(env, old(State()), a, ledger, fee, stamp)
    {
      var latest := CheckOwned(a);
      if latest.Err? {
        return Finished(Err(latest.error));
      }
      var payout := latest.value.payout.value;
      var c := ReadControl();
      if fee.None? {
        progress := FailAttempt(a, TransferFailed, false);
      } else if payout.publicAmount <= fee.value {
        progress := FailAttempt(a, GrossAmountBelowFees(payout.publicAmount, fee.value), false);
      } else if c.key.None? {
        progress := FailAttempt(a, PayoutMemoKeyNotReady, false);
      } else {
        var retry := latest.value.Retry();
        var memo := env.Memo(c.key.value, ledger, a.id, retry.memoSequence);
        var request := FrozenPayout(ledger, None, payout.destination, payout.destinationSubaccount,
                                    payout.publicAmount - fee.value, Some(fee.value), Some(memo), Some(stamp));
        retry := retry.(frozen := Some(request));
        payout := payout.(ledgerCreatedAt := Some(stamp), retry := Some(retry));
        records := records[a.id := latest.value.(payout := Some(payout))];
        progress := RunDispatch(a);
      }
    }

    method RunDispatch(a: Attempt) returns (progress: Progress)
      requires Valid()
      modifies this`records
      ensures Valid() && (State(), progress) == Dispatch(old(State()), a)
    {
      var latest := CheckOwned(a);
      if latest.Err? {
        return Finished(Err(latest.error));
      }
      var retry := latest.value.Retry();
      if retry.frozen.None? {
        return Finished(Err(PayoutStateInvalid));
      }
      var request := retry.frozen.value;
      retry := retry.(phase := MayHaveDispatched, dispatched := true);
      records := records[a.id := latest.value.WithRetry(retry)];
      progress := Send(request);
    }

    method RunAfterTransfer(a: Attempt, outcome: TransferOutcome) returns (progress: Progress)
      requires Valid()
      modifies this`records, this`accrued
      ensures Valid() && (State(), progress) == AfterTransfer(old(State()), a, outcome)
    {
      var rec := CheckOwned(a);
      if rec.Err? {
        return Finished(Err(rec.error));
      }
      match outcome {
        case Transport =>
          progress := FailAttempt(a, TransferFailed, true);
        case Answer(reply) =>
          match reply {
            case Accepted(b) =>
              var done := TerminalPayout(a.id, Some(b));
              progress := Finished(if done.Ok? then Ok(b) else Err(done.error));
            case Duplicate(b) =>
              var done := TerminalPayout(a.id, Some(b));
              progress := Finished(if done.Ok? then Ok(b) else Err(done.error));
            case _ =>
              progress := FailAttempt(a, TransferFailed, reply.BadFee? || reply.TooOld? || reply.CreatedInFuture?);
          }
      }
    }

    method ReconcilePayout(id: SpendId, outcome: PayoutOutcome) returns (r: Result<ReconcileResult, PoolError>)
      requires Valid()
      modifies this`records, this`accrued
      ensures Valid() && (State(), r) == Reconcile(old(State()), id, outcome)
    {
      var found := NormalizePayout(id);
      if found.Err? {
        return Err(found.error);
      }
      var rec := found.value;
      if rec.status == PayoutSubmitting {
        return Err(PayoutNotPending);
      }
      if rec.status == Finalized {
        if rec.payout.Some? && rec.payout.value.blockIndex.Some? {
          return Ok(AlreadyExecuted(rec.payout.value.blockIndex.value));
        }
        return Err(WrongSpendStatus);
      }
      var legacyPending := rec.status == PayoutPending && rec.payout.Some? && rec.payout.value.retry.None?;
      if rec.status != PayoutUnknown && !legacyPending {
        return Err(WrongSpendStatus);
      }
      if legacyPending && !outcome.Executed? {
        return Err(PayoutLegacyHold);
      }
      match outcome {
        case Executed(block) =>
          var done := TerminalPayout(id, Some(block));
          r := if done.Ok? then Ok(SettledAt(block)) else Err(done.error);
        case NotExecuted =>
          if rec.payout.None? || rec.payout.value.retry.None? || rec.payout.value.retry.value.frozen.None? {
            return Err(PayoutLegacyHold);
          }
          records := records[id := rec.(status := PayoutPending)];
          r := Ok(RevertedToPending);
      }
    }
  }
}
