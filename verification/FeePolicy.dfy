/**
Fee arithmetic: the value fee, the withdrawal preview, the split of a fee into reserves, and the
books they are applied to. All amounts are 128-bit, all multiplications checked.
*/
module FeePolicy {
  import opened Arithmetic
  import opened Wrappers

  const BPS_DENOMINATOR: nat := 10_000
  const FEE_BPS_FLOOR: nat := 1
  const FEE_BPS_CEILING: nat := 500
  const FLAT_MINIMUM_FEE_FLOOR: nat := 10_000_000
  const FLAT_MINIMUM_FEE_CEILING: nat := 500_000_000
  const PRIVATE_SPEND_FEE_FLOOR: nat := 10_000_000
  const PRIVATE_SPEND_FEE_CEILING: nat := 500_000_000
  const FEE_UPDATE_COOLDOWN_NS: nat := 24 * 60 * 60 * 1_000_000_000
  const LAUNCH_FEE_BPS: nat := 0
  const LAUNCH_FLAT_MINIMUM: nat := 0

  datatype RateField = ShieldBps | UnshieldBps
  datatype AmountField = ShieldFlat | UnshieldFlat | SpendFee

  datatype FeeError =
    | ArithmeticOverflow
    | InvalidFeeSplitBps
    | WithdrawalBelowMinimum
    | GrossAmountBelowFees(totalFee: nat)
    | RecipientBelowMinimum(net: nat)
    | InsufficientPrivateBalance
    | InsufficientEscrow(required: nat)
    | BpsAboveOneHundredPercent(rate: RateField)
    | FeeRateOutOfRange(rate: RateField)
    | FeeAmountOutOfRange(field: AmountField)
    | FeeUpdateCooldownFieldMismatch

  /** The fee-bearing part of the governance parameters; an unset rate or minimum means launch default. */
  datatype Params = Params(
    minimumGross: nat, minimumRecipient: nat, spendFee: nat,
    operationsBps: nat, insuranceBps: nat, stakingBps: nat, stakingEnabled: bool,
    shieldBps: Option<nat>, unshieldBps: Option<nat>, shieldFlat: Option<nat>, unshieldFlat: Option<nat>,
    cooldownNs: nat)
  {
    /** The ranges of the field types. */
    predicate InRange() {
      && minimumGross <= U128_MAX && minimumRecipient <= U128_MAX && spendFee <= U128_MAX
      && operationsBps <= U32_MAX && insuranceBps <= U32_MAX && stakingBps <= U32_MAX
      && (shieldBps.Some? ==> shieldBps.value <= U16_MAX) && (unshieldBps.Some? ==> unshieldBps.value <= U16_MAX)
      && (shieldFlat.Some? ==> shieldFlat.value <= U128_MAX) && (unshieldFlat.Some? ==> unshieldFlat.value <= U128_MAX)
    }

    function Rate(f: RateField): nat {
      match f
      case ShieldBps => if shieldBps.Some? then shieldBps.value else LAUNCH_FEE_BPS
      case UnshieldBps => if unshieldBps.Some? then unshieldBps.value else LAUNCH_FEE_BPS
    }

    function Amount(f: AmountField): nat {
      match f
      case ShieldFlat => if shieldFlat.Some? then shieldFlat.value else LAUNCH_FLAT_MINIMUM
      case UnshieldFlat => if unshieldFlat.Some? then unshieldFlat.value else LAUNCH_FLAT_MINIMUM
      case SpendFee => spendFee
    }
  }

  function CheckedMul(a: nat, b: nat): Result<nat, FeeError> {
    if a * b <= U128_MAX then Ok(a * b) else Err(ArithmeticOverflow)
  }

  // ---------- absolute bounds ----------

  predicate RateInBounds(bps: nat) {
    FEE_BPS_FLOOR <= bps <= FEE_BPS_CEILING
  }

  function Floor(f: AmountField): nat {
    if f == SpendFee then PRIVATE_SPEND_FEE_FLOOR else FLAT_MINIMUM_FEE_FLOOR
  }

  function Ceiling(f: AmountField): nat {
    if f == SpendFee then PRIVATE_SPEND_FEE_CEILING else FLAT_MINIMUM_FEE_CEILING
  }

  ghost predicate InBounds(p: Params) {
    && (forall f: RateField :: RateInBounds(p.Rate(f)))
    && (forall f: AmountField :: Floor(f) <= p.Amount(f) <= Ceiling(f))
    && p.cooldownNs == FEE_UPDATE_COOLDOWN_NS
  }

  /** Accepts exactly the in-bounds parameters; an error names a field that really is out of bounds. */
  method ValidateFeeBounds(p: Params) returns (r: Option<FeeError>)
    ensures r.None? <==> InBounds(p)
    ensures r.Some? && r.value.BpsAboveOneHundredPercent? ==> p.Rate(r.value.rate) > BPS_DENOMINATOR
    ensures r.Some? && r.value.FeeRateOutOfRange? ==>
              !RateInBounds(p.Rate(r.value.rate)) && p.Rate(r.value.rate) <= BPS_DENOMINATOR
    ensures r.Some? && r.value.FeeAmountOutOfRange? ==>
              && (forall f: RateField :: RateInBounds(p.Rate(f)))
              && !(Floor(r.value.field) <= p.Amount(r.value.field) <= Ceiling(r.value.field))
    ensures r.Some? ==>
              || r.value.BpsAboveOneHundredPercent? || r.value.FeeRateOutOfRange?
              || r.value.FeeAmountOutOfRange? || r.value.FeeUpdateCooldownFieldMismatch?
  {
    var rates := [ShieldBps, UnshieldBps];
    var i := 0;
    while i < |rates|
      invariant 0 <= i <= |rates|
      invariant forall k :: 0 <= k < i ==> RateInBounds(p.Rate(rates[k]))
    {
      var bps := p.Rate(rates[i]);
      if bps > BPS_DENOMINATOR {
        return Some(BpsAboveOneHundredPercent(rates[i]));
      }
      if bps < FEE_BPS_FLOOR || bps > FEE_BPS_CEILING {
        return Some(FeeRateOutOfRange(rates[i]));
      }
      i := i + 1;
    }
    assert rates[0] == ShieldBps && rates[1] == UnshieldBps;
    var amounts := [ShieldFlat, UnshieldFlat, SpendFee];
    i := 0;
    while i < |amounts|
      invariant 0 <= i <= |amounts|
      invariant forall k :: 0 <= k < i ==> Floor(amounts[k]) <= p.Amount(amounts[k]) <= Ceiling(amounts[k])
    {
      var amount := p.Amount(amounts[i]);
      if amount < Floor(amounts[i]) || amount > Ceiling(amounts[i]) {
        return Some(FeeAmountOutOfRange(amounts[i]));
      }
      i := i + 1;
    }
    assert amounts[0] == ShieldFlat && amounts[1] == UnshieldFlat && amounts[2] == SpendFee;
    if p.cooldownNs != FEE_UPDATE_COOLDOWN_NS {
      return Some(FeeUpdateCooldownFieldMismatch);
    }
    r := None;
  }

  // ---------- value fee and withdrawal preview ----------

  function ValueFee(amount: nat, bps: nat, flatMinimum: nat): Result<nat, FeeError> {
    var product := CheckedMul(amount, bps);
    if product.Err? then Err(product.error) else Ok(Max(flatMinimum, product.value / BPS_DENOMINATOR))
  }

  function UnshieldFee(p: Params, amount: nat): Result<nat, FeeError> {
    ValueFee(amount, p.Rate(UnshieldBps), p.Amount(UnshieldFlat))
  }

  datatype Preview = Preview(gross: nat, ledgerFee: nat, protocolFee: nat, net: nat, ledgerDebit: nat)

  function ComputeWithdrawalPreview(gross: nat, ledgerFee: nat, p: Params): Result<Preview, FeeError> {
    var fee := UnshieldFee(p, gross);
    if fee.Err? then Err(fee.error)
    else if gross < p.minimumGross then Err(WithdrawalBelowMinimum)
    else if ledgerFee + fee.value > U128_MAX then Err(ArithmeticOverflow)
    else
      var total := ledgerFee + fee.value;
      if gross <= total then Err(GrossAmountBelowFees(total))
      else if gross - total < p.minimumRecipient then Err(RecipientBelowMinimum(gross - total))
      else if gross - total + ledgerFee > U128_MAX then Err(ArithmeticOverflow)
      else Ok(Preview(gross, ledgerFee, fee.value, gross - total, gross - total + ledgerFee))
  }

  function PrecheckWithdrawal(gross: nat, ledgerFee: nat, privateBalance: nat, escrowBalance: nat, p: Params): Result<Preview, FeeError> {
    var preview := ComputeWithdrawalPreview(gross, ledgerFee, p);
    if preview.Err? then preview
    else if privateBalance < gross then Err(InsufficientPrivateBalance)
    else if escrowBalance < preview.value.ledgerDebit then Err(InsufficientEscrow(preview.value.ledgerDebit))
    else preview
  }

  datatype Delta = Delta(liabilityDecrease: nat, escrowDecrease: nat, operationsIncrease: nat, ledgerOut: nat)

  function WithdrawalAccountingDelta(v: Preview): Delta {
    Delta(v.gross, v.gross, v.protocolFee, v.ledgerDebit)
  }

  /** The protocol fee on an unshielded amount: the rate's share, but never less than the flat minimum. */
  function FeeOn(gross: nat, p: Params): nat {
    Max(p.Amount(UnshieldFlat), gross * p.Rate(UnshieldBps) / 10_000)
  }

  /** The fee fits 128 bits, the amount is large enough, and after both fees the recipient gets enough of it. */
  predicate Withdrawable(gross: nat, ledgerFee: nat, p: Params) {
    && gross * p.Rate(UnshieldBps) <= U128_MAX && p.minimumGross <= gross
    && ledgerFee + FeeOn(gross, p) < gross && p.minimumRecipient <= gross - ledgerFee - FeeOn(gross, p)
  }

  /**
  A withdrawal is accepted exactly if it is withdrawable. The recipient then gets the amount less
  both fees, the ledger is debited the amount less the protocol fee, the protocol fee goes to the
  reserves, and escrow and liability fall by the whole amount.
  */
  lemma PreviewConserves(gross: nat, ledgerFee: nat, p: Params)
    requires gross <= U128_MAX && ledgerFee <= U128_MAX && p.InRange()
    ensures
      var r := ComputeWithdrawalPreview(gross, ledgerFee, p);
      && (r.Ok? <==> Withdrawable(gross, ledgerFee, p))
      && (r.Ok? ==>
            var v, delta := r.value, WithdrawalAccountingDelta(r.value);
            && v.gross == gross && v.ledgerFee == ledgerFee && v.protocolFee == FeeOn(gross, p)
            && v.net == gross - ledgerFee - FeeOn(gross, p) && v.net > 0 && v.ledgerDebit == gross - FeeOn(gross, p)
            && delta.liabilityDecrease == gross && delta.escrowDecrease == gross
            && delta.operationsIncrease == FeeOn(gross, p) && delta.ledgerOut == gross - FeeOn(gross, p))
  {
  }

  /** Why a withdrawal is refused: arithmetic, the minimum amount, the fees, the minimum for the recipient, in this order. */
  lemma PreviewRefusals(gross: nat, ledgerFee: nat, p: Params)
    requires gross <= U128_MAX && ledgerFee <= U128_MAX && p.InRange()
    ensures
      var r := ComputeWithdrawalPreview(gross, ledgerFee, p);
      var total := ledgerFee + FeeOn(gross, p);
      var computed := gross * p.Rate(UnshieldBps) <= U128_MAX;
      var enough := computed && p.minimumGross <= gross;
      && (r == Err(ArithmeticOverflow) <==> !computed || (enough && total > U128_MAX))
      && (r == Err(WithdrawalBelowMinimum) <==> computed && gross < p.minimumGross)
      && (r == Err(GrossAmountBelowFees(total)) <==> enough && total <= U128_MAX && gross <= total)
      && (r.Err? && r.error.RecipientBelowMinimum? <==> enough && total < gross && gross - total < p.minimumRecipient)
      && (r.Err? && r.error.RecipientBelowMinimum? ==> r.error.net == gross - total)
  {
  }

  /** The precheck adds that the private balance covers the amount, and escrow what leaves the ledger. */
  lemma PrecheckExactly(gross: nat, ledgerFee: nat, private: nat, escrow: nat, p: Params)
    requires gross <= U128_MAX && ledgerFee <= U128_MAX && p.InRange()
    ensures
      var r := PrecheckWithdrawal(gross, ledgerFee, private, escrow, p);
      && (r.Ok? <==> Withdrawable(gross, ledgerFee, p) && gross <= private && gross - FeeOn(gross, p) <= escrow)
      && (r.Ok? ==> r == ComputeWithdrawalPreview(gross, ledgerFee, p))
      && (Withdrawable(gross, ledgerFee, p) && private < gross ==> r == Err(InsufficientPrivateBalance))
      && (Withdrawable(gross, ledgerFee, p) && gross <= private && escrow < gross - FeeOn(gross, p) ==>
            r == Err(InsufficientEscrow(gross - FeeOn(gross, p))))
  {
    PreviewConserves(gross, ledgerFee, p);
  }

  /** At a rate of at most 100% the fee never grows by more than the amount does. */
  lemma FeeGrowsSlower(small: nat, large: nat, bps: nat, flat: nat)
    requires small <= large && bps <= BPS_DENOMINATOR
    ensures
      var f := Max(flat, small * bps / BPS_DENOMINATOR);
      var g := Max(flat, large * bps / BPS_DENOMINATOR);
      f <= g <= f + (large - small)
  {
    MulMonotone(small, large, bps);
    MulMonotone(bps, BPS_DENOMINATOR, large - small);
    assert large * bps - small * bps == (large - small) * bps <= (large - small) * BPS_DENOMINATOR;
  }

  /** A rate of 100% or more leaves nothing to pay out. */
  lemma FullRateAcceptsNothing(gross: nat, ledgerFee: nat, p: Params)
    requires p.Rate(UnshieldBps) >= BPS_DENOMINATOR
    ensures ComputeWithdrawalPreview(gross, ledgerFee, p).Err?
  {
    MulMonotone(BPS_DENOMINATOR, p.Rate(UnshieldBps), gross);
    assert gross * BPS_DENOMINATOR / BPS_DENOMINATOR == gross;
    assert gross * p.Rate(UnshieldBps) >= gross * BPS_DENOMINATOR;
  }

  /**
  The recipient never loses by withdrawing more: the net never decreases, and an amount above an
  accepted one is accepted too unless the checked multiplication overflows. This needs no bound
  on the parameters.
  */
  lemma NetMonotone(small: nat, large: nat, ledgerFee: nat, p: Params)
    requires small <= large <= U128_MAX && ledgerFee <= U128_MAX && p.InRange()
    requires ComputeWithdrawalPreview(small, ledgerFee, p).Ok?
    ensures
      var r := ComputeWithdrawalPreview(large, ledgerFee, p);
      && (r.Ok? <==> large * p.Rate(UnshieldBps) <= U128_MAX)
      && (r.Ok? ==> ComputeWithdrawalPreview(small, ledgerFee, p).value.net <= r.value.net)
  {
    if p.Rate(UnshieldBps) >= BPS_DENOMINATOR {
      FullRateAcceptsNothing(small, ledgerFee, p);
    } else {
      FeeGrowsSlower(small, large, p.Rate(UnshieldBps), p.Amount(UnshieldFlat));
    }
  }

  /** In-bounds parameters charge between 0.1 token and the larger of 5 tokens and 5% of the amount, without overflow. */
  lemma InBoundsFee(amount: nat, p: Params)
    requires InBounds(p) && amount * FEE_BPS_CEILING <= U128_MAX
    ensures UnshieldFee(p, amount).Ok?
    ensures FLAT_MINIMUM_FEE_FLOOR <= UnshieldFee(p, amount).value
    ensures UnshieldFee(p, amount).value <= Max(FLAT_MINIMUM_FEE_CEILING, amount * FEE_BPS_CEILING / BPS_DENOMINATOR)
  {
    var rate := p.Rate(UnshieldBps);
    assert RateInBounds(rate);
    MulMonotone(rate, FEE_BPS_CEILING, amount);
    assert Floor(UnshieldFlat) <= p.Amount(UnshieldFlat) <= Ceiling(UnshieldFlat);
  }

  // ---------- the reserve split ----------

  function ValidateSplitBps(p: Params): Option<FeeError> {
    if p.operationsBps + p.insuranceBps > U32_MAX then Some(ArithmeticOverflow)
    else if p.operationsBps + p.insuranceBps + p.stakingBps > U32_MAX then Some(ArithmeticOverflow)
    else if p.operationsBps + p.insuranceBps + p.stakingBps != BPS_DENOMINATOR then Some(InvalidFeeSplitBps)
    else None
  }

  /** The part of the staking share that goes to operations. */
  function ExtraShare(staking: nat, ops: nat, both: nat): (extra: nat)
    requires ops <= both && both > 0
    ensures extra <= staking
  {
    ExtraFits(staking, ops, both);
    staking * ops / both
  }

  /** Operations, insurance and staking weights; a disabled staking share goes to the other two. */
  function Weights(p: Params): (nat, nat, nat) {
    if p.stakingEnabled then (p.operationsBps, p.insuranceBps, p.stakingBps)
    else
      var both := p.operationsBps + p.insuranceBps;
      if both == 0 then (10_000, 0, 0)
      else
        var extra := ExtraShare(p.stakingBps, p.operationsBps, both);
        (p.operationsBps + extra, p.insuranceBps + (p.stakingBps - extra), 0)
  }

  lemma ExtraFits(staking: nat, ops: nat, both: nat)
    requires ops <= both && both > 0
    ensures staking * ops / both <= staking
  {
    MulMonotone(ops, both, staking);
    DivAtMost(staking * ops, staking, both);
  }

  datatype ReserveSplit = ReserveSplit(operations: nat, insurance: nat, staking: nat)

  function SplitProtocolFee(fee: nat, p: Params): (r: Result<ReserveSplit, FeeError>)
    ensures r.Ok? ==> r.value.operations + r.value.insurance + r.value.staking == fee
  {
    var invalid := ValidateSplitBps(p);
    if invalid.Some? then Err(invalid.value)
    else
      var (ops, ins, stk) := Weights(p);
      var a, b, c := CheckedMul(fee, ops), CheckedMul(fee, ins), CheckedMul(fee, stk);
      if a.Err? || b.Err? then Err(ArithmeticOverflow)
      else if stk != 0 && c.Err? then Err(ArithmeticOverflow)
      else
        var operations, insurance := a.value / 10_000, b.value / 10_000;
        var staking := if stk == 0 then 0 else c.value / 10_000;
        WeightsSum(p);
        SharesFit(fee, ops, ins, stk);
        var remainder: nat := fee - (operations + insurance + staking);
        Ok(ReserveSplit(operations + remainder, insurance, staking))
  }

  lemma WeightsSum(p: Params)
    requires ValidateSplitBps(p).None?
    ensures Weights(p).0 + Weights(p).1 + Weights(p).2 == 10_000
  {
  }

  /** Three floors of shares that add up to the whole: what they leave over is less than three. */
  lemma SharesFit(fee: nat, x: nat, y: nat, z: nat)
    requires x + y + z == 10_000
    ensures 0 <= fee - (fee * x / 10_000 + fee * y / 10_000 + fee * z / 10_000) <= 2
  {
    assert fee * x + fee * y + fee * z == fee * 10_000;
  }

  /** Redistribution is proportional: operations gets exactly the floor of its share of the two. */
  lemma RedistributionIsProportional(p: Params)
    requires ValidateSplitBps(p).None? && !p.stakingEnabled && p.operationsBps + p.insuranceBps > 0
    ensures
      var both := p.operationsBps + p.insuranceBps;
      && Weights(p).0 == 10_000 * p.operationsBps / both
      && Weights(p).1 == 10_000 - Weights(p).0 && Weights(p).1 >= p.insuranceBps && Weights(p).2 == 0
  {
    var ops, both := p.operationsBps, p.operationsBps + p.insuranceBps;
    ExtraFits(p.stakingBps, ops, both);
    ShareOfWhole(p.stakingBps, ops, both);
  }

  /** Adding a multiple of the divisor adds its factor to the quotient. */
  lemma QuotientOfSum(whole: nat, n: nat, k: nat, multiple: nat, d: nat)
    requires d > 0 && multiple == k * d && whole == multiple + n
    ensures whole / d == k + n / d
  {
    DivBounds(n, d);
    AddTimes(k, n / d, d);
    FloorIsUnique(whole, d, k + n / d);
  }

  lemma WholeSplits(staking: nat, ops: nat, both: nat)
    requires staking + both == 10_000
    ensures 10_000 * ops == ops * both + staking * ops
  {
    AddTimes(staking, both, ops);
  }

  lemma ShareOfWhole(staking: nat, ops: nat, both: nat)
    requires both > 0 && staking + both == 10_000
    ensures ops + staking * ops / both == 10_000 * ops / both
  {
    WholeSplits(staking, ops, both);
    QuotientOfSum(10_000 * ops, staking * ops, ops, ops * both, both);
  }

  /**
  The weights the shares are taken by: as configured; or, while staking is disabled, its share goes
  to the other two in proportion, and everything to operations if there are no other two.
  */
  predicate WeighedBy(p: Params, ops: nat, ins: nat, stk: nat) {
    var both := p.operationsBps + p.insuranceBps;
    if p.stakingEnabled then ops == p.operationsBps && ins == p.insuranceBps && stk == p.stakingBps
    else stk == 0 && ops + ins == 10_000 && ops == if both == 0 then 10_000 else 10_000 * p.operationsBps / both
  }

  /** With shares that add up to the whole, these are the weights in use. */
  lemma WeightsExactly(p: Params)
    requires p.operationsBps + p.insuranceBps + p.stakingBps == 10_000
    ensures WeighedBy(p, Weights(p).0, Weights(p).1, Weights(p).2)
  {
    if !p.stakingEnabled && p.operationsBps + p.insuranceBps > 0 {
      RedistributionIsProportional(p);
    }
  }

  /**
  For every fee: the split succeeds exactly when the configured shares add up to 100% and no
  product overflows; insurance and staking get the floor of their share, staking nothing while
  disabled, and operations its floor plus a remainder of at most two units, so the three sum to the fee.
  */
  lemma SplitIsExact(fee: nat, p: Params) returns (ops: nat, ins: nat, stk: nat)
    requires fee <= U128_MAX
    ensures
      var total := p.operationsBps + p.insuranceBps + p.stakingBps;
      var r := SplitProtocolFee(fee, p);
      && (total == 10_000 ==> WeighedBy(p, ops, ins, stk))
      && (r.Ok? <==> total == 10_000 && fee * ops <= U128_MAX && fee * ins <= U128_MAX && fee * stk <= U128_MAX)
      && (r.Ok? ==>
            && r.value.operations + r.value.insurance + r.value.staking == fee
            && r.value.insurance == fee * ins / 10_000 && r.value.staking == fee * stk / 10_000
            && fee * ops / 10_000 <= r.value.operations <= fee * ops / 10_000 + 2
            && (!p.stakingEnabled ==> r.value.staking == 0))
      && (r.Err? ==> r == Err(if total != 10_000 && total <= U32_MAX then InvalidFeeSplitBps else ArithmeticOverflow))
  {
    ops, ins, stk := Weights(p).0, Weights(p).1, Weights(p).2;
    if ValidateSplitBps(p).None? {
      WeightsSum(p);
      WeightsExactly(p);
      SharesFit(fee, ops, ins, stk);
    }
  }

  // ---------- the books over runs of withdrawals ----------

  /** The pool's ledger account and the scalars it books against it. */
  datatype Books = Books(ledger: nat, escrow: nat, liability: nat, operations: nat, insurance: nat, staking: nat) {
    function Reserves(): nat {
      operations + insurance + staking
    }
  }

  datatype Withdrawal = Withdrawal(gross: nat, ledgerFee: nat, params: Params)

  /**
  One withdrawal: precheck, the ledger transfer out, then the accounting segment. A split that
  fails books the fee nowhere. A reserve that would overflow traps the accounting segment after
  the transfer has settled.
  */
  function Withdraw(b: Books, w: Withdrawal): Books {
    var preview := PrecheckWithdrawal(w.gross, w.ledgerFee, b.liability, b.escrow, w.params);
    if preview.Err? then b
    else
      var v := preview.value;
      var paid := b.(ledger := SatSub(b.ledger, v.ledgerDebit));
      var debited := paid.(liability := SatSub(b.liability, v.gross), escrow := SatSub(b.escrow, v.gross));
      var split := SplitProtocolFee(v.protocolFee, w.params);
      if v.protocolFee == 0 || split.Err? then debited
      else if b.operations + split.value.operations > U128_MAX || b.insurance + split.value.insurance > U128_MAX
              || b.staking + split.value.staking > U128_MAX then paid
      else debited.(operations := b.operations + split.value.operations,
                    insurance := b.insurance + split.value.insurance,
                    staking := b.staking + split.value.staking)
  }

  /** The withdrawal goes through: it is withdrawable, and notes and escrow cover it. */
  predicate Takes(b: Books, w: Withdrawal) {
    && Withdrawable(w.gross, w.ledgerFee, w.params)
    && w.gross <= b.liability && w.gross - FeeOn(w.gross, w.params) <= b.escrow
  }

  /** The fee it pays. */
  function FeeOf(b: Books, w: Withdrawal): nat {
    if Takes(b, w) then FeeOn(w.gross, w.params) else 0
  }

  /** The part of it that is booked to no reserve, because it cannot be split. */
  function Unbooked(b: Books, w: Withdrawal): nat {
    if SplitProtocolFee(FeeOf(b, w), w.params).Err? then FeeOf(b, w) else 0
  }

  function WithdrawAll(b: Books, ws: seq<Withdrawal>): Books {
    if ws == [] then b else Withdraw(WithdrawAll(b, ws[..|ws| - 1]), ws[|ws| - 1])
  }

  /** What a run of withdrawals has taken out of private notes, paid in fees, and left unbooked. */
  datatype Tally = Tally(gross: nat, fees: nat, unbooked: nat)

  function TallyAll(b: Books, ws: seq<Withdrawal>): Tally {
    if ws == [] then Tally(0, 0, 0)
    else
      var before := TallyAll(b, ws[..|ws| - 1]);
      var at, w := WithdrawAll(b, ws[..|ws| - 1]), ws[|ws| - 1];
      Tally(before.gross + (if Takes(at, w) then w.gross else 0),
            before.fees + FeeOf(at, w), before.unbooked + Unbooked(at, w))
  }

  /** Every claim on the ledger account is covered: private notes by escrow, escrow and reserves by the balance. */
  predicate Covered(b: Books) {
    b.liability <= b.escrow && b.escrow + b.Reserves() <= b.ledger <= U128_MAX
  }

  /** The books after a withdrawal of `gross` that paid `fee`, all of it but `unbooked` into the reserves. */
  predicate Moved(b: Books, b': Books, gross: nat, fee: nat, unbooked: nat) {
    && b'.liability == b.liability - gross && b'.escrow == b.escrow - gross && b'.ledger == b.ledger - gross + fee
    && b'.Reserves() == b.Reserves() + fee - unbooked
  }

  /**
  One withdrawal: refused, it moves nothing; taken, it moves its amount out of notes and escrow, its
  amount less the fee out of the ledger account, and the fee into the reserves as far as it can be split.
  */
  lemma WithdrawConserves(b: Books, w: Withdrawal)
    requires Covered(b) && w.gross <= U128_MAX && w.ledgerFee <= U128_MAX && w.params.InRange()
    ensures Covered(Withdraw(b, w))
    ensures Takes(b, w) ==> Moved(b, Withdraw(b, w), w.gross, FeeOf(b, w), Unbooked(b, w))
    ensures !Takes(b, w) ==> Withdraw(b, w) == b && Unbooked(b, w) == 0
  {
    PreviewConserves(w.gross, w.ledgerFee, w.params);
    PrecheckExactly(w.gross, w.ledgerFee, b.liability, b.escrow, w.params);
  }

  /** Each reserve gets its own share of the split. */
  lemma SharesBooked(b: Books, w: Withdrawal)
    requires Covered(b) && w.gross <= U128_MAX && w.ledgerFee <= U128_MAX && w.params.InRange()
    requires FeeOf(b, w) > 0 && SplitProtocolFee(FeeOf(b, w), w.params).Ok?
    ensures
      var b', split := Withdraw(b, w), SplitProtocolFee(FeeOf(b, w), w.params).value;
      && b'.operations == b.operations + split.operations && b'.insurance == b.insurance + split.insurance
      && b'.staking == b.staking + split.staking
  {
    PreviewConserves(w.gross, w.ledgerFee, w.params);
    PrecheckExactly(w.gross, w.ledgerFee, b.liability, b.escrow, w.params);
  }

  /**
  Over any run of withdrawals under any parameters, no reserve overflows and every claim stays
  covered; notes and escrow fall by exactly the amounts taken, the ledger account by those amounts
  less their fees, and the reserves grow by exactly those fees less the ones that could not be split.
  */
  lemma {:induction false} BooksConserve(b: Books, ws: seq<Withdrawal>)
    requires Covered(b)
    requires forall w :: w in ws ==> w.gross <= U128_MAX && w.ledgerFee <= U128_MAX && w.params.InRange()
    ensures
      var b', t := WithdrawAll(b, ws), TallyAll(b, ws);
      && Covered(b') && Moved(b, b', t.gross, t.fees, t.unbooked) && t.unbooked <= t.fees
      && b'.escrow - b'.liability == b.escrow - b.liability
      && b'.ledger - b'.escrow - b'.Reserves() == b.ledger - b.escrow - b.Reserves() + t.unbooked
  {
    hide Withdraw, FeeOf, Unbooked, Takes;
    if ws != [] {
      var init := ws[..|ws| - 1];
      forall w | w in init ensures w in ws {
      }
      BooksConserve(b, init);
      WithdrawConserves(WithdrawAll(b, init), ws[|ws| - 1]);
      UnbookedIsFee(WithdrawAll(b, init), ws[|ws| - 1]);
    }
  }

  lemma UnbookedIsFee(b: Books, w: Withdrawal)
    ensures Unbooked(b, w) <= FeeOf(b, w) && (!Takes(b, w) ==> FeeOf(b, w) == 0)
  {
  }
}
