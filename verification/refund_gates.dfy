/** The checks the refund screen makes before it submits a review, and the
    rules by which it chooses pay modes, deduction fee types, refund
    directions and refund buttons. A gate either refuses (with the reason
    the screen shows) or lets the submission go to the server; what the
    server then does with the request is not part of this model. */
module RefundGates {
  import opened Common
  import opened RefundTypes
  import opened RefundLedger

  datatype Refusal =
    /** The line at `index` changed its fee without a remark of the role. */
    | ChangedWithoutRemark(index: nat)
    /** The snapshot has no line at `index`: reading its fee throws. */
    | SnapshotLineMissing(index: nat)
    /** A rejection with neither a request remark nor a line remark. */
    | RejectWithoutRemark
    /** A payment is still to be reviewed or was rejected by finance. */
    | UnsettledPayment

  datatype GateOutcome = Submitted | Refused(why: Refusal)

  // ---------------------------------------------------------------------
  // Approval by the shop manager or the CEO.

  /** The line at `i` passes the approval check of `role`: the snapshot has
      a line there, and either its fee is unchanged (strict equality: null
      and 0 differ) or the role wrote a remark on it. */
  predicate LineAccepted(role: Role, original: seq<RefundDetail>, current: seq<RefundDetail>, i: int)
    requires 0 <= i < |current|
  {
    i < |original| && (current[i].fee == original[i].fee || !Blank(current[i].remarks, role))
  }

  /** `shopManagerExaminePassAndSign` / `ceoExaminePassAndSign`: unless the
      lists are deeply equal, walk the current lines and stop at the first
      one whose fee changed without a remark of the role. */
  method ApprovalGate(role: Role, original: seq<RefundDetail>, current: seq<RefundDetail>)
    returns (o: GateOutcome)
    ensures o.Submitted? <==> forall i :: 0 <= i < |current| ==> LineAccepted(role, original, current, i)
    ensures o.Refused? ==> o.why.ChangedWithoutRemark? || o.why.SnapshotLineMissing?
    ensures o.Refused? ==>
      var i := o.why.index;
      i < |current| && !LineAccepted(role, original, current, i) &&
      (forall k :: 0 <= k < i ==> LineAccepted(role, original, current, k)) &&
      (o.why.SnapshotLineMissing? <==> i >= |original|)
  {
    if original == current {
      return Submitted;
    }
    for i := 0 to |current|
      invariant forall k :: 0 <= k < i ==> LineAccepted(role, original, current, k)
    {
      if i >= |original| {
        assert !LineAccepted(role, original, current, i);
        return Refused(SnapshotLineMissing(i));
      }
      if current[i].fee != original[i].fee && Blank(current[i].remarks, role) {
        assert !LineAccepted(role, original, current, i);
        return Refused(ChangedWithoutRemark(i));
      }
    }
    return Submitted;
  }

  /** Editing a line's fee and writing the role's remark on it never makes
      that line block the approval. */
  lemma RemarkUnblocksLine(role: Role, original: seq<RefundDetail>, current: seq<RefundDetail>, i: int, fee: Option<int>, remark: string)
    requires 0 <= i < |current| && i < |original| && remark != ""
    ensures LineAccepted(role, original,
              current[i := current[i].(fee := fee, remarks := current[i].remarks[role := remark])], i)
  {
  }

  // ---------------------------------------------------------------------
  // Rejection by any of the three reviewers.

  /** `refundDetailList.every(d => !d.<role>Remark)`. */
  function AllBlank(details: seq<RefundDetail>, role: Role): (r: bool)
    ensures r <==> forall i :: 0 <= i < |details| ==> Blank(details[i].remarks, role)
  {
    if details == [] then true
    else Blank(details[0].remarks, role) && AllBlank(details[1..], role)
  }

  /** The guard of `*ExamineByBackService(passed, ...)`: a rejection needs a
      request remark of the role (null or "" counts as none) or a remark of
      the role on some line; an approval always goes through. */
  function ReviewGate(passed: bool, requestRemark: string, details: seq<RefundDetail>, role: Role): (o: GateOutcome)
    ensures o.Submitted? <==>
      passed || requestRemark != "" || exists i :: 0 <= i < |details| && !Blank(details[i].remarks, role)
    ensures o.Refused? ==> o.why == RejectWithoutRemark
  {
    if !passed && requestRemark == "" && AllBlank(details, role) then Refused(RejectWithoutRemark)
    else Submitted
  }

  // ---------------------------------------------------------------------
  // Approval by the accountant.

  /** A payment whose finance status is one the screen treats as unsettled:
      rejected, to review, or to review after a rejection. */
  predicate Unsettled(p: Payment) {
    p.financialStatus == Rejected || p.financialStatus == ToReview || p.financialStatus == ToReviewRejected
  }

  /** `paymentList.some(...)` over the unsettled statuses. */
  function AnyUnsettled(payments: seq<Payment>): (r: bool)
    ensures r <==> exists i :: 0 <= i < |payments| && payments[i].financialStatus != Settled
  {
    if payments == [] then false
    else
      assert forall i :: 0 < i < |payments| ==> payments[i] == payments[1..][i - 1];
      Unsettled(payments[0]) || AnyUnsettled(payments[1..])
  }

  /** `accountantManagerExaminePassAndSign`: the accountant can approve only
      when no payment is unsettled. */
  function AccountantApprovalGate(payments: seq<Payment>): (o: GateOutcome)
    ensures o.Submitted? <==> forall i :: 0 <= i < |payments| ==> payments[i].financialStatus == Settled
    ensures o.Refused? ==> o.why == UnsettledPayment
  {
    if AnyUnsettled(payments) then Refused(UnsettledPayment) else Submitted
  }

  // ---------------------------------------------------------------------
  // Submitting a deposit refund.

  /** `handleDamageDeposit` / `handleViolationDeposit`: the confirmation asks
      for a signature and launches the workflow exactly when the fast path
      does not apply. Tied to the hinted refund total: a confirmation that
      skips the workflow shows a zero refund or concerns only POS
      pre-licensing holds, and with no negative fee the workflow runs
      exactly when the hint shows a positive refund and some payment was
      taken otherwise. */
  function DepositNeedsWorkflow(payments: seq<Payment>, details: seq<RefundDetail>): (r: bool)
    ensures r <==>
      (exists i :: 0 <= i < |details| && !FeeFalsy(details[i].fee)) &&
      (exists j :: 0 <= j < |payments| && payments[j].payMode != PosPreLicensing)
    ensures !r ==>
      HintedRefund(details) == 0 || forall j :: 0 <= j < |payments| ==> payments[j].payMode == PosPreLicensing
    ensures (forall i :: 0 <= i < |details| ==> FeeOr0(details[i].fee) >= 0) ==>
      (r <==> HintedRefund(details) > 0 && exists j :: 0 <= j < |payments| && payments[j].payMode != PosPreLicensing)
  {
    HintedRefundZero(details);
    !NoNeedToStartProcess(payments, details)
  }

  // ---------------------------------------------------------------------
  // Choice rules.

  /** The `type` the payment editor is opened with: `'ADD'` from the
      add-payment button and from a payment card's modify action, `'EDIT'`
      from the add-refund button. It says nothing about whether the payment
      is new. */
  datatype EditType = TypeAdd | TypeEdit

  /** BALANCE is offered only when the editor is opened with type ADD, for
      a payment paid in by the customer for rent, delivery, pick-up or
      other fees, while the customer has a positive balance. */
  predicate BalanceOffered(t: EditType, direction: Direction, feeType: FeeType, balance: int) {
    t == TypeAdd && direction == CustomerToWagons &&
    feeType in {RentFee, DeliverFee, ReceiveFee, Other} && balance > 0
  }

  /** `go2paymentEditScreen`: nothing opens when nothing remains to be paid;
      otherwise the pay-mode catalog is offered without POS pre-licensing,
      and without BALANCE unless `BalanceOffered`. */
  function OfferedPayModes(catalog: seq<PayMode>, remain: int, t: EditType, direction: Direction,
                           feeType: FeeType, balance: int): (r: Option<seq<PayMode>>)
    ensures r.None? <==> remain <= 0
    ensures r.Some? ==> forall m :: m in r.value <==>
      m in catalog && m != PosPreLicensing && (m == Balance ==> BalanceOffered(t, direction, feeType, balance))
  {
    if remain <= 0 then None
    else if BalanceOffered(t, direction, feeType, balance) then
      Some(Filter(catalog, (m: PayMode) => m != PosPreLicensing))
    else
      Some(Filter(catalog, (m: PayMode) => m != Balance && m != PosPreLicensing))
  }

  /** The direction of a refund paid out for a payment: back to the
      customer for a customer payment, to the peer otherwise. */
  function RefundDirection(d: Direction): (r: Direction)
    ensures !IsInbound(r)
    ensures r == WagonsToCustomer <==> d == CustomerToWagons
  {
    if d == CustomerToWagons then WagonsToCustomer else WagonsToPeer
  }

  /** The refund button under a payment on the cashier's page. */
  datatype RefundButton =
    | NoRefundButton
    /** The back end refunds by the payment's own pay mode. */
    | DirectRefund(mode: PayMode)
    /** The payment editor opens for a refund of `remain`. */
    | AddRefund(direction: Direction, remain: int, mode: PayMode)

  function RefundButtonFor(page: PageType, payment: Payment, unrefund: int): (r: RefundButton)
    ensures r != NoRefundButton <==>
      unrefund > 0 && page == CashierRefunding && payment.payMode != PosPreLicensing
    ensures r.DirectRefund? <==> r != NoRefundButton && IsFrontPayMode(payment.payMode)
    ensures r.DirectRefund? ==> r.mode == payment.payMode
    ensures r.AddRefund? ==>
      r == AddRefund(RefundDirection(payment.direction), unrefund, payment.payMode)
  {
    if unrefund > 0 && page == CashierRefunding && payment.payMode != PosPreLicensing then
      if IsFrontPayMode(payment.payMode) then DirectRefund(payment.payMode)
      else AddRefund(RefundDirection(payment.direction), unrefund, payment.payMode)
    else NoRefundButton
  }

  /** The "add refund" button always opens the payment editor (its amount
      is positive), for a refund paid out, and offers neither BALANCE nor
      POS pre-licensing. */
  lemma AddRefundOpensEditor(catalog: seq<PayMode>, page: PageType, payment: Payment, unrefund: int, balance: int)
    requires RefundButtonFor(page, payment, unrefund).AddRefund?
    ensures var b := RefundButtonFor(page, payment, unrefund);
            var offered := OfferedPayModes(catalog, b.remain, TypeEdit, b.direction, payment.feeType, balance);
            offered.Some? && !IsInbound(b.direction) &&
            Balance !in offered.value && PosPreLicensing !in offered.value
  {
  }

  /** `refundDetailFeeEditable`: deductions can be added on the creation
      pages and when restarting, while the deductions of the payment stay
      below its fee. */
  function CanAddDeduction(page: PageType, deductions: seq<Deduction>, payment: Payment): (r: bool)
    ensures r ==> page.CreatePage? || page == Restarting
  {
    (page.CreatePage? || page == Restarting) && TotalDeducted(deductions, payment.id) < payment.fee
  }

  /** When a line still holds the payment's fee minus its deductions, the
      add-deduction button is there exactly when the line's fee is
      positive, that is, when there is something left to deduct. */
  lemma CanAddDeductionWhilePositive(page: PageType, deductions: seq<Deduction>, payment: Payment, d: RefundDetail)
    requires page.CreatePage? || page == Restarting
    requires FeeOr0(d.fee) + TotalDeducted(deductions, payment.id) == payment.fee
    ensures CanAddDeduction(page, deductions, payment) <==> FeeOr0(d.fee) > 0
  {
  }

  /** Whether the refund (by its page or its kind) is of the given kind. */
  predicate IsKind(page: PageType, beanType: Option<RefundKind>, kind: RefundKind) {
    page == CreatePage(kind) || beanType == Some(kind)
  }

  /** The fee types every deduction may use outside a rent cancellation. */
  predicate BaseDeductionType(ft: FeeType) {
    ft in {RentFee, DeliverFee, ReceiveFee, OilFee, OverTimeFee, OverKmFee, ServiceFee, Other}
  }

  /** Which fee types a deduction may use: a rent cancellation allows only
      the penalty and other fees; otherwise the base types, plus the
      violation fee for a violation deposit return and the damage fee for a
      damage deposit return. */
  predicate OfferedForDeduction(ft: FeeType, page: PageType, beanType: Option<RefundKind>) {
    if IsKind(page, beanType, OrderRentCancel) then ft == Penalty || ft == Other
    else
      || BaseDeductionType(ft)
      || (ft == ViolationFee && IsKind(page, beanType, ViolationDepositReturn))
      || (ft == DamageFee && IsKind(page, beanType, DamageDepositReturn))
  }

  /** The fee types offered in the deduction dialog, taken from the fee-type
      catalog: the base types, plus the violation fee for a violation
      deposit return and the damage fee for a damage deposit return; a rent
      cancellation offers only the penalty and other fees. */
  function DeductionFeeTypes(catalog: seq<FeeType>, page: PageType, beanType: Option<RefundKind>): (r: seq<FeeType>)
    ensures forall ft :: ft in r <==> ft in catalog && OfferedForDeduction(ft, page, beanType)
  {
    var base := Filter(catalog, BaseDeductionType);
    var withViolation :=
      if IsKind(page, beanType, ViolationDepositReturn) then base + Filter(catalog, (ft: FeeType) => ft == ViolationFee)
      else base;
    var withDamage :=
      if IsKind(page, beanType, DamageDepositReturn) then withViolation + Filter(catalog, (ft: FeeType) => ft == DamageFee)
      else withViolation;
    if IsKind(page, beanType, OrderRentCancel) then Filter(catalog, (ft: FeeType) => ft == Penalty || ft == Other)
    else withDamage
  }
}
