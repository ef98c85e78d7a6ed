/** The money ledger of the refund screen: the sums the screen derives from
    its payment, refund-detail and deduction lists. Every sum is a left fold
    over the list, as the code's `reduce` and accumulating loops are. */
module RefundLedger {
  import opened Common
  import opened RefundTypes

  /** What one payment adds to `calcAlreadyPaid(feeType)`. */
  function PaidIn(p: Payment, feeType: FeeType): int {
    if p.feeType == feeType && IsInbound(p.direction) then p.fee else 0
  }

  /** `calcAlreadyPaid`: the money paid in for one fee type. */
  function AlreadyPaid(payments: seq<Payment>, feeType: FeeType): int {
    if payments == [] then 0
    else AlreadyPaid(payments[..|payments| - 1], feeType) + PaidIn(payments[|payments| - 1], feeType)
  }

  /** Appending a payment changes the paid-in amount by exactly what that
      payment contributes: its fee if it is paid in for this fee type,
      nothing if it is of another type or a refund paid out. */
  lemma AlreadyPaidAppend(payments: seq<Payment>, p: Payment, feeType: FeeType)
    ensures AlreadyPaid(payments + [p], feeType) == AlreadyPaid(payments, feeType) + PaidIn(p, feeType)
    ensures !IsInbound(p.direction) ==> AlreadyPaid(payments + [p], feeType) == AlreadyPaid(payments, feeType)
  {
    assert (payments + [p])[..|payments|] == payments;
  }

  /** The paid-in amount is additive over a split of the payment list. */
  lemma {:induction false} AlreadyPaidConcat(a: seq<Payment>, b: seq<Payment>, feeType: FeeType)
    ensures AlreadyPaid(a + b, feeType) == AlreadyPaid(a, feeType) + AlreadyPaid(b, feeType)
  {
    if b != [] {
      var b' := b[..|b| - 1];
      assert (a + b)[..|a + b| - 1] == a + b';
      AlreadyPaidConcat(a, b', feeType);
    } else {
      assert a + b == a;
    }
  }

  /** The amount still to be paid for a fee type (`remainToBePaidAmount`),
      given the amount the order's contract asks for. */
  function RemainToBePaid(contractual: int, payments: seq<Payment>, feeType: FeeType): int {
    contractual - AlreadyPaid(payments, feeType)
  }

  /** Recording a paid-in payment of exactly the remaining amount (the
      amount the payment editor is pre-filled with) leaves nothing to pay. */
  lemma PayingRemainderSettles(contractual: int, payments: seq<Payment>, p: Payment)
    requires IsInbound(p.direction)
    requires p.fee == RemainToBePaid(contractual, payments, p.feeType)
    ensures RemainToBePaid(contractual, payments + [p], p.feeType) == 0
  {
    AlreadyPaidAppend(payments, p, p.feeType);
  }

  /** A payment pays out the refund line `d` when its `refundDetailId`
      names `d`'s id. The screen compares the two with `===`, which also
      holds when both are missing; here a line that has not been saved yet
      (no id) is, by choice, paid by nothing. */
  predicate Pays(p: Payment, d: RefundDetail) {
    p.refundDetailId.Some? && p.refundDetailId == d.id
  }

  /** The money already paid out against the refund line `d`. */
  function RefundedFor(payments: seq<Payment>, d: RefundDetail): int {
    if payments == [] then 0
    else
      var p := payments[|payments| - 1];
      RefundedFor(payments[..|payments| - 1], d) + (if Pays(p, d) then p.fee else 0)
  }

  /** `unrefundFee` of one refund line (render of a payment): 0 for a line
      whose fee is null, else the fee minus what has been paid out for it.
      It is not clamped: a negative value reports an over-refund. */
  function UnrefundFee(d: RefundDetail, payments: seq<Payment>): int {
    if d.fee.None? then 0 else d.fee.value - RefundedFor(payments, d)
  }

  /** Paying out against a refund line lowers its unrefunded amount by
      exactly the payout; any other payment leaves it unchanged. So with
      non-negative payouts the unrefunded amount never increases. */
  lemma UnrefundAfterPayment(d: RefundDetail, payments: seq<Payment>, p: Payment)
    ensures d.fee.Some? && Pays(p, d) ==>
      UnrefundFee(d, payments + [p]) == UnrefundFee(d, payments) - p.fee
    ensures !Pays(p, d) || d.fee.None? ==>
      UnrefundFee(d, payments + [p]) == UnrefundFee(d, payments)
    ensures p.fee >= 0 ==> UnrefundFee(d, payments + [p]) <= UnrefundFee(d, payments)
  {
    assert (payments + [p])[..|payments|] == payments;
  }

  /** `unRefundFeeMap[feeType]` (render): over the refund lines of that fee
      type, the fee minus what has been paid out, skipping null fees. */
  function UnrefundByFeeType(details: seq<RefundDetail>, payments: seq<Payment>, feeType: FeeType): int {
    if details == [] then 0
    else
      var acc := UnrefundByFeeType(details[..|details| - 1], payments, feeType);
      var d := details[|details| - 1];
      if d.feeType != feeType || d.fee == None then acc
      else acc + d.fee.value - RefundedFor(payments, d)
  }

  /** The per-fee-type figure is the sum of the per-line `unrefundFee` of
      the lines of that type, as shown beside each line. */
  lemma {:induction false} UnrefundByFeeTypeIsSumOfLines(
    details: seq<RefundDetail>, payments: seq<Payment>, feeType: FeeType)
    ensures UnrefundByFeeType(details, payments, feeType) ==
            SumLineUnrefund(details, payments, feeType)
  {
    if details != [] {
      UnrefundByFeeTypeIsSumOfLines(details[..|details| - 1], payments, feeType);
    }
  }

  /** Sum of `UnrefundFee` over the lines of one fee type. */
  function SumLineUnrefund(details: seq<RefundDetail>, payments: seq<Payment>, feeType: FeeType): int {
    if details == [] then 0
    else
      var d := details[|details| - 1];
      SumLineUnrefund(details[..|details| - 1], payments, feeType)
        + (if d.feeType == feeType then UnrefundFee(d, payments) else 0)
  }

  /** `totalDeductedFee` of a payment: the deductions withheld from it. */
  function TotalDeducted(deductions: seq<Deduction>, paymentId: int): int {
    if deductions == [] then 0
    else
      var x := deductions[|deductions| - 1];
      TotalDeducted(deductions[..|deductions| - 1], paymentId)
        + (if x.parentPaymentId == paymentId then x.fee else 0)
  }

  /** The deductions withheld from a payment are additive over a split of
      the deduction list. */
  lemma {:induction false} TotalDeductedConcat(a: seq<Deduction>, b: seq<Deduction>, paymentId: int)
    ensures TotalDeducted(a + b, paymentId) == TotalDeducted(a, paymentId) + TotalDeducted(b, paymentId)
  {
    if b != [] {
      var b' := b[..|b| - 1];
      assert (a + b)[..|a + b| - 1] == a + b';
      TotalDeductedConcat(a, b', paymentId);
    } else {
      assert a + b == a;
    }
  }

  /** The "to refund" total of one fee type (render, fee-type header): the
      fees of its refund lines, a null fee adding 0. */
  function RefundTotalByFeeType(details: seq<RefundDetail>, feeType: FeeType): int {
    if details == [] then 0
    else
      var d := details[|details| - 1];
      RefundTotalByFeeType(details[..|details| - 1], feeType)
        + (if d.feeType == feeType then FeeOr0(d.fee) else 0)
  }

  /** `noNeedToStartProcess`: no refund line, or no line with a non-zero
      fee, or every payment taken by POS pre-licensing. */
  predicate NoNeedToStartProcess(payments: seq<Payment>, details: seq<RefundDetail>) {
    || |details| == 0
    || (forall i :: 0 <= i < |details| ==> FeeFalsy(details[i].fee))
    || (forall j :: 0 <= j < |payments| ==> payments[j].payMode == PosPreLicensing)
  }

  /** The refund total the deposit confirmation shows in its hint: the
      refund-line fees added from the left, a null fee adding 0. */
  function HintedRefund(details: seq<RefundDetail>): int {
    if details == [] then 0
    else HintedRefund(details[..|details| - 1]) + FeeOr0(details[|details| - 1].fee)
  }

  /** The fast path's "no line with a fee" test against the hinted total:
      when every line is fee-less the hint shows 0, and when no fee is
      negative the hint shows 0 only if every line is fee-less. */
  lemma {:induction false} HintedRefundZero(details: seq<RefundDetail>)
    ensures (forall i :: 0 <= i < |details| ==> FeeFalsy(details[i].fee)) ==> HintedRefund(details) == 0
    ensures (forall i :: 0 <= i < |details| ==> FeeOr0(details[i].fee) >= 0) ==>
      HintedRefund(details) >= 0 &&
      (HintedRefund(details) == 0 <==> forall i :: 0 <= i < |details| ==> FeeFalsy(details[i].fee))
  {
    if details != [] {
      var init := details[..|details| - 1];
      assert forall i :: 0 <= i < |init| ==> init[i] == details[i];
      HintedRefundZero(init);
    }
  }

  /** The five money categories of the cancel-order confirmation. */
  datatype Category = RentCategory | DepositCategory | DeliverCategory | ReceiveCategory | OtherCategory

  /** The category a fee type is counted under in `cancelOrder`; the two
      deposits share one, deduction-only fee types have none. */
  function CategoryOf(ft: FeeType): Option<Category> {
    match ft
    case RentFee => Some(RentCategory)
    case DamageDeposit => Some(DepositCategory)
    case ViolationDeposit => Some(DepositCategory)
    case DeliverFee => Some(DeliverCategory)
    case ReceiveFee => Some(ReceiveCategory)
    case Other => Some(OtherCategory)
    case _ => None
  }

  /** The refund total of a category: the fees of its refund lines. */
  function CategoryRefund(details: seq<RefundDetail>, c: Category): int {
    if details == [] then 0
    else
      var d := details[|details| - 1];
      CategoryRefund(details[..|details| - 1], c) + (if CategoryOf(d.feeType) == Some(c) then FeeOr0(d.fee) else 0)
  }

  /** The paid total of a category: the fees of all its payments, whatever
      their direction. */
  function CategoryPaid(payments: seq<Payment>, c: Category): int {
    if payments == [] then 0
    else
      var p := payments[|payments| - 1];
      CategoryPaid(payments[..|payments| - 1], c) + (if CategoryOf(p.feeType) == Some(c) then p.fee else 0)
  }

  /** The cancel-order confirmation and the fee-type headers agree: a
      category's refund total is the "to refund" total of its fee types. */
  lemma {:induction false} CategoryRefundByFeeType(details: seq<RefundDetail>)
    ensures CategoryRefund(details, RentCategory) == RefundTotalByFeeType(details, RentFee)
    ensures CategoryRefund(details, DepositCategory) ==
      RefundTotalByFeeType(details, DamageDeposit) + RefundTotalByFeeType(details, ViolationDeposit)
    ensures CategoryRefund(details, DeliverCategory) == RefundTotalByFeeType(details, DeliverFee)
    ensures CategoryRefund(details, ReceiveCategory) == RefundTotalByFeeType(details, ReceiveFee)
    ensures CategoryRefund(details, OtherCategory) == RefundTotalByFeeType(details, Other)
  {
    if details != [] {
      CategoryRefundByFeeType(details[..|details| - 1]);
    }
  }

  const AllCategories: set<Category> :=
    {RentCategory, DepositCategory, DeliverCategory, ReceiveCategory, OtherCategory}

  lemma CategoryListed(c: Category)
    ensures c in AllCategories
  {
  }

  /** Paid and refund totals of one category. */
  datatype Totals = Totals(paid: int, refund: int)

  /** The two accumulating loops of `cancelOrder`: per category, the refund
      total of the refund lines and the paid total of the payments. */
  method CancelTotals(details: seq<RefundDetail>, payments: seq<Payment>)
    returns (totals: map<Category, Totals>)
    ensures forall c: Category :: c in totals
    ensures forall c: Category :: totals[c] == Totals(CategoryPaid(payments, c), CategoryRefund(details, c))
  {
    totals := map[RentCategory := Totals(0, 0), DepositCategory := Totals(0, 0),
                  DeliverCategory := Totals(0, 0), ReceiveCategory := Totals(0, 0),
                  OtherCategory := Totals(0, 0)];
    for i := 0 to |details|
      invariant totals.Keys == AllCategories
      invariant forall c: Category :: c in totals ==> totals[c] == Totals(0, CategoryRefund(details[..i], c))
    {
      assert details[..i + 1][..i] == details[..i];
      var d := details[i];
      match CategoryOf(d.feeType)
      case Some(c) =>
        totals := totals[c := totals[c].(refund := totals[c].refund + FeeOr0(d.fee))];
      case None =>
    }
    assert details[..|details|] == details;
    for j := 0 to |payments|
      invariant totals.Keys == AllCategories
      invariant forall c: Category :: c in totals ==> totals[c] == Totals(CategoryPaid(payments[..j], c), CategoryRefund(details, c))
    {
      assert payments[..j + 1][..j] == payments[..j];
      var p := payments[j];
      match CategoryOf(p.feeType)
      case Some(c) =>
        totals := totals[c := totals[c].(paid := totals[c].paid + p.fee)];
      case None =>
    }
    assert payments[..|payments|] == payments;
    forall c: Category ensures c in totals {
      CategoryListed(c);
    }
  }
}
