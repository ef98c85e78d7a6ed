/** The entities of the refund screen: payments, refund details (one
    planned refund line per refunded payment) and deductions (amounts
    withheld from a payment before it is refunded). Fees are JavaScript
    numbers in the source; here they are whole cents. */
module RefundTypes {
  import opened Common

  /** Every fee-type name the screen mentions: the six of `allFeeTypeList`
      and the deduction-only ones offered by the deduction dialog. */
  datatype FeeType =
    | RentFee | DamageDeposit | ViolationDeposit | DeliverFee | ReceiveFee | Other
    | OilFee | OverTimeFee | OverKmFee | ServiceFee | ViolationFee | DamageFee | Penalty

  /** The six fee types that payments are grouped by, in display order. */
  const AllFeeTypes: seq<FeeType> :=
    [RentFee, DamageDeposit, ViolationDeposit, DeliverFee, ReceiveFee, Other]

  datatype PayMode =
    | Balance | WechatApp | AlipayApp | WechatNative | AlipayNative
    | PosPreLicensing | Channel
    | OtherPayMode(code: string)

  /** The pay modes the back end can refund by itself (`frontPayMode`). */
  predicate IsFrontPayMode(m: PayMode) {
    m in {Balance, WechatApp, AlipayApp, WechatNative, AlipayNative}
  }

  datatype Direction = CustomerToWagons | PeerToWagons | WagonsToCustomer | WagonsToPeer

  /** Money paid in by the customer or a peer (as opposed to a refund paid out). */
  predicate IsInbound(d: Direction) {
    d == CustomerToWagons || d == PeerToWagons
  }

  /** A payment's finance status: the three unsettled statuses the screen
      names, and `Settled` for any other status. */
  datatype FinancialStatus = ToReview | Rejected | ToReviewRejected | Settled

  /** The kind of a refund request (`refund.bean.type`). */
  datatype RefundKind = OrderRentCancel | DamageDepositReturn | ViolationDepositReturn

  /** The page the screen was opened as (`navprops.pageType`): one of the
      three creation pages, one of the review stages, or the read-only view. */
  datatype PageType =
    | CreatePage(kind: RefundKind)
    | ShopManagerExamining | CeoExamining | AccountantExamining | CashierRefunding
    | Restarting | DetailPage

  /** The four reviewing roles; each writes its own remark fields. */
  datatype Role = ShopManager | Ceo | Accountant | Cashier

  /** A remark field as the code tests it: `!remark` holds for a missing
      (null) remark and for the empty string. */
  predicate Blank(remarks: map<Role, string>, role: Role) {
    role !in remarks || remarks[role] == ""
  }

  datatype Payment = Payment(
    id: int,
    feeType: FeeType,
    fee: int,
    payMode: PayMode,
    direction: Direction,
    financialStatus: FinancialStatus,
    parentPaymentId: Option<int>,   // set on a deduction: the payment it is withheld from
    refundDetailId: Option<int>)    // set on a refund payout: the refund line it pays

  /** A refund line. A default line built at load time has no id yet; its
      fee is null when the amount is not determined. Remarks per role. */
  datatype RefundDetail = RefundDetail(
    id: Option<int>,
    paymentId: int,
    feeType: FeeType,
    fee: Option<int>,
    remarks: map<Role, string>)

  /** A deduction. Those loaded from the server carry the id of their
      payment record; those added in the dialog have none until saved. */
  datatype Deduction = Deduction(
    id: Option<int>,
    parentPaymentId: int,
    feeType: FeeType,
    fee: int)

  /** JavaScript arithmetic on a nullable fee: null counts as 0. */
  function FeeOr0(fee: Option<int>): int {
    if fee.Some? then fee.value else 0
  }

  /** `!fee`: a null or zero fee. */
  predicate FeeFalsy(fee: Option<int>) {
    fee.None? || fee.value == 0
  }
}
