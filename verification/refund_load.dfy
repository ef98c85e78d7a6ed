/** Load-time derivation of the refund screen (`initPaymentList`): which
    payments the request is about, which deductions belong to them, the
    refund lines, and the fee types shown as sections. */
module RefundLoad {
  import opened Common
  import opened RefundTypes

  /** The key the payment filter is looked up by:
      `refund.bean.type || navprops.pageType`. Only the three refund kinds
      are keys of the filter table; any other page yields no payments. */
  function ListKey(beanType: Option<RefundKind>, page: PageType): Option<RefundKind> {
    if beanType.Some? then beanType
    else if page.CreatePage? then Some(page.kind)
    else None
  }

  /** Whether a payment is relevant to a refund of the given kind
      (`paymentListMap`): a rent cancellation keeps every payment, a deposit
      return only the payments of that deposit. */
  predicate Relevant(kind: RefundKind, p: Payment) {
    match kind
    case OrderRentCancel => true
    case DamageDepositReturn => p.feeType == DamageDeposit
    case ViolationDepositReturn => p.feeType == ViolationDeposit
  }

  /** The kept payments, in their original order. */
  function KeepPayments(payments: seq<Payment>, key: Option<RefundKind>): seq<Payment> {
    if key.None? || payments == [] then []
    else
      var rest := KeepPayments(payments[..|payments| - 1], key);
      var p := payments[|payments| - 1];
      if Relevant(key.value, p) then rest + [p] else rest
  }

  /** Exactly the relevant payments are kept. */
  lemma {:induction false} KeepPaymentsMembers(payments: seq<Payment>, key: Option<RefundKind>, p: Payment)
    ensures p in KeepPayments(payments, key) <==> key.Some? && p in payments && Relevant(key.value, p)
  {
    if key.Some? && payments != [] {
      var init := payments[..|payments| - 1];
      assert payments == init + [payments[|payments| - 1]];
      KeepPaymentsMembers(init, key, p);
    }
  }

  predicate HasId(ps: seq<Payment>, id: int) {
    exists i :: 0 <= i < |ps| && ps[i].id == id
  }

  /** A payment is collected as a deduction when its (truthy) parent id
      names a kept payment. */
  predicate IsDeductionOf(p: Payment, kept: seq<Payment>) {
    p.parentPaymentId.Some? && p.parentPaymentId.value != 0 && HasId(kept, p.parentPaymentId.value)
  }

  function AsDeduction(p: Payment): Deduction
    requires p.parentPaymentId.Some?
  {
    Deduction(Some(p.id), p.parentPaymentId.value, p.feeType, p.fee)
  }

  /** The deductions, in the order of the full payment list. */
  function CollectDeductions(payments: seq<Payment>, kept: seq<Payment>): seq<Deduction> {
    if payments == [] then []
    else
      var rest := CollectDeductions(payments[..|payments| - 1], kept);
      var p := payments[|payments| - 1];
      if IsDeductionOf(p, kept) then rest + [AsDeduction(p)] else rest
  }

  /** A deduction is collected exactly for the payments whose parent is kept,
      and it keeps that payment's id, parent, fee type and fee. */
  lemma {:induction false} CollectDeductionsMembers(payments: seq<Payment>, kept: seq<Payment>, x: Deduction)
    ensures x in CollectDeductions(payments, kept) <==>
      exists p :: p in payments && IsDeductionOf(p, kept) && x == AsDeduction(p)
  {
    if payments != [] {
      var init := payments[..|payments| - 1];
      assert payments == init + [payments[|payments| - 1]];
      CollectDeductionsMembers(init, kept, x);
    }
  }

  /** The default refund line of a payment: its id, fee type and full fee. */
  function DefaultDetail(p: Payment): RefundDetail {
    RefundDetail(None, p.id, p.feeType, Some(p.fee), map[])
  }

  function DefaultDetails(kept: seq<Payment>): seq<RefundDetail> {
    seq(|kept|, i requires 0 <= i < |kept| => DefaultDetail(kept[i]))
  }

  /** The fee type of the first kept payment with the given id
      (`paymentList.find(...).feeType`); none if there is no such payment. */
  function FindFeeType(kept: seq<Payment>, paymentId: int): (r: Option<FeeType>)
    ensures r.None? <==> !HasId(kept, paymentId)
    ensures r.Some? ==> exists i :: 0 <= i < |kept| && kept[i].id == paymentId && kept[i].feeType == r.value
  {
    if kept == [] then None
    else if kept[0].id == paymentId then Some(kept[0].feeType)
    else
      var r := FindFeeType(kept[1..], paymentId);
      assert HasId(kept, paymentId) <==> HasId(kept[1..], paymentId) by {
        if HasId(kept, paymentId) {
          var i :| 0 <= i < |kept| && kept[i].id == paymentId;
          assert kept[1..][i - 1].id == paymentId;
        }
        if HasId(kept[1..], paymentId) {
          var i :| 0 <= i < |kept| - 1 && kept[1..][i].id == paymentId;
          assert kept[i + 1].id == paymentId;
        }
      }
      if r.Some? then
        assert exists i :: 0 <= i < |kept| && kept[i].id == paymentId && kept[i].feeType == r.value by {
          var i :| 0 <= i < |kept| - 1 && kept[1..][i].id == paymentId && kept[1..][i].feeType == r.value;
          assert kept[i + 1] == kept[1..][i];
        }
        r
      else r
  }

  predicate AllFound(stored: seq<RefundDetail>, kept: seq<Payment>) {
    forall i :: 0 <= i < |stored| ==> HasId(kept, stored[i].paymentId)
  }

  /** With no kept payment nothing is a deduction. */
  lemma {:induction false} CollectFromNothingKept(payments: seq<Payment>, kept: seq<Payment>)
    requires kept == []
    ensures CollectDeductions(payments, kept) == []
  {
    if payments != [] {
      CollectFromNothingKept(payments[..|payments| - 1], kept);
    }
  }

  /** A stored refund line with its payment's fee type written into it. */
  function Stamped(d: RefundDetail, kept: seq<Payment>): RefundDetail
    requires HasId(kept, d.paymentId)
  {
    d.(feeType := FindFeeType(kept, d.paymentId).value)
  }

  /** The index of the first stored line whose payment is not kept. */
  function FirstMissing(stored: seq<RefundDetail>, kept: seq<Payment>, from: nat): (r: nat)
    requires from <= |stored|
    requires !AllFound(stored, kept)
    requires forall k :: 0 <= k < from ==> HasId(kept, stored[k].paymentId)
    ensures from <= r < |stored| && !HasId(kept, stored[r].paymentId)
    ensures forall k :: 0 <= k < r ==> HasId(kept, stored[k].paymentId)
    decreases |stored| - from
  {
    if !HasId(kept, stored[from].paymentId) then from else FirstMissing(stored, kept, from + 1)
  }

  /** What the screen holds once loading is done. */
  datatype Loaded = Loaded(
    payments: seq<Payment>,
    details: seq<RefundDetail>,
    deductions: seq<Deduction>,
    feeTypes: seq<FeeType>,
    paidOrderRentConsume: Option<int>)

  /** Loading either succeeds, or fails on the first stored refund line that
      names no kept payment (the `.find(...)` comes back undefined and
      reading its `feeType` throws). */
  datatype LoadResult = Ok(state: Loaded) | MissingPayment(paymentId: int)

  /** The total fee of the kept payments of one fee type, whatever their
      direction. */
  function TypeTotal(kept: seq<Payment>, ft: FeeType): int {
    if kept == [] then 0
    else
      var p := kept[|kept| - 1];
      TypeTotal(kept[..|kept| - 1], ft) + (if p.feeType == ft then p.fee else 0)
  }

  function SumFees(kept: seq<Payment>): int {
    if kept == [] then 0 else SumFees(kept[..|kept| - 1]) + kept[|kept| - 1].fee
  }

  /** `feeTypeList`: the fee types of `fts` whose kept total is positive. */
  function PositiveTypes(fts: seq<FeeType>, kept: seq<Payment>): seq<FeeType> {
    if fts == [] then []
    else
      var rest := PositiveTypes(fts[1..], kept);
      if TypeTotal(kept, fts[0]) > 0 then [fts[0]] + rest else rest
  }

  function FeeTypeList(kept: seq<Payment>): seq<FeeType> {
    PositiveTypes(AllFeeTypes, kept)
  }

  /** The position of a fee type in `allFeeTypeList`. */
  function Rank(ft: FeeType): nat {
    match ft
    case RentFee => 0
    case DamageDeposit => 1
    case ViolationDeposit => 2
    case DeliverFee => 3
    case ReceiveFee => 4
    case Other => 5
    case _ => 6
  }

  predicate RankIncreasing(fts: seq<FeeType>) {
    forall i, j :: 0 <= i < j < |fts| ==> Rank(fts[i]) < Rank(fts[j])
  }

  /** `feeTypeList` keeps a fee type exactly when its kept total is positive,
      and keeps the order of `fts`: an order-preserving sublist. */
  lemma {:induction false} PositiveTypesSpec(fts: seq<FeeType>, kept: seq<Payment>)
    requires RankIncreasing(fts)
    ensures forall ft :: ft in PositiveTypes(fts, kept) <==> ft in fts && TypeTotal(kept, ft) > 0
    ensures RankIncreasing(PositiveTypes(fts, kept))
  {
    if fts != [] {
      PositiveTypesSpec(fts[1..], kept);
      var rest := PositiveTypes(fts[1..], kept);
      forall x | x in rest ensures Rank(fts[0]) < Rank(x) {
        var j :| 0 <= j < |fts[1..]| && fts[1..][j] == x;
        assert fts[j + 1] == x;
      }
      assert fts == [fts[0]] + fts[1..];
    }
  }

  lemma FeeTypeListSpec(kept: seq<Payment>)
    ensures forall ft :: ft in FeeTypeList(kept) <==> ft in AllFeeTypes && TypeTotal(kept, ft) > 0
    ensures RankIncreasing(FeeTypeList(kept))
  {
    PositiveTypesSpec(AllFeeTypes, kept);
  }

  /** The whole derivation as a function of the loaded data. */
  function Load(payments: seq<Payment>, beanType: Option<RefundKind>, page: PageType,
                stored: Option<seq<RefundDetail>>): LoadResult
  {
    var kept := KeepPayments(payments, ListKey(beanType, page));
    if stored.Some? && !AllFound(stored.value, kept) then
      MissingPayment(stored.value[FirstMissing(stored.value, kept, 0)].paymentId)
    else
      var details :=
        if stored.None? then DefaultDetails(kept)
        else seq(|stored.value|, i requires 0 <= i < |stored.value| => Stamped(stored.value[i], kept));
      Ok(Loaded(kept, details, CollectDeductions(payments, kept), FeeTypeList(kept),
                if beanType.None? then Some(SumFees(kept)) else None))
  }

  /** `initPaymentList`: the deduction loop pushes onto a list, the stored
      refund lines get their fee type written in place. */
  method InitPaymentList(payments: seq<Payment>, beanType: Option<RefundKind>, page: PageType,
                         stored: Option<seq<RefundDetail>>)
    returns (r: LoadResult)
    ensures r == Load(payments, beanType, page, stored)
  {
    var kept := KeepPayments(payments, ListKey(beanType, page));
    var deductions: seq<Deduction> := [];
    if |kept| > 0 {
      for i := 0 to |payments|
        invariant deductions == CollectDeductions(payments[..i], kept)
      {
        assert payments[..i + 1][..i] == payments[..i];
        var p := payments[i];
        if p.parentPaymentId.Some? && p.parentPaymentId.value != 0 && HasId(kept, p.parentPaymentId.value) {
          deductions := deductions + [AsDeduction(p)];
        }
      }
      assert payments[..|payments|] == payments;
    } else {
      CollectFromNothingKept(payments, kept);
    }
    var details: seq<RefundDetail>;
    if stored.Some? {
      details := stored.value;
      for i := 0 to |details|
        invariant |details| == |stored.value|
        invariant forall k :: 0 <= k < i ==> HasId(kept, stored.value[k].paymentId)
        invariant forall k :: 0 <= k < i ==> details[k] == Stamped(stored.value[k], kept)
        invariant forall k :: i <= k < |details| ==> details[k] == stored.value[k]
      {
        var ft := FindFeeType(kept, details[i].paymentId);
        if ft.None? {
          assert !AllFound(stored.value, kept);
          assert FirstMissing(stored.value, kept, 0) == i;
          return MissingPayment(details[i].paymentId);
        }
        details := details[i := details[i].(feeType := ft.value)];
      }
      assert AllFound(stored.value, kept);
      assert details == seq(|stored.value|, i requires 0 <= i < |stored.value| => Stamped(stored.value[i], kept));
    } else {
      details := DefaultDetails(kept);
    }
    r := Ok(Loaded(kept, details, deductions, FeeTypeList(kept),
                   if beanType.None? then Some(SumFees(kept)) else None));
  }
}
