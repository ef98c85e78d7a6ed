/** The local editor of the refund screen: the payment, refund-line and
    deduction lists held in component state, and the edits that
    `addPayment`, `modifyPayment`, `deletePayment`, `saveDeductionPayment`
    and `deleteDeductionPayment` make to them. A server response is a
    parameter: `None` when the request failed or was refused. */
module RefundEditor {
  import opened Common
  import opened RefundTypes
  import opened RefundLedger
  import opened RefundLoad

  // ---------------------------------------------------------------------
  // List helpers with the semantics of the JavaScript calls they model.

  /** `Array.prototype.splice(k, 1)` for k in [-1, |s|): a start of -1
      counts from the end, so it removes the last element. */
  function RemoveAt<T>(s: seq<T>, k: int): (r: seq<T>)
    requires -1 <= k < |s|
    ensures |r| == if s == [] then 0 else |s| - 1
    ensures 0 <= k ==> forall i :: 0 <= i < |r| ==> r[i] == (if i < k then s[i] else s[i + 1])
    ensures k == -1 && s != [] ==> r == s[..|s| - 1]
  {
    if k == -1 then (if s == [] then [] else s[..|s| - 1]) else s[..k] + s[k + 1..]
  }

  /** `splice(k, 1, x)` for k in [-1, |s|): replaces the element at k (the
      last one for -1), or inserts `x` into an empty list. */
  function ReplaceAt<T>(s: seq<T>, k: int, x: T): (r: seq<T>)
    requires -1 <= k < |s|
    ensures |r| == if s == [] then 1 else |s|
    ensures 0 <= k ==> r == s[k := x]
    ensures k == -1 && s != [] ==> r == s[..|s| - 1] + [x]
  {
    if k == -1 then (if s == [] then [x] else s[..|s| - 1] + [x]) else s[k := x]
  }

  /** `findIndex(p => p.id === id)` over payments. */
  function PaymentIndex(payments: seq<Payment>, id: int): (r: int)
    ensures -1 <= r < |payments|
    ensures r == -1 <==> forall k :: 0 <= k < |payments| ==> payments[k].id != id
    ensures 0 <= r ==> payments[r].id == id && forall k :: 0 <= k < r ==> payments[k].id != id
  {
    FindIndex(payments, (p: Payment) => p.id == id)
  }

  /** `findIndex(d => d.paymentId === id)` over refund lines. */
  function DetailIndex(details: seq<RefundDetail>, paymentId: int): (r: int)
    ensures -1 <= r < |details|
    ensures r == -1 <==> forall k :: 0 <= k < |details| ==> details[k].paymentId != paymentId
    ensures 0 <= r ==> details[r].paymentId == paymentId
    ensures 0 <= r ==> forall k :: 0 <= k < r ==> details[k].paymentId != paymentId
  {
    FindIndex(details, (d: RefundDetail) => d.paymentId == paymentId)
  }

  /** A refund line whose fee is moved by `delta`, as `fee + delta`
      evaluates in JavaScript: a null fee counts as 0. */
  function Shifted(d: RefundDetail, delta: int): (r: RefundDetail)
    ensures r.fee.Some? && FeeOr0(r.fee) == FeeOr0(d.fee) + delta
    ensures r.(fee := d.fee) == d
  {
    d.(fee := Some(FeeOr0(d.fee) + delta))
  }

  // ---------------------------------------------------------------------
  // The balance a refund line keeps under deduction edits.

  /** What the refund line at `i` started from: its current fee plus what is
      withheld from its payment. Adding, modifying and deleting deductions
      only move money between the two terms. */
  function Gross(details: seq<RefundDetail>, deductions: seq<Deduction>, i: int): int
    requires 0 <= i < |details|
  {
    FeeOr0(details[i].fee) + TotalDeducted(deductions, details[i].paymentId)
  }

  /** One refund line per payment. */
  predicate OnePerPayment(details: seq<RefundDetail>) {
    forall i, j :: 0 <= i < j < |details| ==> details[i].paymentId != details[j].paymentId
  }

  /** What one deduction withholds from the payment `paymentId`. */
  function Withheld(x: Deduction, paymentId: int): int {
    if x.parentPaymentId == paymentId then x.fee else 0
  }

  lemma TotalDeductedSingle(x: Deduction, paymentId: int)
    ensures TotalDeducted([x], paymentId) == Withheld(x, paymentId)
  {
    assert [x][..0] == [];
  }

  /** Splitting the deduction list around position k. */
  lemma TotalDeductedAround(ds: seq<Deduction>, k: int, paymentId: int)
    requires 0 <= k < |ds|
    ensures TotalDeducted(ds, paymentId) ==
      TotalDeducted(ds[..k], paymentId) + Withheld(ds[k], paymentId) + TotalDeducted(ds[k + 1..], paymentId)
  {
    assert ds == ds[..k] + [ds[k]] + ds[k + 1..];
    TotalDeductedConcat(ds[..k] + [ds[k]], ds[k + 1..], paymentId);
    TotalDeductedConcat(ds[..k], [ds[k]], paymentId);
    TotalDeductedSingle(ds[k], paymentId);
  }

  /** Removing the deduction at k gives back exactly what it withheld. */
  lemma TotalDeductedRemove(ds: seq<Deduction>, k: int, paymentId: int)
    requires 0 <= k < |ds|
    ensures TotalDeducted(RemoveAt(ds, k), paymentId) == TotalDeducted(ds, paymentId) - Withheld(ds[k], paymentId)
  {
    TotalDeductedAround(ds, k, paymentId);
    TotalDeductedConcat(ds[..k], ds[k + 1..], paymentId);
  }

  /** Replacing the deduction at k swaps its withholding for the new one's. */
  lemma TotalDeductedReplace(ds: seq<Deduction>, k: int, y: Deduction, paymentId: int)
    requires 0 <= k < |ds|
    ensures TotalDeducted(ReplaceAt(ds, k, y), paymentId) ==
      TotalDeducted(ds, paymentId) - Withheld(ds[k], paymentId) + Withheld(y, paymentId)
  {
    var ds' := ds[k := y];
    TotalDeductedAround(ds, k, paymentId);
    TotalDeductedAround(ds', k, paymentId);
    assert ds'[..k] == ds[..k] && ds'[k + 1..] == ds[k + 1..];
  }

  /** Adding a deduction to the line at `idx` (its parent is that line's
      payment) lowers that line's fee by exactly the deduction and leaves
      every line's gross amount, and every other line, unchanged. */
  lemma {:induction false} AddDeductionKeepsGross(
    details: seq<RefundDetail>, deductions: seq<Deduction>, idx: int, x: Deduction)
    requires OnePerPayment(details)
    requires 0 <= idx < |details| && x.parentPaymentId == details[idx].paymentId
    ensures forall j :: 0 <= j < |details| ==>
      Gross(details[idx := Shifted(details[idx], -x.fee)], deductions + [x], j) == Gross(details, deductions, j)
  {
    var details' := details[idx := Shifted(details[idx], -x.fee)];
    forall j | 0 <= j < |details|
      ensures Gross(details', deductions + [x], j) == Gross(details, deductions, j)
    {
      TotalDeductedConcat(deductions, [x], details[j].paymentId);
      TotalDeductedSingle(x, details[j].paymentId);
    }
  }

  /** Deleting the deduction at `pos` from the line at `idx` puts exactly its
      fee back into that line and keeps every line's gross amount. */
  lemma {:induction false} DeleteDeductionKeepsGross(
    details: seq<RefundDetail>, deductions: seq<Deduction>, idx: int, pos: int)
    requires OnePerPayment(details)
    requires 0 <= idx < |details| && 0 <= pos < |deductions|
    requires deductions[pos].parentPaymentId == details[idx].paymentId
    ensures forall j :: 0 <= j < |details| ==>
      Gross(details[idx := Shifted(details[idx], deductions[pos].fee)], RemoveAt(deductions, pos), j)
        == Gross(details, deductions, j)
  {
    var details' := details[idx := Shifted(details[idx], deductions[pos].fee)];
    forall j | 0 <= j < |details|
      ensures Gross(details', RemoveAt(deductions, pos), j) == Gross(details, deductions, j)
    {
      TotalDeductedRemove(deductions, pos, details[j].paymentId);
    }
  }

  /** Modifying the deduction at `pos` to a new fee type and fee sets the
      line's fee to `fee - new + feeBefore` (feeBefore being the old fee)
      and keeps every line's gross amount. */
  lemma {:induction false} ModifyDeductionKeepsGross(
    details: seq<RefundDetail>, deductions: seq<Deduction>, idx: int, pos: int, feeType: FeeType, fee: int)
    requires OnePerPayment(details)
    requires 0 <= idx < |details| && 0 <= pos < |deductions|
    requires deductions[pos].parentPaymentId == details[idx].paymentId
    ensures forall j :: 0 <= j < |details| ==>
      Gross(details[idx := Shifted(details[idx], -fee + deductions[pos].fee)],
            ReplaceAt(deductions, pos, deductions[pos].(feeType := feeType, fee := fee)), j)
        == Gross(details, deductions, j)
  {
    var y := deductions[pos].(feeType := feeType, fee := fee);
    var details' := details[idx := Shifted(details[idx], -fee + deductions[pos].fee)];
    forall j | 0 <= j < |details|
      ensures Gross(details', ReplaceAt(deductions, pos, y), j) == Gross(details, deductions, j)
    {
      TotalDeductedReplace(deductions, pos, y, details[j].paymentId);
    }
  }

  /** Adding a deduction and then deleting it again restores both lists
      (a line whose fee was null comes back with fee 0). */
  lemma AddThenDeleteRestores(details: seq<RefundDetail>, deductions: seq<Deduction>, idx: int, x: Deduction)
    requires 0 <= idx < |details|
    ensures var details' := details[idx := Shifted(details[idx], -x.fee)];
            var deductions' := deductions + [x];
            RemoveAt(deductions', |deductions|) == deductions &&
            FeeOr0(details'[idx := Shifted(details'[idx], deductions'[|deductions|].fee)][idx].fee) == FeeOr0(details[idx].fee) &&
            (details[idx].fee.Some? ==> details'[idx := Shifted(details'[idx], deductions'[|deductions|].fee)] == details)
  {
    assert (deductions + [x])[..|deductions|] == deductions;
  }

  // ---------------------------------------------------------------------
  // The deduction dialog.

  /** The fee input of the deduction dialog: an unparsable or negative
      input is cleared, and so is one above the remaining amount (a null
      remaining amount compares as 0). */
  function DialogFee(parsed: Option<int>, remain: Option<int>): (r: Option<int>)
    ensures r.None? <==> parsed.None? || parsed.value < 0 || parsed.value > FeeOr0(remain)
    ensures r.Some? ==> r == parsed && 0 <= r.value <= FeeOr0(remain)
  {
    if parsed.None? || parsed.value < 0 then None
    else if parsed.value > FeeOr0(remain) then None
    else parsed
  }

  /** The confirm button: disabled without a fee type or with a null/zero
      fee, refused without a remark. */
  predicate DialogAccepts(feeType: Option<FeeType>, fee: Option<int>, remark: string) {
    feeType.Some? && !FeeFalsy(fee) && remark != ""
  }

  /** The remaining amount the dialog checks against: the line's fee when
      adding, the line's fee plus the edited deduction's fee when modifying. */
  function AddRemain(d: RefundDetail): Option<int> { d.fee }

  function ModifyRemain(d: RefundDetail, before: int): Option<int> { Some(FeeOr0(d.fee) + before) }

  /** A deduction accepted by the dialog is positive and never drives the
      line's fee below zero, for adding and for modifying. */
  lemma AcceptedDeductionKeepsFeeNonNegative(
    d: RefundDetail, parsed: Option<int>, feeType: Option<FeeType>, remark: string, before: int)
    ensures DialogAccepts(feeType, DialogFee(parsed, AddRemain(d)), remark) ==>
      var f := DialogFee(parsed, AddRemain(d)).value;
      f > 0 && FeeOr0(Shifted(d, -f).fee) >= 0
    ensures DialogAccepts(feeType, DialogFee(parsed, ModifyRemain(d, before)), remark) ==>
      var f := DialogFee(parsed, ModifyRemain(d, before)).value;
      f > 0 && FeeOr0(Shifted(d, -f + before).fee) >= 0
  {
  }

  // ---------------------------------------------------------------------
  // Payment edits.

  /** What the server returns for a saved payment. */
  datatype Saved = Saved(payment: Payment, detail: RefundDetail)

  /** The in-place clamp of `modifyPayment`: a line whose fee is above the
      new payment fee is lowered to it. */
  function Clamped(d: RefundDetail, paymentFee: int): (r: RefundDetail)
    ensures FeeOr0(r.fee) == if FeeOr0(d.fee) > paymentFee then paymentFee else FeeOr0(d.fee)
    ensures FeeOr0(d.fee) <= paymentFee ==> r == d
    ensures r.(fee := d.fee) == d
  {
    if FeeOr0(d.fee) > paymentFee then d.(fee := Some(paymentFee)) else d
  }

  /** Every refund line belongs to a listed payment. */
  predicate Linked(payments: seq<Payment>, details: seq<RefundDetail>) {
    forall i :: 0 <= i < |details| ==> HasId(payments, details[i].paymentId)
  }

  /** Adding a saved payment with its refund line keeps every line linked. */
  lemma AddPaymentKeepsLinked(payments: seq<Payment>, details: seq<RefundDetail>, s: Saved)
    requires Linked(payments, details)
    requires s.detail.paymentId == s.payment.id
    ensures Linked(payments + [s.payment], details + [s.detail.(feeType := s.payment.feeType)])
  {
    var ps := payments + [s.payment];
    var ds := details + [s.detail.(feeType := s.payment.feeType)];
    forall i | 0 <= i < |ds|
      ensures HasId(ps, ds[i].paymentId)
    {
      if i < |details| {
        assert ds[i] == details[i];
        var k :| 0 <= k < |payments| && payments[k].id == details[i].paymentId;
        assert ps[k] == payments[k];
      } else {
        assert ps[|payments|].id == ds[i].paymentId;
      }
    }
  }

  /** Deleting a payment and its refund line keeps every remaining line
      linked, when payment ids are unique and each payment has at most one
      line. */
  lemma DeletePaymentKeepsLinked(payments: seq<Payment>, details: seq<RefundDetail>, id: int)
    requires Linked(payments, details) && OnePerPayment(details)
    requires forall i, j :: 0 <= i < j < |payments| ==> payments[i].id != payments[j].id
    requires PaymentIndex(payments, id) >= 0
    ensures Linked(RemoveAt(payments, PaymentIndex(payments, id)), RemoveAt(details, DetailIndex(details, id)))
  {
    var pi := PaymentIndex(payments, id);
    var di := DetailIndex(details, id);
    var ps := RemoveAt(payments, pi);
    var ds := RemoveAt(details, di);
    forall i | 0 <= i < |ds|
      ensures HasId(ps, ds[i].paymentId)
    {
      var i0 := if di == -1 || i < di then i else i + 1;
      assert ds[i] == details[i0];
      assert details[i0].paymentId != id;
      var k :| 0 <= k < |payments| && payments[k].id == details[i0].paymentId;
      assert k != pi;
      var k' := if k < pi then k else k - 1;
      assert ps[k'] == payments[k];
    }
  }

  /** When the deleted payment has no refund line, the line index is -1
      and `splice(-1, 1)` drops the last refund line, which belongs to some
      other payment. */
  lemma DeletePaymentWithoutLineDropsLast(details: seq<RefundDetail>, id: int)
    requires details != []
    requires forall k :: 0 <= k < |details| ==> details[k].paymentId != id
    ensures DetailIndex(details, id) == -1
    ensures RemoveAt(details, DetailIndex(details, id)) == details[..|details| - 1]
    ensures details[|details| - 1].paymentId != id
  {
  }

  // ---------------------------------------------------------------------
  // The component state.

  class RefundEditor {
    var payments: seq<Payment>
    var details: seq<RefundDetail>
    var deductions: seq<Deduction>
    /** `originalRefundDetailList`: the refund lines as loaded. */
    var original: seq<RefundDetail>
    /** `navprops.pageType`. */
    const page: PageType

    constructor(loaded: Loaded, page: PageType)
      ensures payments == loaded.payments && details == loaded.details
      ensures deductions == loaded.deductions && original == loaded.details
      ensures this.page == page
    {
      payments := loaded.payments;
      details := loaded.details;
      deductions := loaded.deductions;
      original := loaded.details;
      this.page := page;
    }

    /** Deductions are edited locally only on the three creation pages; on
        the other pages they are sent to the server, whose answer the
        screen then puts into its lists and which is not modelled here. */
    predicate EditsLocally()
      reads this
    {
      page.CreatePage?
    }

    /** `saveDeductionPayment(..., 'ADD')` for the line at `idx`: append the
        dialog's deduction (parent: the line's payment, no id yet) and lower
        the line's fee by it. */
    method AddDeduction(idx: int, feeType: FeeType, fee: int)
      requires 0 <= idx < |details|
      modifies this
      ensures EditsLocally() ==>
        deductions == old(deductions) + [Deduction(None, old(details)[idx].paymentId, feeType, fee)] &&
        details == old(details)[idx := Shifted(old(details)[idx], -fee)]
      ensures !EditsLocally() ==> deductions == old(deductions) && details == old(details)
      ensures payments == old(payments) && original == old(original)
    {
      if EditsLocally() {
        var x := Deduction(None, details[idx].paymentId, feeType, fee);
        deductions := deductions + [x];
        details := details[idx := Shifted(details[idx], -fee)];
      }
    }

    /** `saveDeductionPayment(..., 'MODIFY')` on the deduction at `pos`
        shown under the line at `idx`: the deduction takes the new fee type
        and fee, and the line's fee becomes `fee - new + feeBefore`. The
        screen replaces the first deduction with the tapped one's `id`
        instead; `ModifyDeductionAsWritten` models that lookup. */
    method ModifyDeduction(pos: int, idx: int, feeType: FeeType, fee: int)
      requires 0 <= pos < |deductions| && 0 <= idx < |details|
      modifies this
      ensures EditsLocally() ==>
        deductions == old(deductions)[pos := old(deductions)[pos].(feeType := feeType, fee := fee)] &&
        details == old(details)[idx := Shifted(old(details)[idx], -fee + old(deductions)[pos].fee)]
      ensures !EditsLocally() ==> deductions == old(deductions) && details == old(details)
      ensures payments == old(payments) && original == old(original)
    {
      if EditsLocally() {
        var feeBefore := deductions[pos].fee;
        deductions := ReplaceAt(deductions, pos, deductions[pos].(feeType := feeType, fee := fee));
        details := details[idx := Shifted(details[idx], -fee + feeBefore)];
      }
    }

    /** `deleteDeductionPayment` on the deduction at `pos` shown under the
        line at `idx`: remove it and give its fee back to the line. The
        screen removes the first deduction with the tapped one's `id`
        instead, which differs for deductions added in the dialog;
        `DeleteDeductionAsWritten` models that lookup. */
    method DeleteDeduction(pos: int, idx: int)
      requires 0 <= pos < |deductions| && 0 <= idx < |details|
      modifies this
      ensures EditsLocally() ==>
        deductions == RemoveAt(old(deductions), pos) &&
        details == old(details)[idx := Shifted(old(details)[idx], old(deductions)[pos].fee)]
      ensures !EditsLocally() ==> deductions == old(deductions) && details == old(details)
      ensures payments == old(payments) && original == old(original)
    {
      if EditsLocally() {
        var x := deductions[pos];
        deductions := RemoveAt(deductions, pos);
        details := details[idx := Shifted(details[idx], x.fee)];
      }
    }

    /** `addPayment`: on success the saved payment and its refund line
        (stamped with the payment's fee type) are appended as a pair. */
    method AddPayment(response: Option<Saved>)
      modifies this
      ensures response.Some? ==>
        payments == old(payments) + [response.value.payment] &&
        details == old(details) + [response.value.detail.(feeType := response.value.payment.feeType)]
      ensures response.None? ==> payments == old(payments) && details == old(details)
      ensures deductions == old(deductions) && original == old(original)
    {
      if response.Some? {
        var s := response.value;
        payments := payments + [s.payment];
        details := details + [s.detail.(feeType := s.payment.feeType)];
      }
    }

    /** `modifyPayment(p)`: the line of `p` is clamped to `p.fee` in place
        before the request (so the clamp stays even if the request fails);
        on success the payment and its line are replaced by the saved ones.
        Without a line for `p` the lookup throws and nothing changes. */
    method ModifyPayment(p: Payment, response: Option<Saved>)
      modifies this
      ensures var di := DetailIndex(old(details), p.id);
              var pi := PaymentIndex(old(payments), p.id);
              if di == -1 then payments == old(payments) && details == old(details)
              else if response.None? then
                payments == old(payments) && details == old(details)[di := Clamped(old(details)[di], p.fee)]
              else
                payments == (if pi == -1 then old(payments) else old(payments)[pi := response.value.payment]) &&
                details == old(details)[di := response.value.detail.(feeType := response.value.payment.feeType)]
      ensures deductions == old(deductions) && original == old(original)
    {
      var di := DetailIndex(details, p.id);
      if di == -1 {
        return;
      }
      details := details[di := Clamped(details[di], p.fee)];
      if response.Some? {
        var s := response.value;
        var pi := PaymentIndex(payments, p.id);
        if pi != -1 {
          payments := payments[pi := s.payment];
        }
        details := details[di := s.detail.(feeType := s.payment.feeType)];
      }
    }

    /** `deletePayment(id)`: on success the payment and its refund line are
        spliced out as a pair (a missing line index of -1 splices the last
        line, as `splice(-1, 1)` does). */
    method DeletePayment(id: int, succeeded: bool)
      requires PaymentIndex(payments, id) >= 0
      modifies this
      ensures succeeded ==>
        payments == RemoveAt(old(payments), PaymentIndex(old(payments), id)) &&
        details == RemoveAt(old(details), DetailIndex(old(details), id))
      ensures !succeeded ==> payments == old(payments) && details == old(details)
      ensures deductions == old(deductions) && original == old(original)
    {
      if succeeded {
        var pi := PaymentIndex(payments, id);
        var di := DetailIndex(details, id);
        payments := RemoveAt(payments, pi);
        details := RemoveAt(details, di);
      }
    }
  }

  // ---------------------------------------------------------------------
  // Deduction lookup as the source writes it.

  /** `deductionPaymentList.findIndex(p => p.id === payment.id)`: the first
      deduction with the same id, -1 if none. A deduction added in the
      dialog has no id, and `undefined === undefined` holds, so for such a
      deduction this is the first id-less one in the list. */
  function IndexById(ds: seq<Deduction>, id: Option<int>): (r: int)
    ensures -1 <= r < |ds|
    ensures r == -1 <==> forall k :: 0 <= k < |ds| ==> ds[k].id != id
    ensures 0 <= r ==> ds[r].id == id && forall k :: 0 <= k < r ==> ds[k].id != id
  {
    FindIndex(ds, (d: Deduction) => d.id == id)
  }

  /** The lookup finds the deduction at `pos` exactly when no earlier
      deduction carries the same id: always for deductions loaded with
      distinct ids, never for a second deduction added in the dialog. */
  lemma IndexByIdFinds(ds: seq<Deduction>, pos: int)
    requires 0 <= pos < |ds|
    ensures IndexById(ds, ds[pos].id) == pos <==> forall k :: 0 <= k < pos ==> ds[k].id != ds[pos].id
  {
  }

  /** The refund lines and deductions after an edit. */
  datatype Lists = Lists(details: seq<RefundDetail>, deductions: seq<Deduction>)

  /** `deleteDeductionPayment` as written: the deduction removed is the one
      `IndexById` finds, while the fee given back is the tapped one's. */
  function DeleteDeductionAsWritten(details: seq<RefundDetail>, deductions: seq<Deduction>, pos: int, idx: int): (r: Lists)
    requires 0 <= pos < |deductions| && 0 <= idx < |details|
    ensures |r.details| == |details| && |r.deductions| == |deductions| - 1
    ensures r.details[idx].fee == Some(FeeOr0(details[idx].fee) + deductions[pos].fee)
  {
    var x := deductions[pos];
    Lists(details[idx := Shifted(details[idx], x.fee)], RemoveAt(deductions, IndexById(deductions, x.id)))
  }

  /** Two deductions added in the dialog under two different lines, then
      the second one deleted: the first line's deduction disappears while
      the second line gets the money back, so the first line's gross
      amount drops from 1000 to 900. */
  lemma DeleteDeductionAsWrittenLosesMoney()
    ensures var details := [RefundDetail(None, 1, RentFee, Some(900), map[]),
                            RefundDetail(None, 2, RentFee, Some(450), map[])];
            var deductions := [Deduction(None, 1, OilFee, 100), Deduction(None, 2, OilFee, 50)];
            var r := DeleteDeductionAsWritten(details, deductions, 1, 1);
            Gross(details, deductions, 0) == 1000 && Gross(r.details, r.deductions, 0) == 900
  {
    var details := [RefundDetail(None, 1, RentFee, Some(900), map[]),
                    RefundDetail(None, 2, RentFee, Some(450), map[])];
    var deductions := [Deduction(None, 1, OilFee, 100), Deduction(None, 2, OilFee, 50)];
    var r := DeleteDeductionAsWritten(details, deductions, 1, 1);
    assert IndexById(deductions, None) == 0;
    assert r.deductions == [deductions[1]];
    assert r.deductions[..0] == [] && deductions[..1] == [deductions[0]];
    TotalDeductedSingle(deductions[1], 1);
    TotalDeductedConcat([deductions[0]], [deductions[1]], 1);
    TotalDeductedSingle(deductions[0], 1);
  }

  /** `saveDeductionPayment(..., 'MODIFY')` as written: the deduction
      replaced is the one `IndexById` finds, while the line shifted and the
      old fee given back are the tapped one's. */
  function ModifyDeductionAsWritten(
    details: seq<RefundDetail>, deductions: seq<Deduction>, pos: int, idx: int, feeType: FeeType, fee: int): (r: Lists)
    requires 0 <= pos < |deductions| && 0 <= idx < |details|
    ensures |r.details| == |details| && |r.deductions| == |deductions|
    ensures r.details[idx].fee == Some(FeeOr0(details[idx].fee) - fee + deductions[pos].fee)
    ensures deductions[pos].(feeType := feeType, fee := fee) in r.deductions
  {
    var x := deductions[pos];
    var k := IndexById(deductions, x.id);
    var ds := ReplaceAt(deductions, k, x.(feeType := feeType, fee := fee));
    assert 0 <= k && ds[k] == x.(feeType := feeType, fee := fee);
    Lists(details[idx := Shifted(details[idx], -fee + x.fee)], ds)
  }

  /** Two deductions added in the dialog under two different lines, then
      the second one changed to 80: the first line's deduction is
      overwritten with the edited one, so the first line's gross amount
      drops from 1000 to 900. */
  lemma ModifyDeductionAsWrittenLosesMoney()
    ensures var details := [RefundDetail(None, 1, RentFee, Some(900), map[]),
                            RefundDetail(None, 2, RentFee, Some(450), map[])];
            var deductions := [Deduction(None, 1, OilFee, 100), Deduction(None, 2, OilFee, 50)];
            var r := ModifyDeductionAsWritten(details, deductions, 1, 1, OilFee, 80);
            Gross(details, deductions, 0) == 1000 && Gross(r.details, r.deductions, 0) == 900
  {
    var details := [RefundDetail(None, 1, RentFee, Some(900), map[]),
                    RefundDetail(None, 2, RentFee, Some(450), map[])];
    var deductions := [Deduction(None, 1, OilFee, 100), Deduction(None, 2, OilFee, 50)];
    var r := ModifyDeductionAsWritten(details, deductions, 1, 1, OilFee, 80);
    var y := Deduction(None, 2, OilFee, 80);
    assert IndexById(deductions, None) == 0;
    assert r.deductions == [y] + [deductions[1]];
    TotalDeductedSingle(y, 1);
    TotalDeductedSingle(deductions[1], 1);
    TotalDeductedConcat([y], [deductions[1]], 1);
    TotalDeductedSingle(deductions[0], 1);
    TotalDeductedConcat([deductions[0]], [deductions[1]], 1);
    assert deductions == [deductions[0]] + [deductions[1]];
  }
}
