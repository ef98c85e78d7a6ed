# Refund detail screen, table component and A-share indicator jobs in Dafny

This project models four parts of a car-rental back office and a stock-data
job runner, and proves what each promises.

- **The refund detail screen** (`RefundDetailScreen.js`) keeps the payments of an
  order, one refund line per payment, and the deductions withheld from
  those lines. The model covers:
  - the money ledger (already paid, remaining, unrefunded, withheld, and the
    per-category totals of the cancel confirmation), in `refund_ledger.dfy`;
  - the way the screen loads its lists from the server answer, in `refund_load.dfy`;
  - the local editor (add, modify and delete a deduction or a payment), a
    `class` whose fields are the lists the screen keeps in its state, in
    `refund_editor.dfy`;
  - the gates a review must pass and the choice rules for pay modes,
    deduction fee types and refund buttons, in `refund_gates.dfy`.

  The shared entities are in `refund_types.dfy`. Money is held in integer
  cents. A missing refund fee (`null`) is `None`, and where the screen adds or
  compares it, it counts as 0 (`FeeOr0`), as JavaScript coerces it.
- **The table component** (`MyTable.js`) has:
  - the sort state machine (none → ascending → descending → none), a class
    `SortState`;
  - the cell comparator;
  - sorting a copy of the rows;
  - the default sort;
  - the sum row;
  - the guarded percent label.

  These are all in `my_table.dfy`.
- **The RSI, MTM and CCI jobs** (`AshareRsiService.java`, `AshareMtmService.java`,
  `AshareCciService.java`) compute one indicator per trading day for a stock.
  Each starts from the stored record if there is one (otherwise it runs as a
  first run), and splits the new records into insert batches by which
  values are null.
  - Decimal arithmetic (`BigDecimal`) is modelled on `real`, with
    half-up rounding (`Common.HalfUp`) at the scale each division uses.
  - The CCI constant `new BigDecimal(0.015)` is the exact binary value of the
    double 0.015.
  - The database reads are inputs and the batch inserts are outputs.
  - Shared pieces (the price row, `Collections.reverse` in place on an array,
    sums) are in `series.dfy`.
- **The PB-top-1 selector** (`SelectorPbTop1OfIndustryService.java`) groups the stocks that have a
  price-to-book value by industry and picks the highest per industry. It is in
  `selector_pb.dfy`.

## Model

| member | source | states |
|---|---|---|
| Common.HalfUp | AshareRsiService.java:104 | `divide(..., scale, ROUND_HALF_UP)`: the result is a whole multiple of the last place, has the sign of the input and is within half a unit of the last place of it, strictly so on the side towards zero (a tie goes away from zero) |
| Common.FindIndex | MyTable.js:195 | `findIndex`: the first index whose element passes the test, or -1 exactly when none does |
| Common.HalfUpMonotone | AshareMtmService.java:87 | half-up rounding preserves order |
| RefundLedger.AlreadyPaidAppend | RefundDetailScreen.js:1142-1151 | a new payment adds its fee to the paid total of its fee type when it is paid in, and changes nothing when it is paid out |
| RefundLedger.AlreadyPaidConcat | RefundDetailScreen.js:1142-1151 | the paid total of two payment lists is the sum of their paid totals |
| RefundLedger.PayingRemainderSettles | RefundDetailScreen.js:1795-1825 | paying in exactly what remains to be paid for a fee type leaves nothing to pay |
| RefundLedger.UnrefundAfterPayment | RefundDetailScreen.js:3479-3489 | a refund paid for a line lowers its unrefunded amount by the refund's fee; any other payment leaves it unchanged; a non-negative payment never raises it |
| RefundLedger.UnrefundByFeeTypeIsSumOfLines | RefundDetailScreen.js:1769-1793 | the unrefunded total of a fee type is the sum of the unrefunded amounts of its lines |
| RefundLedger.TotalDeductedConcat | RefundDetailScreen.js:3491-3499 | the amount withheld from a payment is additive over the deduction list |
| RefundLedger.HintedRefundZero | RefundDetailScreen.js:371-379 | the fast path's "every line fee-less" test against the confirmation's refund total: fee-less lines total 0, and with no negative fee a total of 0 means every line is fee-less |
| RefundLedger.CategoryRefundByFeeType | RefundDetailScreen.js:2791-2800 | the cancel confirmation's refund per category equals the refund totals per fee type the screen renders, with the two deposit types summed |
| RefundLedger.CancelTotals | RefundDetailScreen.js:420-481 | every one of the five categories gets its paid total over the payments and its refund total over the refund lines |
| RefundLoad.KeepPaymentsMembers | RefundDetailScreen.js:175-183 | a payment is kept exactly when the page has a list key and the payment belongs to that kind of refund |
| RefundLoad.CollectDeductionsMembers | RefundDetailScreen.js:186-200 | a deduction is collected exactly when it comes from a payment whose parent is a kept payment |
| RefundLoad.CollectFromNothingKept | RefundDetailScreen.js:189-200 | with no payment kept, no deduction is collected |
| RefundLoad.FindFeeType | RefundDetailScreen.js:208-212 | the fee type is found exactly when a kept payment has the line's payment id, and it is that payment's fee type |
| RefundLoad.FirstMissing | RefundDetailScreen.js:208-212 | when some stored line has no kept payment, the first such line is found and every earlier line has one |
| RefundLoad.PositiveTypesSpec | RefundDetailScreen.js:221-230 | the fee type list holds exactly the fee types with a positive total, in catalog order |
| RefundLoad.FeeTypeListSpec | RefundDetailScreen.js:221-230 | over the whole catalog, the list holds exactly the fee types whose kept payments total more than zero, in catalog order |
| RefundLoad.InitPaymentList | RefundDetailScreen.js:173-255 | the loop that fills the lists produces the load function's result (kept payments, collected deductions, refund lines or the error) |
| RefundEditor.RemoveAt | RefundDetailScreen.js:1288-1289 | `$splice` of one element: one fewer element, the later ones shifted down; index -1 leaves exactly the list without its last element |
| RefundEditor.ReplaceAt | RefundDetailScreen.js:1434-1436 | `$splice` replacing one element: the same length with that element replaced |
| RefundEditor.PaymentIndex | RefundDetailScreen.js:1280-1282 | the first payment with the id, or -1 exactly when there is none |
| RefundEditor.DetailIndex | RefundDetailScreen.js:1283-1285 | the first refund line of the payment, or -1 exactly when there is none |
| RefundEditor.Clamped | RefundDetailScreen.js:1203-1208 | a refund line whose fee exceeds the payment's new fee is cut down to it; otherwise it is unchanged |
| RefundEditor.AddDeductionKeepsGross | RefundDetailScreen.js:1408-1427 | adding a deduction keeps every line's fee plus withheld amount (its gross) unchanged |
| RefundEditor.ModifyDeductionKeepsGross | RefundDetailScreen.js:1429-1449 | changing a deduction keeps every line's gross unchanged |
| RefundEditor.DeleteDeductionKeepsGross | RefundDetailScreen.js:1568-1592 | deleting the tapped deduction keeps every line's gross unchanged |
| RefundEditor.AddThenDeleteRestores | RefundDetailScreen.js:1568-1592 | deleting a deduction just added restores both lists |
| RefundEditor.DialogFee | RefundDetailScreen.js:3347-3375 | the dialog accepts an amount exactly when it parses, is not negative and is at most what remains on the line |
| RefundEditor.AcceptedDeductionKeepsFeeNonNegative | RefundDetailScreen.js:3437-3453 | an accepted deduction never drives the line's fee below zero, both when it is added and when it is modified |
| RefundEditor.AddPaymentKeepsLinked | RefundDetailScreen.js:1181-1193 | after a payment is added, every refund line still belongs to a payment |
| RefundEditor.DeletePaymentKeepsLinked | RefundDetailScreen.js:1280-1291 | after a payment and its line are deleted, every remaining line still belongs to a payment |
| RefundEditor.DeletePaymentWithoutLineDropsLast | RefundDetailScreen.js:1283-1289 | when the deleted payment has no refund line, the line index is -1 and the last refund line, which belongs to another payment, is dropped |
| RefundEditor.RefundEditor.constructor | RefundDetailScreen.js:245-254 | the editor starts from the loaded lists, and the snapshot is the loaded refund lines |
| RefundEditor.RefundEditor.AddDeduction | RefundDetailScreen.js:1408-1427 | on a page that edits locally, the deduction is appended and the line's fee lowered by it; on the other pages the server's answer is not applied and the lists stay as they were |
| RefundEditor.RefundEditor.ModifyDeduction | RefundDetailScreen.js:1429-1449 | on a page that edits locally, the deduction is replaced and the line's fee moves by the difference; on the other pages the server's answer is not applied and the lists stay as they were |
| RefundEditor.RefundEditor.DeleteDeduction | RefundDetailScreen.js:1568-1592 | on a page that edits locally, the tapped deduction (where the screen takes the first one with the same `id`) is removed and its fee given back to the line; on the other pages the server's answer is not applied and the lists stay as they were |
| RefundEditor.RefundEditor.AddPayment | RefundDetailScreen.js:1154-1199 | a saved payment and its line are appended (the line with the payment's fee type); a failed save changes nothing |
| RefundEditor.RefundEditor.ModifyPayment | RefundDetailScreen.js:1202-1256 | the payment is replaced and its line clamped to the new fee; a failed save changes nothing |
| RefundEditor.RefundEditor.DeletePayment | RefundDetailScreen.js:1259-1297 | a successful delete removes the payment and its line; a failed one changes nothing |
| RefundEditor.IndexById | RefundDetailScreen.js:1399-1401 | `findIndex` by `id`: the first deduction with that id (which may be missing), or -1 |
| RefundEditor.IndexByIdFinds | RefundDetailScreen.js:1557-1559 | the lookup finds the tapped deduction exactly when no earlier deduction has the same id |
| RefundEditor.DeleteDeductionAsWritten | RefundDetailScreen.js:1556-1593 | the delete as the screen writes it: it removes one deduction and gives the tapped one's fee back to the line |
| RefundEditor.DeleteDeductionAsWrittenLosesMoney | RefundDetailScreen.js:1557-1559 | with two deductions added in the dialog, deleting the second lowers the first line's gross from 1000 to 900 |
| RefundEditor.ModifyDeductionAsWritten | RefundDetailScreen.js:1399-1449 | the modify as the screen writes it: it overwrites one deduction with the edited one and moves the tapped line's fee by the difference |
| RefundEditor.ModifyDeductionAsWrittenLosesMoney | RefundDetailScreen.js:1399-1401 | with two deductions added in the dialog, changing the second to 80 lowers the first line's gross from 1000 to 900 |
| RefundGates.ApprovalGate | RefundDetailScreen.js:722-755 | the approval goes through exactly when every line's fee is unchanged or remarked by the role; otherwise it refuses at the first line that fails, saying why |
| RefundGates.RemarkUnblocksLine | RefundDetailScreen.js:722-755 | a remark of the role on a line lets that line pass whatever its fee |
| RefundGates.AllBlank | RefundDetailScreen.js:943-945 | true exactly when no line carries a remark of the role |
| RefundGates.ReviewGate | RefundDetailScreen.js:939-956 | an approval always goes through; a rejection goes through exactly when there is a request remark or a line remark of the role |
| RefundGates.AnyUnsettled | RefundDetailScreen.js:911-929 | true exactly when some payment has one of the three unsettled finance statuses |
| RefundGates.AccountantApprovalGate | RefundDetailScreen.js:911-929 | the accountant's approval goes through exactly when no payment has an unsettled finance status |
| RefundGates.DepositNeedsWorkflow | RefundDetailScreen.js:569-604 | a confirmation that skips the signature shows a zero refund total in its hint or concerns only POS pre-licensing holds; with no negative fee the workflow is launched exactly when the hinted total is positive and some payment is not a POS pre-licensing hold |
| RefundGates.OfferedPayModes | RefundDetailScreen.js:258-326 | no editor opens when nothing remains to pay; otherwise the catalog minus POS pre-licensing, and BALANCE only when the editor is opened with type ADD (the add-payment button, RefundDetailScreen.js:2842, and a payment card's modify, 3549-3557) for a customer payment of an eligible fee type while the balance is positive |
| RefundGates.RefundDirection | RefundDetailScreen.js:4245-4247 | a refund is always paid out, to the customer exactly when the payment came from the customer |
| RefundGates.RefundButtonFor | RefundDetailScreen.js:4225-4263 | a button shows exactly for an unrefunded payment on the cashier's page that is not a POS hold; a front-end pay mode refunds directly, any other opens the editor for the unrefunded amount |
| RefundGates.AddRefundOpensEditor | RefundDetailScreen.js:4225-4263 | the add-refund button always opens the editor, for money paid out, without BALANCE or POS pre-licensing |
| RefundGates.CanAddDeduction | RefundDetailScreen.js:3502-3507 | a deduction can be added only on a creation page or while restarting |
| RefundGates.CanAddDeductionWhilePositive | RefundDetailScreen.js:3502-3507 | on those pages, when the line holds the payment's fee minus its deductions, a deduction can be added exactly while the line's fee is positive |
| RefundGates.DeductionFeeTypes | RefundDetailScreen.js:1827-1873 | the deduction fee types offered are exactly the catalog entries allowed for the page and refund kind |
| Table.LexCmp | MyTable.js:32 | `localeCompare` as code-unit order: -1, 0 or 1, and 0 exactly for equal strings |
| Table.LexCmpAntisymmetric | MyTable.js:32 | swapping the strings negates the comparison |
| Table.LexCmpTransitive | MyTable.js:32 | string order is transitive |
| Table.OrderedCompare | MyTable.js:29-37 | descending is ascending negated; two numbers compare by difference |
| Table.CompareAntisymmetric | MyTable.js:29-37 | the comparator is antisymmetric for every pair of cells |
| Table.CompareTransitive | MyTable.js:29-37 | the comparator is transitive on a column of only numbers or only strings |
| Table.MixedColumnHasCycle | MyTable.js:32-35 | on a column mixing numbers and strings it has a cycle: 10 < "2a" < 3 < 10 |
| Table.SortCopy | MyTable.js:26-38 | the sorted copy is a permutation of the data, and each row is in order with the next |
| Table.AdjacentSortedIsSorted | MyTable.js:29-37 | on a homogeneous column, adjacent order means the whole copy is sorted |
| Table.NextSort | MyTable.js:204-224 | a new column sorts ascending; the index and the order are null together |
| Table.ThreeClicksUnsort | MyTable.js:204-224 | three clicks on a column go ascending, descending, then unsorted |
| Table.FirstDefaultSort | MyTable.js:195 | the first column with a default sort, or -1 exactly when none has one |
| Table.SortState.constructor | MyTable.js:9-17 | the table starts unsorted |
| Table.SortState.Sort | MyTable.js:204-224 | a click moves the state one step along the sort cycle |
| Table.SortState.ApplyDefaultSort | MyTable.js:194-202 | on mount the first default-sort column becomes the sort, if there is one |
| Table.SortState.Rows | MyTable.js:25-38 | the rows shown are the data, sorted on a copy when a sort is set and untouched otherwise |
| Table.Plus | MyTable.js:50 | `+` on cells: string concatenation when either is a string, the sum of two numbers otherwise |
| Table.TotalOfNumbers | MyTable.js:50 | a column of numbers and nulls totals to the sum of its numbers |
| Table.TotalStaysText | MyTable.js:50 | one string in the column makes the total a string |
| Table.SumRowOfKeys | MyTable.js:44-53 | the sum row has one entry per distinct column field |
| Table.SumRowOfLastWins | MyTable.js:45-53 | a field shared by several columns holds the value of the last of them |
| Table.BuildSumRow | MyTable.js:40-54 | a sum row exists exactly when some column shows a sum or percent, and it is the sum row of the columns |
| Table.Percent | MyTable.js:148-152 | the share is shown exactly when the total is truthy, and is 0 otherwise |
| Table.PercentNeverDividesByZero | MyTable.js:150 | a share is computed only against a non-zero total |
| Series.Reversed | AshareMtmService.java:58 | each element moves to the mirrored position |
| Series.ReverseInPlace | AshareCciService.java:85 | `Collections.reverse` on the array leaves it holding the reversed list |
| Series.SumBounds | AshareMtmService.java:82-88 | n values between two bounds sum to between n times each bound |
| Series.SumZeroIff | AshareCciService.java:139-142 | a sum of non-negative values is zero exactly when every value is |
| AshareRsi.Max | AshareRsiService.java:185-195 | null exactly when either input is null or zero; otherwise non-negative, and positive exactly when x > y |
| AshareRsi.GainAndLoss | AshareRsiService.java:102-103 | of the day's gain and loss at most one is non-zero, and gain minus loss is the change of the close |
| AshareRsi.Smooth | AshareRsiService.java:104-109 | the smoothed average of non-negative values is non-negative |
| AshareRsi.SmoothZero | AshareRsiService.java:104-109 | smoothing zeros gives zero |
| AshareRsi.Rsi | AshareRsiService.java:110-124 | the RSI is set exactly when the average loss is non-zero, and then lies between 0 and 100 |
| AshareRsi.Step | AshareRsiService.java:74-125 | a day's record keeps the averages non-negative, carries the day's date, and has each RSI exactly when its average loss is non-zero |
| AshareRsi.Seed | AshareRsiService.java:56-72 | the first-run record has zero averages and no RSI |
| AshareRsi.Days | AshareRsiService.java:74-150 | one record per day after the first, each with that day's date and non-negative averages |
| AshareRsi.DaysStep | AshareRsiService.java:84-92 | each day's record is the step from the previous day's record |
| AshareRsi.ExactlyOneBatch | AshareRsiService.java:126-149 | the eight null patterns are exclusive and cover every record |
| AshareRsi.BatchesPartition | AshareRsiService.java:126-149 | the eight batches together hold exactly as many records as were computed |
| AshareRsi.AddToBatch | AshareRsiService.java:126-149 | appending a record extends exactly the batch of its null pattern |
| AshareRsi.RunDays | AshareRsiService.java:74-150 | with no previous record nothing is written; otherwise each batch holds the day records of its pattern |
| AshareRsi.CalcStock | AshareRsiService.java:29-176 | a first run writes the seed; with fewer than two rows nothing else is written; otherwise the batches are those of the day records from the stored or seed record |
| AshareMtm.MovingAverageBounds | AshareMtmService.java:82-88 | the moving average lies between the rounded least and greatest of its six values |
| AshareMtm.InitRecord | AshareMtmService.java:75-88 | a first-run record has the 12-day momentum, and a moving average exactly from row 17 on |
| AshareMtm.IncRecord | AshareMtmService.java:97-112 | a later-run record has the momentum rounded to 3 places, and a moving average exactly when five stored momenta precede it |
| AshareMtm.Records | AshareMtmService.java:75 | one record per row from row 12 on |
| AshareMtm.ModesAgree | AshareMtmService.java:103-111 | a later run writes the record a first run writes when the stored momenta are the five before and the momentum has 3 decimals |
| AshareMtm.BatchesPartition | AshareMtmService.java:90-94 | the two batches hold every record once, split by whether the moving average is set |
| AshareMtm.LaterRunCoversNewRows | AshareMtmService.java:47-62 | a later run with its 12 earlier rows writes one record per new row, in date order |
| AshareMtm.SumWithPrevious | AshareMtmService.java:83-86 | the first-run sum is the momentum plus the five previous momenta |
| AshareMtm.SumWithLookup | AshareMtmService.java:107-110 | the later-run sum is the momentum plus the stored momenta |
| AshareMtm.RowModel | AshareMtmService.java:75-112 | one row's record, built from the records before it, is the row's first-run or later-run record |
| AshareMtm.RunRows | AshareMtmService.java:74-120 | the two batches are the records without and with a moving average |
| AshareMtm.CalcStock | AshareMtmService.java:29-128 | nothing is written without new rows, without 12 earlier rows on a later run, or with under 13 rows; otherwise the batches of the records of the joined rows |
| AshareCci.TypBounds | AshareCciService.java:58-60 | the typical price lies between low and high (rounded), and is the rounded close when both are missing |
| AshareCci.CciNullIffFlat | AshareCciService.java:125-148 | with 13 earlier values the CCI is null exactly when all 14 values equal their rounded mean |
| AshareCci.FlatHasNoCci | AshareCciService.java:144-148 | a flat window has no CCI |
| AshareCci.CciSign | AshareCciService.java:145 | the CCI is non-negative when today's value is at or above the mean of the 14 values, and non-positive when at or below it |
| AshareCci.GetCci | AshareCciService.java:125-150 | the loop computes the CCI of the window's typical prices |
| AshareCci.DayRecord | AshareCciService.java:62-64 | a day's record carries its date and typical price, and a CCI only with 13 values before it |
| AshareCci.FirstRunStartsAtDay13 | AshareCciService.java:62-64 | on a first run the first 13 days have no CCI |
| AshareCci.LaterRunHasFullWindows | AshareCciService.java:99 | on a later run every day's window is the 13 typical prices just before it |
| AshareCci.BatchesPartition | AshareCciService.java:67-71 | the two batches hold every record once, split by whether the CCI is set |
| AshareCci.DayModel | AshareCciService.java:88-99 | one day's record is built from the window before it |
| AshareCci.RunDays | AshareCciService.java:49-108 | the two batches are the day records without and with a CCI |
| AshareCci.CalcStock | AshareCciService.java:29-116 | nothing is written without rows or with fewer than 13 stored records on a later run; otherwise the batches of the day records after the stored window |
| SelectorPb.PbMapLastWins | SelectorPbTop1OfIndustryService.java:64-67 | a stock is in the map exactly when some row has it, with the last row's value |
| SelectorPb.Groups | SelectorPbTop1OfIndustryService.java:70-90 | every industry group is non-empty and holds only stocks with a PB |
| SelectorPb.GroupsSpec | SelectorPbTop1OfIndustryService.java:70-90 | an industry has a group exactly when one of its rows has a PB, and the group holds exactly those stocks |
| SelectorPb.NamesLastWins | SelectorPbTop1OfIndustryService.java:86-88 | a stock's industry name is that of its last class row with a PB |
| SelectorPb.Top | SelectorPbTop1OfIndustryService.java:94-96 | the pick is in the group, has the greatest PB, and is the first with it |
| SelectorPb.Pick | SelectorPbTop1OfIndustryService.java:93-97 | an industry's pick is one of its stocks, with its PB, and no stock of the group has more |
| SelectorPb.PickNamesItsIndustry | SelectorPbTop1OfIndustryService.java:86-88 | when a stock's rows all carry one industry name, the pick carries its own industry's name |
| SelectorPb.SharedModelCarriesLastName | SelectorPbTop1OfIndustryService.java:82-88 | a stock in two industries carries the last industry's name in the picks of both industries |
| SelectorPb.GetSelectorData | SelectorPbTop1OfIndustryService.java:53-100 | as many results as industries with a priced stock, each industry once, each result the pick of its industry |

## Left out

- Rendering, navigation, dialogs, toasts and every HTTP request of the refund screen are left out. Server answers are inputs (`Option` for success or failure), and what the server stores is not modelled.
- RefundEditor.RefundEditor.AddDeduction: on a page that does not edit locally, the screen sends the edit to the server and puts the server's deduction and refund line into its lists (RefundDetailScreen.js:1490-1499). The server is not modelled, so the model does not apply that answer and leaves the lists as they were.
- RefundEditor.RefundEditor.ModifyDeduction: likewise, the server's answer (RefundDetailScreen.js:1538-1547) is not applied on those pages.
- RefundEditor.RefundEditor.DeleteDeduction: likewise, the server's answer (RefundDetailScreen.js:1618-1627) is not applied on those pages.
- `deepCompare` is taken as structural equality of the refund lists.
- `localeCompare` is taken as order on character codes. Locale collation is not modelled.
- Money on the refund screen is integer cents. JavaScript floating point is not modelled.
- Table.Percent: the label's value is `Math.round(cell / sum * 10000) / 100`. The model keeps the cell and total it is computed from, not the rounded float.
- Table.SortCopy: `Array.prototype.sort` does not fix an algorithm. The model sorts the copy by insertion, so the order among equal rows is one stable choice. On a column that mixes numbers and strings the comparator is not a consistent order (`MixedColumnHasCycle`), and the engine's result is then implementation-defined; there "each row is in order with the next" is a property of the model's insertion sort, not a promise of `data.concat().sort(...)` (MyTable.js:26-38).
- The loaded `paidOrderRentConsume` (RefundDetailScreen.js:232-241: the fee total of the kept payments when the refund has no kind) is carried in `Loaded` as the screen sets it, but no property is stated about it; only the order-cancel display reads it.
- The per-role review buttons on each page and the re-keying of the flat list (`flatListKey`) are display-only and left out.
- RefundLedger.UnrefundAfterPayment: the screen matches a payment to a line with `payment.refundDetailId === refundDetail.id` (RefundDetailScreen.js:1782, 3484), which also holds when both are missing. The model's `Pays` never matches a line without an id: counting no payment against an unsaved line is the model's choice.
- RefundEditor.RefundEditor.DeleteDeduction: the screen finds the deduction to remove by `id` (RefundDetailScreen.js:1557-1559), which the first row under Findings shows to be wrong for deductions added in the dialog. The method removes the tapped deduction; `DeleteDeductionAsWritten` models the lookup as written.
- RefundEditor.RefundEditor.ModifyDeduction: the screen finds the deduction to change by `id` (RefundDetailScreen.js:1399-1401), which the second row under Findings shows to be wrong for dialog-added deductions. The method changes the tapped deduction; `ModifyDeductionAsWritten` models the lookup as written.
- RefundEditor.RefundEditor.ModifyPayment: when the payment is not in the list, immutability-helper would add a "-1" key. The model leaves the payments unchanged instead.
- RefundEditor.RefundEditor.ModifyPayment: the clamp of the refund line reads the snapshot object, which the screen shares with the current list. The model copies values, so this aliasing is not captured.
- The stock code `substring(0, 6)` of every indicator record is left out, because records carry only the trade date.
- Database queries and `batchInsert` are inputs and outputs. The `isExecute` guard and job scheduling are left out.
- AshareRsi.Step: the source throws when a close is zero: `max` then returns null, and calling `add` on that null gain or loss (`incToday.add(...)`, AshareRsiService.java:104-109) fails. The model requires non-zero closes, and a stored record with non-negative averages.
- The adjusted close of a price row (`adjClose` of `EodPrice`) is taken as non-null; the model cannot represent a missing close. A null close makes all three indicator jobs throw: the RSI's `max` returns null and `add` is then called on it (AshareRsiService.java:186, 104-109), the momentum dereferences the close (AshareMtmService.java:81, 103), and the typical price guards a null high and low but not the close (AshareCciService.java:58-60, 95-97).
- AshareMtm.CalcStock: on a later run, the five stored momenta before each day come from the database and do not see the records of the same run. They are an input function (`lookup`).
- AshareMtm.InitRecord: a first run stores the momentum unrounded, while a later run rounds it to 3 places. The model keeps both as the source does; ModesAgree states when they agree.
- SelectorPb.Pick: the industry name on a pick is the name of the stock's last class row (the model object is shared between industries). The name is tied to its own industry only when a stock's rows agree (PickNamesItsIndustry).
- The pinyin initial letter of the industry name is left out.
- `listComparator` is not part of this model. It is taken as a stable descending sort by PB, so the pick is the first stock with the greatest PB.
- The order of the selector's result follows `HashMap` iteration. It is left open: any order of the industries is allowed.
- The `industriesModel == null` branch is unreachable: only rows with a PB enter the map.

## Findings

| source | as written | input that shows it | evidently intended | confidence | as-written member | corrected member |
|---|---|---|---|---|---|---|
| RefundDetailScreen.js:1557-1559 | deleting a deduction on a creation page removes the first deduction whose `id` equals the tapped one's; deductions added in the dialog have no `id`, so this is the first dialog-added deduction, while the tapped one's fee goes back to its own line | two dialog-added deductions, 100 from line 1 (fee now 900) and 50 from line 2 (fee now 450); deleting the second removes the first and gives 50 back to line 2, so line 1's gross drops from 1000 to 900 | remove the tapped deduction, so every line keeps its fee plus withheld amount | high, not executed | RefundEditor.DeleteDeductionAsWrittenLosesMoney | RefundEditor.DeleteDeductionKeepsGross |
| RefundDetailScreen.js:1399-1401 | changing a deduction on a creation page overwrites the first deduction whose `id` equals the tapped one's; deductions added in the dialog have no `id`, so this is the first dialog-added deduction, while the tapped one's line takes the fee difference | two dialog-added deductions, 100 from line 1 (fee now 900) and 50 from line 2 (fee now 450); changing the second to 80 overwrites the first with it and sets line 2 to 420, so line 1's gross drops from 1000 to 900 | replace the tapped deduction, so every line keeps its fee plus withheld amount | high, not executed | RefundEditor.ModifyDeductionAsWrittenLosesMoney | RefundEditor.ModifyDeductionKeepsGross |
