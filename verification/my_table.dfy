/** The table component: a three-state sort per column, the comparator it
    sorts a copy of the rows with, the sum row, the percent guard and the
    default sort. Cells are the JavaScript values a row can hold; numbers
    are whole numbers here. */
module Table {
  import opened Common

  /** A cell value: a number, NaN, a string, null or undefined. */
  datatype Cell = Num(n: int) | NaN | Text(s: string) | Null | Undefined

  /** A row maps field names to cells; a missing field reads as undefined. */
  type Row = map<string, Cell>

  function Get(row: Row, field: string): Cell {
    if field in row then row[field] else Undefined
  }

  /** `asc`, `desc`, or any other truthy `defaultSort` value of a column,
      which the comparator treats like `desc` (it only tests for `asc`). */
  datatype Order = Asc | Desc | OtherOrder

  datatype Column = Column(
    field: string,
    showingSum: bool,
    showingPercent: bool,
    showingSumTitle: bool,
    defaultSort: Option<Order>)   // None for a falsy `defaultSort`

  // ---------------------------------------------------------------------
  // String conversion and string order.

  function DigitChar(d: nat): char
    requires d < 10
  {
    "0123456789"[d]
  }

  function NatToString(n: nat): (r: string)
    ensures |r| >= 1
    decreases n
  {
    if n < 10 then [DigitChar(n)] else NatToString(n / 10) + [DigitChar(n % 10)]
  }

  /** The template string `${v}` of a cell. */
  function Show(c: Cell): string {
    match c
    case Num(n) => if n < 0 then "-" + NatToString(-n) else NatToString(n)
    case NaN => "NaN"
    case Text(s) => s
    case Null => "null"
    case Undefined => "undefined"
  }

  /** `localeCompare`, modelled as the lexicographic order of character
      codes: negative, zero or positive. */
  function LexCmp(a: string, b: string): (r: int)
    ensures -1 <= r <= 1
    ensures r == 0 <==> a == b
  {
    if a == [] && b == [] then 0
    else if a == [] then -1
    else if b == [] then 1
    else if a[0] < b[0] then -1
    else if a[0] > b[0] then 1
    else
      var r := LexCmp(a[1..], b[1..]);
      assert a == [a[0]] + a[1..] && b == [b[0]] + b[1..];
      r
  }

  lemma {:induction false} LexCmpAntisymmetric(a: string, b: string)
    ensures LexCmp(a, b) == -LexCmp(b, a)
  {
    if a != [] && b != [] && a[0] == b[0] {
      LexCmpAntisymmetric(a[1..], b[1..]);
    }
  }

  lemma {:induction false} LexCmpTransitive(a: string, b: string, c: string)
    requires LexCmp(a, b) <= 0 && LexCmp(b, c) <= 0
    ensures LexCmp(a, c) <= 0
  {
    if a != [] && b != [] && c != [] && a[0] == b[0] && b[0] == c[0] {
      LexCmpTransitive(a[1..], b[1..], c[1..]);
    }
  }

  // ---------------------------------------------------------------------
  // The comparator.

  predicate IsNumber(c: Cell) { c.Num? || c.NaN? }

  /** The comparator of `render` before the order is applied: `v1 - v2`
      when both values are numbers (a NaN result counts as 0, as
      `Array.prototype.sort` reads it), otherwise `${v1}` against `${v2}`. */
  function Compare(v1: Cell, v2: Cell): int {
    if IsNumber(v1) && IsNumber(v2) then
      (if v1.NaN? || v2.NaN? then 0 else v1.n - v2.n)
    else LexCmp(Show(v1), Show(v2))
  }

  /** The comparator with the order applied: `desc` (and any order other
      than `asc`) negates the ascending result. */
  function OrderedCompare(order: Order, v1: Cell, v2: Cell): (r: int)
    ensures order == Asc ==> r == Compare(v1, v2)
    ensures order != Asc ==> r == -Compare(v1, v2)
    ensures IsNumber(v1) && IsNumber(v2) && v1.Num? && v2.Num? ==>
      (order == Asc ==> r == v1.n - v2.n) && (order != Asc ==> r == v2.n - v1.n)
  {
    var result := Compare(v1, v2);
    if order == Asc then result else -result
  }

  /** The comparator is antisymmetric: swapping the two values negates the
      result, in both orders. */
  lemma CompareAntisymmetric(order: Order, v1: Cell, v2: Cell)
    ensures OrderedCompare(order, v1, v2) == -OrderedCompare(order, v2, v1)
  {
    if !(IsNumber(v1) && IsNumber(v2)) {
      LexCmpAntisymmetric(Show(v1), Show(v2));
    }
  }

  /** On a column of numbers only, or of strings only, the comparator is
      transitive. */
  lemma CompareTransitive(order: Order, a: Cell, b: Cell, c: Cell)
    requires (a.Num? && b.Num? && c.Num?) || (a.Text? && b.Text? && c.Text?)
    requires OrderedCompare(order, a, b) <= 0 && OrderedCompare(order, b, c) <= 0
    ensures OrderedCompare(order, a, c) <= 0
  {
    if a.Text? {
      if order == Asc {
        LexCmpTransitive(a.s, b.s, c.s);
      } else {
        LexCmpAntisymmetric(a.s, b.s);
        LexCmpAntisymmetric(b.s, c.s);
        LexCmpAntisymmetric(a.s, c.s);
        LexCmpTransitive(c.s, b.s, a.s);
      }
    }
  }

  /** On a column mixing numbers and strings it is not: 10 sorts before
      "2a" (as strings), "2a" before 3 (as strings), and 3 before 10 (as
      numbers). */
  lemma MixedColumnHasCycle()
    ensures OrderedCompare(Asc, Num(10), Text("2a")) < 0
    ensures OrderedCompare(Asc, Text("2a"), Num(3)) < 0
    ensures OrderedCompare(Asc, Num(3), Num(10)) < 0
  {
    assert Show(Num(10)) == "10" by {
      assert NatToString(10) == NatToString(1) + [DigitChar(0)];
    }
    assert Show(Num(3)) == "3";
  }

  // ---------------------------------------------------------------------
  // Sorting a copy of the rows.

  function RowCompare(order: Order, field: string, r1: Row, r2: Row): int {
    OrderedCompare(order, Get(r1, field), Get(r2, field))
  }

  /** Each row compares at most 0 against the next one. */
  predicate AdjacentSorted(rows: seq<Row>, field: string, order: Order) {
    forall k :: 0 <= k < |rows| - 1 ==> RowCompare(order, field, rows[k], rows[k + 1]) <= 0
  }

  /** Every row compares at most 0 against every later one. */
  predicate Sorted(rows: seq<Row>, field: string, order: Order) {
    forall i, j :: 0 <= i < j < |rows| ==> RowCompare(order, field, rows[i], rows[j]) <= 0
  }

  /** A comparator that negates when its arguments are swapped. */
  ghost predicate Antisymmetric(cmp: (Row, Row) -> int) {
    forall x, y :: cmp(x, y) == -cmp(y, x)
  }

  predicate InRangeSorted(a: array<Row>, lo: int, hi: int, cmp: (Row, Row) -> int)
    requires 0 <= lo && hi <= a.Length
    reads a
  {
    forall k :: lo <= k < hi - 1 ==> cmp(a[k], a[k + 1]) <= 0
  }

  /** Swaps the rows at j - 1 and j. */
  method Swap(a: array<Row>, j: int)
    requires 0 < j < a.Length
    modifies a
    ensures a[j - 1] == old(a[j]) && a[j] == old(a[j - 1])
    ensures forall k :: 0 <= k < a.Length && k != j - 1 && k != j ==> a[k] == old(a[k])
    ensures multiset(a[..]) == multiset(old(a[..]))
  {
    a[j - 1], a[j] := a[j], a[j - 1];
  }

  /** Moves the row at i left past every earlier row that compares above
      it, extending the sorted prefix by one. */
  method Insert(a: array<Row>, i: int, cmp: (Row, Row) -> int)
    requires 0 <= i < a.Length
    requires Antisymmetric(cmp)
    requires InRangeSorted(a, 0, i, cmp)
    modifies a
    ensures InRangeSorted(a, 0, i + 1, cmp)
    ensures multiset(a[..]) == multiset(old(a[..]))
  {
    var j := i;
    while j > 0 && cmp(a[j - 1], a[j]) > 0
      invariant 0 <= j <= i
      invariant multiset(a[..]) == multiset(old(a[..]))
      invariant InRangeSorted(a, 0, j, cmp)
      invariant InRangeSorted(a, j + 1, i + 1, cmp)
      invariant j < i ==> cmp(a[j], a[j + 1]) <= 0
      invariant 0 < j < i ==> cmp(a[j - 1], a[j + 1]) <= 0
    {
      Swap(a, j);
      j := j - 1;
    }
  }

  /** `data.concat().sort(comparator)`: the rows are copied into a fresh
      array and sorted there (here by insertion, since the engine's
      algorithm is not fixed); the caller's rows are left alone. The result
      is a permutation in which each row compares at most 0 against the
      next. */
  method SortCopy(data: seq<Row>, field: string, order: Order) returns (sorted: seq<Row>)
    ensures multiset(sorted) == multiset(data)
    ensures AdjacentSorted(sorted, field, order)
  {
    var cmp := (r1: Row, r2: Row) => RowCompare(order, field, r1, r2);
    forall x: Row, y: Row ensures cmp(x, y) == -cmp(y, x) {
      CompareAntisymmetric(order, Get(x, field), Get(y, field));
    }
    var a := new Row[|data|](i requires 0 <= i < |data| => data[i]);
    assert a[..] == data;
    for i := 0 to a.Length
      invariant multiset(a[..]) == multiset(data)
      invariant InRangeSorted(a, 0, i, cmp)
    {
      Insert(a, i, cmp);
    }
    sorted := a[..];
  }

  /** On a column of numbers only or of strings only, adjacent order is
      order: every row compares at most 0 against every later one. */
  lemma {:induction false} AdjacentSortedIsSorted(rows: seq<Row>, field: string, order: Order)
    requires AdjacentSorted(rows, field, order)
    requires (forall k :: 0 <= k < |rows| ==> Get(rows[k], field).Num?) ||
             (forall k :: 0 <= k < |rows| ==> Get(rows[k], field).Text?)
    ensures Sorted(rows, field, order)
  {
    forall i, j | 0 <= i < j < |rows|
      ensures RowCompare(order, field, rows[i], rows[j]) <= 0
    {
      var m := i + 1;
      while m < j
        invariant i < m <= j
        invariant RowCompare(order, field, rows[i], rows[m]) <= 0
      {
        CompareTransitive(order, Get(rows[i], field), Get(rows[m], field), Get(rows[m + 1], field));
        m := m + 1;
      }
    }
  }

  // ---------------------------------------------------------------------
  // The sort state.

  /** One click on the header of column `index`: a column other than the
      current one starts ascending; the current one goes from ascending to
      descending, and from descending back to unsorted. */
  function NextSort(sortIndex: Option<nat>, sortOrder: Option<Order>, index: nat): (r: (Option<nat>, Option<Order>))
    ensures r.0.Some? ==> r.0 == Some(index)
    ensures r.0.None? <==> r.1.None?
    ensures sortIndex != Some(index) ==> r == (Some(index), Some(Asc))
  {
    if sortIndex == Some(index) then
      match sortOrder
      case Some(Asc) => (Some(index), Some(Desc))
      case Some(Desc) => (None, None)
      case _ => (Some(index), Some(Asc))
    else (Some(index), Some(Asc))
  }

  /** Three clicks on a column that is not the current sort column sort it
      ascending, then descending, then leave the table unsorted. */
  lemma ThreeClicksUnsort(sortIndex: Option<nat>, sortOrder: Option<Order>, index: nat)
    requires sortIndex != Some(index)
    ensures var s1 := NextSort(sortIndex, sortOrder, index);
            var s2 := NextSort(s1.0, s1.1, index);
            var s3 := NextSort(s2.0, s2.1, index);
            s1 == (Some(index), Some(Asc)) && s2 == (Some(index), Some(Desc)) && s3 == (None, None)
  {
  }

  /** `columns.findIndex(col => !!col.defaultSort)`. */
  function FirstDefaultSort(columns: seq<Column>): (r: int)
    ensures -1 <= r < |columns|
    ensures r == -1 <==> forall k :: 0 <= k < |columns| ==> columns[k].defaultSort.None?
    ensures 0 <= r ==> columns[r].defaultSort.Some? && forall k :: 0 <= k < r ==> columns[k].defaultSort.None?
  {
    FindIndex(columns, (c: Column) => c.defaultSort.Some?)
  }

  class SortState {
    var sortIndex: Option<nat>
    var sortOrder: Option<Order>

    /** The index and the order are set and cleared together. */
    predicate Valid()
      reads this
    {
      sortIndex.None? <==> sortOrder.None?
    }

    constructor()
      ensures sortIndex.None? && sortOrder.None? && Valid()
    {
      sortIndex := None;
      sortOrder := None;
    }

    /** `sort(index)`. */
    method Sort(index: nat)
      modifies this
      ensures (sortIndex, sortOrder) == NextSort(old(sortIndex), old(sortOrder), index)
      ensures Valid()
    {
      var next := NextSort(sortIndex, sortOrder, index);
      sortIndex, sortOrder := next.0, next.1;
    }

    /** `componentDidMount`: the first column with a default sort, if any,
        becomes the sort column with its own order. */
    method ApplyDefaultSort(columns: seq<Column>)
      requires Valid()
      modifies this
      ensures var k := FirstDefaultSort(columns);
              if k == -1 then sortIndex == old(sortIndex) && sortOrder == old(sortOrder)
              else sortIndex == Some(k) && sortOrder == columns[k].defaultSort
      ensures Valid()
    {
      var k := FirstDefaultSort(columns);
      if k >= 0 {
        sortIndex, sortOrder := Some(k), columns[k].defaultSort;
      }
    }

    /** The rows `render` shows: sorted by the sort column when both the
        index and the order are set, as given otherwise. */
    method Rows(columns: seq<Column>, data: seq<Row>) returns (rows: seq<Row>)
      requires sortIndex.Some? ==> sortIndex.value < |columns|
      ensures multiset(rows) == multiset(data)
      ensures sortIndex.Some? && sortOrder.Some? ==>
        AdjacentSorted(rows, columns[sortIndex.value].field, sortOrder.value)
      ensures sortIndex.None? || sortOrder.None? ==> rows == data
    {
      rows := data;
      if sortIndex.Some? && sortOrder.Some? {
        rows := SortCopy(data, columns[sortIndex.value].field, sortOrder.value);
      }
    }
  }

  // ---------------------------------------------------------------------
  // The sum row.

  /** JavaScript `+` on two cells: string concatenation when either side
      is a string, otherwise numeric addition in which null counts as 0 and
      undefined or NaN give NaN. */
  function Plus(a: Cell, b: Cell): (r: Cell)
    ensures a.Text? || b.Text? ==> r == Text(Show(a) + Show(b))
    ensures a.Num? && b.Num? ==> r == Num(a.n + b.n)
  {
    if a.Text? || b.Text? then Text(Show(a) + Show(b))
    else
      match (ToNumber(a), ToNumber(b))
      case (Some(x), Some(y)) => Num(x + y)
      case _ => NaN
  }

  /** The number a non-string cell converts to; none for NaN and undefined. */
  function ToNumber(c: Cell): Option<int> {
    match c
    case Num(n) => Some(n)
    case Null => Some(0)
    case _ => None
  }

  /** `data.reduce((acc, row) => acc + row[field], 0)`. */
  function Total(data: seq<Row>, field: string): Cell {
    if data == [] then Num(0)
    else Plus(Total(data[..|data| - 1], field), Get(data[|data| - 1], field))
  }

  /** The sum of a column's numbers, null counting as 0. */
  function NumSum(data: seq<Row>, field: string): int {
    if data == [] then 0
    else
      var v := Get(data[|data| - 1], field);
      NumSum(data[..|data| - 1], field) + (if v.Num? then v.n else 0)
  }

  /** A column of numbers (and nulls) totals to the arithmetic sum. */
  lemma {:induction false} TotalOfNumbers(data: seq<Row>, field: string)
    requires forall k :: 0 <= k < |data| ==> Get(data[k], field).Num? || Get(data[k], field).Null?
    ensures Total(data, field) == Num(NumSum(data, field))
  {
    if data != [] {
      var init := data[..|data| - 1];
      var v := Get(data[|data| - 1], field);
      var x := NumSum(init, field);
      PlusNumber(x, v);
      var y := x + (if v.Num? then v.n else 0);
      assert Plus(Num(x), v) == Num(y);
      assert NumSum(data, field) == y;
      assert Total(data, field) == Plus(Total(init, field), v);
      assert forall k :: 0 <= k < |init| ==> init[k] == data[k];
      TotalOfNumbers(init, field);
      assert Total(data, field) == Num(y);
    }
  }

  lemma PlusNumber(x: int, v: Cell)
    requires v.Num? || v.Null?
    ensures Plus(Num(x), v) == Num(x + if v.Num? then v.n else 0)
  {
  }

  /** Once a string has entered the total, the total stays a string. */
  lemma {:induction false} TotalStaysText(data: seq<Row>, field: string, k: int)
    requires 0 <= k < |data| && Get(data[k], field).Text?
    ensures Total(data, field).Text?
  {
    if k < |data| - 1 {
      TotalStaysText(data[..|data| - 1], field, k);
    }
  }

  /** The title shown in the sum row, "合计" (total). */
  const SumTitle: string := "合计"

  /** The value a column contributes to the sum row. */
  function ColumnTotal(col: Column, data: seq<Row>): Cell {
    if col.showingSumTitle then Text(SumTitle)
    else if col.showingSum || col.showingPercent then Total(data, col.field)
    else Null
  }

  predicate ShowsTotal(col: Column) { col.showingSum || col.showingPercent }

  /** No later column writes the same field. */
  predicate LastWithField(columns: seq<Column>, i: int, upTo: int)
    requires 0 <= i < upTo <= |columns|
  {
    forall m :: i < m < upTo ==> columns[m].field != columns[i].field
  }

  /** The sum row the `forEach` writes after the first n columns: each
      column's value under its field, later columns overwriting. */
  function SumRowOf(columns: seq<Column>, data: seq<Row>): map<string, Cell> {
    if columns == [] then map[]
    else
      var last := columns[|columns| - 1];
      SumRowOf(columns[..|columns| - 1], data)[last.field := ColumnTotal(last, data)]
  }

  /** The sum row has one entry per field of the columns. */
  lemma {:induction false} SumRowOfKeys(columns: seq<Column>, data: seq<Row>)
    ensures SumRowOf(columns, data).Keys == set i | 0 <= i < |columns| :: columns[i].field
  {
    if columns != [] {
      var init := columns[..|columns| - 1];
      SumRowOfKeys(init, data);
      var fields := set i | 0 <= i < |columns| :: columns[i].field;
      var initFields := set i | 0 <= i < |init| :: init[i].field;
      assert fields == initFields + {columns[|columns| - 1].field} by {
        forall f | f in fields ensures f in initFields + {columns[|columns| - 1].field} {
          var i :| 0 <= i < |columns| && columns[i].field == f;
          if i < |init| {
            assert init[i].field == f;
          }
        }
        forall f | f in initFields ensures f in fields {
          var i :| 0 <= i < |init| && init[i].field == f;
          assert columns[i].field == f;
        }
      }
    }
  }

  /** A field of the sum row holds the value of the last column that
      writes it. */
  lemma {:induction false} SumRowOfLastWins(columns: seq<Column>, data: seq<Row>, i: int)
    requires 0 <= i < |columns| && LastWithField(columns, i, |columns|)
    ensures columns[i].field in SumRowOf(columns, data)
    ensures SumRowOf(columns, data)[columns[i].field] == ColumnTotal(columns[i], data)
  {
    var init := columns[..|columns| - 1];
    if i < |init| {
      assert init[i] == columns[i];
      assert LastWithField(init, i, |init|) by {
        forall m | i < m < |init| ensures init[m].field != init[i].field {
          assert init[m] == columns[m];
        }
      }
      SumRowOfLastWins(init, data, i);
    }
  }

  /** The sum-row block of `render`: a sum row exists exactly when some
      column shows a sum or a percentage; the `forEach` then writes every
      column's value under its field. */
  method BuildSumRow(columns: seq<Column>, data: seq<Row>) returns (sumRow: Option<map<string, Cell>>)
    ensures sumRow.Some? <==> exists i :: 0 <= i < |columns| && ShowsTotal(columns[i])
    ensures sumRow.Some? ==> sumRow.value == SumRowOf(columns, data)
  {
    var totalling := Filter(columns, ShowsTotal);
    if |totalling| == 0 {
      forall i | 0 <= i < |columns| ensures !ShowsTotal(columns[i]) {
        assert columns[i] in columns;
      }
      return None;
    }
    assert totalling[0] in totalling;
    var row: map<string, Cell> := map[];
    for i := 0 to |columns|
      invariant row == SumRowOf(columns[..i], data)
    {
      assert columns[..i + 1][..i] == columns[..i];
      var col := columns[i];
      var value := Null;
      if col.showingSumTitle {
        value := Text(SumTitle);
      } else if col.showingSum || col.showingPercent {
        value := Total(data, col.field);
      }
      row := row[col.field := value];
    }
    assert columns[..|columns|] == columns;
    sumRow := Some(row);
  }

  // ---------------------------------------------------------------------
  // The percent guard.

  /** JavaScript truthiness of a cell. */
  predicate Truthy(c: Cell) {
    match c
    case Num(n) => n != 0
    case Text(s) => s != ""
    case _ => false
  }

  /** What a percent cell shows next to its value: 0 when the column total
      is falsy, otherwise the share of the cell in the total. */
  datatype PercentLabel = ZeroPercent | Share(cell: Cell, total: Cell)

  function Percent(cell: Cell, total: Cell): (r: PercentLabel)
    ensures r.Share? <==> Truthy(total)
    ensures r.Share? ==> r == Share(cell, total)
  {
    if !Truthy(total) then ZeroPercent else Share(cell, total)
  }

  /** The guard keeps the division away from zero: a share is only taken
      of a total that is not 0, NaN, null, undefined or the empty string. */
  lemma PercentNeverDividesByZero(cell: Cell, total: Cell)
    ensures Percent(cell, total).Share? ==>
      total != Num(0) && !total.NaN? && !total.Null? && !total.Undefined? && total != Text("")
  {
  }
}
