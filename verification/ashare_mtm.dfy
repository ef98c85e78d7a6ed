/** Momentum (MTM) of one stock: the change of the adjusted close over 12
    trading days, and its 6-point moving average (MAMTM), split into two
    insert batches by whether the moving average is set. */
module AshareMtm {
  import opened Common
  import opened Series

  /** One stored day. */
  datatype MtmRecord = MtmRecord(tradeDt: string, mtm: real, mamtm: Option<real>)

  /** The 12-day momentum of row i. */
  function Diff(list: seq<EodPrice>, i: int): real
    requires 12 <= i < |list|
  {
    list[i].adjClose - list[i - 12].adjClose
  }

  /** The momenta of rows from .. to-1. */
  function Momenta(list: seq<EodPrice>, from: int, to: int): (r: seq<real>)
    requires 12 <= from <= to <= |list|
    ensures |r| == to - from
    ensures forall k :: 0 <= k < |r| ==> r[k] == Diff(list, from + k)
  {
    seq(to - from, k requires 0 <= k < to - from => Diff(list, from + k))
  }

  /** (current + the five earlier values) / 6, rounded half-up to 3
      places. */
  function MovingAverage(current: real, earlier: seq<real>): real {
    HalfUp((current + Sum(earlier)) / 6.0, 3)
  }

  /** The moving average lies between the rounded smallest and largest of
      the six values it averages. */
  lemma MovingAverageBounds(current: real, earlier: seq<real>, lo: real, hi: real)
    requires |earlier| == 5
    requires lo <= current <= hi
    requires forall k :: 0 <= k < 5 ==> lo <= earlier[k] <= hi
    ensures HalfUp(lo, 3) <= MovingAverage(current, earlier) <= HalfUp(hi, 3)
  {
    SumBounds(earlier, lo, hi);
    var mean := (current + Sum(earlier)) / 6.0;
    assert 6.0 * lo <= current + Sum(earlier) <= 6.0 * hi;
    DivMono(6.0 * lo, current + Sum(earlier), 6.0);
    DivMono(current + Sum(earlier), 6.0 * hi, 6.0);
    HalfUpMonotone(lo, mean, 3);
    HalfUpMonotone(mean, hi, 3);
  }

  /** Row i on a first run: the unrounded momentum, and the moving average
      once five earlier momenta exist (row 17 on). */
  function InitRecord(list: seq<EodPrice>, i: int): (r: MtmRecord)
    requires 12 <= i < |list|
    ensures r.tradeDt == list[i].tradeDt && r.mtm == Diff(list, i)
    ensures r.mamtm.Some? <==> i >= 17
  {
    var mtm := Diff(list, i);
    MtmRecord(list[i].tradeDt, mtm, if i >= 17 then Some(MovingAverage(mtm, Momenta(list, i - 5, i))) else None)
  }

  /** Row i on a later run: the momentum rounded half-up to 3 places, and
      the moving average when the stored records before the day give
      exactly five momenta (`lookup`, newest first). */
  function IncRecord(list: seq<EodPrice>, i: int, lookup: string -> seq<real>): (r: MtmRecord)
    requires 12 <= i < |list|
    ensures r.tradeDt == list[i].tradeDt
    ensures Diff(list, i) - 0.0005 <= r.mtm <= Diff(list, i) + 0.0005
    ensures r.mamtm.Some? <==> |lookup(list[i].tradeDt)| == 5
  {
    var mtm := HalfUp(Diff(list, i), 3);
    var earlier := lookup(list[i].tradeDt);
    MtmRecord(list[i].tradeDt, mtm, if |earlier| == 5 then Some(MovingAverage(mtm, earlier)) else None)
  }

  function Record(list: seq<EodPrice>, i: int, stored: bool, lookup: string -> seq<real>): MtmRecord
    requires 12 <= i < |list|
  {
    if stored then IncRecord(list, i, lookup) else InitRecord(list, i)
  }

  /** The records of rows 12 .. |list|-1. */
  function Records(list: seq<EodPrice>, stored: bool, lookup: string -> seq<real>): (r: seq<MtmRecord>)
    requires |list| >= 12
    ensures |r| == |list| - 12
  {
    seq(|list| - 12, k requires 0 <= k < |list| - 12 => Record(list, k + 12, stored, lookup))
  }

  lemma SumReversed(xs: seq<real>)
    ensures Sum(Reversed(xs)) == Sum(xs)
  {
    if xs != [] {
      SumReversed(xs[1..]);
      SumSnoc(Reversed(xs[1..]), xs[0]);
    }
  }

  /** The two modes agree: when the stored records before a day hold the
      momenta of the five rows before it (newest first) and the momentum
      already has at most 3 decimals, a later run writes the record a first
      run writes. */
  lemma {:induction false} ModesAgree(list: seq<EodPrice>, i: int, lookup: string -> seq<real>)
    requires 17 <= i < |list|
    requires lookup(list[i].tradeDt) == Reversed(Momenta(list, i - 5, i))
    requires HalfUp(Diff(list, i), 3) == Diff(list, i)
    ensures IncRecord(list, i, lookup) == InitRecord(list, i)
  {
    SumReversed(Momenta(list, i - 5, i));
  }

  // ---------------------------------------------------------------------
  // The two insert batches.

  /** The records without a moving average, in order. */
  function WithoutMa(ms: seq<MtmRecord>): seq<MtmRecord> {
    if ms == [] then []
    else WithoutMa(ms[..|ms| - 1]) + (if ms[|ms| - 1].mamtm.None? then [ms[|ms| - 1]] else [])
  }

  /** The records with a moving average, in order. */
  function WithMa(ms: seq<MtmRecord>): seq<MtmRecord> {
    if ms == [] then []
    else WithMa(ms[..|ms| - 1]) + (if ms[|ms| - 1].mamtm.Some? then [ms[|ms| - 1]] else [])
  }

  /** Every record is written exactly once: the two batches hold all of
      them, each in the batch its moving average selects. */
  lemma {:induction false} BatchesPartition(ms: seq<MtmRecord>)
    ensures |WithoutMa(ms)| + |WithMa(ms)| == |ms|
    ensures forall m :: m in WithoutMa(ms) <==> m in ms && m.mamtm.None?
    ensures forall m :: m in WithMa(ms) <==> m in ms && m.mamtm.Some?
  {
    if ms != [] {
      var init := ms[..|ms| - 1];
      BatchesPartition(init);
      assert ms == init + [ms[|ms| - 1]];
    }
  }

  lemma SplitAppend(ms: seq<MtmRecord>, m: MtmRecord)
    ensures WithoutMa(ms + [m]) == WithoutMa(ms) + (if m.mamtm.None? then [m] else [])
    ensures WithMa(ms + [m]) == WithMa(ms) + (if m.mamtm.Some? then [m] else [])
  {
    assert (ms + [m])[..|ms|] == ms;
  }

  // ---------------------------------------------------------------------
  // The run.

  /** What a run writes. */
  datatype MtmRun = MtmRun(noMa: seq<MtmRecord>, hasMa: seq<MtmRecord>)

  /** The rows the momenta are computed over: on a later run the 12 rows
      before the new ones (fetched newest first) followed by the new
      rows. */
  function Joined(after: seq<EodPrice>, stored: bool, before: seq<EodPrice>): seq<EodPrice> {
    if stored then Reversed(before) + after else after
  }

  /** On a later run that finds its 12 earlier rows, every new row gets
      exactly one record, in order. */
  lemma LaterRunCoversNewRows(after: seq<EodPrice>, before: seq<EodPrice>, lookup: string -> seq<real>)
    requires |before| == 12
    ensures var rs := Records(Joined(after, true, before), true, lookup);
      |rs| == |after| && forall k :: 0 <= k < |after| ==> rs[k].tradeDt == after[k].tradeDt
  {
  }

  /** The sum `mtm + the five previous records' mtm` of a first run. */
  method SumWithPrevious(list: seq<EodPrice>, i: int, models: seq<MtmRecord>, mtm: real)
    returns (sum: real)
    requires 17 <= i < |list|
    requires |models| == i - 12
    requires forall k :: 0 <= k < |models| ==> models[k].mtm == Diff(list, k + 12)
    ensures sum == mtm + Sum(Momenta(list, i - 5, i))
  {
    sum := mtm;
    for j := 1 to 6
      invariant sum == mtm + Sum(Momenta(list, i - (j - 1), i))
    {
      assert Momenta(list, i - j, i) == [Diff(list, i - j)] + Momenta(list, i - (j - 1), i);
      sum := sum + models[|models| - j].mtm;
    }
  }

  /** The sum `mtm + the looked-up momenta` of a later run. */
  method SumWithLookup(earlier: seq<real>, mtm: real) returns (sum: real)
    ensures sum == mtm + Sum(earlier)
  {
    sum := mtm;
    for k := 0 to |earlier|
      invariant sum == mtm + Sum(earlier[..k])
    {
      assert earlier[..k + 1] == earlier[..k] + [earlier[k]];
      SumSnoc(earlier[..k], earlier[k]);
      sum := sum + earlier[k];
    }
    assert earlier[..|earlier|] == earlier;
  }

  /** The record of row i, computed from the records of rows 12 .. i-1. */
  method RowModel(list: seq<EodPrice>, i: int, stored: bool, lookup: string -> seq<real>, models: seq<MtmRecord>)
    returns (model: MtmRecord)
    requires 12 <= i < |list| && |models| == i - 12
    requires forall k :: 0 <= k < |models| ==> models[k] == Record(list, k + 12, stored, lookup)
    ensures model == Record(list, i, stored, lookup)
  {
    if !stored {
      var mtm := list[i].adjClose - list[i - 12].adjClose;
      model := MtmRecord(list[i].tradeDt, mtm, None);
      if |models| >= 5 {
        var sum := SumWithPrevious(list, i, models, mtm);
        model := model.(mamtm := Some(HalfUp(sum / 6.0, 3)));
      }
    } else {
      var mtm := HalfUp(list[i].adjClose - list[i - 12].adjClose, 3);
      model := MtmRecord(list[i].tradeDt, mtm, None);
      var earlier := lookup(list[i].tradeDt);
      if |earlier| == 5 {
        var sum := SumWithLookup(earlier, mtm);
        model := model.(mamtm := Some(HalfUp(sum / 6.0, 3)));
      }
    }
  }

  /** The records of rows 12 .. 12+|models|-1 so far. */
  ghost predicate RecordsSoFar(list: seq<EodPrice>, stored: bool, lookup: string -> seq<real>, models: seq<MtmRecord>)
  {
    12 + |models| <= |list| && forall k :: 0 <= k < |models| ==> models[k] == Record(list, k + 12, stored, lookup)
  }

  /** Appending the next row's record keeps the records so far. */
  lemma RecordsGrow(list: seq<EodPrice>, stored: bool, lookup: string -> seq<real>, models: seq<MtmRecord>, model: MtmRecord)
    requires RecordsSoFar(list, stored, lookup, models) && 12 + |models| < |list|
    requires model == Record(list, 12 + |models|, stored, lookup)
    ensures RecordsSoFar(list, stored, lookup, models + [model])
  {
    var ms := models + [model];
    forall k | 0 <= k < |ms|
      ensures ms[k] == Record(list, k + 12, stored, lookup)
    {
      if k < |models| {
        assert ms[k] == models[k];
      }
    }
  }

  /** Records for every row from 12 are the records. */
  lemma RecordsDone(list: seq<EodPrice>, stored: bool, lookup: string -> seq<real>, models: seq<MtmRecord>)
    requires RecordsSoFar(list, stored, lookup, models) && 12 + |models| == |list|
    ensures models == Records(list, stored, lookup)
  {
  }

  /** The day loop over the joined rows, from row 12. */
  method RunRows(list: seq<EodPrice>, stored: bool, lookup: string -> seq<real>) returns (run: MtmRun)
    requires |list| >= 13
    ensures run.noMa == WithoutMa(Records(list, stored, lookup))
    ensures run.hasMa == WithMa(Records(list, stored, lookup))
  {
    var models: seq<MtmRecord> := [];
    var noMa: seq<MtmRecord> := [];
    var hasMa: seq<MtmRecord> := [];
    for i := 12 to |list|
      invariant |models| == i - 12
      invariant RecordsSoFar(list, stored, lookup, models)
      invariant noMa == WithoutMa(models) && hasMa == WithMa(models)
    {
      var model := RowModel(list, i, stored, lookup, models);
      RecordsGrow(list, stored, lookup, models, model);
      SplitAppend(models, model);
      models := models + [model];
      if model.mamtm.None? {
        noMa := noMa + [model];
      } else {
        hasMa := hasMa + [model];
      }
    }
    RecordsDone(list, stored, lookup, models);
    run := MtmRun(noMa, hasMa);
  }

  /** `calcStock` for one stock. `after` are the trading days after the
      last stored record (all of them on a first run), in date order;
      `stored` tells whether the stock has a stored record; `before` are
      up to 12 trading days before the first new one, newest first;
      `lookup` gives, for a trade date, the stored momenta before it,
      newest first, at most five. */
  method CalcStock(after: seq<EodPrice>, stored: bool, before: seq<EodPrice>, lookup: string -> seq<real>)
    returns (run: MtmRun)
    requires |before| <= 12
    ensures after == [] || (stored && |before| < 12) || |Joined(after, stored, before)| < 13 ==>
      run == MtmRun([], [])
    ensures after != [] && (!stored || |before| == 12) && |Joined(after, stored, before)| >= 13 ==>
      run.noMa == WithoutMa(Records(Joined(after, stored, before), stored, lookup)) &&
      run.hasMa == WithMa(Records(Joined(after, stored, before), stored, lookup))
  {
    if after == [] {
      return MtmRun([], []);
    }
    var list: seq<EodPrice>;
    if stored {
      if |before| < 12 {
        return MtmRun([], []);
      }
      var rows := new EodPrice[|before|](k requires 0 <= k < |before| => before[k]);
      assert rows[..] == before;
      ReverseInPlace(rows);
      list := rows[..] + after;
    } else {
      list := after;
    }
    assert list == Joined(after, stored, before);
    if |list| < 13 {
      return MtmRun([], []);
    }
    run := RunRows(list, stored, lookup);
  }
}
