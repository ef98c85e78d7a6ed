/** The commodity channel index (CCI) of one stock: the typical price of
    each day, and the CCI of a day from its typical price and the 13 typical
    prices before it, split into two insert batches by whether the CCI is
    set. */
module AshareCci {
  import opened Common
  import opened Series

  /** One stored day. */
  datatype CciRecord = CciRecord(tradeDt: string, typ: real, cci: Option<real>)

  /** The exact value of the double nearest 0.015, which is what
      `new BigDecimal(0.015)` holds. */
  const Point015: real := 1080863910568919.0 / 72057594037927936.0

  function Abs(x: real): (r: real)
    ensures r >= 0.0 && (r == 0.0 <==> x == 0.0)
  {
    if x < 0.0 then -x else x
  }

  /** The typical price: (high + low + close) / 3 rounded half-up to 4
      places, a missing high or low replaced by the close. */
  function Typ(p: EodPrice): real {
    var high := if p.adjHigh.None? then p.adjClose else p.adjHigh.value;
    var low := if p.adjLow.None? then p.adjClose else p.adjLow.value;
    HalfUp((high + low + p.adjClose) / 3.0, 4)
  }

  /** The typical price lies between the rounded low and high when the
      close does; with neither high nor low it is the rounded close. */
  lemma TypBounds(p: EodPrice)
    ensures p.adjHigh.Some? && p.adjLow.Some? && p.adjLow.value <= p.adjClose <= p.adjHigh.value ==>
      HalfUp(p.adjLow.value, 4) <= Typ(p) <= HalfUp(p.adjHigh.value, 4)
    ensures p.adjHigh.None? && p.adjLow.None? ==> Typ(p) == HalfUp(p.adjClose, 4)
  {
    if p.adjHigh.Some? && p.adjLow.Some? && p.adjLow.value <= p.adjClose <= p.adjHigh.value {
      var lo, hi := p.adjLow.value, p.adjHigh.value;
      var t := (hi + lo + p.adjClose) / 3.0;
      DivMono(3.0 * lo, hi + lo + p.adjClose, 3.0);
      DivMono(hi + lo + p.adjClose, 3.0 * hi, 3.0);
      HalfUpMonotone(lo, t, 4);
      HalfUpMonotone(t, hi, 4);
    }
  }

  /** The sum of the 13 earlier typical prices and today's. */
  function SumTyp(window: seq<real>, today: real): real {
    Sum(window) + today
  }

  /** Their mean, rounded half-up to 4 places. */
  function MeanTyp(window: seq<real>, today: real): real {
    HalfUp(SumTyp(window, today) / 14.0, 4)
  }

  function Deviations(xs: seq<real>, mean: real): (r: seq<real>)
    ensures |r| == |xs|
    ensures forall k :: 0 <= k < |xs| ==> r[k] == Abs(xs[k] - mean)
  {
    seq(|xs|, k requires 0 <= k < |xs| => Abs(xs[k] - mean))
  }

  /** The sum of the absolute deviations of the 14 values from the mean. */
  function Deviation(window: seq<real>, today: real): real {
    var mean := MeanTyp(window, today);
    Sum(Deviations(window, mean)) + Abs(today - mean)
  }

  /** `getCci`: null unless the window holds exactly 13 values; otherwise
      (14 * today - sum) / (0.015 * deviation) rounded half-up to 2 places,
      null when the deviation is zero (the division throws and the
      exception is swallowed). */
  function CciOf(window: seq<real>, today: real): Option<real> {
    if |window| != 13 then None
    else
      var dev := Deviation(window, today);
      if Point015 * dev == 0.0 then None
      else Some(HalfUp((today * 14.0 - SumTyp(window, today)) / (Point015 * dev), 2))
  }

  /** With 13 earlier values, the CCI is null exactly when all 14 values
      equal their rounded mean. */
  lemma {:induction false} CciNullIffFlat(window: seq<real>, today: real)
    requires |window| == 13
    ensures CciOf(window, today).None? <==>
      (forall k :: 0 <= k < 13 ==> window[k] == MeanTyp(window, today)) && today == MeanTyp(window, today)
  {
    var mean := MeanTyp(window, today);
    var ds := Deviations(window, mean);
    SumZeroIff(ds);
  }

  /** A flat series has no CCI: 14 equal typical prices (which already have
      at most 4 decimals, as typical prices do) give a null CCI. */
  lemma FlatHasNoCci(window: seq<real>, today: real)
    requires |window| == 13
    requires HalfUp(today, 4) == today
    requires forall k :: 0 <= k < 13 ==> window[k] == today
    ensures CciOf(window, today).None?
  {
    SumBounds(window, today, today);
    assert SumTyp(window, today) / 14.0 == today;
    CciNullIffFlat(window, today);
  }

  /** The CCI has the sign of today's distance from the mean of the 14
      values. */
  lemma CciSign(window: seq<real>, today: real)
    requires CciOf(window, today).Some?
    ensures today * 14.0 >= SumTyp(window, today) ==> CciOf(window, today).value >= 0.0
    ensures today * 14.0 <= SumTyp(window, today) ==> CciOf(window, today).value <= 0.0
  {
    var dev := Deviation(window, today);
    var mean := MeanTyp(window, today);
    SumZeroIff(Deviations(window, mean));
    var d := Point015 * dev;
    assert d > 0.0;
    var num := today * 14.0 - SumTyp(window, today);
    if num >= 0.0 {
      DivMono(0.0, num, d);
    }
    if num <= 0.0 {
      DivMono(num, 0.0, d);
    }
  }

  /** `getCci` with its two accumulating loops. */
  method GetCci(window: seq<CciRecord>, today: real) returns (cci: Option<real>)
    ensures cci == CciOf(Typs(window), today)
  {
    if |window| != 13 {
      return None;
    }
    var typs := Typs(window);
    var sumTyp := 0.0;
    for k := 0 to 13
      invariant sumTyp == Sum(typs[..k])
    {
      assert typs[..k + 1] == typs[..k] + [typs[k]];
      SumSnoc(typs[..k], typs[k]);
      sumTyp := sumTyp + window[k].typ;
    }
    assert typs[..13] == typs;
    sumTyp := sumTyp + today;
    var avgTyp := HalfUp(sumTyp / 14.0, 4);
    var devs := Deviations(typs, avgTyp);
    var sumAvgTyp := 0.0;
    for k := 0 to 13
      invariant sumAvgTyp == Sum(devs[..k])
    {
      assert devs[..k + 1] == devs[..k] + [devs[k]];
      SumSnoc(devs[..k], devs[k]);
      sumAvgTyp := sumAvgTyp + Abs(window[k].typ - avgTyp);
    }
    assert devs[..13] == devs;
    sumAvgTyp := sumAvgTyp + Abs(today - avgTyp);
    var divisor := Point015 * sumAvgTyp;
    if divisor == 0.0 {
      return None;
    }
    cci := Some(HalfUp((today * 14.0 - sumTyp) / divisor, 2));
  }

  function Typs(rs: seq<CciRecord>): (r: seq<real>)
    ensures |r| == |rs|
    ensures forall k :: 0 <= k < |rs| ==> r[k] == rs[k].typ
  {
    seq(|rs|, k requires 0 <= k < |rs| => rs[k].typ)
  }

  // ---------------------------------------------------------------------
  // The records of a run.

  /** The typical prices the windows slide over: the stored ones before the
      first new day (none on a first run), then the new days'. */
  function AllTyps(prefix: seq<real>, prices: seq<EodPrice>): (r: seq<real>)
    ensures |r| == |prefix| + |prices|
    ensures forall k :: 0 <= k < |prices| ==> r[|prefix| + k] == Typ(prices[k])
  {
    prefix + seq(|prices|, k requires 0 <= k < |prices| => Typ(prices[k]))
  }

  /** The record of new day j: its CCI is taken over the 13 typical prices
      before it, when there are 13. */
  function DayRecord(prefix: seq<real>, prices: seq<EodPrice>, j: int): (r: CciRecord)
    requires 0 <= j < |prices|
    ensures r.tradeDt == prices[j].tradeDt && r.typ == Typ(prices[j])
    ensures r.cci.Some? ==> |prefix| + j >= 13
  {
    var ts := AllTyps(prefix, prices);
    var at := |prefix| + j;
    CciRecord(prices[j].tradeDt, Typ(prices[j]), if at >= 13 then CciOf(ts[at - 13..at], Typ(prices[j])) else None)
  }

  function DayRecords(prefix: seq<real>, prices: seq<EodPrice>): (r: seq<CciRecord>)
    ensures |r| == |prices|
  {
    seq(|prices|, j requires 0 <= j < |prices| => DayRecord(prefix, prices, j))
  }

  /** On a first run the first 13 days have no CCI. */
  lemma FirstRunStartsAtDay13(prices: seq<EodPrice>, j: int)
    requires 0 <= j < |prices| && j <= 12
    ensures DayRecords([], prices)[j].cci.None?
  {
  }

  /** On a later run with 13 stored typical prices every new day has a full
      window: its CCI is null only when the 14 values are flat. */
  lemma LaterRunHasFullWindows(prefix: seq<real>, prices: seq<EodPrice>, j: int)
    requires |prefix| == 13 && 0 <= j < |prices|
    ensures var ts := AllTyps(prefix, prices);
      var r := DayRecords(prefix, prices)[j];
      r.cci.None? <==>
        (forall k :: j <= k < j + 13 ==> ts[k] == MeanTyp(ts[j..j + 13], r.typ)) && r.typ == MeanTyp(ts[j..j + 13], r.typ)
  {
    var ts := AllTyps(prefix, prices);
    CciNullIffFlat(ts[j..j + 13], Typ(prices[j]));
    assert forall k :: j <= k < j + 13 ==> ts[k] == ts[j..j + 13][k - j];
  }

  // ---------------------------------------------------------------------
  // The two insert batches.

  /** The records without a CCI, in order. */
  function NoCci(ms: seq<CciRecord>): seq<CciRecord> {
    if ms == [] then []
    else NoCci(ms[..|ms| - 1]) + (if ms[|ms| - 1].cci.None? then [ms[|ms| - 1]] else [])
  }

  /** The records with a CCI, in order. */
  function HasCci(ms: seq<CciRecord>): seq<CciRecord> {
    if ms == [] then []
    else HasCci(ms[..|ms| - 1]) + (if ms[|ms| - 1].cci.Some? then [ms[|ms| - 1]] else [])
  }

  /** Every record is written exactly once, in the batch its CCI selects. */
  lemma {:induction false} BatchesPartition(ms: seq<CciRecord>)
    ensures |NoCci(ms)| + |HasCci(ms)| == |ms|
    ensures forall m :: m in NoCci(ms) <==> m in ms && m.cci.None?
    ensures forall m :: m in HasCci(ms) <==> m in ms && m.cci.Some?
  {
    if ms != [] {
      var init := ms[..|ms| - 1];
      BatchesPartition(init);
      assert ms == init + [ms[|ms| - 1]];
    }
  }

  lemma SplitAppend(ms: seq<CciRecord>, m: CciRecord)
    ensures NoCci(ms + [m]) == NoCci(ms) + (if m.cci.None? then [m] else [])
    ensures HasCci(ms + [m]) == HasCci(ms) + (if m.cci.Some? then [m] else [])
  {
    assert (ms + [m])[..|ms|] == ms;
  }

  // ---------------------------------------------------------------------
  // The run.

  /** What a run writes. */
  datatype CciRun = CciRun(noCci: seq<CciRecord>, hasCci: seq<CciRecord>)

  /** The 13 records before new day |models| carry the typical prices the
      day's window is specified over. */
  lemma WindowTyps(prefix: seq<CciRecord>, prices: seq<EodPrice>, models: seq<CciRecord>)
    requires |models| < |prices| && |prefix| + |models| >= 13
    requires forall k :: 0 <= k < |models| ==> models[k].typ == Typ(prices[k])
    ensures var at := |prefix| + |models|;
      Typs((prefix + models)[at - 13..at]) == AllTyps(Typs(prefix), prices)[at - 13..at]
  {
    var at := |prefix| + |models|;
    var ts := AllTyps(Typs(prefix), prices);
    var window := (prefix + models)[at - 13..at];
    forall k | 0 <= k < 13
      ensures Typs(window)[k] == ts[at - 13..at][k]
    {
      var g := at - 13 + k;
      if g >= |prefix| {
        assert window[k] == models[g - |prefix|];
        assert ts[g] == ts[|Typs(prefix)| + (g - |prefix|)];
      }
    }
  }

  /** The record of new day i: its typical price, and its CCI over the 13
      entries of `modelList` before it. */
  method DayModel(prices: seq<EodPrice>, i: int, prefix: seq<CciRecord>, ghost models: seq<CciRecord>,
                  modelList: seq<CciRecord>) returns (model: CciRecord)
    requires 0 <= i < |prices| && |models| == i && modelList == prefix + models
    requires forall k :: 0 <= k < i ==> models[k].typ == Typ(prices[k])
    ensures model == DayRecord(Typs(prefix), prices, i)
  {
    var p := prices[i];
    var typParam1 := if p.adjHigh.None? then p.adjClose else p.adjHigh.value;
    var typParam2 := if p.adjLow.None? then p.adjClose else p.adjLow.value;
    var typ := HalfUp((typParam1 + typParam2 + p.adjClose) / 3.0, 4);
    model := CciRecord(p.tradeDt, typ, None);
    var at := |prefix| + i;
    if at >= 13 {
      var window := modelList[at - 13..at];
      WindowTyps(prefix, prices, models);
      var cci := GetCci(window, typ);
      model := model.(cci := cci);
    }
  }

  /** The day records built so far, one per day, in order. */
  ghost predicate RecordsSoFar(ts: seq<real>, prices: seq<EodPrice>, models: seq<CciRecord>)
  {
    |models| <= |prices| && forall k :: 0 <= k < |models| ==> models[k] == DayRecord(ts, prices, k)
  }

  /** Appending the next day's record keeps the records so far. */
  lemma RecordsGrow(ts: seq<real>, prices: seq<EodPrice>, models: seq<CciRecord>, model: CciRecord)
    requires RecordsSoFar(ts, prices, models) && |models| < |prices|
    requires model == DayRecord(ts, prices, |models|)
    ensures RecordsSoFar(ts, prices, models + [model])
  {
    var ms := models + [model];
    forall k | 0 <= k < |ms|
      ensures ms[k] == DayRecord(ts, prices, k)
    {
      if k < |models| {
        assert ms[k] == models[k];
      }
    }
  }

  /** Records for every day are the day records. */
  lemma RecordsDone(ts: seq<real>, prices: seq<EodPrice>, models: seq<CciRecord>)
    requires RecordsSoFar(ts, prices, models) && |models| == |prices|
    ensures models == DayRecords(ts, prices)
  {
  }

  /** The day loop. `modelList` starts as the stored records before the
      first new day, oldest first (none on a first run); each new record is
      appended to it, and the window of new day i is the 13 entries before
      it. */
  method RunDays(prices: seq<EodPrice>, prefix: seq<CciRecord>) returns (run: CciRun)
    requires |prefix| == 0 || |prefix| == 13
    ensures run.noCci == NoCci(DayRecords(Typs(prefix), prices))
    ensures run.hasCci == HasCci(DayRecords(Typs(prefix), prices))
  {
    ghost var ts := Typs(prefix);
    var modelList := prefix;
    ghost var models: seq<CciRecord> := [];
    var noCci: seq<CciRecord> := [];
    var hasCci: seq<CciRecord> := [];
    for i := 0 to |prices|
      invariant modelList == prefix + models
      invariant |models| == i
      invariant RecordsSoFar(ts, prices, models)
      invariant noCci == NoCci(models) && hasCci == HasCci(models)
    {
      var model := DayModel(prices, i, prefix, models, modelList);
      RecordsGrow(ts, prices, models, model);
      SplitAppend(models, model);
      models := models + [model];
      modelList := modelList + [model];
      if model.cci.None? {
        noCci := noCci + [model];
      } else {
        hasCci := hasCci + [model];
      }
    }
    RecordsDone(ts, prices, models);
    run := CciRun(noCci, hasCci);
  }

  /** `calcStock` for one stock. `prices` are the trading days after the
      last stored record (all of them on a first run), in date order;
      `stored` tells whether the stock has a stored record; `earlier` are
      up to 13 stored records before the first new day, newest first. */
  method CalcStock(prices: seq<EodPrice>, stored: bool, earlier: seq<CciRecord>) returns (run: CciRun)
    requires |earlier| <= 13
    ensures prices == [] || (stored && |earlier| < 13) ==> run == CciRun([], [])
    ensures prices != [] && !stored ==>
      run.noCci == NoCci(DayRecords([], prices)) && run.hasCci == HasCci(DayRecords([], prices))
    ensures prices != [] && stored && |earlier| == 13 ==>
      run.noCci == NoCci(DayRecords(Typs(Reversed(earlier)), prices)) &&
      run.hasCci == HasCci(DayRecords(Typs(Reversed(earlier)), prices))
  {
    if prices == [] {
      return CciRun([], []);
    }
    if !stored {
      run := RunDays(prices, []);
    } else {
      if |earlier| < 13 {
        return CciRun([], []);
      }
      var rows := new CciRecord[|earlier|](k requires 0 <= k < |earlier| => earlier[k]);
      assert rows[..] == earlier;
      ReverseInPlace(rows);
      run := RunDays(prices, rows[..]);
    }
  }
}
