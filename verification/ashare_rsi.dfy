/** The relative strength index of one stock: smoothed average gains and
    losses over 6, 12 and 24 days, computed day by day from the adjusted
    closes, and the insert batches the records are split into by which RSI
    values are missing. BigDecimal values are reals; every division rounds
    half-up to the scale the source gives it. */
module AshareRsi {
  import opened Common
  import opened Series

  /** The smoothed average gain and loss over one window. */
  datatype Averages = Averages(inc: real, dec: real)

  /** One stored day. An RSI value is null when the average loss of its
      window is zero. */
  datatype RsiRecord = RsiRecord(
    tradeDt: string,
    avg6: Averages, avg12: Averages, avg24: Averages,
    rsi6: Option<real>, rsi12: Option<real>, rsi24: Option<real>)

  /** The `max` helper: null when either value is null or zero, otherwise
      how far x is above y, and 0 when it is not above. */
  function Max(x: Option<real>, y: Option<real>): (r: Option<real>)
    ensures r.None? <==> x.None? || y.None? || x.value == 0.0 || y.value == 0.0
    ensures r.Some? ==> r.value >= 0.0
    ensures r.Some? ==> (r.value > 0.0 <==> x.value > y.value)
  {
    if x.None? || y.None? || x.value == 0.0 || y.value == 0.0 then None
    else if x.value > y.value then Some(x.value - y.value)
    else Some(0.0)
  }

  /** The day's gain `max(close, preClose)` and loss `max(preClose, close)`:
      at most one is positive, and the gain minus the loss is the change of
      the close. */
  lemma GainAndLoss(close: real, preClose: real)
    requires close != 0.0 && preClose != 0.0
    ensures Max(Some(close), Some(preClose)).Some? && Max(Some(preClose), Some(close)).Some?
    ensures Max(Some(close), Some(preClose)).value == 0.0 || Max(Some(preClose), Some(close)).value == 0.0
    ensures Max(Some(close), Some(preClose)).value - Max(Some(preClose), Some(close)).value == close - preClose
  {
  }

  lemma NonNegativeMean(today: real, prev: real, n: nat)
    requires n >= 1
    ensures today >= 0.0 && prev >= 0.0 ==> (today + (n - 1) as real * prev) / n as real >= 0.0
  {
    if prev >= 0.0 {
      MulMono(0.0, prev, (n - 1) as real);
    }
  }

  /** One smoothing step over an n-day window:
      (today + (n - 1) * previous) / n, rounded half-up to 6 places. */
  function Smooth(today: real, prev: real, n: nat): (r: real)
    requires n >= 1
    ensures today >= 0.0 && prev >= 0.0 ==> r >= 0.0
  {
    NonNegativeMean(today, prev, n);
    HalfUp((today + (n - 1) as real * prev) / n as real, 6)
  }

  /** Smoothing a zero day into a zero average gives zero, so a run of
      zero gains (or losses) keeps a zero average. */
  lemma SmoothZero(n: nat)
    requires n >= 1
    ensures Smooth(0.0, 0.0, n) == 0.0
  {
    HalfUpWhole(0, 6);
  }

  lemma RatioInUnit(a: real, b: real)
    requires 0.0 <= a && 0.0 <= b && a + b > 0.0
    ensures 0.0 <= a / (a + b) <= 1.0
  {
    DivMono(0.0, a, a + b);
    DivMono(a, a + b, a + b);
  }

  /** An RSI value: inc / (inc + dec) rounded half-up to 4 places, times
      100; none when the average loss is zero. */
  function Rsi(inc: real, dec: real): (r: Option<real>)
    requires inc >= 0.0 && dec >= 0.0
    ensures r.Some? <==> dec != 0.0
    ensures r.Some? ==> 0.0 <= r.value <= 100.0
  {
    if dec != 0.0 then
      RatioInUnit(inc, dec);
      var q := inc / (inc + dec);
      HalfUpMonotone(0.0, q, 4);
      HalfUpMonotone(q, 1.0, 4);
      HalfUpWhole(0, 4);
      HalfUpWhole(1, 4);
      Some(HalfUp(q, 4) * 100.0)
    else None
  }

  predicate NonNegative(r: RsiRecord) {
    r.avg6.inc >= 0.0 && r.avg6.dec >= 0.0 && r.avg12.inc >= 0.0 && r.avg12.dec >= 0.0 &&
    r.avg24.inc >= 0.0 && r.avg24.dec >= 0.0
  }

  /** The smoothed averages of one window from the day's gain and loss. */
  function SmoothBoth(inc: real, dec: real, prev: Averages, n: nat): (r: Averages)
    requires n >= 1
    ensures inc >= 0.0 && dec >= 0.0 && prev.inc >= 0.0 && prev.dec >= 0.0 ==> r.inc >= 0.0 && r.dec >= 0.0
  {
    Averages(Smooth(inc, prev.inc, n), Smooth(dec, prev.dec, n))
  }

  /** The record of one day from the previous day's record and the two
      closes. */
  function Step(prev: RsiRecord, pre: EodPrice, today: EodPrice): (r: RsiRecord)
    requires NonNegative(prev)
    requires pre.adjClose != 0.0 && today.adjClose != 0.0
    ensures NonNegative(r)
    ensures r.tradeDt == today.tradeDt
    ensures r.rsi6.Some? <==> r.avg6.dec != 0.0
    ensures r.rsi12.Some? <==> r.avg12.dec != 0.0
    ensures r.rsi24.Some? <==> r.avg24.dec != 0.0
  {
    GainAndLoss(today.adjClose, pre.adjClose);
    var inc := Max(Some(today.adjClose), Some(pre.adjClose)).value;
    var dec := Max(Some(pre.adjClose), Some(today.adjClose)).value;
    var a6 := SmoothBoth(inc, dec, prev.avg6, 6);
    var a12 := SmoothBoth(inc, dec, prev.avg12, 12);
    var a24 := SmoothBoth(inc, dec, prev.avg24, 24);
    RsiRecord(today.tradeDt, a6, a12, a24, Rsi(a6.inc, a6.dec), Rsi(a12.inc, a12.dec), Rsi(a24.inc, a24.dec))
  }

  /** The seed written for the first day of a stock with no stored record:
      all averages zero, no RSI. */
  function Seed(tradeDt: string): (r: RsiRecord)
    ensures NonNegative(r) && r.rsi6.None? && r.rsi12.None? && r.rsi24.None?
  {
    var zero := Averages(0.0, 0.0);
    RsiRecord(tradeDt, zero, zero, zero, None, None, None)
  }

  predicate ValidCloses(prices: seq<EodPrice>) {
    forall i :: 0 <= i < |prices| ==> prices[i].adjClose != 0.0
  }

  /** The records of days 1 .. k-1, each computed from the one before and
      day 1 from `first`, the record of day 0. */
  function Days(prices: seq<EodPrice>, first: RsiRecord, k: nat): (r: seq<RsiRecord>)
    requires 1 <= k <= |prices| && ValidCloses(prices) && NonNegative(first)
    ensures |r| == k - 1
    ensures forall j :: 0 <= j < |r| ==> NonNegative(r[j]) && r[j].tradeDt == prices[j + 1].tradeDt
  {
    if k == 1 then []
    else
      var before := Days(prices, first, k - 1);
      var prev := if k == 2 then first else before[|before| - 1];
      before + [Step(prev, prices[k - 2], prices[k - 1])]
  }

  lemma DaysNext(prices: seq<EodPrice>, first: RsiRecord, k: nat, prev: RsiRecord)
    requires 1 <= k < |prices| && ValidCloses(prices) && NonNegative(first)
    requires prev == if k == 1 then first else Days(prices, first, k)[k - 2]
    ensures NonNegative(prev)
    ensures Days(prices, first, k + 1) == Days(prices, first, k) + [Step(prev, prices[k - 1], prices[k])]
  {
  }

  /** Each day's record is the step from the previous day's. */
  lemma DaysStep(prices: seq<EodPrice>, first: RsiRecord, k: nat, j: nat)
    requires 1 <= k <= |prices| && ValidCloses(prices) && NonNegative(first)
    requires 0 < j < k - 1
    ensures Days(prices, first, k)[j] == Step(Days(prices, first, k)[j - 1], prices[j], prices[j + 1])
  {
    if j < k - 2 {
      DaysStep(prices, first, k - 1, j);
    }
  }

  // ---------------------------------------------------------------------
  // The eight insert batches.

  /** Which of (rsi6, rsi12, rsi24) are null. */
  function NullPattern(r: RsiRecord): (bool, bool, bool) {
    (r.rsi6.None?, r.rsi12.None?, r.rsi24.None?)
  }

  /** The null pattern of each batch, in the order the source lists them:
      all set, then A, B, C, AB, AC, BC, ABC (the letters naming the null
      values: A for rsi6, B for rsi12, C for rsi24). */
  function BatchPattern(b: int): (bool, bool, bool)
    requires 0 <= b < 8
  {
    match b
    case 0 => (false, false, false)
    case 1 => (true, false, false)
    case 2 => (false, true, false)
    case 3 => (false, false, true)
    case 4 => (true, true, false)
    case 5 => (true, false, true)
    case 6 => (false, true, true)
    case _ => (true, true, true)
  }

  predicate InBatch(r: RsiRecord, b: int)
    requires 0 <= b < 8
  {
    NullPattern(r) == BatchPattern(b)
  }

  /** Every record lands in exactly one of the eight batches. */
  lemma ExactlyOneBatch(r: RsiRecord)
    ensures exists b :: 0 <= b < 8 && InBatch(r, b)
    ensures forall b, c :: 0 <= b < 8 && 0 <= c < 8 && InBatch(r, b) && InBatch(r, c) ==> b == c
  {
    var p := NullPattern(r);
    var b := if p == BatchPattern(0) then 0 else if p == BatchPattern(1) then 1
      else if p == BatchPattern(2) then 2 else if p == BatchPattern(3) then 3
      else if p == BatchPattern(4) then 4 else if p == BatchPattern(5) then 5
      else if p == BatchPattern(6) then 6 else 7;
    assert InBatch(r, b);
  }

  /** The records of batch b, in day order. */
  function Batch(models: seq<RsiRecord>, b: int): seq<RsiRecord>
    requires 0 <= b < 8
  {
    if models == [] then []
    else
      var last := models[|models| - 1];
      Batch(models[..|models| - 1], b) + (if InBatch(last, b) then [last] else [])
  }

  lemma BatchAppend(models: seq<RsiRecord>, r: RsiRecord, b: int)
    requires 0 <= b < 8
    ensures Batch(models + [r], b) == Batch(models, b) + (if InBatch(r, b) then [r] else [])
  {
    assert (models + [r])[..|models|] == models;
  }

  function Hit(r: RsiRecord, b: int): nat
    requires 0 <= b < 8
  {
    if InBatch(r, b) then 1 else 0
  }

  /** The total size of the eight batches. */
  function BatchSizes(models: seq<RsiRecord>): int {
    |Batch(models, 0)| + |Batch(models, 1)| + |Batch(models, 2)| + |Batch(models, 3)| +
    |Batch(models, 4)| + |Batch(models, 5)| + |Batch(models, 6)| + |Batch(models, 7)|
  }

  /** The batches partition the records: their sizes add up to the number
      of records, so no record is written twice or dropped. */
  lemma {:induction false} BatchesPartition(models: seq<RsiRecord>)
    ensures BatchSizes(models) == |models|
  {
    if models != [] {
      var init := models[..|models| - 1];
      var last := models[|models| - 1];
      BatchesPartition(init);
      assert models == init + [last];
      forall b | 0 <= b < 8
        ensures |Batch(models, b)| == |Batch(init, b)| + Hit(last, b)
      {
        BatchAppend(init, last, b);
      }
      assert Hit(last, 0) + Hit(last, 1) + Hit(last, 2) + Hit(last, 3) +
        Hit(last, 4) + Hit(last, 5) + Hit(last, 6) + Hit(last, 7) == 1;
    }
  }

  // ---------------------------------------------------------------------
  // The run.

  /** The eight `if`s that put one new record into its batch. */
  method AddToBatch(batches: seq<seq<RsiRecord>>, models: seq<RsiRecord>, model: RsiRecord)
    returns (next: seq<seq<RsiRecord>>)
    requires |batches| == 8
    requires forall b :: 0 <= b < 8 ==> batches[b] == Batch(models, b)
    ensures |next| == 8
    ensures forall b :: 0 <= b < 8 ==> next[b] == Batch(models + [model], b)
  {
    next := batches;
    for b := 0 to 8
      invariant |next| == 8
      invariant forall c :: 0 <= c < b ==> next[c] == Batch(models + [model], c)
      invariant forall c :: b <= c < 8 ==> next[c] == Batch(models, c)
    {
      BatchAppend(models, model, b);
      if InBatch(model, b) {
        next := next[b := next[b] + [model]];
      }
    }
  }

  /** What a run writes: the seed (first run only) and the eight batches. */
  datatype RsiRun = RsiRun(seed: Option<RsiRecord>, batches: seq<seq<RsiRecord>>)

  /** The batches of a run whose first previous record is `first`: none
      when it is missing. */
  function RunOf(prices: seq<EodPrice>, first: Option<RsiRecord>): (r: seq<seq<RsiRecord>>)
    requires ValidCloses(prices) && |prices| >= 2
    requires first.Some? ==> NonNegative(first.value)
    ensures |r| == 8
  {
    if first.None? then EmptyBatches()
    else seq(8, b requires 0 <= b < 8 => Batch(Days(prices, first.value, |prices|), b))
  }

  function EmptyBatches(): seq<seq<RsiRecord>> { [[], [], [], [], [], [], [], []] }

  /** The day loop: each day's record from the previous one, the first
      previous record being `first` (read from storage). When that record
      is missing the run stops before writing any batch. */
  method RunDays(prices: seq<EodPrice>, first: Option<RsiRecord>) returns (batches: seq<seq<RsiRecord>>)
    requires ValidCloses(prices) && |prices| >= 2
    requires first.Some? ==> NonNegative(first.value)
    ensures |batches| == 8
    ensures first.None? ==> batches == EmptyBatches()
    ensures first.Some? ==> forall b :: 0 <= b < 8 ==> batches[b] == Batch(Days(prices, first.value, |prices|), b)
  {
    var models: seq<RsiRecord> := [];
    batches := EmptyBatches();
    for i := 1 to |prices|
      invariant first.Some? || i == 1
      invariant first.Some? ==> models == Days(prices, first.value, i)
      invariant |batches| == 8
      invariant forall b :: 0 <= b < 8 ==> batches[b] == Batch(models, b)
    {
      var prev: RsiRecord;
      if i == 1 {
        if first.None? {
          return EmptyBatches();
        }
        prev := first.value;
      } else {
        prev := models[i - 2];
      }
      DaysNext(prices, first.value, i, prev);
      var model := Step(prev, prices[i - 1], prices[i]);
      batches := AddToBatch(batches, models, model);
      models := models + [model];
    }
  }

  /** `calcStock` for one stock. `prices` are the trading days in date
      order (from the last stored day when there is a stored record);
      `stored` tells whether the stock has a stored record; `lookup` is
      the stored record of the first day, read when computing day 1 (on a
      first run that is the seed just written). */
  method CalcStock(prices: seq<EodPrice>, stored: bool, lookup: Option<RsiRecord>)
    returns (run: RsiRun)
    requires ValidCloses(prices)
    requires lookup.Some? ==> NonNegative(lookup.value)
    ensures |run.batches| == 8
    ensures run.seed.Some? <==> !stored && |prices| > 0
    ensures run.seed.Some? ==> run.seed == Some(Seed(prices[0].tradeDt))
    ensures |prices| < 2 ==> run.batches == EmptyBatches()
    ensures |prices| >= 2 && stored ==> run.batches == RunOf(prices, lookup)
    ensures |prices| >= 2 && !stored ==> run.batches == RunOf(prices, Some(Seed(prices[0].tradeDt)))
  {
    if |prices| == 0 {
      return RsiRun(None, EmptyBatches());
    }
    var seed: Option<RsiRecord> := None;
    if !stored {
      seed := Some(Seed(prices[0].tradeDt));
      if |prices| == 1 {
        return RsiRun(seed, EmptyBatches());
      }
    }
    if |prices| == 1 {
      return RsiRun(seed, EmptyBatches());
    }
    var batches := RunDays(prices, if stored then lookup else seed);
    run := RsiRun(seed, batches);
  }
}
