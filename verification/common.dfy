/** Shared helpers: an Option type for the nullable values of the source
    (JavaScript null, Java null) and BigDecimal's ROUND_HALF_UP rounding,
    with the exact decimals of BigDecimal modelled as reals. */
module Common {

  datatype Option<+T> = None | Some(value: T)

  /** `Array.prototype.filter`: the elements that pass `keep`, in order. */
  function Filter<T(!new)>(s: seq<T>, keep: T -> bool): (r: seq<T>)
    ensures |r| <= |s|
    ensures forall x :: x in r <==> x in s && keep(x)
  {
    if s == [] then []
    else
      assert s == [s[0]] + s[1..];
      (if keep(s[0]) then [s[0]] else []) + Filter(s[1..], keep)
  }

  /** `Array.prototype.findIndex`: the index of the first element that
      passes `p`, -1 when none does. */
  function FindIndex<T>(s: seq<T>, p: T -> bool): (r: int)
    ensures -1 <= r < |s|
    ensures r == -1 <==> forall k :: 0 <= k < |s| ==> !p(s[k])
    ensures 0 <= r ==> p(s[r]) && forall k :: 0 <= k < r ==> !p(s[k])
  {
    if s == [] then -1
    else if p(s[0]) then 0
    else
      var r := FindIndex(s[1..], p);
      if r == -1 then -1 else r + 1
  }

  /** 10^n. */
  function Pow10(n: nat): (r: nat)
    ensures r >= 1
    ensures n > 0 ==> r >= 10
  {
    if n == 0 then 1 else 10 * Pow10(n - 1)
  }

  /** Rounds a non-negative real half-up to an integer. */
  function RoundNat(y: real): (r: int)
    requires y >= 0.0
    ensures r >= 0
    ensures r as real - 0.5 <= y < r as real + 0.5
  {
    (y + 0.5).Floor
  }

  /** Rounds y >= 0 half-up to a multiple of 1/s: the
      multiple nearest to y, the upper one on a tie. */
  function RoundScaled(y: real, s: real): (r: real)
    requires y >= 0.0 && s >= 1.0
    ensures r >= 0.0
    ensures OnGrid(r, s)
    ensures y - 0.5 / s < r <= y + 0.5 / s
  {
    MulMono(0.0, y, s);
    var k := RoundNat(y * s);
    DivBounds(k as real, y, s);
    Tick(k, s)
  }

  /** BigDecimal.divide/setScale with ROUND_HALF_UP to `places` decimal
      places: round to the nearest multiple of 10^-places, ties away from
      zero. The result is on that grid and within half a unit of x, and
      the strict side of the bound sends a tie away from zero. */
  function HalfUp(x: real, places: nat): (r: real)
    ensures x >= 0.0 ==> r >= 0.0
    ensures x <= 0.0 ==> r <= 0.0
    ensures OnGrid(r, Pow10(places) as real)
    ensures x - 0.5 / Pow10(places) as real <= r <= x + 0.5 / Pow10(places) as real
    ensures x >= 0.0 ==> x - 0.5 / Pow10(places) as real < r
    ensures x < 0.0 ==> r < x + 0.5 / Pow10(places) as real
  {
    var s := Pow10(places) as real;
    if x >= 0.0 then
      var r := RoundScaled(x, s);
      r
    else
      var r := RoundScaled(-x, s);
      ghost var n :| r == Tick(n, s);
      assert -r == Tick(-n, s);
      -r
  }

  /** The n-th point of the grid of step 1/s. */
  function Tick(n: int, s: real): real
    requires s >= 1.0
  {
    n as real / s
  }

  /** r is a whole multiple of 1/s. */
  ghost predicate OnGrid(r: real, s: real)
    requires s >= 1.0
  {
    exists n: int :: r == Tick(n, s)
  }

  lemma MulMono(x: real, y: real, s: real)
    requires x <= y && s >= 0.0
    ensures x * s <= y * s
  {
    assert (y - x) * s >= 0.0;
  }

  /** From k - 1/2 <= y*s < k + 1/2 conclude y - 1/(2s) < k/s <= y + 1/(2s). */
  lemma DivBounds(k: real, y: real, s: real)
    requires s >= 1.0
    requires k - 0.5 <= y * s < k + 0.5
    ensures y - 0.5 / s < k / s <= y + 0.5 / s
  {
    var d := k - y * s;
    assert k / s == y + d / s;
    assert d / s <= 0.5 / s;
    assert -0.5 / s < d / s;
  }

  lemma DivMono(a: real, b: real, s: real)
    requires a <= b && s > 0.0
    ensures a / s <= b / s
  {
    assert b / s - a / s == (b - a) / s;
  }

  /** Rounding to a multiple of 1/s is monotone on non-negative values. */
  lemma {:induction false} RoundScaledMonotone(x: real, y: real, s: real)
    requires 0.0 <= x <= y && s >= 1.0
    ensures RoundScaled(x, s) <= RoundScaled(y, s)
  {
    MulMono(x, y, s);
    MulMono(0.0, x, s);
    var a, b := RoundNat(x * s), RoundNat(y * s);
    assert a <= b;
    DivMono(a as real, b as real, s);
  }

  /** HalfUp is monotone: rounding never reverses the order of two values. */
  lemma {:induction false} HalfUpMonotone(x: real, y: real, places: nat)
    requires x <= y
    ensures HalfUp(x, places) <= HalfUp(y, places)
  {
    var s := Pow10(places) as real;
    if x >= 0.0 {
      RoundScaledMonotone(x, y, s);
    } else if y < 0.0 {
      RoundScaledMonotone(-y, -x, s);
    }
  }

  /** A whole number is left unchanged by rounding to any number of places. */
  lemma {:induction false} HalfUpWhole(k: int, places: nat)
    ensures HalfUp(k as real, places) == k as real
  {
    var p := Pow10(places);
    var m: nat := if k >= 0 then k else -k;
    RoundScaledWhole(m, p);
  }

  lemma RoundScaledWhole(m: nat, p: nat)
    requires p >= 1
    ensures RoundScaled(m as real, p as real) == m as real
  {
    var y := m as real;
    var s := p as real;
    var n := m * p;
    assert y * s == n as real by {
      ProductAsReal(m, p);
    }
    RoundNatWhole(n);
    RoundScaledIs(y, s, n);
    TickOfProduct(m, p);
  }

  lemma RoundScaledIs(y: real, s: real, k: int)
    requires y >= 0.0 && s >= 1.0
    requires y * s == k as real && k >= 0 && RoundNat(k as real) == k
    ensures RoundScaled(y, s) == Tick(k, s)
  {
  }

  lemma ProductAsReal(m: nat, p: nat)
    ensures m as real * p as real == (m * p) as real
  {
  }

  lemma RoundNatWhole(n: nat)
    ensures RoundNat(n as real) == n
  {
  }

  lemma TickOfProduct(m: nat, p: nat)
    requires p >= 1
    ensures Tick(m * p, p as real) == m as real
  {
    ProductAsReal(m, p);
  }
}
