/**
 Definitions shared by both variants of the utility-bill calculator: the three
 meters (hot water, cold water, electricity), what a text entry parses to, the
 tariff coefficients, the four-term cost formula, rounding to kopecks and the
 monotonicity check that is the calculator's one validated error.
 */
module Meters {

  /** The three meters, in the order every list of readings uses. */
  const Hot: nat := 0
  const Cold: nat := 1
  const Elec: nat := 2
  const MeterCount: nat := 3

  /** What Python's float() makes of the text in one entry field. */
  datatype Entry = Empty | Number(value: real) | Malformed

  /** The errors an input can lead to.  InvalidNumber and Regression are the
      ValueErrors the handlers report; MissingReading is the IndexError of
      indexing a list of readings that has fewer than three values. */
  datatype CalcError = InvalidNumber | Regression | MissingReading

  datatype Result<T> = Success(value: T) | Failure(error: CalcError)

  /** Price per unit for each usage category. */
  datatype Tariffs = Tariffs(hotWater: real, coldWater: real, sewage: real, electricity: real)

  predicate NonNegativeTariffs(t: Tariffs)
  {
    t.hotWater >= 0.0 && t.coldWater >= 0.0 && t.sewage >= 0.0 && t.electricity >= 0.0
  }

  /** The cost before rounding: every cubic metre of hot or cold water is also
      billed once more as sewage. */
  function UnroundedCost(hot: real, cold: real, elec: real, t: Tariffs): (cost: real)
    ensures hot >= 0.0 && cold >= 0.0 && elec >= 0.0 && NonNegativeTariffs(t) ==> cost >= 0.0
    ensures cost == hot * (t.hotWater + t.sewage) + cold * (t.coldWater + t.sewage) + elec * t.electricity
  {
    var sewage := hot + cold;
    hot * t.hotWater + cold * t.coldWater + sewage * t.sewage + elec * t.electricity
  }

  /** A whole number of hundredths (kopecks). */
  predicate IsCents(x: real)
  {
    (x * 100.0).Floor as real == x * 100.0
  }

  /** round(x, 2) on the exact value: to the nearest hundredth, a tie going to
      the even neighbour. */
  function Round2(x: real): (r: real)
    ensures IsCents(r)
    ensures -0.005 <= r - x <= 0.005
    ensures x >= 0.0 ==> r >= 0.0
    ensures x * 100.0 - (x * 100.0).Floor as real == 0.5 ==> (r * 100.0).Floor % 2 == 0
  {
    var scaled := x * 100.0;
    var n := scaled.Floor;
    var frac := scaled - n as real;
    var k := if frac < 0.5 then n else if frac > 0.5 then n + 1 else if n % 2 == 0 then n else n + 1;
    assert 0.0 <= frac < 1.0;
    assert -0.5 <= k as real - scaled <= 0.5;
    assert k as real / 100.0 - x == (k as real - scaled) / 100.0;
    assert (k as real / 100.0) * 100.0 == k as real;
    k as real / 100.0
  }

  /** Rounding an amount that is already whole kopecks changes nothing. */
  lemma Round2OfCents(x: real)
    requires IsCents(x)
    ensures Round2(x) == x
  {
  }

  /** `any(c < p for c, p in zip(curr, prev))`: zip stops at the shorter list. */
  predicate Regressed(prev: seq<real>, curr: seq<real>)
  {
    exists i :: 0 <= i < |prev| && i < |curr| && curr[i] < prev[i]
  }

  function Min(a: int, b: int): int
  {
    if a <= b then a else b
  }

  /** A table file that exists: its header row and its data rows in file order. */
  datatype CsvFile<R> = CsvFile(header: seq<string>, rows: seq<R>)

  datatype Option<T> = None | Some(value: T)
}
