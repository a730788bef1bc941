/** `average_readings` (app.py:61-62): `sum(readings) / len(readings)`.

    Values are real numbers; the rounding of Python floats is not modelled.
    Python's `sum` starts from 0 and adds the items left to right, so a None
    item (a DHT component the driver could not read) raises TypeError.
 */
module Averaging {
  import opened Values

  /** `sum(xs)`: 0 plus the items, left to right. A sum of readings that
      are none of them negative is not negative. */
  function Sum(xs: seq<real>): (s: real)
    ensures (forall i :: 0 <= i < |xs| ==> xs[i] >= 0.0) ==> s >= 0.0
  {
    if |xs| == 0 then 0.0 else Sum(xs[..|xs| - 1]) + xs[|xs| - 1]
  }

  /** `average_readings(xs)` on numbers: the arithmetic mean. The program
      always calls it on the three pots' readings. */
  function AverageReadings(xs: seq<real>): (m: real)
    requires |xs| > 0
    ensures m * (|xs| as real) == Sum(xs)
  {
    Sum(xs) / (|xs| as real)
  }

  /** The sum of values that lie between lo and hi lies between n*lo and n*hi. */
  lemma {:induction false} SumBounds(xs: seq<real>, lo: real, hi: real)
    requires forall i :: 0 <= i < |xs| ==> lo <= xs[i] <= hi
    ensures (|xs| as real) * lo <= Sum(xs) <= (|xs| as real) * hi
    decreases |xs|
  {
    if |xs| > 0 {
      var init := xs[..|xs| - 1];
      assert forall i :: 0 <= i < |init| ==> init[i] == xs[i];
      SumBounds(init, lo, hi);
      assert (|xs| as real) * lo == (|init| as real) * lo + lo;
      assert (|xs| as real) * hi == (|init| as real) * hi + hi;
    }
  }

  /** The mean lies between any lower and upper bound of the readings. */
  lemma MeanBounds(xs: seq<real>, lo: real, hi: real)
    requires |xs| > 0
    requires forall i :: 0 <= i < |xs| ==> lo <= xs[i] <= hi
    ensures lo <= AverageReadings(xs) <= hi
  {
    SumBounds(xs, lo, hi);
    var n := |xs| as real;
    var m := AverageReadings(xs);
    assert n * lo <= Sum(xs) <= n * hi;
    assert Sum(xs) == m * n;
    PositiveFactor(n, m - lo);
    PositiveFactor(n, hi - m);
  }

  /** A product with a positive factor is non-negative only if the other factor is. */
  lemma PositiveFactor(n: real, d: real)
    requires n > 0.0 && n * d >= 0.0
    ensures d >= 0.0
  {
  }

  /** Readings that all agree average to that reading. */
  lemma MeanOfEqualReadings(xs: seq<real>, c: real)
    requires |xs| > 0
    requires forall i :: 0 <= i < |xs| ==> xs[i] == c
    ensures AverageReadings(xs) == c
  {
    MeanBounds(xs, c, c);
  }

  /** Three temperatures, and three binary readings whose mean is a
      fraction rather than a digital state. */
  lemma AverageExamples()
    ensures AverageReadings([20.0, 22.0, 24.0]) == 22.0
    ensures AverageReadings([0.0, 1.0, 1.0]) == 2.0 / 3.0
  {
    assert Sum([20.0, 22.0, 24.0]) == 66.0 by {
      assert [20.0, 22.0, 24.0][..2] == [20.0, 22.0];
      assert [20.0, 22.0][..1] == [20.0];
      assert [20.0][..0] == [];
    }
    assert Sum([0.0, 1.0, 1.0]) == 2.0 by {
      assert [0.0, 1.0, 1.0][..2] == [0.0, 1.0];
      assert [0.0, 1.0][..1] == [0.0];
      assert [0.0][..0] == [];
    }
  }

  /** Every item is a number. */
  predicate AllPresent(xs: seq<Option<real>>)
  {
    forall i :: 0 <= i < |xs| ==> xs[i].Some?
  }

  /** The numbers of a list that holds no None. */
  function Present(xs: seq<Option<real>>): (vs: seq<real>)
    requires AllPresent(xs)
    ensures |vs| == |xs|
    ensures forall i :: 0 <= i < |xs| ==> xs[i] == Some(vs[i])
  {
    seq(|xs|, i requires 0 <= i < |xs| => xs[i].value)
  }

  /** `average_readings(xs)` on a column of DHT components: TypeError as
      soon as one component is None, the mean of the numbers otherwise. */
  function AverageColumn(xs: seq<Option<real>>): (r: Outcome<real>)
    requires |xs| > 0
    ensures r.Ok? <==> AllPresent(xs)
    ensures r.Raised? ==> r.error == TypeError
    ensures r.Ok? ==> exists vs :: |vs| == |xs| && (forall i :: 0 <= i < |xs| ==> xs[i] == Some(vs[i])) && r.value == AverageReadings(vs)
  {
    if AllPresent(xs) then Ok(AverageReadings(Present(xs))) else Raised(TypeError)
  }

  /** The temperature column `[r[0] for r in readings]`. */
  function Temperatures(rs: seq<DhtReading>): (ts: seq<Option<real>>)
    ensures |ts| == |rs|
    ensures forall i :: 0 <= i < |rs| ==> ts[i] == rs[i].temperature
  {
    seq(|rs|, i requires 0 <= i < |rs| => rs[i].temperature)
  }

  /** The humidity column `[r[1] for r in readings]`. */
  function Humidities(rs: seq<DhtReading>): (hs: seq<Option<real>>)
    ensures |hs| == |rs|
    ensures forall i :: 0 <= i < |rs| ==> hs[i] == rs[i].humidity
  {
    seq(|rs|, i requires 0 <= i < |rs| => rs[i].humidity)
  }
}
