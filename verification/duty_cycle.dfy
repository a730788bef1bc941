/** The adaptive polling rule `calculate_duty_cycle` (app.py:65-68).

    The rule walks the current and previous readings pairwise (Python's
    `zip`, which stops at the shorter list), skips the pairs whose previous
    slot is None, and asks `any` whether some pair changed by strictly more
    than the threshold. `any` stops at the first pair that answers yes, and a
    pair whose subtraction is not defined (a tuple on either side) raises
    TypeError when it is reached.
 */
module DutyCycle {
  import opened Values

  /** Interval in seconds when some reading changed significantly. */
  const FAST_INTERVAL: nat := 60
  /** Default interval in seconds. */
  const DEFAULT_INTERVAL: nat := 300

  /** Per-category thresholds (app.py:36-39). */
  const TEMP_THRESHOLD: real := 0.5
  /** Declared by the program but never passed to the rule: both DHT
      categories are compared against TEMP_THRESHOLD. */
  const HUMIDITY_THRESHOLD: real := 1.0
  const SOIL_THRESHOLD: real := 1.0
  const LIGHT_THRESHOLD: real := 1.0

  /** `curr - prev` on Python values: defined on two numbers only. */
  function Delta(curr: Value, prev: Value): (r: Outcome<real>)
    ensures r.Ok? <==> curr.Num? && prev.Num?
    ensures r.Ok? ==> prev.n + r.value == curr.n
  {
    if curr.Num? && prev.Num? then Ok(curr.n - prev.n) else Raised(TypeError)
  }

  /** The `any(...)` generator of app.py:66, evaluated left to right. Only a
      tuple can make it raise, and a tuple is never found to exceed the
      threshold; the lemmas AnyExceedsMeansFast, AnyExceedsMeansRaise and
      AnyExceedsMeansSlow below say which answer it gives. */
  function AnyExceeds(curr: seq<Value>, prev: seq<Option<Value>>, threshold: real): (r: Outcome<bool>)
    ensures r.Raised? ==> r.error == TypeError
    ensures ((forall i :: 0 <= i < |curr| ==> curr[i].Num?) &&
             (forall i :: 0 <= i < |prev| ==> prev[i].None? || prev[i].value.Num?)) ==> r.Ok?
    ensures (forall i :: 0 <= i < |curr| ==> curr[i].Tuple?) ==> r != Ok(true)
    decreases |curr|
  {
    if |curr| == 0 || |prev| == 0 then Ok(false)
    else if prev[0].None? then AnyExceeds(curr[1..], prev[1..], threshold)
    else match Delta(curr[0], prev[0].value)
      case Raised(e) => Raised(e)
      case Ok(d) =>
        if Abs(d) > threshold then Ok(true)
        else AnyExceeds(curr[1..], prev[1..], threshold)
  }

  /** `calculate_duty_cycle(curr, prev, threshold)`. */
  function CalculateDutyCycle(curr: seq<Value>, prev: seq<Option<Value>>, threshold: real): (r: Outcome<nat>)
    ensures r.Ok? ==> r.value == FAST_INTERVAL || r.value == DEFAULT_INTERVAL
    ensures r.Raised? ==> r.error == TypeError
  {
    match AnyExceeds(curr, prev, threshold)
    case Raised(e) => Raised(e)
    case Ok(b) => Ok(if b then FAST_INTERVAL else DEFAULT_INTERVAL)
  }

  // ---------------------------------------------------------------------
  // What happens at one position of the zipped lists.

  /** Position i is one of the zipped pairs and its previous slot is not None. */
  predicate Compared(curr: seq<Value>, prev: seq<Option<Value>>, i: int)
  {
    0 <= i < |curr| && i < |prev| && prev[i].Some?
  }

  /** Position i is compared, both sides are numbers and they differ by more than the threshold. */
  predicate Exceeds(curr: seq<Value>, prev: seq<Option<Value>>, threshold: real, i: int)
  {
    Compared(curr, prev, i) && curr[i].Num? && prev[i].value.Num?
    && Abs(curr[i].n - prev[i].value.n) > threshold
  }

  /** Position i is compared and its subtraction raises (a tuple on one side). */
  predicate Clashes(curr: seq<Value>, prev: seq<Option<Value>>, i: int)
  {
    Compared(curr, prev, i) && !(curr[i].Num? && prev[i].value.Num?)
  }

  /** Position i decides the answer of `any`: it exceeds or it raises. */
  predicate Decisive(curr: seq<Value>, prev: seq<Option<Value>>, threshold: real, i: int)
  {
    Exceeds(curr, prev, threshold, i) || Clashes(curr, prev, i)
  }

  /** The answer of `any` is decided by the first decisive pair: yes if it
      exceeds, TypeError if it raises, and no when there is none among the
      zipped pairs. */
  lemma {:induction false} FirstDecisivePair(curr: seq<Value>, prev: seq<Option<Value>>, threshold: real, k: nat)
    requires k <= |curr| && k <= |prev|
    requires forall j :: 0 <= j < k ==> !Decisive(curr, prev, threshold, j)
    ensures (k == |curr| || k == |prev|) ==> AnyExceeds(curr, prev, threshold) == Ok(false)
    ensures Exceeds(curr, prev, threshold, k) ==> AnyExceeds(curr, prev, threshold) == Ok(true)
    ensures Clashes(curr, prev, k) ==> AnyExceeds(curr, prev, threshold) == Raised(TypeError)
    decreases k
  {
    if k > 0 {
      var c', p' := curr[1..], prev[1..];
      assert !Decisive(curr, prev, threshold, 0);
      forall j | 0 <= j < k - 1 ensures !Decisive(c', p', threshold, j) {
        assert !Decisive(curr, prev, threshold, j + 1);
      }
      FirstDecisivePair(c', p', threshold, k - 1);
      assert Exceeds(curr, prev, threshold, k) == Exceeds(c', p', threshold, k - 1);
      assert Clashes(curr, prev, k) == Clashes(c', p', k - 1);
    }
  }

  /** Every pair of lists has a first decisive pair, or none at all. */
  lemma FirstDecisive(curr: seq<Value>, prev: seq<Option<Value>>, threshold: real) returns (k: nat)
    ensures k <= |curr| && k <= |prev|
    ensures forall j :: 0 <= j < k ==> !Decisive(curr, prev, threshold, j)
    ensures k == |curr| || k == |prev| || Decisive(curr, prev, threshold, k)
  {
    k := 0;
    while k < |curr| && k < |prev| && !Decisive(curr, prev, threshold, k)
      invariant k <= |curr| && k <= |prev|
      invariant forall j :: 0 <= j < k ==> !Decisive(curr, prev, threshold, j)
    {
      k := k + 1;
    }
  }

  /** `any` answers yes exactly when some compared pair exceeds the
      threshold before any pair raises. */
  lemma AnyExceedsMeansFast(curr: seq<Value>, prev: seq<Option<Value>>, threshold: real)
    ensures AnyExceeds(curr, prev, threshold) == Ok(true) <==>
      exists i :: Exceeds(curr, prev, threshold, i) && forall j :: 0 <= j < i ==> !Clashes(curr, prev, j)
  {
    var k := FirstDecisive(curr, prev, threshold);
    FirstDecisivePair(curr, prev, threshold, k);
    if Exceeds(curr, prev, threshold, k) {
      assert forall j :: 0 <= j < k ==> !Clashes(curr, prev, j) by {
        forall j | 0 <= j < k ensures !Clashes(curr, prev, j) {
          assert !Decisive(curr, prev, threshold, j);
        }
      }
    }
    if exists i :: Exceeds(curr, prev, threshold, i) && forall j :: 0 <= j < i ==> !Clashes(curr, prev, j) {
      var i :| Exceeds(curr, prev, threshold, i) && forall j :: 0 <= j < i ==> !Clashes(curr, prev, j);
      assert Decisive(curr, prev, threshold, i);
      assert k <= i;
    }
  }

  /** `any` raises exactly when some compared pair raises before any pair exceeds. */
  lemma AnyExceedsMeansRaise(curr: seq<Value>, prev: seq<Option<Value>>, threshold: real)
    ensures AnyExceeds(curr, prev, threshold) == Raised(TypeError) <==>
      exists i :: Clashes(curr, prev, i) && forall j :: 0 <= j < i ==> !Exceeds(curr, prev, threshold, j)
  {
    var k := FirstDecisive(curr, prev, threshold);
    FirstDecisivePair(curr, prev, threshold, k);
    if Clashes(curr, prev, k) {
      assert forall j :: 0 <= j < k ==> !Exceeds(curr, prev, threshold, j) by {
        forall j | 0 <= j < k ensures !Exceeds(curr, prev, threshold, j) {
          assert !Decisive(curr, prev, threshold, j);
        }
      }
    }
    if exists i :: Clashes(curr, prev, i) && forall j :: 0 <= j < i ==> !Exceeds(curr, prev, threshold, j) {
      var i :| Clashes(curr, prev, i) && forall j :: 0 <= j < i ==> !Exceeds(curr, prev, threshold, j);
      assert Decisive(curr, prev, threshold, i);
      assert k <= i;
    }
  }

  /** `any` answers no exactly when no compared pair exceeds or raises. */
  lemma AnyExceedsMeansSlow(curr: seq<Value>, prev: seq<Option<Value>>, threshold: real)
    ensures AnyExceeds(curr, prev, threshold) == Ok(false) <==>
      forall i :: !Decisive(curr, prev, threshold, i)
  {
    var k := FirstDecisive(curr, prev, threshold);
    FirstDecisivePair(curr, prev, threshold, k);
    if k == |curr| || k == |prev| {
      forall i ensures !Decisive(curr, prev, threshold, i) {
        if i >= k {
          assert !Compared(curr, prev, i);
        }
      }
    }
  }

  // ---------------------------------------------------------------------
  // The rule on numeric categories (soil moisture and light).

  /** On numbers nothing raises: the result is the fast interval exactly
      when some zipped pair with a previous value changed by strictly more
      than the threshold, and the default interval otherwise. */
  lemma ScalarDutyCycle(curr: seq<real>, prev: seq<Option<real>>, threshold: real)
    ensures CalculateDutyCycle(Scalars(curr), ScalarsOrNone(prev), threshold) ==
      Ok(if exists i :: 0 <= i < |curr| && i < |prev| && prev[i].Some? && Abs(curr[i] - prev[i].value) > threshold
         then FAST_INTERVAL else DEFAULT_INTERVAL)
  {
    var c, p := Scalars(curr), ScalarsOrNone(prev);
    AnyExceedsMeansFast(c, p, threshold);
    AnyExceedsMeansSlow(c, p, threshold);
    assert forall i :: !Clashes(c, p, i);
    if exists i :: 0 <= i < |curr| && i < |prev| && prev[i].Some? && Abs(curr[i] - prev[i].value) > threshold {
      var i :| 0 <= i < |curr| && i < |prev| && prev[i].Some? && Abs(curr[i] - prev[i].value) > threshold;
      assert Exceeds(c, p, threshold, i);
    } else {
      assert forall i :: !Exceeds(c, p, threshold, i);
    }
  }

  /** A previous list of numbers and Nones as Python values. */
  function ScalarsOrNone(ps: seq<Option<real>>): (vs: seq<Option<Value>>)
    ensures |vs| == |ps|
    ensures forall i :: 0 <= i < |ps| ==> vs[i] == (if ps[i].Some? then Some(Num(ps[i].value)) else None)
  {
    seq(|ps|, i requires 0 <= i < |ps| => if ps[i].Some? then Some(Num(ps[i].value)) else None)
  }

  /** The comparison is strict: changes of at most the threshold keep the default interval. */
  lemma {:induction false} ChangeUpToThresholdIsSlow(curr: seq<real>, prev: seq<real>, threshold: real)
    requires forall i :: 0 <= i < |curr| && i < |prev| ==> Abs(curr[i] - prev[i]) <= threshold
    ensures CalculateDutyCycle(Scalars(curr), Remembered(Scalars(prev)), threshold) == Ok(DEFAULT_INTERVAL)
  {
    var c, p := Scalars(curr), Remembered(Scalars(prev));
    AnyExceedsMeansSlow(c, p, threshold);
    forall i ensures !Exceeds(c, p, threshold, i) && !Clashes(c, p, i) {
      if Compared(c, p, i) {
        assert Abs(curr[i] - prev[i]) <= threshold;
      }
    }
  }

  /** Binary sensors (soil moisture, light) read 0 or 1, so with their
      threshold of 1 and the strict comparison they never ask for the fast
      interval, whatever they read now and read before. */
  lemma BinaryCategoryNeverFast(curr: seq<real>, prev: seq<real>)
    requires forall i :: 0 <= i < |curr| ==> curr[i] == 0.0 || curr[i] == 1.0
    requires forall i :: 0 <= i < |prev| ==> prev[i] == 0.0 || prev[i] == 1.0
    ensures CalculateDutyCycle(Scalars(curr), Remembered(Scalars(prev)), SOIL_THRESHOLD) == Ok(DEFAULT_INTERVAL)
    ensures CalculateDutyCycle(Scalars(curr), Remembered(Scalars(prev)), LIGHT_THRESHOLD) == Ok(DEFAULT_INTERVAL)
  {
    ChangeUpToThresholdIsSlow(curr, prev, SOIL_THRESHOLD);
  }

  /** The concrete case: a binary change of exactly 1 against SOIL_THRESHOLD = 1. */
  lemma BinaryFlipIsSlow()
    ensures CalculateDutyCycle([Num(1.0)], [Some(Num(0.0))], SOIL_THRESHOLD) == Ok(DEFAULT_INTERVAL)
    ensures CalculateDutyCycle([Num(2.0)], [Some(Num(0.0))], SOIL_THRESHOLD) == Ok(FAST_INTERVAL)
  {
  }

  /** With no previous value anywhere (the soil and light state before the
      first cycle) every pair is skipped and the default interval is chosen,
      whatever the current readings are. */
  lemma {:induction false} NoPreviousIsSlow(curr: seq<Value>, prev: seq<Option<Value>>, threshold: real)
    requires forall i :: 0 <= i < |prev| ==> prev[i].None?
    ensures CalculateDutyCycle(curr, prev, threshold) == Ok(DEFAULT_INTERVAL)
  {
    AnyExceedsMeansSlow(curr, prev, threshold);
    assert forall i :: !Compared(curr, prev, i);
  }

  /** Only the first min(|curr|, |prev|) positions are looked at. */
  lemma {:induction false} ZipTruncates(curr: seq<Value>, prev: seq<Option<Value>>, threshold: real, n: nat)
    requires n == if |curr| < |prev| then |curr| else |prev|
    ensures CalculateDutyCycle(curr, prev, threshold) == CalculateDutyCycle(curr[..n], prev[..n], threshold)
    decreases n
  {
    if n > 0 {
      assert curr[..n][1..] == curr[1..][..n - 1];
      assert prev[..n][1..] == prev[1..][..n - 1];
      ZipTruncates(curr[1..], prev[1..], threshold, n - 1);
    }
  }

  /** Readings compared against themselves never trigger fast polling: the
      rule is only useful if it sees the state from before the update. */
  lemma UnchangedReadingsAreSlow(curr: seq<real>, threshold: real)
    requires threshold >= 0.0
    ensures CalculateDutyCycle(Scalars(curr), Remembered(Scalars(curr)), threshold) == Ok(DEFAULT_INTERVAL)
  {
    var c, p := Scalars(curr), Remembered(Scalars(curr));
    AnyExceedsMeansSlow(c, p, threshold);
    forall i ensures !Decisive(c, p, threshold, i) {
      if Compared(c, p, i) {
        assert c[i].n == p[i].value.n;
      }
    }
  }

  /** A DHT category's previous slots are tuples, never None (the initial
      `(None, None)` included), so its first pair is subtracted and raises. */
  lemma {:induction false} TuplePreviousRaises(curr: seq<Value>, prev: seq<Option<Value>>, threshold: real)
    requires |curr| > 0 && |prev| > 0
    requires prev[0].Some? && prev[0].value.Tuple?
    ensures CalculateDutyCycle(curr, prev, threshold) == Raised(TypeError)
  {
    assert Clashes(curr, prev, 0);
    FirstDecisivePair(curr, prev, threshold, 0);
  }
}
