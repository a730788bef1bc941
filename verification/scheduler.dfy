/** One pass through the loop of `gather_sensor_data` (app.py:81-136).

    The program keeps the previous readings of its four sensor categories in
    four module globals. Each pass reads the three pots of every category,
    averages each category, appends one row to the day's log file, decides
    a polling interval per category against the previous readings, takes
    the smallest, and only then overwrites the previous readings. The
    hardware reads, the clock and the sleep are outside the model: the
    readings, the timestamp and the date are parameters and the interval is
    returned.
 */
module Scheduler {
  import opened Values
  import opened DutyCycle
  import opened Averaging
  import opened CsvLog

  /** Number of pots read per category (app.py:88-102). */
  const POTS: nat := 3

  /** What one pass reads from the hardware. */
  datatype Readings = Readings(
    dht11: seq<DhtReading>, dht22: seq<DhtReading>,
    soil: seq<real>, light: seq<real>)

  /** One reading per pot in every category. */
  predicate ThreePots(r: Readings)
  {
    |r.dht11| == POTS && |r.dht22| == POTS && |r.soil| == POTS && |r.light| == POTS
  }

  /** The averaging of app.py:105-110: TypeError when a DHT component is
      None, the six averages otherwise. */
  function Averaged(r: Readings): (a: Outcome<Averages>)
    requires ThreePots(r)
    ensures a.Ok? <==>
      AllPresent(Temperatures(r.dht11)) && AllPresent(Humidities(r.dht11)) &&
      AllPresent(Temperatures(r.dht22)) && AllPresent(Humidities(r.dht22))
    ensures a.Raised? ==> a.error == TypeError
    ensures a.Ok? ==>
      && a.value.dht11Temp == AverageReadings(Present(Temperatures(r.dht11)))
      && a.value.dht11Humidity == AverageReadings(Present(Humidities(r.dht11)))
      && a.value.dht22Temp == AverageReadings(Present(Temperatures(r.dht22)))
      && a.value.dht22Humidity == AverageReadings(Present(Humidities(r.dht22)))
      && a.value.soil == AverageReadings(r.soil) && a.value.light == AverageReadings(r.light)
  {
    var t11 := AverageColumn(Temperatures(r.dht11));
    var h11 := AverageColumn(Humidities(r.dht11));
    var t22 := AverageColumn(Temperatures(r.dht22));
    var h22 := AverageColumn(Humidities(r.dht22));
    if t11.Raised? then Raised(t11.error)
    else if h11.Raised? then Raised(h11.error)
    else if t22.Raised? then Raised(t22.error)
    else if h22.Raised? then Raised(h22.error)
    else Ok(Averages(t11.value, h11.value, t22.value, h22.value,
                     AverageReadings(r.soil), AverageReadings(r.light)))
  }

  /** Python's `min` of four intervals. */
  function Min4(a: nat, b: nat, c: nat, d: nat): (m: nat)
    ensures m <= a && m <= b && m <= c && m <= d
    ensures m == a || m == b || m == c || m == d
  {
    var ab := if a <= b then a else b;
    var cd := if c <= d then c else d;
    if ab <= cd then ab else cd
  }

  /** The four category decisions of app.py:121-124, in program order.
      Both DHT categories are compared against TEMP_THRESHOLD. Each one is
      an interval or TypeError; a DHT category never asks for the fast
      interval, and soil or light raise only if a previous slot of theirs
      holds a tuple. */
  function CategoryDecisions(
    prevDht11: seq<Option<Value>>, prevDht22: seq<Option<Value>>,
    prevSoil: seq<Option<Value>>, prevLight: seq<Option<Value>>, r: Readings): (ds: seq<Outcome<nat>>)
    ensures |ds| == 4
    ensures forall k :: 0 <= k < 4 ==>
      ds[k] == Ok(FAST_INTERVAL) || ds[k] == Ok(DEFAULT_INTERVAL) || ds[k] == Raised(TypeError)
    ensures ds[0] != Ok(FAST_INTERVAL) && ds[1] != Ok(FAST_INTERVAL)
    ensures NoTuples(prevSoil) ==> ds[2].Ok?
    ensures NoTuples(prevLight) ==> ds[3].Ok?
  {
    [CalculateDutyCycle(Tuples(r.dht11), prevDht11, TEMP_THRESHOLD),
     CalculateDutyCycle(Tuples(r.dht22), prevDht22, TEMP_THRESHOLD),
     CalculateDutyCycle(Scalars(r.soil), prevSoil, SOIL_THRESHOLD),
     CalculateDutyCycle(Scalars(r.light), prevLight, LIGHT_THRESHOLD)]
  }

  /** Every previous slot is None or a number. */
  predicate NoTuples(ps: seq<Option<Value>>)
  {
    forall i :: 0 <= i < |ps| ==> ps[i].None? || ps[i].value.Num?
  }

  /** Every previous slot holds a DHT tuple: the state of a DHT category at
      start-up and after every update. */
  predicate TupleSlots(ps: seq<Option<Value>>)
  {
    |ps| > 0 && forall i :: 0 <= i < |ps| ==> ps[i].Some? && ps[i].value.Tuple?
  }

  /** The interval chosen at app.py:121-127: TypeError if a category
      raises, otherwise the fast interval exactly when some category asks
      for it and the default interval when none does. */
  function Decide(
    prevDht11: seq<Option<Value>>, prevDht22: seq<Option<Value>>,
    prevSoil: seq<Option<Value>>, prevLight: seq<Option<Value>>, r: Readings): (d: Outcome<nat>)
    ensures var ds := CategoryDecisions(prevDht11, prevDht22, prevSoil, prevLight, r);
      && (d.Ok? <==> forall k :: 0 <= k < 4 ==> ds[k].Ok?)
      && (d.Raised? ==> d.error == TypeError)
      && (d.Ok? ==> (d.value == FAST_INTERVAL <==> exists k :: 0 <= k < 4 && ds[k] == Ok(FAST_INTERVAL)))
      && (d.Ok? ==> (d.value == DEFAULT_INTERVAL <==> forall k :: 0 <= k < 4 ==> ds[k] == Ok(DEFAULT_INTERVAL)))
  {
    var ds := CategoryDecisions(prevDht11, prevDht22, prevSoil, prevLight, r);
    if ds[0].Raised? then Raised(ds[0].error)
    else if ds[1].Raised? then Raised(ds[1].error)
    else if ds[2].Raised? then Raised(ds[2].error)
    else if ds[3].Raised? then Raised(ds[3].error)
    else Ok(Min4(ds[0].value, ds[1].value, ds[2].value, ds[3].value))
  }

  /** The previous DHT readings at start-up: a `(None, None)` tuple per pot (app.py:42-43). */
  function InitialDhtPrevious(): (ps: seq<Option<Value>>)
    ensures |ps| == POTS
    ensures forall i :: 0 <= i < POTS ==> ps[i] == Some(Tuple(DhtReading(None, None)))
  {
    seq(POTS, i => Some(Tuple(DhtReading(None, None))))
  }

  /** The previous soil and light readings at start-up: None per pot (app.py:44-45). */
  function InitialScalarPrevious(): (ps: seq<Option<Value>>)
    ensures |ps| == POTS
    ensures forall i :: 0 <= i < POTS ==> ps[i] == None
  {
    seq(POTS, i => None)
  }

  /** A DHT category's previous slots are tuples at start-up and after
      every update, so whenever it holds a slot the pass raises TypeError at
      the first duty-cycle call (app.py:121), before any previous reading
      is overwritten. */
  lemma DhtTupleStateRaises(
    prevDht11: seq<Option<Value>>, prevDht22: seq<Option<Value>>,
    prevSoil: seq<Option<Value>>, prevLight: seq<Option<Value>>, r: Readings)
    requires ThreePots(r)
    requires |prevDht11| > 0 && prevDht11[0].Some? && prevDht11[0].value.Tuple?
    ensures Decide(prevDht11, prevDht22, prevSoil, prevLight, r) == Raised(TypeError)
  {
    TuplePreviousRaises(Tuples(r.dht11), prevDht11, TEMP_THRESHOLD);
  }

  /** At start-up the soil and light categories have no previous value and
      choose the default interval whatever is read. */
  lemma InitialScalarCategoriesSlow(r: Readings)
    ensures CalculateDutyCycle(Scalars(r.soil), InitialScalarPrevious(), SOIL_THRESHOLD) == Ok(DEFAULT_INTERVAL)
    ensures CalculateDutyCycle(Scalars(r.light), InitialScalarPrevious(), LIGHT_THRESHOLD) == Ok(DEFAULT_INTERVAL)
  {
    NoPreviousIsSlow(Scalars(r.soil), InitialScalarPrevious(), SOIL_THRESHOLD);
    NoPreviousIsSlow(Scalars(r.light), InitialScalarPrevious(), LIGHT_THRESHOLD);
  }

  /** The module globals `prev_dht11`, `prev_dht22`, `prev_soil`, `prev_light`. */
  class SensorLoop {
    var prevDht11: seq<Option<Value>>
    var prevDht22: seq<Option<Value>>
    var prevSoil: seq<Option<Value>>
    var prevLight: seq<Option<Value>>

    /** The DHT previous slots hold tuples, never None. */
    predicate DhtHistory()
      reads this
    {
      TupleSlots(prevDht11) && TupleSlots(prevDht22)
    }

    /** The state at import time (app.py:42-45). */
    constructor ()
      ensures prevDht11 == InitialDhtPrevious() && prevDht22 == InitialDhtPrevious()
      ensures prevSoil == InitialScalarPrevious() && prevLight == InitialScalarPrevious()
      ensures DhtHistory()
    {
      prevDht11 := InitialDhtPrevious();
      prevDht22 := InitialDhtPrevious();
      prevSoil := InitialScalarPrevious();
      prevLight := InitialScalarPrevious();
    }

    /** One pass of the loop body (app.py:105-133); the returned interval
        is what the pass sleeps for. Averaging raises before anything is
        written; otherwise the row is logged first, the decisions are taken
        against the previous readings held before the pass, and the
        previous readings are replaced only when no decision raised. */
    method Step(timestamp: string, date: string, r: Readings, log: LogDirectory) returns (outcome: Outcome<nat>)
      requires ThreePots(r)
      modifies this, log
      ensures Averaged(r).Raised? ==> outcome == Raised(TypeError) && log.files == old(log.files)
      ensures Averaged(r).Ok? ==>
        log.files == old(log.files)[LogPath(date) := AppendToFile(old(log.Lookup(LogPath(date))), LogRow(timestamp, Averaged(r).value))]
      ensures Averaged(r).Ok? ==> outcome == Decide(old(prevDht11), old(prevDht22), old(prevSoil), old(prevLight), r)
      ensures outcome.Ok? ==>
        prevDht11 == Remembered(Tuples(r.dht11)) && prevDht22 == Remembered(Tuples(r.dht22)) &&
        prevSoil == Remembered(Scalars(r.soil)) && prevLight == Remembered(Scalars(r.light))
      ensures outcome.Raised? ==>
        prevDht11 == old(prevDht11) && prevDht22 == old(prevDht22) &&
        prevSoil == old(prevSoil) && prevLight == old(prevLight)
      ensures old(log.Valid()) ==> log.Valid()
      ensures old(DhtHistory()) ==> outcome == Raised(TypeError) && DhtHistory()
    {
      if DhtHistory() {
        DhtTupleStateRaises(prevDht11, prevDht22, prevSoil, prevLight, r);
      }
      var averages := Averaged(r);
      if averages.Raised? {
        return Raised(averages.error);
      }
      var row := LogRow(timestamp, averages.value);
      log.Append(LogPath(date), row);

      outcome := ChooseInterval(r);
      if outcome.Ok? {
        Remember(r);
      }
    }

    /** The update of app.py:130-133: this pass's readings become the previous ones. */
    method Remember(r: Readings)
      modifies this
      ensures prevDht11 == Remembered(Tuples(r.dht11)) && prevDht22 == Remembered(Tuples(r.dht22))
      ensures prevSoil == Remembered(Scalars(r.soil)) && prevLight == Remembered(Scalars(r.light))
    {
      prevDht11 := Remembered(Tuples(r.dht11));
      prevDht22 := Remembered(Tuples(r.dht22));
      prevSoil := Remembered(Scalars(r.soil));
      prevLight := Remembered(Scalars(r.light));
    }

    /** The method form of `Decide`: the decisions of app.py:121-127,
        taken one category after the other against the previous readings
        held now; the first category that raises ends the pass. */
    method ChooseInterval(r: Readings) returns (outcome: Outcome<nat>)
      requires ThreePots(r)
      ensures outcome == Decide(prevDht11, prevDht22, prevSoil, prevLight, r)
    {
      ghost var decisions := CategoryDecisions(prevDht11, prevDht22, prevSoil, prevLight, r);
      var dht11Cycle := CalculateDutyCycle(Tuples(r.dht11), prevDht11, TEMP_THRESHOLD);
      assert decisions[0] == dht11Cycle;
      if dht11Cycle.Raised? {
        return Raised(dht11Cycle.error);
      }
      var dht22Cycle := CalculateDutyCycle(Tuples(r.dht22), prevDht22, TEMP_THRESHOLD);
      assert decisions[1] == dht22Cycle;
      if dht22Cycle.Raised? {
        return Raised(dht22Cycle.error);
      }
      var soilCycle := CalculateDutyCycle(Scalars(r.soil), prevSoil, SOIL_THRESHOLD);
      assert decisions[2] == soilCycle;
      if soilCycle.Raised? {
        return Raised(soilCycle.error);
      }
      var lightCycle := CalculateDutyCycle(Scalars(r.light), prevLight, LIGHT_THRESHOLD);
      assert decisions[3] == lightCycle;
      if lightCycle.Raised? {
        return Raised(lightCycle.error);
      }
      return Ok(Min4(dht11Cycle.value, dht22Cycle.value, soilCycle.value, lightCycle.value));
    }
  }

  /** The first pass after start-up, in a directory with no log file: the
      pass raises TypeError at app.py:121 every time; when every DHT
      component was read it has first created the day's file with the
      header and the row, and when one was not it has written nothing. */
  method FirstPass(timestamp: string, date: string, r: Readings) returns (outcome: Outcome<nat>, logged: seq<Row>)
    requires ThreePots(r)
    ensures outcome == Raised(TypeError)
    ensures Averaged(r).Ok? ==> logged == [Header(), LogRow(timestamp, Averaged(r).value)]
    ensures Averaged(r).Raised? ==> logged == []
  {
    var log := new LogDirectory();
    var loop := new SensorLoop();
    outcome := loop.Step(timestamp, date, r, log);
    var path := LogPath(date);
    logged := if path in log.files then log.files[path] else [];
  }
}
