/** The values the sensor program manipulates, as Python sees them.

    The program never declares types: a soil or light reading is a number
    (the 0/1 returned by a GPIO input), a DHT reading is a
    (temperature, humidity) tuple whose components are None when the driver
    gave up, and a "previous reading" slot holds either Python's None or one
    of those values. Arithmetic on a tuple raises TypeError; that error is
    modelled as a value so that the code paths that raise it can be stated.
 */
module Values {

  datatype Option<+T> = None | Some(value: T)

  /** The exceptions the modelled code can raise. */
  datatype PyError = TypeError

  /** A computation that either returns a value or raises. */
  datatype Outcome<+T> = Ok(value: T) | Raised(error: PyError)

  /** What one DHT11/DHT22 read returns: `(temperature, humidity)`,
      either component None when the driver could not read the sensor. */
  datatype DhtReading = DhtReading(temperature: Option<real>, humidity: Option<real>)

  /** A reading as a Python value: a number, or a DHT tuple. */
  datatype Value = Num(n: real) | Tuple(reading: DhtReading)

  /** Python's `abs` on numbers. */
  function Abs(x: real): (r: real)
    ensures r >= 0.0
    ensures r == x || r == -x
  {
    if x < 0.0 then -x else x
  }

  /** Scalar readings as Python numbers. */
  function Scalars(xs: seq<real>): (vs: seq<Value>)
    ensures |vs| == |xs|
    ensures forall i :: 0 <= i < |xs| ==> vs[i] == Num(xs[i])
  {
    seq(|xs|, i requires 0 <= i < |xs| => Num(xs[i]))
  }

  /** DHT readings as Python tuples. */
  function Tuples(rs: seq<DhtReading>): (vs: seq<Value>)
    ensures |vs| == |rs|
    ensures forall i :: 0 <= i < |rs| ==> vs[i] == Tuple(rs[i])
  {
    seq(|rs|, i requires 0 <= i < |rs| => Tuple(rs[i]))
  }

  /** A list of readings stored as the previous state: no slot is None. */
  function Remembered(vs: seq<Value>): (ps: seq<Option<Value>>)
    ensures |ps| == |vs|
    ensures forall i :: 0 <= i < |vs| ==> ps[i] == Some(vs[i])
  {
    seq(|vs|, i requires 0 <= i < |vs| => Some(vs[i]))
  }
}
