# Adaptive sensor polling: a Dafny model

This project models the decision logic of a Raspberry Pi sensor logger. The logger reads temperature and humidity (DHT11 and DHT22), soil moisture and light in three pots. It averages each category, appends a row to a daily CSV file, and picks how long to sleep before the next pass. It chooses 60 seconds when some reading changed by more than its category's threshold, and 300 seconds otherwise.

The model keeps the program's Python semantics where they decide the outcome:

- A "previous" slot is either Python's None or a value. A value is a number (soil, light) or a DHT `(temperature, humidity)` tuple.
- `calculate_duty_cycle` is the left-to-right `any` over `zip`. It skips slots whose previous value is None and stops at the first pair that exceeds the threshold. Subtracting a tuple raises TypeError, and that is modelled as an outcome.
- `average_readings` is `sum / len` over real numbers. A DHT component that the driver returned as None makes `sum` raise TypeError.
- The log directory maps each path to its rows; a path is present exactly when the file exists. `log_data_to_csv` adds the 7-column header only to a file that did not exist, and then always appends the data row.
- The four `prev_*` globals are the fields of a class. One pass of the loop is a method. It averages, logs, decides against the old previous readings and takes the minimum. Only after that does it overwrite the previous readings.

Consequences the model proves:

- The DHT categories' previous slots are tuples, never None: `(None, None)` at start-up and the last readings afterwards. `Scheduler.SensorLoop.DhtHistory` states this. The constructor establishes it and `Scheduler.SensorLoop.Step` preserves it. In every such state a pass raises TypeError, because the DHT duty-cycle call subtracts tuples (`Scheduler.DhtTupleStateRaises`). So the previous readings are never updated.
- The first pass after start-up therefore logs its row (after the header) and then raises before the previous readings are updated (`Scheduler.FirstPass`).
- The soil and light sensors read 0 or 1, and their threshold is 1. Because the comparison is strict, they never ask for the fast interval.

Behaviour of the code worth knowing:

- An unavailable DHT reading (a None component) is not excluded from the average: `sum` raises TypeError on it.
- The `(None, None)` start-up value of the DHT categories is a tuple, not None, so the duty-cycle rule does not skip it.
- The previous readings are overwritten before the sleep.

## Model

| member | source | states |
|---|---|---|
| `DutyCycle.Delta` | app.py:66 | `curr - prev` is defined exactly when both operands are numbers, and then it is their difference; otherwise it raises |
| `DutyCycle.AnyExceeds` | app.py:66 | the left-to-right `any` raises only TypeError; when every current value is a number and every previous slot is None or a number it does not raise; when every current value is a tuple it never answers yes (the AnyExceedsMeans lemmas give its full meaning) |
| `DutyCycle.CalculateDutyCycle` | app.py:65-68 | the result is either 60 or 300, or it raises TypeError |
| `DutyCycle.FirstDecisivePair` | app.py:66 | the first zipped pair that exceeds or raises decides the answer of `any`: it exceeds gives yes, it raises gives TypeError, and none among the zipped pairs gives no |
| `DutyCycle.AnyExceedsMeansFast` | app.py:66-67 | the answer is yes exactly when some compared pair (previous not None) differs by more than the threshold and no earlier compared pair raises |
| `DutyCycle.AnyExceedsMeansRaise` | app.py:66 | the rule raises exactly when some compared pair holds a tuple and no earlier compared pair exceeds the threshold |
| `DutyCycle.AnyExceedsMeansSlow` | app.py:66-68 | the answer is no exactly when no compared pair exceeds or raises |
| `DutyCycle.ScalarDutyCycle` | app.py:65-68 | on numeric readings the rule never raises; it returns 60 exactly when some zipped pair with a non-None previous value has an absolute change strictly above the threshold, and 300 otherwise |
| `DutyCycle.ChangeUpToThresholdIsSlow` | app.py:66-68 | the comparison is strict: if every change is at most the threshold, the result is 300 |
| `DutyCycle.BinaryFlipIsSlow` | app.py:66 | a 0-to-1 change against SOIL_THRESHOLD = 1 gives 300; a change of 2 gives 60 |
| `DutyCycle.BinaryCategoryNeverFast` | app.py:38-39 | binary soil and light readings with threshold 1 always give 300, whatever the current and previous readings are |
| `DutyCycle.NoPreviousIsSlow` | app.py:66-68 | when every previous slot is None, the result is 300 for any current readings |
| `DutyCycle.ZipTruncates` | app.py:66 | only the first min(len(curr), len(prev)) positions affect the result |
| `DutyCycle.UnchangedReadingsAreSlow` | app.py:121-133 | readings compared with themselves give 300, which is why the decisions must see the state from before the update |
| `DutyCycle.TuplePreviousRaises` | app.py:66 | when the first previous slot is a tuple, the rule raises TypeError |
| `Averaging.Sum` | app.py:62 | Python's `sum` of readings none of which is negative is not negative |
| `Averaging.AverageReadings` | app.py:61-62 | the mean times the number of readings equals their sum |
| `Averaging.SumBounds` | app.py:62 | the sum of n readings between lo and hi lies between n·lo and n·hi |
| `Averaging.MeanBounds` | app.py:61-62 | the average lies between any lower and any upper bound of the readings |
| `Averaging.MeanOfEqualReadings` | app.py:61-62 | readings that all agree average to that value |
| `Averaging.AverageExamples` | app.py:61-62 | [20, 22, 24] averages to 22, and [0, 1, 1] averages to 2/3, not to a digital state |
| `Averaging.AverageColumn` | app.py:105-108 | averaging a DHT column succeeds exactly when no component is None, and then gives the mean of the components; otherwise it raises TypeError |
| `Averaging.Temperatures` | app.py:105-108 | `[r[0] for r in readings]`: one entry per pot, in order, each the temperature component of that pot's reading, None included |
| `Averaging.Humidities` | app.py:105-108 | `[r[1] for r in readings]`: one entry per pot, in order, each the humidity component of that pot's reading, None included |
| `CsvLog.Header` | app.py:77 | the header is the 7 column names, in order, as text |
| `CsvLog.LogRow` | app.py:113-116 | the data row has 7 cells: the timestamp first, then each cell is the average named by the header's column at that position |
| `CsvLog.LogPath` | app.py:118 | the path is `sensor_log_` + date + `.csv`, and the date can be read back from it |
| `CsvLog.LogPathInjective` | app.py:118 | two dates give the same path exactly when they are equal, so rows logged on either side of midnight go to different files |
| `CsvLog.AppendToFile` | app.py:71-78 | the appended row comes last; a missing file becomes exactly [header, row]; an existing file keeps its rows in front |
| `CsvLog.AppendKeepsOneHeader` | app.py:72-78 | appending a data row to a file the program wrote, or creating the file with it, leaves exactly one header row, at the front, followed by data rows |
| `CsvLog.LogDirectory.Lookup` | app.py:72 | a file exists exactly when its path is in the directory |
| `CsvLog.LogDirectory.Append` | app.py:71-78 | only the named file changes, and it becomes `AppendToFile` of its old contents (or of its absence); the directory stays well formed |
| `Scheduler.Averaged` | app.py:105-110 | averaging succeeds exactly when every DHT component is present, and then each of the six averages is the mean of its own category's readings (the temperatures, the humidities, the soil or the light values) |
| `Scheduler.Min4` | app.py:127 | the result is one of the four intervals and no larger than any of them |
| `Scheduler.CategoryDecisions` | app.py:121-124 | the four decisions, in program order, are each 60, 300 or TypeError; the two DHT decisions are never 60; soil or light raise only when one of their previous slots holds a tuple |
| `Scheduler.Decide` | app.py:121-127 | the pass raises exactly when some category raises; otherwise the interval is 60 exactly when some category asks for 60, and 300 exactly when all four ask for 300 |
| `Scheduler.InitialDhtPrevious` | app.py:42-43 | at start-up every DHT previous slot is the tuple (None, None), not None |
| `Scheduler.InitialScalarPrevious` | app.py:44-45 | at start-up every soil and light previous slot is None |
| `Scheduler.DhtTupleStateRaises` | app.py:121-122 | when the DHT11 previous slots are tuples, the pass's decision raises TypeError |
| `Scheduler.InitialScalarCategoriesSlow` | app.py:44-45 | at start-up the soil and light categories choose 300 whatever is read |
| `Scheduler.SensorLoop.constructor` | app.py:42-45 | the previous readings start as (None, None) tuples for DHT and None for soil and light, so the DHT slots hold tuples (`DhtHistory`) |
| `Scheduler.SensorLoop.Step` | app.py:105-133 | If averaging raises, nothing is written. Otherwise the day's file gets the header (only if new) and then the row, and the outcome is the decision taken against the previous readings from before the pass. The previous readings become this pass's readings exactly when the pass returns an interval, and stay unchanged when it raises. From a state whose DHT slots hold tuples, the pass raises TypeError and the DHT slots still hold tuples. |
| `Scheduler.SensorLoop.ChooseInterval` | app.py:121-127 | the method form of `Decide`: taking the four decisions one after the other against the current previous readings gives exactly `Decide`: the first category that raises ends the pass, otherwise the result is the min of the four |
| `Scheduler.SensorLoop.Remember` | app.py:130-133 | each previous-reading field becomes this pass's readings for its category, with no slot None |
| `Scheduler.FirstPass` | app.py:81-124 | the first pass from start-up always raises TypeError; it leaves [header, row] in a fresh log file when every DHT component was read, and writes nothing otherwise |

## Left out

- Hardware access is not modelled: the DHT driver's `read_retry`, `GPIO.input` and the GPIO pin setup are replaced by readings passed in as parameters.
- Time is not modelled: `datetime.now`, `strftime` and `time.sleep` are replaced by timestamp and date strings passed in, and the returned interval stands for the sleep.
- Only one pass of the unbounded `while True` loop is modelled.
- The midnight-watch thread in `main` is not modelled. It only sleeps and has no effect on what is logged.
- Real file I/O and the `csv` module's quoting are not modelled. Floats are not formatted as text; cells keep the number they were given.
- Values are Dafny reals. IEEE-754 rounding in sums, means and differences is not modelled.
- Errors from the file system, and the ZeroDivisionError of an empty reading list, are not modelled. Every pass reads exactly three pots, which is the precondition of `Scheduler.SensorLoop.Step`.
- `HUMIDITY_THRESHOLD` is declared but never used, exactly as in the program: both DHT categories are compared against `TEMP_THRESHOLD`.
