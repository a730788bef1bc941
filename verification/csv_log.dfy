/** The daily log file and `log_data_to_csv` (app.py:70-78, 113-118).

    A directory of log files is a map from path to the rows of the file; a
    path is in the map exactly when the file exists. Cells are kept as the
    text or number the program hands to the CSV writer; how the writer
    quotes them and how Python prints a float are not modelled.
 */
module CsvLog {
  import opened Values

  datatype Cell = Text(s: string) | Number(x: real)

  type Row = seq<Cell>

  /** The column names of the header row, in order. */
  const COLUMNS: seq<string> := [
    "Timestamp", "DHT11 Avg Temp", "DHT11 Avg Humidity", "DHT22 Avg Temp",
    "DHT22 Avg Humidity", "Avg Soil Moisture", "Avg Light Intensity"
  ]

  /** The header row: every column name as text. */
  function Header(): (h: Row)
    ensures |h| == |COLUMNS| == 7
    ensures forall k :: 0 <= k < |h| ==> h[k] == Text(COLUMNS[k])
  {
    seq(|COLUMNS|, k requires 0 <= k < |COLUMNS| => Text(COLUMNS[k]))
  }

  /** The six averages of one cycle. */
  datatype Averages = Averages(
    dht11Temp: real, dht11Humidity: real,
    dht22Temp: real, dht22Humidity: real,
    soil: real, light: real)

  /** The average a column of the log stands for, looked up by its name. */
  function AverageNamed(a: Averages, column: string): Option<real>
  {
    if column == "DHT11 Avg Temp" then Some(a.dht11Temp)
    else if column == "DHT11 Avg Humidity" then Some(a.dht11Humidity)
    else if column == "DHT22 Avg Temp" then Some(a.dht22Temp)
    else if column == "DHT22 Avg Humidity" then Some(a.dht22Humidity)
    else if column == "Avg Soil Moisture" then Some(a.soil)
    else if column == "Avg Light Intensity" then Some(a.light)
    else None
  }

  /** The data row of one cycle (app.py:113-116): the timestamp, then each
      average under the column the header gives it. */
  function LogRow(timestamp: string, a: Averages): (row: Row)
    ensures |row| == |COLUMNS|
    ensures row[0] == Text(timestamp)
    ensures forall k :: 1 <= k < |row| ==> AverageNamed(a, COLUMNS[k]).Some? && row[k] == Number(AverageNamed(a, COLUMNS[k]).value)
  {
    [Text(timestamp), Number(a.dht11Temp), Number(a.dht11Humidity),
     Number(a.dht22Temp), Number(a.dht22Humidity), Number(a.soil), Number(a.light)]
  }

  /** A row shaped like the program's data rows: a text cell, then six numbers. */
  predicate IsDataRow(row: Row)
  {
    |row| == |COLUMNS| && row[0].Text? && forall k :: 1 <= k < |row| ==> row[k].Number?
  }

  /** A data row is never mistaken for the header. */
  lemma DataRowIsNotHeader(row: Row)
    requires IsDataRow(row)
    ensures row != Header()
  {
    assert row[1].Number? && Header()[1].Text?;
  }

  /** A log file the program wrote: one header, then data rows. */
  predicate WellFormed(rows: seq<Row>)
  {
    |rows| > 0 && rows[0] == Header() && forall i :: 1 <= i < |rows| ==> IsDataRow(rows[i])
  }

  /** The file name for a calendar date, `sensor_log_<date>.csv` (app.py:118). */
  function LogPath(date: string): (path: string)
    ensures |path| == |date| + 15
    ensures path[11..|path| - 4] == date
  {
    "sensor_log_" + date + ".csv"
  }

  /** Two different dates name two different files, so a row logged just
      before midnight and one logged just after it land in different files. */
  lemma LogPathInjective(d1: string, d2: string)
    ensures LogPath(d1) == LogPath(d2) <==> d1 == d2
  {
  }

  /** The file's rows after `log_data_to_csv` appended `row`: a file that
      did not exist gets the header first, an existing one only the row. */
  function AppendToFile(file: Option<seq<Row>>, row: Row): (rows: seq<Row>)
    ensures |rows| > 0 && rows[|rows| - 1] == row
    ensures file.None? ==> rows == [Header(), row]
    ensures file.Some? ==> rows[..|rows| - 1] == file.value
  {
    match file
    case None => [Header(), row]
    case Some(existing) => existing + [row]
  }

  /** How many header rows a file holds. */
  function HeaderCount(rows: seq<Row>): nat
  {
    multiset(rows)[Header()]
  }

  /** Appending a data row to a well-formed file, or creating the file with
      it, leaves a well-formed file that holds exactly one header. */
  lemma {:induction false} AppendKeepsOneHeader(file: Option<seq<Row>>, row: Row)
    requires file.Some? ==> WellFormed(file.value)
    requires IsDataRow(row)
    ensures WellFormed(AppendToFile(file, row))
    ensures HeaderCount(AppendToFile(file, row)) == 1
  {
    var rows := AppendToFile(file, row);
    DataRowIsNotHeader(row);
    forall i | 1 <= i < |rows| ensures IsDataRow(rows[i]) && rows[i] != Header() {
      if i < |rows| - 1 {
        assert rows[i] == file.value[i];
      }
      DataRowIsNotHeader(rows[i]);
    }
    assert rows == [rows[0]] + rows[1..];
    assert Header() !in rows[1..];
  }

  /** The files of a working directory. */
  class LogDirectory {
    var files: map<string, seq<Row>>

    /** Every log file in the directory was written by the program. */
    ghost predicate Valid()
      reads this
    {
      forall p :: p in files ==> WellFormed(files[p])
    }

    /** A directory with no log file yet. */
    constructor ()
      ensures files == map[] && Valid()
    {
      files := map[];
    }

    /** Whether `path` names an existing file (`os.path.isfile`). */
    function Lookup(path: string): (file: Option<seq<Row>>)
      reads this
      ensures file.Some? <==> path in files
      ensures file.Some? ==> file.value == files[path]
    {
      if path in files then Some(files[path]) else None
    }

    /** `log_data_to_csv(path, row)`: append the header if the file did not
        exist, then the row; no other file changes. */
    method Append(path: string, row: Row)
      modifies this
      ensures files == old(files)[path := AppendToFile(old(Lookup(path)), row)]
      ensures old(Valid()) && IsDataRow(row) ==> Valid()
    {
      var existing := Lookup(path);
      ghost var was := files;
      files := files[path := AppendToFile(existing, row)];
      if old(Valid()) && IsDataRow(row) {
        AppendKeepsOneHeader(existing, row);
        assert forall p :: p in was ==> WellFormed(was[p]);
      }
    }
  }
}
