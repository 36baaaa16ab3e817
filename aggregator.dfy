/**
 * The daily-aggregation pipeline shared by the three entry points: select
 * the rows of the listed sensors, add the `date` column, label the
 * stations, recode the sentinel, and average per date.
 */
module Aggregator {
  import opened Wrappers
  import opened Timestamp
  import opened Readings
  import opened Grouping

  /** What a call produces: the enriched per-reading table and the mean table. */
  datatype Tables = Tables(rows: seq<Row>, means: seq<DayMean>)

  /** A selected row is a row of the input whose sensor is listed. */
  lemma SelectedFrom(data: seq<Reading>, stations: set<int>, j: int)
    requires 0 <= j < |Select(data, stations)|
    ensures exists i :: 0 <= i < |data| && data[i] == Select(data, stations)[j] && data[i].id in stations
  {
    SelectMembers(data, stations, Select(data, stations)[j]);
  }

  /** Every input row of a listed sensor is selected. */
  lemma SelectedTo(data: seq<Reading>, stations: set<int>, i: int)
    requires 0 <= i < |data| && data[i].id in stations
    ensures exists j :: 0 <= j < |Select(data, stations)| && Select(data, stations)[j] == data[i]
  {
    SelectMembers(data, stations, data[i]);
  }

  /** Some selected row's stamp fails exactly when some listed sensor's stamp fails. */
  lemma SelectedStampsParse(data: seq<Reading>, stations: set<int>)
    ensures (exists j :: 0 <= j < |Select(data, stations)| && StampDate(Select(data, stations)[j].stamp).None?)
        <==> (exists i :: 0 <= i < |data| && data[i].id in stations && StampDate(data[i].stamp).None?)
  {
    var sel := Select(data, stations);
    if exists j :: 0 <= j < |sel| && StampDate(sel[j].stamp).None? {
      var j :| 0 <= j < |sel| && StampDate(sel[j].stamp).None?;
      SelectedFrom(data, stations, j);
    }
    if exists i :: 0 <= i < |data| && data[i].id in stations && StampDate(data[i].stamp).None? {
      var i :| 0 <= i < |data| && data[i].id in stations && StampDate(data[i].stamp).None?;
      SelectedTo(data, stations, i);
    }
  }

  /**
   * The generic aggregator, for a station list and the (id, label) pairs
   * that fill `Stazione` (none for the region-wide variant). None when a
   * selected row's `Data` does not parse.
   */
  function Aggregate(data: seq<Reading>, stations: set<int>, labels: seq<(int, string)>): (r: Option<Tables>)
    ensures r.None? <==>
      exists i :: 0 <= i < |data| && data[i].id in stations && StampDate(data[i].stamp).None?
    ensures r.Some? ==> |r.value.rows| == |Select(data, stations)|
    ensures r.Some? ==> forall j :: 0 <= j < |r.value.rows| ==>
      var x, row := Select(data, stations)[j], r.value.rows[j];
      row.id == x.id && row.stamp == x.stamp && StampDate(x.stamp) == Some(row.date) &&
      row.station == Labelled(labels, x.id, "") && row.value == Recode(x.value)
    ensures r.Some? ==> r.value.means == DailyMeans(r.value.rows)
  {
    SelectedStampsParse(data, stations);
    var dated :- DateRows(Select(data, stations));
    var rows := FinishAll(dated, labels);
    Some(Tables(rows, DailyMeans(rows)))
  }

  /**
   * The values a date's mean must average, read off the raw table: the
   * readings of listed sensors on that date that are neither missing nor
   * the sentinel, in row order.
   */
  function RawValuesOn(data: seq<Reading>, stations: set<int>, d: Date): seq<real> {
    if data == [] then []
    else
      var x := data[0];
      (if x.id in stations && StampDate(x.stamp) == Some(d) && x.value.Some? && x.value.value != SENTINEL
       then [x.value.value] else []) +
      RawValuesOn(data[1..], stations, d)
  }

  /**
   * What a mean table must be, stated against the raw table: dates strictly
   * ascending, one row for each date on which a listed sensor has a
   * reading, and each date's value the mean of that date's readings that
   * are neither missing nor the sentinel.
   */
  ghost predicate MeanTableOf(ms: seq<DayMean>, data: seq<Reading>, stations: set<int>) {
    (forall i, j :: 0 <= i < j < |ms| ==> Before(ms[i].date, ms[j].date)) &&
    (forall d :: (exists i :: 0 <= i < |ms| && ms[i].date == d) <==>
      (exists k :: 0 <= k < |data| && data[k].id in stations && StampDate(data[k].stamp) == Some(d))) &&
    (forall i :: 0 <= i < |ms| ==> ms[i].mean == Mean(RawValuesOn(data, stations, ms[i].date)))
  }

  /** Every reading of a listed sensor is in the enriched table, with its stamp and recoded value. */
  lemma ListedReadingsKept(data: seq<Reading>, stations: set<int>, labels: seq<(int, string)>, i: int)
    requires Aggregate(data, stations, labels).Some?
    requires 0 <= i < |data| && data[i].id in stations
    ensures exists row :: (row in Aggregate(data, stations, labels).value.rows &&
      row.id == data[i].id && row.stamp == data[i].stamp && row.value == Recode(data[i].value))
  {
    var t := Aggregate(data, stations, labels).value;
    var sel := Select(data, stations);
    SelectMembers(data, stations, data[i]);
    var j :| 0 <= j < |sel| && sel[j] == data[i];
    assert t.rows[j] in t.rows;
  }

  /** Every selected row belongs to a listed sensor. */
  lemma {:induction false} SelectedListed(data: seq<Reading>, stations: set<int>)
    ensures forall j :: 0 <= j < |Select(data, stations)| ==> Select(data, stations)[j].id in stations
  {
    if data != [] {
      SelectedListed(data[1..], stations);
    }
  }

  /** Each enriched row belongs to a listed sensor and carries that sensor's label. */
  lemma RowsLabelled(data: seq<Reading>, stations: set<int>, labels: seq<(int, string)>, t: Tables)
    requires Aggregate(data, stations, labels) == Some(t)
    ensures forall j :: 0 <= j < |t.rows| ==>
      t.rows[j].id in stations && t.rows[j].station == Labelled(labels, t.rows[j].id, "")
  {
    SelectedListed(data, stations);
  }

  /** No enriched row still carries the sentinel. */
  lemma NoSentinelLeft(data: seq<Reading>, stations: set<int>, labels: seq<(int, string)>)
    requires Aggregate(data, stations, labels).Some?
    ensures forall row :: row in Aggregate(data, stations, labels).value.rows ==> row.value != Some(SENTINEL)
  {
  }

  /** Dating a row in front of others. */
  lemma DateRowsCons(x: Reading, rest: seq<Reading>)
    requires DateRows([x] + rest).Some?
    ensures StampDate(x.stamp).Some? && DateRows(rest).Some?
    ensures DateRows([x] + rest).value == [Row(x.id, x.stamp, StampDate(x.stamp).value, "", x.value)] + DateRows(rest).value
  {
    assert ([x] + rest)[1..] == rest;
  }

  /** Finishing a row in front of others. */
  lemma FinishAllCons(row: Row, rows: seq<Row>, labels: seq<(int, string)>)
    ensures FinishAll([row] + rows, labels) == [Finish(row, labels)] + FinishAll(rows, labels)
  {
    assert ([row] + rows)[1..] == rows;
  }

  /** The pipeline over a listed sensor's row in front of others. */
  lemma EnrichKept(data: seq<Reading>, stations: set<int>, labels: seq<(int, string)>)
    requires |data| > 0 && data[0].id in stations
    requires DateRows(Select(data, stations)).Some?
    ensures StampDate(data[0].stamp).Some? && DateRows(Select(data[1..], stations)).Some?
    ensures FinishAll(DateRows(Select(data, stations)).value, labels) ==
      [Finish(Row(data[0].id, data[0].stamp, StampDate(data[0].stamp).value, "", data[0].value), labels)] +
      FinishAll(DateRows(Select(data[1..], stations)).value, labels)
  {
    var x := data[0];
    var rest := Select(data[1..], stations);
    assert Select(data, stations) == [x] + rest;
    DateRowsCons(x, rest);
    FinishAllCons(Row(x.id, x.stamp, StampDate(x.stamp).value, "", x.value), DateRows(rest).value, labels);
  }

  /** The pipeline skips a row of a sensor that is not listed. */
  lemma EnrichSkipped(data: seq<Reading>, stations: set<int>)
    requires |data| > 0 && data[0].id !in stations
    ensures Select(data, stations) == Select(data[1..], stations)
  {
  }

  /** The values averaged for a date, traced back to the raw table. */
  lemma {:induction false} EnrichedValues(data: seq<Reading>, stations: set<int>, labels: seq<(int, string)>, d: Date)
    requires DateRows(Select(data, stations)).Some?
    ensures ValuesOn(FinishAll(DateRows(Select(data, stations)).value, labels), d) == RawValuesOn(data, stations, d)
  {
    if data != [] {
      if data[0].id in stations {
        EnrichKept(data, stations, labels);
        EnrichedValues(data[1..], stations, labels, d);
        var rows := FinishAll(DateRows(Select(data, stations)).value, labels);
        assert rows[1..] == FinishAll(DateRows(Select(data[1..], stations)).value, labels);
      } else {
        EnrichSkipped(data, stations);
        EnrichedValues(data[1..], stations, labels, d);
      }
    }
  }

  /** Rows dated from the selected readings fall on exactly the listed sensors' dates. */
  lemma EnrichedDates(data: seq<Reading>, stations: set<int>, rows: seq<Row>, d: Date)
    requires |rows| == |Select(data, stations)|
    requires forall j :: 0 <= j < |rows| ==> StampDate(Select(data, stations)[j].stamp) == Some(rows[j].date)
    ensures d in Dates(rows) <==>
      exists k :: 0 <= k < |data| && data[k].id in stations && StampDate(data[k].stamp) == Some(d)
  {
    if d in Dates(rows) {
      RowDateListed(data, stations, rows, d);
    }
    if exists k :: 0 <= k < |data| && data[k].id in stations && StampDate(data[k].stamp) == Some(d) {
      var k :| 0 <= k < |data| && data[k].id in stations && StampDate(data[k].stamp) == Some(d);
      ListedDateRow(data, stations, rows, k);
    }
  }

  /** A date in the rows is the date of some listed reading. */
  lemma RowDateListed(data: seq<Reading>, stations: set<int>, rows: seq<Row>, d: Date)
    requires |rows| == |Select(data, stations)|
    requires forall j :: 0 <= j < |rows| ==> StampDate(Select(data, stations)[j].stamp) == Some(rows[j].date)
    requires d in Dates(rows)
    ensures exists k :: 0 <= k < |data| && data[k].id in stations && StampDate(data[k].stamp) == Some(d)
  {
    var j :| 0 <= j < |rows| && rows[j].date == d;
    SelectedFrom(data, stations, j);
  }

  /** The date of a listed reading is a date in the rows. */
  lemma ListedDateRow(data: seq<Reading>, stations: set<int>, rows: seq<Row>, k: int)
    requires |rows| == |Select(data, stations)|
    requires forall j :: 0 <= j < |rows| ==> StampDate(Select(data, stations)[j].stamp) == Some(rows[j].date)
    requires 0 <= k < |data| && data[k].id in stations && StampDate(data[k].stamp).Some?
    ensures StampDate(data[k].stamp).value in Dates(rows)
  {
    var sel := Select(data, stations);
    SelectedTo(data, stations, k);
    var j :| 0 <= j < |sel| && sel[j] == data[k];
    assert rows[j].date == StampDate(data[k].stamp).value;
  }

  /** The aggregator's mean table against the raw table. */
  lemma MeansFromRawData(data: seq<Reading>, stations: set<int>, labels: seq<(int, string)>, t: Tables)
    requires Aggregate(data, stations, labels) == Some(t)
    ensures MeanTableOf(t.means, data, stations)
  {
    AllEnrichedDates(data, stations, labels, t);
    AllEnrichedValues(data, stations, labels, t);
    MeansOfRows(data, stations, t.rows, t.means);
  }

  /** The mean table's properties, carried over from the rows to the raw table. */
  lemma MeansOfRows(data: seq<Reading>, stations: set<int>, rows: seq<Row>, ms: seq<DayMean>)
    requires ms == DailyMeans(rows)
    requires forall d :: d in Dates(rows) <==>
      exists k :: 0 <= k < |data| && data[k].id in stations && StampDate(data[k].stamp) == Some(d)
    requires forall d :: ValuesOn(rows, d) == RawValuesOn(data, stations, d)
    ensures MeanTableOf(ms, data, stations)
  {
  }

  lemma AllEnrichedDates(data: seq<Reading>, stations: set<int>, labels: seq<(int, string)>, t: Tables)
    requires Aggregate(data, stations, labels) == Some(t)
    ensures forall d :: d in Dates(t.rows) <==>
      exists k :: 0 <= k < |data| && data[k].id in stations && StampDate(data[k].stamp) == Some(d)
  {
    forall d ensures d in Dates(t.rows) <==>
      exists k :: 0 <= k < |data| && data[k].id in stations && StampDate(data[k].stamp) == Some(d)
    {
      EnrichedDates(data, stations, t.rows, d);
    }
  }

  lemma AllEnrichedValues(data: seq<Reading>, stations: set<int>, labels: seq<(int, string)>, t: Tables)
    requires Aggregate(data, stations, labels) == Some(t)
    ensures forall d :: ValuesOn(t.rows, d) == RawValuesOn(data, stations, d)
  {
    assert t.rows == FinishAll(DateRows(Select(data, stations)).value, labels);
    forall d ensures ValuesOn(t.rows, d) == RawValuesOn(data, stations, d) {
      EnrichedValues(data, stations, labels, d);
    }
  }

  /** Rows of sensors outside the list change neither table. */
  lemma OtherSensorsIgnored(a: seq<Reading>, x: Reading, b: seq<Reading>,
                            stations: set<int>, labels: seq<(int, string)>)
    requires x.id !in stations
    ensures Aggregate(a + [x] + b, stations, labels) == Aggregate(a + b, stations, labels)
  {
    SelectConcat(a + [x], b, stations);
    SelectConcat(a, [x], stations);
    SelectConcat(a, b, stations);
    assert Select([x], stations) == [];
    assert Select(a + [x] + b, stations) == Select(a + b, stations);
  }

  /** When no row belongs to a listed sensor, both tables are empty. */
  lemma EmptySelection(data: seq<Reading>, stations: set<int>, labels: seq<(int, string)>)
    requires forall i :: 0 <= i < |data| ==> data[i].id !in stations
    ensures Aggregate(data, stations, labels) == Some(Tables([], []))
  {
    SelectNone(data, stations);
  }

  /** A date whose readings are all missing or the sentinel averages nothing. */
  lemma {:induction false} NothingToAverage(data: seq<Reading>, stations: set<int>, d: Date)
    requires forall i :: 0 <= i < |data| && data[i].id in stations && StampDate(data[i].stamp) == Some(d) ==>
      data[i].value.None? || data[i].value == Some(SENTINEL)
    ensures RawValuesOn(data, stations, d) == []
    ensures Mean(RawValuesOn(data, stations, d)).None?
  {
    if data != [] {
      assert forall i :: 0 <= i < |data[1..]| ==> data[1..][i] == data[i + 1];
      NothingToAverage(data[1..], stations, d);
    }
  }

  /** The first two rows of an ascending table are not both on day `d`. */
  lemma FirstTwoDiffer(ms: seq<DayMean>, d: Date)
    ensures |ms| > 1 && Before(ms[0].date, ms[1].date) ==> ms[0].date != d || ms[1].date != d
  {
  }

  /**
   * When every listed sensor's reading falls on day `d`, and there is at
   * least one, the mean table is the single row for `d`.
   */
  lemma SingleDay(ms: seq<DayMean>, data: seq<Reading>, stations: set<int>, d: Date, k: int)
    requires MeanTableOf(ms, data, stations)
    requires 0 <= k < |data| && data[k].id in stations && StampDate(data[k].stamp) == Some(d)
    requires forall i :: 0 <= i < |data| && data[i].id in stations ==> StampDate(data[i].stamp) == Some(d)
    ensures ms == [DayMean(d, Mean(RawValuesOn(data, stations, d)))]
  {
    assert exists i :: 0 <= i < |ms| && ms[i].date == d;
    forall i | 0 <= i < |ms| ensures ms[i].date == d {
      assert exists k :: 0 <= k < |data| && data[k].id in stations && StampDate(data[k].stamp) == Some(ms[i].date);
    }
    FirstTwoDiffer(ms, d);
  }

  /**
   * `calculate_sensor_avg`: the aggregator with no labels, returning only
   * the mean table.
   */
  function CalculateSensorAvg(data: seq<Reading>, stations: set<int>): (r: Option<seq<DayMean>>)
    ensures r.None? <==>
      exists i :: 0 <= i < |data| && data[i].id in stations && StampDate(data[i].stamp).None?
    ensures r.Some? ==> MeanTableOf(r.value, data, stations)
  {
    match Aggregate(data, stations, [])
    case None => None
    case Some(t) =>
      MeansFromRawData(data, stations, [], t);
      Some(t.means)
  }
}
