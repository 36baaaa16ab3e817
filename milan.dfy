/**
 * The two Milan entry points, `pm25_sensors_avg` and `pm10_sensors_avg`,
 * as they run: on a copy of the listed sensors' rows, a `date` column is
 * added, `Stazione` starts empty and is filled by one `.loc` assignment
 * per (id, label) pair, and `Valore` is overwritten with the sentinel
 * recoded. Each step changes the row table in place; together they
 * compute exactly what `Aggregator.Aggregate` describes.
 */
module Milan {
  import opened Wrappers
  import opened Timestamp
  import opened Readings
  import opened Grouping
  import opened Aggregator

  /** The PM2.5 sensors: via Senato, viale Marche, Pascal Città Studi. */
  const PM25_STATIONS: set<int> := {17122, 20529, 10283}

  const PM25_LABELS: seq<(int, string)> :=
    [(17122, "via Senato"), (20529, "viale Marche"), (10283, "Pascal Citt\U{E0} Studi")]

  /** The PM10 sensors; the last one is via Verziere. */
  const PM10_STATIONS: set<int> := {10320, 20429, 10273, 6956}

  const PM10_LABELS: seq<(int, string)> :=
    [(10320, "via Senato"), (20429, "viale Marche"), (10273, "Pascal Citt\U{E0} Studi"), (6956, "Verziere")]

  /** Labelling with one more pair: that pair's assignment runs last. */
  lemma LabelledSnoc(labels: seq<(int, string)>, k: nat, id: int, current: string)
    requires k < |labels|
    ensures Labelled(labels[..k + 1], id, current) ==
      if labels[k].0 == id then labels[k].1 else Labelled(labels[..k], id, current)
  {
    assert labels[..k + 1][..k] == labels[..k];
  }

  /**
   * The `for condition, value in zip(conditions, values)` loop: for each
   * pair in turn, every row with that id gets that label. Nothing but the
   * `station` column changes.
   */
  method ApplyLabels(rows: array<Row>, labels: seq<(int, string)>)
    modifies rows
    ensures forall i :: 0 <= i < rows.Length ==>
      rows[i] == old(rows[i]).(station := Labelled(labels, old(rows[i]).id, old(rows[i]).station))
  {
    for k := 0 to |labels|
      invariant forall i :: 0 <= i < rows.Length ==>
        rows[i] == old(rows[i]).(station := Labelled(labels[..k], old(rows[i]).id, old(rows[i]).station))
    {
      var id, name := labels[k].0, labels[k].1;
      for i := 0 to rows.Length
        invariant forall j :: 0 <= j < i ==>
          rows[j] == old(rows[j]).(station := Labelled(labels[..k + 1], old(rows[j]).id, old(rows[j]).station))
        invariant forall j :: i <= j < rows.Length ==>
          rows[j] == old(rows[j]).(station := Labelled(labels[..k], old(rows[j]).id, old(rows[j]).station))
      {
        LabelledSnoc(labels, k, old(rows[i]).id, old(rows[i]).station);
        if rows[i].id == id {
          rows[i] := rows[i].(station := name);
        }
      }
    }
    assert labels[..|labels|] == labels;
  }

  /** `np.where(Valore == -9999.0, nan, Valore)` over the whole column. */
  method RecodeColumn(rows: array<Row>)
    modifies rows
    ensures forall i :: 0 <= i < rows.Length ==> rows[i] == old(rows[i]).(value := Recode(old(rows[i]).value))
  {
    for i := 0 to rows.Length
      invariant forall j :: 0 <= j < i ==> rows[j] == old(rows[j]).(value := Recode(old(rows[j]).value))
      invariant forall j :: i <= j < rows.Length ==> rows[j] == old(rows[j])
    {
      rows[i] := rows[i].(value := Recode(rows[i].value));
    }
  }

  /**
   * The body shared by the two Milan functions. The caller's table is
   * only read: the work happens on a fresh copy of the selected rows.
   */
  method SensorsAvg(data: array<Reading>, stations: set<int>, labels: seq<(int, string)>) returns (r: Option<Tables>)
    ensures r == Aggregate(data[..], stations, labels)
    ensures data[..] == old(data[..])
  {
    var selected := Select(data[..], stations);
    var dated := DateRows(selected);
    if dated.None? {
      return None;
    }
    var rows := dated.value;
    var table := new Row[|rows|](i requires 0 <= i < |rows| => rows[i]);
    ApplyLabels(table, labels);
    RecodeColumn(table);
    assert table[..] == FinishAll(rows, labels) by {
      forall i | 0 <= i < |rows| ensures table[i] == Finish(rows[i], labels) {
      }
    }
    return Some(Tables(table[..], DailyMeans(table[..])));
  }

  /** `pm25_sensors_avg`. */
  method Pm25SensorsAvg(data: array<Reading>) returns (r: Option<Tables>)
    ensures r == Aggregate(data[..], PM25_STATIONS, PM25_LABELS)
  {
    r := SensorsAvg(data, PM25_STATIONS, PM25_LABELS);
  }

  /** `pm10_sensors_avg`. */
  method Pm10SensorsAvg(data: array<Reading>) returns (r: Option<Tables>)
    ensures r == Aggregate(data[..], PM10_STATIONS, PM10_LABELS)
  {
    r := SensorsAvg(data, PM10_STATIONS, PM10_LABELS);
  }

  /** Each PM2.5 sensor gets its own label, and any other id keeps `''`. */
  lemma Pm25Labels(id: int)
    ensures Labelled(PM25_LABELS, 17122, "") == "via Senato"
    ensures Labelled(PM25_LABELS, 20529, "") == "viale Marche"
    ensures Labelled(PM25_LABELS, 10283, "") == "Pascal Citt\U{E0} Studi"
    ensures id !in PM25_STATIONS ==> Labelled(PM25_LABELS, id, "") == ""
  {
    LabelOfPaired(PM25_LABELS, 0, "");
    LabelOfPaired(PM25_LABELS, 1, "");
    LabelOfPaired(PM25_LABELS, 2, "");
    if id !in PM25_STATIONS {
      LabelOfUnpaired(PM25_LABELS, id, "");
    }
  }

  /** Each PM10 sensor gets its own label, and any other id keeps `''`. */
  lemma Pm10Labels(id: int)
    ensures Labelled(PM10_LABELS, 10320, "") == "via Senato"
    ensures Labelled(PM10_LABELS, 20429, "") == "viale Marche"
    ensures Labelled(PM10_LABELS, 10273, "") == "Pascal Citt\U{E0} Studi"
    ensures Labelled(PM10_LABELS, 6956, "") == "Verziere"
    ensures id !in PM10_STATIONS ==> Labelled(PM10_LABELS, id, "") == ""
  {
    LabelOfPaired(PM10_LABELS, 0, "");
    LabelOfPaired(PM10_LABELS, 1, "");
    LabelOfPaired(PM10_LABELS, 2, "");
    LabelOfPaired(PM10_LABELS, 3, "");
    if id !in PM10_STATIONS {
      LabelOfUnpaired(PM10_LABELS, id, "");
    }
  }

  /** A listed PM2.5 sensor has a non-empty name. */
  lemma Pm25Named(id: int)
    requires id in PM25_STATIONS
    ensures Labelled(PM25_LABELS, id, "") != ""
  {
    Pm25Labels(id);
  }

  /** A listed PM10 sensor has a non-empty name. */
  lemma Pm10Named(id: int)
    requires id in PM10_STATIONS
    ensures Labelled(PM10_LABELS, id, "") != ""
  {
    Pm10Labels(id);
  }

  /** Every row of the PM2.5 table carries a station name. */
  lemma Pm25RowsNamed(data: seq<Reading>, t: Tables)
    requires Aggregate(data, PM25_STATIONS, PM25_LABELS) == Some(t)
    ensures forall j :: 0 <= j < |t.rows| ==> t.rows[j].station != ""
  {
    RowsLabelled(data, PM25_STATIONS, PM25_LABELS, t);
    forall j | 0 <= j < |t.rows| ensures t.rows[j].station != "" {
      Pm25Named(t.rows[j].id);
    }
  }

  /** Every row of the PM10 table carries a station name. */
  lemma Pm10RowsNamed(data: seq<Reading>, t: Tables)
    requires Aggregate(data, PM10_STATIONS, PM10_LABELS) == Some(t)
    ensures forall j :: 0 <= j < |t.rows| ==> t.rows[j].station != ""
  {
    RowsLabelled(data, PM10_STATIONS, PM10_LABELS, t);
    forall j | 0 <= j < |t.rows| ensures t.rows[j].station != "" {
      Pm10Named(t.rows[j].id);
    }
  }

  /**
   * Three PM2.5 readings taken at stamps `s1`, `s2` and `s3`, the second of
   * them the sentinel, and a PM10 reading that the PM2.5 selection leaves out.
   */
  function ThreeReadings(s1: string, s2: string, s3: string): seq<Reading> {
    [Reading(17122, s1, Some(30.0)), Reading(20529, s2, Some(SENTINEL)),
     Reading(10283, s3, Some(20.0)), Reading(6956, s1, Some(80.0))]
  }

  /** The listed readings' values on the day: the sentinel and the PM10 reading drop out. */
  lemma ThreeReadingsValues(s1: string, s2: string, s3: string, d: Date)
    requires StampDate(s1) == StampDate(s2) == StampDate(s3) == Some(d)
    ensures RawValuesOn(ThreeReadings(s1, s2, s3), PM25_STATIONS, d) == [30.0, 20.0]
  {
    var data := ThreeReadings(s1, s2, s3);
    assert data[1..][1..][1..][1..] == [];
    assert RawValuesOn(data[1..][1..][1..], PM25_STATIONS, d) == [];
    assert RawValuesOn(data[1..][1..], PM25_STATIONS, d) == [20.0];
    assert RawValuesOn(data[1..], PM25_STATIONS, d) == [20.0];
  }

  /** All four readings fall on the day. */
  lemma ThreeReadingsOneDay(s1: string, s2: string, s3: string, d: Date)
    requires StampDate(s1) == StampDate(s2) == StampDate(s3) == Some(d)
    ensures forall i :: 0 <= i < |ThreeReadings(s1, s2, s3)| ==> StampDate(ThreeReadings(s1, s2, s3)[i].stamp) == Some(d)
  {
  }

  /** The only mean table these readings allow: 25.0 on the day. */
  lemma ThreeReadingsTable(s1: string, s2: string, s3: string, d: Date, ms: seq<DayMean>)
    requires StampDate(s1) == StampDate(s2) == StampDate(s3) == Some(d)
    requires MeanTableOf(ms, ThreeReadings(s1, s2, s3), PM25_STATIONS)
    ensures ms == [DayMean(d, Some(25.0))]
  {
    var data := ThreeReadings(s1, s2, s3);
    ThreeReadingsValues(s1, s2, s3, d);
    ThreeReadingsOneDay(s1, s2, s3, d);
    SingleDay(ms, data, PM25_STATIONS, d, 0);
    assert Mean([30.0, 20.0]) == Some(25.0);
  }

  /**
   * 30.0, the sentinel and 20.0 at three times of one day average to 25.0,
   * in both variants.
   */
  lemma ThreeReadingsMean(s1: string, s2: string, s3: string, d: Date)
    requires StampDate(s1) == StampDate(s2) == StampDate(s3) == Some(d)
    ensures Aggregate(ThreeReadings(s1, s2, s3), PM25_STATIONS, PM25_LABELS).Some?
    ensures Aggregate(ThreeReadings(s1, s2, s3), PM25_STATIONS, PM25_LABELS).value.means == [DayMean(d, Some(25.0))]
    ensures CalculateSensorAvg(ThreeReadings(s1, s2, s3), PM25_STATIONS) == Some([DayMean(d, Some(25.0))])
  {
    var data := ThreeReadings(s1, s2, s3);
    ThreeReadingsOneDay(s1, s2, s3, d);
    var t := Aggregate(data, PM25_STATIONS, PM25_LABELS).value;
    MeansFromRawData(data, PM25_STATIONS, PM25_LABELS, t);
    ThreeReadingsTable(s1, s2, s3, d, t.means);
    ThreeReadingsTable(s1, s2, s3, d, CalculateSensorAvg(data, PM25_STATIONS).value);
  }

  /** `01/01/2023 01:00:00 AM` falls on 1 January 2023. */
  lemma OneAmStamp()
    ensures StampDate("01/01/2023 01:00:00 AM") == Some(Date(2023, 1, 1))
  {
    var t := DateTime(Date(2023, 1, 1), 1, 0, 0);
    assert FormatStamp(t) == "01/01/2023 01:00:00 AM";
    ParseFormat(t);
  }

  /** `01/01/2023 02:00:00 AM` falls on 1 January 2023. */
  lemma TwoAmStamp()
    ensures StampDate("01/01/2023 02:00:00 AM") == Some(Date(2023, 1, 1))
  {
    var t := DateTime(Date(2023, 1, 1), 2, 0, 0);
    assert FormatStamp(t) == "01/01/2023 02:00:00 AM";
    ParseFormat(t);
  }

  /** `01/01/2023 03:00:00 AM` falls on 1 January 2023. */
  lemma ThreeAmStamp()
    ensures StampDate("01/01/2023 03:00:00 AM") == Some(Date(2023, 1, 1))
  {
    var t := DateTime(Date(2023, 1, 1), 3, 0, 0);
    assert FormatStamp(t) == "01/01/2023 03:00:00 AM";
    ParseFormat(t);
  }

  /**
   * Readings of 30.0, -9999.0 and 20.0 taken at 1, 2 and 3 AM on 01/01/2023
   * give one mean row, 25.0.
   */
  lemma NewYearExample()
    ensures CalculateSensorAvg(ThreeReadings("01/01/2023 01:00:00 AM", "01/01/2023 02:00:00 AM",
                                             "01/01/2023 03:00:00 AM"), PM25_STATIONS) ==
      Some([DayMean(Date(2023, 1, 1), Some(25.0))])
  {
    OneAmStamp();
    TwoAmStamp();
    ThreeAmStamp();
    ThreeReadingsMean("01/01/2023 01:00:00 AM", "01/01/2023 02:00:00 AM", "01/01/2023 03:00:00 AM",
                      Date(2023, 1, 1));
  }
}
