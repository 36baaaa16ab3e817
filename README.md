# Daily particulate averages for Milan — a Dafny model

This project models the daily-aggregation core of the Milan air-quality
analysis in `functions.py`. The three functions `pm25_sensors_avg`,
`pm10_sensors_avg` and `calculate_sensor_avg` all take the regional sensor
table (`IdSensore`, `Data`, `Valore`) and work the same way:

1. they keep the rows of a fixed list of sensors;
2. they parse `Data` with the format `%d/%m/%Y %I:%M:%S %p` and truncate it
   to a calendar `date`;
3. the two Milan variants also fill a `Stazione` column from (sensor id,
   station name) pairs;
4. they recode the sentinel `-9999.0` to a missing value;
5. they average `Valore` per date, giving a `date` / `Valore` table.

The modules follow those steps:

- `Timestamp` is the parser for the stamp format. It follows the regular
  expressions that `strptime` (and pandas' reuse of it) applies to each
  directive. It also checks the calendar day and the range of a nanosecond
  timestamp. `FormatStamp` is its canonical inverse.
- `Readings` holds the raw and enriched rows and the column steps:
  selection, dating, labelling and recoding.
- `Grouping` is the group-by mean. One pass keeps a sorted list of running
  sums and counts, and it is proved against reference definitions: the
  distinct dates, each date's values, and their mean.
- `Aggregator` is the one generic pipeline. It returns both the enriched
  table and the mean table, and holds the end-to-end properties stated
  against the raw table. `CalculateSensorAvg` is the label-free variant
  that returns only the mean table.
- `Milan` holds the two Milan entry points as imperative code. A fresh row
  array is labelled pair by pair, as the `.loc` loop does, and then has its
  value column recoded. Each is proved equal to `Aggregator.Aggregate`, and
  the caller's table is left unchanged.

A pandas exception is modelled as `None`. The only one in scope is a
selected `Data` string that does not parse: it does not match the format,
names a day its month lacks, or lies outside the nanosecond-timestamp
range. `Valore` is an
`Option<real>`, where `None` is NaN. The mean is over exact reals.

## Model

| member | source | states |
|---|---|---|
| Readings.Select | functions.py:16 | the `isin` filter: never longer than the input; `SelectCounts`, `SelectMembers` and `SelectConcat` state that it is exactly the listed sensors' rows, in input order |
| Readings.SelectCounts | functions.py:16 | each listed sensor's row is kept exactly as many times as it occurs; any other row never |
| Readings.SelectMembers | functions.py:79 | a row is in the selection iff it is an input row and its sensor is listed |
| Readings.SelectNone | functions.py:48 | when no row belongs to a listed sensor, the selection is empty |
| Readings.SelectConcat | functions.py:16 | filtering distributes over concatenation, so the selection keeps the input order |
| Aggregator.OtherSensorsIgnored | functions.py:79 | inserting a row of an unlisted sensor anywhere changes neither output table |
| Timestamp.Checked | functions.py:18 | only a real calendar day within the nanosecond-timestamp range is returned |
| Timestamp.Scan | functions.py:18 | matching against the directives returns only a valid, in-range timestamp |
| Timestamp.ParseStamp | functions.py:18 | parsing with `%d/%m/%Y %I:%M:%S %p` returns only a valid, in-range timestamp |
| Timestamp.StampDate | functions.py:18-20 | the `date` exists iff the stamp parses, and is the parsed timestamp's calendar day |
| Timestamp.ClockHourInverse | functions.py:18 | `%I` with `%p` recovers every 24-hour hour: 12 AM is 0, 12 PM is 12 |
| Timestamp.ReadBack | functions.py:18 | parsing a rendered stamp reads back exactly its day, month, year, 12-hour clock, minute, second and meridiem |
| Timestamp.ParseFormat | functions.py:18 | round trip: every timestamp the parser can return is rendered by `FormatStamp` and parses back to itself |
| Timestamp.TimeOfDayDropped | functions.py:18-20 | two stamps of the same day at any times get the same `date`, that day |
| Timestamp.MorningExample | functions.py:18-20 | `15/03/2024 08:00:00 AM` gets the date 15 March 2024 |
| Timestamp.NightExample | functions.py:18-20 | `15/03/2024 11:00:00 PM` gets the date 15 March 2024 as well |
| Timestamp.ImpossibleDayRejected | functions.py:18 | a stamp whose fields are each in range but whose day the month lacks fails to parse |
| Timestamp.ImpossibleDayExample | functions.py:18 | `31/02/2024 08:00:00 AM` fails to parse |
| Timestamp.IsoStampRejected | functions.py:18 | the ISO-style `2024-03-15 08:00:00` fails to parse |
| Readings.DateRows | functions.py:18-22 | dating succeeds iff every stamp parses; each row keeps id, stamp and value, gets its stamp's date and an empty `Stazione` |
| Aggregator.SelectedStampsParse | functions.py:16-18 | a selected stamp fails iff some listed sensor's raw stamp fails |
| Readings.Labelled | functions.py:31-32 | the label after the `.loc` assignments is the starting one or a name paired with the row's id; `LabelOfPaired` and `LabelOfUnpaired` say which |
| Readings.LabelOfPaired | functions.py:31-32 | with distinct ids, a row gets exactly the name paired with its id |
| Readings.LabelOfUnpaired | functions.py:22-32 | a row whose id no pair names keeps the label it had |
| Milan.ApplyLabels | functions.py:31-32 | after the loop, each row's `Stazione` is what the pair-by-pair `.loc` assignments give, and nothing else in the row changes |
| Milan.Pm25Labels | functions.py:24-32 | 17122, 20529 and 10283 get "via Senato", "viale Marche" and "Pascal Città Studi"; any other id keeps `''` |
| Milan.Pm10Labels | functions.py:56-65 | 10320, 20429, 10273 and 6956 get "via Senato", "viale Marche", "Pascal Città Studi" and "Verziere"; any other id keeps `''` |
| Aggregator.RowsLabelled | functions.py:22-32 | every enriched row belongs to a listed sensor and carries the label its id is given |
| Milan.Pm25RowsNamed | functions.py:22-32 | every row of the PM2.5 enriched table has a non-empty station name |
| Milan.Pm10RowsNamed | functions.py:54-65 | every row of the PM10 enriched table has a non-empty station name |
| Readings.FinishAll | functions.py:22-34 | one row out per dated row, in order, each with its id's label and its recoded value and nothing else changed |
| Readings.Recode | functions.py:34 | the value is missing iff it was missing or the sentinel; any other value is kept unchanged |
| Milan.RecodeColumn | functions.py:67 | every row's value is recoded and nothing else changes |
| Aggregator.NoSentinelLeft | functions.py:85 | no enriched row still holds the sentinel |
| Grouping.Mean | functions.py:87 | the mean is missing exactly when there is nothing to average |
| Grouping.Insert | functions.py:36 | counting one value keeps the groups sorted, adds its date and changes only that date's tally |
| Grouping.Accumulate | functions.py:36 | the groups are strictly ascending, their dates are the rows' dates, and each holds its date's sum and count of non-missing values |
| Grouping.MeanRows | functions.py:38-40 | one mean row per group, in order, with that group's average |
| Grouping.TalliesToMeans | functions.py:36-40 | correct sorted tallies give an ascending table with one row per date and each date's mean |
| Grouping.DailyMeans | functions.py:36-40 | dates strictly ascending, one row per distinct date, and each row's value the mean of that date's non-missing values |
| Aggregator.ListedReadingsKept | functions.py:16-34 | every listed sensor's reading appears in the enriched table with its stamp and its recoded value |
| Aggregator.EnrichedValues | functions.py:79-87 | the values averaged for a date are that date's listed, non-missing, non-sentinel raw readings, in row order |
| Aggregator.EnrichedDates | functions.py:79-83 | the enriched rows' dates are exactly the listed sensors' dates |
| Aggregator.MeansFromRawData | functions.py:77-92 | the mean table against the raw table: ascending dates, one row for each date with a listed reading, and each value the mean of its date's valid readings |
| Aggregator.EmptySelection | functions.py:16-40 | with no listed sensor's row, both tables are empty |
| Aggregator.NothingToAverage | functions.py:85-87 | a date whose readings are all missing or the sentinel has a missing mean |
| Aggregator.SingleDay | functions.py:87-91 | when all listed readings fall on one day, the mean table is that single day's row |
| Aggregator.Aggregate | functions.py:12-41 | fails iff a listed sensor's stamp fails; otherwise the enriched rows are the selected readings, in order, each dated, labelled and recoded, and the mean table is their daily mean |
| Aggregator.CalculateSensorAvg | functions.py:77-92 | fails iff a listed sensor's stamp fails; otherwise the mean table meets every property stated against the raw table |
| Milan.SensorsAvg | functions.py:12-41 | the in-place steps on a fresh copy compute exactly `Aggregate`, and the caller's table is unchanged |
| Milan.Pm25SensorsAvg | functions.py:12-41 | `pm25_sensors_avg` is the aggregator with the PM2.5 sensors and their labels |
| Milan.Pm10SensorsAvg | functions.py:44-74 | `pm10_sensors_avg` is the aggregator with the PM10 sensors and their labels |
| Milan.ThreeReadingsMean | functions.py:34-36 | readings of 30.0, -9999.0 and 20.0 at any three times of one day average to 25.0 in both variants; a PM10 reading is left out |
| Milan.NewYearExample | functions.py:77-92 | those readings stamped `01/01/2023` at `01:00:00 AM`, `02:00:00 AM` and `03:00:00 AM` give the single row (2023-01-01, 25.0) |

## Left out

- The plotting functions, the exceedance counts and every other function
  in `functions.py` are not part of this model. Neither is the loading of
  the CSV files.
- Columns of the raw table other than `IdSensore`, `Data` and `Valore`
  are not modelled. The selection keeps whole rows, so they would pass
  through unchanged.
- The final column renaming (`columns = ['date', 'Valore']`) and
  `reset_index` are the shape of `DayMean`; the pandas index is not
  modelled.
- `Valore` is an exact real, not an IEEE double. Sums and means are exact,
  with no rounding.
- The parser accepts ASCII digits only and reads `%p` as in the C locale
  (`AM`/`PM`, any letter case).
- Seconds 60 and 61, which the `%S` pattern admits, are treated as a
  failed parse.
- Empty or `NaT` stamps, which pandas turns into a missing date that
  `groupby` then drops, are not modelled. Any stamp that does not match
  is a failure.
- `groupby` sorts its keys (functions.py:36), so the model proves the
  mean table's dates strictly ascending.
