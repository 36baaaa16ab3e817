/**
 * Rows of the raw table and of the enriched per-reading table, and the
 * column operations that turn one into the other: the station filter, the
 * date column, the `Stazione` labels and the sentinel recode.
 */
module Readings {
  import opened Wrappers
  import opened Timestamp

  /**
   * One raw row: `IdSensore`, `Data` and `Valore`. `value` is None where
   * the raw table already holds no number (NaN).
   */
  datatype Reading = Reading(id: int, stamp: string, value: Option<real>)

  /** One enriched row: the raw columns plus `date` and `Stazione`. */
  datatype Row = Row(id: int, stamp: string, date: Date, station: string, value: Option<real>)

  /** The number the raw data uses for "no measurement". */
  const SENTINEL: real := -9999.0

  /**
   * `np.where(v == -9999.0, np.nan, v)`: the sentinel becomes missing,
   * every other value (a number or an existing NaN) is kept.
   */
  function Recode(v: Option<real>): (r: Option<real>)
    ensures r.None? <==> v.None? || v == Some(SENTINEL)
    ensures r.Some? ==> r == v && r.value != SENTINEL
  {
    if v == Some(SENTINEL) then None else v
  }

  /** `data[data['IdSensore'].isin(stations)]`: the selected rows, in order. */
  function Select(data: seq<Reading>, stations: set<int>): (r: seq<Reading>)
    ensures |r| <= |data|
  {
    if data == [] then []
    else
      (if data[0].id in stations then [data[0]] else []) + Select(data[1..], stations)
  }

  /** A listed sensor's row is kept as often as it occurs; any other row never. */
  lemma {:induction false} SelectCounts(data: seq<Reading>, stations: set<int>, x: Reading)
    ensures multiset(Select(data, stations))[x] == if x.id in stations then multiset(data)[x] else 0
  {
    if data != [] {
      assert data == [data[0]] + data[1..];
      SelectCounts(data[1..], stations, x);
    }
  }

  /** A row is selected exactly when it is an input row of a listed sensor. */
  lemma SelectMembers(data: seq<Reading>, stations: set<int>, x: Reading)
    ensures x in Select(data, stations) <==> x in data && x.id in stations
  {
    SelectCounts(data, stations, x);
  }

  /** Without a listed sensor's row nothing is selected. */
  lemma {:induction false} SelectNone(data: seq<Reading>, stations: set<int>)
    requires forall i :: 0 <= i < |data| ==> data[i].id !in stations
    ensures Select(data, stations) == []
  {
    if data != [] {
      assert forall i :: 0 <= i < |data[1..]| ==> data[1..][i] == data[i + 1];
      SelectNone(data[1..], stations);
    }
  }

  /** Filtering distributes over concatenation, so the selection keeps the input's order. */
  lemma {:induction false} SelectConcat(a: seq<Reading>, b: seq<Reading>, stations: set<int>)
    ensures Select(a + b, stations) == Select(a, stations) + Select(b, stations)
  {
    if a == [] {
      assert a + b == b;
    } else {
      var head := if a[0].id in stations then [a[0]] else [];
      assert (a + b)[0] == a[0];
      assert (a + b)[1..] == a[1..] + b;
      assert Select(a + b, stations) == head + Select(a[1..] + b, stations);
      SelectConcat(a[1..], b, stations);
      assert Select(a, stations) == head + Select(a[1..], stations);
      assert head + (Select(a[1..], stations) + Select(b, stations)) ==
        (head + Select(a[1..], stations)) + Select(b, stations);
    }
  }

  /**
   * The `date` column: every row's `Data` parsed and truncated to its day,
   * `Stazione` set to `''`. Fails as a whole when any one stamp fails.
   */
  function DateRows(rs: seq<Reading>): (r: Option<seq<Row>>)
    ensures r.Some? <==> forall i :: 0 <= i < |rs| ==> StampDate(rs[i].stamp).Some?
    ensures r.Some? ==> |r.value| == |rs|
    ensures r.Some? ==> forall i :: 0 <= i < |rs| ==>
      r.value[i].id == rs[i].id && r.value[i].stamp == rs[i].stamp &&
      StampDate(rs[i].stamp) == Some(r.value[i].date) &&
      r.value[i].station == "" && r.value[i].value == rs[i].value
  {
    if rs == [] then Some([])
    else
      var date :- StampDate(rs[0].stamp);
      var rest :- DateRows(rs[1..]);
      Some([Row(rs[0].id, rs[0].stamp, date, "", rs[0].value)] + rest)
  }

  /**
   * The `Stazione` a row ends with after the `.loc` assignments for each
   * (id, label) pair in turn, starting from `current`: the last pair with
   * the row's id wins, and without one the label is left as it was.
   */
  function Labelled(labels: seq<(int, string)>, id: int, current: string): (r: string)
    ensures r == current || exists k :: 0 <= k < |labels| && labels[k].0 == id && r == labels[k].1
  {
    if labels == [] then current
    else
      var last := labels[|labels| - 1];
      if last.0 == id then last.1
      else
        var front := labels[..|labels| - 1];
        assert forall k :: 0 <= k < |front| ==> front[k] == labels[k];
        Labelled(front, id, current)
  }

  predicate DistinctIds(labels: seq<(int, string)>) {
    forall i, j :: 0 <= i < j < |labels| ==> labels[i].0 != labels[j].0
  }

  /** With distinct ids, a row gets exactly the label paired with its id. */
  lemma {:induction false} LabelOfPaired(labels: seq<(int, string)>, k: nat, current: string)
    requires DistinctIds(labels) && k < |labels|
    ensures Labelled(labels, labels[k].0, current) == labels[k].1
  {
    var n := |labels| - 1;
    if k < n {
      assert labels[n].0 != labels[k].0;
      var front := labels[..n];
      assert front[k] == labels[k];
      LabelOfPaired(front, k, current);
    }
  }

  /** An id that no pair names keeps the label it had. */
  lemma {:induction false} LabelOfUnpaired(labels: seq<(int, string)>, id: int, current: string)
    requires forall k :: 0 <= k < |labels| ==> labels[k].0 != id
    ensures Labelled(labels, id, current) == current
  {
    if labels != [] {
      var front := labels[..|labels| - 1];
      assert forall k :: 0 <= k < |front| ==> front[k] == labels[k];
      LabelOfUnpaired(front, id, current);
    }
  }

  /** The labelling and recoding steps applied to one dated row. */
  function Finish(row: Row, labels: seq<(int, string)>): Row {
    row.(station := Labelled(labels, row.id, row.station), value := Recode(row.value))
  }

  /** `Finish` on every row. */
  function FinishAll(rows: seq<Row>, labels: seq<(int, string)>): (r: seq<Row>)
    ensures |r| == |rows|
    ensures forall i :: 0 <= i < |rows| ==> r[i] == Finish(rows[i], labels)
  {
    if rows == [] then [] else [Finish(rows[0], labels)] + FinishAll(rows[1..], labels)
  }
}
