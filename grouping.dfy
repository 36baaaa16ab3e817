/**
 * `groupby('date')['Valore'].mean()` followed by `reset_index()`: one row
 * per distinct date in ascending order (grouping sorts its keys), holding
 * the mean of that date's non-missing values, or missing when there are
 * none.
 *
 * The reference definitions (`Dates`, `ValuesOn`, `Mean`) say what the
 * table must hold; `DailyMeans` computes it in one pass over the rows,
 * keeping a running sum and count per date in a sorted list.
 */
module Grouping {
  import opened Wrappers
  import opened Timestamp
  import opened Readings

  /** One row of the mean table: the columns `['date', 'Valore']`. */
  datatype DayMean = DayMean(date: Date, mean: Option<real>)

  /** The distinct dates of the rows. */
  function Dates(rows: seq<Row>): (ds: set<Date>)
    ensures forall d :: d in ds <==> exists i :: 0 <= i < |rows| && rows[i].date == d
  {
    if rows == [] then {}
    else
      var rest := Dates(rows[1..]);
      assert forall i :: 0 < i < |rows| ==> rows[i] == rows[1..][i - 1];
      {rows[0].date} + rest
  }

  /** The non-missing values recorded on date `d`, in row order. */
  function ValuesOn(rows: seq<Row>, d: Date): seq<real> {
    if rows == [] then []
    else
      (if rows[0].date == d && rows[0].value.Some? then [rows[0].value.value] else []) +
      ValuesOn(rows[1..], d)
  }

  function Sum(vs: seq<real>): real {
    if vs == [] then 0.0 else vs[0] + Sum(vs[1..])
  }

  /** The arithmetic mean, missing (not 0) when there is nothing to average. */
  function Mean(vs: seq<real>): (m: Option<real>)
    ensures m.None? <==> vs == []
  {
    if vs == [] then None else Some(Sum(vs) / |vs| as real)
  }

  // ---- The one-pass computation ----

  /** The running sum and count of one date's non-missing values. */
  datatype Tally = Tally(sum: real, count: nat)

  datatype Group = Group(date: Date, tally: Tally)

  const EMPTY := Tally(0.0, 0)

  /** Adds one value to a tally; a missing value changes nothing. */
  function Count(t: Tally, v: Option<real>): Tally {
    match v
    case None => t
    case Some(x) => Tally(t.sum + x, t.count + 1)
  }

  function Average(t: Tally): Option<real> {
    if t.count == 0 then None else Some(t.sum / t.count as real)
  }

  predicate Increasing(gs: seq<Group>) {
    forall i, j :: 0 <= i < j < |gs| ==> Before(gs[i].date, gs[j].date)
  }

  /** The dates the groups are kept for. */
  function Keys(gs: seq<Group>): set<Date> {
    set i | 0 <= i < |gs| :: gs[i].date
  }

  /** The tally kept for date `d`, or an empty one. */
  function Find(gs: seq<Group>, d: Date): (t: Tally)
    ensures d !in Keys(gs) ==> t == EMPTY
  {
    if gs == [] then EMPTY
    else if gs[0].date == d then gs[0].tally
    else Find(gs[1..], d)
  }

  /** In a sorted list, the tally found for a group's date is that group's. */
  lemma {:induction false} FindAt(gs: seq<Group>, i: nat)
    requires Increasing(gs) && i < |gs|
    ensures Find(gs, gs[i].date) == gs[i].tally
  {
    if i > 0 {
      assert Before(gs[0].date, gs[i].date);
      assert gs[1..][i - 1] == gs[i];
      FindAt(gs[1..], i - 1);
    }
  }

  /** A date before the first of a sorted list is none of its keys. */
  lemma BeforeAllKeys(gs: seq<Group>, d: Date)
    requires Increasing(gs) && |gs| > 0 && Before(d, gs[0].date)
    ensures d !in Keys(gs)
  {
    forall i | 0 < i < |gs| ensures gs[i].date != d {
      assert Before(gs[0].date, gs[i].date);
    }
  }

  /** After a sorted list's first key come its other keys and any later date. */
  lemma AfterFirst(gs: seq<Group>, d: Date, tail: seq<Group>)
    requires Increasing(gs) && |gs| > 0 && Before(gs[0].date, d)
    requires Keys(tail) == Keys(gs[1..]) + {d}
    ensures forall j :: 0 <= j < |tail| ==> Before(gs[0].date, tail[j].date)
  {
    forall j | 0 <= j < |tail| ensures Before(gs[0].date, tail[j].date) {
      assert tail[j].date in Keys(tail);
      if tail[j].date != d {
        var k :| 0 <= k < |gs[1..]| && gs[1..][k].date == tail[j].date;
        assert gs[1..][k] == gs[k + 1];
      }
    }
  }

  /** Looking up in a list with one more group in front. */
  lemma ConsGroup(g: Group, gs: seq<Group>)
    ensures Keys([g] + gs) == {g.date} + Keys(gs)
    ensures forall e :: Find([g] + gs, e) == if e == g.date then g.tally else Find(gs, e)
  {
    var r := [g] + gs;
    assert r[1..] == gs;
    forall e ensures e in Keys(r) <==> e in {g.date} + Keys(gs) {
      if e == g.date {
        assert r[0].date == e;
      }
      if e in Keys(gs) {
        var i :| 0 <= i < |gs| && gs[i].date == e;
        assert r[i + 1].date == e;
      }
      if e in Keys(r) {
        var i :| 0 <= i < |r| && r[i].date == e;
        if i > 0 {
          assert r[i] == gs[i - 1];
        }
      }
    }
  }

  /** Counting into the first group of the list. */
  lemma CountFirst(gs: seq<Group>, v: Option<real>)
    requires Increasing(gs) && |gs| > 0
    ensures var r := [Group(gs[0].date, Count(gs[0].tally, v))] + gs[1..];
      Increasing(r) && Keys(r) == Keys(gs) + {gs[0].date} &&
      forall e :: Find(r, e) == if e == gs[0].date then Count(Find(gs, e), v) else Find(gs, e)
  {
    ConsGroup(gs[0], gs[1..]);
    ConsGroup(Group(gs[0].date, Count(gs[0].tally, v)), gs[1..]);
    assert gs == [gs[0]] + gs[1..];
  }

  /** Opening a new group in front of the list. */
  lemma OpenFirst(gs: seq<Group>, d: Date, v: Option<real>)
    requires Increasing(gs) && (gs == [] || Before(d, gs[0].date))
    ensures var r := [Group(d, Count(EMPTY, v))] + gs;
      Increasing(r) && Keys(r) == Keys(gs) + {d} &&
      forall e :: Find(r, e) == if e == d then Count(Find(gs, e), v) else Find(gs, e)
  {
    if gs != [] {
      BeforeAllKeys(gs, d);
    }
    ConsGroup(Group(d, Count(EMPTY, v)), gs);
  }

  /** Keeping the first group and inserting behind it keeps the list sorted. */
  lemma KeepFirstSorted(gs: seq<Group>, d: Date, tail: seq<Group>)
    requires Increasing(gs) && |gs| > 0 && Before(gs[0].date, d)
    requires Increasing(tail) && Keys(tail) == Keys(gs[1..]) + {d}
    ensures Increasing([gs[0]] + tail)
  {
    AfterFirst(gs, d, tail);
    ConsSorted(gs[0], tail);
  }

  /** A group before every group of a sorted list can go in front of it. */
  lemma ConsSorted(g: Group, tail: seq<Group>)
    requires Increasing(tail)
    requires forall j :: 0 <= j < |tail| ==> Before(g.date, tail[j].date)
    ensures Increasing([g] + tail)
  {
    var r := [g] + tail;
    forall i, j | 0 <= i < j < |r| ensures Before(r[i].date, r[j].date) {
      assert r[j] == tail[j - 1];
      if i > 0 {
        assert r[i] == tail[i - 1];
      }
    }
  }

  /** Keeping the first group and inserting behind it. */
  lemma KeepFirst(gs: seq<Group>, d: Date, v: Option<real>, tail: seq<Group>)
    requires Increasing(gs) && |gs| > 0 && Before(gs[0].date, d)
    requires Increasing(tail) && Keys(tail) == Keys(gs[1..]) + {d}
    requires forall e :: Find(tail, e) == if e == d then Count(Find(gs[1..], e), v) else Find(gs[1..], e)
    ensures var r := [gs[0]] + tail;
      Increasing(r) && Keys(r) == Keys(gs) + {d} &&
      forall e :: Find(r, e) == if e == d then Count(Find(gs, e), v) else Find(gs, e)
  {
    KeepFirstSorted(gs, d, tail);
    ConsGroup(gs[0], gs[1..]);
    ConsGroup(gs[0], tail);
    assert gs == [gs[0]] + gs[1..];
  }

  /** Counts value `v` on date `d`, inserting the date in order if it is new. */
  function Insert(gs: seq<Group>, d: Date, v: Option<real>): (r: seq<Group>)
    requires Increasing(gs)
    ensures Increasing(r)
    ensures Keys(r) == Keys(gs) + {d}
    ensures forall e :: Find(r, e) == if e == d then Count(Find(gs, e), v) else Find(gs, e)
  {
    if gs != [] && gs[0].date == d then
      CountFirst(gs, v);
      [Group(d, Count(gs[0].tally, v))] + gs[1..]
    else if gs == [] || Before(d, gs[0].date) then
      OpenFirst(gs, d, v);
      [Group(d, Count(EMPTY, v))] + gs
    else
      var tail := Insert(gs[1..], d, v);
      KeepFirst(gs, d, v, tail);
      [gs[0]] + tail
  }

  /**
   * Folds every row into the sorted tallies. The tally of each date is the
   * sum and count of that date's non-missing values.
   */
  function Accumulate(rows: seq<Row>): (gs: seq<Group>)
    ensures Increasing(gs)
    ensures Keys(gs) == Dates(rows)
    ensures forall d :: Find(gs, d) == Tally(Sum(ValuesOn(rows, d)), |ValuesOn(rows, d)|)
  {
    if rows == [] then []
    else
      var rest := Accumulate(rows[1..]);
      var gs := Insert(rest, rows[0].date, rows[0].value);
      assert forall d :: Find(gs, d) == Tally(Sum(ValuesOn(rows, d)), |ValuesOn(rows, d)|) by {
        forall d ensures Find(gs, d) == Tally(Sum(ValuesOn(rows, d)), |ValuesOn(rows, d)|) {
          var tail := ValuesOn(rows[1..], d);
          if rows[0].date == d && rows[0].value.Some? {
            var x := rows[0].value.value;
            assert ValuesOn(rows, d) == [x] + tail;
            assert ([x] + tail)[1..] == tail;
          } else {
            assert ValuesOn(rows, d) == tail;
          }
        }
      }
      gs
  }

  /** One mean row per group, in the groups' order. */
  function MeanRows(gs: seq<Group>): (ms: seq<DayMean>)
    ensures |ms| == |gs|
    ensures forall i :: 0 <= i < |gs| ==> ms[i] == DayMean(gs[i].date, Average(gs[i].tally))
  {
    if gs == [] then [] else [DayMean(gs[0].date, Average(gs[0].tally))] + MeanRows(gs[1..])
  }

  /** Sorted tallies that hold each date's sum and count give the mean table. */
  lemma TalliesToMeans(rows: seq<Row>, gs: seq<Group>)
    requires Increasing(gs)
    requires Keys(gs) == Dates(rows)
    requires forall d :: Find(gs, d) == Tally(Sum(ValuesOn(rows, d)), |ValuesOn(rows, d)|)
    ensures var ms := MeanRows(gs);
      (forall i, j :: 0 <= i < j < |ms| ==> Before(ms[i].date, ms[j].date)) &&
      (forall d :: d in Dates(rows) <==> exists i :: 0 <= i < |ms| && ms[i].date == d) &&
      (forall i :: 0 <= i < |ms| ==> ms[i].mean == Mean(ValuesOn(rows, ms[i].date)))
  {
    var ms := MeanRows(gs);
    forall d ensures d in Dates(rows) <==> exists i :: 0 <= i < |ms| && ms[i].date == d {
      assert d in Keys(gs) <==> exists i :: 0 <= i < |gs| && gs[i].date == d;
    }
    forall i | 0 <= i < |ms| ensures ms[i].mean == Mean(ValuesOn(rows, ms[i].date)) {
      FindAt(gs, i);
    }
  }

  /**
   * The mean table: one row per distinct date, dates strictly ascending,
   * and each date's value the mean of that date's non-missing values.
   */
  function DailyMeans(rows: seq<Row>): (ms: seq<DayMean>)
    ensures forall i, j :: 0 <= i < j < |ms| ==> Before(ms[i].date, ms[j].date)
    ensures forall d :: d in Dates(rows) <==> exists i :: 0 <= i < |ms| && ms[i].date == d
    ensures forall i :: 0 <= i < |ms| ==> ms[i].mean == Mean(ValuesOn(rows, ms[i].date))
  {
    var gs := Accumulate(rows);
    TalliesToMeans(rows, gs);
    MeanRows(gs)
  }
}
