/**
 The historian's metric table and the meaning of the three insert statements the
 sink sends: a value upsert by (signal, microsecond), the same for many rows, and a
 retraction, which is written only when the latest row at or before it holds a value.
 */
module MetricTable {
  import opened Basics

  /** Which incarnation of the node's data an offset is a position in, numbered in order of
      creation; 0 is "no store named". */
  type StoreId = nat

  /** A signal id is a byte string. */
  type Signal = seq<nat>

  /** One decoded sample. `refused` is the schema's verdict on it: a row whose statement
      fails with one of the poison error codes, however often it is sent. */
  datatype Row = Row(offset: nat, signal: Signal, nanos: int, node: string,
                     json: string, number: Option<real>, text: Option<string>, flag: Option<bool>,
                     refused: bool)
  {
    /** A retraction: no value column is set. */
    predicate Missing() {
      number.None? && text.None? && flag.None? && json == ""
    }

    /** The timestamp as the database stores it. */
    function Micros(): int {
      nanos / 1000
    }

    /** The table's unique key for this row. */
    function Slot(): Key {
      Key(signal, Micros())
    }
  }

  datatype Key = Key(signal: Signal, micros: int)

  /** The stored columns of one row; None is NULL. */
  datatype Cell = Cell(json: Option<string>, number: Option<real>, text: Option<string>,
                       flag: Option<bool>, node: Option<string>)
  {
    predicate HoldsValue() {
      json.Some? || number.Some? || text.Some? || flag.Some?
    }
  }

  type Table = map<Key, Cell>

  /** The rows of one signal, by timestamp. */
  type Series = map<int, Cell>

  function Nullable(s: string): Option<string> {
    if s == "" then None else Some(s)
  }

  /** What insertMetric stores: every value column comes from the row, also the empty ones. */
  function ValueCell(row: Row): Cell {
    Cell(Nullable(row.json), row.number, row.text, row.flag, Nullable(row.node))
  }

  /** What insertRetraction stores. */
  function GapCell(row: Row): Cell {
    Cell(None, None, None, None, Nullable(row.node))
  }

  /** The retraction's WHERE EXISTS: the signal's latest row at or before the timestamp holds a value. */
  predicate LatestHolds(t: Table, signal: Signal, micros: int) {
    exists k :: k in t && k.signal == signal && k.micros <= micros && t[k].HoldsValue() &&
                forall o :: o in t && o.signal == signal && o.micros <= micros ==> o.micros <= k.micros
  }

  /** One row's own statement (insertMetric or insertRetraction); a refused row changes nothing. */
  function ApplyRow(t: Table, row: Row): Table {
    if row.refused then t
    else if !row.Missing() then t[row.Slot() := ValueCell(row)]
    else if LatestHolds(t, row.signal, row.Micros()) then t[row.Slot() := GapCell(row)]
    else t
  }

  /** Rows applied one by one, in order. */
  function Fold(t: Table, rows: seq<Row>): Table {
    if rows == [] then t else ApplyRow(Fold(t, rows[..|rows| - 1]), rows[|rows| - 1])
  }

  /** The rows the schema accepts. */
  function Landed(rows: seq<Row>): (r: seq<Row>)
    ensures forall row :: row in r ==> !row.refused
  {
    if rows == [] then []
    else
      var init, last := Landed(rows[..|rows| - 1]), rows[|rows| - 1];
      if last.refused then init else init + [last]
  }

  function OfSignal(rows: seq<Row>, signal: Signal): (r: seq<Row>)
    ensures forall row :: row in r ==> row.signal == signal && row in rows
  {
    if rows == [] then []
    else
      var init, last := OfSignal(rows[..|rows| - 1], signal), rows[|rows| - 1];
      if last.signal == signal then init + [last] else init
  }

  function View(t: Table, signal: Signal): (s: Series)
    ensures forall m :: m in s <==> Key(signal, m) in t
    ensures forall m :: m in s ==> s[m] == t[Key(signal, m)]
  {
    map k | k in t && k.signal == signal :: k.micros := t[k]
  }

  predicate SeriesHolds(s: Series, micros: int) {
    exists m :: m in s && m <= micros && s[m].HoldsValue() && forall o :: o in s && o <= micros ==> o <= m
  }

  /** ApplyRow, seen by the row's own signal. */
  function Step(s: Series, row: Row): Series {
    if row.refused then s
    else if !row.Missing() then s[row.Micros() := ValueCell(row)]
    else if SeriesHolds(s, row.Micros()) then s[row.Micros() := GapCell(row)]
    else s
  }

  function Run(s: Series, rows: seq<Row>): Series {
    if rows == [] then s else Step(Run(s, rows[..|rows| - 1]), rows[|rows| - 1])
  }

  lemma {:induction false} HoldsInView(t: Table, signal: Signal, micros: int)
    ensures LatestHolds(t, signal, micros) <==> SeriesHolds(View(t, signal), micros)
  {
    var s := View(t, signal);
    if LatestHolds(t, signal, micros) {
      var k :| k in t && k.signal == signal && k.micros <= micros && t[k].HoldsValue() &&
               forall o :: o in t && o.signal == signal && o.micros <= micros ==> o.micros <= k.micros;
      assert k == Key(signal, k.micros);
      forall o | o in s && o <= micros ensures o <= k.micros {
        assert Key(signal, o) in t;
      }
    }
    if SeriesHolds(s, micros) {
      var m :| m in s && m <= micros && s[m].HoldsValue() && forall o :: o in s && o <= micros ==> o <= m;
      assert Key(signal, m) in t;
      forall o | o in t && o.signal == signal && o.micros <= micros ensures o.micros <= m {
        assert o == Key(signal, o.micros);
      }
    }
  }

  lemma {:induction false} ViewUpdate(t: Table, k: Key, c: Cell, signal: Signal)
    ensures View(t[k := c], signal) ==
            if k.signal == signal then View(t, signal)[k.micros := c] else View(t, signal)
  {
    var u := t[k := c];
    forall m ensures Key(signal, m) in u <==> Key(signal, m) in t || (k.signal == signal && m == k.micros) {
    }
  }

  /** A statement reads and writes its own signal only. */
  lemma {:induction false} ApplyRowLocal(t: Table, row: Row, signal: Signal)
    ensures View(ApplyRow(t, row), signal) ==
            if row.signal == signal then Step(View(t, signal), row) else View(t, signal)
  {
    HoldsInView(t, row.signal, row.Micros());
    ViewUpdate(t, row.Slot(), ValueCell(row), signal);
    ViewUpdate(t, row.Slot(), GapCell(row), signal);
  }

  lemma {:induction false} FoldInView(t: Table, rows: seq<Row>, signal: Signal)
    ensures View(Fold(t, rows), signal) == Run(View(t, signal), OfSignal(rows, signal))
  {
    if rows != [] {
      var init, last := rows[..|rows| - 1], rows[|rows| - 1];
      FoldInView(t, init, signal);
      ApplyRowLocal(Fold(t, init), last, signal);
      if last.signal == signal {
        assert OfSignal(rows, signal)[..|OfSignal(rows, signal)| - 1] == OfSignal(init, signal);
      } else {
        assert OfSignal(rows, signal) == OfSignal(init, signal);
      }
    }
  }

  lemma {:induction false} TablesEqualByViews(t: Table, u: Table)
    requires forall signal :: View(t, signal) == View(u, signal)
    ensures t == u
  {
    forall k | k in t || k in u ensures k in t && k in u && t[k] == u[k] {
      assert View(t, k.signal) == View(u, k.signal);
      assert k == Key(k.signal, k.micros);
      assert k.micros in View(t, k.signal) <==> k in t;
      assert k.micros in View(u, k.signal) <==> k in u;
    }
  }

  /** Two sequences that hold each signal's rows in the same order, however the signals interleave. */
  ghost predicate SameBySignal(a: seq<Row>, b: seq<Row>) {
    forall signal :: OfSignal(a, signal) == OfSignal(b, signal)
  }

  /** Signals commute: only the order within each signal decides the table. */
  lemma {:induction false} InterleavingIrrelevant(t: Table, a: seq<Row>, b: seq<Row>)
    requires SameBySignal(a, b)
    ensures Fold(t, a) == Fold(t, b)
  {
    forall signal ensures View(Fold(t, a), signal) == View(Fold(t, b), signal) {
      FoldInView(t, a, signal);
      FoldInView(t, b, signal);
    }
    TablesEqualByViews(Fold(t, a), Fold(t, b));
  }

  lemma {:induction false} FoldConcat(t: Table, a: seq<Row>, b: seq<Row>)
    ensures Fold(t, a + b) == Fold(Fold(t, a), b)
  {
    if b == [] {
      assert a + b == a;
    } else {
      assert (a + b)[..|a + b| - 1] == a + b[..|b| - 1];
      FoldConcat(t, a, b[..|b| - 1]);
    }
  }

  /** The fold is the fold over exactly the rows the schema accepts. */
  lemma {:induction false} FoldLanded(t: Table, rows: seq<Row>)
    ensures Fold(t, rows) == Fold(t, Landed(rows))
  {
    if rows != [] {
      var init, last := rows[..|rows| - 1], rows[|rows| - 1];
      FoldLanded(t, init);
      if last.refused {
        assert Landed(rows) == Landed(init);
      } else {
        assert Landed(rows)[..|Landed(rows)| - 1] == Landed(init);
      }
    }
  }

  lemma {:induction false} OfSignalConcat(a: seq<Row>, b: seq<Row>, signal: Signal)
    ensures OfSignal(a + b, signal) == OfSignal(a, signal) + OfSignal(b, signal)
  {
    if b == [] {
      assert a + b == a;
    } else {
      assert (a + b)[..|a + b| - 1] == a + b[..|b| - 1];
      OfSignalConcat(a, b[..|b| - 1], signal);
    }
  }

  lemma {:induction false} OfSignalAppend(rows: seq<Row>, row: Row, signal: Signal)
    ensures OfSignal(rows + [row], signal) ==
            if row.signal == signal then OfSignal(rows, signal) + [row] else OfSignal(rows, signal)
  {
    assert (rows + [row])[..|rows|] == rows;
  }
}
