/**
 What a second application of the same page does. Values are idempotent in any order; a
 retraction is not, once a value behind it in time follows it in the page.
 */
module Replay {
  import opened MetricTable

  /** No value of a signal follows a retraction of that signal with an earlier timestamp. */
  ghost predicate NoValueBehindGap(rows: seq<Row>) {
    forall i, j | 0 <= i < j < |rows| && rows[i].signal == rows[j].signal && !rows[i].refused && !rows[j].refused ::
      rows[i].Missing() && !rows[j].Missing() ==> rows[i].Micros() <= rows[j].Micros()
  }

  /** Each signal's timestamps do not go backwards. */
  ghost predicate Forward(rows: seq<Row>) {
    forall i, j :: 0 <= i < j < |rows| && rows[i].signal == rows[j].signal ==> rows[i].Micros() <= rows[j].Micros()
  }

  /** Every retraction in rows is at or before micros. */
  ghost predicate GapsUpTo(rows: seq<Row>, micros: int) {
    forall i :: 0 <= i < |rows| && rows[i].Missing() && !rows[i].refused ==> rows[i].Micros() <= micros
  }

  ghost predicate Settled(rows: seq<Row>) {
    forall j :: 0 <= j < |rows| && !rows[j].refused && !rows[j].Missing() ==> GapsUpTo(rows[..j], rows[j].Micros())
  }

  ghost predicate AgreeOff(a: Series, b: Series, micros: int) {
    forall m :: m != micros ==> (m in a <==> m in b) && (m in a ==> a[m] == b[m])
  }

  lemma {:induction false} SameAt(a: Series, b: Series, micros: int, cell: Cell)
    requires AgreeOff(a, b, micros)
    ensures a[micros := cell] == b[micros := cell]
  {
    var x, y := a[micros := cell], b[micros := cell];
    assert forall m :: (m in x <==> m in y) && (m in x ==> x[m] == y[m]);
  }

  lemma {:induction false} HoldsOff(a: Series, b: Series, micros: int, at: int)
    requires AgreeOff(a, b, micros) && at < micros && SeriesHolds(a, at)
    ensures SeriesHolds(b, at)
  {
    var m :| m in a && m <= at && a[m].HoldsValue() && forall o :: o in a && o <= at ==> o <= m;
    assert m in b && b[m].HoldsValue();
    forall o | o in b && o <= at ensures o <= m {
      assert o in a;
    }
  }

  /** A difference at one timestamp stays there, past retractions no later than it. */
  lemma {:induction false} DifferenceStays(a: Series, b: Series, rows: seq<Row>, micros: int)
    requires AgreeOff(a, b, micros) && GapsUpTo(rows, micros)
    ensures AgreeOff(Run(a, rows), Run(b, rows), micros)
  {
    if rows != [] {
      var init, last := rows[..|rows| - 1], rows[|rows| - 1];
      DifferenceStays(a, b, init, micros);
      if !last.refused && last.Missing() && last.Micros() < micros {
        if SeriesHolds(Run(a, init), last.Micros()) { HoldsOff(Run(a, init), Run(b, init), micros, last.Micros()); }
        if SeriesHolds(Run(b, init), last.Micros()) { HoldsOff(Run(b, init), Run(a, init), micros, last.Micros()); }
      }
    }
  }

  /** Applying rows removes no cell. */
  lemma {:induction false} CellsStay(s: Series, rows: seq<Row>, k: nat)
    requires k <= |rows|
    ensures Run(s, rows[..k]).Keys <= Run(s, rows).Keys
    decreases |rows|
  {
    if k < |rows| {
      var init := rows[..|rows| - 1];
      assert init[..k] == rows[..k];
      CellsStay(s, init, k);
    } else {
      assert rows[..k] == rows;
    }
  }

  /** a and b differ at most in one cell, which is the given gap in b. */
  ghost predicate GapApart(a: Series, b: Series, micros: int, gap: Cell) {
    && !gap.HoldsValue() && AgreeOff(a, b, micros)
    && micros in b && ((micros in a && a[micros] == b[micros]) || b[micros] == gap)
  }

  lemma {:induction false} HoldsBesideGap(a: Series, b: Series, micros: int, gap: Cell, at: int)
    requires GapApart(a, b, micros, gap) && SeriesHolds(b, at)
    ensures SeriesHolds(a, at)
  {
    var m :| m in b && m <= at && b[m].HoldsValue() && forall o :: o in b && o <= at ==> o <= m;
    assert m in a && a[m] == b[m];
    forall o | o in a && o <= at ensures o <= m {
      assert o in b;
    }
  }

  /** A cell that is there decides alone whether a retraction at its time applies. */
  lemma {:induction false} HoldsHere(s: Series, at: int)
    requires at in s
    ensures SeriesHolds(s, at) <==> s[at].HoldsValue()
  {
    if SeriesHolds(s, at) {
      var m :| m in s && m <= at && s[m].HoldsValue() && forall o :: o in s && o <= at ==> o <= m;
      assert m == at;
    }
  }

  /** A retraction acts alike on both, where it adds no cell to the first. */
  lemma {:induction false} GapApartStep(a: Series, b: Series, row: Row, micros: int, gap: Cell)
    requires GapApart(a, b, micros, gap) && Step(a, row).Keys == a.Keys
    ensures GapApart(Step(a, row), Step(b, row), micros, gap)
  {
    var at := row.Micros();
    if !row.refused && row.Missing() {
      if SeriesHolds(b, at) {
        HoldsBesideGap(a, b, micros, gap, at);
      }
      if at in a {
        HoldsHere(a, at);
        HoldsHere(b, at);
      }
    }
  }

  /** Rows that add no cell to the first keep a gap's difference where it is. */
  lemma {:induction false} GapApartStays(a: Series, b: Series, rows: seq<Row>, micros: int, gap: Cell)
    requires GapApart(a, b, micros, gap) && Run(a, rows).Keys == a.Keys
    ensures GapApart(Run(a, rows), Run(b, rows), micros, gap)
  {
    if rows != [] {
      var n := |rows| - 1;
      var init := rows[..n];
      CellsStay(a, rows, 0);
      CellsStay(a, rows, n);
      CellsStay(a, init, 0);
      assert rows[..0] == [] && init[..0] == [];
      assert Run(a, init).Keys == a.Keys;
      GapApartStays(a, b, init, micros, gap);
      GapApartStep(Run(a, init), Run(b, init), rows[n], micros, gap);
    }
  }

  lemma {:induction false} ValueAgain(once: Series, after: Series, init: seq<Row>, last: Row)
    requires !last.refused && !last.Missing() && Run(once, init) == once && after == Step(once, last)
    requires GapsUpTo(init, last.Micros())
    ensures Step(Run(after, init), last) == after
  {
    DifferenceStays(once, after, init, last.Micros());
    SameAt(once, Run(after, init), last.Micros(), ValueCell(last));
  }

  lemma {:induction false} GapAgain(once: Series, after: Series, init: seq<Row>, last: Row)
    requires !last.refused && last.Missing() && Run(once, init) == once && after == Step(once, last) != once
    ensures Step(Run(after, init), last) == after
  {
    var at, gap := last.Micros(), GapCell(last);
    GapApartStays(once, after, init, at, gap);
    var again := Run(after, init);
    HoldsHere(again, at);
    if again[at] == gap {
      assert forall m :: (m in again <==> m in after) && (m in again ==> again[m] == after[m]);
    } else {
      HoldsHere(once, at);
      SameAt(once, again, at, gap);
    }
  }

  lemma {:induction false} RunTwice(s: Series, rows: seq<Row>)
    requires Settled(rows)
    ensures Run(Run(s, rows), rows) == Run(s, rows)
  {
    if rows != [] {
      var init, last := rows[..|rows| - 1], rows[|rows| - 1];
      assert Settled(init) by {
        forall j | 0 <= j < |init| && !init[j].refused && !init[j].Missing()
          ensures GapsUpTo(init[..j], init[j].Micros())
        {
          assert init[..j] == rows[..j];
        }
      }
      RunTwice(s, init);
      var once := Run(s, init);
      var after := Step(once, last);
      if after != once {
        if last.Missing() {
          GapAgain(once, after, init, last);
        } else {
          assert rows[..|init|] == init;
          ValueAgain(once, after, init, last);
        }
      }
    }
  }

  lemma {:induction false} SignalSettled(rows: seq<Row>, signal: Signal)
    requires NoValueBehindGap(rows)
    ensures Settled(OfSignal(rows, signal))
  {
    if rows != [] {
      var init, last := rows[..|rows| - 1], rows[|rows| - 1];
      SignalSettled(init, signal);
      var mine, all := OfSignal(init, signal), OfSignal(rows, signal);
      forall j | 0 <= j < |all| && !all[j].refused && !all[j].Missing() ensures GapsUpTo(all[..j], all[j].Micros()) {
        if j < |mine| {
          assert all[..j] == mine[..j];
        } else {
          forall i | 0 <= i < j && all[i].Missing() && !all[i].refused ensures all[i].Micros() <= all[j].Micros() {
            assert all[i] in init;
          }
        }
      }
    }
  }

  /** Applying a page again changes nothing, for any table, when no value of it lies behind a
      retraction of its signal. */
  lemma {:induction false} ReplayIdempotent(t: Table, page: seq<Row>)
    requires NoValueBehindGap(page)
    ensures Fold(Fold(t, page), page) == Fold(t, page)
  {
    var once := Fold(t, page);
    forall signal ensures View(Fold(once, page), signal) == View(once, signal) {
      FoldInView(t, page, signal);
      FoldInView(once, page, signal);
      SignalSettled(page, signal);
      RunTwice(View(t, signal), OfSignal(page, signal));
    }
    TablesEqualByViews(Fold(once, page), once);
  }

  /** Both a page in time order and a page of values only are such pages. */
  lemma {:induction false} ForwardOrValuesReplay(t: Table, page: seq<Row>)
    requires Forward(page) || forall row :: row in page ==> !row.Missing()
    ensures Fold(Fold(t, page), page) == Fold(t, page)
  {
    assert NoValueBehindGap(page);
    ReplayIdempotent(t, page);
  }

  /** A late value behind a retraction: on any table without the signal the first application
      stores no gap, and the second does. */
  lemma {:induction false} LateValueBreaksReplay(t: Table, gap: Row, late: Row)
    requires gap.Missing() && !late.Missing() && !gap.refused && !late.refused
    requires late.signal == gap.signal && late.Micros() < gap.Micros()
    requires forall k :: k in t ==> k.signal != gap.signal
    ensures gap.Slot() !in Fold(t, [gap, late]) && gap.Slot() in Fold(Fold(t, [gap, late]), [gap, late])
  {
    FoldPair(t, gap, late);
    assert !LatestHolds(t, gap.signal, gap.Micros());
    var once := t[late.Slot() := ValueCell(late)];
    assert Fold(t, [gap, late]) == once;
    FoldPair(once, gap, late);
    LatestIsLate(t, once, gap, late);
  }

  lemma {:induction false} LatestIsLate(t: Table, once: Table, gap: Row, late: Row)
    requires !late.Missing() && late.signal == gap.signal && late.Micros() <= gap.Micros()
    requires (forall k :: k in t ==> k.signal != gap.signal) && once == t[late.Slot() := ValueCell(late)]
    ensures LatestHolds(once, gap.signal, gap.Micros())
  {
    var k := late.Slot();
    assert k in once && once[k].HoldsValue();
    assert forall o :: o in once && o.signal == gap.signal ==> o == k;
  }

  lemma {:induction false} FoldPair(t: Table, a: Row, b: Row)
    ensures Fold(t, [a, b]) == ApplyRow(ApplyRow(t, a), b)
  {
    assert [a, b][..1] == [a] && [a][..0] == [];
    assert Fold(t, [a]) == ApplyRow(Fold(t, []), a);
  }

  // ---------------------------------------------------------------- exactly which pages repeat

  /** Some of the page's rows, in their order: what is left after a filter or a marker skips the others. */
  ghost predicate Selection(part: seq<Row>, page: seq<Row>)
    decreases |page|
  {
    if page == [] then part == []
    else
      || Selection(part, page[..|page| - 1])
      || (part != [] && part[|part| - 1] == page[|page| - 1] && Selection(part[..|part| - 1], page[..|page| - 1]))
  }

  /** The page may be applied again, whatever rows of it are left out and whatever the table. */
  ghost predicate Repeats(page: seq<Row>) {
    forall part, t :: Selection(part, page) ==> Fold(Fold(t, part), part) == Fold(t, part)
  }

  lemma {:induction false} SelectionIndex(part: seq<Row>, page: seq<Row>, i: nat) returns (k: nat)
    requires Selection(part, page) && i < |part|
    ensures k < |page| && page[k] == part[i] && |part| - i <= |page| - k
    decreases |page|
  {
    var n := |page| - 1;
    if Selection(part, page[..n]) {
      k := SelectionIndex(part, page[..n], i);
    } else if i == |part| - 1 {
      k := n;
    } else {
      k := SelectionIndex(part[..|part| - 1], page[..n], i);
    }
  }

  lemma {:induction false} SelectionKeeps(part: seq<Row>, page: seq<Row>)
    requires Selection(part, page) && NoValueBehindGap(page)
    ensures NoValueBehindGap(part)
    decreases |page|
  {
    if page != [] {
      var n := |page| - 1;
      if Selection(part, page[..n]) {
        SelectionKeeps(part, page[..n]);
      } else {
        var m := |part| - 1;
        SelectionKeeps(part[..m], page[..n]);
        forall i | 0 <= i < m && part[i].signal == part[m].signal && !part[i].refused && !part[m].refused
          ensures part[i].Missing() && !part[m].Missing() ==> part[i].Micros() <= part[m].Micros()
        {
          var k := SelectionIndex(part[..m], page[..n], i);
          assert page[k] == part[i] && page[n] == part[m];
        }
      }
    }
  }

  lemma {:induction false} NoneSelected(page: seq<Row>)
    ensures Selection([], page)
  {
    if page != [] {
      NoneSelected(page[..|page| - 1]);
    }
  }

  lemma {:induction false} OneSelected(page: seq<Row>, i: nat)
    requires i < |page|
    ensures Selection([page[i]], page)
  {
    var n := |page| - 1;
    if i < n {
      OneSelected(page[..n], i);
    } else {
      NoneSelected(page[..n]);
      assert [page[i]][..0] == [];
    }
  }

  lemma {:induction false} PairSelected(page: seq<Row>, i: nat, j: nat)
    requires i < j < |page|
    ensures Selection([page[i], page[j]], page)
  {
    var n := |page| - 1;
    if j < n {
      PairSelected(page[..n], i, j);
    } else {
      OneSelected(page[..n], i);
      assert [page[i], page[j]][..1] == [page[i]];
    }
  }

  /** A page may be applied again, with whatever rows left out, if and only if no value of it follows a
      retraction of its signal with an earlier timestamp. */
  lemma {:induction false} RepeatsExactly(page: seq<Row>)
    ensures Repeats(page) <==> NoValueBehindGap(page)
  {
    if NoValueBehindGap(page) {
      forall part, t | Selection(part, page) ensures Fold(Fold(t, part), part) == Fold(t, part) {
        SelectionKeeps(part, page);
        ReplayIdempotent(t, part);
      }
    }
    forall i, j | 0 <= i < j < |page| && page[i].signal == page[j].signal && !page[i].refused && !page[j].refused
      ensures Repeats(page) && page[i].Missing() && !page[j].Missing() ==> page[i].Micros() <= page[j].Micros()
    {
      if page[i].Missing() && !page[j].Missing() && page[j].Micros() < page[i].Micros() {
        PairSelected(page, i, j);
        LateValueBreaksReplay(map[], page[i], page[j]);
      }
    }
  }
}
