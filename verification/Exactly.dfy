/**
 Exactly when the pipeline keeps its two strongest promises: that every row is applied once, and that
 the table is the one a sequential historian would have at the page marker.
 */
module Exactly {
  import opened Basics
  import opened MetricTable
  import opened Partition
  import opened StreamLog
  import opened Markers
  import opened SinkModel
  import opened Historian
  import opened Coverage
  import opened CoverageWrite
  import opened CoverageBlank
  import opened CoverageStranded
  import opened NoLoss
  import opened ExactlyOnce

  // ---------------------------------------------------------------- marker reads that answer

  /** No writer is about to write a batch that is in the database already. */
  ghost predicate Unlanded(s: State) {
    s.bridge.Piped? ==>
      forall i :: 0 <= i < |s.bridge.p.writers| && s.bridge.p.writers[i].phase == Writing ==>
        !s.bridge.p.writers[i].landed
  }

  lemma {:induction false} StepUnlanded(s: State, l: Label)
    requires Unlanded(s) && Sound(s) && Enabled(s, l) && !(l.Writes? && l.w.LookFails?)
    ensures Clean(s, l) && Unlanded(Next(s, l))
  {
    hide DbOk, CursorOk, Shape, Contiguous, SharesOk, PendingOk, MarkedOk, FloorsTrue, GotOk, PagedOk, Covered;
    if l.Writes? && !l.w.Dispatch? {
      assert s.bridge.p.loaded;
      if l.w.i < s.bridge.p.r.n {
        assert WriterFine(s.node, s.db, s.bridge.p.r, s.bridge.p.writers[l.w.i], l.w.i);
      }
    }
  }

  lemma {:induction false} StepClean(s: State, l: Label)
    requires Unlanded(s) && Steady(s) && Enabled(s, l) && !(l.Writes? && l.w.LookFails?)
    ensures Clean(s, l) && Unlanded(Next(s, l))
  {
    hide Steady, Sound, Blank;
    if !l.Out? {
      var h := SteadyIsSound(s);
      StoreUnseen(s, h, l);
      StepUnlanded(AtStore(s, h), l);
    }
  }

  /** A run in which every marker read answers commits no batch twice. */
  lemma {:induction false} AnsweredIsClean(s: State, ls: seq<Label>, t: State)
    requires Unlanded(s) && Steady(s) && Runs(s, ls, t) && RecreatedSafely(s, ls)
    requires forall l :: l in ls ==> !(l.Writes? && l.w.LookFails?)
    ensures CleanRun(s, ls)
    decreases |ls|
  {
    hide Steady, MayRecreate;
    if ls != [] {
      StepClean(s, ls[0]);
      StepKeeps(s, ls[0]);
      AnsweredIsClean(Next(s, ls[0]), ls[1..], t);
    }
  }

  // ---------------------------------------------------------------- every row once

  ghost predicate Increasing(rows: seq<Row>) {
    forall a, b :: 0 <= a < b < |rows| ==> rows[a].offset < rows[b].offset
  }

  lemma {:induction false} JournalPrefix(s: State, ls: seq<Label>, t: State)
    requires Runs(s, ls, t)
    ensures s.db.journal <= t.db.journal
    decreases |ls|
  {
    if ls != [] {
      assert s.db.journal <= Next(s, ls[0]).db.journal;
      JournalPrefix(Next(s, ls[0]), ls[1..], t);
    }
  }

  /** What was committed twice stays so. */
  lemma {:induction false} RepeatsStay(db: Database, later: Database, n: nat, i: nat)
    requires n > 0 && db.journal <= later.journal && !Increasing(Committed(db, n, i))
    ensures !Increasing(Committed(later, n, i))
  {
    hide Increasing, Share;
    var a, b := RowsIn(db.journal), RowsIn(later.journal[|db.journal|..]);
    assert RowsIn(later.journal) == a + b;
    ShareConcat(a, b, n, i);
    NotIncreasingMore(Share(a, n, i, -1), Share(b, n, i, -1));
  }

  lemma {:induction false} NotIncreasingMore(a: seq<Row>, b: seq<Row>)
    requires !Increasing(a)
    ensures !Increasing(a + b)
  {
    var x, y :| 0 <= x < y < |a| && a[x].offset >= a[y].offset;
    assert (a + b)[x] == a[x] && (a + b)[y] == a[y];
  }

  /** A stretch behind the claim, committed again, repeats a row. */
  lemma {:induction false} StretchRepeats(log: Log, n: nat, i: nat, lo: nat, hi: nat, claimed: nat)
    requires n > 0 && hi <= claimed <= |log| && PartRows(log, n, i, lo, hi) != []
    ensures !Increasing(PartRows(log, n, i, 0, claimed) + PartRows(log, n, i, lo, hi))
  {
    var first, again := PartRows(log, n, i, 0, claimed), PartRows(log, n, i, lo, hi);
    var row := again[0];
    assert row in again;
    var k := PartRowAt(log, n, i, lo, hi, row);
    PartHas(log, n, i, 0, claimed, k);
    var a :| 0 <= a < |first| && first[a] == row;
    var all := first + again;
    assert all[a] == row && all[|first|] == row;
  }

  lemma {:induction false} PartRowAt(log: Log, n: nat, i: nat, lo: nat, hi: nat, row: Row) returns (k: nat)
    requires n > 0 && hi <= |log| && row in PartRows(log, n, i, lo, hi)
    ensures lo < k <= hi && InPart(log, n, i, k) && row == TheRow(log, k)
  {
    if InPart(log, n, i, hi) && row == TheRow(log, hi) {
      k := hi;
    } else {
      k := PartRowAt(log, n, i, lo, hi - 1, row);
    }
  }

  /** Committing a batch that is in the database already repeats its rows. */
  lemma {:induction false} DirtyCommitRepeats(node: Node, db: Database, p: Pipeline, i: nat)
    requires RouteOk(node, p.r) && p.r.stream == 1 && WriterAt(p, i, Writing) && p.writers[i].landed
    requires WriterFine(node, db, p.r, p.writers[i], i) && PartExact(db, node.LogOf(1), p.r.n, i)
    ensures !Increasing(Committed(ShareWritten(db, p, i), p.r.n, i))
  {
    hide PartRows;
    var r, w, log := p.r, p.writers[i], node.LogOf(1);
    var lo, hi := Reach(r, i, w.fin), Reach(r, i, w.bat);
    SharesJoin(log, r, i, w.fin, w.bat);
    ShareReaches(log, r, i, w.bat - 1);
    CommittedGrows(db, 1, log, r.n, i, lo, hi, i);
    StretchRepeats(log, r.n, i, lo, hi, Claimed(db, r.n, i));
  }

  /** A step that is not clean breaks a partition's order. */
  lemma {:induction false} DirtyStep(s: State, n: nat, l: Label)
    requires Exact(s, n) && Enabled(s, l) && Plain(n, l) && !Clean(s, l)
    ensures l.w.i < n && !Increasing(Committed(Next(s, l).db, n, l.w.i))
  {
    hide DbOk, CursorOk, FloorsTrue, MarkedOk, GotOk, Increasing;
    var p, i := s.bridge.p, l.w.i;
    assert p.loaded && WriterFine(s.node, s.db, p.r, p.writers[i], i);
    assert PartExact(s.db, s.node.LogOf(1), n, i);
    DirtyCommitRepeats(s.node, s.db, p, i);
  }

  lemma {:induction false} DirtyRunRepeats(s: State, n: nat, ls: seq<Label>, t: State) returns (i: nat)
    requires Exact(s, n) && Runs(s, ls, t) && !CleanRun(s, ls) && forall l :: l in ls ==> Plain(n, l)
    ensures i < n && !Increasing(Committed(t.db, n, i))
    decreases |ls|
  {
    hide Exact, Increasing, Committed;
    var l, after := ls[0], Next(s, ls[0]);
    if Clean(s, l) {
      StepExact(s, n, l);
      i := DirtyRunRepeats(after, n, ls[1..], t);
    } else {
      DirtyStep(s, n, l);
      i := l.w.i;
      JournalPrefix(after, ls[1..], t);
      RepeatsStay(after.db, t.db, n, i);
    }
  }

  /** Exactly once, exactly. Over every run with n writers and one store, each partition's committed rows
      carry strictly increasing offsets if and only if no writer committed a batch that was in the
      database already, which takes a marker read that failed after a lost answer. */
  lemma {:induction false} ExactlyOnceExactly(n: nat, ls: seq<Label>, t: State)
    requires n > 0 && Runs(Initial(), ls, t) && forall l :: l in ls ==> Plain(n, l)
    ensures CleanRun(Initial(), ls) <==> forall i: nat :: i < n ==> Increasing(Committed(t.db, n, i))
  {
    hide Increasing, Committed, CleanRun, Runs, Plain, Exact;
    InitialExact(n);
    if CleanRun(Initial(), ls) {
      forall i: nat | i < n ensures Increasing(Committed(t.db, n, i)) {
        OnceIsIncreasing(n, ls, t, i);
      }
    } else {
      var i := DirtyRunRepeats(Initial(), n, ls, t);
    }
  }

  lemma {:induction false} OnceIsIncreasing(n: nat, ls: seq<Label>, t: State, i: nat)
    requires OnceRun(n, ls, t) && i < n
    ensures Increasing(Committed(t.db, n, i))
  {
    RowsApplyExactlyOnce(n, ls, t, i);
  }

  // ---------------------------------------------------------------- the table at the page marker

  /** The row at k is in the table although the page marker has not reached it. */
  predicate Ahead(log: Log, db: Database, n: nat, k: nat)
    requires n > 0
  {
    RowAt(log, k) && db.page.offset < k <= Own(db.parts, n, PartitionOf(log[k - 1].value.signal, n))
  }

  /** The rows ahead of the page marker at offsets up to hi, in stream order. */
  function AheadRows(log: Log, db: Database, n: nat, hi: nat): seq<Row>
    requires n > 0 && hi <= |log|
  {
    if hi == 0 then []
    else if Ahead(log, db, n, hi) then AheadRows(log, db, n, hi - 1) + [TheRow(log, hi)]
    else AheadRows(log, db, n, hi - 1)
  }

  lemma {:induction false} RowsSplit(log: Log, lo: nat, mid: nat, hi: nat)
    requires lo <= mid <= hi <= |log|
    ensures Rows(log, lo, hi) == Rows(log, lo, mid) + Rows(log, mid, hi)
  {
    if mid < hi {
      RowsSplit(log, lo, mid, hi - 1);
    }
  }

  /** A signal's rows ahead are its rows between the page marker and its partition's claim. */
  lemma {:induction false} SignalAhead(log: Log, db: Database, n: nat, signal: Signal, hi: nat)
    requires n > 0 && hi <= |log| && Claimed(db, n, PartitionOf(signal, n)) <= |log|
    ensures OfSignal(AheadRows(log, db, n, hi), signal) ==
            OfSignal(Rows(log, db.page.offset, Min(hi, Claimed(db, n, PartitionOf(signal, n)))), signal)
  {
    hide OfSignal, PartitionOf;
    var page, claimed := db.page.offset, Claimed(db, n, PartitionOf(signal, n));
    if hi > 0 {
      SignalAhead(log, db, n, signal, hi - 1);
      if RowAt(log, hi) {
        var row, before, upTo := TheRow(log, hi), AheadRows(log, db, n, hi - 1), Rows(log, page, Min(hi - 1, claimed));
        OfSignalAppend(before, row, signal);
        if page < hi <= claimed {
          assert Rows(log, page, hi) == upTo + [row];
          OfSignalAppend(upTo, row, signal);
        } else {
          assert Rows(log, page, Min(hi, claimed)) == upTo;
        }
      }
    } else {
      assert Rows(log, page, 0) == [];
    }
  }

  /** The committed rows, signal by signal, are the stream up to the page marker and the rows ahead of it. */
  lemma {:induction false} CommittedIsMarkerPlusAhead(n: nat, ls: seq<Label>, t: State)
    requires OnceRun(n, ls, t)
    ensures t.node.Has(1) && t.db.page.offset <= |t.node.LogOf(1)|
    ensures var log := t.node.LogOf(1);
            SameBySignal(RowsIn(t.db.journal), Rows(log, 0, t.db.page.offset) + AheadRows(log, t.db, n, |log|))
  {
    hide OnceRun, AheadRows, Rows, OfSignal, PartitionOf;
    var page := t.db.page.offset;
    SignalsApplyInOrder(n, ls, t, []);
    var log := t.node.LogOf(1);
    forall signal
      ensures OfSignal(RowsIn(t.db.journal), signal) ==
              OfSignal(Rows(log, 0, page) + AheadRows(log, t.db, n, |log|), signal)
    {
      var claimed := Claimed(t.db, n, PartitionOf(signal, n));
      SignalsApplyInOrder(n, ls, t, signal);
      RowsSplit(log, 0, page, claimed);
      OfSignalConcat(Rows(log, 0, page), Rows(log, page, claimed), signal);
      SignalAhead(log, t.db, n, signal, |log|);
      OfSignalConcat(Rows(log, 0, page), AheadRows(log, t.db, n, |log|), signal);
    }
  }

  /** At every moment of such a run the table is the sequential one at the page marker with the rows
      ahead of it applied. */
  lemma {:induction false} TableIsMarkerPlusAhead(n: nat, ls: seq<Label>, t: State)
    requires OnceRun(n, ls, t)
    ensures t.node.Has(1) && t.db.page.offset <= |t.node.LogOf(1)|
    ensures var log := t.node.LogOf(1);
            t.db.table == Fold(Fold(map[], Rows(log, 0, t.db.page.offset)), AheadRows(log, t.db, n, |log|))
  {
    hide AheadRows, Rows, SameBySignal, Fold, Runs, CleanRun, Plain;
    CommittedIsMarkerPlusAhead(n, ls, t);
    assert RowsIn(Initial().db.journal) == [];
    NoRowsYet(map[]);
    TableIsJournal(Initial(), ls, t);
    var log := t.node.LogOf(1);
    var upTo, ahead := Rows(log, 0, t.db.page.offset), AheadRows(log, t.db, n, |log|);
    InterleavingIrrelevant(map[], RowsIn(t.db.journal), upTo + ahead);
    FoldConcat(map[], upTo, ahead);
  }

  lemma {:induction false} OfSignalHas(rows: seq<Row>, row: Row)
    requires row in rows
    ensures OfSignal(rows, row.signal) != []
  {
    if rows[|rows| - 1] != row {
      OfSignalHas(rows[..|rows| - 1], row);
    }
  }

  lemma {:induction false} NothingMore(a: seq<Row>, b: seq<Row>)
    ensures SameBySignal(a + b, a) <==> b == []
  {
    if b == [] {
      assert a + b == a;
    } else {
      var row := b[0];
      OfSignalConcat(a, b, row.signal);
      OfSignalHas(b, row);
    }
  }

  /** The pipelined database at the page marker: what is committed is the stream up to the marker, signal by
      signal, if and only if no row is ahead of it; and the table is the sequential one if and only if the
      rows ahead, applied to it, change nothing. */
  lemma {:induction false} PipelinedTableIsSequential(n: nat, ls: seq<Label>, t: State)
    requires OnceRun(n, ls, t)
    ensures t.node.Has(1) && t.db.page.offset <= |t.node.LogOf(1)|
    ensures var log, page := t.node.LogOf(1), t.db.page.offset;
            && (SameBySignal(RowsIn(t.db.journal), Rows(log, 0, page)) <==> forall k: nat :: !Ahead(log, t.db, n, k))
            && (t.db.table == Fold(map[], Rows(log, 0, page)) <==>
                Fold(Fold(map[], Rows(log, 0, page)), AheadRows(log, t.db, n, |log|)) ==
                Fold(map[], Rows(log, 0, page)))
            && ((forall k: nat :: !Ahead(log, t.db, n, k)) ==> t.db.table == Fold(map[], Rows(log, 0, page)))
  {
    hide Runs, CleanRun, Plain, Rows, Fold;
    CommittedIsMarkerPlusAhead(n, ls, t);
    TableIsMarkerPlusAhead(n, ls, t);
    var log := t.node.LogOf(1);
    var upTo, ahead := Rows(log, 0, t.db.page.offset), AheadRows(log, t.db, n, |log|);
    NothingMore(upTo, ahead);
    NoneAhead(log, t.db, n, |log|);
    NoRowsYet(Fold(map[], upTo));
    assert SameBySignal(RowsIn(t.db.journal), upTo) <==> SameBySignal(upTo + ahead, upTo);
  }

  lemma {:induction false} NoneAhead(log: Log, db: Database, n: nat, hi: nat)
    requires n > 0 && hi <= |log|
    ensures AheadRows(log, db, n, hi) == [] <==> forall k: nat :: k <= hi ==> !Ahead(log, db, n, k)
  {
    if hi > 0 {
      NoneAhead(log, db, n, hi - 1);
    }
  }

  /** The row at k was written before this run began, and the page marker has not reached it since. */
  predicate LeftAhead(log: Log, db: Database, r: Route, k: nat)
    requires r.n > 0 && |Floors(r)| == r.n
  {
    RowAt(log, k) && db.page.offset < k <= Floors(r)[PartitionOf(log[k - 1].value.signal, r.n)]
  }

  lemma {:induction false} SamePartRows(log: Log, n: nat, i: nat, a: nat, b: nat, k: nat)
    requires n > 0 && a <= |log| && b <= |log| && PartRows(log, n, i, 0, a) == PartRows(log, n, i, 0, b)
    requires InPart(log, n, i, k) && k <= a
    ensures k <= b
  {
    PartHas(log, n, i, 0, a, k);
    PartIncreasing(log, n, i, 0, b);
  }

  /** With nothing in flight a row is ahead exactly if it was when the run began. */
  lemma {:induction false} DrainedAhead(t: State, n: nat, k: nat)
    requires Exact(t, n) && t.bridge.Piped? && t.bridge.p.loaded && NothingInFlight(t.bridge.p)
    ensures |Floors(t.bridge.p.r)| == n
    ensures Ahead(t.node.LogOf(1), t.db, n, k) <==> LeftAhead(t.node.LogOf(1), t.db, t.bridge.p.r, k)
  {
    hide DbOk, CursorOk, GotOk, PartRows;
    var p, log, page := t.bridge.p, t.node.LogOf(1), t.db.page.offset;
    if RowAt(log, k) {
      var i := PartitionOf(log[k - 1].value.signal, n);
      assert WriterExact(t.db, log, p.r, p.writers[i], i) && PartExact(t.db, log, n, i);
      BackClaims(t.node, t.db, p, i);
      var claimed, floor := Claimed(t.db, n, i), Max(Floor(p.r, i), p.marked);
      if k <= claimed {
        SamePartRows(log, n, i, claimed, floor, k);
      }
      if k <= floor {
        SamePartRows(log, n, i, floor, claimed, k);
      }
    }
  }

  /** With nothing in flight: what is committed is the stream up to the page marker if and only if the marker
      has passed every row the run was told at its start was written; and then the table is the sequential one. */
  lemma {:induction false} DrainedTableIsSequential(n: nat, ls: seq<Label>, t: State)
    requires OnceRun(n, ls, t) && t.bridge.Piped? && t.bridge.p.loaded && NothingInFlight(t.bridge.p)
    ensures t.node.Has(1) && t.db.page.offset <= |t.node.LogOf(1)| && t.bridge.p.r.n == |Floors(t.bridge.p.r)| == n
    ensures var log, upTo := t.node.LogOf(1), Rows(t.node.LogOf(1), 0, t.db.page.offset);
            && (SameBySignal(RowsIn(t.db.journal), upTo) <==> forall k: nat :: !LeftAhead(log, t.db, t.bridge.p.r, k))
            && ((forall k: nat :: !LeftAhead(log, t.db, t.bridge.p.r, k)) ==> t.db.table == Fold(map[], upTo))
  {
    hide Fold, Rows, Runs, CleanRun, Plain, Ahead, LeftAhead, SameBySignal;
    InitialExact(n);
    RunExact(Initial(), n, ls, t);
    PipelinedTableIsSequential(n, ls, t);
    DrainedAhead(t, n, 0);
    forall k: nat ensures Ahead(t.node.LogOf(1), t.db, n, k) <==> LeftAhead(t.node.LogOf(1), t.db, t.bridge.p.r, k) {
      DrainedAhead(t, n, k);
    }
  }
}
