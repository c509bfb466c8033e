/**
 The dispatcher's and the writers' steps keep the coverage invariant.
 */
module CoverageWrite {
  import opened Basics
  import opened MetricTable
  import opened Partition
  import opened StreamLog
  import opened Markers
  import opened SinkModel
  import opened Historian
  import opened Coverage

  lemma {:induction false} ReachMonotone(r: Route, i: nat, a: nat, b: nat)
    requires Shape(r) && Contiguous(r) && i < r.n && a <= b <= |r.pages|
    ensures Reach(r, i, a) <= Reach(r, i, b)
    decreases b
  {
    if a < b {
      ReachMonotone(r, i, a, b - 1);
      assert b > 1 ==> PagesMeet(r, b - 1);
    }
  }

  /** A writer's shares of consecutive pages are one stretch of its partition. */
  lemma {:induction false} SharesJoin(log: Log, r: Route, i: nat, lo: nat, hi: nat)
    requires Shape(r) && Contiguous(r) && SharesOk(log, r) && i < r.n && lo <= hi <= |r.pages|
    ensures Reach(r, i, lo) <= Reach(r, i, hi) <= |log|
    ensures ShareRows(r.pages, i, lo, hi) == PartRows(log, r.n, i, Reach(r, i, lo), Reach(r, i, hi))
    decreases hi
  {
    ReachMonotone(r, i, lo, hi);
    if lo < hi {
      SharesJoin(log, r, i, lo, hi - 1);
      ReachMonotone(r, i, hi - 1, hi);
      PartSplit(log, r.n, i, Reach(r, i, lo), Reach(r, i, hi - 1), Reach(r, i, hi));
    }
  }

  /** A page with a share for i ends past everything written for i before it. */
  lemma {:induction false} ShareReaches(log: Log, r: Route, i: nat, q: nat)
    requires Shape(r) && SharesOk(log, r) && i < r.n && q < |r.pages|
    requires r.pages[q].shares[i] != []
    ensures Reach(r, i, q) < Reach(r, i, q + 1) == r.pages[q].last
  {
    assert r.pages[q].shares[i] == PartRows(log, r.n, i, Reach(r, i, q), Reach(r, i, q + 1));
  }

  lemma {:induction false} CoverMore(journal: seq<Entry>, s: StoreId, log: Log, n: nat, i: nat, lo: nat, hi: nat,
                                     more: seq<Entry>)
    requires n > 0 && lo <= hi <= |log| && Covered(journal, s, log, n, i, lo)
    requires forall e :: e in journal ==> e in more
    requires forall row :: row in PartRows(log, n, i, lo, hi) ==> Entry(s, row) in more
    ensures Covered(more, s, log, n, i, hi)
  {
    forall k: nat | k <= hi && InPart(log, n, i, k) ensures Entry(s, TheRow(log, k)) in more {
      if k > lo {
        PartHas(log, n, i, lo, hi, k);
      }
    }
  }

  lemma {:induction false} TaggedIn(journal: seq<Entry>, s: StoreId, rows: seq<Row>)
    ensures forall e :: e in journal ==> e in journal + Tagged(s, rows)
    ensures forall row :: row in rows ==> Entry(s, row) in journal + Tagged(s, rows)
  {
    forall row | row in rows ensures Entry(s, row) in journal + Tagged(s, rows) {
      var j :| 0 <= j < |rows| && rows[j] == row;
      assert Tagged(s, rows)[j] == Entry(s, row);
    }
  }

  /** Committing only adds to what is covered. */
  lemma {:induction false} JournalGrows(node: Node, db: Database, more: Database)
    requires DbOk(node, db) && more.page == db.page && more.parts == db.parts && more.partsOf == db.partsOf
    requires more.home == db.home
    requires forall e :: e in db.journal ==> e in more.journal
    ensures DbOk(node, more)
  {
    assert PartsZero(db) ==> PartsZero(more);
    if !PartsZero(db) {
      forall k | k in more.parts
        ensures Covered(more.journal, more.partsOf, node.LogOf(more.partsOf), k.0, k.1, more.parts[k])
      {
        assert Covered(db.journal, db.partsOf, node.LogOf(db.partsOf), k.0, k.1, db.parts[k]);
      }
    }
  }

  /** Moving one partition's marker in store s, once its rows up to there are committed. */
  lemma {:induction false} PartMoves(node: Node, db: Database, after: Database, s: StoreId, n: nat, i: nat,
                                     through: nat)
    requires DbOk(node, db) && node.Has(s) && i < n && through <= |node.LogOf(s)|
    requires PartsZero(db) || db.partsOf == s
    requires after.page == db.page && after.parts == db.parts[(n, i) := through] && after.partsOf == s
    requires after.home == db.home
    requires db.page.store <= s && (db.page.offset == 0 ==> s == db.home)
    requires forall e :: e in db.journal ==> e in after.journal
    requires Covered(after.journal, s, node.LogOf(s), n, i, through)
    ensures DbOk(node, after)
  {
    var log := node.LogOf(s);
    forall k | k in after.parts
      ensures k.1 < k.0 && after.parts[k] <= |log| && Covered(after.journal, s, log, k.0, k.1, after.parts[k])
    {
      if k != (n, i) {
        assert k in db.parts && after.parts[k] == db.parts[k];
        if !PartsZero(db) {
          assert Covered(db.journal, s, log, k.0, k.1, db.parts[k]);
        }
      }
    }
  }

  /** Writer i's transaction: its marker moves to a point up to which its partition is written. */
  lemma {:induction false} CommitCovers(node: Node, db: Database, p: Pipeline, i: nat)
    requires RouteOk(node, p.r) && WriterAt(p, i, Writing) && WriterFine(node, db, p.r, p.writers[i], i)
    ensures node.Has(p.r.stream) && Reach(p.r, i, p.writers[i].bat) <= |node.LogOf(p.r.stream)|
    ensures Covered(ShareWritten(db, p, i).journal, p.r.stream, node.LogOf(p.r.stream), p.r.n, i,
                    Reach(p.r, i, p.writers[i].bat))
    ensures Through(p, i) == Reach(p.r, i, p.writers[i].bat)
    ensures forall e :: e in db.journal ==> e in ShareWritten(db, p, i).journal
  {
    var r, w := p.r, p.writers[i];
    var log := node.LogOf(r.stream);
    var rows := ShareRows(r.pages, i, w.fin, w.bat);
    SharesJoin(log, r, i, w.fin, w.bat);
    ShareReaches(log, r, i, w.bat - 1);
    TaggedIn(db.journal, r.stream, rows);
    ReachMonotone(r, i, w.fin, w.Com());
    CoverMore(db.journal, r.stream, log, r.n, i, Reach(r, i, w.fin), Reach(r, i, w.bat),
              db.journal + Tagged(r.stream, rows));
  }

  /** What is left to show for a step that only moves writers and counts. */
  lemma {:induction false} WriterStepKeeps(node: Node, db: Database, after: Database, p: Pipeline, u: Pipeline)
    requires p.loaded && RouteOk(node, p.r) && MarkedOk(db, p) && GotOk(node, db, p)
    requires u == p.(writers := u.writers, pending := u.pending) && after.page == db.page && after.home == db.home
    requires WritersOk(node, after, p.r, u.writers) && PendingOk(u)
    requires Engaged(node, db, p.r, p.got) ==> FloorsTrue(node, after, p.r)
    ensures PipedOk(node, after, u)
  {
    hide RouteOk, WritersOk, PendingOk, FloorsTrue;
    assert u.r == p.r;
  }

  lemma {:induction false} CommitKeepsWriters(node: Node, db: Database, p: Pipeline, i: nat, heard: bool)
    requires RouteOk(node, p.r) && WriterAt(p, i, Writing) && WritersOk(node, db, p.r, p.writers)
    ensures WritersOk(node, ShareWritten(db, p, i), p.r, WriteNext(db, p, Commit(i, heard)).writers)
  {
    assert WriterFine(node, db, p.r, p.writers[i], i);
    CommitCovers(node, db, p, i);
    var after, u := ShareWritten(db, p, i), WriteNext(db, p, Commit(i, heard));
    forall j: nat | j < p.r.n ensures WriterFine(node, after, p.r, u.writers[j], j) {
      assert WriterFine(node, db, p.r, p.writers[j], j);
      if j != i {
        assert u.writers[j] == p.writers[j];
        assert Own(after.parts, p.r.n, j) == Own(db.parts, p.r.n, j);
      } else {
        assert Own(after.parts, p.r.n, i) == Through(p, i);
      }
    }
  }

  lemma {:induction false} PendingSame(p: Pipeline, u: Pipeline)
    requires Shape(p.r) && |p.writers| == p.r.n && PendingOk(p)
    requires u.r == p.r && u.pending == p.pending && u.marking == p.marking && u.released == p.released
    requires |u.writers| == p.r.n && forall i :: 0 <= i < p.r.n ==> u.writers[i].fin == p.writers[i].fin
    ensures PendingOk(u)
  {
    forall q | 0 <= q < |p.r.pages| ensures u.pending[q] == Unfinished(u.r.pages[q], u.writers, q, p.r.n) {
      UnfinishedSame(p.r.pages[q], p.writers, u.writers, q, p.r.n);
    }
  }

  lemma {:induction false} FloorsStay(node: Node, db: Database, after: Database, r: Route)
    requires Shape(r) && FloorsTrue(node, db, r)
    requires after.home == db.home && forall e :: e in db.journal ==> e in after.journal
    requires PartsZero(after) || after.partsOf == Home(db, r.stream)
    ensures FloorsTrue(node, after, r)
  {
    forall i: nat | i < r.n
      ensures Covered(after.journal, Home(db, r.stream), node.LogOf(Home(db, r.stream)), r.n, i, Floor(r, i))
    {
      assert Covered(db.journal, Home(db, r.stream), node.LogOf(Home(db, r.stream)), r.n, i, Floor(r, i));
    }
  }

  lemma {:induction false} CommitKeeps(node: Node, db: Database, p: Pipeline, i: nat, heard: bool)
    requires DbOk(node, db) && p.loaded && PipedOk(node, db, p) && WriterAt(p, i, Writing)
    ensures DbOk(node, ShareWritten(db, p, i))
    ensures PipedOk(node, ShareWritten(db, p, i), WriteNext(db, p, Commit(i, heard)))
  {
    hide GotOk, Unfinished, Covered;
    var after, u := ShareWritten(db, p, i), WriteNext(db, p, Commit(i, heard));
    assert WriterFine(node, db, p.r, p.writers[i], i);
    CommitCovers(node, db, p, i);
    PartMoves(node, db, after, p.r.stream, p.r.n, i, Through(p, i));
    CommitKeepsWriters(node, db, p, i, heard);
    PendingSame(p, u);
    FloorsStay(node, db, after, p.r);
    WriterStepKeeps(node, db, after, p, u);
  }

  lemma {:induction false} UnfinishedSame(page: Page, a: seq<Writer>, b: seq<Writer>, q: nat, m: nat)
    requires m <= |a| == |b| && m <= |page.shares|
    requires forall i :: 0 <= i < m ==> (a[i].fin <= q <==> b[i].fin <= q)
    ensures Unfinished(page, a, q, m) == Unfinished(page, b, q, m)
  {
    if m > 0 {
      UnfinishedSame(page, a, b, q, m - 1);
    }
  }

  /** A step of writer i that finishes no page and keeps its coverage. */
  lemma {:induction false} QuietWriterStep(node: Node, db: Database, p: Pipeline, i: nat, w: Writer)
    requires p.loaded && PipedOk(node, db, p) && i < p.r.n
    requires w.fin == p.writers[i].fin && w.Com() == p.writers[i].Com() && WriterOk(p.r, w, i)
    ensures PipedOk(node, db, SetWriter(p, i, w))
  {
    hide SharesOk, ItemsOk, Contiguous, FloorsTrue, GotOk, MarkedOk, Unfinished;
    assert WriterFine(node, db, p.r, p.writers[i], i);
    OneWriterChanges(node, db, p.r, p.writers, i, w);
    PendingSame(p, SetWriter(p, i, w));
    WriterStepKeeps(node, db, db, p, SetWriter(p, i, w));
  }

  /** The look after a failed write tells whether it landed: the own marker is at the batch's end or past
      it exactly if the batch is in the database. */
  lemma {:induction false} LookIsRight(node: Node, db: Database, p: Pipeline, i: nat)
    requires RouteOk(node, p.r) && WriterAt(p, i, Failing) && WriterFine(node, db, p.r, p.writers[i], i)
    ensures Own(db.parts, p.r.n, i) >= Through(p, i) <==> p.writers[i].landed
  {
    var r, w := p.r, p.writers[i];
    ShareReaches(node.LogOf(r.stream), r, i, w.bat - 1);
    ReachMonotone(r, i, w.fin, w.bat - 1);
  }

  lemma {:induction false} FinishCounts(page: Page, a: seq<Writer>, b: seq<Writer>, q: nat, m: nat, i: nat)
    requires m <= |a| == |b| && m <= |page.shares| && i < m
    requires forall j :: 0 <= j < m && j != i ==> b[j] == a[j]
    requires page.shares[i] != [] && a[i].fin <= q < b[i].fin
    ensures Unfinished(page, a, q, m) == Unfinished(page, b, q, m) + 1
  {
    if m - 1 == i {
      UnfinishedSame(page, a, b, q, m - 1);
    } else {
      FinishCounts(page, a, b, q, m - 1, i);
    }
  }

  lemma {:induction false} FinishIgnores(page: Page, a: seq<Writer>, b: seq<Writer>, q: nat, m: nat, i: nat)
    requires m <= |a| == |b| && m <= |page.shares| && i < |a|
    requires forall j :: 0 <= j < m && j != i ==> b[j] == a[j]
    requires i < m ==> page.shares[i] == [] || (a[i].fin <= q <==> b[i].fin <= q)
    ensures Unfinished(page, a, q, m) == Unfinished(page, b, q, m)
  {
    if m > 0 {
      FinishIgnores(page, a, b, q, m - 1, i);
    }
  }

  lemma {:induction false} FinishKeepsPending(db: Database, p: Pipeline, i: nat)
    requires Shape(p.r) && |p.writers| == p.r.n && PendingOk(p) && WriterAt(p, i, Done)
    ensures PendingOk(WriteNext(db, p, Finish(i)))
  {
    var u, w := WriteNext(db, p, Finish(i)), p.writers[i];
    forall q | 0 <= q < |p.r.pages|
      ensures u.pending[q] == Unfinished(u.r.pages[q], u.writers, q, p.r.n) && u.pending[q] <= p.pending[q]
    {
      if w.fin <= q < w.bat && p.r.pages[q].shares[i] != [] {
        FinishCounts(p.r.pages[q], p.writers, u.writers, q, p.r.n, i);
      } else {
        FinishIgnores(p.r.pages[q], p.writers, u.writers, q, p.r.n, i);
      }
    }
  }

  lemma {:induction false} OneWriterChanges(node: Node, db: Database, r: Route, writers: seq<Writer>, i: nat, w: Writer)
    requires Shape(r) && WritersOk(node, db, r, writers) && i < r.n && WriterFine(node, db, r, w, i)
    ensures WritersOk(node, db, r, writers[i := w])
  {
  }

  lemma {:induction false} FinishKeeps(node: Node, db: Database, p: Pipeline, i: nat)
    requires p.loaded && PipedOk(node, db, p) && WriterAt(p, i, Done)
    ensures PipedOk(node, db, WriteNext(db, p, Finish(i)))
  {
    var w := p.writers[i];
    assert WriterFine(node, db, p.r, w, i);
    FinishKeepsPending(db, p, i);
    OneWriterChanges(node, db, p.r, p.writers, i, Writer(w.sent, w.bat, w.bat, Idle, false));
    WriterStepKeeps(node, db, db, p, WriteNext(db, p, Finish(i)));
  }

  lemma {:induction false} CountIsUnfinished(page: Page, writers: seq<Writer>, q: nat, m: nat)
    requires m <= |writers| && m <= |page.shares| && forall i :: 0 <= i < m ==> writers[i].fin <= q
    ensures Unfinished(page, writers, q, m) == CountNonEmpty(page.shares[..m])
  {
    if m > 0 {
      CountIsUnfinished(page, writers, q, m - 1);
      assert page.shares[..m][..m - 1] == page.shares[..m - 1];
    }
  }

  lemma {:induction false} DispatchKeepsShape(r: Route)
    requires Shape(r) && Contiguous(r) && Dispatchable(r)
    ensures Shape(Dispatched(r)) && Contiguous(Dispatched(r))
    ensures Floors(Dispatched(r)) == Floors(r) == FloorsFrom(r, r.order[0])
    ensures forall i: nat, c: nat :: i < r.n && c <= |r.pages| ==> Reach(Dispatched(r), i, c) == Reach(r, i, c)
  {
    var u := Dispatched(r);
    forall q | 0 < q < |u.pages| ensures PagesMeet(u, q) {
      assert q < |r.pages| ==> PagesMeet(r, q);
    }
    forall k | 0 < k < |u.order| ensures ItemsMeet(u, k) {
      assert ItemsMeet(r, k + 1);
    }
    assert |r.order| > 1 ==> ItemsMeet(r, 1);
  }

  /** The dispatched page's shares are the partitions' next stretches. */
  lemma {:induction false} NextSharesAre(log: Log, r: Route, i: nat)
    requires Shape(r) && Contiguous(r) && Dispatchable(r) && SharesOk(log, r) && ItemsOk(log, r) && i < r.n
    requires Floors(r) == FloorsFrom(r, r.order[0])
    ensures Max(Floor(r, i), r.order[0].last) <= |log|
    ensures NextShares(r)[i] == PartRows(log, r.n, i, Reach(r, i, |r.pages|), Max(Floor(r, i), r.order[0].last))
  {
    var item, q := r.order[0], |r.pages|;
    assert item.last <= |log| && Floor(r, i) <= |log|;
    var lo := Max(Max(item.first - 1, r.applied), Floors(r)[i]);
    assert lo == Reach(r, i, q) by {
      assert q > 0 ==> r.pages[q - 1].last == item.first - 1;
    }
    assert NextShares(r)[i] == PartRows(log, r.n, i, lo, item.last) by {
      assert NextShares(r)[i] == Share(item.rows, r.n, i, Floors(r)[i]);
      assert item.rows == Rows(log, Max(item.first - 1, r.applied), item.last);
      ShareIsPart(log, r.n, i, Max(item.first - 1, r.applied), item.last, Floors(r)[i]);
    }
    assert item.last <= lo ==> Max(Floor(r, i), item.last) <= lo;
  }

  lemma {:induction false} DispatchKeepsShare(log: Log, r: Route, q: nat, i: nat)
    requires Shape(r) && Contiguous(r) && Dispatchable(r) && SharesOk(log, r) && ItemsOk(log, r) && i < r.n
    requires q <= |r.pages|
    ensures Shape(Dispatched(r)) && Reach(Dispatched(r), i, q + 1) <= |log|
    ensures Dispatched(r).pages[q].shares[i] ==
            PartRows(log, r.n, i, Reach(Dispatched(r), i, q), Reach(Dispatched(r), i, q + 1))
  {
    DispatchKeepsShape(r);
    NextSharesAre(log, r, i);
    if q < |r.pages| {
      assert Dispatched(r).pages[q] == r.pages[q];
      assert r.pages[q].shares[i] == PartRows(log, r.n, i, Reach(r, i, q), Reach(r, i, q + 1));
    }
  }

  lemma {:induction false} DispatchKeepsRoute(node: Node, r: Route)
    requires RouteOk(node, r) && Dispatchable(r)
    ensures RouteOk(node, Dispatched(r)) && Floors(Dispatched(r)) == Floors(r)
    ensures forall i: nat, c: nat :: i < r.n && c <= |r.pages| ==> Reach(Dispatched(r), i, c) == Reach(r, i, c)
  {
    DispatchKeepsShape(r);
    var u, log := Dispatched(r), node.LogOf(r.stream);
    assert ItemsOk(log, u);
    forall p, i: nat {:trigger u.pages[p].shares[i]} | 0 <= p < |u.pages| && i < u.n
      ensures Reach(u, i, p + 1) <= |log|
      ensures u.pages[p].shares[i] == PartRows(log, u.n, i, Reach(u, i, p), Reach(u, i, p + 1))
    {
      DispatchKeepsShare(log, r, p, i);
    }
    forall i: nat | i < r.n ensures Floor(u, i) <= |log| {
      assert Floor(u, i) == Floor(r, i);
    }
  }

  lemma {:induction false} DispatchKeepsWriter(node: Node, db: Database, r: Route, w: Writer, i: nat)
    requires RouteOk(node, r) && Dispatchable(r) && i < r.n && WriterFine(node, db, r, w, i) && w.sent == |r.pages|
    requires FloorsTrue(node, db, r) && RouteOk(node, Dispatched(r))
    requires forall i: nat, c: nat :: i < r.n && c <= |r.pages| ==> Reach(Dispatched(r), i, c) == Reach(r, i, c)
    ensures WriterFine(node, db, Dispatched(r), w, i)
    ensures NextShares(r)[i] == [] ==> WriterFine(node, db, Dispatched(r), w.(sent := |r.pages| + 1), i)
  {
    assert Reach(Dispatched(r), i, w.Com()) == Reach(r, i, w.Com());
    assert r.pages == [] ==> Reach(r, i, w.Com()) == Floor(r, i);
    assert forall q :: 0 <= q < |r.pages| ==> Dispatched(r).pages[q] == r.pages[q];
  }

  lemma {:induction false} DispatchKeepsWriters(node: Node, db: Database, p: Pipeline)
    requires RouteOk(node, p.r) && WritersOk(node, db, p.r, p.writers) && FloorsTrue(node, db, p.r)
    requires WriteEnabled(p, Dispatch)
    ensures RouteOk(node, DispatchNext(p).r) && WritersOk(node, db, DispatchNext(p).r, DispatchNext(p).writers)
  {
    hide WriterFine, NextShares, FloorsTrue, SharesOk, ItemsOk, Contiguous;
    var u := DispatchNext(p);
    DispatchKeepsRoute(node, p.r);
    forall i: nat | i < p.r.n ensures WriterFine(node, db, u.r, u.writers[i], i) {
      DispatchKeepsWriter(node, db, p.r, p.writers[i], i);
    }
  }

  lemma {:induction false} DispatchKeepsPending(p: Pipeline)
    requires Shape(p.r) && WriteEnabled(p, Dispatch) && PendingOk(p) && Shape(Dispatched(p.r))
    requires forall i :: 0 <= i < p.r.n ==> p.writers[i].fin <= |p.r.pages|
    ensures PendingOk(DispatchNext(p))
  {
    var u, r := DispatchNext(p), p.r;
    forall q | 0 <= q < |u.r.pages| ensures u.pending[q] == Unfinished(u.r.pages[q], u.writers, q, r.n) {
      if q < |r.pages| {
        UnfinishedSame(r.pages[q], p.writers, u.writers, q, r.n);
      } else {
        CountIsUnfinished(u.r.pages[q], u.writers, q, r.n);
        assert u.r.pages[q].shares[..r.n] == NextShares(r);
      }
    }
  }

  lemma {:induction false} DispatchKeepsFloors(node: Node, db: Database, r: Route)
    requires Shape(r) && Contiguous(r) && Dispatchable(r) && FloorsTrue(node, db, r)
    ensures Shape(Dispatched(r)) && FloorsTrue(node, db, Dispatched(r))
  {
    DispatchKeepsShape(r);
    assert forall i: nat :: i < r.n ==> Floor(Dispatched(r), i) == Floor(r, i);
  }

  lemma {:induction false} DispatchKeeps(node: Node, db: Database, p: Pipeline)
    requires p.loaded && PipedOk(node, db, p) && WriteEnabled(p, Dispatch)
    ensures PipedOk(node, db, DispatchNext(p))
  {
    assert Engaged(node, db, p.r, p.got);
    DispatchKeepsWriters(node, db, p);
    assert forall i: nat :: i < p.r.n ==> WriterFine(node, db, p.r, p.writers[i], i);
    DispatchKeepsPending(p);
    DispatchKeepsFloors(node, db, p.r);
    DispatchAssembles(node, db, p, DispatchNext(p));
  }

  lemma {:induction false} DispatchAssembles(node: Node, db: Database, p: Pipeline, u: Pipeline)
    requires p.loaded && MarkedOk(db, p) && GotOk(node, db, p) && p.marking <= |p.r.pages| && Dispatchable(p.r)
    requires u == p.(r := Dispatched(p.r), pending := u.pending, writers := u.writers)
    requires RouteOk(node, u.r) && WritersOk(node, db, u.r, u.writers) && PendingOk(u) && FloorsTrue(node, db, u.r)
    ensures PipedOk(node, db, u)
  {
    DispatchKeepsMarks(node, db, p, u);
  }

  lemma {:induction false} DispatchKeepsMarks(node: Node, db: Database, p: Pipeline, u: Pipeline)
    requires MarkedOk(db, p) && GotOk(node, db, p) && p.marking <= |p.r.pages| && Dispatchable(p.r)
    requires u == p.(r := Dispatched(p.r), pending := u.pending, writers := u.writers)
    ensures MarkedOk(db, u) && GotOk(node, db, u)
  {
    assert u.r.stream == p.r.stream && u.r.next == p.r.next && u.r.applied == p.r.applied;
    assert Chained(u.r) && Chained(p.r);
    assert p.marking > 0 ==> u.r.pages[p.marking - 1] == p.r.pages[p.marking - 1];
  }

  lemma {:induction false} QuietWriterOk(db: Database, p: Pipeline, i: nat, l: Write)
    requires Shape(p.r) && WriteEnabled(p, l) && !l.Dispatch? && !l.Finish? && !l.Commit?
    requires i == l.i < p.r.n == |p.writers|
    requires WriterOk(p.r, p.writers[i], i)
    requires l.Look? ==> (Own(db.parts, p.r.n, i) >= Through(p, i) ==> p.writers[i].landed)
    ensures WriterOk(p.r, WriterNext(db, p, i, l), i)
    ensures WriterNext(db, p, i, l).fin == p.writers[i].fin && WriterNext(db, p, i, l).Com() == p.writers[i].Com()
  {
  }

  lemma {:induction false} QuietKeeps(node: Node, db: Database, p: Pipeline, l: Write)
    requires p.loaded && PipedOk(node, db, p) && WriteEnabled(p, l)
    requires !l.Dispatch? && !l.Finish? && !l.Commit?
    ensures PipedOk(node, db, WriteNext(db, p, l))
  {
    var i := l.i;
    assert i < p.r.n && WriterFine(node, db, p.r, p.writers[i], i);
    if l.Look? {
      LookIsRight(node, db, p, i);
    }
    QuietWriterOk(db, p, i, l);
    QuietWriterStep(node, db, p, i, WriterNext(db, p, i, l));
  }

  lemma {:induction false} WriteKeepsParts(node: Node, db: Database, p: Pipeline, l: Write)
    requires DbOk(node, db) && p.loaded && PipedOk(node, db, p) && WriteEnabled(p, l)
    ensures DbOk(node, WriteDb(db, p, l)) && PipedOk(node, WriteDb(db, p, l), WriteNext(db, p, l))
  {
    if l.Dispatch? {
      DispatchKeeps(node, db, p);
    } else if l.Finish? {
      FinishKeeps(node, db, p, l.i);
    } else if l.Commit? {
      CommitKeeps(node, db, p, l.i, l.heard);
    } else {
      QuietKeeps(node, db, p, l);
    }
  }

  /** Every step of the dispatcher and the writers keeps the invariant. */
  lemma {:induction false} WriteKeeps(s: State, l: Write)
    requires Inv(s) && s.bridge.Piped? && WriteEnabled(s.bridge.p, l)
    ensures Inv(Next(s, Writes(l)))
  {
    hide RouteOk, WritersOk, PendingOk, DbOk, FloorsTrue, MarkedOk, GotOk;
    assert s.bridge.p.loaded;
    WriteKeepsParts(s.node, s.db, s.bridge.p, l);
  }
}
