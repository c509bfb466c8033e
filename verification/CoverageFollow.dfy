/**
 The fetcher's and the marker goroutine's steps keep the coverage invariant.
 */
module CoverageFollow {
  import opened Basics
  import opened MetricTable
  import opened Partition
  import opened StreamLog
  import opened Markers
  import opened SinkModel
  import opened Historian
  import opened Coverage
  import opened CoverageWrite

  lemma {:induction false} AllCoversPart(journal: seq<Entry>, s: StoreId, log: Log, n: nat, i: nat, upTo: nat)
    requires n > 0 && CoveredAll(journal, s, log, upTo)
    ensures Covered(journal, s, log, n, i, upTo)
  {
    forall k: nat | k <= upTo && InPart(log, n, i, k) ensures Entry(s, TheRow(log, k)) in journal {
      assert RowAt(log, k);
    }
  }

  lemma {:induction false} PartsCoverAll(journal: seq<Entry>, s: StoreId, log: Log, n: nat, upTo: nat)
    requires n > 0 && forall i: nat :: i < n ==> Covered(journal, s, log, n, i, upTo)
    ensures CoveredAll(journal, s, log, upTo)
  {
    forall k: nat | k <= upTo && RowAt(log, k) ensures Entry(s, TheRow(log, k)) in journal {
      var i := PartitionOf(log[k - 1].value.signal, n);
      assert InPart(log, n, i, k) && Covered(journal, s, log, n, i, upTo);
    }
  }

  /** In the store whose positions the markers are, the resume point skips no row that is not committed. */
  lemma {:induction false} ResumeCovered(node: Node, db: Database, s: StoreId, n: nat, resume: nat)
    requires DbOk(node, db) && s == Home(db, db.page.store) && (PartsZero(db) || db.partsOf == s)
    requires ResumesAt(db.page.offset, db.parts, n, resume)
    ensures node.Has(s) && resume <= |node.LogOf(s)| && CoveredAll(db.journal, s, node.LogOf(s), resume)
  {
    if resume != db.page.offset {
      var c: nat :| OtherFloor(db.parts, n, c, resume);
      assert (c, 0) in db.parts && !PartsZero(db);
      forall i: nat | i < c ensures Covered(db.journal, s, node.LogOf(s), c, i, resume) {
        assert (c, i) in db.parts;
        assert Covered(db.journal, s, node.LogOf(s), c, i, db.parts[(c, i)]);
      }
      PartsCoverAll(db.journal, s, node.LogOf(s), c, resume);
    }
  }

  lemma {:induction false} OwnCovered(node: Node, db: Database, n: nat, i: nat)
    requires DbOk(node, db) && n > 0 && (PartsZero(db) || db.partsOf == node.Store())
    ensures Own(db.parts, n, i) <= |node.LogOf(node.Store())|
    ensures Covered(db.journal, node.Store(), node.LogOf(node.Store()), n, i, Own(db.parts, n, i))
  {
    if (n, i) in db.parts && !PartsZero(db) {
      assert Covered(db.journal, db.partsOf, node.LogOf(db.partsOf), n, i, db.parts[(n, i)]);
    }
  }

  lemma {:induction false} LoadFloors(node: Node, db: Database, r: Route, resume: nat)
    requires DbOk(node, db) && Shape(r) && r.stream == db.page.store && node.Store() == Home(db, r.stream)
    requires ResumesAt(db.page.offset, db.parts, r.n, resume) && r.applied == resume
    requires forall i: nat :: i < r.n ==> Floors(r)[i] == Own(db.parts, r.n, i)
    ensures FloorsTrue(node, db, r)
  {
    ResumeCovered(node, db, node.Store(), r.n, resume);
    forall i: nat | i < r.n
      ensures Floor(r, i) <= |node.LogOf(node.Store())|
      ensures Covered(db.journal, node.Store(), node.LogOf(node.Store()), r.n, i, Floor(r, i))
    {
      OwnCovered(node, db, r.n, i);
      AllCoversPart(db.journal, node.Store(), node.LogOf(node.Store()), r.n, i, resume);
    }
  }

  lemma {:induction false} LoadKeeps(s: State, p: Pipeline, resume: nat)
    requires DbOk(s.node, s.db) && PipedOk(s.node, s.db, p) && FollowEnabled(s, p, Load(resume))
    ensures PipedOk(s.node, s.db, FollowNext(s, p, Load(resume)))
  {
    var u := FollowNext(s, p, Load(resume));
    assert Shape(u.r) && Floors(u.r) == u.r.carry.value;
    if s.node.Store() == Home(s.db, u.r.stream) {
      LoadFloors(s.node, s.db, u.r, resume);
    }
    forall i: nat | i < u.r.n ensures WriterFine(s.node, s.db, u.r, u.writers[i], i) {
      assert u.writers[i] == Writer(0, 0, 0, Idle, false);
    }
  }

  /** What a page read from the cursor says about the store it comes from: it is the run's own
      unless the marker is a position in another one. */
  lemma {:induction false} CursorPageStore(node: Node, db: Database, p: Pipeline)
    requires DbOk(node, db) && MarkedOk(db, p) && GotOk(node, db, p) && Contiguous(p.r) && p.r.stream <= node.Store()
    requires p.got.Some? && !p.got.value.ahead
    ensures !Chained(p.r) && p.marked == db.page.offset
    ensures p.got.value.first <= p.marked + 1 <= p.r.applied + 1
    ensures NewStream(p.got.value, p.marked, p.r.stream) ==>
              p.r.stream == db.page.store < p.got.value.store && p.got.value.first == 1
    ensures !NewStream(p.got.value, p.marked, p.r.stream) ==>
              p.got.value.store == Home(db, p.r.stream) == Adopt(p.r.stream, p.got.value.store)
  {
  }

  /** A page of the followed stream joins the route behind what is in flight. */
  lemma {:induction false} EnqueueKeepsRoute(node: Node, r: Route, got: Fetched)
    requires Shape(r) && Contiguous(r) && r.stream <= node.Store() && Usable(node, got) && got.store == r.stream > 0
    requires Chained(r) ==> SharesOk(node.LogOf(r.stream), r) && ItemsOk(node.LogOf(r.stream), r)
    requires forall i: nat :: i < r.n ==> Floor(r, i) <= |node.LogOf(r.stream)|
    requires if r.next > 0 then got.first == r.next else got.first <= r.applied + 1
    ensures RouteOk(node, Enqueued(node, r, got, r.carry)) && Floors(Enqueued(node, r, got, r.carry)) == Floors(r)
  {
    var u, log := Enqueued(node, r, got, r.carry), node.LogOf(r.stream);
    assert Shape(u) && Floors(u) == Floors(r);
    forall q | 0 < q < |u.pages| ensures PagesMeet(u, q) {
      assert PagesMeet(r, q);
    }
    forall k | 0 < k < |u.order| ensures ItemsMeet(u, k) {
      assert k < |r.order| ==> ItemsMeet(r, k);
    }
    SharesSame(log, r, u);
    assert ItemsOk(log, u);
  }

  lemma {:induction false} SharesSame(log: Log, r: Route, u: Route)
    requires Shape(r) && Shape(u) && u.n == r.n && u.pages == r.pages && u.applied == r.applied
    requires Floors(u) == Floors(r)
    requires r.pages != [] ==> SharesOk(log, r)
    requires forall i: nat :: i < r.n ==> Floor(r, i) <= |log|
    ensures SharesOk(log, u)
  {
    forall i: nat | i < u.n ensures Floor(u, i) <= |log| {
      assert Floor(u, i) == Floor(r, i);
    }
    forall q, i: nat {:trigger u.pages[q].shares[i]} | 0 <= q < |u.pages| && i < u.n
      ensures u.pages[q].shares[i] == PartRows(log, u.n, i, Reach(u, i, q), Reach(u, i, q + 1))
    {
      assert r.pages[q].shares[i] == PartRows(log, r.n, i, Reach(r, i, q), Reach(r, i, q + 1));
    }
  }

  lemma {:induction false} SameReachWriters(node: Node, db: Database, r: Route, u: Route, writers: seq<Writer>)
    requires Shape(r) && Shape(u) && WritersOk(node, db, r, writers)
    requires u.n == r.n && u.pages == r.pages && u.applied == r.applied && Floors(u) == Floors(r)
    requires u.stream == r.stream || r.pages == []
    ensures WritersOk(node, db, u, writers)
  {
    forall i: nat | i < r.n ensures WriterFine(node, db, u, writers[i], i) {
      assert WriterFine(node, db, r, writers[i], i);
      assert Reach(u, i, writers[i].Com()) == Reach(r, i, writers[i].Com());
    }
  }

  lemma {:induction false} SameFloors(node: Node, db: Database, r: Route, u: Route)
    requires Shape(r) && Shape(u) && FloorsTrue(node, db, r) && u.n == r.n && Home(db, u.stream) == Home(db, r.stream)
    requires u.applied == r.applied && Floors(u) == Floors(r)
    ensures FloorsTrue(node, db, u)
  {
    assert forall i: nat :: i < r.n ==> Floor(u, i) == Floor(r, i);
  }

  lemma {:induction false} PagesPendingSame(p: Pipeline, u: Pipeline)
    requires Shape(p.r) && Shape(u.r) && |p.writers| == p.r.n && PendingOk(p)
    requires u.r.pages == p.r.pages && u.r.n == p.r.n && u.writers == p.writers && u.pending == p.pending
    requires u.marking == p.marking && p.released <= u.released <= u.marking
    ensures PendingOk(u)
  {
  }

  lemma {:induction false} ReadKeeps(s: State, p: Pipeline, last: int)
    requires DbOk(s.node, s.db) && CursorOk(s.node, s.db) && p.loaded && PipedOk(s.node, s.db, p)
    requires FollowEnabled(s, p, Read(last)) && (AtHome(s.node, s.db) || p.r.next > 0)
    ensures PipedOk(s.node, s.db, FollowNext(s, p, Read(last)))
  {
    var u := FollowNext(s, p, Read(last));
    PagesPendingSame(p, u);
    assert Engaged(s.node, s.db, u.r, u.got) ==> Engaged(s.node, s.db, p.r, p.got);
  }

  lemma {:induction false} DropKeeps(s: State, p: Pipeline)
    requires p.loaded && PipedOk(s.node, s.db, p) && FollowEnabled(s, p, Drop)
    ensures PipedOk(s.node, s.db, FollowNext(s, p, Drop))
  {
    PagesPendingSame(p, FollowNext(s, p, Drop));
    SlotStepKeeps(s.node, s.db, p, FollowNext(s, p, Drop));
  }

  /** A step that frees a slot changes nothing else. */
  lemma {:induction false} SlotStepKeeps(node: Node, db: Database, p: Pipeline, u: Pipeline)
    requires p.loaded && RouteOk(node, p.r) && WritersOk(node, db, p.r, p.writers) && MarkedOk(db, p)
    requires GotOk(node, db, p)
    requires Engaged(node, db, p.r, p.got) ==> FloorsTrue(node, db, p.r)
    requires u == p.(got := u.got, released := u.released) && (u.got == p.got || u.got.None?) && PendingOk(u)
    ensures PipedOk(node, db, u)
  {
    assert u.r == p.r && u.writers == p.writers;
  }

  /** Whatever the fetcher changes on its own route, what is left to show. */
  lemma {:induction false} RouteStepKeeps(node: Node, db: Database, p: Pipeline, u: Pipeline)
    requires p.loaded && Shape(p.r) && WritersOk(node, db, p.r, p.writers) && PendingOk(p)
    requires u == p.(r := u.r, got := None) && RouteOk(node, u.r) && FloorsTrue(node, db, u.r) && MarkedOk(db, u)
    requires u.r.n == p.r.n && u.r.pages == p.r.pages && u.r.applied == p.r.applied && Floors(u.r) == Floors(p.r)
    requires u.r.stream == p.r.stream || p.r.pages == []
    ensures PipedOk(node, db, u)
  {
    SameReachWriters(node, db, p.r, u.r, p.writers);
    PagesPendingSame(p, u);
  }

  lemma {:induction false} LagKeeps(s: State, p: Pipeline)
    requires DbOk(s.node, s.db) && p.loaded && PipedOk(s.node, s.db, p) && FollowEnabled(s, p, Lag)
    ensures PipedOk(s.node, s.db, FollowNext(s, p, Lag))
  {
    var u := FollowNext(s, p, Lag);
    CursorPageStore(s.node, s.db, p);
    SameFloors(s.node, s.db, p.r, u.r);
    RouteStepKeeps(s.node, s.db, p, u);
  }

  /** A page that is enqueued comes from the store the run follows, right behind what is in flight. */
  lemma {:induction false} EnqueuedPage(s: State, p: Pipeline)
    requires DbOk(s.node, s.db) && MarkedOk(s.db, p) && GotOk(s.node, s.db, p) && Contiguous(p.r)
    requires p.r.stream <= s.node.Store() && FollowEnabled(s, p, Enqueue)
    ensures p.got.value.store == Home(s.db, p.r.stream) == Adopt(p.r.stream, p.got.value.store) <= s.node.Store()
    ensures if p.r.next > 0 then p.got.value.first == p.r.next else p.got.value.first <= p.r.applied + 1
  {
    if !p.got.value.ahead {
      CursorPageStore(s.node, s.db, p);
    }
  }

  lemma {:induction false} EnqueueKeepsMarks(s: State, p: Pipeline)
    requires DbOk(s.node, s.db) && MarkedOk(s.db, p) && FollowEnabled(s, p, Enqueue)
    requires p.got.value.store == Home(s.db, p.r.stream) && (Chained(p.r) ==> p.r.stream > 0)
    ensures MarkedOk(s.db, FollowNext(s, p, Enqueue))
  {
    var u := FollowNext(s, p, Enqueue);
    assert u.r.pages == p.r.pages && u.r.applied == p.r.applied && Chained(u.r);
  }

  lemma {:induction false} EnqueueKeeps(s: State, p: Pipeline)
    requires DbOk(s.node, s.db) && p.loaded && PipedOk(s.node, s.db, p) && FollowEnabled(s, p, Enqueue)
    ensures PipedOk(s.node, s.db, FollowNext(s, p, Enqueue))
  {
    var u := FollowNext(s, p, Enqueue);
    var r := p.r.(stream := Adopt(p.r.stream, p.got.value.store));
    EnqueuedPage(s, p);
    AdoptedRoute(s.node, s.db, p, r);
    EnqueueKeepsRoute(s.node, r, p.got.value);
    SameFloors(s.node, s.db, p.r, u.r);
    EnqueueKeepsMarks(s, p);
    RouteStepKeeps(s.node, s.db, p, u);
  }

  /** Adopting a store changes nothing a route with pages in flight relies on. */
  lemma {:induction false} AdoptedRoute(node: Node, db: Database, p: Pipeline, r: Route)
    requires RouteOk(node, p.r) && (Engaged(node, db, p.r, p.got) ==> FloorsTrue(node, db, p.r)) && p.got.Some?
    requires p.got.value.store == Home(db, p.r.stream) && r == p.r.(stream := Home(db, p.r.stream))
    requires r.stream <= node.Store()
    requires Chained(p.r) ==> p.r.stream > 0
    ensures Shape(r) && Contiguous(r) && FloorsTrue(node, db, p.r)
    ensures Chained(r) ==> SharesOk(node.LogOf(r.stream), r) && ItemsOk(node.LogOf(r.stream), r)
    ensures forall i: nat :: i < r.n ==> Floor(r, i) <= |node.LogOf(r.stream)|
  {
    if p.r.stream > 0 {
      assert r == p.r;
    } else {
      assert Floors(r) == Floors(p.r) && !Chained(p.r);
      assert forall i: nat :: i < r.n ==> Floor(r, i) == Floor(p.r, i);
    }
  }

  lemma {:induction false} ZeroedIsZero(db: Database)
    ensures PartsZero(db.(parts := Zeroed(db.parts)))
    ensures forall n, i :: Own(Zeroed(db.parts), n, i) == 0
  {
  }

  /** A new store: the partition markers are zeroed and the route starts at its first record. */
  lemma {:induction false} FreshKeepsRoute(node: Node, db: Database, r: Route, got: Fetched)
    requires Shape(r) && !Chained(r) && Usable(node, got) && got.first == 1 && PartsZero(db)
    ensures var u := Enqueued(node, r.(applied := 0, stream := got.store), got, Some(seq(r.n, i => 0)));
            RouteOk(node, u) && FloorsTrue(node, db, u) && forall i: nat :: i < u.n ==> Floor(u, i) == 0
  {
    var u := Enqueued(node, r.(applied := 0, stream := got.store), got, Some(seq(r.n, i => 0)));
    assert Shape(u) && forall i: nat :: i < u.n ==> Floors(u)[i] == 0;
    assert ItemsOk(node.LogOf(u.stream), u);
  }

  lemma {:induction false} FreshKeeps(s: State, p: Pipeline)
    requires DbOk(s.node, s.db) && p.loaded && PipedOk(s.node, s.db, p) && FollowEnabled(s, p, Fresh)
    ensures PipedOk(s.node, FollowDb(s.db, p, Fresh), FollowNext(s, p, Fresh))
    ensures DbOk(s.node, FollowDb(s.db, p, Fresh))
  {
    var u, after := FollowNext(s, p, Fresh), FollowDb(s.db, p, Fresh);
    CursorPageStore(s.node, s.db, p);
    ZeroedIsZero(s.db);
    FreshKeepsRoute(s.node, after, p.r, p.got.value);
    forall i: nat | i < u.r.n ensures WriterFine(s.node, after, u.r, u.writers[i], i) {
      assert WriterFine(s.node, s.db, p.r, p.writers[i], i);
    }
  }

  lemma {:induction false} BackFloors(node: Node, db: Database, p: Pipeline, u: Route)
    requires DbOk(node, db) && Shape(p.r) && Shape(u) && FloorsTrue(node, db, p.r)
    requires node.Store() == Home(db, p.r.stream)
    requires u.n == p.r.n && Floors(u) == Floors(p.r) && u.stream == p.r.stream
    requires u.applied == Max(p.r.applied, p.marked)
    requires p.marked == db.page.offset && (p.marked > 0 ==> db.page.store == p.r.stream)
    ensures FloorsTrue(node, db, u)
  {
    forall i: nat | i < u.n
      ensures Floor(u, i) <= |node.LogOf(node.Store())|
      ensures Covered(db.journal, node.Store(), node.LogOf(node.Store()), u.n, i, Floor(u, i))
    {
      assert Covered(db.journal, node.Store(), node.LogOf(node.Store()), p.r.n, i, Floor(p.r, i));
      if p.marked > 0 {
        AllCoversPart(db.journal, node.Store(), node.LogOf(node.Store()), p.r.n, i, p.marked);
      }
    }
  }

  lemma {:induction false} BackWriters(node: Node, db: Database, p: Pipeline, u: Route)
    requires Shape(p.r) && Contiguous(p.r) && WritersOk(node, db, p.r, p.writers) && Shape(u) && u.pages == []
    requires u.n == p.r.n && Floors(u) == Floors(p.r) && u.applied == Max(p.r.applied, p.marked)
    requires p.r.pages != [] ==> p.r.pages[|p.r.pages| - 1].last <= p.marked
    ensures WritersOk(node, db, u, NoShares(u.n))
  {
    forall i: nat | i < u.n ensures WriterFine(node, db, u, NoShares(u.n)[i], i) {
      assert WriterFine(node, db, p.r, p.writers[i], i);
      MarkedPastAll(p, i);
    }
  }

  /** With every page marked, the page marker is past every share, so the cursor may be read again. */
  lemma {:induction false} BackKeeps(s: State, p: Pipeline)
    requires DbOk(s.node, s.db) && p.loaded && PipedOk(s.node, s.db, p) && FollowEnabled(s, p, BackToCursor)
    ensures PipedOk(s.node, s.db, FollowNext(s, p, BackToCursor))
  {
    var u := FollowNext(s, p, BackToCursor);
    assert Floors(u.r) == Floors(p.r) && Shape(u.r) && Contiguous(u.r);
    assert p.marked == s.db.page.offset && p.markedStore == s.db.page.store;
    BackWriters(s.node, s.db, p, u.r);
    if s.node.Store() == Home(s.db, u.r.stream) {
      BackFloors(s.node, s.db, p, u.r);
    }
  }

  lemma {:induction false} MarkedPastAll(p: Pipeline, i: nat)
    requires Shape(p.r) && Contiguous(p.r) && i < p.r.n && |p.writers| == p.r.n && WriterOk(p.r, p.writers[i], i)
    requires p.r.pages != [] ==> p.r.pages[|p.r.pages| - 1].last <= p.marked
    ensures Reach(p.r, i, p.writers[i].Com()) <= Max(Floor(p.r, i), p.marked)
  {
    ReachMonotone(p.r, i, p.writers[i].Com(), |p.r.pages|);
  }

  lemma {:induction false} NoneUnfinished(page: Page, writers: seq<Writer>, q: nat, m: nat, i: nat)
    requires i < m <= |writers| && m <= |page.shares| && Unfinished(page, writers, q, m) == 0
    ensures page.shares[i] == [] || writers[i].fin > q
  {
    if i < m - 1 {
      NoneUnfinished(page, writers, q, m - 1, i);
    }
  }

  lemma {:induction false} EmptyShareCovered(journal: seq<Entry>, log: Log, r: Route, i: nat, q: nat)
    requires Shape(r) && Contiguous(r) && SharesOk(log, r) && i < r.n && q < |r.pages| && r.pages[q].shares[i] == []
    requires Covered(journal, r.stream, log, r.n, i, Reach(r, i, q))
    ensures Covered(journal, r.stream, log, r.n, i, Reach(r, i, q + 1))
  {
    ReachMonotone(r, i, q, q + 1);
    CoverMore(journal, r.stream, log, r.n, i, Reach(r, i, q), Reach(r, i, q + 1), journal);
  }

  /** Past where a writer committed, pages without a share for it add nothing to its partition. */
  lemma {:induction false} EmptySharesCovered(journal: seq<Entry>, log: Log, r: Route, i: nat, c: nat, upTo: nat)
    requires Shape(r) && Contiguous(r) && SharesOk(log, r) && i < r.n && c <= upTo <= |r.pages|
    requires Covered(journal, r.stream, log, r.n, i, Reach(r, i, c))
    requires forall q :: c <= q < upTo ==> r.pages[q].shares[i] == []
    ensures Covered(journal, r.stream, log, r.n, i, Reach(r, i, upTo))
  {
    hide Covered, Shape, Contiguous, SharesOk;
    if c < upTo {
      EmptySharesCovered(journal, log, r, i, c, upTo - 1);
      EmptyShareCovered(journal, log, r, i, upTo - 1);
    }
  }

  /** Pages with nothing pending are wholly written. */
  lemma {:induction false} DrainedPart(node: Node, db: Database, p: Pipeline, upTo: nat, i: nat)
    requires RouteOk(node, p.r) && WritersOk(node, db, p.r, p.writers) && PendingOk(p) && i < p.r.n
    requires 0 < upTo <= |p.r.pages| && forall q :: 0 <= q < upTo ==> p.pending[q] == 0
    ensures Covered(db.journal, p.r.stream, node.LogOf(p.r.stream), p.r.n, i, p.r.pages[upTo - 1].last)
  {
    var r, log, w := p.r, node.LogOf(p.r.stream), p.writers[i];
    assert WriterFine(node, db, r, w, i);
    if w.Com() <= upTo {
      forall q | w.Com() <= q < upTo ensures r.pages[q].shares[i] == [] {
        NoneUnfinished(r.pages[q], p.writers, q, r.n, i);
      }
      EmptySharesCovered(db.journal, log, r, i, w.Com(), upTo);
    } else {
      ReachMonotone(r, i, upTo, w.Com());
    }
  }

  lemma {:induction false} Drained(node: Node, db: Database, p: Pipeline, upTo: nat)
    requires RouteOk(node, p.r) && WritersOk(node, db, p.r, p.writers) && PendingOk(p)
    requires 0 < upTo <= |p.r.pages| && forall q :: 0 <= q < upTo ==> p.pending[q] == 0
    ensures CoveredAll(db.journal, p.r.stream, node.LogOf(p.r.stream), p.r.pages[upTo - 1].last)
  {
    var last := p.r.pages[upTo - 1].last;
    forall i: nat | i < p.r.n ensures Covered(db.journal, p.r.stream, node.LogOf(p.r.stream), p.r.n, i, last) {
      DrainedPart(node, db, p, upTo, i);
    }
    PartsCoverAll(db.journal, p.r.stream, node.LogOf(p.r.stream), p.r.n, last);
  }

  /** The page marker never claims a page whose rows are not all written. */
  lemma {:induction false} MarkKeepsDb(s: State, p: Pipeline, upTo: nat)
    requires DbOk(s.node, s.db) && CursorOk(s.node, s.db) && p.loaded && PipedOk(s.node, s.db, p)
    requires FollowEnabled(s, p, Mark(upTo))
    ensures DbOk(s.node, FollowDb(s.db, p, Mark(upTo))) && CursorOk(s.node, FollowDb(s.db, p, Mark(upTo)))
  {
    Drained(s.node, s.db, p, upTo);
    assert Engaged(s.node, s.db, p.r, p.got) && FloorsTrue(s.node, s.db, p.r);
    assert p.r.pages[upTo - 1].store == p.r.stream && p.r.pages[upTo - 1].last <= |s.node.LogOf(p.r.stream)|;
  }

  lemma {:induction false} MarkKeeps(s: State, p: Pipeline, upTo: nat)
    requires p.loaded && PipedOk(s.node, s.db, p) && FollowEnabled(s, p, Mark(upTo))
    ensures PipedOk(s.node, FollowDb(s.db, p, Mark(upTo)), FollowNext(s, p, Mark(upTo)))
  {
    var u, after := FollowNext(s, p, Mark(upTo)), FollowDb(s.db, p, Mark(upTo));
    assert Engaged(s.node, s.db, p.r, p.got);
    FloorsStay(s.node, s.db, after, p.r);
    MarkAssembles(s.node, s.db, after, p, u);
  }

  lemma {:induction false} MarkAssembles(node: Node, db: Database, after: Database, p: Pipeline, u: Pipeline)
    requires RouteOk(node, p.r) && WritersOk(node, db, p.r, p.writers) && PendingOk(p) && MarkedOk(db, p)
    requires GotOk(node, db, p)
    requires p.loaded && p.marking == p.released < u.marking <= |p.r.pages| && FloorsTrue(node, after, p.r)
    requires forall q :: p.released <= q < u.marking ==> p.pending[q] == 0
    requires after == db.(page := MarkTo(p, u.marking))
    requires u == p.(marked := after.page.offset, markedStore := after.page.store, marking := u.marking)
    ensures PipedOk(node, after, u)
  {
    assert p.r.pages[u.marking - 1].store == p.r.stream;
    assert PendingOk(u);
    forall i: nat | i < p.r.n ensures WriterFine(node, after, p.r, p.writers[i], i) {
      assert WriterFine(node, db, p.r, p.writers[i], i);
    }
  }

  lemma {:induction false} ReleaseKeeps(s: State, p: Pipeline)
    requires p.loaded && PipedOk(s.node, s.db, p) && FollowEnabled(s, p, Release)
    ensures PipedOk(s.node, s.db, FollowNext(s, p, Release))
  {
    PagesPendingSame(p, FollowNext(s, p, Release));
    SlotStepKeeps(s.node, s.db, p, FollowNext(s, p, Release));
  }

  /** An ack moves the cursor no further than the page marker, and only in the marker's own store. */
  lemma {:induction false} AckKeepsCursor(node: Node, db: Database, offset: nat, store: StoreId)
    requires CursorOk(node, db) && 0 < store == db.page.store && offset <= db.page.offset
    ensures CursorOk(AckNode(node, offset, store), db)
  {
  }

  /** Only the cursor of the node changed. */
  lemma {:induction false} CursorMoves(node: Node, after: Node, db: Database)
    requires after == node.(cursor := after.cursor)
    ensures DbOk(node, db) ==> DbOk(after, db)
    ensures forall s: StoreId :: after.Has(s) == node.Has(s) && (node.Has(s) ==> after.LogOf(s) == node.LogOf(s))
  {
  }

  lemma {:induction false} AckKeeps(s: State, p: Pipeline, heard: bool)
    requires DbOk(s.node, s.db) && CursorOk(s.node, s.db) && p.loaded && PipedOk(s.node, s.db, p)
    requires FollowEnabled(s, p, Ack(heard))
    ensures CursorOk(AckNode(s.node, p.marked, p.markedStore), s.db)
    ensures DbOk(AckNode(s.node, p.marked, p.markedStore), s.db)
    ensures PipedOk(AckNode(s.node, p.marked, p.markedStore), s.db, FollowNext(s, p, Ack(heard)))
  {
    var after, u := AckNode(s.node, p.marked, p.markedStore), FollowNext(s, p, Ack(heard));
    AckKeepsCursor(s.node, s.db, p.marked, p.markedStore);
    CursorMoves(s.node, after, s.db);
    PagesPendingSame(p, u);
    AckAssembles(s.node, after, s.db, p, u);
  }

  lemma {:induction false} CursorMovesWriters(node: Node, after: Node, db: Database, r: Route, writers: seq<Writer>)
    requires Shape(r) && WritersOk(node, db, r, writers) && after == node.(cursor := after.cursor)
    ensures WritersOk(after, db, r, writers)
  {
    forall i: nat | i < r.n ensures WriterFine(after, db, r, writers[i], i) {
      assert WriterFine(node, db, r, writers[i], i);
    }
  }

  lemma {:induction false} CursorMovesRoute(node: Node, after: Node, db: Database, r: Route)
    requires RouteOk(node, r) && after == node.(cursor := after.cursor)
    ensures RouteOk(after, r) && (FloorsTrue(node, db, r) ==> FloorsTrue(after, db, r))
  {
    assert r.stream > 0 ==> after.LogOf(r.stream) == node.LogOf(r.stream);
  }

  lemma {:induction false} AckAssembles(node: Node, after: Node, db: Database, p: Pipeline, u: Pipeline)
    requires p.loaded && PipedOk(node, db, p) && after == node.(cursor := after.cursor) && u == p.(acked := u.acked)
    requires PendingOk(u)
    ensures PipedOk(after, db, u)
  {
    hide RouteOk, WritersOk, PendingOk;
    CursorMovesRoute(node, after, db, p.r);
    CursorMovesWriters(node, after, db, p.r, p.writers);
    assert u.r == p.r && u.writers == p.writers;
  }

  lemma {:induction false} FollowKeepsParts(s: State, p: Pipeline, l: Follow)
    requires DbOk(s.node, s.db) && CursorOk(s.node, s.db) && PipedOk(s.node, s.db, p) && FollowEnabled(s, p, l)
    requires !l.Ack? && (l.Read? ==> AtHome(s.node, s.db) || p.r.next > 0)
    ensures s.db.page.offset > 0 ==> FollowDb(s.db, p, l).page.offset > 0
    ensures DbOk(s.node, FollowDb(s.db, p, l)) && CursorOk(s.node, FollowDb(s.db, p, l))
    ensures PipedOk(s.node, FollowDb(s.db, p, l), FollowNext(s, p, l))
  {
    match l
    case Load(resume) => LoadKeeps(s, p, resume);
    case Read(last) => ReadKeeps(s, p, last);
    case Drop => DropKeeps(s, p);
    case Lag => LagKeeps(s, p);
    case Enqueue => EnqueueKeeps(s, p);
    case Fresh => FreshKeeps(s, p);
    case BackToCursor => BackKeeps(s, p);
    case Mark(upTo) =>
      MarkKeepsDb(s, p, upTo);
      MarkKeeps(s, p, upTo);
    case Release => ReleaseKeeps(s, p);
  }

  /** Every step of the fetcher and the marker goroutine keeps the invariant. */
  lemma {:induction false} FollowKeeps(s: State, l: Follow)
    requires Inv(s) && s.bridge.Piped? && FollowEnabled(s, s.bridge.p, l)
    ensures Inv(Next(s, Following(l)))
  {
    hide PipedOk, DbOk;
    if l.Ack? {
      AckKeeps(s, s.bridge.p, l.heard);
    } else {
      FollowKeepsParts(s, s.bridge.p, l);
    }
  }
}
