/**
 With one writer count and one store, every row is applied once and in its signal's stream order,
 whatever crashes and lost answers the run holds, exactly as long as no batch that is already in the
 database is committed again.
 */
module ExactlyOnce {
  import opened Basics
  import opened MetricTable
  import opened Partition
  import opened StreamLog
  import opened Markers
  import opened SinkModel
  import opened Historian
  import opened Coverage
  import opened CoverageWrite
  import opened CoverageFollow
  import opened CoverageOutside
  import opened NoLoss

  /** The steps of a history with n writers throughout and one store. */
  predicate Plain(n: nat, l: Label) {
    match l
    case Out(o) => !o.Recreate? && !o.StartPaged? && (o.StartPiped? ==> o.n == n)
    case Following(_) => true
    case Writes(_) => true
    case Passes(_) => false
  }

  /** The step does not commit a batch that is in the database already. */
  predicate Clean(s: State, l: Label) {
    s.bridge.Piped? && l.Writes? && l.w.Commit? && l.w.i < |s.bridge.p.writers| ==> !s.bridge.p.writers[l.w.i].landed
  }

  ghost predicate CleanRun(s: State, ls: seq<Label>)
    decreases |ls|
  {
    ls == [] || (Enabled(s, ls[0]) && Clean(s, ls[0]) && CleanRun(Next(s, ls[0]), ls[1..]))
  }

  /** A run from the empty database with n writers throughout, one store and clean commits. */
  ghost predicate OnceRun(n: nat, ls: seq<Label>, t: State) {
    n > 0 && Runs(Initial(), ls, t) && (forall l :: l in ls ==> Plain(n, l)) && CleanRun(Initial(), ls)
  }

  /** How far the markers say partition i is written. */
  function Claimed(db: Database, n: nat, i: nat): nat {
    Max(db.page.offset, Own(db.parts, n, i))
  }

  /** Partition i's committed rows, in commit order. */
  function Committed(db: Database, n: nat, i: nat): seq<Row>
    requires n > 0
  {
    Share(RowsIn(db.journal), n, i, -1)
  }

  /** Partition i's committed rows are its rows of the stream up to where the markers claim. */
  ghost predicate PartExact(db: Database, log: Log, n: nat, i: nat)
    requires n > 0
  {
    Claimed(db, n, i) <= |log| && Committed(db, n, i) == PartRows(log, n, i, 0, Claimed(db, n, i))
  }

  ghost predicate DbExact(db: Database, log: Log, n: nat) {
    && n > 0 && (forall k :: k in db.parts ==> k.0 == n)
    && (forall i: nat :: i < n ==> PartExact(db, log, n, i))
  }

  /** The writer is where the markers claim, up to pages that hold nothing for it. */
  ghost predicate WriterExact(db: Database, log: Log, r: Route, w: Writer, i: nat)
    requires Shape(r) && i < r.n
  {
    && w.Com() <= |r.pages| && Reach(r, i, w.Com()) <= |log| && Claimed(db, r.n, i) <= |log|
    && PartRows(log, r.n, i, 0, Claimed(db, r.n, i)) == PartRows(log, r.n, i, 0, Reach(r, i, w.Com()))
  }

  /** The end of the marked pages. */
  function MarkedEnd(p: Pipeline): nat {
    if 0 < p.marking <= |p.r.pages| then p.r.pages[p.marking - 1].last else 0
  }

  ghost predicate WritersExact(db: Database, log: Log, p: Pipeline) {
    && Shape(p.r) && |p.writers| == p.r.n && p.r.applied <= p.marked == db.page.offset <= Max(p.r.applied, MarkedEnd(p))
    && forall i: nat :: i < p.r.n ==> WriterExact(db, log, p.r, p.writers[i], i)
  }

  ghost predicate Exact(s: State, n: nat) {
    && Inv(s) && s.node.Store() == 1 && DbExact(s.db, s.node.LogOf(1), n)
    && match s.bridge
       case Down => true
       case Piped(p) => p.r.n == n && (p.loaded ==> WritersExact(s.db, s.node.LogOf(1), p))
       case OnePage(_) => false
  }

  // ---------------------------------------------------------------- shares of the journal

  lemma {:induction false} ShareConcat(a: seq<Row>, b: seq<Row>, n: nat, i: nat)
    requires n > 0
    ensures Share(a + b, n, i, -1) == Share(a, n, i, -1) + Share(b, n, i, -1)
  {
    if b == [] {
      assert a + b == a;
    } else {
      assert (a + b)[..|a + b| - 1] == a + b[..|b| - 1];
      ShareConcat(a, b[..|b| - 1], n, i);
    }
  }

  lemma {:induction false} ShareOfPart(log: Log, n: nat, i: nat, j: nat, lo: nat, hi: nat)
    requires n > 0 && hi <= |log|
    ensures Share(PartRows(log, n, i, lo, hi), n, j, -1) == if i == j then PartRows(log, n, i, lo, hi) else []
  {
    if lo < hi {
      ShareOfPart(log, n, i, j, lo, hi - 1);
      if InPart(log, n, i, hi) {
        ShareAppend(PartRows(log, n, i, lo, hi - 1), TheRow(log, hi), n, j, -1);
      }
    }
  }

  lemma {:induction false} CommittedGrows(db: Database, s: StoreId, log: Log, n: nat, i: nat, lo: nat, hi: nat, j: nat)
    requires n > 0 && hi <= |log|
    ensures Committed(Journaled(db, s, PartRows(log, n, i, lo, hi)), n, j) ==
            if i == j then Committed(db, n, j) + PartRows(log, n, i, lo, hi) else Committed(db, n, j)
  {
    var rows := PartRows(log, n, i, lo, hi);
    assert RowsIn(db.journal + Tagged(s, rows)) == RowsIn(db.journal) + rows;
    ShareConcat(RowsIn(db.journal), rows, n, j);
    ShareOfPart(log, n, i, j, lo, hi);
  }

  // ---------------------------------------------------------------- the steps that matter

  /** A commit appends the partition's next stretch, and moves its marker to the end of it. */
  lemma {:induction false} PartCommits(db: Database, after: Database, s: StoreId, log: Log, n: nat, i: nat, lo: nat,
                                       hi: nat)
    requires n > 0 && lo <= hi <= |log| && db.page.offset <= hi && PartExact(db, log, n, i)
    requires PartRows(log, n, i, 0, Claimed(db, n, i)) == PartRows(log, n, i, 0, lo)
    requires after == Journaled(db, s, PartRows(log, n, i, lo, hi)).(parts := db.parts[(n, i) := hi], partsOf := s)
    ensures PartExact(after, log, n, i) && Claimed(after, n, i) == hi
    ensures forall j: nat :: j != i && PartExact(db, log, n, j) ==>
              PartExact(after, log, n, j) && Claimed(after, n, j) == Claimed(db, n, j)
  {
    CommittedGrows(db, s, log, n, i, lo, hi, i);
    PartSplit(log, n, i, 0, lo, hi);
    forall j: nat | j != i && PartExact(db, log, n, j)
      ensures PartExact(after, log, n, j) && Claimed(after, n, j) == Claimed(db, n, j)
    {
      CommittedGrows(db, s, log, n, i, lo, hi, j);
      assert Own(after.parts, n, j) == Own(db.parts, n, j);
    }
  }

  lemma {:induction false} CommitClaims(node: Node, db: Database, p: Pipeline, i: nat)
    requires RouteOk(node, p.r) && WriterAt(p, i, Writing) && WriterOk(p.r, p.writers[i], i) && p.r.stream == 1
    requires !p.writers[i].landed && WriterExact(db, node.LogOf(1), p.r, p.writers[i], i)
    requires PartExact(db, node.LogOf(1), p.r.n, i)
    requires db.page.offset <= Reach(p.r, i, p.writers[i].bat)
    ensures var after := ShareWritten(db, p, i);
            && PartExact(after, node.LogOf(1), p.r.n, i)
            && Claimed(after, p.r.n, i) == Reach(p.r, i, p.writers[i].bat) == Through(p, i) <= |node.LogOf(1)|
            && forall j: nat :: j != i && PartExact(db, node.LogOf(1), p.r.n, j) ==>
                 PartExact(after, node.LogOf(1), p.r.n, j) && Claimed(after, p.r.n, j) == Claimed(db, p.r.n, j)
  {
    hide PartRows;
    var r, w, log := p.r, p.writers[i], node.LogOf(1);
    SharesJoin(log, r, i, w.fin, w.bat);
    ShareReaches(log, r, i, w.bat - 1);
    PartCommits(db, ShareWritten(db, p, i), 1, log, r.n, i, Reach(r, i, w.fin), Reach(r, i, w.bat));
  }

  lemma {:induction false} CommitExact(node: Node, db: Database, p: Pipeline, i: nat, heard: bool)
    requires RouteOk(node, p.r) && WriterAt(p, i, Writing) && WriterOk(p.r, p.writers[i], i) && !p.writers[i].landed
    requires p.r.stream == 1 && node.Has(1) && DbExact(db, node.LogOf(1), p.r.n) && WritersExact(db, node.LogOf(1), p)
    requires p.marked <= Reach(p.r, i, p.writers[i].bat)
    ensures DbExact(ShareWritten(db, p, i), node.LogOf(1), p.r.n)
    ensures WritersExact(ShareWritten(db, p, i), node.LogOf(1), WriteNext(db, p, Commit(i, heard)))
  {
    hide RouteOk, PartRows;
    var log, after, u := node.LogOf(1), ShareWritten(db, p, i), WriteNext(db, p, Commit(i, heard));
    assert MarkedEnd(u) == MarkedEnd(p) && u.r == p.r;
    assert WriterExact(db, log, p.r, p.writers[i], i) && PartExact(db, log, p.r.n, i);
    CommitClaims(node, db, p, i);
    forall j: nat | j < p.r.n ensures PartExact(after, log, p.r.n, j) {
      assert PartExact(db, log, p.r.n, j);
    }
    forall j: nat | j < p.r.n ensures WriterExact(after, log, p.r, u.writers[j], j) {
      assert WriterExact(db, log, p.r, p.writers[j], j) && PartExact(db, log, p.r.n, j);
      assert j != i ==> u.writers[j] == p.writers[j] && Own(after.parts, p.r.n, j) == Own(db.parts, p.r.n, j);
    }
  }

  /** The marker catches up with pages that are wholly written: nothing new is claimed. */
  lemma {:induction false} PageClaims(db: Database, after: Database, log: Log, n: nat, i: nat, reach: nat)
    requires n > 0 && PartExact(db, log, n, i) && reach <= |log| && after == db.(page := after.page)
    requires PartRows(log, n, i, 0, Claimed(db, n, i)) == PartRows(log, n, i, 0, reach)
    requires db.page.offset <= after.page.offset <= Max(reach, Claimed(db, n, i))
    ensures PartExact(after, log, n, i) && PartRows(log, n, i, 0, Claimed(after, n, i)) == PartRows(log, n, i, 0, reach)
  {
    PartSandwich(log, n, i, Claimed(db, n, i), Claimed(after, n, i), reach);
  }

  /** Empty shares add nothing: the writer may as well have written them. */
  lemma {:induction false} EmptySharesClaim(log: Log, r: Route, i: nat, c: nat, upTo: nat)
    requires Shape(r) && Contiguous(r) && SharesOk(log, r) && i < r.n && c <= upTo <= |r.pages|
    requires forall q :: c <= q < upTo ==> r.pages[q].shares[i] == []
    ensures Reach(r, i, upTo) <= |log|
    ensures PartRows(log, r.n, i, 0, Reach(r, i, upTo)) == PartRows(log, r.n, i, 0, Reach(r, i, c))
  {
    SharesJoin(log, r, i, c, upTo);
    NoRows(r.pages, i, c, upTo);
    PartSplit(log, r.n, i, 0, Reach(r, i, c), Reach(r, i, upTo));
  }

  lemma {:induction false} NoRows(pages: seq<Page>, i: nat, lo: nat, hi: nat)
    requires hi <= |pages| && forall q :: 0 <= q < |pages| ==> i < |pages[q].shares|
    requires forall q :: lo <= q < hi ==> pages[q].shares[i] == []
    ensures ShareRows(pages, i, lo, hi) == []
  {
    if lo < hi {
      NoRows(pages, i, lo, hi - 1);
    }
  }

  /** A page with an unfinished share is not marked yet. */
  lemma {:induction false} UnfinishedUnmarked(db: Database, p: Pipeline, i: nat)
    requires Shape(p.r) && Contiguous(p.r) && i < p.r.n == |p.writers| && PendingOk(p) && WriterOk(p.r, p.writers[i], i)
    requires p.writers[i].phase != Idle && p.marked <= Max(p.r.applied, MarkedEnd(p))
    ensures p.marked <= Reach(p.r, i, p.writers[i].bat)
  {
    var q := p.writers[i].bat - 1;
    if q < p.marking {
      NoneUnfinished(p.r.pages[q], p.writers, q, p.r.n, i);
      assert false;
    }
    ReachMonotone(p.r, i, p.marking, q + 1);
  }

  /** Marking pages claims nothing that is not committed already. */
  lemma {:induction false} MarkClaims(node: Node, db: Database, p: Pipeline, upTo: nat, i: nat)
    requires RouteOk(node, p.r) && WritersOk(node, db, p.r, p.writers) && PendingOk(p) && i < p.r.n && p.r.stream == 1
    requires 0 < upTo <= |p.r.pages| && forall q :: 0 <= q < upTo ==> p.pending[q] == 0
    requires PartExact(db, node.LogOf(1), p.r.n, i) && WriterExact(db, node.LogOf(1), p.r, p.writers[i], i)
    requires p.marked == db.page.offset
    ensures var after := db.(page := MarkTo(p, upTo));
            PartExact(after, node.LogOf(1), p.r.n, i) && WriterExact(after, node.LogOf(1), p.r, p.writers[i], i)
  {
    var r, w, log := p.r, p.writers[i], node.LogOf(1);
    assert WriterFine(node, db, r, w, i);
    if w.Com() < upTo {
      forall q | w.Com() <= q < upTo ensures r.pages[q].shares[i] == [] {
        NoneUnfinished(r.pages[q], p.writers, q, r.n, i);
      }
      EmptySharesClaim(log, r, i, w.Com(), upTo);
      PageClaims(db, db.(page := MarkTo(p, upTo)), log, r.n, i, Reach(r, i, upTo));
    } else {
      ReachMonotone(r, i, upTo, w.Com());
      PageClaims(db, db.(page := MarkTo(p, upTo)), log, r.n, i, Reach(r, i, w.Com()));
    }
  }

  lemma {:induction false} LastMonotone(r: Route, a: nat, b: nat)
    requires Shape(r) && Contiguous(r) && a <= b < |r.pages|
    ensures r.pages[a].last <= r.pages[b].last
  {
    if a < b {
      LastMonotone(r, a, b - 1);
      assert PagesMeet(r, b);
    }
  }

  lemma {:induction false} MarkExact(node: Node, db: Database, after: Database, p: Pipeline, u: Pipeline, upTo: nat)
    requires RouteOk(node, p.r) && WritersOk(node, db, p.r, p.writers) && PendingOk(p) && p.r.stream == 1 && node.Has(1)
    requires p.marking < upTo <= |p.r.pages| && forall q :: 0 <= q < upTo ==> p.pending[q] == 0
    requires DbExact(db, node.LogOf(1), p.r.n) && WritersExact(db, node.LogOf(1), p)
    requires after == db.(page := MarkTo(p, upTo))
    requires u == p.(marked := after.page.offset, markedStore := after.page.store, marking := upTo)
    ensures DbExact(after, node.LogOf(1), p.r.n) && WritersExact(after, node.LogOf(1), u)
  {
    hide WritersOk, PartRows, Unfinished, ItemsOk;
    var log := node.LogOf(1);
    assert MarkedEnd(u) == p.r.pages[upTo - 1].last;
    if p.marking > 0 {
      LastMonotone(p.r, p.marking - 1, upTo - 1);
    }
    forall i: nat | i < p.r.n ensures PartExact(after, log, p.r.n, i) && WriterExact(after, log, p.r, p.writers[i], i) {
      assert PartExact(db, log, p.r.n, i) && WriterExact(db, log, p.r, p.writers[i], i);
      MarkClaims(node, db, p, upTo, i);
    }
  }

  lemma {:induction false} DrainedClaims(node: Node, p: Pipeline, i: nat)
    requires RouteOk(node, p.r) && |p.writers| == p.r.n && PendingOk(p) && i < p.r.n && p.r.stream == 1
    requires p.r.pages != []
    requires p.marking == |p.r.pages| && WriterOk(p.r, p.writers[i], i)
    ensures Reach(p.r, i, |p.r.pages|) <= |node.LogOf(1)|
    ensures PartRows(node.LogOf(1), p.r.n, i, 0, Reach(p.r, i, |p.r.pages|)) ==
            PartRows(node.LogOf(1), p.r.n, i, 0, Reach(p.r, i, p.writers[i].Com()))
  {
    var c := p.writers[i].Com();
    forall q | c <= q < |p.r.pages| ensures p.r.pages[q].shares[i] == [] {
      NoneUnfinished(p.r.pages[q], p.writers, q, p.r.n, i);
    }
    EmptySharesClaim(node.LogOf(1), p.r, i, c, |p.r.pages|);
  }

  /** With everything marked, the floors of the next read are exactly what is claimed. */
  lemma {:induction false} BackClaims(node: Node, db: Database, p: Pipeline, i: nat)
    requires RouteOk(node, p.r) && WritersOk(node, db, p.r, p.writers) && PendingOk(p) && i < p.r.n
    requires Chained(p.r) ==> p.r.stream == 1
    requires p.released == |p.r.pages| && p.marked == db.page.offset && node.Has(1) && Floor(p.r, i) <= |node.LogOf(1)|
    requires p.r.pages != [] ==> p.r.pages[|p.r.pages| - 1].last <= p.marked
    requires WriterExact(db, node.LogOf(1), p.r, p.writers[i], i)
    ensures Max(Floor(p.r, i), p.marked) <= |node.LogOf(1)|
    ensures PartRows(node.LogOf(1), p.r.n, i, 0, Claimed(db, p.r.n, i)) ==
            PartRows(node.LogOf(1), p.r.n, i, 0, Max(Floor(p.r, i), p.marked))
  {
    var r, w, log, m := p.r, p.writers[i], node.LogOf(1), |p.r.pages|;
    if r.pages != [] {
      assert WriterFine(node, db, r, w, i);
      DrainedClaims(node, p, i);
    }
    PartSandwich(log, r.n, i, Reach(r, i, m), Max(Floor(r, i), p.marked), Claimed(db, r.n, i));
  }

  /** Writer w of route r says the same as writer v of route u. */
  ghost predicate SameWriter(r: Route, w: Writer, u: Route, v: Writer, i: nat)
    requires Shape(r) && Shape(u) && i < r.n == u.n
  {
    v.Com() == w.Com() <= |r.pages| <= |u.pages| && Reach(u, i, w.Com()) == Reach(r, i, w.Com())
  }

  /** A step that leaves the database and every writer's reach alone. */
  lemma {:induction false} SameReachExact(db: Database, log: Log, p: Pipeline, u: Pipeline)
    requires WritersExact(db, log, p) && Shape(u.r) && u.r.n == p.r.n == |u.writers| && u.marked == p.marked
    requires u.r.applied == p.r.applied && MarkedEnd(u) == MarkedEnd(p)
    requires forall i: nat :: i < p.r.n ==> SameWriter(p.r, p.writers[i], u.r, u.writers[i], i)
    ensures WritersExact(db, log, u)
  {
    forall i: nat | i < p.r.n ensures WriterExact(db, log, u.r, u.writers[i], i) {
      assert WriterExact(db, log, p.r, p.writers[i], i) && SameWriter(p.r, p.writers[i], u.r, u.writers[i], i);
    }
  }

  lemma {:induction false} NoOtherSet(markers: PartMarkers, n: nat, c: nat)
    requires (forall k :: k in markers ==> k.0 == n) && c != n
    ensures !Complete(markers, c)
  {
    assert (c, 0) !in markers;
  }

  lemma {:induction false} LoadExact(s: State, p: Pipeline, resume: nat)
    requires DbOk(s.node, s.db) && s.node.Store() == 1 && DbExact(s.db, s.node.LogOf(1), p.r.n)
    requires PipedOk(s.node, s.db, p)
    requires FollowEnabled(s, p, Load(resume))
    ensures WritersExact(s.db, s.node.LogOf(1), FollowNext(s, p, Load(resume)))
  {
    var u, log := FollowNext(s, p, Load(resume)), s.node.LogOf(1);
    forall c: nat, floor: nat ensures !OtherFloor(s.db.parts, p.r.n, c, floor) {
      if c != p.r.n {
        NoOtherSet(s.db.parts, p.r.n, c);
      }
    }
    assert Shape(u.r) && Floors(u.r) == u.r.carry.value;
    forall i: nat | i < u.r.n ensures WriterExact(s.db, log, u.r, u.writers[i], i) {
      assert PartExact(s.db, log, u.r.n, i);
      assert Reach(u.r, i, 0) == Claimed(s.db, u.r.n, i);
    }
  }

  lemma {:induction false} BackExact(node: Node, db: Database, p: Pipeline, u: Pipeline)
    requires RouteOk(node, p.r) && WritersOk(node, db, p.r, p.writers) && PendingOk(p) && node.Store() == 1
    requires FloorsTrue(node, db, p.r) && MarkedOk(db, p) && p.r.order == [] && p.released == |p.r.pages|
    requires WritersExact(db, node.LogOf(1), p)
    requires u == p.(r := p.r.(next := 0, applied := Max(p.r.applied, p.marked), pages := []),
                     pending := [], marking := 0, released := 0, writers := NoShares(p.r.n))
    ensures WritersExact(db, node.LogOf(1), u)
  {
    hide WritersOk, PartRows, Unfinished, ItemsOk, SharesOk;
    assert Shape(u.r) && Floors(u.r) == Floors(p.r);
    forall i: nat | i < u.r.n ensures WriterExact(db, node.LogOf(1), u.r, u.writers[i], i) {
      assert WriterExact(db, node.LogOf(1), p.r, p.writers[i], i);
      BackClaims(node, db, p, i);
      assert Reach(u.r, i, 0) == Max(Floor(p.r, i), p.marked);
    }
  }

  /** Steps of the fetcher and the marker that touch neither the database nor a writer. */
  lemma {:induction false} QuietFollowExact(s: State, p: Pipeline, l: Follow)
    requires s.node.Has(1) && p.loaded && WritersExact(s.db, s.node.LogOf(1), p) && FollowEnabled(s, p, l)
    requires l.Read? || l.Drop? || l.Lag? || l.Enqueue? || l.Release? || l.Ack?
    requires Shape(FollowNext(s, p, l).r)
    ensures WritersExact(s.db, s.node.LogOf(1), FollowNext(s, p, l))
  {
    var u := FollowNext(s, p, l);
    assert u.r.pages == p.r.pages && u.r.applied == p.r.applied && u.writers == p.writers && Floors(u.r) == Floors(p.r);
    forall i: nat | i < p.r.n ensures SameWriter(p.r, p.writers[i], u.r, u.writers[i], i) {
      assert WriterExact(s.db, s.node.LogOf(1), p.r, p.writers[i], i);
    }
    SameReachExact(s.db, s.node.LogOf(1), p, u);
  }

  /** In one store no page is ever taken for a new stream. */
  lemma {:induction false} NeverFresh(s: State, p: Pipeline)
    requires DbOk(s.node, s.db) && PipedOk(s.node, s.db, p) && s.node.Store() == 1 && p.loaded
    ensures !FollowEnabled(s, p, Fresh)
  {
    if FollowEnabled(s, p, Fresh) {
      CursorPageStore(s.node, s.db, p);
      assert false;
    }
  }

  lemma {:induction false} FollowExactParts(s: State, p: Pipeline, l: Follow)
    requires DbOk(s.node, s.db) && PipedOk(s.node, s.db, p) && s.node.Store() == 1
    requires DbExact(s.db, s.node.LogOf(1), p.r.n)
    requires (p.loaded ==> WritersExact(s.db, s.node.LogOf(1), p)) && FollowEnabled(s, p, l)
    requires Shape(FollowNext(s, p, l).r)
    ensures DbExact(FollowDb(s.db, p, l), s.node.LogOf(1), p.r.n)
    ensures WritersExact(FollowDb(s.db, p, l), s.node.LogOf(1), FollowNext(s, p, l))
  {
    if l.Load? {
      LoadExact(s, p, l.resume);
    } else if l.Fresh? {
      NeverFresh(s, p);
    } else if l.BackToCursor? {
      BackExact(s.node, s.db, p, FollowNext(s, p, l));
    } else if l.Mark? {
      MarkExact(s.node, s.db, FollowDb(s.db, p, l), p, FollowNext(s, p, l), l.upTo);
    } else {
      QuietFollowExact(s, p, l);
    }
  }

  lemma {:induction false} FollowExact(s: State, n: nat, l: Follow)
    requires Exact(s, n) && Enabled(s, Following(l))
    ensures Exact(Next(s, Following(l)), n)
  {
    hide Shape, Contiguous, SharesOk, WritersOk, PendingOk, DbExact, WritersExact, DbOk, CursorOk, FloorsTrue,
      MarkedOk, GotOk;
    FollowKeeps(s, l);
    FollowExactParts(s, s.bridge.p, l);
  }

  lemma {:induction false} DispatchExact(db: Database, log: Log, p: Pipeline)
    requires Shape(p.r) && Contiguous(p.r) && WritersExact(db, log, p) && WriteEnabled(p, Dispatch)
    requires p.marking <= |p.r.pages|
    ensures WritersExact(db, log, DispatchNext(p))
  {
    var u := DispatchNext(p);
    DispatchKeepsShape(p.r);
    assert MarkedEnd(u) == MarkedEnd(p);
    forall i: nat | i < p.r.n ensures SameWriter(p.r, p.writers[i], u.r, u.writers[i], i) {
      assert WriterExact(db, log, p.r, p.writers[i], i);
    }
    SameReachExact(db, log, p, u);
  }

  lemma {:induction false} WriterMoveExact(db: Database, log: Log, p: Pipeline, u: Pipeline, i: nat)
    requires WritersExact(db, log, p) && i < p.r.n == |u.writers|
    requires u == p.(writers := p.writers[i := u.writers[i]], pending := u.pending)
    requires SameWriter(p.r, p.writers[i], p.r, u.writers[i], i)
    ensures WritersExact(db, log, u)
  {
    assert MarkedEnd(u) == MarkedEnd(p);
    forall j: nat | j < p.r.n ensures SameWriter(p.r, p.writers[j], u.r, u.writers[j], j) {
      assert WriterExact(db, log, p.r, p.writers[j], j);
    }
    SameReachExact(db, log, p, u);
  }

  lemma {:induction false} OneWriterExact(db: Database, log: Log, p: Pipeline, l: Write)
    requires WritersExact(db, log, p) && WriteEnabled(p, l) && !l.Dispatch? && !l.Commit?
    requires l.i < p.r.n && WriterOk(p.r, p.writers[l.i], l.i) && WriterExact(db, log, p.r, p.writers[l.i], l.i)
    ensures WritersExact(db, log, WriteNext(db, p, l))
  {
    WriterMoveExact(db, log, p, WriteNext(db, p, l), l.i);
  }

  lemma {:induction false} WriteExactParts(node: Node, db: Database, p: Pipeline, l: Write)
    requires RouteOk(node, p.r) && WritersOk(node, db, p.r, p.writers) && PendingOk(p) && node.Store() == 1
    requires DbExact(db, node.LogOf(1), p.r.n) && WritersExact(db, node.LogOf(1), p) && WriteEnabled(p, l)
    requires l.Commit? ==> !p.writers[l.i].landed
    ensures DbExact(WriteDb(db, p, l), node.LogOf(1), p.r.n)
    ensures WritersExact(WriteDb(db, p, l), node.LogOf(1), WriteNext(db, p, l))
  {
    var log := node.LogOf(1);
    if l.Dispatch? {
      DispatchExact(db, log, p);
    } else {
      var i := l.i;
      assert i < p.r.n && WriterFine(node, db, p.r, p.writers[i], i) && WriterExact(db, log, p.r, p.writers[i], i);
      if l.Commit? {
        UnfinishedUnmarked(db, p, i);
        CommitExact(node, db, p, i, l.heard);
      } else {
        OneWriterExact(db, log, p, l);
      }
    }
  }

  lemma {:induction false} WriteExact(s: State, n: nat, l: Write)
    requires Exact(s, n) && Enabled(s, Writes(l)) && Clean(s, Writes(l))
    ensures Exact(Next(s, Writes(l)), n)
  {
    hide RouteOk, WritersOk, PendingOk, DbExact, WritersExact, DbOk, CursorOk, FloorsTrue, MarkedOk, GotOk;
    assert s.bridge.p.loaded;
    WriteKeeps(s, l);
    WriteExactParts(s.node, s.db, s.bridge.p, l);
  }

  lemma {:induction false} AppendExact(s: State, n: nat, record: Option<Row>)
    requires Exact(s, n)
    ensures Exact(Next(s, Out(Append(record))), n)
  {
    var t, log := Next(s, Out(Append(record))), s.node.LogOf(1);
    var more := t.node.LogOf(1);
    OutsideKeeps(s, Append(record));
    forall i: nat | i < n ensures PartExact(t.db, more, n, i) {
      assert PartExact(s.db, log, n, i);
      PartExtend(log, more, n, i, 0, Claimed(s.db, n, i));
    }
    if s.bridge.Piped? && s.bridge.p.loaded {
      var p := s.bridge.p;
      forall i: nat | i < n ensures WriterExact(t.db, more, p.r, p.writers[i], i) {
        assert WriterExact(s.db, log, p.r, p.writers[i], i);
        PartExtend(log, more, n, i, 0, Claimed(s.db, n, i));
        PartExtend(log, more, n, i, 0, Reach(p.r, i, p.writers[i].Com()));
      }
    }
  }

  lemma {:induction false} StepExact(s: State, n: nat, l: Label)
    requires Exact(s, n) && Enabled(s, l) && Plain(n, l) && Clean(s, l)
    ensures Exact(Next(s, l), n)
  {
    match l
    case Out(o) =>
      if o.Append? {
        AppendExact(s, n, o.record);
      } else {
        OutsideKeeps(s, o);
      }
    case Following(f) => FollowExact(s, n, f);
    case Writes(w) => WriteExact(s, n, w);
  }

  lemma {:induction false} RunExact(s: State, n: nat, ls: seq<Label>, t: State)
    requires Exact(s, n) && Runs(s, ls, t) && CleanRun(s, ls) && forall l :: l in ls ==> Plain(n, l)
    ensures Exact(t, n)
    decreases |ls|
  {
    if ls != [] {
      StepExact(s, n, ls[0]);
      RunExact(Next(s, ls[0]), n, ls[1..], t);
    }
  }

  lemma {:induction false} InitialExact(n: nat)
    requires n > 0
    ensures Exact(Initial(), n)
  {
    InitialInv();
    forall i: nat | i < n ensures PartExact(Initial().db, [], n, i) {
      assert RowsIn([]) == [];
    }
  }

  /** Exactly once, in order. With one writer count and one store, over any run, each partition's
      committed rows are the partition's rows of the stream up to where the markers claim: every row
      once, in stream order, none twice. */
  lemma {:induction false} RowsApplyExactlyOnce(n: nat, ls: seq<Label>, t: State, i: nat)
    requires OnceRun(n, ls, t) && i < n
    ensures t.node.Has(1) && Claimed(t.db, n, i) <= |t.node.LogOf(1)|
    ensures Committed(t.db, n, i) == PartRows(t.node.LogOf(1), n, i, 0, Claimed(t.db, n, i))
    ensures forall a, b :: 0 <= a < b < |Committed(t.db, n, i)| ==>
              Committed(t.db, n, i)[a].offset < Committed(t.db, n, i)[b].offset
  {
    InitialExact(n);
    RunExact(Initial(), n, ls, t);
    assert PartExact(t.db, t.node.LogOf(1), n, i);
    PartIncreasing(t.node.LogOf(1), n, i, 0, Claimed(t.db, n, i));
  }

  lemma {:induction false} SignalOfShare(rows: seq<Row>, n: nat, signal: Signal)
    requires n > 0
    ensures OfSignal(rows, signal) == OfSignal(Share(rows, n, PartitionOf(signal, n), -1), signal)
  {
    ShareOfSignal(rows, n, PartitionOf(signal, n), signal);
  }

  /** Each signal's committed rows are its rows of the stream, in stream order. */
  lemma {:induction false} SignalsApplyInOrder(n: nat, ls: seq<Label>, t: State, signal: Signal)
    requires OnceRun(n, ls, t)
    ensures t.node.Has(1) && Claimed(t.db, n, PartitionOf(signal, n)) <= |t.node.LogOf(1)|
    ensures OfSignal(RowsIn(t.db.journal), signal) ==
            OfSignal(Rows(t.node.LogOf(1), 0, Claimed(t.db, n, PartitionOf(signal, n))), signal)
  {
    var i := PartitionOf(signal, n);
    RowsApplyExactlyOnce(n, ls, t, i);
    SignalOfShare(RowsIn(t.db.journal), n, signal);
    SignalInPart(t.node.LogOf(1), n, Claimed(t.db, n, i), signal);
  }

  /** At every moment, in flight or not, a signal's series in the table is what applying the stream row
      by row up to its partition's claim leaves. */
  lemma {:induction false} EachSeriesIsSequential(n: nat, ls: seq<Label>, t: State, signal: Signal)
    requires OnceRun(n, ls, t)
    ensures t.node.Has(1) && Claimed(t.db, n, PartitionOf(signal, n)) <= |t.node.LogOf(1)|
    ensures View(t.db.table, signal) ==
            View(Fold(map[], Rows(t.node.LogOf(1), 0, Claimed(t.db, n, PartitionOf(signal, n)))), signal)
  {
    hide Runs, CleanRun, Plain, Fold, Rows, View, OfSignal;
    SignalsApplyInOrder(n, ls, t, signal);
    assert RowsIn(Initial().db.journal) == [];
    NoRowsYet(map[]);
    TableIsJournal(Initial(), ls, t);
    FoldInView(map[], RowsIn(t.db.journal), signal);
    FoldInView(map[], Rows(t.node.LogOf(1), 0, Claimed(t.db, n, PartitionOf(signal, n))), signal);
  }
}
