/**
 A database in which nothing is marked yet. The store may be recreated under a running bridge: what the
 bridge holds of the store that is gone does no harm as long as it has no row to write.
 */
module CoverageBlank {
  import opened Basics
  import opened Markers
  import opened Historian
  import opened Coverage

  /** No page and no share of a page was marked. */
  ghost predicate NothingMarked(db: Database) {
    db.page.offset == 0 && PartsZero(db)
  }

  predicate AllZero(floors: seq<nat>) {
    forall i :: 0 <= i < |floors| ==> floors[i] == 0
  }

  /** A pipeline on such a database skips nothing, has written nothing, and follows no store before it has a
      page of it. */
  ghost predicate BlankRoute(r: Route) {
    && r.applied == 0 && AllZero(r.floors) && (r.carry.Some? ==> AllZero(r.carry.value))
    && (forall k :: 0 <= k < |r.order| && r.order[k].floors.Some? ==> AllZero(r.order[k].floors.value))
    && (!Chained(r) ==> r.stream == 0 && r.next == 0)
  }

  ghost predicate BlankPiped(p: Pipeline) {
    p.loaded ==>
      BlankRoute(p.r) && forall i :: 0 <= i < |p.writers| ==> p.writers[i].fin == 0 && !p.writers[i].landed
  }

  /** The same for a run that applies one page at a time. */
  predicate BlankPaged(b: Paged) {
    && (b.known ==> b.skip == 0 && b.marker == 0 && (b.work.None? ==> b.stream == 0))
    && (b.work.None? ==> b.aheadFrom == 0) && (b.got.Some? ==> !b.got.value.ahead)
  }

  ghost predicate BlankBridge(bridge: Bridge) {
    match bridge
    case Down => true
    case Piped(p) => BlankPiped(p)
    case OnePage(b) => BlankPaged(b)
  }

  ghost predicate Blank(s: State) {
    NothingMarked(s.db) ==> BlankBridge(s.bridge)
  }

  // ---------------------------------------------------------------- every step keeps it

  lemma {:induction false} BlankResumes(db: Database, n: nat, resume: nat)
    requires NothingMarked(db) && ResumesAt(db.page.offset, db.parts, n, resume)
    ensures resume == 0 && forall m: nat, i: nat :: Own(db.parts, m, i) == 0
  {
  }

  /** Without a mark no page was dealt with to the end. */
  lemma {:induction false} NoneReleased(db: Database, p: Pipeline)
    requires NothingMarked(db) && p.loaded && MarkedOk(db, p) && Shape(p.r) && |p.writers| == p.r.n && PendingOk(p)
    ensures p.marked == 0 && p.marking == 0 && p.released == 0
  {
  }

  lemma {:induction false} BlankFollow(s: State, p: Pipeline, l: Follow)
    requires DbOk(s.node, s.db) && PipedOk(s.node, s.db, p) && FollowEnabled(s, p, l)
    requires NothingMarked(s.db) && BlankPiped(p) && !l.Mark? && !l.Fresh?
    ensures BlankPiped(FollowNext(s, p, l))
  {
    hide WriterFine, SharesOk, ItemsOk, FloorsTrue, GotOk;
    if l.Load? {
      BlankResumes(s.db, p.r.n, l.resume);
    } else if l.Lag? || l.BackToCursor? {
      NoneReleased(s.db, p);
    }
  }

  /** Neither a new store is seen nor a cursor behind the marker, and marking a page ends it. */
  lemma {:induction false} NothingMarkedFollow(s: State, p: Pipeline, l: Follow)
    requires DbOk(s.node, s.db) && PipedOk(s.node, s.db, p) && FollowEnabled(s, p, l) && NothingMarked(s.db)
    ensures !l.Fresh? && !l.Ack? && !l.Release?
    ensures l.Mark? ==> p.loaded && p.r.stream > 0 && FollowDb(s.db, p, l).page.offset > 0
    ensures !l.Mark? ==> FollowDb(s.db, p, l) == s.db
  {
    hide WriterFine, SharesOk, ItemsOk, FloorsTrue, GotOk;
    if p.loaded {
      NoneReleased(s.db, p);
    }
  }

  lemma {:induction false} BlankWrite(node: Node, db: Database, p: Pipeline, l: Write)
    requires p.loaded && PipedOk(node, db, p) && WriteEnabled(p, l) && NothingMarked(db) && BlankPiped(p)
    ensures l.Commit? ==> !NothingMarked(WriteDb(db, p, l))
    ensures !l.Commit? ==> BlankPiped(WriteNext(db, p, l))
  {
    hide SharesOk, ItemsOk, FloorsTrue, GotOk, MarkedOk, PendingOk, Covered, NextShares, CountNonEmpty,
      ShareRows;
    if !l.Dispatch? && l.i < p.r.n {
      assert WriterFine(node, db, p.r, p.writers[l.i], l.i);
      if l.Commit? {
        assert ShareWritten(db, p, l.i).parts[(p.r.n, l.i)] == Through(p, l.i) >= 1;
      }
    }
  }

  lemma {:induction false} BlankPass(s: State, b: Paged, a: Pass)
    requires DbOk(s.node, s.db) && PagedOk(s.node, s.db, b) && PagedEnabled(s, b, a)
    requires NothingMarked(s.db) && BlankPaged(b)
    ensures a.PagedCommit? || a.PagedMark? ==> PagedDb(s, b, a).page.offset > 0 && b.stream > 0
    ensures !a.PagedCommit? && !a.PagedMark? ==>
              NothingMarked(PagedDb(s, b, a)) && PagedDb(s, b, a).page == s.db.page && BlankPaged(PagedNext(s, b, a))
    ensures !a.PagedAck? && !a.PagedLag?
  {
    hide SkipOk, ShareCommitted;
    if a.PagedLoad? {
      BlankResumes(s.db, 0, a.resume);
    }
  }

  /** What is marked stays marked. */
  lemma {:induction false} StepStaysMarked(s: State, l: Label)
    requires Sound(s) && Enabled(s, l)
    ensures NothingMarked(Next(s, l).db) ==> NothingMarked(s.db)
  {
    hide SharesOk, ItemsOk, FloorsTrue, WritersOk, PendingOk, SkipOk, CursorOk, Covered;
    if l.Writes? && l.w.Commit? {
      var p, i := s.bridge.p, l.w.i;
      assert p.loaded && Shape(p.r) && Through(p, i) >= 1;
      assert Next(s, l).db.parts[(p.r.n, i)] == Through(p, i);
    }
  }

  lemma {:induction false} StepBlank(s: State, l: Label)
    requires Sound(s) && Blank(s) && Enabled(s, l)
    ensures Blank(Next(s, l))
  {
    hide DbOk, PipedOk, PagedOk, CursorOk, BlankPiped, BlankPaged;
    if NothingMarked(Next(s, l).db) {
      StepStaysMarked(s, l);
      match l
      case Out(o) => StartsBlank(s, o);
      case Following(f) =>
        NothingMarkedFollow(s, s.bridge.p, f);
        BlankFollow(s, s.bridge.p, f);
      case Writes(w) =>
        WritesLoaded(s, w);
        BlankWrite(s.node, s.db, s.bridge.p, w);
      case Passes(a) => BlankPass(s, s.bridge.b, a);
    }
  }

  lemma {:induction false} StartsBlank(s: State, o: Outside)
    requires BlankBridge(s.bridge) && Enabled(s, Out(o))
    ensures BlankBridge(Next(s, Out(o)).bridge)
  {
  }

  lemma {:induction false} WritesLoaded(s: State, w: Write)
    requires Sound(s) && Enabled(s, Writes(w))
    ensures s.bridge.p.loaded
  {
  }
}
