/**
 A store recreated under a running bridge before anything was marked. The bridge goes on with what it has
 of the store that is gone until that is marked or dropped.
 */
module CoverageStranded {
  import opened Basics
  import opened MetricTable
  import opened StreamLog
  import opened SinkModel
  import opened Historian
  import opened Coverage
  import opened CoverageWrite
  import opened CoverageFollow
  import opened CoveragePaged
  import opened CoverageOutside
  import opened CoverageBlank

  /** The page the fetcher has read will be handed on. */
  predicate WillTake(node: Node, p: Pipeline) {
    p.got.Some? && Usable(node, p.got.value) && (p.got.value.ahead ==> p.got.value.store == p.r.stream)
  }

  /** Nothing the pipeline holds, read, decoded or dispatched, has a row. */
  predicate NothingToWrite(node: Node, p: Pipeline) {
    && (forall q, i :: 0 <= q < |p.r.pages| && 0 <= i < |p.r.pages[q].shares| ==> p.r.pages[q].shares[i] == [])
    && (forall k :: 0 <= k < |p.r.order| ==> p.r.order[k].rows == [])
    && (WillTake(node, p) ==> Decoded(node, p.got.value, p.r.applied) == [])
  }

  /** The state as a database that is written from store h sees it. */
  function AtStore(s: State, h: StoreId): State {
    s.(db := s.db.(home := h))
  }

  /** The bridge works in store h, which was recreated since, and has nothing to write from it. */
  ghost predicate LeftBehind(s: State, h: StoreId) {
    && NothingMarked(s.db) && AtHome(s.node, s.db) && 1 <= h < s.node.Store() && Sound(AtStore(s, h)) && Blank(s)
    && (s.bridge.Piped? ==> NothingToWrite(s.node, s.bridge.p))
  }

  /** The bridge has something of the store it works in. */
  predicate HoldsPages(bridge: Bridge) {
    match bridge
    case Down => false
    case Piped(p) => p.loaded && (Chained(p.r) || p.got.Some?)
    case OnePage(b) => b.got.Some? || b.work.Some?
  }

  ghost predicate Stranded(s: State) {
    HoldsPages(s.bridge) && exists h :: LeftBehind(s, h)
  }

  /** What every step keeps. */
  ghost predicate Steady(s: State) {
    (Inv(s) && Blank(s)) || Stranded(s)
  }

  /** A bridge that holds nothing of the store that is gone works in the new one. */
  lemma {:induction false} StrandedOrNot(s: State, h: StoreId)
    requires LeftBehind(s, h)
    ensures Steady(s)
  {
    if !HoldsPages(s.bridge) {
      hide SharesOk, ItemsOk, NothingToWrite, AtStore;
      assert DbOk(s.node, s.db) && CursorOk(s.node, s.db) by { SameDb(s, h); }
      match s.bridge
      case Down =>
      case Piped(p) => EmptyHandedPiped(s, h, p);
      case OnePage(b) => EmptyHandedPaged(s, h, b);
    }
  }

  lemma {:induction false} SameDb(s: State, h: StoreId)
    requires DbOk(s.node, AtStore(s, h).db) && NothingMarked(s.db) && AtHome(s.node, s.db)
    requires CursorOk(s.node, AtStore(s, h).db)
    ensures DbOk(s.node, s.db) && CursorOk(s.node, s.db)
  {
  }

  lemma {:induction false} EmptyHandedPiped(s: State, h: StoreId, p: Pipeline)
    requires LeftBehind(s, h) && s.bridge == Piped(p) && !(p.loaded && (Chained(p.r) || p.got.Some?))
    ensures PipedOk(s.node, s.db, p)
  {
    hide SharesOk, ItemsOk, NothingToWrite, DbOk, CursorOk;
    if p.loaded {
      forall i: nat | i < p.r.n ensures WriterFine(s.node, s.db, p.r, p.writers[i], i) {
        assert WriterFine(s.node, AtStore(s, h).db, p.r, p.writers[i], i);
      }
      assert forall i: nat :: i < p.r.n ==> Floor(p.r, i) == 0;
    }
  }

  lemma {:induction false} EmptyHandedPaged(s: State, h: StoreId, b: Paged)
    requires LeftBehind(s, h) && s.bridge == OnePage(b) && b.got.None? && b.work.None?
    ensures PagedOk(s.node, s.db, b)
  {
    hide DbOk, CursorOk, NothingToWrite;
  }

  // ---------------------------------------------------------------- the store is recreated

  lemma {:induction false} StillNothingToWrite(node: Node, after: Node, db: Database, p: Pipeline)
    requires PipedOk(node, db, p) && NothingToWrite(node, p) && Grows(node, after)
    ensures NothingToWrite(after, p)
  {
    hide RouteOk, WritersOk, PendingOk, MarkedOk, FloorsTrue;
    if WillTake(after, p) {
      var got := p.got.value;
      RowsExtend(node.LogOf(got.store), after.LogOf(got.store), Max(got.first - 1, p.r.applied), got.last);
    }
  }

  /** As seen from the store that is gone, nothing has changed. */
  lemma {:induction false} RecreatedSound(s: State)
    requires Inv(s) && s.db.page.offset == 0
    ensures 1 <= s.node.Store() && Sound(AtStore(Next(s, Out(Recreate)), s.node.Store()))
  {
    hide PipedOk, PagedOk, DbOk;
    var t, h := Next(s, Out(Recreate)), s.node.Store();
    assert AtStore(t, h) == s.(node := t.node) && h >= 1 by { HasStore(s); }
    BridgeStore(s);
    SoundGrows(s, t.node);
  }

  lemma {:induction false} RecreateStrands(s: State)
    requires Inv(s) && Blank(s) && NothingMarked(s.db)
    requires s.bridge.Piped? ==> NothingToWrite(s.node, s.bridge.p)
    ensures Steady(Next(s, Out(Recreate)))
  {
    hide PipedOk, PagedOk, NothingToWrite, Stranded, DbOk;
    var t, h := Next(s, Out(Recreate)), s.node.Store();
    RecreatedSound(s);
    if s.bridge.Piped? {
      StillNothingToWrite(s.node, t.node, s.db, s.bridge.p);
    }
    StrandedOrNot(t, h);
  }

  lemma {:induction false} HasStore(s: State)
    requires Inv(s)
    ensures s.node.Store() >= 1
  {
  }

  // ---------------------------------------------------------------- the bridge goes on

  /** The stream grows, or the store is recreated again. */
  lemma {:induction false} StrandedOutside(s: State, h: StoreId, o: Outside)
    requires LeftBehind(s, h) && HoldsPages(s.bridge) && Enabled(s, Out(o))
    ensures Steady(Next(s, Out(o)))
  {
    hide PipedOk, PagedOk, NothingToWrite, Stranded, DbOk;
    var t := Next(s, Out(o));
    if o.Append? || o.Recreate? {
      var a := AtStore(s, h);
      assert AtStore(t, h) == a.(node := t.node) && Grows(s.node, t.node);
      BridgeStore(a);
      SoundGrows(a, t.node);
      if s.bridge.Piped? {
        StillNothingToWrite(s.node, t.node, a.db, s.bridge.p);
      }
      StrandedOrNot(t, h);
    } else {
      SameDb(s, h);
    }
  }

  /** No step of a bridge looks at what a database is written from. */
  lemma {:induction false} StoreUnseen(s: State, h: StoreId, l: Label)
    requires !l.Out?
    ensures Enabled(AtStore(s, h), l) == Enabled(s, l)
    ensures Enabled(s, l) ==> Next(AtStore(s, h), l) == AtStore(Next(s, l), h)
  {
  }

  /** Once a page is marked it does not matter what the database was written from before. */
  lemma {:induction false} MarkedAnywhere(s: State, h: StoreId)
    requires Sound(AtStore(s, h)) && s.node.Has(s.db.home) && s.db.page.offset > 0
    requires s.bridge.Piped? ==> s.bridge.p.loaded && s.bridge.p.r.stream > 0
    requires s.bridge.OnePage? ==> s.bridge.b.stream > 0
    ensures Inv(s)
  {
    hide SharesOk, ItemsOk, PendingOk, Covered, CoveredAll;
    if s.bridge.Piped? {
      var p := s.bridge.p;
      forall i: nat | i < p.r.n ensures WriterFine(s.node, s.db, p.r, p.writers[i], i) {
        assert WriterFine(s.node, AtStore(s, h).db, p.r, p.writers[i], i);
      }
    }
  }

  lemma {:induction false} HomeExists(s: State, h: StoreId)
    requires LeftBehind(s, h)
    ensures s.node.Has(s.db.home)
  {
  }

  lemma {:induction false} ReadsAhead(node: Node, db: Database, p: Pipeline)
    requires PipedOk(node, db, p) && HoldsPages(Piped(p)) && p.got.None?
    ensures p.r.next > 0
  {
    hide WritersOk, SharesOk, ItemsOk, FloorsTrue, PendingOk;
  }

  lemma {:induction false} FollowNothingToWrite(s: State, p: Pipeline, l: Follow)
    requires DbOk(s.node, s.db) && PipedOk(s.node, s.db, p) && FollowEnabled(s, p, l) && NothingMarked(s.db)
    requires HoldsPages(Piped(p)) && NothingToWrite(s.node, p) && s.db.home < s.node.Store() && !l.Mark?
    ensures NothingToWrite(s.node, FollowNext(s, p, l))
  {
    hide WriterFine, SharesOk, ItemsOk, FloorsTrue, DbOk, Decoded;
    NothingMarkedFollow(s, p, l);
    if l.Read? {
      ReadsAhead(s.node, s.db, p);
    }
  }

  lemma {:induction false} StrandedFollow(s: State, h: StoreId, l: Follow)
    requires LeftBehind(s, h) && HoldsPages(s.bridge) && Enabled(s, Following(l))
    ensures Steady(Next(s, Following(l)))
  {
    hide DbOk, Stranded, PipedOk, CursorOk, NothingToWrite, BlankPiped;
    var a, t, p := AtStore(s, h), Next(s, Following(l)), s.bridge.p;
    StoreUnseen(s, h, Following(l));
    NothingMarkedFollow(a, p, l);
    if l.Read? {
      ReadsAhead(a.node, a.db, p);
    }
    FollowKeepsParts(a, p, l);
    if l.Mark? {
      HomeExists(s, h);
      MarkedAnywhere(t, h);
    } else {
      BlankFollow(a, p, l);
      FollowNothingToWrite(a, p, l);
      StrandedOrNot(t, h);
    }
  }

  /** Writers without rows get nothing to do. */
  lemma {:induction false} OnlyHandsOut(node: Node, db: Database, p: Pipeline, l: Write)
    requires p.loaded && PipedOk(node, db, p) && NothingToWrite(node, p) && WriteEnabled(p, l)
    ensures l.Dispatch? || l.Send?
    ensures NothingToWrite(node, WriteNext(db, p, l))
  {
    hide SharesOk, ItemsOk, FloorsTrue, PendingOk, MarkedOk, GotOk, Decoded, Contiguous, WriterCovers;
    if l.Dispatch? {
      DispatchesNothing(node, db, p);
    } else if l.i < p.r.n {
      assert WriterFine(node, db, p.r, p.writers[l.i], l.i);
    }
  }

  lemma {:induction false} DispatchesNothing(node: Node, db: Database, p: Pipeline)
    requires NothingToWrite(node, p) && WriteEnabled(p, Dispatch)
    ensures NothingToWrite(node, WriteNext(db, p, Dispatch))
  {
    hide Decoded;
    var u := DispatchNext(p);
    assert forall i :: 0 <= i < p.r.n ==> NextShares(p.r)[i] == [];
    assert u.r.pages == p.r.pages + [u.r.pages[|p.r.pages|]] && u.got == p.got && u.r.applied == p.r.applied;
  }

  lemma {:induction false} StrandedWrite(s: State, h: StoreId, l: Write)
    requires LeftBehind(s, h) && HoldsPages(s.bridge) && Enabled(s, Writes(l))
    ensures Steady(Next(s, Writes(l)))
  {
    hide DbOk, Stranded, PipedOk, CursorOk, NothingToWrite, BlankPiped;
    var a, t, p := AtStore(s, h), Next(s, Writes(l)), s.bridge.p;
    StoreUnseen(s, h, Writes(l));
    OnlyHandsOut(a.node, a.db, p, l);
    WriteKeepsParts(a.node, a.db, p, l);
    BlankWrite(a.node, a.db, p, l);
    StrandedOrNot(t, h);
  }

  lemma {:induction false} StrandedPass(s: State, h: StoreId, a: Pass)
    requires LeftBehind(s, h) && HoldsPages(s.bridge) && Enabled(s, Passes(a))
    ensures Steady(Next(s, Passes(a)))
  {
    hide DbOk, Stranded, PagedOk, CursorOk, BlankPaged;
    var at, t, b := AtStore(s, h), Next(s, Passes(a)), s.bridge.b;
    StoreUnseen(s, h, Passes(a));
    BlankPass(at, b, a);
    ReadsElsewhere(at, b, a);
    PassKeepsParts(at, b, a);
    if a.PagedCommit? || a.PagedMark? {
      HomeExists(s, h);
      MarkedAnywhere(t, h);
    } else {
      StrandedOrNot(t, h);
    }
  }

  lemma {:induction false} ReadsElsewhere(s: State, b: Paged, a: Pass)
    requires PagedOk(s.node, s.db, b) && PagedEnabled(s, b, a) && BlankPaged(b) && HoldsPages(OnePage(b))
    ensures !a.PagedRead? && (a.ReadEarly? ==> b.stream > 0)
  {
  }

  lemma {:induction false} StrandedStep(s: State, l: Label)
    requires Stranded(s) && Enabled(s, l)
    ensures Steady(Next(s, l))
  {
    hide LeftBehind, HoldsPages, Steady, Next;
    var h :| LeftBehind(s, h);
    match l
    case Out(o) => StrandedOutside(s, h, o);
    case Following(f) => StrandedFollow(s, h, f);
    case Writes(w) => StrandedWrite(s, h, w);
    case Passes(a) => StrandedPass(s, h, a);
  }

  /** Whatever the state, it is sound as seen from some store. */
  lemma {:induction false} SteadyIsSound(s: State) returns (h: StoreId)
    requires Steady(s)
    ensures Sound(AtStore(s, h)) && Blank(s)
  {
    hide Sound, Blank;
    if Inv(s) && Blank(s) {
      h := s.db.home;
      assert AtStore(s, h) == s;
    } else {
      h :| LeftBehind(s, h);
    }
  }
}
