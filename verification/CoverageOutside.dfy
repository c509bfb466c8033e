/**
 What happens around a bridge: the stream grows, the store is recreated, the process stops and starts.
 */
module CoverageOutside {
  import opened Basics
  import opened MetricTable
  import opened StreamLog
  import opened SinkModel
  import opened Historian
  import opened Coverage
  import opened CoverageWrite
  import opened CoverageFollow
  import opened CoveragePaged

  // ---------------------------------------------------------------- the node grows

  ghost predicate Grows(node: Node, after: Node) {
    |node.logs| <= |after.logs| && forall s :: 0 <= s < |node.logs| ==> node.logs[s] <= after.logs[s]
  }

  lemma {:induction false} CoveredGrows(journal: seq<Entry>, s: StoreId, log: Log, more: Log, n: nat, i: nat, upTo: nat)
    requires n > 0 && upTo <= |log| && log <= more && Covered(journal, s, log, n, i, upTo)
    ensures Covered(journal, s, more, n, i, upTo)
  {
    forall k: nat | k <= upTo && InPart(more, n, i, k) ensures Entry(s, TheRow(more, k)) in journal {
      assert InPart(log, n, i, k);
    }
  }

  lemma {:induction false} CoveredAllGrows(journal: seq<Entry>, s: StoreId, log: Log, more: Log, upTo: nat)
    requires upTo <= |log| && log <= more && CoveredAll(journal, s, log, upTo)
    ensures CoveredAll(journal, s, more, upTo)
  {
    forall k: nat | k <= upTo && RowAt(more, k) ensures Entry(s, TheRow(more, k)) in journal {
      assert RowAt(log, k);
    }
  }

  lemma {:induction false} DbGrows(node: Node, after: Node, db: Database)
    requires DbOk(node, db) && Grows(node, after)
    ensures DbOk(after, db)
  {
    if db.page.offset > 0 {
      CoveredAllGrows(db.journal, db.page.store, node.LogOf(db.page.store), after.LogOf(db.page.store), db.page.offset);
    }
    if !PartsZero(db) {
      var s := db.partsOf;
      forall k | k in db.parts
        ensures k.1 < k.0 && db.parts[k] <= |after.LogOf(s)|
        ensures Covered(db.journal, s, after.LogOf(s), k.0, k.1, db.parts[k])
      {
        CoveredGrows(db.journal, s, node.LogOf(s), after.LogOf(s), k.0, k.1, db.parts[k]);
      }
    }
  }

  lemma {:induction false} SharesGrow(log: Log, more: Log, r: Route)
    requires Shape(r) && log <= more && SharesOk(log, r) && ItemsOk(log, r)
    ensures SharesOk(more, r) && ItemsOk(more, r)
  {
    forall q, i: nat {:trigger r.pages[q].shares[i]} | 0 <= q < |r.pages| && i < r.n
      ensures r.pages[q].shares[i] == PartRows(more, r.n, i, Reach(r, i, q), Reach(r, i, q + 1))
    {
      assert Floor(r, i) <= |log|;
      PartExtend(log, more, r.n, i, Reach(r, i, q), Reach(r, i, q + 1));
    }
    forall k | 0 <= k < |r.order|
      ensures r.order[k].rows == Rows(more, Max(r.order[k].first - 1, r.applied), r.order[k].last)
    {
      RowsExtend(log, more, Max(r.order[k].first - 1, r.applied), r.order[k].last);
    }
  }

  lemma {:induction false} WritersGrow(node: Node, after: Node, db: Database, r: Route, writers: seq<Writer>)
    requires RouteOk(node, r) && WritersOk(node, db, r, writers) && Grows(node, after)
    ensures WritersOk(after, db, r, writers)
  {
    forall i: nat | i < r.n ensures WriterFine(after, db, r, writers[i], i) {
      assert WriterFine(node, db, r, writers[i], i);
      if r.pages != [] {
        SharesJoin(node.LogOf(r.stream), r, i, 0, writers[i].Com());
        CoveredGrows(db.journal, r.stream, node.LogOf(r.stream), after.LogOf(r.stream), r.n, i,
                     Reach(r, i, writers[i].Com()));
      }
    }
  }

  lemma {:induction false} FloorsGrow(node: Node, after: Node, db: Database, r: Route)
    requires Shape(r) && FloorsTrue(node, db, r) && Grows(node, after)
    ensures FloorsTrue(after, db, r)
  {
    var s := Home(db, r.stream);
    forall i: nat | i < r.n
      ensures Floor(r, i) <= |after.LogOf(s)| && Covered(db.journal, s, after.LogOf(s), r.n, i, Floor(r, i))
    {
      CoveredGrows(db.journal, s, node.LogOf(s), after.LogOf(s), r.n, i, Floor(r, i));
    }
  }

  lemma {:induction false} PipedGrows(node: Node, after: Node, db: Database, p: Pipeline)
    requires PipedOk(node, db, p) && Grows(node, after) && p.loaded
    requires after.Store() == Home(db, p.r.stream) ==> node.Store() == Home(db, p.r.stream)
    ensures PipedOk(after, db, p)
  {
    if Chained(p.r) {
      SharesGrow(node.LogOf(p.r.stream), after.LogOf(p.r.stream), p.r);
    }
    WritersGrow(node, after, db, p.r, p.writers);
    if Engaged(after, db, p.r, p.got) {
      FloorsGrow(node, after, db, p.r);
    }
  }

  lemma {:induction false} PagedGrows(node: Node, after: Node, db: Database, b: Paged)
    requires PagedOk(node, db, b) && Grows(node, after)
    requires after.Store() == Home(db, b.stream) ==> node.Store() == Home(db, b.stream)
    ensures PagedOk(after, db, b)
  {
    var s := Home(db, b.stream);
    if b.known && PagedEngaged(after, db, b) {
      CoveredAllGrows(db.journal, s, node.LogOf(s), after.LogOf(s), b.skip);
    }
    if b.work.Some? {
      var w := b.work.value;
      RowsExtend(node.LogOf(s), after.LogOf(s), Max(w.first - 1, b.skip), w.last);
    }
  }

  /** The store the bridge follows is not the one that comes up. */
  predicate KeepsApart(node: Node, after: Node, db: Database, bridge: Bridge) {
    match bridge
    case Down => true
    case Piped(p) => after.Store() == Home(db, p.r.stream) ==> node.Store() == Home(db, p.r.stream)
    case OnePage(b) => after.Store() == Home(db, b.stream) ==> node.Store() == Home(db, b.stream)
  }

  lemma {:induction false} SoundGrows(s: State, after: Node)
    requires Sound(s) && Grows(s.node, after) && CursorOk(after, s.db) && KeepsApart(s.node, after, s.db, s.bridge)
    ensures Sound(s.(node := after))
  {
    hide DbOk, PipedOk, PagedOk, CursorOk;
    DbGrows(s.node, after, s.db);
    if s.bridge.OnePage? {
      PagedGrows(s.node, after, s.db, s.bridge.b);
    } else if s.bridge.Piped? {
      if s.bridge.p.loaded {
        PipedGrows(s.node, after, s.db, s.bridge.p);
      } else {
        NewPipelineOk(s.node, after, s.db, s.bridge.p);
      }
    }
  }

  lemma {:induction false} NewPipelineOk(node: Node, after: Node, db: Database, p: Pipeline)
    requires PipedOk(node, db, p) && !p.loaded
    ensures PipedOk(after, db, p)
  {
  }

  /** Appending to the stream, crashing, starting in either mode, and recreating a store once something was
      marked under its name keep the invariant. */
  lemma {:induction false} OutsideKeeps(s: State, o: Outside)
    requires Inv(s) && Enabled(s, Out(o)) && (o.Recreate? ==> s.db.page.offset > 0)
    ensures Inv(Next(s, Out(o)))
  {
    var t := OutsideNext(s, o);
    if o.Append? || o.Recreate? {
      assert Grows(s.node, t.node);
      BridgeStore(s);
      SoundGrows(s, t.node);
    }
  }

  /** The bridge follows no store that does not exist yet. */
  lemma {:induction false} BridgeStore(s: State)
    requires Sound(s)
    ensures s.bridge.Piped? ==> Home(s.db, s.bridge.p.r.stream) <= s.node.Store()
    ensures s.bridge.OnePage? ==> Home(s.db, s.bridge.b.stream) <= s.node.Store()
  {
  }

  lemma {:induction false} StepStays(s: State, l: Label)
    requires Inv(s) && Enabled(s, l) && (l == Out(Recreate) ==> s.db.page.offset > 0)
    ensures Inv(Next(s, l))
  {
    hide Inv;
    match l
    case Out(o) => OutsideKeeps(s, o);
    case Following(f) => FollowKeeps(s, f);
    case Writes(w) => WriteKeeps(s, w);
    case Passes(a) => PassKeeps(s, a);
  }
}
