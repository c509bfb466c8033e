/**
 The coverage invariant over whole runs: what every reachable state promises.
 */
module NoLoss {
  import opened MetricTable
  import opened Partition
  import opened StreamLog
  import opened Markers
  import opened SinkModel
  import opened Historian
  import opened Coverage
  import opened CoverageFollow
  import opened CoverageOutside
  import opened CoverageBlank
  import opened CoverageStranded

  // ---------------------------------------------------------------- over whole runs

  /** The store may be recreated: some page was marked under its store's name, or no partition marker was
      set and no pipeline has a row of the old store left to write. */
  ghost predicate MayRecreate(s: State) {
    s.db.page.offset > 0 || (PartsZero(s.db) && (s.bridge.Piped? ==> NothingToWrite(s.node, s.bridge.p)))
  }

  lemma {:induction false} StepKeeps(s: State, l: Label)
    requires Steady(s) && Enabled(s, l) && (l == Out(Recreate) ==> MayRecreate(s))
    ensures Steady(Next(s, l))
  {
    hide Inv, Blank, Stranded, Next, NothingToWrite;
    if Stranded(s) {
      StrandedStep(s, l);
    } else if l == Out(Recreate) && s.db.page.offset == 0 {
      RecreateStrands(s);
    } else {
      StepStays(s, l);
      StepBlank(s, l) by { InvIsSound(s); }
    }
  }

  lemma {:induction false} InvIsSound(s: State)
    requires Inv(s)
    ensures Sound(s)
  {
  }

  /** Every time the store is recreated along the run, it may be. */
  ghost predicate RecreatedSafely(s: State, ls: seq<Label>)
    decreases |ls|
  {
    ls == [] ||
    (Enabled(s, ls[0]) && (ls[0] == Out(Recreate) ==> MayRecreate(s)) && RecreatedSafely(Next(s, ls[0]), ls[1..]))
  }

  lemma {:induction false} RunKeeps(s: State, ls: seq<Label>, t: State)
    requires Steady(s) && Runs(s, ls, t) && RecreatedSafely(s, ls)
    ensures Steady(t)
    decreases |ls|
  {
    hide Steady, MayRecreate, Next;
    if ls != [] {
      StepKeeps(s, ls[0]);
      RunKeeps(Next(s, ls[0]), ls[1..], t);
    }
  }

  lemma {:induction false} InitialInv()
    ensures Inv(Initial()) && Steady(Initial())
  {
  }

  /** Whatever the marker says is in the table: every row at or below the page marker, in the store
      the marker names. */
  ghost predicate PageMarkerTrue(t: State) {
    t.db.page.offset > 0 ==>
      t.node.Has(t.db.page.store) &&
      forall k: nat :: k <= t.db.page.offset && RowAt(t.node.LogOf(t.db.page.store), k) ==>
        Entry(t.db.page.store, TheRow(t.node.LogOf(t.db.page.store), k)) in t.db.journal
  }

  /** A partition marker bounds only rows of its partition that are in the table. */
  ghost predicate PartMarkersTrue(t: State) {
    forall n: nat, i: nat :: (n, i) in t.db.parts && t.db.parts[(n, i)] > 0 ==>
      i < n && t.node.Has(t.db.partsOf) &&
      Covered(t.db.journal, t.db.partsOf, t.node.LogOf(t.db.partsOf), n, i, t.db.parts[(n, i)])
  }

  /** A start in this state that reads the store it was following skips no row that is not in the
      table, with any writer count n and as a one-page-at-a-time run (n = 0). */
  ghost predicate ResumeTrue(t: State) {
    t.node.Has(t.node.Store()) && t.node.Store() == Home(t.db, t.db.page.store) ==>
      forall n: nat, resume: nat :: ResumesAt(t.db.page.offset, t.db.parts, n, resume) ==>
        && CoveredAll(t.db.journal, t.node.Store(), t.node.LogOf(t.node.Store()), resume)
        && (n > 0 ==> forall i: nat :: i < n ==>
              Covered(t.db.journal, t.node.Store(), t.node.LogOf(t.node.Store()), n, i, Own(t.db.parts, n, i)))
  }

  /** The pages in flight all come from one store, the one the run follows. */
  ghost predicate OneStoreInFlight(t: State) {
    t.bridge.Piped? ==>
      var r := t.bridge.p.r;
      && (forall q :: 0 <= q < |r.pages| ==> r.pages[q].store == r.stream)
      && (forall k :: 0 <= k < |r.order| ==> r.order[k].store == r.stream)
  }

  /** In every state the database is true, and the current store is the one it is written from. */
  lemma {:induction false} SteadyDatabase(t: State)
    requires Steady(t)
    ensures DbOk(t.node, t.db) && CursorOk(t.node, t.db) && AtHome(t.node, t.db) && OneStoreInFlight(t)
  {
    hide SharesOk, ItemsOk, WritersOk, PendingOk, MarkedOk, FloorsTrue, GotOk, PagedOk, NothingToWrite, BlankBridge;
    if Stranded(t) {
      var h :| LeftBehind(t, h);
      SameDb(t, h);
    }
  }

  lemma {:induction false} SteadyPromises(t: State)
    requires Steady(t)
    ensures PageMarkerTrue(t) && PartMarkersTrue(t) && ResumeTrue(t) && OneStoreInFlight(t) && CursorOk(t.node, t.db)
  {
    hide Steady;
    SteadyDatabase(t);
    if t.node.Store() == Home(t.db, t.db.page.store) {
      forall n: nat, resume: nat | ResumesAt(t.db.page.offset, t.db.parts, n, resume)
        ensures CoveredAll(t.db.journal, t.node.Store(), t.node.LogOf(t.node.Store()), resume)
        ensures n > 0 ==> forall i: nat :: i < n ==>
          Covered(t.db.journal, t.node.Store(), t.node.LogOf(t.node.Store()), n, i, Own(t.db.parts, n, i))
      {
        ResumeCovered(t.node, t.db, t.node.Store(), n, resume);
        if n > 0 {
          forall i: nat | i < n
            ensures Covered(t.db.journal, t.node.Store(), t.node.LogOf(t.node.Store()), n, i, Own(t.db.parts, n, i))
          {
            OwnCovered(t.node, t.db, n, i);
          }
        }
      }
    }
  }

  /** No loss. Along every run from the empty database, with either mode, any writer counts, crashes
      and lost answers anywhere, and stores recreated when they may be: the markers are true,
      a restart skips nothing unwritten, the cursor is at most one past the page marker of its own
      store and has not moved in a store that has none, and no two stores are in flight at once. */
  lemma {:induction false} NothingIsLost(ls: seq<Label>, t: State)
    requires Runs(Initial(), ls, t) && RecreatedSafely(Initial(), ls)
    ensures PageMarkerTrue(t) && PartMarkersTrue(t) && ResumeTrue(t) && OneStoreInFlight(t)
    ensures 1 <= t.node.cursor
    ensures t.db.page.store == t.node.Store() ==> t.node.cursor <= t.db.page.offset + 1
    ensures t.db.page.store != t.node.Store() ==> t.node.cursor == 1
  {
    InitialInv();
    RunKeeps(Initial(), ls, t);
    SteadyPromises(t);
  }

  // ---------------------------------------------------------------- the table is the journal's fold

  function RowsIn(journal: seq<Entry>): (rows: seq<Row>)
    ensures |rows| == |journal| && forall j :: 0 <= j < |rows| ==> rows[j] == journal[j].row
  {
    seq(|journal|, j requires 0 <= j < |journal| => journal[j].row)
  }

  ghost predicate TableOk(db: Database) {
    db.table == Fold(map[], RowsIn(db.journal))
  }

  lemma {:induction false} JournaledTable(db: Database, s: StoreId, rows: seq<Row>)
    requires TableOk(db)
    ensures TableOk(Journaled(db, s, rows))
  {
    assert RowsIn(db.journal + Tagged(s, rows)) == RowsIn(db.journal) + rows;
    FoldConcat(map[], RowsIn(db.journal), rows);
  }

  lemma {:induction false} StepTable(s: State, l: Label)
    requires TableOk(s.db) && Enabled(s, l)
    ensures TableOk(Next(s, l).db)
  {
    match l
    case Out(_) =>
    case Following(_) =>
    case Writes(w) =>
      if w.Commit? {
        var p := s.bridge.p;
        JournaledTable(s.db, p.r.stream, ShareRows(p.r.pages, w.i, p.writers[w.i].fin, p.writers[w.i].bat));
      }
    case Passes(a) =>
      if a.PagedShare? {
        var b := s.bridge.b;
        JournaledTable(s.db, b.work.value.store, Share(b.work.value.rows, b.writers, a.i, -1));
      } else if a.PagedCommit? {
        JournaledTable(s.db, s.bridge.b.work.value.store, s.bridge.b.work.value.rows);
      }
  }

  /** The table is at every moment the fold of the committed rows in commit order. */
  lemma {:induction false} TableIsJournal(s: State, ls: seq<Label>, t: State)
    requires Runs(s, ls, t) && TableOk(s.db)
    ensures TableOk(t.db)
    decreases |ls|
  {
    if ls != [] {
      StepTable(s, ls[0]);
      TableIsJournal(Next(s, ls[0]), ls[1..], t);
    }
  }
}
