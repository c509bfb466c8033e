/**
 The steps of a run that applies one page at a time keep the coverage invariant.
 */
module CoveragePaged {
  import opened Basics
  import opened MetricTable
  import opened Partition
  import opened StreamLog
  import opened SinkModel
  import opened Historian
  import opened Coverage
  import opened CoverageWrite
  import opened CoverageFollow

  lemma {:induction false} PagedLoadKeeps(s: State, b: Paged, resume: nat)
    requires DbOk(s.node, s.db) && PagedOk(s.node, s.db, b) && PagedEnabled(s, b, PagedLoad(resume))
    ensures PagedOk(s.node, s.db, PagedNext(s, b, PagedLoad(resume)))
  {
    var home := Home(s.db, s.db.page.store);
    if s.node.Store() == home || (b.got.Some? && b.got.value.store == home) {
      ResumeCovered(s.node, s.db, home, 0, resume);
    }
  }

  /** Which store a page that is applied or found lagging comes from. */
  lemma {:induction false} PagedPageStore(node: Node, db: Database, b: Paged)
    requires DbOk(node, db) && PagedOk(node, db, b) && b.known && b.got.Some?
    requires b.got.value.ahead ==> b.stream == 0 || b.got.value.store == b.stream
    ensures b.got.value.first <= b.marker + 1
    ensures PagedFresh(b) ==> db.page.store < b.got.value.store && b.got.value.first == 1
    ensures !PagedFresh(b) ==> b.got.value.store == Home(db, b.stream) == Adopt(b.stream, b.got.value.store)
  {
  }

  lemma {:induction false} PagedTakeKeeps(s: State, b: Paged, readAhead: bool)
    requires DbOk(s.node, s.db) && PagedOk(s.node, s.db, b) && PagedEnabled(s, b, PagedTake(readAhead))
    ensures DbOk(s.node, PagedDb(s, b, PagedTake(readAhead)))
    ensures PagedOk(s.node, PagedDb(s, b, PagedTake(readAhead)), PagedNext(s, b, PagedTake(readAhead)))
  {
    PagedPageStore(s.node, s.db, b);
    ZeroedIsZero(s.db);
    if PagedFresh(b) {
      assert b.marker == s.db.page.offset;
    }
  }

  /** The rows of a page, on top of what is skipped, are all rows up to its end. */
  lemma {:induction false} PageCovers(journal: seq<Entry>, s: StoreId, log: Log, first: nat, skip: nat, last: nat)
    requires 1 <= first <= skip + 1 && last <= |log| && CoveredAll(journal, s, log, skip)
    requires forall row :: row in Rows(log, Max(first - 1, skip), last) ==> Entry(s, row) in journal
    ensures CoveredAll(journal, s, log, Max(skip, last))
  {
    forall k: nat | k <= Max(skip, last) && RowAt(log, k) ensures Entry(s, TheRow(log, k)) in journal {
      if k > skip {
        RowsHas(log, Max(first - 1, skip), last, k);
      }
    }
  }

  lemma {:induction false} ShareHas(rows: seq<Row>, n: nat, row: Row)
    requires n > 0 && row in rows
    ensures row in Share(rows, n, PartitionOf(row.signal, n), -1)
  {
    if rows[|rows| - 1] != row {
      ShareHas(rows[..|rows| - 1], n, row);
    }
  }

  lemma {:induction false} MoreCoveredAll(journal: seq<Entry>, more: seq<Entry>, s: StoreId, log: Log, upTo: nat)
    requires CoveredAll(journal, s, log, upTo) && forall e :: e in journal ==> e in more
    ensures CoveredAll(more, s, log, upTo)
  {
  }

  lemma {:induction false} PagedShareKeeps(s: State, b: Paged, i: nat)
    requires DbOk(s.node, s.db) && PagedOk(s.node, s.db, b) && PagedEnabled(s, b, PagedShare(i))
    ensures DbOk(s.node, PagedDb(s, b, PagedShare(i)))
    ensures PagedOk(s.node, PagedDb(s, b, PagedShare(i)), PagedNext(s, b, PagedShare(i)))
  {
    hide Covered, DbOk;
    var w, after := b.work.value, PagedDb(s, b, PagedShare(i));
    TaggedIn(s.db.journal, w.store, Share(w.rows, b.writers, i, -1));
    JournalGrows(s.node, s.db, after);
    MoreCoveredAll(s.db.journal, after.journal, b.stream, s.node.LogOf(b.stream), b.skip);
    forall j | j in PagedNext(s, b, PagedShare(i)).shared
      ensures ShareCommitted(after, PagedNext(s, b, PagedShare(i)), j)
    {
      assert j != i ==> ShareCommitted(s.db, b, j);
    }
  }

  /** Moving the page marker to the end of a page whose rows are all committed. */
  lemma {:induction false} PageMoves(node: Node, db: Database, b: Paged, heard: bool)
    requires DbOk(node, db) && CursorOk(node, db) && PagedOk(node, db, b) && b.work.Some?
    requires forall row :: row in b.work.value.rows ==> Entry(b.stream, row) in db.journal
    ensures var after := db.(page := Marker(b.work.value.last, b.work.value.store));
            DbOk(node, after) && CursorOk(node, after) && PagedOk(node, after, PagedApplied(b, heard))
  {
    var w := b.work.value;
    PageCovers(db.journal, b.stream, node.LogOf(b.stream), w.first, b.skip, w.last);
  }

  lemma {:induction false} WorkStays(node: Node, db: Database, after: Database, b: Paged)
    requires PagedOk(node, db, b) && b.work.Some?
    requires after.page == db.page && after.parts == db.parts && after.partsOf == db.partsOf && after.home == db.home
    requires forall e :: e in db.journal ==> e in after.journal
    ensures PagedOk(node, after, b)
  {
    MoreCoveredAll(db.journal, after.journal, b.stream, node.LogOf(b.stream), b.skip);
    if b.writers > 1 {
      forall j | j in b.shared ensures ShareCommitted(after, b, j) {
        assert ShareCommitted(db, b, j);
      }
    }
  }

  lemma {:induction false} PagedCommitKeeps(s: State, b: Paged, heard: bool)
    requires DbOk(s.node, s.db) && CursorOk(s.node, s.db) && PagedOk(s.node, s.db, b)
    requires PagedEnabled(s, b, PagedCommit(heard))
    ensures DbOk(s.node, PagedDb(s, b, PagedCommit(heard))) && CursorOk(s.node, PagedDb(s, b, PagedCommit(heard)))
    ensures PagedOk(s.node, PagedDb(s, b, PagedCommit(heard)), PagedNext(s, b, PagedCommit(heard)))
  {
    var w := b.work.value;
    var mid := Journaled(s.db, w.store, w.rows);
    TaggedIn(s.db.journal, w.store, w.rows);
    JournalGrows(s.node, s.db, mid);
    WorkStays(s.node, s.db, mid, b);
    PageMoves(s.node, mid, b, heard);
  }

  lemma {:induction false} PagedMarkKeeps(s: State, b: Paged, heard: bool)
    requires DbOk(s.node, s.db) && CursorOk(s.node, s.db) && PagedOk(s.node, s.db, b)
    requires PagedEnabled(s, b, PagedMark(heard))
    ensures DbOk(s.node, PagedDb(s, b, PagedMark(heard))) && CursorOk(s.node, PagedDb(s, b, PagedMark(heard)))
    ensures PagedOk(s.node, PagedDb(s, b, PagedMark(heard)), PagedNext(s, b, PagedMark(heard)))
  {
    var w := b.work.value;
    forall row | row in w.rows ensures Entry(b.stream, row) in s.db.journal {
      ShareHas(w.rows, b.writers, row);
      assert ShareCommitted(s.db, b, PartitionOf(row.signal, b.writers));
    }
    PageMoves(s.node, s.db, b, heard);
  }

  lemma {:induction false} PagedAckKeeps(s: State, b: Paged, a: Pass)
    requires DbOk(s.node, s.db) && CursorOk(s.node, s.db) && PagedOk(s.node, s.db, b)
    requires (a.PagedAck? || a.PagedLag?) && PagedEnabled(s, b, a)
    ensures CursorOk(PagedNode(s.node, b, a), s.db) && DbOk(PagedNode(s.node, b, a), s.db)
    ensures PagedOk(PagedNode(s.node, b, a), s.db, PagedNext(s, b, a))
  {
    var after := PagedNode(s.node, b, a);
    AckKeepsCursor(s.node, s.db, b.marker, s.db.page.store);
    CursorMoves(s.node, after, s.db);
  }

  lemma {:induction false} PagedQuietKeeps(s: State, b: Paged, a: Pass)
    requires DbOk(s.node, s.db) && CursorOk(s.node, s.db) && PagedOk(s.node, s.db, b) && PagedEnabled(s, b, a)
    requires a.PagedRead? || a.ReadEarly? || a.TakeEarly? || a.PagedDrop? || a.PagedFail?
    requires a.PagedRead? || (a.ReadEarly? && b.stream == 0) ==> AtHome(s.node, s.db)
    ensures PagedOk(s.node, s.db, PagedNext(s, b, a))
  {
  }

  lemma {:induction false} PassKeepsParts(s: State, b: Paged, a: Pass)
    requires DbOk(s.node, s.db) && CursorOk(s.node, s.db) && PagedOk(s.node, s.db, b) && PagedEnabled(s, b, a)
    requires !a.PagedAck? && !a.PagedLag? && (a.PagedRead? || (a.ReadEarly? && b.stream == 0) ==> AtHome(s.node, s.db))
    ensures DbOk(s.node, PagedDb(s, b, a)) && CursorOk(s.node, PagedDb(s, b, a))
    ensures PagedOk(s.node, PagedDb(s, b, a), PagedNext(s, b, a))
  {
    match a
    case PagedLoad(resume) => PagedLoadKeeps(s, b, resume);
    case PagedTake(readAhead) => PagedTakeKeeps(s, b, readAhead);
    case PagedShare(i) => PagedShareKeeps(s, b, i);
    case PagedCommit(heard) => PagedCommitKeeps(s, b, heard);
    case PagedMark(heard) => PagedMarkKeeps(s, b, heard);
    case PagedRead(_) => PagedQuietKeeps(s, b, a);
    case ReadEarly(_) => PagedQuietKeeps(s, b, a);
    case TakeEarly => PagedQuietKeeps(s, b, a);
    case PagedDrop => PagedQuietKeeps(s, b, a);
    case PagedFail => PagedQuietKeeps(s, b, a);
  }

  /** Every step of a one-page-at-a-time run keeps the invariant. */
  lemma {:induction false} PassKeeps(s: State, a: Pass)
    requires Inv(s) && s.bridge.OnePage? && PagedEnabled(s, s.bridge.b, a)
    ensures Inv(Next(s, Passes(a)))
  {
    if a.PagedAck? || a.PagedLag? {
      PagedAckKeeps(s, s.bridge.b, a);
    } else {
      PassKeepsParts(s, s.bridge.b, a);
    }
  }
}
