/**
 A bridge that applies one page at a time with one writer commits a page's rows and the marker
 together: in one store the database is at every moment the stream up to the marker.
 */
module PagedOnce {
  import opened Basics
  import opened MetricTable
  import opened StreamLog
  import opened Markers
  import opened SinkModel
  import opened Historian
  import opened Coverage
  import opened CoveragePaged
  import opened CoverageOutside
  import opened NoLoss
  import opened Exactly

  /** The steps of a history in one store that applies one page at a time, each in one transaction. */
  predicate OnePager(l: Label) {
    match l
    case Out(o) => !o.Recreate? && !o.StartPiped? && (o.StartPaged? ==> o.writers <= 1)
    case Following(_) => false
    case Writes(_) => false
    case Passes(_) => true
  }

  ghost predicate UpToMarker(db: Database, log: Log) {
    db.page.offset <= |log| && RowsIn(db.journal) == Rows(log, 0, db.page.offset)
  }

  ghost predicate PagedExact(s: State) {
    && Inv(s) && s.node.Store() == 1 && s.db.parts == map[] && UpToMarker(s.db, s.node.LogOf(1))
    && match s.bridge
       case Down => true
       case Piped(_) => false
       case OnePage(b) => b.writers <= 1 && (b.known ==> b.skip == s.db.page.offset)
  }

  lemma {:induction false} LoadIsMarker(page: nat, resume: nat)
    requires ResumesAt(page, map[], 0, resume)
    ensures resume == page
  {
    var none: PartMarkers := map[];
    forall count: nat, floor: nat ensures !OtherFloor(none, 0, count, floor) {
      assert (count, 0) !in none;
    }
  }

  lemma {:induction false} CommitUpToMarker(db: Database, log: Log, work: Work, skip: nat)
    requires UpToMarker(db, log) && skip == db.page.offset <= work.last <= |log| && 1 <= work.first <= skip + 1
    requires work.rows == Rows(log, Max(work.first - 1, skip), work.last)
    ensures UpToMarker(Journaled(db, work.store, work.rows).(page := Marker(work.last, work.store)), log)
  {
    assert RowsIn(db.journal + Tagged(work.store, work.rows)) == RowsIn(db.journal) + work.rows;
    RowsSplit(log, 0, skip, work.last);
  }

  lemma {:induction false} PassExact(s: State, a: Pass)
    requires PagedExact(s) && s.bridge.OnePage? && PagedEnabled(s, s.bridge.b, a)
    ensures PagedExact(Next(s, Passes(a)))
  {
    PassKeeps(s, a);
    var b := s.bridge.b;
    if a.PagedLoad? {
      LoadIsMarker(s.db.page.offset, a.resume);
    } else if a.PagedTake? {
      PagedPageStore(s.node, s.db, b);
      assert !PagedFresh(b);
    } else if a.PagedCommit? {
      CommitUpToMarker(s.db, s.node.LogOf(1), b.work.value, b.skip);
    }
  }

  lemma {:induction false} StepPagedExact(s: State, l: Label)
    requires PagedExact(s) && Enabled(s, l) && OnePager(l)
    ensures PagedExact(Next(s, l))
  {
    match l
    case Out(o) =>
      OutsideKeeps(s, o);
      if o.Append? {
        RowsExtend(s.node.LogOf(1), Next(s, l).node.LogOf(1), 0, s.db.page.offset);
      }
    case Passes(a) => PassExact(s, a);
  }

  lemma {:induction false} RunPagedExact(s: State, ls: seq<Label>, t: State)
    requires PagedExact(s) && Runs(s, ls, t) && forall l :: l in ls ==> OnePager(l)
    ensures PagedExact(t)
    decreases |ls|
  {
    if ls != [] {
      StepPagedExact(s, ls[0]);
      RunPagedExact(Next(s, ls[0]), ls[1..], t);
    }
  }

  /** Over every such run, with crashes and lost answers anywhere, the committed rows are the stream up to
      the page marker, each once and in order, and the table is the sequential one. */
  lemma {:induction false} PagedRowsApplyExactlyOnce(ls: seq<Label>, t: State)
    requires Runs(Initial(), ls, t) && forall l :: l in ls ==> OnePager(l)
    ensures t.node.Has(1) && t.db.page.offset <= |t.node.LogOf(1)|
    ensures RowsIn(t.db.journal) == Rows(t.node.LogOf(1), 0, t.db.page.offset)
    ensures t.db.table == Fold(map[], Rows(t.node.LogOf(1), 0, t.db.page.offset))
  {
    hide Runs, OnePager, Fold;
    InitialInv();
    assert RowsIn(Initial().db.journal) == [];
    RunPagedExact(Initial(), ls, t);
    NoRowsYet(map[]);
    TableIsJournal(Initial(), ls, t);
  }
}
