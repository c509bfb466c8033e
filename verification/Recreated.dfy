/**
 The two places where the pipeline's promises need an assumption about its surroundings, and what
 happens without it: a store recreated before anything was marked, and a marker read that fails
 after a write whose answer was lost.
 */
module Recreated {
  import opened Basics
  import opened MetricTable
  import opened Partition
  import opened StreamLog
  import opened Markers
  import opened SinkModel
  import opened Historian
  import opened Coverage
  import opened CoverageWrite
  import opened CoverageFollow
  import opened CoverageBlank
  import opened CoverageStranded
  import opened NoLoss
  import opened ExactlyOnce

  // ---------------------------------------------------------------- a store nobody marked

  /** A partition marker moved only with a row of its partition. */
  ghost predicate Witnessed(db: Database) {
    forall n: nat, i: nat :: (n, i) in db.parts && db.parts[(n, i)] > 0 ==>
      n > 0 && exists e :: e in db.journal && PartitionOf(e.row.signal, n) == i
  }

  lemma {:induction false} StepWitnessed(s: State, l: Label)
    requires Sound(s) && Witnessed(s.db) && Enabled(s, l)
    ensures Witnessed(Next(s, l).db)
  {
    hide DbOk, CursorOk, Shape, Contiguous, SharesOk, PendingOk, MarkedOk, FloorsTrue, GotOk, PagedOk;
    var t := Next(s, l);
    if l.Writes? && l.w.Commit? {
      var p, i := s.bridge.p, l.w.i;
      assert p.loaded && WriterFine(s.node, s.db, p.r, p.writers[i], i);
      var row := CommitHasRow(s.node, s.db, p, i);
      forall n: nat, j: nat | (n, j) in t.db.parts && t.db.parts[(n, j)] > 0
        ensures n > 0 && exists e :: e in t.db.journal && PartitionOf(e.row.signal, n) == j
      {
        if (n, j) == (p.r.n, i) {
          assert Entry(p.r.stream, row) in t.db.journal;
        } else {
          var e :| e in s.db.journal && PartitionOf(e.row.signal, n) == j;
          assert e in t.db.journal;
        }
      }
    } else {
      forall n: nat, j: nat | (n, j) in t.db.parts && t.db.parts[(n, j)] > 0
        ensures n > 0 && exists e :: e in t.db.journal && PartitionOf(e.row.signal, n) == j
      {
        var e :| e in s.db.journal && PartitionOf(e.row.signal, n) == j;
        assert e in t.db.journal;
      }
    }
  }

  /** What a commit writes holds a row of the writer's partition. */
  lemma {:induction false} CommitHasRow(node: Node, db: Database, p: Pipeline, i: nat) returns (row: Row)
    requires RouteOk(node, p.r) && WriterAt(p, i, Writing) && WriterOk(p.r, p.writers[i], i)
    ensures PartitionOf(row.signal, p.r.n) == i && Entry(p.r.stream, row) in ShareWritten(db, p, i).journal
  {
    var r, w := p.r, p.writers[i];
    var log, q := node.LogOf(r.stream), w.bat - 1;
    var rows := ShareRows(r.pages, i, w.fin, w.bat);
    row := r.pages[q].shares[i][0];
    assert r.pages[q].shares[i] == PartRows(log, r.n, i, Reach(r, i, q), Reach(r, i, q + 1));
    ReachMonotone(r, i, q, q + 1);
    assert Reach(r, i, q + 1) <= |log|;
    PartSignals(log, r.n, i, Reach(r, i, q), Reach(r, i, q + 1));
    assert row in rows;
    TaggedIn(db.journal, r.stream, rows);
  }

  lemma {:induction false} PartSignals(log: Log, n: nat, i: nat, lo: nat, hi: nat)
    requires n > 0 && hi <= |log|
    ensures forall row :: row in PartRows(log, n, i, lo, hi) ==> PartitionOf(row.signal, n) == i
  {
    if lo < hi {
      PartSignals(log, n, i, lo, hi - 1);
    }
  }

  /** No row was committed from a store that does not exist yet. */
  ghost predicate FromKnownStores(s: State) {
    forall e :: e in s.db.journal ==> e.store <= s.node.Store()
  }

  lemma {:induction false} StepKnown(s: State, l: Label)
    requires Sound(s) && FromKnownStores(s) && Enabled(s, l)
    ensures FromKnownStores(Next(s, l))
  {
    hide DbOk, CursorOk, Shape, Contiguous, SharesOk, WritersOk, PendingOk, MarkedOk, FloorsTrue, GotOk, SkipOk,
      PagedGotOk, EarlyOk;
  }

  /** Where the markers and the rows come from. */
  ghost predicate Traced(s: State) {
    Witnessed(s.db) && FromKnownStores(s)
  }

  lemma {:induction false} StepTraced(s: State, l: Label)
    requires Steady(s) && Traced(s) && Enabled(s, l)
    ensures Traced(Next(s, l))
  {
    hide Steady, Sound, Blank;
    if !l.Out? {
      var h := SteadyIsSound(s);
      StoreUnseen(s, h, l);
      StepWitnessed(AtStore(s, h), l);
      StepKnown(AtStore(s, h), l);
    }
  }

  lemma {:induction false} RunTraced(s: State, ls: seq<Label>, t: State)
    requires Steady(s) && Traced(s) && Runs(s, ls, t) && RecreatedSafely(s, ls)
    ensures Traced(t)
    decreases |ls|
  {
    hide Steady, Traced, MayRecreate;
    if ls != [] {
      StepTraced(s, ls[0]);
      StepKeeps(s, ls[0]);
      RunTraced(Next(s, ls[0]), ls[1..], t);
    }
  }

  lemma {:induction false} RunsNone(s: State)
    ensures Runs(s, [], s)
  {
  }

  lemma {:induction false} RunsOne(s: State, l: Label, ls: seq<Label>, t: State)
    requires Enabled(s, l) && Runs(Next(s, l), ls, t)
    ensures Runs(s, [l] + ls, t)
  {
    assert ([l] + ls)[1..] == ls;
  }

  lemma {:induction false} RunsConcat(s: State, a: seq<Label>, m: State, b: seq<Label>, t: State)
    requires Runs(s, a, m) && Runs(m, b, t)
    ensures Runs(s, a + b, t)
    decreases |a|
  {
    if a == [] {
      assert a + b == b;
    } else {
      RunsConcat(Next(s, a[0]), a[1..], m, b, t);
      assert a + b == [a[0]] + (a[1..] + b);
      RunsOne(s, a[0], a[1..] + b, t);
    }
  }

  /** A pipeline of one writer that has dispatched the only page, with its share. */
  function OnePageRun(stream: StoreId, floor: nat, share: seq<Row>, w: Writer): Pipeline {
    Pipeline(true, Route(1, 0, None, 2, stream, [], [floor], [Page(1, 1, stream, [share])]), 0, 0, 0, None,
             [if share == [] then 0 else 1], 0, 0, [w])
  }

  /** The only page, fetched but not yet dispatched. */
  function OneItemRun(stream: StoreId, floor: nat, row: Row): Pipeline {
    Pipeline(true, Route(1, 0, None, 2, stream, [Item(1, 1, stream, [row], Some([floor]))], [0], []), 0, 0, 0, None,
             [], 0, 0, NoShares(1))
  }

  /** One writer with its marker, nothing read yet. */
  function NothingRead(floor: nat): Pipeline {
    Pipeline(true, Route(1, 0, Some([floor]), 0, 0, [], [0], []), 0, 0, 0, None, [], 0, 0, NoShares(1))
  }

  /** The only page of a store, fetched by n writers that resume at `resume` with markers `own`. */
  function OneItemOf(n: nat, resume: nat, store: StoreId, rows: seq<Row>, own: seq<nat>): Pipeline {
    Pipeline(true, Route(n, resume, None, 2, store, [Item(1, 1, store, rows, Some(own))], seq(n, i => 0), []),
             0, 0, 0, None, [], 0, 0, NoShares(n))
  }

  /** A database with no page marker and markers of one writer only. */
  ghost predicate Unmarked(s: State, row: Row, floor: nat) {
    && s.node.cursor == 1 && |s.node.logs| > 0 && s.node.logs[|s.node.logs| - 1] == [Some(row)]
    && s.db.page == Marker(0, 0) && (forall k :: k in s.db.parts ==> k.0 == 1) && Own(s.db.parts, 1, 0) == floor
  }

  lemma {:induction false} StartUnmarked(s: State, row: Row, floor: nat) returns (t: State)
    requires s.bridge.Down? && Unmarked(s, row, floor)
    ensures t == s.(bridge := Piped(NothingRead(floor)))
    ensures Runs(s, [Out(StartPiped(1)), Following(Load(0))], t)
  {
    var a := s.(bridge := Piped(NewPipeline(1)));
    forall k: nat, f: nat ensures !OtherFloor(s.db.parts, 1, k, f) {
      if k != 1 {
        NoOtherSet(s.db.parts, 1, k);
      }
    }
    assert Next(s, Out(StartPiped(1))) == a;
    t := Next(a, Following(Load(0)));
    assert seq(1, i requires 0 <= i => Own(s.db.parts, 1, i)) == [floor];
    assert seq(1, i => 0) == [0];
    assert Runs(t, [], t);
    RunsOne(a, Following(Load(0)), [], t);
    RunsOne(s, Out(StartPiped(1)), [Following(Load(0))], t);
    assert [Out(StartPiped(1)), Following(Load(0))] == [Out(StartPiped(1))] + [Following(Load(0))];
  }

  lemma {:induction false} FetchUnmarked(s: State, row: Row, floor: nat) returns (t: State)
    requires Unmarked(s, row, floor)
    requires s.bridge == Piped(NothingRead(floor))
    ensures t == s.(bridge := Piped(OneItemRun(s.node.Store(), floor, row.(offset := 1))))
    ensures Runs(s, [Following(Read(1)), Following(Enqueue)], t)
  {
    var store, p := s.node.Store(), s.bridge.p;
    var got := Fetched(1, 1, store, false);
    var a := s.(bridge := Piped(p.(got := Some(got))));
    assert Next(s, Following(Read(1))) == a;
    t := s.(bridge := Piped(OneItemRun(store, floor, row.(offset := 1))));
    assert Next(a, Following(Enqueue)) == t by {
      var log := s.node.LogOf(store);
      assert log == [Some(row)] && RowAt(log, 1) && TheRow(log, 1) == row.(offset := 1);
      assert Rows(log, 0, 0) == [];
      assert Decoded(s.node, got, 0) == Rows(log, 0, 1) == [row.(offset := 1)];
      assert Enqueued(s.node, p.r.(stream := store), got, p.r.carry) == t.bridge.p.r;
    }
    assert Runs(t, [], t);
    RunsOne(a, Following(Enqueue), [], t);
    RunsOne(s, Following(Read(1)), [Following(Enqueue)], t);
    assert [Following(Read(1)), Following(Enqueue)] == [Following(Read(1))] + [Following(Enqueue)];
  }

  /** Starting on a database with no page marker, one writer and a one-record stream: the page is
      dispatched without the rows at or below the writer's marker. */
  lemma {:induction false} DispatchOnePage(s: State, row: Row, floor: nat) returns (ls: seq<Label>, t: State)
    requires s.bridge.Down? && Unmarked(s, row, floor)
    ensures Runs(s, ls, t) && forall l :: l in ls ==> Plain(1, l)
    ensures var share := if floor == 0 then [row.(offset := 1)] else [];
            t == s.(bridge := Piped(OnePageRun(s.node.Store(), floor, share,
                                               Writer(if floor == 0 then 0 else 1, 0, 0, Idle, false))))
  {
    var a := StartUnmarked(s, row, floor);
    var b := FetchUnmarked(a, row, floor);
    t := DispatchLast(s, b, row.(offset := 1), floor);
    assert Runs(t, [], t);
    RunsOne(b, Writes(Dispatch), [], t);
    RunsConcat(a, [Following(Read(1)), Following(Enqueue)], b, [Writes(Dispatch)], t);
    ls := [Out(StartPiped(1)), Following(Load(0))] + ([Following(Read(1)), Following(Enqueue)] + [Writes(Dispatch)]);
    RunsConcat(s, [Out(StartPiped(1)), Following(Load(0))], a,
               [Following(Read(1)), Following(Enqueue)] + [Writes(Dispatch)], t);
  }

  lemma {:induction false} DispatchLast(s: State, d: State, row: Row, floor: nat) returns (t: State)
    requires row.offset == 1 && d == s.(bridge := Piped(OneItemRun(s.node.Store(), floor, row)))
    ensures Enabled(d, Writes(Dispatch)) && Next(d, Writes(Dispatch)) == t
    ensures t == s.(bridge := Piped(OnePageRun(s.node.Store(), floor, if floor == 0 then [row] else [],
                                               Writer(if floor == 0 then 0 else 1, 0, 0, Idle, false))))
  {
    var r := d.bridge.p.r;
    var rows, share := [row], if floor == 0 then [row] else [];
    assert rows[..0] == [];
    assert Share(rows[..0], 1, 0, floor) == [];
    assert Share(rows, 1, 0, floor) == share;
    assert NextShares(r) == [share];
    assert CountNonEmpty([share]) == if share == [] then 0 else 1 by {
      assert [share][..0] == [];
    }
    t := Next(d, Writes(Dispatch));
    assert t.bridge.p.writers == [Writer(if floor == 0 then 0 else 1, 0, 0, Idle, false)];
  }

  /** The dispatched share is written, and the process stops before the page marker follows. */
  lemma {:induction false} WriteThenCrash(s: State, row: Row) returns (ls: seq<Label>, t: State)
    requires s.bridge == Piped(OnePageRun(1, 0, [row], Writer(0, 0, 0, Idle, false))) && s.db.parts == map[]
    requires s.db.journal == []
    ensures Runs(s, ls, t) && Out(Recreate) !in ls && t.bridge.Down? && t.node == s.node && t.db.page == s.db.page
    ensures t.db.parts == map[(1, 0) := 1] && t.db.journal == [Entry(1, row)]
  {
    hide Runs;
    var w := Writer(1, 0, 1, Writing, false);
    var b := s.(bridge := Piped(s.bridge.p.(writers := [w])));
    SendAndTake(s, b, row);
    var c := Next(b, Writes(Commit(0, true)));
    assert ShareRows(b.bridge.p.r.pages, 0, 0, 0) == [];
    assert ShareRows(b.bridge.p.r.pages, 0, 0, 1) == [row];
    assert c.db.journal == [Entry(1, row)];
    t := Next(c, Out(Crash));
    RunsNone(t);
    RunsOne(c, Out(Crash), [], t);
    var l2 := [Out(Crash)] + [];
    RunsOne(b, Writes(Commit(0, true)), l2, t);
    var tail := [Writes(Commit(0, true))] + l2;
    ls := [Writes(Send(0)), Writes(Take(0, 1))] + tail;
    RunsConcat(s, [Writes(Send(0)), Writes(Take(0, 1))], b, tail, t);
  }

  lemma {:induction false} SendAndTake(s: State, b: State, row: Row)
    requires s.bridge == Piped(OnePageRun(1, 0, [row], Writer(0, 0, 0, Idle, false)))
    requires b == s.(bridge := Piped(s.bridge.p.(writers := [Writer(1, 0, 1, Writing, false)])))
    ensures Runs(s, [Writes(Send(0)), Writes(Take(0, 1))], b)
  {
    var p := s.bridge.p;
    var w0, w1 := Writer(1, 0, 0, Idle, false), Writer(1, 0, 1, Writing, false);
    var a := s.(bridge := Piped(p.(writers := [w0])));
    assert p.writers[0 := w0] == [w0] && [w0][0 := w1] == [w1];
    assert Next(s, Writes(Send(0))) == a;
    assert Next(a, Writes(Take(0, 1))) == b;
    assert Runs(b, [], b);
    RunsOne(a, Writes(Take(0, 1)), [], b);
    RunsOne(s, Writes(Send(0)), [Writes(Take(0, 1))], b);
    assert [Writes(Send(0)), Writes(Take(0, 1))] == [Writes(Send(0))] + [Writes(Take(0, 1))];
  }

  /** The first record of the first store, dispatched to the only writer. */
  lemma {:induction false} FirstPage(written: Row) returns (ls: seq<Label>, t: State)
    ensures Runs(Initial(), ls, t) && (forall l :: l in ls ==> Plain(1, l)) && t.node == Node([[Some(written)]], 1)
    ensures t.db == Initial().db
    ensures t.bridge == Piped(OnePageRun(1, 0, [written.(offset := 1)], Writer(0, 0, 0, Idle, false)))
  {
    hide Runs;
    var s0 := Initial();
    var s1 := Next(s0, Out(Append(Some(written))));
    var none: Log, logs: seq<Log> := [], [[Some(written)]];
    assert none + [Some(written)] == [Some(written)];
    assert s0.node.logs[0 := s0.node.logs[0] + [Some(written)]] == logs;
    assert s1 == s0.(node := Node(logs, 1));
    var l1, t1 := DispatchOnePage(s1, written, 0);
    t := t1;
    ls := [Out(Append(Some(written)))] + l1;
    RunsOne(s0, Out(Append(Some(written))), l1, t);
  }

  /** One row of the first store is written but not marked, and the bridge stops. */
  lemma {:induction false} FirstLife(written: Row) returns (ls: seq<Label>, t: State)
    ensures Runs(Initial(), ls, t) && t.bridge.Down? && t.node == Node([[Some(written)]], 1)
    ensures t.db.page == Marker(0, 0) && t.db.parts == map[(1, 0) := 1]
    ensures t.db.journal == [Entry(1, written.(offset := 1))]
  {
    hide Runs;
    var l1, t1 := FirstPage(written);
    var l2, t2 := WriteThenCrash(t1, written.(offset := 1));
    t := t2;
    RunsConcat(Initial(), l1, t1, l2, t);
    ls := l1 + l2;
  }

  /** A restart before the first mark: nothing is in flight, and the table is ahead of the page marker. */
  lemma {:induction false} RestartIsAheadOfTheMarker(written: Row) returns (ls: seq<Label>, t: State)
    requires !written.refused && !written.Missing()
    ensures Runs(Initial(), ls, t) && t.bridge.Piped? && t.bridge.p.loaded && NothingInFlight(t.bridge.p)
    ensures t.db.page.offset == 0 && t.node.Has(1) && t.db.table != Fold(map[], Rows(t.node.LogOf(1), 0, 0))
  {
    hide Runs;
    var l1, t1 := FirstLife(written);
    t := StartUnmarked(t1, written, 1);
    ls := l1 + [Out(StartPiped(1)), Following(Load(0))];
    RunsConcat(Initial(), l1, t1, [Out(StartPiped(1)), Following(Load(0))], t);
    assert RowsIn(Initial().db.journal) == [];
    TableIsJournal(Initial(), ls, t);
    var row := written.(offset := 1);
    assert RowsIn(t.db.journal) == [row] && [row][..0] == [];
    assert t.db.table == Fold(map[], [row]) == ApplyRow(map[], row);
    assert row.Slot() in t.db.table;
  }

  /** A marker of the first store, and a second store: its first row is taken for written, marked and
      never committed. */
  lemma {:induction false} SecondLife(s: State, written: Row, lost: Row) returns (ls: seq<Label>, t: State)
    requires s.bridge.Down? && s.node == Node([[Some(written)], []], 1) && s.db.page == Marker(0, 0)
    requires s.db.parts == map[(1, 0) := 1] && s.db.journal == [Entry(1, written.(offset := 1))]
    ensures Runs(s, ls, t) && Out(Recreate) !in ls && t.node.Store() == 2 && t.node.LogOf(2) == [Some(lost)]
    ensures t.db.page == Marker(1, 2) && Entry(2, TheRow([Some(lost)], 1)) !in t.db.journal
  {
    hide Runs;
    var none: Log := [];
    assert none + [Some(lost)] == [Some(lost)];
    var s1 := Next(s, Out(Append(Some(lost))));
    var logs: seq<Log> := [[Some(written)], [Some(lost)]];
    assert s.node.logs[1 := s.node.logs[1] + [Some(lost)]] == logs;
    var l2, t2 := DispatchOnePage(s1, lost, 1);
    t := Next(t2, Following(Mark(1)));
    RunsNone(t);
    RunsOne(t2, Following(Mark(1)), [], t);
    var tail := [Following(Mark(1))] + [];
    RunsConcat(s1, l2, t2, tail, t);
    RunsOne(s, Out(Append(Some(lost))), l2 + tail, t);
    ls := [Out(Append(Some(lost)))] + (l2 + tail);
  }

  /** The loss itself: one row of the first store is written but not marked, and the store is recreated
      while no bridge runs. */
  lemma {:induction false} UnmarkedRecreationLosesARow(written: Row, lost: Row) returns (ls: seq<Label>, t: State)
    ensures Runs(Initial(), ls, t) && t.node.Store() == 2 && t.node.LogOf(2) == [Some(lost)]
    ensures t.db.page == Marker(1, 2) && Entry(2, TheRow([Some(lost)], 1)) !in t.db.journal
  {
    hide Runs;
    var l1, t1 := FirstLife(written);
    var s2 := Next(t1, Out(Recreate));
    assert s2.node.logs == [[Some(written)]] + [[]];
    var l2, t2 := SecondLife(s2, written, lost);
    t := t2;
    RunsOne(t1, Out(Recreate), l2, t);
    ls := l1 + ([Out(Recreate)] + l2);
    RunsConcat(Initial(), l1, t1, [Out(Recreate)] + l2, t);
  }

  /** The same with no partition marker set yet, when the store is recreated under a bridge that has a page
      in flight: its writer sets the marker afterwards. */
  lemma {:induction false} RecreationUnderABridgeLosesARow(written: Row, lost: Row)
    returns (ls: seq<Label>, s: State, ms: seq<Label>, t: State)
    ensures Runs(Initial(), ls, s) && s.bridge.Piped? && s.db.page.offset == 0 && PartsZero(s.db)
    ensures Runs(Next(s, Out(Recreate)), ms, t) && Out(Recreate) !in ms && t.node.Store() == 2
    ensures t.node.LogOf(2) == [Some(lost)]
    ensures t.db.page == Marker(1, 2) && Entry(2, TheRow([Some(lost)], 1)) !in t.db.journal
  {
    hide Runs;
    ls, s := FirstPage(written);
    var s1 := Next(s, Out(Recreate));
    assert s1.node.logs == [[Some(written)]] + [[]];
    var l1, t1 := WriteThenCrash(s1, written.(offset := 1));
    var l2, t2 := SecondLife(t1, written, lost);
    t := t2;
    RunsConcat(s1, l1, t1, l2, t);
    ms := l1 + l2;
  }

  // ---------------------------------------------------------------- exactly when a recreation is safe

  /** The markers of a database lead some start of n writers somewhere. */
  lemma {:induction false} ResumeExists(page: nat, markers: PartMarkers, n: nat) returns (resume: nat)
    ensures ResumesAt(page, markers, n, resume)
  {
    var floors := set k | k in markers && exists count: nat :: OtherFloor(markers, n, count, markers[k]) :: markers[k];
    resume := Largest(floors + {page});
    forall count: nat, floor: nat | OtherFloor(markers, n, count, floor) ensures floor <= resume {
      assert floor in floors;
    }
  }

  lemma {:induction false} Largest(s: set<nat>) returns (m: nat)
    requires s != {}
    ensures m in s && forall x :: x in s ==> x <= m
  {
    m :| m in s;
    if s != {m} {
      var rest := Largest(s - {m});
      assert forall x :: x in s ==> x == m || x in s - {m};
      m := if rest < m then m else rest;
    }
  }

  lemma {:induction false} NoneCounted(shares: seq<seq<Row>>)
    requires forall i :: 0 <= i < |shares| ==> shares[i] == []
    ensures CountNonEmpty(shares) == 0
  {
    if shares != [] {
      NoneCounted(shares[..|shares| - 1]);
    }
  }

  /** The first row of a new store is behind a marker of its partition: no writer gets it. */
  lemma {:induction false} BehindTheMarker(rows: seq<Row>, n: nat, j: nat, i: nat, floor: nat)
    requires n > 0 && |rows| <= 1 && (rows != [] ==> rows[0].offset == 1 && PartitionOf(rows[0].signal, n) == i)
    requires j == i ==> floor >= 1
    ensures Share(rows, n, j, floor) == []
  {
    if rows != [] {
      assert rows[..0] == [];
      assert Share(rows[..0], n, j, floor) == [];
    }
  }

  /** A fresh start with n writers reads the only record of a store it takes for the one it has markers of. */
  lemma {:induction false} StartBehind(s: State, n: nat, row: Row, resume: nat) returns (ls: seq<Label>, t: State)
    requires s.bridge.Down? && n > 0 && s.node.cursor == 1 && s.node.Has(s.node.Store())
    requires s.node.LogOf(s.node.Store()) == [Some(row)]
    requires s.db.page == Marker(0, 0) && ResumesAt(0, s.db.parts, n, resume)
    ensures Runs(s, ls, t) && Out(Recreate) !in ls && t.node == s.node && t.db == s.db && t.bridge.Piped?
    ensures var own := seq(n, i requires 0 <= i => Own(s.db.parts, n, i));
            var rows := if resume == 0 then [row.(offset := 1)] else [];
            t.bridge.p == OneItemOf(n, resume, s.node.Store(), rows, own)
  {
    hide Runs;
    var store, log := s.node.Store(), s.node.LogOf(s.node.Store());
    var a := Next(s, Out(StartPiped(n)));
    var b := Next(a, Following(Load(resume)));
    var c := Next(b, Following(Read(1)));
    var got := Fetched(1, 1, store, false);
    assert c.bridge.p.got == Some(got);
    t := Next(c, Following(Enqueue));
    assert TheRow(log, 1) == row.(offset := 1) && Rows(log, 0, 0) == [];
    assert Rows(log, 0, 1) == [row.(offset := 1)];
    assert resume > 0 ==> Rows(log, resume, 1) == [];
    RunsNone(t);
    RunsOne(c, Following(Enqueue), [], t);
    var l3 := [Following(Enqueue)] + [];
    RunsOne(b, Following(Read(1)), l3, t);
    var l2 := [Following(Read(1))] + l3;
    RunsOne(a, Following(Load(resume)), l2, t);
    var l1 := [Following(Load(resume))] + l2;
    RunsOne(s, Out(StartPiped(n)), l1, t);
    ls := [Out(StartPiped(n))] + l1;
  }

  /** The page is dispatched to nobody, and marked. */
  lemma {:induction false} MarkUnwritten(s: State, n: nat, i: nat, rows: seq<Row>, own: seq<nat>,
                                         resume: nat) returns (ls: seq<Label>, t: State)
    requires n > 0 && |own| == n && i < n && own[i] >= 1 && s.bridge.Piped?
    requires |rows| <= 1 && (rows != [] ==> rows[0].offset == 1 && PartitionOf(rows[0].signal, n) == i)
    requires s.bridge.p == OneItemOf(n, resume, s.node.Store(), rows, own)
    ensures Runs(s, ls, t) && Out(Recreate) !in ls && t.node == s.node && t.db.journal == s.db.journal
    ensures t.db.page == Marker(1, s.node.Store())
  {
    hide Runs;
    var r := s.bridge.p.r;
    var shares := NextShares(r);
    forall j | 0 <= j < n ensures shares[j] == [] {
      BehindTheMarker(rows, n, j, i, own[j]);
    }
    NoneCounted(shares);
    var a := Next(s, Writes(Dispatch));
    assert a.bridge.p.pending == [0];
    t := Next(a, Following(Mark(1)));
    RunsNone(t);
    RunsOne(a, Following(Mark(1)), [], t);
    var l1 := [Following(Mark(1))] + [];
    RunsOne(s, Writes(Dispatch), l1, t);
    ls := [Writes(Dispatch)] + l1;
  }

  lemma {:induction false} NoneRecreated(s: State, ls: seq<Label>, t: State)
    requires Runs(s, ls, t) && Out(Recreate) !in ls
    ensures RecreatedSafely(s, ls)
    decreases |ls|
  {
    if ls != [] {
      NoneRecreated(Next(s, ls[0]), ls[1..], t);
    }
  }

  /** Whatever happens from here, every row at or below the page marker is in the table. */
  ghost predicate LossFree(s: State) {
    forall ls, t :: Runs(s, ls, t) && RecreatedSafely(s, ls) ==> PageMarkerTrue(t)
  }

  /** A store that just came up under a database without a page marker. */
  ghost predicate NewStore(s: State) {
    && s.db.page == Marker(0, 0) && s.node.cursor == 1 && s.node.Has(s.node.Store())
    && s.node.LogOf(s.node.Store()) == [] && forall e :: e in s.db.journal ==> e.store != s.node.Store()
  }

  /** A marker of partition i of n, and a row of that partition: when a new store holds the row first, a restart
      marks it unwritten. */
  lemma {:induction false} LossyRecreation(s: State, n: nat, i: nat, row: Row) returns (ls: seq<Label>, u: State)
    requires NewStore(s) && i < n && Own(s.db.parts, n, i) > 0 && PartitionOf(row.signal, n) == i
    ensures Runs(s, ls, u) && Out(Recreate) !in ls && !PageMarkerTrue(u)
  {
    hide Runs;
    var gone := Next(s, Out(Crash));
    var store := gone.node.Store();
    var first := Next(gone, Out(Append(Some(row))));
    var empty: Log := [];
    assert empty + [Some(row)] == [Some(row)] && first.node.LogOf(store) == [Some(row)];
    var resume := ResumeExists(0, s.db.parts, n);
    var l1, v := StartBehind(first, n, row, resume);
    var l2, w := MarkUnwritten(v, n, i, if resume == 0 then [row.(offset := 1)] else [],
                               seq(n, j requires 0 <= j => Own(s.db.parts, n, j)), resume);
    u := w;
    RunsConcat(first, l1, v, l2, u);
    RunsOne(gone, Out(Append(Some(row))), l1 + l2, u);
    RunsOne(s, Out(Crash), [Out(Append(Some(row)))] + (l1 + l2), u);
    ls := [Out(Crash)] + ([Out(Append(Some(row)))] + (l1 + l2));
    assert RowAt(u.node.LogOf(store), 1) && Entry(store, TheRow(u.node.LogOf(store), 1)) !in u.db.journal;
  }

  /** A pipeline that works on in store h after a new one came up. */
  ghost predicate WorksOn(s: State, h: StoreId) {
    && NewStore(s) && NothingMarked(s.db) && s.bridge.Piped? && s.bridge.p.loaded && h < s.node.Store()
    && Sound(AtStore(s, h)) && Blank(s)
  }

  lemma {:induction false} StepWorksOn(s: State, h: StoreId, l: Label)
    requires WorksOn(s, h) && Enabled(s, l) && (l == Following(Enqueue) || (l.Writes? && !l.w.Commit?))
    ensures WorksOn(Next(s, l), h) && Next(s, l).node == s.node
  {
    hide DbOk, PipedOk, CursorOk, BlankPiped;
    var a, p := AtStore(s, h), s.bridge.p;
    StoreUnseen(s, h, l);
    if l.Writes? {
      WriteKeepsParts(a.node, a.db, p, l.w);
      BlankWrite(a.node, a.db, p, l.w);
    } else {
      FollowKeepsParts(a, p, Enqueue);
      BlankFollow(a, p, Enqueue);
    }
  }

  /** A writer has a batch: it commits, and the marker it sets is taken for one of the new store. */
  lemma {:induction false} CommitLoses(s: State, h: StoreId, i: nat) returns (ls: seq<Label>, u: State)
    requires WorksOn(s, h) && WriterAt(s.bridge.p, i, Writing)
    ensures Runs(s, ls, u) && Out(Recreate) !in ls && !PageMarkerTrue(u)
  {
    hide Runs, PageMarkerTrue, FloorsTrue, GotOk, PendingOk, DbOk, Covered;
    var p, a := s.bridge.p, AtStore(s, h);
    assert WriterFine(s.node, a.db, p.r, p.writers[i], i);
    var row := CommitHasRow(s.node, s.db, p, i);
    var t := Next(s, Writes(Commit(i, true)));
    assert Own(t.db.parts, p.r.n, i) == Through(p, i) >= 1;
    var l1, v := LossyRecreation(t, p.r.n, i, row);
    u := v;
    RunsOne(s, Writes(Commit(i, true)), l1, u);
    ls := [Writes(Commit(i, true))] + l1;
  }

  /** A dispatched share gets to its writer. */
  lemma {:induction false} ShareLoses(s: State, h: StoreId, q: nat, i: nat) returns (ls: seq<Label>, u: State)
    requires WorksOn(s, h) && q < |s.bridge.p.r.pages| && i < |s.bridge.p.r.pages[q].shares|
    requires s.bridge.p.r.pages[q].shares[i] != []
    ensures Runs(s, ls, u) && Out(Recreate) !in ls && !PageMarkerTrue(u)
    decreases if s.bridge.p.writers[i].phase == Writing then 0 else 1, |s.bridge.p.r.pages| - s.bridge.p.writers[i].sent
  {
    hide Runs, PageMarkerTrue, FloorsTrue, GotOk, DbOk, Covered, NewStore, SharesOk, ItemsOk;
    var p, a := s.bridge.p, AtStore(s, h);
    var w := p.writers[i];
    assert WriterFine(s.node, a.db, p.r, w, i);
    if w.phase == Writing {
      ls, u := CommitLoses(s, h, i);
    } else {
      var step := if w.phase == Failing then Look(i) else if w.sent <= q then Send(i) else Take(i, q + 1);
      var t := Next(s, Writes(step));
      StepWorksOn(s, h, Writes(step));
      var l1, v := ShareLoses(t, h, q, i);
      u := v;
      RunsOne(s, Writes(step), l1, u);
      ls := [Writes(step)] + l1;
    }
  }

  /** Every writer's shares are in its channel. */
  lemma {:induction false} SendAll(s: State, h: StoreId, k: nat) returns (ls: seq<Label>, t: State)
    requires WorksOn(s, h) && k <= s.bridge.p.r.n
    requires forall i :: 0 <= i < k ==> s.bridge.p.writers[i].sent == |s.bridge.p.r.pages|
    ensures Runs(s, ls, t) && Out(Recreate) !in ls && WorksOn(t, h) && t.node == s.node && t.bridge.p.r == s.bridge.p.r
    ensures forall i :: 0 <= i < t.bridge.p.r.n ==> t.bridge.p.writers[i].sent == |t.bridge.p.r.pages|
    decreases s.bridge.p.r.n - k
  {
    hide Runs, FloorsTrue, GotOk, DbOk, Covered, NewStore, SharesOk, ItemsOk, PendingOk, MarkedOk, Blank;
    var p, a := s.bridge.p, AtStore(s, h);
    if k == p.r.n {
      ls, t := [], s;
      RunsNone(s);
    } else {
      assert WriterFine(s.node, a.db, p.r, p.writers[k], k);
      if p.writers[k].sent == |p.r.pages| {
        ls, t := SendAll(s, h, k + 1);
      } else {
        StepWorksOn(s, h, Writes(Send(k)));
        var l1, v := SendAll(Next(s, Writes(Send(k))), h, k + 1);
        t := v;
        RunsOne(s, Writes(Send(k)), l1, t);
        ls := [Writes(Send(k))] + l1;
      }
    }
  }

  /** A page with rows has a row for some writer, as no writer skips any. */
  lemma {:induction false} SomeShare(rows: seq<Row>, n: nat) returns (i: nat)
    requires n > 0 && rows != [] && rows[0].offset > 0
    ensures i < n && Share(rows, n, i, 0) != []
  {
    i := PartitionOf(rows[0].signal, n);
    FirstShared(rows, n, i);
  }

  lemma {:induction false} FirstShared(rows: seq<Row>, n: nat, i: nat)
    requires n > 0 && rows != [] && rows[0].offset > 0 && PartitionOf(rows[0].signal, n) == i
    ensures Share(rows, n, i, 0) != []
  {
    if |rows| > 1 {
      FirstShared(rows[..|rows| - 1], n, i);
    }
  }

  /** A decoded page with rows is dispatched, after those before it. */
  lemma {:induction false} ItemLoses(s: State, h: StoreId, k: nat) returns (ls: seq<Label>, u: State)
    requires WorksOn(s, h) && k < |s.bridge.p.r.order| && s.bridge.p.r.order[k].rows != []
    ensures Runs(s, ls, u) && Out(Recreate) !in ls && !PageMarkerTrue(u)
    decreases k
  {
    hide Runs, PageMarkerTrue, NewStore, Sound, Blank, NothingMarked, Next, Enabled, NextShares;
    var l1, a := SendAll(s, h, 0);
    var r := a.bridge.p.r;
    var b := DispatchOn(a, h);
    var l2, v;
    if k == 0 {
      var i := FirstItemShared(a, h);
      l2, v := ShareLoses(b, h, |r.pages|, i);
    } else {
      l2, v := ItemLoses(b, h, k - 1);
    }
    u := v;
    RunsOne(a, Writes(Dispatch), l2, u);
    RunsConcat(s, l1, a, [Writes(Dispatch)] + l2, u);
    ls := l1 + ([Writes(Dispatch)] + l2);
  }

  lemma {:induction false} DispatchOn(a: State, h: StoreId) returns (b: State)
    requires WorksOn(a, h) && a.bridge.p.r.order != []
    requires forall i :: 0 <= i < a.bridge.p.r.n ==> a.bridge.p.writers[i].sent == |a.bridge.p.r.pages|
    ensures Enabled(a, Writes(Dispatch)) && b == Next(a, Writes(Dispatch)) && WorksOn(b, h)
    ensures var r := a.bridge.p.r;
            && Dispatchable(r) && b.bridge.p.r.order == r.order[1..] && b.bridge.p.r.n == r.n
            && |b.bridge.p.r.pages| == |r.pages| + 1 && b.bridge.p.r.pages[|r.pages|].shares == NextShares(r)
  {
    hide FloorsTrue, GotOk, DbOk, Covered, NewStore, SharesOk, ItemsOk, PendingOk, MarkedOk, Blank;
    b := Next(a, Writes(Dispatch));
    StepWorksOn(a, h, Writes(Dispatch));
  }

  lemma {:induction false} FirstItemShared(a: State, h: StoreId) returns (i: nat)
    requires WorksOn(a, h) && a.bridge.p.r.order != [] && a.bridge.p.r.order[0].rows != []
    requires Dispatchable(a.bridge.p.r)
    ensures i < a.bridge.p.r.n && NextShares(a.bridge.p.r)[i] != []
  {
    hide FloorsTrue, GotOk, DbOk, Covered, NewStore, SharesOk, PendingOk, MarkedOk, WritersOk;
    var r := a.bridge.p.r;
    var item := r.order[0];
    assert item.rows == Rows(a.node.LogOf(r.stream), Max(item.first - 1, r.applied), item.last);
    assert item.rows[0] in item.rows;
    i := SomeShare(item.rows, r.n);
  }

  /** A page that was read with rows is handed on. */
  lemma {:induction false} ReadLoses(s: State, h: StoreId) returns (ls: seq<Label>, u: State)
    requires WorksOn(s, h) && WillTake(s.node, s.bridge.p)
    requires Decoded(s.node, s.bridge.p.got.value, s.bridge.p.r.applied) != []
    ensures Runs(s, ls, u) && Out(Recreate) !in ls && !PageMarkerTrue(u)
  {
    hide Runs, PageMarkerTrue, NewStore, FloorsTrue, GotOk, WriterFine, SharesOk, ItemsOk, Decoded;
    var p := s.bridge.p;
    NoneReleased(AtStore(s, h).db, p);
    var t := Next(s, Following(Enqueue));
    StepWorksOn(s, h, Following(Enqueue));
    var l1, v := ItemLoses(t, h, |p.r.order|);
    u := v;
    RunsOne(s, Following(Enqueue), l1, u);
    ls := [Following(Enqueue)] + l1;
  }

  lemma {:induction false} RowsLeftLose(s: State, h: StoreId) returns (ls: seq<Label>, u: State)
    requires WorksOn(s, h) && !NothingToWrite(s.node, s.bridge.p)
    ensures Runs(s, ls, u) && Out(Recreate) !in ls && !PageMarkerTrue(u)
  {
    hide Runs, PageMarkerTrue, Sound, Blank, NewStore, Decoded;
    var p := s.bridge.p;
    if q, i :| 0 <= q < |p.r.pages| && 0 <= i < |p.r.pages[q].shares| && p.r.pages[q].shares[i] != [] {
      ls, u := ShareLoses(s, h, q, i);
    } else if k :| 0 <= k < |p.r.order| && p.r.order[k].rows != [] {
      ls, u := ItemLoses(s, h, k);
    } else {
      ls, u := ReadLoses(s, h);
    }
  }

  /** Recreating the store in a state where it may not be loses a row on some continuation. */
  lemma {:induction false} UnsafeRecreationLoses(t: State) returns (ls: seq<Label>, u: State)
    requires Steady(t) && Traced(t) && !MayRecreate(t)
    ensures Runs(Next(t, Out(Recreate)), ls, u) && Out(Recreate) !in ls && !PageMarkerTrue(u)
  {
    hide Runs, PageMarkerTrue, Sound, Blank;
    var s := Next(t, Out(Recreate));
    SteadyDatabase(t);
    NewStoreUp(t);
    if PartsZero(t.db) {
      RecreatedUnder(t);
      ls, u := RowsLeftLose(s, t.node.Store());
    } else {
      var k :| k in t.db.parts && t.db.parts[k] > 0;
      assert (k.0, k.1) == k;
      var e :| e in t.db.journal && PartitionOf(e.row.signal, k.0) == k.1;
      ls, u := LossyRecreation(s, k.0, k.1, e.row);
    }
  }

  lemma {:induction false} NewStoreUp(t: State)
    requires DbOk(t.node, t.db) && FromKnownStores(t) && t.db.page.offset == 0
    ensures NewStore(Next(t, Out(Recreate)))
  {
  }

  /** The pipeline with rows left goes on under the new store. */
  lemma {:induction false} RecreatedUnder(t: State)
    requires Steady(t) && NothingMarked(t.db) && t.bridge.Piped? && !NothingToWrite(t.node, t.bridge.p)
    requires NewStore(Next(t, Out(Recreate)))
    ensures WorksOn(Next(t, Out(Recreate)), t.node.Store())
    ensures !NothingToWrite(Next(t, Out(Recreate)).node, t.bridge.p)
  {
    hide RouteOk, WritersOk, PendingOk, MarkedOk, FloorsTrue, GotOk, DbOk, NewStore;
    var s := Next(t, Out(Recreate));
    assert Inv(t) && Blank(t);
    RecreatedSound(t);
    var p := t.bridge.p;
    assert p.loaded;
    if WillTake(t.node, p) {
      assert s.node.LogOf(p.got.value.store) == t.node.LogOf(p.got.value.store);
    }
  }

  /** Over every run whose recreations were safe: the store may be recreated at this point, with the bridge
      as it is, without a row being lost on any continuation, if and only if some page was marked, or no
      partition marker is set and no pipeline has a row of the old store left to write. */
  lemma {:induction false} RecreatedStoreIsLossless(ls: seq<Label>, t: State)
    requires Runs(Initial(), ls, t) && RecreatedSafely(Initial(), ls)
    ensures LossFree(Next(t, Out(Recreate))) <==> MayRecreate(t)
  {
    hide Runs, RecreatedSafely, Steady, Traced, MayRecreate, LossFree;
    InitialInv();
    RunKeeps(Initial(), ls, t);
    InitialTraced();
    RunTraced(Initial(), ls, t);
    LosslessExactly(t);
  }

  lemma {:induction false} InitialTraced()
    ensures Traced(Initial())
  {
  }

  lemma {:induction false} LosslessExactly(t: State)
    requires Steady(t) && Traced(t)
    ensures LossFree(Next(t, Out(Recreate))) <==> MayRecreate(t)
  {
    hide Runs, RecreatedSafely, Steady, PageMarkerTrue, MayRecreate;
    var s := Next(t, Out(Recreate));
    if MayRecreate(t) {
      StepKeeps(t, Out(Recreate));
      forall ls, u | Runs(s, ls, u) && RecreatedSafely(s, ls) ensures PageMarkerTrue(u) {
        RunKeeps(s, ls, u);
        SteadyPromises(u);
      }
    } else {
      var ls, u := UnsafeRecreationLoses(t);
      NoneRecreated(s, ls, u);
    }
  }

  /** When the bridge stops first, that is: some page was marked or no partition marker is set. */
  lemma {:induction false} StoppedFirst(ls: seq<Label>, t: State)
    requires Runs(Initial(), ls, t) && RecreatedSafely(Initial(), ls)
    ensures LossFree(Next(Next(t, Out(Crash)), Out(Recreate))) <==> t.db.page.offset > 0 || PartsZero(t.db)
  {
    hide Runs, RecreatedSafely, Steady, LossFree;
    InitialInv();
    RunKeeps(Initial(), ls, t);
    InitialTraced();
    RunTraced(Initial(), ls, t);
    StepKeeps(t, Out(Crash));
    LosslessExactly(Next(t, Out(Crash)));
  }

  // ---------------------------------------------------------------- a marker read that fails

  /** The batch of the only page lands. */
  lemma {:induction false} CommitOnce(s: State, row: Row, landed: bool, heard: bool) returns (t: State)
    requires s.bridge == Piped(OnePageRun(1, 0, [row], Writer(1, 0, 1, Writing, landed)))
    ensures Enabled(s, Writes(Commit(0, heard))) && t == Next(s, Writes(Commit(0, heard)))
    ensures t.db.journal == s.db.journal + [Entry(1, row)]
    ensures t.bridge == Piped(OnePageRun(1, 0, [row], Writer(1, 0, 1, if heard then Done else Failing, true)))
  {
    hide Fold, Own;
    var p := s.bridge.p;
    assert ShareRows(p.r.pages, 0, 0, 0) == [];
    assert ShareRows(p.r.pages, 0, 0, 1) == [row];
    assert Tagged(1, [row]) == [Entry(1, row)];
    t := Next(s, Writes(Commit(0, heard)));
    assert p.writers[0 := t.bridge.p.writers[0]] == [t.bridge.p.writers[0]];
  }

  lemma {:induction false} LookAgain(s: State, row: Row) returns (t: State)
    requires s.bridge == Piped(OnePageRun(1, 0, [row], Writer(1, 0, 1, Failing, true)))
    ensures Enabled(s, Writes(LookFails(0))) && t == Next(s, Writes(LookFails(0))) && t.db == s.db
    ensures t.bridge == Piped(OnePageRun(1, 0, [row], Writer(1, 0, 1, Writing, true)))
  {
    var p := s.bridge.p;
    t := Next(s, Writes(LookFails(0)));
    assert p.writers[0 := t.bridge.p.writers[0]] == [t.bridge.p.writers[0]];
  }

  /** From a taken batch: its commit lands but the answer is lost, the look at the own marker fails, and the
      batch is committed again. */
  lemma {:induction false} CommitTwice(s: State, row: Row) returns (ls: seq<Label>, t: State)
    requires s.bridge == Piped(OnePageRun(1, 0, [row], Writer(1, 0, 1, Writing, false))) && s.db.journal == []
    ensures Runs(s, ls, t) && (forall l :: l in ls ==> Plain(1, l)) && t.db.journal == [Entry(1, row), Entry(1, row)]
  {
    hide Runs, Next, Enabled, OnePageRun;
    var a := CommitOnce(s, row, false, false);
    var b := LookAgain(a, row);
    var c := CommitOnce(b, row, true, true);
    t := c;
    RunsNone(t);
    RunsOne(b, Writes(Commit(0, true)), [], t);
    var l3 := [Writes(Commit(0, true))] + [];
    RunsOne(a, Writes(LookFails(0)), l3, t);
    var l2 := [Writes(LookFails(0))] + l3;
    RunsOne(s, Writes(Commit(0, false)), l2, t);
    ls := [Writes(Commit(0, false))] + l2;
  }

  /** A run from the empty database in which a lost answer and then a failed marker read write a row twice. */
  lemma {:induction false} FailedLookWritesTwice(written: Row) returns (ls: seq<Label>, t: State)
    ensures Runs(Initial(), ls, t) && (forall l :: l in ls ==> Plain(1, l))
    ensures t.db.journal == [Entry(1, written.(offset := 1)), Entry(1, written.(offset := 1))]
  {
    hide Runs;
    var row := written.(offset := 1);
    var l1, t1 := FirstPage(written);
    var t2 := t1.(bridge := Piped(t1.bridge.p.(writers := [Writer(1, 0, 1, Writing, false)])));
    SendAndTake(t1, t2, row);
    var l2 := [Writes(Send(0)), Writes(Take(0, 1))];
    var l3, t3 := CommitTwice(t2, row);
    t := t3;
    RunsConcat(t1, l2, t2, l3, t);
    RunsConcat(Initial(), l1, t1, l2 + l3, t);
    ls := l1 + (l2 + l3);
  }
}
