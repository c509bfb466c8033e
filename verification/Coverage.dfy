/**
 No loss: over every run, whatever crashes, writer counts and modes follow each other, the markers
 bound only rows that are in the database.
 */
module Coverage {
  import opened Basics
  import opened MetricTable
  import opened Partition
  import opened StreamLog
  import opened Markers
  import opened SinkModel
  import opened Historian

  // ---------------------------------------------------------------- what a marker promises

  /** Every row of partition i of n at or below upTo is committed. */
  ghost predicate Covered(journal: seq<Entry>, s: StoreId, log: Log, n: nat, i: nat, upTo: nat)
    requires n > 0
  {
    forall k: nat :: k <= upTo && InPart(log, n, i, k) ==> Entry(s, TheRow(log, k)) in journal
  }

  /** Every row at or below upTo is committed. */
  ghost predicate CoveredAll(journal: seq<Entry>, s: StoreId, log: Log, upTo: nat) {
    forall k: nat :: k <= upTo && RowAt(log, k) ==> Entry(s, TheRow(log, k)) in journal
  }

  ghost predicate PartsZero(db: Database) {
    forall k :: k in db.parts ==> db.parts[k] == 0
  }

  /** The partition markers are positions in store s, and bound only committed rows. */
  ghost predicate PartsIn(node: Node, db: Database, s: StoreId) {
    node.Has(s) &&
    forall k :: k in db.parts ==> k.1 < k.0 && db.parts[k] <= |node.LogOf(s)| &&
                                  Covered(db.journal, s, node.LogOf(s), k.0, k.1, db.parts[k])
  }

  ghost predicate PageOk(node: Node, db: Database) {
    if db.page.offset == 0 then db.page.store == 0
    else node.Has(db.page.store) && db.page.offset <= |node.LogOf(db.page.store)| &&
         CoveredAll(db.journal, db.page.store, node.LogOf(db.page.store), db.page.offset)
  }

  ghost predicate DbOk(node: Node, db: Database) {
    && node.Has(node.Store()) && node.Has(db.home) && PageOk(node, db)
    && (forall k :: k in db.parts ==> k.1 < k.0)
    && (PartsZero(db) ||
        (PartsIn(node, db, db.partsOf) && db.page.store <= db.partsOf &&
         (db.page.offset == 0 ==> db.partsOf == db.home)))
  }

  /** How far the cursor of the current store may have moved: to the page marker, if that is a
      position in this store, and not at all otherwise. */
  function Bound(db: Database, store: StoreId): nat {
    if db.page.store == store then db.page.offset else 0
  }

  ghost predicate CursorOk(node: Node, db: Database) {
    1 <= node.cursor <= Bound(db, node.Store()) + 1
  }

  // ---------------------------------------------------------------- the pipelined run

  /** The partition markers in force for what is fetched from now on. */
  function Floors(r: Route): seq<nat> {
    if r.carry.Some? then r.carry.value
    else if r.order != [] && r.order[0].floors.Some? then r.order[0].floors.value
    else r.floors
  }

  /** The store the run follows; without a page marker that is the database's home. */
  function Home(db: Database, stream: StoreId): StoreId {
    if stream == 0 then db.home else stream
  }

  /** Rows of partition i at or below this were written before this run read them. */
  function Floor(r: Route, i: nat): nat
    requires i < |Floors(r)|
  {
    Max(r.applied, Floors(r)[i])
  }

  /** How far partition i is written once its shares of the first c pages are. */
  function Reach(r: Route, i: nat, c: nat): nat
    requires i < |Floors(r)| && c <= |r.pages|
  {
    Max(Floor(r, i), if c == 0 then 0 else r.pages[c - 1].last)
  }

  predicate Chained(r: Route) { r.pages != [] || r.order != [] }

  ghost predicate Shape(r: Route) {
    && r.n > 0 && |r.floors| == r.n
    && (r.carry.Some? ==> |r.carry.value| == r.n && !Chained(r))
    && (forall k :: 0 <= k < |r.order| && r.order[k].floors.Some? ==>
          k == 0 && r.pages == [] && |r.order[k].floors.value| == r.n)
    && (forall q :: 0 <= q < |r.pages| ==>
          r.pages[q].store == r.stream && 1 <= r.pages[q].first <= r.pages[q].last && |r.pages[q].shares| == r.n)
    && (forall k :: 0 <= k < |r.order| ==>
          r.order[k].store == r.stream && 1 <= r.order[k].first <= r.order[k].last)
  }

  predicate PagesMeet(r: Route, q: nat)
    requires 0 < q < |r.pages|
  {
    r.pages[q].first == r.pages[q - 1].last + 1
  }

  predicate ItemsMeet(r: Route, k: nat)
    requires 0 < k < |r.order|
  {
    r.order[k].first == r.order[k - 1].last + 1
  }

  /** The pages in flight are one stretch of the stream that ends where the fetcher reads on. */
  ghost predicate Contiguous(r: Route) {
    && (forall q :: 0 < q < |r.pages| ==> PagesMeet(r, q))
    && (forall k :: 0 < k < |r.order| ==> ItemsMeet(r, k))
    && (r.pages != [] && r.order != [] ==> r.order[0].first == r.pages[|r.pages| - 1].last + 1)
    && (r.pages != [] ==> r.pages[0].first <= r.applied + 1)
    && (r.pages == [] && r.order != [] ==> r.order[0].first <= r.applied + 1)
    && (Chained(r) ==> r.stream > 0 &&
                       r.next == 1 + if r.order != [] then r.order[|r.order| - 1].last else r.pages[|r.pages| - 1].last)
    && (!Chained(r) && r.next > 0 ==> r.next <= r.applied + 1 && r.stream > 0)
  }

  ghost predicate SharesOk(log: Log, r: Route)
    requires Shape(r)
  {
    && (forall q :: 0 <= q < |r.pages| ==> r.pages[q].last <= |log|)
    && (forall i: nat :: i < r.n ==> Floor(r, i) <= |log|)
    && (forall q, i: nat {:trigger r.pages[q].shares[i]} :: 0 <= q < |r.pages| && i < r.n ==>
          r.pages[q].shares[i] == PartRows(log, r.n, i, Reach(r, i, q), Reach(r, i, q + 1)))
  }

  ghost predicate ItemsOk(log: Log, r: Route)
    requires Shape(r)
  {
    forall k :: 0 <= k < |r.order| ==>
      r.order[k].last <= |log| &&
      r.order[k].rows == Rows(log, Max(r.order[k].first - 1, r.applied), r.order[k].last)
  }

  ghost predicate RouteOk(node: Node, r: Route) {
    && Shape(r) && Contiguous(r) && r.stream <= node.Store()
    && (Chained(r) ==> SharesOk(node.LogOf(r.stream), r) && ItemsOk(node.LogOf(r.stream), r))
  }

  ghost predicate WriterOk(r: Route, w: Writer, i: nat)
    requires Shape(r) && i < r.n
  {
    && w.fin <= w.bat <= w.sent <= |r.pages| <= w.sent + 1
    && (w.phase == Idle ==> w.fin == w.bat && !w.landed)
    && (w.phase != Idle ==> w.fin < w.bat && r.pages[w.bat - 1].shares[i] != [])
    && (w.phase == Done ==> w.landed)
  }

  /** How many of the first m writers have not finished their share of page q. */
  function Unfinished(page: Page, writers: seq<Writer>, q: nat, m: nat): nat
    requires m <= |writers| && m <= |page.shares|
  {
    if m == 0 then 0
    else Unfinished(page, writers, q, m - 1) + if page.shares[m - 1] != [] && writers[m - 1].fin <= q then 1 else 0
  }

  ghost predicate PendingOk(p: Pipeline)
    requires Shape(p.r) && |p.writers| == p.r.n
  {
    && |p.pending| == |p.r.pages| && p.released <= p.marking <= |p.r.pages|
    && (forall q :: 0 <= q < |p.r.pages| ==> p.pending[q] == Unfinished(p.r.pages[q], p.writers, q, p.r.n))
    && (forall q :: 0 <= q < p.marking ==> p.pending[q] == 0)
  }

  ghost predicate MarkedOk(db: Database, p: Pipeline) {
    && (if p.marked == db.page.offset && p.markedStore == db.page.store
        then (p.marked > 0 ==> p.r.stream == p.markedStore) &&
             (p.marked == 0 ==> p.r.stream == 0 || p.r.stream == db.home)
        else p.marked == 0 && db.page.offset > 0 && Chained(p.r) && p.marking == 0 &&
             p.markedStore == p.r.stream && db.page.store < p.r.stream)
    && (p.r.pages == [] ==> p.marked <= p.r.applied && p.marking == 0)
    && (0 < p.marking <= |p.r.pages| ==> p.r.pages[p.marking - 1].last <= p.marked)
  }

  /** The fetcher reads, or has read, the store it follows. */
  predicate Engaged(node: Node, db: Database, r: Route, got: Option<Fetched>) {
    node.Store() == Home(db, r.stream) || r.next > 0 || (got.Some? && got.value.store == Home(db, r.stream))
  }

  /** What the fetcher skips as already written is, in the store it follows. */
  ghost predicate FloorsTrue(node: Node, db: Database, r: Route)
    requires Shape(r)
  {
    && node.Has(Home(db, r.stream)) && (PartsZero(db) || db.partsOf == Home(db, r.stream))
    && forall i: nat :: i < r.n ==>
      Floor(r, i) <= |node.LogOf(Home(db, r.stream))| &&
      Covered(db.journal, Home(db, r.stream), node.LogOf(Home(db, r.stream)), r.n, i, Floor(r, i))
  }

  ghost predicate GotOk(node: Node, db: Database, p: Pipeline) {
    p.got.Some? ==>
      var got := p.got.value;
      && node.Has(got.store) && (db.page.offset == 0 && !got.ahead ==> got.store == db.home)
      && 1 <= got.first && (got.first <= got.last ==> got.last <= |node.LogOf(got.store)|)
      && (if got.ahead then p.r.next > 0 && got.first == p.r.next
          else p.r.next == 0 && got.first <= Bound(db, got.store) + 1 && db.page.store <= got.store)
  }

  /** Partition i's rows up to where its writer committed are in the database, and its own marker is
      not past that; a batch that landed has moved it to the batch's end. */
  ghost predicate WriterCovers(node: Node, db: Database, r: Route, w: Writer, i: nat)
    requires Shape(r) && i < r.n && WriterOk(r, w, i)
  {
    && Own(db.parts, r.n, i) <= Reach(r, i, w.Com())
    && (w.landed ==> r.pages[w.bat - 1].last <= Own(db.parts, r.n, i))
    && (r.pages != [] ==>
          node.Has(r.stream) &&
          Covered(db.journal, r.stream, node.LogOf(r.stream), r.n, i, Reach(r, i, w.Com())))
  }

  ghost predicate WriterFine(node: Node, db: Database, r: Route, w: Writer, i: nat)
    requires Shape(r) && i < r.n
  {
    WriterOk(r, w, i) && WriterCovers(node, db, r, w, i)
  }

  ghost predicate WritersOk(node: Node, db: Database, r: Route, writers: seq<Writer>)
    requires Shape(r)
  {
    |writers| == r.n &&
    forall i: nat :: i < r.n ==> WriterFine(node, db, r, writers[i], i)
  }

  ghost predicate PipedOk(node: Node, db: Database, p: Pipeline) {
    if !p.loaded then p == NewPipeline(p.r.n) && p.r.n > 0
    else
      && RouteOk(node, p.r) && WritersOk(node, db, p.r, p.writers) && PendingOk(p) && MarkedOk(db, p)
      && (Engaged(node, db, p.r, p.got) ==> FloorsTrue(node, db, p.r)) && GotOk(node, db, p)
  }

  // ---------------------------------------------------------------- one page at a time

  /** The run reads, or has read, the store it follows. */
  predicate PagedEngaged(node: Node, db: Database, b: Paged) {
    || node.Store() == Home(db, b.stream) || b.work.Some?
    || (b.got.Some? && b.got.value.store == Home(db, b.stream))
    || (b.early.Some? && b.early.value.store == Home(db, b.stream))
  }

  ghost predicate SkipOk(node: Node, db: Database, b: Paged) {
    b.known && PagedEngaged(node, db, b) ==>
      && node.Has(Home(db, b.stream)) && (PartsZero(db) || db.partsOf == Home(db, b.stream))
      && b.skip <= |node.LogOf(Home(db, b.stream))|
      && CoveredAll(db.journal, Home(db, b.stream), node.LogOf(Home(db, b.stream)), b.skip)
  }

  ghost predicate PagedGotOk(node: Node, db: Database, b: Paged) {
    b.got.Some? ==>
      var got := b.got.value;
      && node.Has(got.store) && db.page.store <= got.store
      && (db.page.offset == 0 && (!got.ahead || b.stream == 0) ==> got.store == db.home)
      && b.work.None? && (PartsZero(db) || db.partsOf <= got.store)
      && 1 <= got.first && (got.first <= got.last ==> got.last <= |node.LogOf(got.store)|)
      && (if got.ahead then b.known && got.first == b.marker + 1 else got.first <= Bound(db, got.store) + 1)
  }

  /** A page read ahead comes from the followed store or a later one, and from where it was asked for. */
  ghost predicate EarlyOk(node: Node, db: Database, b: Paged) {
    b.early.Some? ==>
      var early := b.early.value;
      && early.ahead && b.aheadFrom > 0 && early.first == b.aheadFrom
      && node.Has(early.store) && b.stream <= early.store
      && (db.page.offset == 0 && b.stream == 0 ==> early.store == db.home)
      && db.page.store <= early.store && (PartsZero(db) || db.partsOf <= early.store)
      && (early.first <= early.last ==> early.last <= |node.LogOf(early.store)|)
  }

  ghost predicate ShareCommitted(db: Database, b: Paged, i: nat)
    requires b.work.Some? && b.writers > 0
  {
    i < b.writers &&
    forall row :: row in Share(b.work.value.rows, b.writers, i, -1) ==> Entry(b.stream, row) in db.journal
  }

  ghost predicate WorkOk(node: Node, db: Database, b: Paged) {
    b.work.Some? ==>
      var w := b.work.value;
      && b.known && w.store == b.stream && b.stream > 0 && node.Has(b.stream) && db.page.store <= b.stream
      && (db.page.offset == 0 ==> b.stream == db.home)
      && 1 <= w.first <= w.last <= |node.LogOf(b.stream)| && w.first <= b.skip + 1
      && Bound(db, b.stream) <= w.last
      && w.rows == Rows(node.LogOf(b.stream), Max(w.first - 1, b.skip), w.last)
      && (b.writers > 1 ==> forall i :: i in b.shared ==> ShareCommitted(db, b, i))
  }

  ghost predicate PagedOk(node: Node, db: Database, b: Paged) {
    && b.stream <= node.Store() && SkipOk(node, db, b) && PagedGotOk(node, db, b) && EarlyOk(node, db, b)
    && WorkOk(node, db, b)
    && (b.known && b.work.None? ==>
          b.marker == db.page.offset && b.marker <= b.skip &&
          (if b.marker > 0 then b.stream == db.page.store else b.stream == 0 || b.stream == db.home))
    && (b.aheadFrom > 0 ==>
          b.known && b.got.None? &&
          if b.work.Some? then b.aheadFrom == b.work.value.last + 1 == b.next
          else b.aheadFrom == b.next ==> b.aheadFrom == b.marker + 1)
  }

  /** A database without a page marker is written from the current store. */
  predicate AtHome(node: Node, db: Database) {
    db.page.offset == 0 ==> node.Store() == db.home
  }

  ghost predicate Sound(s: State) {
    && DbOk(s.node, s.db) && CursorOk(s.node, s.db)
    && match s.bridge
       case Down => true
       case Piped(p) => PipedOk(s.node, s.db, p)
       case OnePage(b) => PagedOk(s.node, s.db, b)
  }

  ghost predicate Inv(s: State) {
    Sound(s) && AtHome(s.node, s.db)
  }
}
