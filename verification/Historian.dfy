/**
 The historian's write path as a state machine: the node's stream and cursor, the database, and
 one bridge at a time that writes either through the pipeline or one page at a time. A step is
 one effect on the node or the database, or one hand-over between the pipeline's goroutines; the
 bridge may crash between any two.
 */
module Historian {
  import opened Basics
  import opened MetricTable
  import opened Partition
  import opened StreamLog
  import opened Markers
  import opened SinkModel

  /** The node. `logs[s - 1]` is the metrics stream of store s, the last one the current; `cursor` is
      the first offset not acked in the current store. */
  datatype Node = Node(logs: seq<Log>, cursor: nat)
  {
    function Store(): StoreId { |logs| }
    predicate Has(s: StoreId) { 1 <= s <= |logs| }
    function LogOf(s: StoreId): Log
      requires Has(s)
    {
      logs[s - 1]
    }
  }

  /** A row some transaction committed, and the store it was read from. */
  datatype Entry = Entry(store: StoreId, row: Row)

  /** The database. `journal` is the history of committed rows, `partsOf` the store whose rows the last
      share moved a partition marker for, and `home` the store a database without a page marker is
      written from; the code stores none of them. */
  datatype Database = Database(table: Table, page: Marker, parts: PartMarkers,
                               journal: seq<Entry>, partsOf: StoreId, home: StoreId)

  /** A page as /fetch answered it: records first..last of store; none when last < first. */
  datatype Fetched = Fetched(first: nat, last: int, store: StoreId, ahead: bool)

  /** A decoded page on its way to the dispatcher. */
  datatype Item = Item(first: nat, last: nat, store: StoreId, rows: seq<Row>, floors: Option<seq<nat>>)

  /** A dispatched page: its shares by writer. */
  datatype Page = Page(first: nat, last: nat, store: StoreId, shares: seq<seq<Row>>)

  datatype Phase = Idle | Writing | Failing | Done

  /** Writer i. Its channel holds the non-empty shares of pages [bat..sent), its batch those of
      [fin..bat). `landed`: the batch is in the database, whatever the writer heard. */
  datatype Writer = Writer(sent: nat, fin: nat, bat: nat, phase: Phase, landed: bool)
  {
    function Com(): nat { if landed then bat else fin }
  }

  /** What the fetcher handed over: decoded pages in `order`, and `pages`, those dispatched since the
      fetcher last read from the cursor. `next` is 0 while it reads from the cursor; `carry` are the
      partition markers the next page takes along, `floors` those the dispatcher works with. */
  datatype Route = Route(n: nat, applied: nat, carry: Option<seq<nat>>, next: nat, stream: StoreId,
                         order: seq<Item>, floors: seq<nat>, pages: seq<Page>)

  /** The volatile state of one pipelined run. `pending[q]` counts the shares of page q not written
      yet; the first `marking` pages are marked, the first `released` gave their slot back. */
  datatype Pipeline = Pipeline(
    loaded: bool, r: Route, marked: nat, markedStore: StoreId, acked: nat, got: Option<Fetched>,
    pending: seq<nat>, marking: nat, released: nat, writers: seq<Writer>)

  datatype Work = Work(first: nat, last: nat, store: StoreId, rows: seq<Row>)

  /** The volatile state of a run that applies one page at a time. `aheadFrom` is where a read ahead of
      the cursor was asked for, 0 when none was; `early` is what it answered, at any time since. */
  datatype Paged = Paged(
    writers: nat, known: bool, marker: nat, skip: nat, stream: StoreId, next: nat, aheadFrom: nat,
    early: Option<Fetched>, got: Option<Fetched>, work: Option<Work>, shared: set<nat>)

  datatype Bridge = Down | Piped(p: Pipeline) | OnePage(b: Paged)

  datatype State = State(node: Node, db: Database, bridge: Bridge)

  function Initial(): State {
    State(Node([[]], 1), Database(map[], Marker(0, 0), map[], [], 0, 1), Down)
  }

  /** A step of the node, or of the process as a whole. */
  datatype Outside = Append(record: Option<Row>) | Recreate | Crash | StartPiped(n: nat) | StartPaged(writers: nat)

  /** A step of the fetcher, or of the marker goroutine with its acks. */
  datatype Follow =
    | Load(resume: nat) | Read(last: int) | Drop | Lag | Enqueue | Fresh | BackToCursor
    | Mark(upTo: nat) | Release | Ack(heard: bool)

  /** A step of the dispatcher or of writer i. */
  datatype Write =
    | Dispatch | Send(i: nat) | Take(i: nat, upTo: nat) | Commit(i: nat, heard: bool) | WriteFails(i: nat)
    | Look(i: nat) | LookFails(i: nat) | Finish(i: nat)

  /** A step of a run that applies one page at a time. */
  datatype Pass =
    | PagedLoad(resume: nat) | PagedRead(last: int) | ReadEarly(last: int) | TakeEarly | PagedDrop
    | PagedLag(readOn: bool) | PagedTake(readAhead: bool) | PagedShare(i: nat) | PagedCommit(heard: bool)
    | PagedMark(heard: bool) | PagedFail | PagedAck

  datatype Label = Out(o: Outside) | Following(f: Follow) | Writes(w: Write) | Passes(a: Pass)

  // ---------------------------------------------------------------- effects on node and database

  /** /ack: refused for another store, and never moves the cursor back. */
  function AckNode(node: Node, offset: nat, store: StoreId): Node {
    if (store == 0 || store == node.Store()) && offset + 1 > node.cursor then node.(cursor := offset + 1) else node
  }

  function Tagged(store: StoreId, rows: seq<Row>): (r: seq<Entry>)
    ensures |r| == |rows| && forall j :: 0 <= j < |r| ==> r[j] == Entry(store, rows[j])
  {
    seq(|rows|, j requires 0 <= j < |rows| => Entry(store, rows[j]))
  }

  /** A committed transaction's rows (Sink.ApplyOne). */
  function Journaled(db: Database, store: StoreId, rows: seq<Row>): Database {
    db.(table := Fold(db.table, rows), journal := db.journal + Tagged(store, rows))
  }

  function Zeroed(markers: PartMarkers): PartMarkers {
    map k | k in markers :: 0
  }

  /** newStream, for a node that names its store and a marker that does. */
  predicate NewStream(page: Fetched, marker: nat, markerStore: StoreId) {
    marker > 0 && page.store != markerStore
  }

  // ---------------------------------------------------------------- the pipelined run

  function NewPipeline(n: nat): Pipeline {
    Pipeline(false, Route(n, 0, None, 0, 0, [], seq(n, i => 0), []), 0, 0, 0, None, [], 0, 0, NoShares(n))
  }

  function NoShares(n: nat): seq<Writer> {
    seq(n, i => Writer(0, 0, 0, Idle, false))
  }

  function Adopt(stream: StoreId, store: StoreId): StoreId {
    if stream == 0 then store else stream
  }

  /** Nothing between fetch and marker: every slot is free. */
  predicate NothingInFlight(p: Pipeline) {
    p.got.None? && p.r.order == [] && p.released == |p.r.pages|
  }

  function FetchFrom(node: Node, p: Pipeline): nat {
    if p.r.next == 0 then node.cursor else p.r.next
  }

  /** A page read from `first` of the current store: up to some record, or empty at or past the head. */
  predicate Readable(node: Node, first: nat, last: int) {
    node.Has(node.Store()) && first - 1 <= last && (first <= last ==> last <= |node.LogOf(node.Store())|)
  }

  predicate Usable(node: Node, got: Fetched) {
    node.Has(got.store) && 1 <= got.first <= got.last <= |node.LogOf(got.store)|
  }

  /** The rows handed to the decoders: those above `applied`. */
  function Decoded(node: Node, got: Fetched, applied: nat): seq<Row>
    requires Usable(node, got)
  {
    Rows(node.LogOf(got.store), Max(got.first - 1, applied), got.last)
  }

  /** The route with a fetched page of its stream added. */
  function Enqueued(node: Node, r: Route, got: Fetched, floors: Option<seq<nat>>): Route
    requires Usable(node, got)
  {
    r.(order := r.order + [Item(got.first, got.last, got.store, Decoded(node, got, r.applied), floors)],
       carry := None, next := got.last + 1)
  }

  function FloorsFrom(r: Route, item: Item): seq<nat> {
    if item.floors.Some? then item.floors.value else r.floors
  }

  function CountNonEmpty(shares: seq<seq<Row>>): nat {
    if shares == [] then 0
    else CountNonEmpty(shares[..|shares| - 1]) + if shares[|shares| - 1] == [] then 0 else 1
  }

  predicate Dispatchable(r: Route) {
    r.n > 0 && r.order != [] && |FloorsFrom(r, r.order[0])| == r.n
  }

  /** The shares of the oldest decoded page (Partition.SplitRows). */
  function NextShares(r: Route): (shares: seq<seq<Row>>)
    requires Dispatchable(r)
    ensures |shares| == r.n
    ensures forall i :: 0 <= i < r.n ==> shares[i] == Share(r.order[0].rows, r.n, i, FloorsFrom(r, r.order[0])[i])
  {
    var item := r.order[0];
    seq(r.n, i requires 0 <= i < r.n => Share(item.rows, r.n, i, FloorsFrom(r, item)[i]))
  }

  function Dispatched(r: Route): Route
    requires Dispatchable(r)
  {
    var item := r.order[0];
    r.(order := r.order[1..], floors := FloorsFrom(r, item),
       pages := r.pages + [Page(item.first, item.last, item.store, NextShares(r))])
  }

  /** The rows writer i has for pages [lo..hi), in page order. */
  function ShareRows(pages: seq<Page>, i: nat, lo: nat, hi: nat): seq<Row>
    requires hi <= |pages| && forall q :: 0 <= q < |pages| ==> i < |pages[q].shares|
  {
    if hi <= lo then [] else ShareRows(pages, i, lo, hi - 1) + pages[hi - 1].shares[i]
  }

  predicate WriterAt(p: Pipeline, i: nat, phase: Phase) {
    && p.r.n > 0 && i < p.r.n == |p.writers| && p.writers[i].phase == phase && |p.pending| == |p.r.pages|
    && (forall q :: 0 <= q < |p.r.pages| ==> |p.r.pages[q].shares| == p.r.n)
    && (phase != Idle ==> p.writers[i].fin < p.writers[i].bat <= |p.r.pages|)
  }

  /** The offset the batch moves the partition's marker to. */
  function Through(p: Pipeline, i: nat): nat
    requires i < |p.writers| && 0 < p.writers[i].bat <= |p.r.pages|
  {
    p.r.pages[p.writers[i].bat - 1].last
  }

  function SetWriter(p: Pipeline, i: nat, w: Writer): Pipeline
    requires i < |p.writers|
  {
    p.(writers := p.writers[i := w])
  }

  /** The counts after writer i's batch: one less for each page it had a share of. */
  function CountedDown(p: Pipeline, i: nat): (pending: seq<nat>)
    requires WriterAt(p, i, Done)
    ensures |pending| == |p.pending|
  {
    var w := p.writers[i];
    seq(|p.pending|, q requires 0 <= q < |p.pending| =>
          if w.fin <= q < w.bat && p.r.pages[q].shares[i] != [] && p.pending[q] > 0 then p.pending[q] - 1
          else p.pending[q])
  }

  /** Where the marker goes for the pages before upTo: never backwards. */
  function MarkTo(p: Pipeline, upTo: nat): Marker
    requires 0 < upTo <= |p.r.pages|
  {
    var page := p.r.pages[upTo - 1];
    if p.marked >= page.last then Marker(p.marked, p.markedStore) else Marker(page.last, page.store)
  }

  ghost predicate FollowEnabled(s: State, p: Pipeline, l: Follow) {
    match l
    case Load(resume) => !p.loaded && ResumesAt(s.db.page.offset, s.db.parts, p.r.n, resume)
    case Read(last) => p.loaded && p.got.None? && Readable(s.node, FetchFrom(s.node, p), last)
    case Drop => p.got.Some? && (p.got.value.last < p.got.value.first ||
                                 (p.got.value.ahead && p.got.value.store != p.r.stream))
    case Lag => p.got.Some? && p.got.value.first <= p.got.value.last < p.marked && !p.got.value.ahead &&
                !NewStream(p.got.value, p.marked, p.r.stream)
    case Enqueue => p.got.Some? && Usable(s.node, p.got.value) &&
                    (if p.got.value.ahead then p.got.value.store == p.r.stream
                     else !NewStream(p.got.value, p.marked, p.r.stream) && p.got.value.last >= p.marked)
    case Fresh => p.got.Some? && Usable(s.node, p.got.value) && !p.got.value.ahead &&
                  NewStream(p.got.value, p.marked, p.r.stream)
    case BackToCursor => p.loaded && NothingInFlight(p)
    case Mark(upTo) => p.marking == p.released < upTo <= |p.r.pages| == |p.pending| &&
                       forall q :: p.released <= q < upTo ==> p.pending[q] == 0
    case Release => p.released < p.marking
    case Ack(heard) => p.loaded && p.marked > p.acked
  }

  function FollowDb(db: Database, p: Pipeline, l: Follow): Database
    requires l.Mark? ==> 0 < l.upTo <= |p.r.pages|
  {
    match l
    case Fresh => db.(parts := Zeroed(db.parts))
    case Mark(upTo) => db.(page := MarkTo(p, upTo))
    case _ => db
  }

  function FollowNext(s: State, p: Pipeline, l: Follow): Pipeline
    requires FollowEnabled(s, p, l)
  {
    var r := p.r;
    match l
    case Load(resume) =>
      var own := seq(r.n, i requires 0 <= i => Own(s.db.parts, r.n, i));
      p.(loaded := true, r := r.(applied := resume, carry := Some(own), stream := s.db.page.store),
         marked := s.db.page.offset, markedStore := s.db.page.store)
    case Read(last) => p.(got := Some(Fetched(FetchFrom(s.node, p), last, s.node.Store(), r.next != 0)))
    case Drop => p.(got := None)
    case Lag => p.(got := None, r := r.(stream := Adopt(r.stream, p.got.value.store), next := p.marked + 1))
    case Enqueue =>
      p.(got := None,
         r := Enqueued(s.node, r.(stream := Adopt(r.stream, p.got.value.store)), p.got.value, r.carry))
    case Fresh =>
      p.(got := None, marked := 0, acked := 0, markedStore := p.got.value.store,
         r := Enqueued(s.node, r.(applied := 0, stream := p.got.value.store), p.got.value, Some(seq(r.n, i => 0))))
    case BackToCursor =>
      p.(r := r.(next := 0, applied := Max(r.applied, p.marked), pages := []),
         pending := [], marking := 0, released := 0, writers := NoShares(r.n))
    case Mark(upTo) => p.(marked := MarkTo(p, upTo).offset, markedStore := MarkTo(p, upTo).store, marking := upTo)
    case Release => p.(released := p.marking)
    case Ack(heard) => if heard && p.markedStore == s.node.Store() then p.(acked := p.marked) else p
  }

  ghost predicate WriteEnabled(p: Pipeline, l: Write) {
    match l
    case Dispatch => Dispatchable(p.r) && |p.writers| == p.r.n &&
                     forall i :: 0 <= i < p.r.n ==> p.writers[i].sent == |p.r.pages|
    case Send(i) => i < |p.writers| && p.writers[i].sent + 1 == |p.r.pages|
    case Take(i, upTo) => WriterAt(p, i, Idle) && p.writers[i].fin < upTo <= p.writers[i].sent <= |p.r.pages| &&
                          p.r.pages[upTo - 1].shares[i] != []
    case Commit(i, heard) => WriterAt(p, i, Writing)
    case WriteFails(i) => WriterAt(p, i, Writing)
    case Look(i) => WriterAt(p, i, Failing)
    case LookFails(i) => WriterAt(p, i, Failing)
    case Finish(i) => WriterAt(p, i, Done)
  }

  /** The transaction of writer i: its batch's rows and its own marker (Sink.ApplyShare). */
  function ShareWritten(db: Database, p: Pipeline, i: nat): Database
    requires WriterAt(p, i, Writing)
  {
    var w := p.writers[i];
    Journaled(db, p.r.stream, ShareRows(p.r.pages, i, w.fin, w.bat)).(
      parts := db.parts[(p.r.n, i) := Through(p, i)], partsOf := p.r.stream)
  }

  function WriteDb(db: Database, p: Pipeline, l: Write): Database
    requires WriteEnabled(p, l)
  {
    if l.Commit? then ShareWritten(db, p, l.i) else db
  }

  function DispatchNext(p: Pipeline): Pipeline
    requires Dispatchable(p.r) && |p.writers| == p.r.n
  {
    var shares := NextShares(p.r);
    p.(r := Dispatched(p.r), pending := p.pending + [CountNonEmpty(shares)],
       writers := seq(p.r.n, i requires 0 <= i < p.r.n =>
                        if shares[i] == [] then p.writers[i].(sent := |p.r.pages| + 1) else p.writers[i]))
  }

  /** Writer i after a step of its own other than Finish. */
  function WriterNext(db: Database, p: Pipeline, i: nat, l: Write): Writer
    requires WriteEnabled(p, l) && !l.Dispatch? && !l.Finish? && i == l.i
  {
    var w := p.writers[i];
    match l
    case Send(_) => w.(sent := |p.r.pages|)
    case Take(_, upTo) => w.(bat := upTo, phase := Writing)
    case Commit(_, heard) => w.(phase := if heard then Done else Failing, landed := true)
    case WriteFails(_) => w.(phase := Failing)
    case Look(_) => w.(phase := if Own(db.parts, p.r.n, i) >= Through(p, i) then Done else Writing)
    case LookFails(_) => w.(phase := Writing)
  }

  function WriteNext(db: Database, p: Pipeline, l: Write): Pipeline
    requires WriteEnabled(p, l)
  {
    match l
    case Dispatch => DispatchNext(p)
    case Finish(i) =>
      var w := p.writers[i];
      SetWriter(p.(pending := CountedDown(p, i)), i, Writer(w.sent, w.bat, w.bat, Idle, false))
    case _ => SetWriter(p, l.i, WriterNext(db, p, l.i, l))
  }

  // ---------------------------------------------------------------- one page at a time

  function NewPaged(writers: nat): Paged {
    Paged(writers, false, 0, 0, 0, 0, 0, None, None, None, {})
  }

  predicate PagedFresh(b: Paged)
    requires b.got.Some?
  {
    !b.got.value.ahead && NewStream(b.got.value, b.marker, b.stream)
  }

  ghost predicate PagedEnabled(s: State, b: Paged, l: Pass) {
    match l
    case PagedLoad(resume) => !b.known && b.work.None? && ResumesAt(s.db.page.offset, s.db.parts, 0, resume)
    case PagedRead(last) => b.got.None? && b.work.None? && Readable(s.node, s.node.cursor, last)
    case ReadEarly(last) => b.aheadFrom != 0 && b.early.None? && Readable(s.node, b.aheadFrom, last)
    case TakeEarly => b.got.None? && b.work.None? && b.early.Some? && b.aheadFrom == b.next
    case PagedDrop => b.got.Some? && (b.got.value.last < b.got.value.first ||
                                      (b.got.value.ahead && b.stream != 0 && b.got.value.store != b.stream))
    case PagedLag(readOn) => b.known && b.got.Some? && b.got.value.first <= b.got.value.last < b.marker &&
                             !PagedFresh(b) && (b.got.value.ahead ==> b.got.value.store == b.stream)
    case PagedTake(readAhead) =>
      b.known && b.work.None? && b.got.Some? && Usable(s.node, b.got.value) &&
      (b.got.value.ahead ==> b.stream == 0 || b.got.value.store == b.stream) &&
      (PagedFresh(b) || b.got.value.last >= b.marker)
    case PagedShare(i) => b.work.Some? && b.writers > 1 && i < b.writers && i !in b.shared
    case PagedCommit(heard) => b.work.Some? && b.shared == {}
    case PagedMark(heard) => b.work.Some? && b.writers > 1 && b.shared == Below(b.writers)
    case PagedFail => b.work.Some?
    case PagedAck => b.known && b.work.None? && b.marker > 0
  }

  function PagedDb(s: State, b: Paged, l: Pass): Database
    requires PagedEnabled(s, b, l)
  {
    match l
    case PagedTake(_) => if PagedFresh(b) then s.db.(parts := Zeroed(s.db.parts)) else s.db
    case PagedShare(i) => Journaled(s.db, b.work.value.store, Share(b.work.value.rows, b.writers, i, -1))
    case PagedCommit(_) =>
      Journaled(s.db, b.work.value.store, b.work.value.rows).(page := Marker(b.work.value.last, b.work.value.store))
    case PagedMark(_) => s.db.(page := Marker(b.work.value.last, b.work.value.store))
    case _ => s.db
  }

  /** The page applied: a lost answer forgets the markers, and the next pass reads them again. */
  function PagedApplied(b: Paged, heard: bool): Paged
    requires b.work.Some?
  {
    if heard then
      b.(marker := b.work.value.last, skip := Max(b.skip, b.work.value.last), work := None, shared := {})
    else b.(known := false, aheadFrom := 0, early := None, work := None, shared := {})
  }

  function PagedNext(s: State, b: Paged, l: Pass): Paged
    requires PagedEnabled(s, b, l)
  {
    match l
    case PagedLoad(resume) =>
      b.(known := true, marker := s.db.page.offset, stream := s.db.page.store, skip := resume)
    case PagedRead(last) =>
      b.(got := Some(Fetched(s.node.cursor, last, s.node.Store(), false)), aheadFrom := 0, early := None)
    case ReadEarly(last) => b.(early := Some(Fetched(b.aheadFrom, last, s.node.Store(), true)))
    case TakeEarly => b.(got := b.early, aheadFrom := 0, early := None)
    case PagedDrop => b.(got := None)
    case PagedLag(readOn) =>
      b.(got := None, stream := Adopt(b.stream, b.got.value.store),
         next := if readOn then b.marker + 1 else b.got.value.last + 1,
         aheadFrom := if readOn then b.marker + 1 else 0, early := None)
    case PagedTake(readAhead) =>
      var got := b.got.value;
      var c := if PagedFresh(b) then b.(marker := 0, skip := 0, stream := got.store)
               else b.(stream := Adopt(b.stream, got.store));
      c.(work := Some(Work(got.first, got.last, got.store, Decoded(s.node, got, c.skip))), got := None,
         next := got.last + 1, aheadFrom := if readAhead then got.last + 1 else 0, early := None, shared := {})
    case PagedShare(i) => b.(shared := b.shared + {i})
    case PagedCommit(heard) => PagedApplied(b, heard)
    case PagedMark(heard) => PagedApplied(b, heard)
    case PagedFail => b.(known := false, aheadFrom := 0, early := None, work := None, shared := {})
    case _ => b
  }

  // ---------------------------------------------------------------- the machine

  ghost predicate Enabled(s: State, l: Label) {
    match l
    case Out(o) =>
      (o.Append? ==> s.node.Has(s.node.Store())) &&
      (o.StartPiped? ==> s.bridge.Down? && o.n > 0) && (o.StartPaged? ==> s.bridge.Down?)
    case Following(f) => s.bridge.Piped? && FollowEnabled(s, s.bridge.p, f)
    case Writes(w) => s.bridge.Piped? && WriteEnabled(s.bridge.p, w)
    case Passes(a) => s.bridge.OnePage? && PagedEnabled(s, s.bridge.b, a)
  }

  function OutsideNext(s: State, o: Outside): State
    requires o.Append? ==> s.node.Has(s.node.Store())
  {
    match o
    case Append(r) =>
      var last := |s.node.logs| - 1;
      s.(node := s.node.(logs := s.node.logs[last := s.node.logs[last] + [r]]))
    case Recreate =>
      State(Node(s.node.logs + [[]], 1), if s.db.page.offset == 0 then s.db.(home := s.node.Store() + 1)
        else s.db, s.bridge)
    case Crash => s.(bridge := Down)
    case StartPiped(n) => s.(bridge := Piped(NewPipeline(n)))
    case StartPaged(writers) => s.(bridge := OnePage(NewPaged(writers)))
  }

  function PagedNode(node: Node, b: Paged, a: Pass): Node
    requires a.PagedLag? ==> b.got.Some?
  {
    match a
    case PagedLag(readOn) => if readOn then node else AckNode(node, b.marker, Adopt(b.stream, b.got.value.store))
    case PagedAck => AckNode(node, b.marker, b.stream)
    case _ => node
  }

  /** The state after one step. */
  function Next(s: State, l: Label): State
    requires Enabled(s, l)
  {
    match l
    case Out(o) => OutsideNext(s, o)
    case Following(f) =>
      var p := s.bridge.p;
      State(if f.Ack? then AckNode(s.node, p.marked, p.markedStore) else s.node,
            FollowDb(s.db, p, f), Piped(FollowNext(s, p, f)))
    case Writes(w) => State(s.node, WriteDb(s.db, s.bridge.p, w), Piped(WriteNext(s.db, s.bridge.p, w)))
    case Passes(a) =>
      var b := s.bridge.b;
      State(PagedNode(s.node, b, a), PagedDb(s, b, a), OnePage(PagedNext(s, b, a)))
  }

  /** A run: the labels taken one after another from s lead to t. */
  ghost predicate Runs(s: State, ls: seq<Label>, t: State)
    decreases |ls|
  {
    if ls == [] then s == t else Enabled(s, ls[0]) && Runs(Next(s, ls[0]), ls[1..], t)
  }
}
