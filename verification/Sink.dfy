/**
 The sink: a page of rows and a marker written in one transaction, as a batch, row by row
 when a row is poison, or over several connections at once.
 */
module SinkModel {
  import opened MetricTable
  import opened Partition
  import opened Markers

  datatype Marker = Marker(offset: nat, store: StoreId)

  /** One queued statement of a batch: insertMetrics over a run of values, or insertRetraction. */
  datatype Statement = Values(group: seq<Row>) | Retraction(row: Row)

  predicate SlotAgain(rows: seq<Row>, slot: Key) {
    exists j :: 0 <= j < |rows| && rows[j].Slot() == slot
  }

  /** The last row of each slot, in order. */
  function Kept(rows: seq<Row>): (r: seq<Row>)
    ensures forall row :: row in r ==> row in rows
  {
    if rows == [] then []
    else (if SlotAgain(rows[1..], rows[0].Slot()) then [] else [rows[0]]) + Kept(rows[1..])
  }

  ghost predicate DistinctSlots(rows: seq<Row>) {
    forall i, j :: 0 <= i < j < |rows| ==> rows[i].Slot() != rows[j].Slot()
  }

  /** insertMetrics: an upsert of every row of the group in one statement, which may touch no
      slot twice. */
  function InsertMany(t: Table, group: seq<Row>): (u: Table)
    requires DistinctSlots(group)
    ensures forall k :: k in u <==> k in t || SlotAgain(group, k)
  {
    map k | k in t.Keys + (set row | row in group :: row.Slot()) ::
      if SlotAgain(group, k) then (var j :| 0 <= j < |group| && group[j].Slot() == k; ValueCell(group[j])) else t[k]
  }

  ghost predicate WellFormed(st: Statement) {
    st.Values? ==> DistinctSlots(st.group)
  }

  /** No row the statement sends is refused. */
  predicate Accepted(st: Statement) {
    match st
    case Values(group) => forall row :: row in group ==> !row.refused
    case Retraction(row) => !row.refused
  }

  function Execute(t: Table, st: Statement): Table
    requires WellFormed(st)
  {
    match st
    case Values(group) => InsertMany(t, group)
    case Retraction(row) => ApplyRow(t, row)
  }

  ghost function ExecuteAll(t: Table, batch: seq<Statement>): Table
    requires forall st :: st in batch ==> WellFormed(st)
    decreases |batch|
  {
    if batch == [] then t else ExecuteAll(Execute(t, batch[0]), batch[1..])
  }

  /** The length of the run of values rows starts with. */
  function RunLength(rows: seq<Row>): (n: nat)
    ensures n <= |rows|
    ensures forall i :: 0 <= i < n ==> !rows[i].Missing()
    ensures n < |rows| ==> rows[n].Missing()
  {
    if rows == [] || rows[0].Missing() then 0 else 1 + RunLength(rows[1..])
  }

  /** The statements of a page: maximal runs of values as one statement each, retractions in place. */
  function Plan(rows: seq<Row>): seq<Statement>
    decreases |rows|
  {
    if rows == [] then []
    else if rows[0].Missing() then [Retraction(rows[0])] + Plan(rows[1..])
    else
      var n := RunLength(rows);
      [Values(Kept(rows[..n]))] + Plan(rows[n..])
  }

  lemma {:induction false} KeptDistinct(rows: seq<Row>)
    ensures DistinctSlots(Kept(rows))
  {
    if rows != [] {
      KeptDistinct(rows[1..]);
      assert forall i :: 0 <= i < |Kept(rows[1..])| ==> Kept(rows[1..])[i] in rows[1..];
    }
  }

  /** A slot's last row is the one kept. */
  lemma {:induction false} KeptIsLast(rows: seq<Row>, i: nat)
    requires i < |rows| && !SlotAgain(rows[i + 1..], rows[i].Slot())
    ensures rows[i] in Kept(rows)
  {
    if i == 0 {
      assert rows[0] in [rows[0]];
    } else {
      assert rows[1..][i..] == rows[i + 1..];
      KeptIsLast(rows[1..], i - 1);
    }
  }

  /** A run of values leaves in each slot its last row, and touches no other slot. */
  lemma {:induction false} FoldOfValues(t: Table, rows: seq<Row>, k: Key)
    requires forall row :: row in rows ==> !row.Missing()
    requires forall row :: row in Kept(rows) ==> !row.refused
    ensures SlotAgain(rows, k) ==>
              k in Fold(t, rows) &&
              exists row :: row in Kept(rows) && row.Slot() == k && Fold(t, rows)[k] == ValueCell(row)
    ensures !SlotAgain(rows, k) ==> (k in Fold(t, rows) <==> k in t) && (k in t ==> Fold(t, rows)[k] == t[k])
  {
    if SlotAgain(rows, k) {
      var i := LastAt(rows, k);
      KeptIsLast(rows, i);
      assert rows == rows[..i + 1] + rows[i + 1..];
      FoldConcat(t, rows[..i + 1], rows[i + 1..]);
      assert rows[..i + 1][..i] == rows[..i];
      OtherSlots(Fold(t, rows[..i + 1]), rows[i + 1..], k);
    } else {
      OtherSlots(t, rows, k);
    }
  }

  ghost function LastAt(rows: seq<Row>, k: Key): (i: nat)
    requires SlotAgain(rows, k)
    ensures i < |rows| && rows[i].Slot() == k && !SlotAgain(rows[i + 1..], k)
  {
    if rows[|rows| - 1].Slot() == k then |rows| - 1
    else
      assert SlotAgain(rows[..|rows| - 1], k);
      var i := LastAt(rows[..|rows| - 1], k);
      assert rows[i + 1..] == rows[..|rows| - 1][i + 1..] + [rows[|rows| - 1]];
      i
  }

  lemma {:induction false} OtherSlots(t: Table, rows: seq<Row>, k: Key)
    requires !SlotAgain(rows, k)
    ensures k in Fold(t, rows) <==> k in t
    ensures k in t ==> Fold(t, rows)[k] == t[k]
  {
    if rows != [] {
      var init := rows[..|rows| - 1];
      assert forall j :: 0 <= j < |init| ==> init[j] == rows[j];
      OtherSlots(t, init, k);
      assert rows[|rows| - 1].Slot() != k;
    }
  }

  /** The multi-row statement over the kept rows does what the rows do one by one. */
  lemma {:induction false} InsertManyIsFold(t: Table, rows: seq<Row>)
    requires forall row :: row in rows ==> !row.Missing()
    requires forall row :: row in Kept(rows) ==> !row.refused
    ensures DistinctSlots(Kept(rows)) && InsertMany(t, Kept(rows)) == Fold(t, rows)
  {
    hide Kept, Fold;
    KeptDistinct(rows);
    var group := Kept(rows);
    var u, v := InsertMany(t, group), Fold(t, rows);
    forall k ensures (k in u <==> k in v) && (k in u ==> u[k] == v[k]) {
      FoldOfValues(t, rows, k);
      assert SlotAgain(rows, k) <==> SlotAgain(group, k) by {
        if SlotAgain(group, k) {
          var j :| 0 <= j < |group| && group[j].Slot() == k;
          assert group[j] in rows;
        }
      }
    }
  }

  lemma {:induction false} PlanWellFormed(rows: seq<Row>)
    ensures forall st :: st in Plan(rows) ==> WellFormed(st)
    decreases |rows|
  {
    if rows != [] {
      var n := if rows[0].Missing() then 1 else RunLength(rows);
      KeptDistinct(rows[..n]);
      PlanWellFormed(rows[n..]);
    }
  }

  /** The batch form means the rows one by one, whenever no row it sends is refused. */
  lemma {:induction false} BatchMeansFold(t: Table, rows: seq<Row>)
    requires forall st :: st in Plan(rows) ==> WellFormed(st) && Accepted(st)
    ensures ExecuteAll(t, Plan(rows)) == Fold(t, rows)
    decreases |rows|
  {
    if rows != [] {
      var n := if rows[0].Missing() then 1 else RunLength(rows);
      var first, rest := rows[..n], rows[n..];
      assert rows == first + rest;
      FoldConcat(t, first, rest);
      var plan := Plan(rows);
      assert plan[1..] == Plan(rest);
      assert plan[0] in plan && Accepted(plan[0]);
      if rows[0].Missing() {
        assert first == [rows[0]] && first[..0] == [];
        assert Fold(t, first) == ApplyRow(Fold(t, []), rows[0]);
      } else {
        InsertManyIsFold(t, first);
      }
      assert forall st :: st in Plan(rest) ==> st in plan;
      BatchMeansFold(Execute(t, plan[0]), rest);
    }
  }

  /** The last index of each slot. */
  method LastIndexes(rows: seq<Row>) returns (last: map<Key, nat>)
    ensures forall i :: 0 <= i < |rows| ==> rows[i].Slot() in last
    ensures forall i :: 0 <= i < |rows| ==> (last[rows[i].Slot()] == i <==> !SlotAgain(rows[i + 1..], rows[i].Slot()))
  {
    last := map[];
    for i := 0 to |rows|
      invariant forall j :: 0 <= j < i ==> rows[j].Slot() in last && j <= last[rows[j].Slot()]
      invariant forall k :: k in last ==> last[k] < i && rows[last[k]].Slot() == k
    {
      last := last[rows[i].Slot() := i];
    }
    forall i | 0 <= i < |rows| ensures last[rows[i].Slot()] == i <==> !SlotAgain(rows[i + 1..], rows[i].Slot()) {
      var at := last[rows[i].Slot()];
      if at != i {
        assert rows[i + 1..][at - i - 1].Slot() == rows[i].Slot();
      } else {
        var tail := rows[i + 1..];
        assert forall j :: 0 <= j < |tail| ==> tail[j] == rows[i + 1 + j];
      }
    }
  }

  /** insertMetrics' columns: the last row of each (signal, microsecond). */
  method ValueColumns(rows: seq<Row>) returns (group: seq<Row>)
    ensures group == Kept(rows)
  {
    var last := LastIndexes(rows);
    group := [];
    assert rows[0..] == rows;
    for i := 0 to |rows|
      invariant group + Kept(rows[i..]) == Kept(rows)
    {
      assert rows[i..][1..] == rows[i + 1..];
      if last[rows[i].Slot()] == i {
        group := group + [rows[i]];
      }
    }
  }

  /** The end of the run of values that starts at start. */
  method EndOfRun(rows: seq<Row>, start: nat) returns (end: nat)
    requires start <= |rows|
    ensures end == start + RunLength(rows[start..])
  {
    end := start;
    while end < |rows| && !rows[end].Missing()
      invariant start <= end <= |rows|
      invariant start + RunLength(rows[start..]) == end + RunLength(rows[end..])
    {
      assert rows[end..][1..] == rows[end + 1..];
      end := end + 1;
    }
  }

  lemma {:induction false} PlanAt(rows: seq<Row>, start: nat, end: nat)
    requires start < |rows|
    requires end == if rows[start].Missing() then start + 1 else start + RunLength(rows[start..])
    ensures end <= |rows|
    ensures Plan(rows[start..]) ==
            [if rows[start].Missing() then Retraction(rows[start])
              else Values(Kept(rows[start..end]))] + Plan(rows[end..])
  {
    assert rows[start..][..end - start] == rows[start..end];
    assert rows[start..][end - start..] == rows[end..];
  }

  /** The next statement of the batch, and where the one after it starts. */
  method NextStatement(rows: seq<Row>, start: nat) returns (st: Statement, end: nat)
    requires start < |rows|
    ensures start < end <= |rows| && Plan(rows[start..]) == [st] + Plan(rows[end..])
  {
    if rows[start].Missing() {
      end := start + 1;
      st := Retraction(rows[start]);
      PlanAt(rows, start, end);
    } else {
      end := EndOfRun(rows, start);
      PlanAt(rows, start, end);
      var group := ValueColumns(rows[start..end]);
      st := Values(group);
      assert rows[start..][0] == rows[start];
    }
  }

  method BuildBatch(rows: seq<Row>) returns (batch: seq<Statement>)
    ensures batch == Plan(rows)
  {
    batch := [];
    var start := 0;
    assert rows[0..] == rows;
    while start < |rows|
      invariant start <= |rows|
      invariant batch + Plan(rows[start..]) == Plan(rows)
    {
      var st, end := NextStatement(rows, start);
      assert batch + ([st] + Plan(rows[end..])) == (batch + [st]) + Plan(rows[end..]);
      batch, start := batch + [st], end;
    }
  }

  /** The rows the schema refuses. */
  function Refused(rows: seq<Row>): (r: seq<Row>)
    ensures forall row :: row in r <==> row in rows && row.refused
  {
    if rows == [] then []
    else
      var init, last := Refused(rows[..|rows| - 1]), rows[|rows| - 1];
      if last.refused then init + [last] else init
  }

  /** A row the batch sends is refused, so the batch fails as poison. */
  predicate Poisoned(rows: seq<Row>) {
    exists st :: st in Plan(rows) && !Accepted(st)
  }

  /** Only a page with a row the schema refuses takes the row-by-row path. */
  lemma {:induction false} PoisonNeedsRefusal(rows: seq<Row>)
    requires Poisoned(rows)
    ensures Refused(rows) != []
    decreases |rows|
  {
    var st :| st in Plan(rows) && !Accepted(st);
    var n := if rows[0].Missing() then 1 else RunLength(rows);
    if st == Plan(rows)[0] {
      var row :| row in rows && row.refused;
      assert row in Refused(rows);
    } else {
      assert st in Plan(rows[n..]);
      PoisonNeedsRefusal(rows[n..]);
      var row := Refused(rows[n..])[0];
      assert row in Refused(rows[n..]) && row in rows[n..];
      assert row in Refused(rows);
    }
  }

  /** The rows a transaction over these rows reports: all that are refused, once one of them fails the batch. */
  function Rejections(rows: seq<Row>): (r: seq<Row>)
    ensures forall row :: row in r ==> row in rows && row.refused
  {
    if Poisoned(rows) then Refused(rows) else []
  }

  /** What the first k shares of n report, in the order of the shares. */
  function RejectionsByShare(rows: seq<Row>, n: nat, k: nat): seq<Row>
    requires n > 0
  {
    if k == 0 then [] else RejectionsByShare(rows, n, k - 1) + Rejections(Share(rows, n, k - 1, -1))
  }

  lemma {:induction false} RejectedAreRefused(rows: seq<Row>, n: nat, k: nat)
    requires n > 0
    ensures forall row :: row in RejectionsByShare(rows, n, k) ==> row in rows && row.refused
  {
    if k > 0 {
      RejectedAreRefused(rows, n, k - 1);
      ShareWithin(rows, n, k - 1);
    }
  }

  lemma {:induction false} ShareWithin(rows: seq<Row>, n: nat, i: nat)
    requires n > 0
    ensures forall row :: row in Share(rows, n, i, -1) ==> row in rows
  {
    if rows != [] {
      ShareWithin(rows[..|rows| - 1], n, i);
    }
  }

  datatype BatchResult = BatchCommitted | Poison | Transient
  datatype Outcome = Written(rejections: seq<Row>) | Failed

  /** Moves consumer's marker, unless consumer is "". */
  function Moved(markers: map<string, Marker>, consumer: string, m: Marker): map<string, Marker> {
    if consumer == "" then markers else markers[consumer := m]
  }

  lemma {:induction false} NoRowsYet(t: Table)
    ensures Fold(t, []) == t && forall signal :: OfSignal([], signal) == []
  {
  }

  /** The sink and the part of the database it writes. A transient failure (a dropped connection,
      a deadlock) may hit any statement, and the answer of a commit may be lost; both are choices here. */
  class Sink {
    const strict: bool
    const writers: nat
    var table: Table
    var markers: map<string, Marker>

    constructor (strict: bool, writers: nat)
      ensures this.strict == strict && this.writers == writers
      ensures table == map[] && markers == map[]
    {
      this.strict, this.writers := strict, writers;
      table, markers := map[], map[];
    }

    /** The page and the marker as one batch in one transaction. */
    method ApplyBatch(rows: seq<Row>, consumer: string, m: Marker) returns (result: BatchResult)
      modifies this
      ensures result.BatchCommitted? ==>
                table == Fold(old(table), rows) && markers == Moved(old(markers), consumer, m) && !Poisoned(rows)
      ensures result.Poison? ==> table == old(table) && markers == old(markers) && Poisoned(rows)
      ensures result.Transient? ==>
                || (table == old(table) && markers == old(markers))
                || (table == Fold(old(table), rows) && markers == Moved(old(markers), consumer, m) && !Poisoned(rows))
    {
      var batch := BuildBatch(rows);
      PlanWellFormed(rows);
      var t := table;
      assert batch[0..] == batch;
      for i := 0 to |batch|
        invariant table == old(table) && markers == old(markers)
        invariant forall st :: st in batch[..i] ==> Accepted(st)
        invariant ExecuteAll(t, batch[i..]) == ExecuteAll(table, batch)
      {
        if * {
          return Transient;
        }
        if !Accepted(batch[i]) {
          assert batch[i] in Plan(rows);
          return Poison;
        }
        assert batch[i..][1..] == batch[i + 1..];
        t := Execute(t, batch[i]);
      }
      if * {
        return Transient;
      }
      assert batch[..|batch|] == batch;
      BatchMeansFold(table, rows);
      table, markers := t, Moved(markers, consumer, m);
      if * {
        return Transient;
      }
      return BatchCommitted;
    }

    /** Each row under its own savepoint: a refused row is rolled back and set aside. */
    method ApplyRowByRow(rows: seq<Row>, consumer: string, m: Marker) returns (result: Outcome)
      modifies this
      ensures result.Written? ==> table == Fold(old(table), rows) && result.rejections == Refused(rows) &&
                                  markers == Moved(old(markers), consumer, m)
      ensures result.Failed? ==>
                || (table == old(table) && markers == old(markers))
                || (table == Fold(old(table), rows) && markers == Moved(old(markers), consumer, m))
    {
      var tx := table;
      var rejections := [];
      for i := 0 to |rows|
        invariant table == old(table) && markers == old(markers)
        invariant tx == Fold(table, rows[..i]) && rejections == Refused(rows[..i])
      {
        if * {
          return Failed;
        }
        assert rows[..i + 1][..i] == rows[..i];
        var savepoint := tx;
        tx := ApplyRow(tx, rows[i]);
        if rows[i].refused {
          tx := savepoint;
          rejections := rejections + [rows[i]];
        }
      }
      if * {
        return Failed;
      }
      assert rows[..|rows|] == rows;
      table, markers := tx, Moved(markers, consumer, m);
      if * {
        return Failed;
      }
      return Written(rejections);
    }

    /** A page in one transaction. Whatever the path, what is written is the fold over exactly the
        rows the schema accepts; a failure writes that or nothing, and poison under strict nothing. */
    method ApplyOne(rows: seq<Row>, consumer: string, m: Marker) returns (result: Outcome)
      modifies this
      ensures result.Written? ==>
                table == Fold(old(table), Landed(rows)) && markers == Moved(old(markers), consumer, m) &&
                result.rejections == Rejections(rows)
      ensures result.Failed? ==>
                || (table == old(table) && markers == old(markers))
                || (table == Fold(old(table), Landed(rows)) && markers == Moved(old(markers), consumer, m))
      ensures strict && Poisoned(rows) ==> result.Failed? && table == old(table) && markers == old(markers)
    {
      FoldLanded(table, rows);
      var batch := ApplyBatch(rows, consumer, m);
      if batch.BatchCommitted? {
        return Written([]);
      }
      if batch.Transient? || strict {
        return Failed;
      }
      result := ApplyRowByRow(rows, consumer, m);
    }

    /** A page over several connections, one transaction per share in any order, and the marker in
        its own once every share committed. A failed page leaves the whole of some signals' rows, and the
        marker where it was unless only the marker's own answer was lost. */
    method ApplyPartitioned(rows: seq<Row>, consumer: string, m: Marker) returns (result: Outcome)
      requires writers > 0
      modifies this
      ensures result.Written? ==>
                table == Fold(old(table), rows) && markers == Moved(old(markers), consumer, m) &&
                result.rejections == RejectionsByShare(rows, writers, writers)
      ensures result.Failed? ==>
                && (|| markers == old(markers)
                    || (markers == Moved(old(markers), consumer, m) && table == Fold(old(table), rows)))
                && forall signal :: View(table, signal) == View(old(table), signal) ||
                                    View(table, signal) == View(Fold(old(table), rows), signal)
    {
      hide OfSignal, Fold, View, Share, PartitionOf, Rejections;
      var shares := SplitRows(rows, writers, seq(writers, i => -1));
      var left := Below(writers);
      var failed, rejected := false, seq(writers, i => []);
      ghost var done: seq<Row> := [];
      NoRowsYet(table);
      while left != {}
        invariant markers == old(markers) && left <= Below(writers) && |rejected| == writers
        invariant table == Fold(old(table), done)
        invariant forall signal ::
                    OfSignal(done, signal) == OfSignal(rows, signal) ||
                    (OfSignal(done, signal) == [] && (failed || PartitionOf(signal, writers) in left))
        invariant forall signal :: PartitionOf(signal, writers) in left ==> OfSignal(done, signal) == []
        invariant !failed ==> forall i :: 0 <= i < writers && i !in left ==> rejected[i] == Rejections(shares[i])
        decreases left
      {
        var i :| i in left;
        left := left - {i};
        if shares[i] == [] {
          forall signal ensures PartitionOf(signal, writers) == i ==> OfSignal(rows, signal) == [] {
            ShareOfSignal(rows, writers, i, signal);
          }
          NothingRejected();
          rejected := rejected[i := []];
        } else {
          var r := ApplyOne(shares[i], "", m);
          if r.Failed? {
            failed := true;
          } else {
            rejected := rejected[i := r.rejections];
          }
          if table != Fold(old(table), done) || r.Written? {
            FoldLanded(Fold(old(table), done), shares[i]);
            FoldConcat(old(table), done, shares[i]);
            forall signal ensures OfSignal(done + shares[i], signal) ==
                                  if PartitionOf(signal, writers) == i then OfSignal(rows, signal)
                                  else OfSignal(done, signal) {
              ShareOfSignal(rows, writers, i, signal);
              OfSignalConcat(done, shares[i], signal);
            }
            done := done + shares[i];
          }
        }
      }
      if !failed {
        assert SameBySignal(done, rows);
        InterleavingIrrelevant(old(table), done, rows);
      }
      forall signal ensures View(table, signal) == View(old(table), signal) ||
                            View(table, signal) == View(Fold(old(table), rows), signal) {
        FoldInView(old(table), done, signal);
        FoldInView(old(table), rows, signal);
      }
      if failed {
        return Failed;
      }
      var rejections := Joined(rows, rejected);
      if * {
        return Failed;
      }
      markers := Moved(markers, consumer, m);
      if * {
        return Failed;
      }
      return Written(rejections);
    }

    /** The rejections of all shares, in the order of the shares. */
    method Joined(rows: seq<Row>, rejected: seq<seq<Row>>) returns (rejections: seq<Row>)
      requires |rejected| == writers && writers > 0
      requires forall i :: 0 <= i < writers ==> rejected[i] == Rejections(Share(rows, writers, i, -1))
      ensures rejections == RejectionsByShare(rows, writers, writers)
    {
      rejections := [];
      for i := 0 to writers
        invariant rejections == RejectionsByShare(rows, writers, i)
      {
        rejections := rejections + rejected[i];
      }
    }

    /** Apply picks the partitioned path for a page large enough. */
    method Apply(rows: seq<Row>, consumer: string, m: Marker) returns (result: Outcome)
      modifies this
      ensures result.Written? ==>
                table == Fold(old(table), Landed(rows)) && markers == Moved(old(markers), consumer, m) &&
                result.rejections == if writers > 1 && !strict && |rows| >= 2 * writers
                                     then RejectionsByShare(rows, writers, writers) else Rejections(rows)
      ensures result.Failed? ==>
                && (|| markers == old(markers)
                    || (markers == Moved(old(markers), consumer, m) && table == Fold(old(table), Landed(rows))))
                && forall signal :: View(table, signal) == View(old(table), signal) ||
                                    View(table, signal) == View(Fold(old(table), Landed(rows)), signal)
    {
      FoldLanded(table, rows);
      if writers > 1 && !strict && |rows| >= 2 * writers {
        result := ApplyPartitioned(rows, consumer, m);
      } else {
        result := ApplyOne(rows, consumer, m);
      }
    }
  }

  lemma {:induction false} NothingRejected()
    ensures Rejections([]) == []
  {
  }
}
