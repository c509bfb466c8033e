/**
 The node's metrics stream as the historian reads it: the record at offset k is the k-th of
 its store, and decodes to a row or to nothing (a gap, a tombstone, another contract's record).
 */
module StreamLog {
  import opened Basics
  import opened MetricTable
  import opened Partition

  type Log = seq<Option<Row>>

  predicate RowAt(log: Log, k: nat) {
    1 <= k <= |log| && log[k - 1].Some?
  }

  /** The row at offset k, which carries its offset. */
  function TheRow(log: Log, k: nat): Row
    requires RowAt(log, k)
  {
    log[k - 1].value.(offset := k)
  }

  /** The rows at offsets in (lo, hi], in stream order. */
  function Rows(log: Log, lo: nat, hi: nat): (r: seq<Row>)
    requires hi <= |log|
    ensures forall row :: row in r ==> lo < row.offset <= hi
  {
    if hi <= lo then []
    else if RowAt(log, hi) then Rows(log, lo, hi - 1) + [TheRow(log, hi)]
    else Rows(log, lo, hi - 1)
  }

  predicate InPart(log: Log, n: nat, i: nat, k: nat)
    requires n > 0
  {
    RowAt(log, k) && PartitionOf(log[k - 1].value.signal, n) == i
  }

  /** Partition i of n's rows at offsets in (lo, hi], in stream order. */
  function PartRows(log: Log, n: nat, i: nat, lo: nat, hi: nat): (r: seq<Row>)
    requires n > 0 && hi <= |log|
  {
    if hi <= lo then []
    else if InPart(log, n, i, hi) then PartRows(log, n, i, lo, hi - 1) + [TheRow(log, hi)]
    else PartRows(log, n, i, lo, hi - 1)
  }

  /** The rows of a fetched page that are above the applied marker. */
  method RowsOf(log: Log, first: nat, last: nat, applied: nat) returns (rows: seq<Row>)
    requires 1 <= first <= last <= |log|
    ensures rows == Rows(log, Max(first - 1, applied), last)
  {
    rows := [];
    for k := first to last + 1
      invariant rows == Rows(log, Max(first - 1, applied), k - 1)
    {
      if k > applied && log[k - 1].Some? {
        rows := rows + [log[k - 1].value.(offset := k)];
      }
    }
  }

  lemma {:induction false} PartSplit(log: Log, n: nat, i: nat, lo: nat, mid: nat, hi: nat)
    requires n > 0 && lo <= mid <= hi <= |log|
    ensures PartRows(log, n, i, lo, hi) == PartRows(log, n, i, lo, mid) + PartRows(log, n, i, mid, hi)
  {
    if mid < hi {
      PartSplit(log, n, i, lo, mid, hi - 1);
    }
  }

  /** A dispatched share is the partition's part of the log past its marker. */
  lemma {:induction false} ShareIsPart(log: Log, n: nat, i: nat, lo: nat, hi: nat, floor: nat)
    requires n > 0 && hi <= |log|
    ensures Share(Rows(log, lo, hi), n, i, floor) == PartRows(log, n, i, Max(lo, floor), hi)
  {
    if hi <= lo {
      assert Rows(log, lo, hi) == [];
    } else if hi <= floor {
      NoneAbove(Rows(log, lo, hi), n, i, floor);
    } else {
      ShareIsPart(log, n, i, lo, hi - 1, floor);
      ShareStep(log, n, i, lo, hi, floor);
    }
  }

  lemma {:induction false} ShareStep(log: Log, n: nat, i: nat, lo: nat, hi: nat, floor: nat)
    requires n > 0 && lo < hi <= |log| && floor < hi
    ensures Share(Rows(log, lo, hi), n, i, floor) ==
            if InPart(log, n, i, hi) then Share(Rows(log, lo, hi - 1), n, i, floor) + [TheRow(log, hi)]
            else Share(Rows(log, lo, hi - 1), n, i, floor)
  {
    if RowAt(log, hi) {
      ShareAppend(Rows(log, lo, hi - 1), TheRow(log, hi), n, i, floor);
    }
  }

  lemma {:induction false} NoneAbove(rows: seq<Row>, n: nat, i: nat, floor: nat)
    requires n > 0 && forall row :: row in rows ==> row.offset <= floor
    ensures Share(rows, n, i, floor) == []
  {
    if rows != [] {
      NoneAbove(rows[..|rows| - 1], n, i, floor);
    }
  }

  /** Appending to the stream changes no offset already there. */
  lemma {:induction false} PartExtend(log: Log, more: Log, n: nat, i: nat, lo: nat, hi: nat)
    requires n > 0 && hi <= |log| && log <= more
    ensures PartRows(more, n, i, lo, hi) == PartRows(log, n, i, lo, hi)
  {
    if lo < hi {
      PartExtend(log, more, n, i, lo, hi - 1);
    }
  }

  lemma {:induction false} RowsExtend(log: Log, more: Log, lo: nat, hi: nat)
    requires hi <= |log| && log <= more
    ensures Rows(more, lo, hi) == Rows(log, lo, hi)
  {
    if lo < hi {
      RowsExtend(log, more, lo, hi - 1);
    }
  }

  lemma {:induction false} PartHas(log: Log, n: nat, i: nat, lo: nat, hi: nat, k: nat)
    requires n > 0 && hi <= |log| && lo < k <= hi && InPart(log, n, i, k)
    ensures TheRow(log, k) in PartRows(log, n, i, lo, hi)
  {
    if k < hi {
      PartHas(log, n, i, lo, hi - 1, k);
    }
  }

  lemma {:induction false} RowsHas(log: Log, lo: nat, hi: nat, k: nat)
    requires hi <= |log| && lo < k <= hi && RowAt(log, k)
    ensures TheRow(log, k) in Rows(log, lo, hi)
  {
    if k < hi {
      RowsHas(log, lo, hi - 1, k);
    }
  }

  /** The rows of a signal, taken from the whole stream or from its partition alone. */
  lemma {:induction false} SignalInPart(log: Log, n: nat, hi: nat, signal: Signal)
    requires n > 0 && hi <= |log|
    ensures OfSignal(PartRows(log, n, PartitionOf(signal, n), 0, hi), signal) == OfSignal(Rows(log, 0, hi), signal)
  {
    if hi > 0 {
      SignalInPart(log, n, hi - 1, signal);
      var i := PartitionOf(signal, n);
      if RowAt(log, hi) {
        OfSignalAppend(Rows(log, 0, hi - 1), TheRow(log, hi), signal);
        OfSignalAppend(PartRows(log, n, i, 0, hi - 1), TheRow(log, hi), signal);
      }
    }
  }

  /** Nothing lies between two positions with the same rows below them. */
  lemma {:induction false} PartSandwich(log: Log, n: nat, i: nat, a: nat, z: nat, b: nat)
    requires n > 0 && Max(a, b) <= |log| && z <= Max(a, b) && (a <= z || b <= z)
    requires PartRows(log, n, i, 0, a) == PartRows(log, n, i, 0, b)
    ensures PartRows(log, n, i, 0, z) == PartRows(log, n, i, 0, a)
  {
    var lo, hi := if a <= b then a else b, Max(a, b);
    PartSplit(log, n, i, 0, lo, z);
    PartSplit(log, n, i, 0, z, hi);
  }

  /** A partition's rows carry strictly increasing offsets: no row twice. */
  lemma {:induction false} PartIncreasing(log: Log, n: nat, i: nat, lo: nat, hi: nat)
    requires n > 0 && hi <= |log|
    ensures forall row :: row in PartRows(log, n, i, lo, hi) ==> lo < row.offset <= hi
    ensures forall a, b :: 0 <= a < b < |PartRows(log, n, i, lo, hi)| ==>
                             PartRows(log, n, i, lo, hi)[a].offset < PartRows(log, n, i, lo, hi)[b].offset
  {
    if lo < hi {
      PartIncreasing(log, n, i, lo, hi - 1);
    }
  }
}
