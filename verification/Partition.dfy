/**
 A signal's share of the writers: FNV-1a of its id, modulo the writer count.
 */
module Partition {
  import opened MetricTable

  const FNV_OFFSET := 2166136261
  const FNV_PRIME := 16777619
  const WORD := 0x1_0000_0000

  function Xor(a: nat, b: nat): nat
    decreases a + b
  {
    if a == 0 && b == 0 then 0 else (a % 2 + b % 2) % 2 + 2 * Xor(a / 2, b / 2)
  }

  function Fnv(id: Signal): nat {
    if id == [] then FNV_OFFSET
    else Xor(Fnv(id[..|id| - 1]), id[|id| - 1]) * FNV_PRIME % WORD
  }

  function PartitionOf(id: Signal, n: nat): (i: nat)
    requires n > 0
    ensures i < n
  {
    Fnv(id) % n
  }

  method HashPartition(id: Signal, n: nat) returns (i: nat)
    requires n > 0
    ensures i == PartitionOf(id, n)
  {
    var h := FNV_OFFSET;
    for k := 0 to |id|
      invariant h == Fnv(id[..k])
    {
      h := Xor(h, id[k]) * FNV_PRIME % WORD;
      assert id[..k + 1][..k] == id[..k];
    }
    assert id[..|id|] == id;
    i := h % n;
  }

  predicate Shares(row: Row, n: nat, i: nat, floor: int)
    requires n > 0
  {
    PartitionOf(row.signal, n) == i && row.offset > floor
  }

  /** Partition i of n's rows, above its marker, in order. */
  function Share(rows: seq<Row>, n: nat, i: nat, floor: int): (r: seq<Row>)
    requires n > 0
    ensures forall row :: row in r ==> row in rows && Shares(row, n, i, floor)
  {
    if rows == [] then []
    else
      var init, last := Share(rows[..|rows| - 1], n, i, floor), rows[|rows| - 1];
      if Shares(last, n, i, floor) then init + [last] else init
  }

  lemma {:induction false} ShareAppend(rows: seq<Row>, row: Row, n: nat, i: nat, floor: int)
    requires n > 0
    ensures Share(rows + [row], n, i, floor) ==
            if Shares(row, n, i, floor) then Share(rows, n, i, floor) + [row] else Share(rows, n, i, floor)
  {
    assert (rows + [row])[..|rows|] == rows;
  }

  /** The dispatcher's split of a page: one share per writer, each without the rows at or below
      that writer's marker. */
  method SplitRows(rows: seq<Row>, n: nat, floors: seq<int>) returns (shares: seq<seq<Row>>)
    requires n > 0 && |floors| == n
    ensures |shares| == n
    ensures forall i :: 0 <= i < n ==> shares[i] == Share(rows, n, i, floors[i])
  {
    shares := seq(n, i => []);
    for k := 0 to |rows|
      invariant |shares| == n
      invariant forall i :: 0 <= i < n ==> shares[i] == Share(rows[..k], n, i, floors[i])
    {
      assert rows[..k + 1][..k] == rows[..k];
      var i := 0;
      if n > 1 {
        i := HashPartition(rows[k].signal, n);
      }
      if rows[k].offset > floors[i] {
        shares := shares[i := shares[i] + [rows[k]]];
      }
    }
    assert rows[..|rows|] == rows;
  }

  lemma {:induction false} ShareOfSignal(rows: seq<Row>, n: nat, i: nat, signal: Signal)
    requires n > 0
    ensures OfSignal(Share(rows, n, i, -1), signal) ==
            if PartitionOf(signal, n) == i then OfSignal(rows, signal) else []
  {
    if rows != [] {
      var init, last := rows[..|rows| - 1], rows[|rows| - 1];
      ShareOfSignal(init, n, i, signal);
      if Shares(last, n, i, -1) {
        OfSignalAppend(Share(init, n, i, -1), last, signal);
      }
    }
  }
}
