/**
 How long a consumer's oldest unread record has been waiting. A check reads a bounded number of
 records past the cursor and remembers how far it got; the next check goes on from there.
 */
module Watchdog {
  import opened Basics

  const SCAN_CAP: nat := 50_000

  /** A stream as one consumer sees it now: its head, and the records in its view with their timestamps. */
  datatype View = View(head: nat, kept: map<nat, int>)

  /** The stream later: records were appended at the head, and records may have left the view. */
  ghost predicate Later(v: View, w: View) {
    v.head <= w.head && forall o :: o in w.kept && o < v.head ==> o in v.kept && w.kept[o] == v.kept[o]
  }

  /** No record of the view lies in [a, b). */
  ghost predicate Clear(v: View, a: int, b: int) {
    forall o :: a <= o < b ==> o !in v.kept
  }

  /** What reading everything from `from` up to `upTo` finds first. */
  function FullScan(v: View, from: nat, upTo: nat): Option<nat>
    decreases upTo - from
  {
    if from >= upTo then None else if from in v.kept then Some(from) else FullScan(v, from + 1, upTo)
  }

  lemma {:induction false} FullScanIs(v: View, from: nat, upTo: nat, o: nat)
    requires from <= o <= upTo && Clear(v, from, o)
    ensures FullScan(v, from, upTo) == if o < upTo && o in v.kept then Some(o) else FullScan(v, o, upTo)
    decreases upTo - from
  {
    if from < o {
      FullScanIs(v, from + 1, upTo, o);
    }
  }

  /** The first record of the view in [from, upTo). */
  method FirstMatch(v: View, from: nat, upTo: nat) returns (o: Option<nat>)
    ensures o.Some? ==> from <= o.value < upTo && o.value in v.kept && Clear(v, from, o.value)
    ensures o.None? ==> Clear(v, from, upTo)
  {
    var i := from;
    while i < upTo
      invariant from <= i && Clear(v, from, i) && (from <= upTo ==> i <= upTo)
    {
      if i in v.kept {
        return Some(i);
      }
      i := i + 1;
    }
    o := None;
  }

  /** Where a cursor's scan stands. `found` is the oldest unread record's offset and timestamp. */
  datatype CursorState = CursorState(position: nat, gen: nat, scannedTo: nat, found: Option<(nat, int)>)

  /** The scan has passed only records that are not in the view. */
  ghost predicate Scanned(st: CursorState, v: View) {
    && st.position <= st.scannedTo <= v.head && Clear(v, st.position, st.scannedTo)
    && (st.found.Some? ==>
          var (o, ts) := st.found.value;
          st.scannedTo <= o < v.head && Clear(v, st.position, o) && (o in v.kept ==> v.kept[o] == ts))
  }

  lemma {:induction false} ScannedLater(st: CursorState, v: View, w: View)
    requires Scanned(st, v) && Later(v, w)
    ensures Scanned(st, w)
  {
  }

  /** The scan knows the answer of a full scan: it found a record still in the view, or it reached the head. */
  ghost predicate Knows(st: CursorState, v: View) {
    if st.found.Some? then st.found.value.0 in v.kept else st.scannedTo == v.head
  }

  /** What it knows is what reading every record from the cursor finds. */
  lemma {:induction false} KnowsIsFullScan(st: CursorState, v: View)
    requires Scanned(st, v) && Knows(st, v)
    ensures FullScan(v, st.position, v.head) == if st.found.Some? then Some(st.found.value.0) else None
  {
    FullScanIs(v, st.position, v.head, if st.found.Some? then st.found.value.0 else v.head);
  }

  /** What one check makes of the state: it knows, or it has read a whole cap further. */
  ghost predicate Checked(st: CursorState, v: View, after: CursorState) {
    && Scanned(after, v) && after.position == st.position && after.gen == st.gen && st.scannedTo <= after.scannedTo
    && (st.found.Some? && Knows(st, v) ==> after == st)
    && (Knows(after, v) || (after.found.None? && after.scannedTo >= st.scannedTo + SCAN_CAP))
  }

  /** Goes on with a scan: drops a found record that left the view, then reads up to a cap further. */
  method Continue(st: CursorState, v: View, canLook: bool, canRead: bool) returns (after: CursorState, failed: bool)
    requires Scanned(st, v)
    ensures Scanned(after, v) && after.position == st.position && after.gen == st.gen
    ensures canLook && canRead ==> !failed && Checked(st, v, after)
    ensures failed ==> !canRead && after.found.None?
    ensures !failed ==> canRead || after.found.Some? || after.scannedTo == v.head
  {
    after, failed := st, false;
    if st.found.Some? && canLook {
      var at := st.found.value.0;
      var still := FirstMatch(v, at, at + 1);
      if still.None? {
        after := st.(found := None, scannedTo := at + 1);
      }
    }
    if after.found.None? && after.scannedTo < v.head {
      if !canRead {
        failed := true;
        return;
      }
      var upTo := Min(v.head, after.scannedTo + SCAN_CAP);
      var rec := FirstMatch(v, after.scannedTo, upTo);
      after := if rec.Some? then after.(found := Some((rec.value, v.kept[rec.value]))) else after.(scannedTo := upTo);
    }
  }

  type Key = (string, string)

  class Checks {
    var cursors: map<Key, CursorState>
    var retry: bool
    /** The stream as each cursor's last check saw it. */
    ghost var views: map<Key, View>

    ghost predicate Valid()
      reads this
    {
      forall k :: k in cursors ==> k in views && Scanned(cursors[k], views[k])
    }

    constructor ()
      ensures Valid() && cursors == map[] && !retry
    {
      cursors, retry, views := map[], false, map[];
    }

    /** The state a check of the cursor starts from. */
    function Before(k: Key, position: nat, gen: nat): CursorState
      reads this`cursors
    {
      if k in cursors && cursors[k].position == position && cursors[k].gen == gen then cursors[k]
      else CursorState(position, gen, position, None)
    }

    /** The stream is the one the scan goes on with, later. */
    ghost predicate Follows(k: Key, position: nat, gen: nat, v: View)
      requires Valid()
      reads this
    {
      k in cursors && cursors[k].position == position && cursors[k].gen == gen ==> Later(views[k], v)
    }

    /**
     The age and the offset of the oldest unread record, 0 and 0 when there is none or the scan has
     not found it yet. `canLook` and `canRead` say whether the two reads of the stream succeed.
     */
    method UnreadAge(k: Key, position: nat, lwm: nat, gen: nat, v: View, now: int, canLook: bool, canRead: bool)
      returns (age: nat, offset: nat)
      requires Valid() && Follows(k, Max(position, lwm), gen, v)
      modifies this
      ensures Valid() && cursors - {k} == old(cursors) - {k}
      ensures v.head <= Max(position, lwm) ==> k !in cursors && age == 0 && offset == 0 && retry == old(retry)
      ensures Max(position, lwm) < v.head ==> k in cursors && Scanned(cursors[k], v)
      ensures Max(position, lwm) < v.head && canLook && canRead ==>
                && Checked(old(Before(k, Max(position, lwm), gen)), v, cursors[k])
                && retry == old(retry)
                && offset == (if cursors[k].found.Some? then cursors[k].found.value.0 else 0)
                && age == (if cursors[k].found.Some? then Max(0, now - cursors[k].found.value.1) else 0)
      ensures Max(position, lwm) < v.head && !canRead && !retry ==>
                cursors[k].found.Some? || cursors[k].scannedTo == v.head
    {
      var pos := Max(position, lwm);
      if pos >= v.head {
        cursors := cursors - {k};
        return 0, 0;
      }
      var st := Before(k, pos, gen);
      if k in cursors && cursors[k].position == pos && cursors[k].gen == gen {
        ScannedLater(st, views[k], v);
      }
      views := views[k := v];
      var failed;
      st, failed := Continue(st, v, canLook, canRead);
      cursors := cursors[k := st];
      if failed {
        retry := true;
        return 0, 0;
      }
      if st.found.None? {
        return 0, 0;
      }
      age, offset := Max(0, now - st.found.value.1), st.found.value.0;
    }
  }

  // ---------------------------------------------------------------- over many checks

  /** A cursor's states over checks of a stream that grows and whose records may leave the view. */
  ghost predicate CheckedOver(sts: seq<CursorState>, vs: seq<View>) {
    && |sts| == |vs| + 1
    && (forall i :: 0 <= i < |vs| ==> Checked(sts[i], vs[i], sts[i + 1]))
    && (forall i, j :: 0 <= i < j < |vs| ==> Later(vs[i], vs[j]))
  }

  lemma {:induction false} SamePosition(sts: seq<CursorState>, vs: seq<View>, i: nat)
    requires CheckedOver(sts, vs) && i <= |vs|
    ensures sts[i].position == sts[0].position
  {
    if i > 0 {
      SamePosition(sts, vs, i - 1);
      assert Checked(sts[i - 1], vs[i - 1], sts[i]);
    }
  }

  /** After any check of a growing stream, what the scan knows is what reading everything would find. */
  lemma {:induction false} ChecksAgree(sts: seq<CursorState>, vs: seq<View>, i: nat)
    requires CheckedOver(sts, vs) && i < |vs| && Knows(sts[i + 1], vs[i])
    ensures FullScan(vs[i], sts[0].position, vs[i].head) ==
            if sts[i + 1].found.Some? then Some(sts[i + 1].found.value.0) else None
    ensures i + 1 < |vs| ==> Scanned(sts[i + 1], vs[i + 1])
  {
    SamePosition(sts, vs, i + 1);
    assert Checked(sts[i], vs[i], sts[i + 1]);
    KnowsIsFullScan(sts[i + 1], vs[i]);
    if i + 1 < |vs| {
      ScannedLater(sts[i + 1], vs[i], vs[i + 1]);
    }
  }

  /** On a still stream the scan knows after as many checks as caps fit between the cursor and the head, rounded up. */
  lemma {:induction false} KnowsInTime(sts: seq<CursorState>, vs: seq<View>, v: View)
    requires CheckedOver(sts, vs) && |vs| > 0 && forall i :: 0 <= i < |vs| ==> vs[i] == v
    requires sts[0].found.None? && sts[0].scannedTo == sts[0].position < v.head
    requires |vs| >= (v.head - sts[0].position + SCAN_CAP - 1) / SCAN_CAP
    ensures Knows(sts[|vs|], v)
    ensures FullScan(v, sts[0].position, v.head) == if sts[|vs|].found.Some? then Some(sts[|vs|].found.value.0)
            else None
  {
    ReachesFar(sts, vs, v);
    var n := |vs|;
    assert sts[n].position == sts[0].position && Scanned(sts[n], v);
    KnowsIsFullScan(sts[n], v);
  }

  lemma {:induction false} ReachesFar(sts: seq<CursorState>, vs: seq<View>, v: View)
    requires CheckedOver(sts, vs) && |vs| > 0 && forall i :: 0 <= i < |vs| ==> vs[i] == v
    ensures sts[|vs|].position == sts[0].position && Scanned(sts[|vs|], v)
    ensures Knows(sts[|vs|], v) || sts[|vs|].scannedTo >= sts[0].scannedTo + |vs| * SCAN_CAP
    decreases |vs|
  {
    var n := |vs|;
    assert Checked(sts[n - 1], v, sts[n]);
    if n > 1 {
      ReachesFar(sts[..n], vs[..n - 1], v);
    }
  }
}
