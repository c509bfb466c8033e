/**
 The index of signal definitions: which signals are historised. It is filled from a snapshot of the
 node's records and from the stream, which may repeat and overtake each other. A topic holds the
 newest record applied to it; a signal's flag comes from the newest record that names the signal.
 */
module SignalIndex {
  import opened Basics

  /** What a record says: nothing (retired, or undecodable), or a signal's id and whether it is historised. */
  datatype Definition = Nothing | Names(id: string, logged: bool)

  datatype Record = Record(topic: string, offset: nat, def: Definition)

  datatype Entry = Entry(offset: nat, def: Definition)

  datatype Flag = Flag(topic: string, offset: nat, logged: bool)

  datatype Index = Index(byTopic: map<string, Entry>, byID: map<string, Flag>)

  const EMPTY := Index(map[], map[])

  /** The flags without the one the topic's current record gave. */
  function Withdrawn(ix: Index, topic: string): map<string, Flag> {
    if topic in ix.byTopic && ix.byTopic[topic].def.Names? &&
       ix.byTopic[topic].def.id in ix.byID && ix.byID[ix.byTopic[topic].def.id].topic == topic
    then ix.byID - {ix.byTopic[topic].def.id}
    else ix.byID
  }

  function Apply(ix: Index, r: Record): Index {
    if r.topic in ix.byTopic && ix.byTopic[r.topic].offset >= r.offset then ix
    else
      var flags := Withdrawn(ix, r.topic);
      var topics := ix.byTopic[r.topic := Entry(r.offset, r.def)];
      if r.def.Nothing? || (r.def.id in flags && flags[r.def.id].topic != r.topic && flags[r.def.id].offset > r.offset)
      then Index(topics, flags)
      else Index(topics, flags[r.def.id := Flag(r.topic, r.offset, r.def.logged)])
  }

  function ApplyAll(ix: Index, rs: seq<Record>): Index {
    if rs == [] then ix else Apply(ApplyAll(ix, rs[..|rs| - 1]), rs[|rs| - 1])
  }

  // ---------------------------------------------------------------- what holds for every order

  /** Every flag is the live entry of its topic. */
  ghost predicate FlagsLive(ix: Index) {
    forall id :: id in ix.byID ==>
      var f := ix.byID[id];
      f.topic in ix.byTopic && ix.byTopic[f.topic] == Entry(f.offset, Names(id, f.logged))
  }

  /** Records of one stream: an offset is one record. */
  ghost predicate OneStream(rs: seq<Record>) {
    forall r, s :: r in rs && s in rs && r.offset == s.offset ==> r == s
  }

  /** Every topic holds the newest record applied to it. */
  ghost predicate TopicsNewest(ix: Index, rs: seq<Record>) {
    && (forall t :: t in ix.byTopic ==> Record(t, ix.byTopic[t].offset, ix.byTopic[t].def) in rs)
    && (forall r :: r in rs ==> r.topic in ix.byTopic && ix.byTopic[r.topic].offset >= r.offset)
  }

  predicate NamesIt(r: Record, id: string) {
    r.def.Names? && r.def.id == id
  }

  /** m is the newest of the records that names the signal. */
  ghost predicate NewestNaming(rs: seq<Record>, id: string, m: Record) {
    m in rs && NamesIt(m, id) && forall r :: r in rs && NamesIt(r, id) ==> r.offset <= m.offset
  }

  predicate HeldBy(ix: Index, m: Record) {
    m.topic in ix.byTopic && ix.byTopic[m.topic].offset == m.offset
  }

  predicate Flagged(ix: Index, m: Record) {
    m.def.Names? && m.def.id in ix.byID && ix.byID[m.def.id] == Flag(m.topic, m.offset, m.def.logged)
  }

  /** The flag is the newest naming record's whenever its topic still holds that record. */
  ghost predicate FlagsNewest(ix: Index, rs: seq<Record>) {
    forall m, id :: NewestNaming(rs, id, m) && HeldBy(ix, m) ==> Flagged(ix, m)
  }

  ghost predicate Right(ix: Index, rs: seq<Record>) {
    FlagsLive(ix) && TopicsNewest(ix, rs) && FlagsNewest(ix, rs)
  }

  lemma {:induction false} ApplyFlagsLive(ix: Index, r: Record)
    requires FlagsLive(ix)
    ensures FlagsLive(Apply(ix, r))
  {
  }

  lemma {:induction false} ApplyTopicsNewest(ix: Index, rs: seq<Record>, r: Record)
    requires TopicsNewest(ix, rs)
    ensures TopicsNewest(Apply(ix, r), rs + [r])
  {
  }

  /** A record already superseded at its topic changes no flag that matters. */
  lemma {:induction false} ApplyOld(ix: Index, rs: seq<Record>, r: Record, id: string, m: Record)
    requires Right(ix, rs) && OneStream(rs + [r])
    requires r.topic in ix.byTopic && ix.byTopic[r.topic].offset >= r.offset
    requires NewestNaming(rs + [r], id, m) && HeldBy(ix, m)
    ensures Flagged(ix, m)
  {
    var held := Record(m.topic, ix.byTopic[m.topic].offset, ix.byTopic[m.topic].def);
    assert held in rs && m in rs + [r] && held in rs + [r];
    assert held == m;
    assert forall s :: s in rs ==> s in rs + [r];
    assert NewestNaming(rs, id, m);
  }

  /** A signal the new record does not name keeps its flag. */
  lemma {:induction false} ApplyOther(ix: Index, rs: seq<Record>, r: Record, id: string, m: Record)
    requires Right(ix, rs)
    requires !(r.topic in ix.byTopic && ix.byTopic[r.topic].offset >= r.offset)
    requires m != r && m.topic != r.topic && NewestNaming(rs, id, m) && HeldBy(ix, m)
    requires NamesIt(r, id) ==> r.offset < m.offset
    ensures Flagged(Apply(ix, r), m)
  {
    assert Flagged(ix, m);
  }

  /** The newest naming record sets its signal's flag. */
  lemma {:induction false} ApplyNewest(ix: Index, rs: seq<Record>, r: Record)
    requires FlagsLive(ix) && TopicsNewest(ix, rs) && r.def.Names?
    requires !(r.topic in ix.byTopic && ix.byTopic[r.topic].offset >= r.offset)
    requires forall s :: s in rs && NamesIt(s, r.def.id) ==> s.offset <= r.offset
    ensures Flagged(Apply(ix, r), r)
  {
    var flags := Withdrawn(ix, r.topic);
    if r.def.id in flags {
      var f := ix.byID[r.def.id];
      assert Record(f.topic, f.offset, Names(r.def.id, f.logged)) in rs;
      assert NamesIt(Record(f.topic, f.offset, Names(r.def.id, f.logged)), r.def.id);
    }
  }

  lemma {:induction false} ApplyRight(ix: Index, rs: seq<Record>, r: Record)
    requires Right(ix, rs) && OneStream(rs + [r])
    ensures Right(Apply(ix, r), rs + [r])
  {
    ApplyFlagsLive(ix, r);
    ApplyTopicsNewest(ix, rs, r);
    var after := Apply(ix, r);
    forall m, id | NewestNaming(rs + [r], id, m) && HeldBy(after, m) ensures Flagged(after, m) {
      ApplyFlag(ix, rs, r, id, m);
    }
  }

  lemma {:induction false} ApplyFlag(ix: Index, rs: seq<Record>, r: Record, id: string, m: Record)
    requires Right(ix, rs) && OneStream(rs + [r])
    requires NewestNaming(rs + [r], id, m) && HeldBy(Apply(ix, r), m)
    ensures Flagged(Apply(ix, r), m)
  {
    assert r in rs + [r] && forall s :: s in rs ==> s in rs + [r];
    if r.topic in ix.byTopic && ix.byTopic[r.topic].offset >= r.offset {
      ApplyOld(ix, rs, r, id, m);
    } else if m.topic == r.topic {
      assert m == r;
      ApplyNewest(ix, rs, r);
    } else {
      assert m in rs;
      ApplyOther(ix, rs, r, id, m);
    }
  }

  /** For every order and repetition of the records of one stream, the index is right. */
  lemma {:induction false} IndexRight(rs: seq<Record>)
    requires OneStream(rs)
    ensures Right(ApplyAll(EMPTY, rs), rs)
  {
    if rs != [] {
      var earlier := rs[..|rs| - 1];
      assert rs == earlier + [rs[|rs| - 1]];
      assert forall r :: r in earlier ==> r in rs;
      IndexRight(earlier);
      ApplyRight(ApplyAll(EMPTY, earlier), earlier, rs[|rs| - 1]);
    }
  }

  // ---------------------------------------------------------------- when the order matters

  /** The newest record of its topic among the records. */
  ghost predicate NewestOfTopic(rs: seq<Record>, m: Record) {
    m in rs && forall r :: r in rs && r.topic == m.topic ==> r.offset <= m.offset
  }

  /** A stream: offsets grow. */
  ghost predicate Growing(log: seq<Record>) {
    forall i, j :: 0 <= i < j < |log| ==> log[i].offset < log[j].offset
  }

  ghost predicate SameRecords(p: seq<Record>, rs: seq<Record>) {
    forall r :: r in p <==> r in rs
  }

  predicate SameFlag(a: Index, b: Index, id: string) {
    (id in a.byID <==> id in b.byID) && (id in a.byID && id in b.byID ==> a.byID[id] == b.byID[id])
  }

  /** The signal's flag is the same in whatever order, and however often, the records are applied. */
  ghost predicate OrderFree(rs: seq<Record>, id: string) {
    forall p, q :: SameRecords(p, rs) && SameRecords(q, rs) ==> SameFlag(ApplyAll(EMPTY, p), ApplyAll(EMPTY, q), id)
  }

  /** The newest record naming the signal is still what its topic holds. */
  ghost predicate NewestIsHeld(rs: seq<Record>, id: string) {
    exists m :: NewestNaming(rs, id, m) && NewestOfTopic(rs, m)
  }

  /** No topic holds a record naming the signal. */
  ghost predicate NoneIsHeld(rs: seq<Record>, id: string) {
    forall m :: NewestOfTopic(rs, m) ==> !NamesIt(m, id)
  }

  /** What a topic holds is its newest record. */
  lemma {:induction false} HoldsNewest(rs: seq<Record>, m: Record)
    requires OneStream(rs) && NewestOfTopic(rs, m)
    ensures var ix := ApplyAll(EMPTY, rs);
            m.topic in ix.byTopic && ix.byTopic[m.topic] == Entry(m.offset, m.def)
  {
    IndexRight(rs);
    var ix := ApplyAll(EMPTY, rs);
    assert Record(m.topic, ix.byTopic[m.topic].offset, ix.byTopic[m.topic].def) in rs;
  }

  /** A flag is the record of its topic, the topic's newest. */
  lemma {:induction false} FlagIsHeld(rs: seq<Record>, id: string)
    requires OneStream(rs) && id in ApplyAll(EMPTY, rs).byID
    ensures var f := ApplyAll(EMPTY, rs).byID[id];
            NewestOfTopic(rs, Record(f.topic, f.offset, Names(id, f.logged)))
  {
    IndexRight(rs);
  }

  /** A record that does not name the signal can only take its flag away. */
  lemma {:induction false} FlagOnlyLeaves(ix: Index, rs: seq<Record>, id: string)
    requires forall r :: r in rs ==> !NamesIt(r, id)
    ensures id in ApplyAll(ix, rs).byID ==> id in ix.byID && ApplyAll(ix, rs).byID[id] == ix.byID[id]
  {
    if rs != [] {
      var init := rs[..|rs| - 1];
      assert forall r :: r in init ==> r in rs;
      assert rs[|rs| - 1] in rs;
      FlagOnlyLeaves(ix, init, id);
    }
  }

  lemma {:induction false} ApplyAllConcat(ix: Index, a: seq<Record>, b: seq<Record>)
    ensures ApplyAll(ix, a + b) == ApplyAll(ApplyAll(ix, a), b)
  {
    if b == [] {
      assert a + b == a;
    } else {
      assert (a + b)[..|a + b| - 1] == a + b[..|b| - 1];
      ApplyAllConcat(ix, a, b[..|b| - 1]);
    }
  }

  lemma {:induction false} LastRecord(rs: set<Record>) returns (m: Record)
    requires rs != {}
    ensures m in rs && forall r :: r in rs ==> r.offset <= m.offset
  {
    m :| m in rs;
    if rs != {m} {
      var rest := LastRecord(rs - {m});
      assert forall r :: r in rs ==> r == m || r in rs - {m};
      m := if rest.offset < m.offset then m else rest;
    }
  }

  /** The records of one stream in stream order. */
  lemma {:induction false} InOrder(rs: set<Record>) returns (p: seq<Record>)
    requires forall r, s :: r in rs && s in rs && r.offset == s.offset ==> r == s
    ensures Growing(p) && forall r :: r in p <==> r in rs
    decreases |rs|
  {
    if rs == {} {
      p := [];
    } else {
      var m := LastRecord(rs);
      var q := InOrder(rs - {m});
      p := q + [m];
      assert forall i :: 0 <= i < |q| ==> q[i] in rs - {m};
    }
  }

  lemma {:induction false} GrowingIsOneStream(p: seq<Record>)
    requires Growing(p)
    ensures OneStream(p)
  {
  }

  /** In stream order the newest record naming a signal gives its flag when it is applied. */
  lemma {:induction false} FlaggedOnArrival(p: seq<Record>, k: nat, id: string)
    requires Growing(p) && k < |p| && NewestNaming(p, id, p[k])
    ensures Flagged(ApplyAll(EMPTY, p[..k + 1]), p[k])
  {
    hide ApplyAll, Right;
    var early, m := p[..k + 1], p[k];
    assert early[k] == m && forall r :: r in early ==> r in p;
    assert NewestNaming(early, id, m);
    assert Growing(early) && NewestOfTopic(early, m);
    GrowingIsOneStream(early);
    HeldIsOrderFree(early, id, m, early);
  }

  /** In stream order a signal whose newest definition was superseded at its topic ends without a flag. */
  lemma {:induction false} InOrderLeavesNone(p: seq<Record>, id: string, m: Record)
    requires Growing(p) && NewestNaming(p, id, m) && !NewestOfTopic(p, m)
    ensures id !in ApplyAll(EMPTY, p).byID
  {
    hide ApplyAll, NewestOfTopic;
    var k :| 0 <= k < |p| && p[k] == m;
    var early, late := p[..k + 1], p[k + 1..];
    FlaggedOnArrival(p, k, id);
    forall r | r in late ensures !NamesIt(r, id) {
      var j :| 0 <= j < |late| && late[j] == r;
      assert p[k + 1 + j] == r && r in p;
    }
    FlagOnlyLeaves(ApplyAll(EMPTY, early), late, id);
    ApplyAllConcat(EMPTY, early, late);
    assert p == early + late;
    GrowingIsOneStream(p);
    if id in ApplyAll(EMPTY, p).byID {
      FlagIsHeld(p, id);
      assert false;
    }
  }

  /** Applied last, a record that its topic holds leaves its signal with a flag. */
  lemma {:induction false} LastLeavesOne(rest: seq<Record>, h: Record, id: string)
    requires OneStream(rest + [h]) && NewestOfTopic(rest + [h], h) && h !in rest && NamesIt(h, id)
    ensures id in ApplyAll(EMPTY, rest + [h]).byID
  {
    var all := rest + [h];
    assert all[..|rest|] == rest && forall r :: r in rest ==> r in all;
    IndexRight(rest);
    var ix := ApplyAll(EMPTY, rest);
    if h.topic in ix.byTopic {
      var held := Record(h.topic, ix.byTopic[h.topic].offset, ix.byTopic[h.topic].def);
      assert held in rest && held in all && h in all;
    }
  }

  lemma {:induction false} NewestNamingExists(rs: seq<Record>, id: string, h: Record) returns (m: Record)
    requires h in rs && NamesIt(h, id)
    ensures NewestNaming(rs, id, m)
  {
    var naming := set r | r in rs && NamesIt(r, id);
    assert h in naming;
    m := LastRecord(naming);
  }

  /** Two orders of the records that end differently. */
  lemma {:induction false} TwoOrders(rs: seq<Record>, id: string) returns (p: seq<Record>, q: seq<Record>)
    requires OneStream(rs) && !NewestIsHeld(rs, id) && !NoneIsHeld(rs, id)
    ensures SameRecords(p, rs) && SameRecords(q, rs)
    ensures id !in ApplyAll(EMPTY, p).byID && id in ApplyAll(EMPTY, q).byID
  {
    var h :| NewestOfTopic(rs, h) && NamesIt(h, id);
    var m := NewestNamingExists(rs, id, h);
    assert !NewestOfTopic(rs, m);
    var records := set r | r in rs;
    p := InOrder(records);
    InOrderLeavesNone(p, id, m);
    var rest := InOrder(records - {h});
    q := rest + [h];
    LastLeavesOne(rest, h, id);
  }

  lemma {:induction false} NoneHeldNoFlag(rs: seq<Record>, id: string, p: seq<Record>)
    requires OneStream(rs) && NoneIsHeld(rs, id) && SameRecords(p, rs)
    ensures id !in ApplyAll(EMPTY, p).byID
  {
    if id in ApplyAll(EMPTY, p).byID {
      FlagIsHeld(p, id);
      var f := ApplyAll(EMPTY, p).byID[id];
      assert NewestOfTopic(rs, Record(f.topic, f.offset, Names(id, f.logged)));
      assert false;
    }
  }

  lemma {:induction false} HeldIsOrderFree(rs: seq<Record>, id: string, m: Record, p: seq<Record>)
    requires OneStream(rs) && NewestNaming(rs, id, m) && NewestOfTopic(rs, m) && SameRecords(p, rs)
    ensures Flagged(ApplyAll(EMPTY, p), m)
  {
    IndexRight(p);
    HoldsNewest(p, m);
    assert NewestNaming(p, id, m);
  }

  /** For every set of one stream's records: a signal's flag does not depend on their order if and only if the
      newest record naming it is still what its topic holds, or no topic holds a record naming it. */
  lemma {:induction false} OrderFreeExactly(rs: seq<Record>, id: string)
    requires OneStream(rs)
    ensures OrderFree(rs, id) <==> NewestIsHeld(rs, id) || NoneIsHeld(rs, id)
  {
    if NewestIsHeld(rs, id) {
      var m :| NewestNaming(rs, id, m) && NewestOfTopic(rs, m);
      forall p, q | SameRecords(p, rs) && SameRecords(q, rs)
        ensures SameFlag(ApplyAll(EMPTY, p), ApplyAll(EMPTY, q), id)
      {
        HeldIsOrderFree(rs, id, m, p);
        HeldIsOrderFree(rs, id, m, q);
      }
    } else if NoneIsHeld(rs, id) {
      forall p | SameRecords(p, rs) ensures id !in ApplyAll(EMPTY, p).byID {
        NoneHeldNoFlag(rs, id, p);
      }
    } else {
      var p, q := TwoOrders(rs, id);
      assert !SameFlag(ApplyAll(EMPTY, p), ApplyAll(EMPTY, q), id);
    }
  }

  // ---------------------------------------------------------------- the snapshot races the stream

  /** What a snapshot taken at `at` may hold: newest records of their topics up to then, and at least those that name
      a signal. */
  ghost predicate SnapshotOf(log: seq<Record>, at: nat, snapshot: seq<Record>)
    requires at <= |log|
  {
    && (forall r :: r in snapshot ==> NewestOfTopic(log[..at], r))
    && (forall r :: NewestOfTopic(log[..at], r) && r.def.Names? ==> r in snapshot)
  }

  /**
   A snapshot taken at any moment after the head was captured, then the stream from that head: a
   signal whose newest definition is still what its topic holds gets that definition's flag, and no
   other signal's.
   */
  lemma {:induction false} LoadThenDrain(log: seq<Record>, head: nat, at: nat, snapshot: seq<Record>, id: string,
                                         m: Record)
    requires Growing(log) && head <= at <= |log| && SnapshotOf(log, at, snapshot)
    requires NewestNaming(log, id, m) && NewestOfTopic(log, m)
    ensures Flagged(ApplyAll(EMPTY, snapshot + log[head..]), m)
  {
    var rs := snapshot + log[head..];
    SnapshotInLog(log, head, at, snapshot);
    IndexRight(rs);
    var i :| 0 <= i < |log| && log[i] == m;
    if i < head {
      assert m == log[..at][i];
      assert forall r :: r in log[..at] ==> r in log;
      assert NewestOfTopic(log[..at], m);
    } else {
      assert log[head..][i - head] == m;
    }
    assert m in rs && NewestNaming(rs, id, m);
    var ix := ApplyAll(EMPTY, rs);
    var held := Record(m.topic, ix.byTopic[m.topic].offset, ix.byTopic[m.topic].def);
    assert held in rs;
    assert HeldBy(ix, m);
  }

  lemma {:induction false} SnapshotInLog(log: seq<Record>, head: nat, at: nat, snapshot: seq<Record>)
    requires Growing(log) && head <= at <= |log| && SnapshotOf(log, at, snapshot)
    ensures forall r :: r in snapshot + log[head..] ==> r in log
    ensures OneStream(snapshot + log[head..])
  {
    forall r | r in snapshot + log[head..] ensures r in log {
      if r in snapshot {
        assert r in log[..at];
      }
    }
    forall r, s | r in snapshot + log[head..] && s in snapshot + log[head..] && r.offset == s.offset ensures r == s {
      assert r in log && s in log;
      var i, j :| 0 <= i < |log| && 0 <= j < |log| && log[i] == r && log[j] == s;
      assert i == j;
    }
  }

  // ---------------------------------------------------------------- the follower

  /** The number of records below an offset. */
  function Below(log: seq<Record>, offset: nat): (k: nat)
    ensures k <= |log|
    ensures k > 0 ==> log[k - 1].offset < offset
    ensures forall i :: k <= i < |log| ==> log[i].offset >= offset
  {
    if log == [] then 0 else if log[|log| - 1].offset < offset then |log| else Below(log[..|log| - 1], offset)
  }

  lemma {:induction false} BelowIs(log: seq<Record>, offset: nat, k: nat)
    requires Growing(log) && k <= |log|
    requires (k > 0 ==> log[k - 1].offset < offset) && (k < |log| ==> log[k].offset >= offset)
    ensures Below(log, offset) == k
  {
    var m := Below(log, offset);
    assert m <= k;
    assert k <= m;
  }

  /** The definitions of a stream whose next offset is `next`. */
  ghost predicate StreamOf(log: seq<Record>, next: nat) {
    Growing(log) && forall r :: r in log ==> 1 <= r.offset < next
  }

  /** A snapshot taken at some moment after `head` was the stream's last offset. */
  ghost predicate Taken(log: seq<Record>, head: nat, snapshot: seq<Record>) {
    exists at: nat :: Below(log, head + 1) <= at <= |log| && SnapshotOf(log, at, snapshot)
  }

  /** The applied records are the stream's, and hold every definition before the cursor that its topic still has. */
  ghost predicate Follows(applied: seq<Record>, log: seq<Record>, cursor: nat) {
    && (forall r :: r in applied ==> r in log)
    && (forall r :: NewestOfTopic(log, r) && r.def.Names? && r.offset < cursor ==> r in applied)
  }

  lemma {:induction false} TakenFollows(log: seq<Record>, head: nat, snapshot: seq<Record>)
    requires Growing(log) && Taken(log, head, snapshot)
    ensures Follows(snapshot, log, head + 1)
  {
    var at: nat :| Below(log, head + 1) <= at <= |log| && SnapshotOf(log, at, snapshot);
    assert forall r :: r in log[..at] ==> r in log;
    forall r | NewestOfTopic(log, r) && r.def.Names? && r.offset < head + 1 ensures r in snapshot {
      var i :| 0 <= i < |log| && log[i] == r;
      assert i < Below(log, head + 1);
      assert log[..at][i] == r;
      assert NewestOfTopic(log[..at], r);
    }
  }

  /** Applying the stream's records from the cursor up to k, at or past the new cursor. */
  lemma {:induction false} FollowsMore(applied: seq<Record>, log: seq<Record>, from: nat, cursor: nat, k: nat)
    requires Growing(log) && Follows(applied, log, from) && Below(log, from) <= k && Below(log, cursor) <= k <= |log|
    ensures Follows(applied + log[Below(log, from)..k], log, cursor)
  {
    hide Below;
    var first := Below(log, from);
    assert forall r :: r in log[first..k] ==> r in log;
    forall r | NewestOfTopic(log, r) && r.def.Names? && r.offset < cursor ensures r in applied + log[first..k] {
      if r.offset >= from {
        var i :| 0 <= i < |log| && log[i] == r;
        assert first <= i < k;
        assert log[first..k][i - first] == r;
      }
    }
  }

  /** It still does when the stream has grown past the cursor. */
  lemma {:induction false} FollowsGrows(applied: seq<Record>, log: seq<Record>, later: seq<Record>, cursor: nat)
    requires Follows(applied, log, cursor) && log <= later
    requires forall i :: |log| <= i < |later| ==> later[i].offset >= cursor
    ensures Follows(applied, later, cursor)
  {
    assert forall r :: r in log ==> r in later;
    forall r | NewestOfTopic(later, r) && r.def.Names? && r.offset < cursor ensures r in applied {
      var i :| 0 <= i < |later| && later[i] == r;
      assert log[i] == r;
      assert NewestOfTopic(log, r);
    }
  }

  lemma {:induction false} FollowsFlags(applied: seq<Record>, log: seq<Record>, cursor: nat, id: string, m: Record)
    requires Growing(log) && Follows(applied, log, cursor) && forall r :: r in log ==> r.offset < cursor
    requires NewestNaming(log, id, m) && NewestOfTopic(log, m)
    ensures Flagged(ApplyAll(EMPTY, applied), m)
  {
    assert m in applied && NewestNaming(applied, id, m) && NewestOfTopic(applied, m);
    GrowingIsOneStream(log);
    assert OneStream(applied);
    HeldIsOrderFree(applied, id, m, applied);
  }

  datatype Outcome = Drained | Resync | Failed

  class Signals {
    var byTopic: map<string, Entry>
    var byID: map<string, Flag>
    var loaded: bool
    /** The node's cursor for this follower: the first offset not acked. */
    var cursor: nat
    /** The records applied since the index was last replaced. */
    ghost var applied: seq<Record>

    ghost predicate Valid()
      reads this`byTopic, this`byID, this`applied
    {
      Current() == ApplyAll(EMPTY, applied)
    }

    constructor (cursor: nat)
      ensures Valid() && applied == [] && !loaded && this.cursor == cursor
    {
      byTopic, byID, loaded, applied := map[], map[], false, [];
      this.cursor := cursor;
    }

    function Current(): Index
      reads this`byTopic, this`byID
    {
      Index(byTopic, byID)
    }

    /** Writes one record into the maps unless its topic holds a newer one. */
    static method Put(byTopic: map<string, Entry>, byID: map<string, Flag>, r: Record)
      returns (topics: map<string, Entry>, flags: map<string, Flag>)
      ensures Index(topics, flags) == Apply(Index(byTopic, byID), r)
    {
      topics, flags := byTopic, byID;
      if r.topic in topics && topics[r.topic].offset >= r.offset {
        return;
      }
      if r.topic in topics && topics[r.topic].def.Names? {
        var id := topics[r.topic].def.id;
        if id in flags && flags[id].topic == r.topic {
          flags := flags - {id};
        }
      }
      topics := topics[r.topic := Entry(r.offset, r.def)];
      if r.def.Nothing? {
        return;
      }
      if r.def.id in flags && flags[r.def.id].topic != r.topic && flags[r.def.id].offset > r.offset {
        return;
      }
      flags := flags[r.def.id := Flag(r.topic, r.offset, r.def.logged)];
    }

    static method PutAll(byTopic: map<string, Entry>, byID: map<string, Flag>, rs: seq<Record>)
      returns (topics: map<string, Entry>, flags: map<string, Flag>)
      ensures Index(topics, flags) == ApplyAll(Index(byTopic, byID), rs)
    {
      topics, flags := byTopic, byID;
      for i := 0 to |rs|
        invariant Index(topics, flags) == ApplyAll(Index(byTopic, byID), rs[..i])
      {
        assert rs[..i + 1][..i] == rs[..i];
        topics, flags := Put(topics, flags, rs[i]);
      }
      assert rs[..|rs|] == rs;
    }

    /** Replaces the index with a snapshot and moves the cursor to the head captured before it; a failed ack
        leaves both as they were. */
    method Load(snapshot: seq<Record>, head: nat) returns (ok: bool)
      requires Valid()
      modifies this
      ensures Valid()
      ensures ok ==>
                loaded && applied == snapshot && cursor == if head > 0 && head + 1 > old(cursor) then head + 1
                  else old(cursor)
      ensures !ok ==>
                Current() == old(Current()) && applied == old(applied) && loaded == old(loaded) && cursor == old(cursor)
    {
      var topics, flags := PutAll(map[], map[], snapshot);
      if head > 0 {
        if * {
          return false;
        }
        cursor := if head + 1 > cursor then head + 1 else cursor;
      }
      byTopic, byID, loaded, applied := topics, flags, true, snapshot;
      ok := true;
    }

    /** Applies one page. */
    method TakePage(page: seq<Record>)
      requires Valid()
      modifies this`byTopic, this`byID, this`applied
      ensures Valid() && applied == old(applied) + page
    {
      ApplyAllConcat(EMPTY, applied, page);
      byTopic, byID := PutAll(byTopic, byID, page);
      applied := applied + page;
    }

    /**
     Applies the stream from the cursor page by page, acking each page after it is applied, until a page
     makes no progress. `log` is the stream's definitions, `head` its next offset and `lwm` its lowest retained
     one when the page from a cursor is read. A read or an ack may fail at any page: a page that was not acked
     stays applied, and is applied again the next time.
     */
    method Drain(log: seq<Record>, lwm: nat -> nat, head: nat, max: nat) returns (outcome: Outcome)
      requires Valid() && Growing(log) && max > 0 && forall r :: r in log ==> r.offset < head
      modifies this`byTopic, this`byID, this`cursor, this`applied
      ensures Valid() && old(cursor) <= cursor <= Max(old(cursor), head)
      ensures old(cursor) < lwm(old(cursor)) ==>
                !outcome.Drained? && applied == old(applied) && cursor == old(cursor)
      ensures outcome.Resync? ==>
                cursor < lwm(cursor) && Below(log, old(cursor)) <= Below(log, cursor) &&
                applied == old(applied) + log[Below(log, old(cursor))..Below(log, cursor)]
      ensures outcome.Drained? ==>
                Max(lwm(cursor), head) <= cursor && applied == old(applied) + log[Below(log, old(cursor))..]
      ensures outcome.Failed? ==>
                exists k :: Below(log, cursor) <= k <= |log| && Below(log, old(cursor)) <= k &&
                            applied == old(applied) + log[Below(log, old(cursor))..k]
    {
      hide Valid, Growing, Below;
      ghost var first := Below(log, cursor);
      assert log[first..first] == [];
      while true
        invariant Valid() && old(cursor) <= cursor <= Max(old(cursor), head) && first <= Below(log, cursor)
        invariant applied == old(applied) + log[first..Below(log, cursor)]
        invariant old(cursor) < lwm(old(cursor)) ==> cursor == old(cursor)
        decreases if cursor < head then head - cursor else 0
      {
        var k := Below(log, cursor);
        if * {
          return Failed;
        }
        if cursor < lwm(cursor) {
          return Resync;
        }
        var end := if k + max < |log| then k + max else |log|;
        var next := if end < |log| then log[end - 1].offset + 1 else head;
        if k == end && next <= cursor {
          return Drained;
        }
        TakePage(log[k..end]);
        JoinPages(old(applied), log, first, k, end);
        if * {
          return Failed;
        }
        NextPage(log, cursor, k, end, next, head);
        cursor := next;
      }
    }

    /**
     Loads the definitions if they are not, and follows the stream to its end; pruned past the cursor, it loads
     them again and goes on. A load has the head it captured and the snapshot it then got. The stream is `log`
     until the first drain ends, and `laterLog` until the second does. What is loaded follows the stream,
     whatever fails; and once it went through, a signal whose newest definition is still what its topic holds
     has that definition's flag.
     */
    method Sync(log: seq<Record>, next: nat, head: nat, snapshot: seq<Record>, lwm: nat -> nat,
                laterLog: seq<Record>, laterNext: nat, laterHead: nat, laterSnapshot: seq<Record>,
                laterLwm: nat -> nat, max: nat) returns (synced: bool, ghost seen: seq<Record>)
      requires Valid() && max > 0 && StreamOf(log, next) && StreamOf(laterLog, laterNext)
      requires log <= laterLog && forall i :: |log| <= i < |laterLog| ==> laterLog[i].offset >= next
      requires Taken(log, head, snapshot) && head < next
      requires Taken(laterLog, laterHead, laterSnapshot) && next <= laterHead + 1
      requires 1 <= cursor <= head + 1 && (loaded ==> Follows(applied, log, cursor))
      modifies this
      ensures Valid() && (seen == log || seen == laterLog) && (loaded ==> Follows(applied, seen, cursor))
      ensures synced ==> loaded
      ensures synced ==> forall id, m :: NewestNaming(seen, id, m) && NewestOfTopic(seen, m) ==> Flagged(Current(), m)
    {
      hide ApplyAll, Apply, Follows, Taken, Growing, NewestNaming, NewestOfTopic, Flagged;
      seen := log;
      if !loaded {
        synced := Load(snapshot, head);
        if !synced {
          return;
        }
        TakenFollows(log, head, snapshot);
      }
      var outcome := Follow(log, lwm, next, max);
      if outcome.Resync? {
        synced := Load(laterSnapshot, laterHead);
        if !synced {
          return;
        }
        TakenFollows(laterLog, laterHead, laterSnapshot);
        seen := laterLog;
        outcome := Follow(laterLog, laterLwm, laterNext, max);
      }
      synced := outcome.Drained?;
      if synced {
        forall id, m | NewestNaming(seen, id, m) && NewestOfTopic(seen, m) ensures Flagged(Current(), m) {
          FollowsFlags(applied, seen, cursor, id, m);
        }
      }
    }

    /** A drain of what follows the stream. */
    method Follow(log: seq<Record>, lwm: nat -> nat, next: nat, max: nat) returns (outcome: Outcome)
      requires Valid() && Growing(log) && max > 0 && (forall r :: r in log ==> r.offset < next)
      requires Follows(applied, log, cursor)
      modifies this`byTopic, this`byID, this`cursor, this`applied
      ensures Valid() && Follows(applied, log, cursor) && old(cursor) <= cursor <= Max(old(cursor), next)
      ensures outcome.Drained? ==> cursor >= next
    {
      hide ApplyAll, Apply, Follows;
      ghost var first := Below(log, cursor);
      outcome := Drain(log, lwm, next, max);
      ghost var k := Below(log, cursor);
      if outcome.Drained? {
        k := |log|;
        assert log[first..|log|] == log[first..];
      } else if outcome.Failed? {
        k :| Below(log, cursor) <= k <= |log| && first <= k && applied == old(applied) + log[first..k];
      }
      FollowsMore(old(applied), log, old(cursor), cursor, k);
    }

    /** A signal is historised unless the definition in force says otherwise: its newest one, where that is
        still what its topic holds; and it is where no topic holds a definition of it. */
    method Logged(id: string) returns (logged: bool)
      requires Valid()
      ensures OneStream(applied) ==>
                && (forall m :: NewestNaming(applied, id, m) && NewestOfTopic(applied, m) ==> logged == m.def.logged)
                && (NoneIsHeld(applied, id) ==> logged)
    {
      logged := id !in byID || byID[id].logged;
      if OneStream(applied) {
        forall m | NewestNaming(applied, id, m) && NewestOfTopic(applied, m) ensures logged == m.def.logged {
          HeldIsOrderFree(applied, id, m, applied);
        }
        if NoneIsHeld(applied, id) {
          NoneHeldNoFlag(applied, id, applied);
        }
      }
    }
  }

  lemma {:induction false} JoinPages(before: seq<Record>, log: seq<Record>, first: nat, k: nat, end: nat)
    requires first <= k <= end <= |log|
    ensures before + log[first..k] + log[k..end] == before + log[first..end]
  {
    assert log[first..k] + log[k..end] == log[first..end];
  }

  lemma {:induction false} NextPage(log: seq<Record>, cursor: nat, k: nat, end: nat, next: nat, head: nat)
    requires Growing(log) && (forall r :: r in log ==> r.offset < head) && k == Below(log, cursor) <= end <= |log|
    requires if end < |log| then k < end && next == log[end - 1].offset + 1 else next == head
    requires k < end || cursor < next
    ensures Below(log, next) == end && cursor < next
  {
    if end > 0 {
      assert log[end - 1] in log;
    }
    BelowIs(log, next, end);
  }
}
