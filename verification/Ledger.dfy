/**
 The command ledger: which correlation ids name a command, who sent it and what ack it got. Ids
 leave in insertion order once they are older than the window, or earlier while the ledger is full.
 */
module Ledger {
  import opened Basics

  const WINDOW: int := 600_000_000_000
  const LIMIT: nat := 16384

  datatype Entry = Entry(actor: string, at: int, ackTopic: string, ack: Option<string>)

  datatype Verdict = New | Repeat(ackTopic: string, ack: Option<string>) | ForeignUse

  type Entries = map<string, Entry>

  /** An id and when it was admitted. */
  datatype Admission = Admission(id: string, at: int)

  /** A New verdict not forgotten since: when it was given, and whether the ledger was full at an admission after it. */
  datatype Given = Given(at: int, full: bool)

  /** Every id is in the order under its own time. */
  ghost predicate Ordered(entries: Entries, order: seq<Admission>) {
    forall id :: id in entries ==> Admission(id, entries[id].at) in order
  }

  /** Admissions are in time order, none later than the clock. */
  ghost predicate InTime(order: seq<Admission>, clock: int) {
    && (forall i, j :: 0 <= i < j < |order| ==> order[i].at <= order[j].at)
    && (forall i :: 0 <= i < |order| ==> order[i].at <= clock)
  }

  /** An id with a New verdict is remembered, or had a reason to leave. */
  ghost predicate Remembered(entries: Entries, given: map<string, Given>, clock: int) {
    && (forall id :: id in entries ==> id in given && given[id].at == entries[id].at)
    && (forall id :: id in given && id !in entries ==> given[id].full || clock - given[id].at >= WINDOW)
  }

  /** `after` is `before` without ids that were over the window, or that left a full ledger. */
  ghost predicate Reduced(before: Entries, after: Entries, now: int) {
    && (forall id :: id in after ==> id in before && after[id] == before[id])
    && (forall id :: id in before && id !in after ==> now - before[id].at >= WINDOW || |before| >= LIMIT)
  }

  lemma {:induction false} ReducedSame(entries: Entries, now: int)
    ensures Reduced(entries, entries, now)
  {
  }

  lemma {:induction false} ReducedDrop(before: Entries, after: Entries, now: int, id: string)
    requires Reduced(before, after, now) && id in after && (now - after[id].at >= WINDOW || |before| >= LIMIT)
    ensures Reduced(before, after - {id}, now)
  {
  }

  lemma {:induction false} FewerIds(before: Entries, after: Entries, now: int)
    requires Reduced(before, after, now)
    ensures |after| <= |before|
  {
    assert after.Keys <= before.Keys;
    FewerKeys(after.Keys, before.Keys);
  }

  lemma {:induction false} FewerKeys(a: set<string>, b: set<string>)
    requires a <= b
    ensures |a| <= |b|
  {
    assert b == a + (b - a);
  }

  lemma {:induction false} OrderedDrop(entries: Entries, order: seq<Admission>, drop: nat)
    requires drop < |order| && Ordered(entries, order[drop..])
    ensures var key := order[drop];
            if key.id in entries && entries[key.id].at == key.at then Ordered(entries - {key.id}, order[drop + 1..])
            else Ordered(entries, order[drop + 1..])
  {
    assert order[drop..] == [order[drop]] + order[drop + 1..];
  }

  /** The verdicts given, after an expiry: a full ledger is noted on all of them. */
  ghost function Noted(given: map<string, Given>, full: bool): map<string, Given> {
    map id | id in given :: given[id].(full := given[id].full || full)
  }

  lemma {:induction false} RememberedReduced(before: Entries, after: Entries, given: map<string, Given>, clock: int,
                                             now: int)
    requires Remembered(before, given, clock) && Reduced(before, after, now) && clock <= now
    ensures Remembered(after, Noted(given, |before| >= LIMIT), now)
  {
  }

  class Commands {
    var entries: Entries
    var order: seq<Admission>
    ghost var given: map<string, Given>
    ghost var clock: int
    ghost var steady: bool

    ghost predicate Valid()
      reads this
    {
      && |entries| <= LIMIT && Ordered(entries, order)
      && (steady ==> InTime(order, clock) && Remembered(entries, given, clock))
    }

    constructor (ghost since: int)
      ensures Valid() && entries == map[] && given == map[] && steady && clock == since
    {
      entries, order, given, clock, steady := map[], [], map[], since, true;
    }

    /** Drops what is older than the window, and the oldest ids while the ledger is full. */
    method Expire(now: int)
      requires Valid()
      modifies this`entries, this`order, this`given, this`clock, this`steady
      ensures Valid() && Reduced(old(entries), entries, now) && |entries| < LIMIT
      ensures steady == (old(steady) && old(clock) <= now) && (steady ==> clock == now)
      ensures given == Noted(old(given), |old(entries)| >= LIMIT)
      ensures steady ==> forall id :: id in entries ==> now - entries[id].at < WINDOW
    {
      hide Remembered, InTime, Ordered, Reduced, Noted;
      ReducedSame(entries, now);
      var drop := 0;
      assert order[0..] == order;
      while drop < |order| && !(now - order[drop].at < WINDOW && |entries| < LIMIT)
        invariant drop <= |order| && Ordered(entries, order[drop..]) && Reduced(old(entries), entries, now)
        modifies this`entries
        decreases |order| - drop
      {
        var key := order[drop];
        FewerIds(old(entries), entries, now);
        OrderedDrop(entries, order, drop);
        if key.id in entries && entries[key.id].at == key.at {
          ReducedDrop(old(entries), entries, now, key.id);
          entries := entries - {key.id};
        }
        drop := drop + 1;
      }
      FewerIds(old(entries), entries, now);
      EmptyWhenDrained(entries, order, drop);
      steady := steady && clock <= now;
      if steady {
        RememberedReduced(old(entries), entries, given, clock, now);
        RecentLeft(entries, order, drop, clock, now);
      }
      given := Noted(given, |old(entries)| >= LIMIT);
      clock := if clock <= now then now else clock;
      order := order[drop..];
    }

    method Enter(id: string, actor: string, now: int)
      requires Valid() && id !in entries && |entries| < LIMIT && (steady ==> clock == now)
      modifies this`entries, this`order, this`given
      ensures Valid() && entries == old(entries)[id := Entry(actor, now, "", None)]
      ensures given == old(given)[id := Given(now, false)]
    {
      hide InTime, Ordered, Remembered;
      var e := Entry(actor, now, "", None);
      if steady {
        InTimeNext(order, now, id);
        RememberedNew(entries, given, now, id, e);
      }
      OrderedNew(entries, order, id, e);
      SizeNew(entries, id, e);
      entries := entries[id := e];
      order := order + [Admission(id, now)];
      given := given[id := Given(now, false)];
    }

    /** Records a command's id for its sender, or says why it is not new. */
    method Admit(id: string, actor: string, now: int) returns (v: Verdict)
      requires Valid()
      modifies this
      ensures Valid() && id in entries
      ensures steady == (old(steady) && old(clock) <= now) && (steady ==> clock == now)
      ensures forall j :: j in entries && (j != id || !v.New?) ==> j in old(entries) && entries[j] == old(entries)[j]
      ensures v.New? ==> entries[id] == Entry(actor, now, "", None)
      ensures v.ForeignUse? ==> entries[id].actor != actor
      ensures v.Repeat? ==> entries[id].actor == actor && v == Repeat(entries[id].ackTopic, entries[id].ack)
      // ids leave only over the window, or from a full ledger
      ensures forall j :: j in old(entries) && j !in entries ==>
                now - old(entries)[j].at >= WINDOW || |old(entries)| >= LIMIT
      ensures steady && |old(entries)| < LIMIT ==>
                (v.New? <==> !(id in old(entries) && now - old(entries)[id].at < WINDOW))
      // a second New without a forget in between: the window passed, or the ledger was full since
      ensures steady && v.New? && id in old(given) ==>
                now - old(given)[id].at >= WINDOW || old(given)[id].full || |old(entries)| >= LIMIT
      ensures given == if v.New? then Noted(old(given), |old(entries)| >= LIMIT)[id := Given(now, false)]
                       else Noted(old(given), |old(entries)| >= LIMIT)
    {
      hide InTime, Ordered, Remembered;
      Expire(now);
      if id in entries {
        return if entries[id].actor != actor then ForeignUse else Repeat(entries[id].ackTopic, entries[id].ack);
      }
      if steady {
        NoReasonless(entries, given, clock, id);
      }
      Enter(id, actor, now);
      v := New;
    }

    /** Drops an id whose command was not accepted after all. */
    method Forget(id: string)
      requires Valid()
      modifies this`entries, this`given
      ensures Valid() && entries == old(entries) - {id} && given == old(given) - {id}
    {
      hide InTime, Ordered, Remembered;
      SizeForget(entries, id);
      OrderedForget(entries, order, id);
      if steady {
        RememberedForget(entries, given, clock, id);
      }
      entries := entries - {id};
      given := given - {id};
    }

    /** Keeps the ack of a remembered command. The first ack stays. */
    method Acked(id: string, topic: string, payload: string)
      requires Valid()
      modifies this`entries
      ensures Valid() && entries.Keys == old(entries).Keys
      ensures forall j :: j in entries ==>
                entries[j].actor == old(entries)[j].actor && entries[j].at == old(entries)[j].at
      ensures forall j :: j in entries && (j != id || old(entries)[j].ack.Some?) ==> entries[j] == old(entries)[j]
      ensures id in entries && old(entries)[id].ack.None? && payload != "" ==>
                entries[id].ack == Some(payload) && entries[id].ackTopic == topic
    {
      hide InTime;
      if id in entries && entries[id].ack.None? {
        var e := entries[id].(ackTopic := topic, ack := if payload == "" then None else Some(payload));
        SizeNew(entries, id, e);
        entries := entries[id := e];
      }
    }
  }

  /** An id without an entry left for a reason. */
  lemma {:induction false} NoReasonless(entries: Entries, given: map<string, Given>, clock: int, id: string)
    requires Remembered(entries, given, clock) && id !in entries
    ensures id in given ==> given[id].full || clock - given[id].at >= WINDOW
  {
  }

  lemma {:induction false} InTimeNext(order: seq<Admission>, now: int, id: string)
    requires InTime(order, now)
    ensures InTime(order + [Admission(id, now)], now)
  {
  }

  lemma {:induction false} RememberedNew(entries: Entries, given: map<string, Given>, now: int, id: string, e: Entry)
    requires Remembered(entries, given, now) && e.at == now
    ensures Remembered(entries[id := e], given[id := Given(now, false)], now)
  {
  }

  lemma {:induction false} OrderedNew(entries: Entries, order: seq<Admission>, id: string, e: Entry)
    requires Ordered(entries, order)
    ensures Ordered(entries[id := e], order + [Admission(id, e.at)])
  {
    assert Admission(id, e.at) in order + [Admission(id, e.at)];
  }

  lemma {:induction false} OrderedForget(entries: Entries, order: seq<Admission>, id: string)
    requires Ordered(entries, order)
    ensures Ordered(entries - {id}, order)
  {
  }

  lemma {:induction false} RememberedForget(entries: Entries, given: map<string, Given>, clock: int, id: string)
    requires Remembered(entries, given, clock)
    ensures Remembered(entries - {id}, given - {id}, clock)
  {
  }

  lemma {:induction false} SizeNew(entries: Entries, id: string, e: Entry)
    ensures |entries[id := e]| == |entries| + if id in entries then 0 else 1
  {
    assert entries[id := e].Keys == entries.Keys + {id};
    if id in entries {
      assert entries.Keys + {id} == entries.Keys;
    }
  }

  lemma {:induction false} SizeForget(entries: Entries, id: string)
    ensures |entries - {id}| <= |entries|
  {
    assert (entries - {id}).Keys == entries.Keys - {id};
  }

  lemma {:induction false} EmptyWhenDrained(entries: Entries, order: seq<Admission>, drop: nat)
    requires drop <= |order| && Ordered(entries, order[drop..])
    ensures drop == |order| ==> entries == map[]
  {
    if drop == |order| {
      assert order[drop..] == [];
    }
  }

  /** When the oldest admission left is within the window, so are all ids. */
  lemma {:induction false} RecentLeft(entries: Entries, order: seq<Admission>, drop: nat, clock: int, now: int)
    requires InTime(order, clock) && clock <= now && drop <= |order| && Ordered(entries, order[drop..])
    requires drop < |order| ==> now - order[drop].at < WINDOW
    ensures InTime(order[drop..], now) && forall id :: id in entries ==> now - entries[id].at < WINDOW
  {
    forall id | id in entries ensures now - entries[id].at < WINDOW {
      var i :| 0 <= i < |order[drop..]| && order[drop..][i] == Admission(id, entries[id].at);
      assert order[drop + i] == Admission(id, entries[id].at);
    }
  }
}
