/**
 Command delivery to one machine: live delivery that may be held back, and the batched replay on
 subscribe, serialised by the machine's replay lock. A step is one decision, publish or cursor
 write; appends, subscriptions, time and crashes fall between any two.
 */
module Redelivery {
  import opened Basics

  const REPLAY_BATCH := 256
  const REPLAY_CAP := 4096

  /** A record of the commands stream. `mine`: a command addressed to this machine; its deadline, if
      any, is the last moment it may still be delivered. */
  datatype Command = Command(mine: bool, topic: nat, hasDeadline: bool, deadline: int)
  {
    /** CommandStillLive. */
    predicate Live(now: int) {
      !hasDeadline || deadline >= now
    }
  }

  /** A replay: from where it started (`start`), what it captured (`head`, `now`, `before`), what it has
      read and not committed (`batch` up to `next`, `idx` of them published), and what it published. */
  datatype Replay = Replay(start: nat, head: nat, now: int, before: nat, from: nat,
                           reading: bool, batch: seq<nat>, next: nat, idx: nat, done: seq<nat>, committed: bool)

  datatype End = Finished | Capped | Stalled | ReadFailed

  datatype Lock =
    | Free
    | Delivering(offset: nat)
    | Settling(offset: nat, delivered: bool)
    | Replaying(r: Replay)
    | Ended(r: Replay, why: End)

  /** `log`: the stream, offsets from 1. `cursor`: the delivery cursor, durable. `before`: the first
      offset a standalone period left in force. `subs`: the topics the machine has a live subscription
      for. `published`: the offsets published while it had one, in order. `readable`: the standalone
      journal can be read. */
  datatype State = State(log: seq<Command>, now: int, before: nat, readable: bool, subs: set<nat>, cursor: nat,
                         pending: set<nat>, lock: Lock, published: seq<nat>)
  {
    function Head(): nat { |log| + 1 }
    predicate Has(o: nat) { 1 <= o <= |log| }
    function At(o: nat): Command
      requires Has(o)
    {
      log[o - 1]
    }
  }

  function Initial(): State {
    State([], 0, 0, true, {}, 1, {}, Free, [])
  }

  /** OwedCommand: a live command for this machine, not retired by a standalone period. */
  predicate Owed(log: seq<Command>, o: nat, now: int, before: nat) {
    1 <= o <= |log| && log[o - 1].mine && log[o - 1].Live(now) && before <= o
  }

  /** The owed commands in [lo, hi), in order. */
  function OwedList(log: seq<Command>, lo: nat, hi: nat, now: int, before: nat): seq<nat> {
    if hi <= lo then []
    else if Owed(log, hi - 1, now, before) then OwedList(log, lo, hi - 1, now, before) + [hi - 1]
    else OwedList(log, lo, hi - 1, now, before)
  }

  datatype Label =
    | Append(c: Command) | Tick(now: int) | Retire(before: nat) | Journal(readable: bool)
    | Subscribe(subs: set<nat>) | Crash
    | Passed(o: nat) | Hold(o: nat) | BeginDeliver(o: nat) | Publish | Settle
    | BeginReplay | ReadBatch(next: nat) | ReadFails | PublishNext | Stall | CommitBatch | EndReplay | Unlock

  /** The replay's loop guard. */
  predicate MoreToRead(r: Replay) {
    !r.reading && r.from < r.head && |r.done| < REPLAY_CAP
  }

  predicate Enabled(s: State, l: Label) {
    match l
    case Append(_) => true
    case Tick(now) => now >= s.now
    case Retire(before) => before >= s.before
    case Journal(_) => true
    case Subscribe(_) => true
    case Crash => true
    case Passed(o) => s.lock.Free? && o in s.pending && s.cursor > o
    case Hold(o) => s.lock.Free? && o in s.pending && s.cursor <= o
    case BeginDeliver(o) =>
      s.lock.Free? && o in s.pending && s.cursor <= o &&
      (s.readable ==> OwedList(s.log, Max(s.cursor, s.before), o, s.now, s.before) == [])
    case Publish => s.lock.Delivering?
    case Settle => s.lock.Settling?
    case BeginReplay => s.lock.Free? && s.readable
    case ReadBatch(next) =>
      s.lock.Replaying? && MoreToRead(s.lock.r) && s.lock.r.from < next <= s.lock.r.head &&
      |OwedList(s.log, s.lock.r.from, next, s.lock.r.now, s.lock.r.before)| <= REPLAY_BATCH
    case ReadFails => s.lock.Replaying? && MoreToRead(s.lock.r)
    case PublishNext =>
      s.lock.Replaying? && s.lock.r.reading && s.lock.r.idx < |s.lock.r.batch| &&
      s.Has(s.lock.r.batch[s.lock.r.idx]) && s.At(s.lock.r.batch[s.lock.r.idx]).topic in s.subs
    case Stall =>
      s.lock.Replaying? && s.lock.r.reading && s.lock.r.idx < |s.lock.r.batch| &&
      s.Has(s.lock.r.batch[s.lock.r.idx]) && s.At(s.lock.r.batch[s.lock.r.idx]).topic !in s.subs
    case CommitBatch => s.lock.Replaying? && s.lock.r.reading && s.lock.r.idx == |s.lock.r.batch|
    case EndReplay => s.lock.Replaying? && !s.lock.r.reading && !MoreToRead(s.lock.r)
    case Unlock => s.lock.Ended?
  }

  /** The batch read: every owed command in [from, next), in order (the contract of ReadTarget). */
  function BatchRead(s: State, r: Replay, next: nat): Replay {
    r.(reading := true, batch := OwedList(s.log, r.from, next, r.now, r.before), next := next, idx := 0)
  }

  function Next(s: State, l: Label): State
    requires Enabled(s, l)
  {
    match l
    case Append(c) => s.(log := s.log + [c], pending := if c.mine then s.pending + {s.Head()} else s.pending)
    case Tick(now) => s.(now := now)
    case Retire(before) => s.(before := before)
    case Journal(readable) => s.(readable := readable)
    case Subscribe(subs) => s.(subs := subs)
    case Crash => s.(pending := {}, lock := Free)
    case Passed(o) => s.(pending := s.pending - {o})
    case Hold(o) => s.(pending := s.pending - {o})
    case BeginDeliver(o) => s.(pending := s.pending - {o}, lock := Delivering(o))
    case Publish =>
      var o := s.lock.offset;
      var delivered := s.Has(o) && s.At(o).topic in s.subs;
      s.(lock := Settling(o, delivered), published := if delivered then s.published + [o] else s.published)
    case Settle =>
      var o := s.lock.offset;
      s.(lock := Free,
         cursor := if s.lock.delivered || (s.Has(o) && !s.At(o).Live(s.now)) then Max(s.cursor, o + 1) else s.cursor)
    case BeginReplay =>
      var from := Max(s.cursor, s.before);
      s.(lock := Replaying(Replay(from, s.Head(), s.now, s.before, from, false, [], 0, 0, [], false)))
    case ReadBatch(next) =>
      s.(lock := Replaying(BatchRead(s, s.lock.r, next)))
    case ReadFails => s.(lock := Ended(s.lock.r, ReadFailed))
    case PublishNext =>
      var r := s.lock.r;
      s.(published := s.published + [r.batch[r.idx]],
         lock := Replaying(r.(idx := r.idx + 1, done := r.done + [r.batch[r.idx]])))
    case Stall =>
      var r := s.lock.r;
      var at := r.batch[r.idx];
      s.(cursor := Max(s.cursor, at), lock := Ended(r.(reading := false, from := at, committed := true), Stalled))
    case CommitBatch =>
      var r := s.lock.r;
      s.(cursor := Max(s.cursor, r.next), lock := Replaying(r.(reading := false, from := r.next, committed := true)))
    case EndReplay =>
      s.(lock := Ended(s.lock.r, if s.lock.r.from < s.lock.r.head then Capped else Finished))
    case Unlock => s.(lock := Free)
  }

  ghost predicate Runs(s: State, ls: seq<Label>, t: State)
    decreases |ls|
  {
    if ls == [] then s == t else Enabled(s, ls[0]) && Runs(Next(s, ls[0]), ls[1..], t)
  }

  /** A live delivery starts only when nothing owed to the machine lies below it. With the standalone
      journal readable the code checks this; otherwise it does not. */
  predicate Guarded(s: State, l: Label) {
    l.BeginDeliver? ==> OwedList(s.log, Max(s.cursor, s.before), l.o, s.now, s.before) == []
  }

  ghost predicate GuardedRun(s: State, ls: seq<Label>)
    decreases |ls|
  {
    ls == [] || (Enabled(s, ls[0]) && Guarded(s, ls[0]) && GuardedRun(Next(s, ls[0]), ls[1..]))
  }

  /** While the standalone journal can be read, every delivery is guarded. */
  lemma {:induction false} ReadableIsGuarded(s: State, ls: seq<Label>, t: State)
    requires s.readable && Runs(s, ls, t) && forall l :: l in ls ==> (l.Journal? ==> l.readable)
    ensures GuardedRun(s, ls)
    decreases |ls|
  {
    if ls != [] {
      ReadableIsGuarded(Next(s, ls[0]), ls[1..], t);
    }
  }

  // ---------------------------------------------------------------- lists of owed commands

  lemma {:induction false} OwedListHas(log: seq<Command>, lo: nat, hi: nat, now: int, before: nat)
    ensures forall o :: o in OwedList(log, lo, hi, now, before) <==> lo <= o < hi && Owed(log, o, now, before)
    ensures forall a, b :: 0 <= a < b < |OwedList(log, lo, hi, now, before)| ==>
              OwedList(log, lo, hi, now, before)[a] < OwedList(log, lo, hi, now, before)[b]
  {
    hide Owed;
    if lo < hi {
      OwedListHas(log, lo, hi - 1, now, before);
      var init, all := OwedList(log, lo, hi - 1, now, before), OwedList(log, lo, hi, now, before);
      assert forall a :: 0 <= a < |init| ==> init[a] in init;
      assert all == if Owed(log, hi - 1, now, before) then init + [hi - 1] else init;
    }
  }

  lemma {:induction false} OwedListSplit(log: seq<Command>, lo: nat, mid: nat, hi: nat, now: int, before: nat)
    requires lo <= mid <= hi
    ensures OwedList(log, lo, hi, now, before) ==
            OwedList(log, lo, mid, now, before) + OwedList(log, mid, hi, now, before)
  {
    if mid < hi {
      OwedListSplit(log, lo, mid, hi - 1, now, before);
    }
  }

  /** Time, retirement and a higher start only take commands off the list. */
  lemma {:induction false} OwedListShrinks(log: seq<Command>, lo: nat, lo': nat, hi: nat, now: int, now': int,
                                           before: nat, before': nat)
    requires lo <= lo' && now <= now' && before <= before'
    ensures |OwedList(log, lo', hi, now', before')| <= |OwedList(log, lo, hi, now, before)|
  {
    if lo < hi {
      OwedListShrinks(log, lo, lo', hi - 1, now, now', before, before');
    }
  }

  lemma {:induction false} OwedListAppend(log: seq<Command>, more: seq<Command>, lo: nat, hi: nat, now: int,
                                          before: nat)
    requires log <= more && hi <= |log| + 1
    ensures OwedList(more, lo, hi, now, before) == OwedList(log, lo, hi, now, before)
  {
    if lo < hi {
      OwedListAppend(log, more, lo, hi - 1, now, before);
    }
  }

  /** Below `before` nothing is owed. */
  lemma {:induction false} RetiredNotOwed(log: seq<Command>, lo: nat, hi: nat, now: int, before: nat)
    requires hi <= before
    ensures OwedList(log, lo, hi, now, before) == []
  {
    if lo < hi {
      RetiredNotOwed(log, lo, hi - 1, now, before);
    }
  }

  lemma {:induction false} NoneListed(log: seq<Command>, lo: nat, hi: nat, now: int, before: nat)
    requires forall o: nat :: lo <= o < hi ==> !Owed(log, o, now, before)
    ensures OwedList(log, lo, hi, now, before) == []
  {
    if lo < hi {
      NoneListed(log, lo, hi - 1, now, before);
    }
  }

  /** The part of a batch before a position is the list up to that position. */
  lemma {:induction false} BatchPrefix(log: seq<Command>, lo: nat, hi: nat, now: int, before: nat, k: nat)
    requires k < |OwedList(log, lo, hi, now, before)|
    ensures lo <= OwedList(log, lo, hi, now, before)[k] < hi
    ensures OwedList(log, lo, OwedList(log, lo, hi, now, before)[k], now, before) ==
            OwedList(log, lo, hi, now, before)[..k]
  {
    if lo < hi {
      var init := OwedList(log, lo, hi - 1, now, before);
      if k < |init| {
        BatchPrefix(log, lo, hi - 1, now, before, k);
        assert OwedList(log, lo, hi, now, before)[..k] == init[..k];
      } else {
        assert OwedList(log, lo, hi, now, before)[..k] == init;
      }
    }
  }

  // ---------------------------------------------------------------- what every step keeps

  /** A replay has published, in order, what was owed between its start and where it stands. */
  ghost predicate ReplayOk(s: State, r: Replay) {
    && 1 <= s.cursor <= r.from && r.start <= r.from && r.now <= s.now && r.before <= s.before && r.head <= s.Head()
    && (r.from <= r.head || (r.from == r.start && !r.committed && !r.reading))
    && (r.committed ==> s.cursor == r.from)
    && (!r.committed ==> r.from == r.start <= Max(s.cursor, r.before))
    && (if r.reading then
          && |r.done| < REPLAY_CAP + r.idx && r.from < r.next <= r.head
          && r.idx <= |r.batch| <= REPLAY_BATCH
          && r.batch == OwedList(s.log, r.from, r.next, r.now, r.before)
          && r.done == OwedList(s.log, r.start, r.from, r.now, r.before) + r.batch[..r.idx]
          && (forall k :: 0 <= k < r.idx ==> r.batch[k] in s.published)
        else r.done == OwedList(s.log, r.start, r.from, r.now, r.before) && |r.done| < REPLAY_CAP + REPLAY_BATCH)
  }

  /** Why a replay ended, and what that says about the record it stands at. */
  ghost predicate EndOk(s: State, r: Replay, why: End) {
    match why
    case Finished => !r.reading && r.from >= r.head
    case Capped => !r.reading && r.from < r.head && |r.done| >= REPLAY_CAP
    case Stalled => !r.reading && r.committed && Owed(s.log, r.from, r.now, r.before)
    case ReadFailed => !r.reading
  }

  ghost predicate LockOk(s: State) {
    match s.lock
    case Free => true
    case Delivering(o) => s.Has(o) && s.At(o).mine && s.cursor <= o
    case Settling(o, delivered) => s.Has(o) && s.At(o).mine && s.cursor <= o && (delivered ==> o in s.published)
    case Replaying(r) => ReplayOk(s, r)
    case Ended(r, why) => ReplayOk(s, r) && EndOk(s, r, why)
  }

  ghost predicate Inv(s: State) {
    && 1 <= s.cursor <= s.Head() && LockOk(s)
    && (forall o :: o in s.pending ==> s.Has(o) && s.At(o).mine)
    && (forall x :: x in s.published ==> s.Has(x))
  }

  /** The world moves on: the stream grows, time passes, commands are retired, what was published stays. */
  ghost predicate Later(s: State, t: State) {
    s.log <= t.log && s.now <= t.now && s.before <= t.before && forall x :: x in s.published ==> x in t.published
  }

  lemma {:induction false} ReplayStays(s: State, t: State, r: Replay)
    requires ReplayOk(s, r) && Later(s, t) && t.cursor == s.cursor && s.cursor <= s.Head()
    ensures ReplayOk(t, r)
  {
    if r.from <= r.head {
      OwedListAppend(s.log, t.log, r.start, r.from, r.now, r.before);
      if r.reading {
        OwedListAppend(s.log, t.log, r.from, r.next, r.now, r.before);
      }
    }
  }

  lemma {:induction false} LockStays(s: State, t: State)
    requires LockOk(s) && Later(s, t) && t.cursor == s.cursor <= s.Head() && t.lock == s.lock
    ensures LockOk(t)
  {
    match s.lock
    case Replaying(r) => ReplayStays(s, t, r);
    case Ended(r, _) => ReplayStays(s, t, r);
    case _ =>
  }

  lemma {:induction false} PassiveKeeps(s: State, l: Label)
    requires Inv(s) && Enabled(s, l)
    requires l.Append? || l.Tick? || l.Retire? || l.Journal? || l.Subscribe? || l.Passed? || l.Hold?
    ensures Inv(Next(s, l))
  {
    LockStays(s, Next(s, l));
  }

  lemma {:induction false} DeliveryKeeps(s: State, l: Label)
    requires Inv(s) && Enabled(s, l) && (l.BeginDeliver? || l.Publish? || l.Settle?)
    ensures Inv(Next(s, l))
  {
    hide ReplayOk, OwedList;
  }

  lemma {:induction false} ReadKeeps(s: State, l: Label)
    requires Inv(s) && Enabled(s, l) && (l.BeginReplay? || l.ReadBatch?)
    ensures Inv(Next(s, l))
  {
    if l.ReadBatch? {
      assert Next(s, l).lock.r.batch[..0] == [];
    }
  }

  lemma {:induction false} PublishNextKeeps(s: State)
    requires Inv(s) && Enabled(s, PublishNext)
    ensures Inv(Next(s, PublishNext))
  {
    hide Owed, OwedList;
    var t, r := Next(s, PublishNext), s.lock.r;
    assert r.batch[..r.idx + 1] == r.batch[..r.idx] + [r.batch[r.idx]];
    assert forall k :: 0 <= k < r.idx + 1 ==> r.batch[k] in t.published;
  }

  lemma {:induction false} StallKeeps(s: State)
    requires Inv(s) && Enabled(s, Stall)
    ensures Inv(Next(s, Stall))
  {
    hide Owed, OwedList;
    var r := s.lock.r;
    BatchPrefix(s.log, r.from, r.next, r.now, r.before, r.idx);
    OwedListHas(s.log, r.from, r.next, r.now, r.before);
    OwedListSplit(s.log, r.start, r.from, r.batch[r.idx], r.now, r.before);
  }

  lemma {:induction false} CommitKeeps(s: State)
    requires Inv(s) && Enabled(s, CommitBatch)
    ensures Inv(Next(s, CommitBatch))
  {
    hide Owed, OwedList;
    var r := s.lock.r;
    OwedListSplit(s.log, r.start, r.from, r.next, r.now, r.before);
    assert r.batch[..r.idx] == r.batch;
  }

  lemma {:induction false} ReleaseKeeps(s: State, l: Label)
    requires Inv(s) && Enabled(s, l) && (l.Crash? || l.ReadFails? || l.EndReplay? || l.Unlock?)
    ensures Inv(Next(s, l))
  {
    if !l.Crash? && !l.Unlock? {
      ReplayStays(s, Next(s, l), s.lock.r);
    }
  }

  lemma {:induction false} StepKeeps(s: State, l: Label)
    requires Inv(s) && Enabled(s, l)
    ensures Inv(Next(s, l))
  {
    hide Inv, Next, Enabled;
    match l
    case BeginDeliver(_) => DeliveryKeeps(s, l);
    case Publish => DeliveryKeeps(s, l);
    case Settle => DeliveryKeeps(s, l);
    case BeginReplay => ReadKeeps(s, l);
    case ReadBatch(_) => ReadKeeps(s, l);
    case PublishNext => PublishNextKeeps(s);
    case Stall => StallKeeps(s);
    case CommitBatch => CommitKeeps(s);
    case Crash => ReleaseKeeps(s, l);
    case ReadFails => ReleaseKeeps(s, l);
    case EndReplay => ReleaseKeeps(s, l);
    case Unlock => ReleaseKeeps(s, l);
    case _ => PassiveKeeps(s, l);
  }

  lemma {:induction false} RunKeeps(s: State, ls: seq<Label>, t: State)
    requires Inv(s) && Runs(s, ls, t)
    ensures Inv(t)
    decreases |ls|
  {
    hide Inv, Next, Enabled;
    if ls != [] {
      StepKeeps(s, ls[0]);
      RunKeeps(Next(s, ls[0]), ls[1..], t);
    }
  }

  /** A replay ends with the cursor exactly at the first record not dealt with: it published, in order,
      all and only the commands owed when it began between its start and there; and it stopped at the
      head it captured, at a command the machine was not listening for, at the cap, or at a failed read. */
  lemma {:induction false} ReplayEndsWhereItStopped(ls: seq<Label>, t: State)
    requires Runs(Initial(), ls, t) && t.lock.Ended?
    ensures var r := t.lock.r;
            && r.done == OwedList(t.log, r.start, r.from, r.now, r.before) && |r.done| < REPLAY_CAP + REPLAY_BATCH
            && (r.committed ==> t.cursor == r.from) && (!r.committed ==> r.done == [] && r.from == r.start)
            && EndOk(t, r, t.lock.why)
  {
    RunKeeps(Initial(), ls, t);
  }

  // ---------------------------------------------------------------- no skip

  /** The record at o needs nothing more: it is not this machine's, was published to a live
      subscription, has expired or is retired. */
  ghost predicate Dealt(s: State, o: nat) {
    s.Has(o) && s.At(o).mine ==> o in s.published || !s.At(o).Live(s.now) || o < s.before
  }

  ghost predicate DealtUpTo(s: State, lo: nat, hi: nat) {
    forall o: nat :: lo <= o < hi ==> Dealt(s, o)
  }

  lemma {:induction false} DealtStays(s: State, t: State, lo: nat, hi: nat)
    requires Later(s, t) && DealtUpTo(s, lo, hi) && hi <= s.Head()
    ensures DealtUpTo(t, lo, hi)
  {
    forall o: nat | lo <= o < hi ensures Dealt(t, o) {
      assert Dealt(s, o);
    }
  }

  /** Everything below the cursor is dealt with, and nothing owed lies below a command being delivered. */
  ghost predicate NoSkip(s: State) {
    && Inv(s) && DealtUpTo(s, 1, s.cursor)
    && match s.lock
       case Delivering(o) => OwedList(s.log, s.cursor, o, s.now, s.before) == []
       case Settling(o, _) => DealtUpTo(s, s.cursor, o)
       case _ => true
  }

  /** Where nothing is owed everything is dealt with. */
  lemma {:induction false} NotOwedIsDealt(s: State, lo: nat, hi: nat)
    requires 1 <= lo && OwedList(s.log, lo, hi, s.now, s.before) == []
    ensures DealtUpTo(s, lo, hi)
  {
    OwedListHas(s.log, lo, hi, s.now, s.before);
    forall o: nat | lo <= o < hi ensures Dealt(s, o) {
      assert o !in OwedList(s.log, lo, hi, s.now, s.before);
    }
  }

  lemma {:induction false} DeliverSkipsNone(s: State, o: nat)
    requires NoSkip(s) && Enabled(s, BeginDeliver(o)) && Guarded(s, BeginDeliver(o))
    ensures NoSkip(Next(s, BeginDeliver(o)))
  {
    hide OwedList;
    DeliveryKeeps(s, BeginDeliver(o));
    var from: nat := Max(s.cursor, s.before);
    OwedListHas(s.log, from, o, s.now, s.before);
    forall p: nat | s.cursor <= p < o ensures !Owed(s.log, p, s.now, s.before) {
      assert p !in OwedList(s.log, from, o, s.now, s.before);
    }
    NoneListed(s.log, s.cursor, o, s.now, s.before);
    DealtStays(s, Next(s, BeginDeliver(o)), 1, s.cursor);
  }

  lemma {:induction false} PublishSkipsNone(s: State, l: Label)
    requires NoSkip(s) && Enabled(s, l) && (l.Publish? || l.Settle?)
    ensures NoSkip(Next(s, l))
  {
    hide Owed, OwedList;
    DeliveryKeeps(s, l);
    var t, o := Next(s, l), s.lock.offset;
    DealtStays(s, t, 1, s.cursor);
    if l.Publish? {
      NotOwedIsDealt(s, s.cursor, o);
    }
    DealtStays(s, t, s.cursor, o);
  }

  /** Between the cursor and where a replay reads nothing is owed. */
  lemma {:induction false} RetiredPrefix(s: State, r: Replay)
    requires ReplayOk(s, r)
    ensures OwedList(s.log, s.cursor, r.from, s.now, s.before) == []
  {
    if s.cursor < r.from {
      RetiredNotOwed(s.log, s.cursor, r.from, s.now, s.before);
    }
  }

  /** Up to a position within the batch everything is published, not owed, or retired. */
  lemma {:induction false} BatchDealt(s: State, r: Replay, upTo: nat)
    requires ReplayOk(s, r) && r.reading && r.from <= upTo <= r.next
    requires forall k :: 0 <= k < |r.batch| && r.batch[k] < upTo ==> k < r.idx
    ensures DealtUpTo(s, r.from, upTo)
  {
    OwedListHas(s.log, r.from, r.next, r.now, r.before);
    forall o: nat | r.from <= o < upTo ensures Dealt(s, o) {
      if Owed(s.log, o, r.now, r.before) {
        assert o in r.batch;
        var k :| 0 <= k < |r.batch| && r.batch[k] == o;
      }
    }
  }

  lemma {:induction false} BatchSkipsNone(s: State, l: Label)
    requires NoSkip(s) && Enabled(s, l) && (l.Stall? || l.CommitBatch?)
    ensures NoSkip(Next(s, l))
  {
    hide Owed, OwedList;
    StepKeeps(s, l);
    var t, r := Next(s, l), s.lock.r;
    var upTo := if l.Stall? then r.batch[r.idx] else r.next;
    OwedListHas(s.log, r.from, r.next, r.now, r.before);
    assert l.Stall? ==> r.batch[r.idx] in r.batch;
    BatchDealt(s, r, upTo);
    RetiredPrefix(s, r);
    NotOwedIsDealt(s, s.cursor, r.from);
    DealtStays(s, t, 1, s.cursor);
    DealtStays(s, t, s.cursor, r.from);
    DealtStays(s, t, r.from, upTo);
  }

  lemma {:induction false} OtherSkipsNone(s: State, l: Label)
    requires NoSkip(s) && Enabled(s, l) && !l.BeginDeliver? && !l.Publish? && !l.Settle? && !l.Stall? && !l.CommitBatch?
    ensures NoSkip(Next(s, l))
  {
    hide Owed, OwedList, ReplayOk;
    StepKeeps(s, l);
    var t := Next(s, l);
    DealtStays(s, t, 1, s.cursor);
    match t.lock
    case Delivering(o) =>
      OwedListAppend(s.log, t.log, s.cursor, o, t.now, t.before);
      OwedListShrinks(s.log, s.cursor, s.cursor, o, s.now, t.now, s.before, t.before);
    case Settling(o, _) => DealtStays(s, t, s.cursor, o);
    case _ =>
  }

  lemma {:induction false} StepSkipsNone(s: State, l: Label)
    requires NoSkip(s) && Enabled(s, l) && Guarded(s, l)
    ensures NoSkip(Next(s, l))
  {
    hide NoSkip, Next, Enabled;
    match l
    case BeginDeliver(o) => DeliverSkipsNone(s, o);
    case Publish => PublishSkipsNone(s, l);
    case Settle => PublishSkipsNone(s, l);
    case Stall => BatchSkipsNone(s, l);
    case CommitBatch => BatchSkipsNone(s, l);
    case _ => OtherSkipsNone(s, l);
  }

  lemma {:induction false} RunSkipsNone(s: State, ls: seq<Label>, t: State)
    requires NoSkip(s) && Runs(s, ls, t) && GuardedRun(s, ls)
    ensures NoSkip(t)
    decreases |ls|
  {
    hide NoSkip, Next, Enabled;
    if ls != [] {
      StepSkipsNone(s, ls[0]);
      RunSkipsNone(Next(s, ls[0]), ls[1..], t);
    }
  }

  /** No skip: whatever interleaves and wherever the node crashes, the cursor never passes a command
      that is still owed and was not published while the machine held a live subscription for it. */
  lemma {:induction false} NoOwedCommandIsPassed(ls: seq<Label>, t: State, o: nat)
    requires Runs(Initial(), ls, t) && GuardedRun(Initial(), ls)
    requires 1 <= o < t.cursor && Owed(t.log, o, t.now, t.before)
    ensures o in t.published
  {
    RunSkipsNone(Initial(), ls, t);
    assert Dealt(t, o);
  }

  // ---------------------------------------------------------------- what a crash repeats

  /** The published commands the next subscribe publishes again. */
  function Repeats(s: State): set<nat> {
    set o | o in s.published && s.cursor <= o && Owed(s.log, o, s.now, s.before)
  }

  /** A live publish over a command that is owed and comes first: the check before it was left out. */
  predicate Stray(s: State, l: Label) {
    l.Publish? && s.lock.Delivering? && OwedList(s.log, s.cursor, s.lock.offset, s.now, s.before) != []
  }

  /** How many publishes of the run are stray. */
  function Strays(s: State, ls: seq<Label>): nat
    decreases |ls|
  {
    if ls == [] || !Enabled(s, ls[0]) then 0
    else (if Stray(s, ls[0]) then 1 else 0) + Strays(Next(s, ls[0]), ls[1..])
  }

  /** What was published at or past the cursor was read by a replay or published in turn, below the horizon,
      or is stray; and no more than a batch is owed up to the horizon. */
  ghost predicate Bounded(s: State, horizon: nat, stray: set<nat>) {
    && horizon <= s.Head()
    && (forall x :: x in s.published ==> x < Max(horizon, s.cursor) || x in stray)
    && |OwedList(s.log, s.cursor, horizon, s.now, s.before)| <= REPLAY_BATCH
    && (s.lock.Replaying? && s.lock.r.reading ==> s.lock.r.next <= horizon)
  }

  lemma {:induction false} OwedLater(s: State, t: State, horizon: nat)
    requires Later(s, t) && s.cursor <= t.cursor && horizon <= s.Head()
    ensures |OwedList(t.log, t.cursor, horizon, t.now, t.before)| <=
            |OwedList(s.log, s.cursor, horizon, s.now, s.before)|
  {
    OwedListAppend(s.log, t.log, t.cursor, horizon, t.now, t.before);
    OwedListShrinks(s.log, s.cursor, t.cursor, horizon, s.now, t.now, s.before, t.before);
  }

  lemma {:induction false} PublishBounded(s: State, horizon: nat, stray: set<nat>) returns (h: nat, strays: set<nat>)
    requires Inv(s) && Bounded(s, horizon, stray) && Enabled(s, Publish)
    ensures Bounded(Next(s, Publish), h, strays)
    ensures |strays| <= |stray| + if Stray(s, Publish) then 1 else 0
  {
    var o := s.lock.offset;
    if Stray(s, Publish) {
      h, strays := horizon, stray + {o};
    } else {
      h, strays := Max(horizon, o + 1), stray;
    }
  }

  lemma {:induction false} ReadBounded(s: State, next: nat, horizon: nat, stray: set<nat>)
    requires Inv(s) && Bounded(s, horizon, stray) && Enabled(s, ReadBatch(next))
    ensures Bounded(Next(s, ReadBatch(next)), Max(horizon, next), stray)
  {
    var r := s.lock.r;
    if horizon < next {
      RetiredPrefix(s, r);
      OwedListSplit(s.log, s.cursor, r.from, next, s.now, s.before);
      OwedListShrinks(s.log, r.from, r.from, next, r.now, s.now, r.before, s.before);
    }
  }

  lemma {:induction false} OtherBounded(s: State, l: Label, horizon: nat, stray: set<nat>)
    requires Inv(s) && Bounded(s, horizon, stray) && Enabled(s, l) && !l.Publish? && !l.ReadBatch?
    ensures Bounded(Next(s, l), horizon, stray)
  {
    hide Owed, OwedList;
    OwedLater(s, Next(s, l), horizon);
    if l.PublishNext? {
      var r := s.lock.r;
      OwedListHas(s.log, r.from, r.next, r.now, r.before);
      assert r.batch[r.idx] in r.batch;
    }
  }

  lemma {:induction false} RunBounded(s: State, ls: seq<Label>, t: State, horizon: nat, stray: set<nat>)
    returns (h: nat, strays: set<nat>)
    requires Inv(s) && Bounded(s, horizon, stray) && Runs(s, ls, t)
    ensures Bounded(t, h, strays) && |strays| <= |stray| + Strays(s, ls)
    decreases |ls|
  {
    hide Inv, Bounded, Next, Enabled, Stray;
    if ls == [] {
      h, strays := horizon, stray;
    } else {
      var l := ls[0];
      StepKeeps(s, l);
      h, strays := horizon, stray;
      if l.Publish? {
        h, strays := PublishBounded(s, horizon, stray);
      } else if l.ReadBatch? {
        ReadBounded(s, l.next, horizon, stray);
        h := Max(horizon, l.next);
      } else {
        OtherBounded(s, l, horizon, stray);
      }
      h, strays := RunBounded(Next(s, l), ls[1..], t, h, strays);
    }
  }

  lemma {:induction false} CountWithin(xs: set<nat>, ys: seq<nat>)
    requires forall x :: x in xs ==> x in ys
    ensures |xs| <= |ys|
  {
    if ys != [] {
      var last := ys[|ys| - 1];
      CountWithin(xs - {last}, ys[..|ys| - 1]);
    }
  }

  /** After a crash at any point the next subscribe repeats at most a batch and the stray publishes. */
  lemma {:induction false} CrashRepeatsABatchAndStrays(ls: seq<Label>, t: State)
    requires Runs(Initial(), ls, t)
    ensures |Repeats(t)| <= REPLAY_BATCH + Strays(Initial(), ls)
  {
    hide Runs, OwedList;
    assert OwedList([], 1, 0, 0, 0) == [] by { NoneListed([], 1, 0, 0, 0); }
    var horizon, stray := RunBounded(Initial(), ls, t, 0, {});
    OwedListHas(t.log, t.cursor, horizon, t.now, t.before);
    var others := Repeats(t) - stray;
    CountWithin(others, OwedList(t.log, t.cursor, horizon, t.now, t.before));
    CountUnion(Repeats(t), others, stray);
  }

  lemma {:induction false} CountUnion(xs: set<nat>, ys: set<nat>, zs: set<nat>)
    requires xs <= ys + zs
    ensures |xs| <= |ys| + |zs|
  {
    CountWithinSet(xs, ys + zs);
    assert |ys + zs| == |ys| + |zs| - |ys * zs|;
  }

  lemma {:induction false} CountWithinSet(xs: set<nat>, ys: set<nat>)
    requires xs <= ys
    ensures |xs| <= |ys|
  {
    assert ys == xs + (ys - xs);
  }

  lemma {:induction false} GuardedHasNoStray(s: State, ls: seq<Label>, t: State)
    requires NoSkip(s) && Runs(s, ls, t) && GuardedRun(s, ls)
    ensures Strays(s, ls) == 0
    decreases |ls|
  {
    if ls != [] {
      StepSkipsNone(s, ls[0]);
      GuardedHasNoStray(Next(s, ls[0]), ls[1..], t);
    }
  }

  /** While every live delivery makes its check, that is at most a batch. */
  lemma {:induction false} CrashRepeatsAtMostABatch(ls: seq<Label>, t: State)
    requires Runs(Initial(), ls, t) && GuardedRun(Initial(), ls)
    ensures |Repeats(t)| <= REPLAY_BATCH
  {
    GuardedHasNoStray(Initial(), ls, t);
    CrashRepeatsABatchAndStrays(ls, t);
  }

  // ---------------------------------------------------------------- order, while nothing crashes

  /** Everything published so far lies below this. */
  function Edge(s: State): nat {
    match s.lock
    case Settling(o, delivered) => if delivered then o + 1 else s.cursor
    case Replaying(r) => if r.reading && 0 < r.idx <= |r.batch| then r.batch[r.idx - 1] + 1 else s.cursor
    case _ => s.cursor
  }

  ghost predicate InOrder(s: State) {
    && (forall a, b :: 0 <= a < b < |s.published| ==> s.published[a] < s.published[b])
    && (forall x :: x in s.published ==> x < Edge(s))
  }

  lemma {:induction false} PublishInOrder(s: State, x: nat)
    requires InOrder(s) && Edge(s) <= x
    ensures var p := s.published + [x];
            (forall a, b :: 0 <= a < b < |p| ==> p[a] < p[b]) && forall y :: y in p ==> y <= x
  {
    assert forall a :: 0 <= a < |s.published| ==> s.published[a] in s.published;
  }

  lemma {:induction false} BatchInOrder(s: State, l: Label)
    requires Inv(s) && InOrder(s) && Enabled(s, l) && (l.PublishNext? || l.Stall? || l.CommitBatch?)
    ensures InOrder(Next(s, l))
  {
    hide Owed, OwedList;
    var r := s.lock.r;
    OwedListHas(s.log, r.from, r.next, r.now, r.before);
    assert forall k :: 0 <= k < |r.batch| ==> r.batch[k] in r.batch;
    if l.PublishNext? {
      PublishInOrder(s, r.batch[r.idx]);
    }
  }

  lemma {:induction false} StepInOrder(s: State, l: Label)
    requires Inv(s) && InOrder(s) && Enabled(s, l) && !l.Crash?
    ensures InOrder(Next(s, l))
  {
    hide OwedList, ReplayOk, EndOk;
    if l.Publish? {
      PublishInOrder(s, s.lock.offset);
    } else if l.PublishNext? || l.Stall? || l.CommitBatch? {
      BatchInOrder(s, l);
    }
  }

  lemma {:induction false} RunInOrder(s: State, ls: seq<Label>, t: State)
    requires Inv(s) && InOrder(s) && Runs(s, ls, t) && Crash !in ls
    ensures InOrder(t)
    decreases |ls|
  {
    hide Inv, InOrder, Next, Enabled;
    if ls != [] {
      StepInOrder(s, ls[0]);
      StepKeeps(s, ls[0]);
      RunInOrder(Next(s, ls[0]), ls[1..], t);
    }
  }

  /** Without crashes the commands published to the live subscription, live or replayed, form a
      strictly increasing sequence of offsets: none twice, none overtaken by an earlier one. */
  lemma {:induction false} PublishesInOrderOnce(ls: seq<Label>, t: State)
    requires Runs(Initial(), ls, t) && Crash !in ls
    ensures forall a, b :: 0 <= a < b < |t.published| ==> t.published[a] < t.published[b]
  {
    RunInOrder(Initial(), ls, t);
  }

  // ---------------------------------------------------------------- an unreadable journal

  /** The cursor has passed no command that is still owed and was not published. */
  ghost predicate NothingPassed(s: State) {
    forall p: nat :: 1 <= p < s.cursor && Owed(s.log, p, s.now, s.before) ==> p in s.published
  }

  /** A live delivery that goes through: begun, published and settled. */
  function Delivered(s: State, o: nat): State
    requires Enabled(s, BeginDeliver(o))
  {
    Next(Next(Next(s, BeginDeliver(o)), Publish), Settle)
  }

  /** In every state of a guarded run without crashes, a live delivery that goes through keeps the promise
      if and only if nothing is owed below it, the check that an unreadable journal makes the code leave out. */
  lemma {:induction false} UnreadableJournalSkips(ls: seq<Label>, s: State, o: nat)
    requires Runs(Initial(), ls, s) && GuardedRun(Initial(), ls) && Crash !in ls
    requires Enabled(s, BeginDeliver(o)) && s.Has(o) && s.At(o).topic in s.subs
    ensures Delivered(s, o).cursor == o + 1 && (NothingPassed(Delivered(s, o)) <==> Guarded(s, BeginDeliver(o)))
  {
    hide Runs, GuardedRun;
    RunSkipsNone(Initial(), ls, s);
    RunInOrder(Initial(), ls, s);
    var t := Delivered(s, o);
    var from: nat := Max(s.cursor, s.before);
    assert t.published == s.published + [o];
    OwedListHas(s.log, from, o, s.now, s.before);
    if Guarded(s, BeginDeliver(o)) {
      forall p: nat | 1 <= p < t.cursor && Owed(t.log, p, t.now, t.before) ensures p in t.published {
        assert p < s.cursor ==> Dealt(s, p);
        assert s.cursor <= p < o ==> p in OwedList(s.log, from, o, s.now, s.before);
      }
    } else {
      var p := OwedList(s.log, from, o, s.now, s.before)[0];
      assert p in OwedList(s.log, from, o, s.now, s.before);
      assert p !in s.published;
    }
  }

  /** A run that skips: the first command is held back while the machine is away, the journal becomes
      unreadable, and the second command goes through. */
  lemma {:induction false} AnUnreadableJournalRun(c: Command) returns (ls: seq<Label>, t: State)
    requires c.mine && !c.hasDeadline
    ensures Runs(Initial(), ls, t) && Crash !in ls && t.cursor == 3 && Owed(t.log, 1, t.now, t.before)
    ensures 1 !in t.published
  {
    hide Runs, OwedList, Owed, Delivered;
    var s5 := TwoHeld(c);
    t := Delivered(s5, 2);
    DeliveredSecond(c);
    var s1 := Next(Initial(), Append(c));
    var s2 := Next(s1, Hold(1));
    var s3 := Next(s2, Journal(false));
    var s4 := Next(s3, Subscribe({c.topic}));
    assert Next(s4, Append(c)) == s5;
    var l6 := RunsDelivered(s5, 2);
    var l5 := RunsOne(s4, Append(c), l6, t);
    var l4 := RunsOne(s3, Subscribe({c.topic}), l5, t);
    var l3 := RunsOne(s2, Journal(false), l4, t);
    var l2 := RunsOne(s1, Hold(1), l3, t);
    ls := RunsOne(Initial(), Append(c), l2, t);
  }

  /** The first command was held back, the journal lost, and a second command waits. */
  function TwoHeld(c: Command): State {
    State([c, c], 0, 0, false, {c.topic}, 1, {2}, Free, [])
  }

  lemma {:induction false} DeliveredSecond(c: Command)
    requires c.mine && !c.hasDeadline
    ensures var t := Delivered(TwoHeld(c), 2);
            t.cursor == 3 && Owed(t.log, 1, t.now, t.before) && 1 !in t.published
  {
  }

  lemma {:induction false} RunsDelivered(s: State, o: nat) returns (ls: seq<Label>)
    requires Enabled(s, BeginDeliver(o))
    ensures Runs(s, ls, Delivered(s, o)) && Crash !in ls
  {
    hide Runs, OwedList;
    var t := Delivered(s, o);
    RunsNone(t);
    var l3 := RunsOne(Next(Next(s, BeginDeliver(o)), Publish), Settle, [], t);
    var l2 := RunsOne(Next(s, BeginDeliver(o)), Publish, l3, t);
    ls := RunsOne(s, BeginDeliver(o), l2, t);
  }

  lemma {:induction false} RunsNone(t: State)
    ensures Runs(t, [], t)
  {
  }

  lemma {:induction false} RunsOne(s: State, l: Label, ls: seq<Label>, t: State) returns (all: seq<Label>)
    requires Enabled(s, l) && Runs(Next(s, l), ls, t)
    ensures all == [l] + ls && Runs(s, all, t)
  {
    all := [l] + ls;
    assert all[1..] == ls;
  }

  lemma {:induction false} RunsConcat(s: State, a: seq<Label>, m: State, b: seq<Label>, t: State)
    requires Runs(s, a, m) && Runs(m, b, t)
    ensures Runs(s, a + b, t)
    decreases |a|
  {
    hide Next, Enabled;
    if a == [] {
      assert a + b == b;
    } else {
      RunsConcat(Next(s, a[0]), a[1..], m, b, t);
      assert (a + b)[1..] == a[1..] + b;
    }
  }

  // ---------------------------------------------------------------- no bound without the check

  function UpTo(n: nat): seq<nat> { seq(n, i requires 0 <= i => i + 1) }

  /** n commands, each published and none settled, with the journal lost. */
  function Unsettled(c: Command, n: nat): State {
    State(seq(n, i => c), 0, 0, false, {c.topic}, 1, {}, Free, UpTo(n))
  }

  /** One more command is appended, delivered without the check and published before the node crashes. */
  lemma {:induction false} OneMoreUnsettled(c: Command, n: nat) returns (ls: seq<Label>)
    requires c.mine
    ensures Runs(Unsettled(c, n), ls, Unsettled(c, n + 1))
  {
    hide Runs, OwedList;
    var s, t := Unsettled(c, n), Unsettled(c, n + 1);
    var s1 := Next(s, Append(c));
    assert s1.log == t.log && s1.pending == {n + 1};
    var s2 := Next(s1, BeginDeliver(n + 1));
    var s3 := Next(s2, Publish);
    assert s3.published == t.published;
    assert Next(s3, Crash) == t;
    RunsNone(t);
    var l4 := RunsOne(s3, Crash, [], t);
    var l3 := RunsOne(s2, Publish, l4, t);
    var l2 := RunsOne(s1, BeginDeliver(n + 1), l3, t);
    ls := RunsOne(s, Append(c), l2, t);
  }

  lemma {:induction false} UnsettledRun(c: Command, n: nat) returns (ls: seq<Label>)
    requires c.mine
    ensures Runs(Initial(), ls, Unsettled(c, n))
  {
    hide Runs;
    if n == 0 {
      var s, t := Next(Initial(), Journal(false)), Unsettled(c, 0);
      assert Next(s, Subscribe({c.topic})) == t;
      RunsNone(t);
      var l2 := RunsOne(s, Subscribe({c.topic}), [], t);
      ls := RunsOne(Initial(), Journal(false), l2, t);
    } else {
      var a := UnsettledRun(c, n - 1);
      var b := OneMoreUnsettled(c, n - 1);
      ls := a + b;
      RunsConcat(Initial(), a, Unsettled(c, n - 1), b, Unsettled(c, n));
    }
  }

  lemma {:induction false} CountUpTo(n: nat, xs: set<nat>)
    requires forall o :: o in xs <==> 1 <= o <= n
    ensures |xs| == n
  {
    if n == 0 {
      assert xs == {};
    } else {
      CountUpTo(n - 1, xs - {n});
    }
  }

  /** With the journal unreadable there is no bound: for every n a run ends with n commands that the next
      subscribe publishes again. */
  lemma {:induction false} UncheckedDeliveriesRepeatWithoutBound(c: Command, n: nat) returns (ls: seq<Label>, t: State)
    requires c.mine && !c.hasDeadline
    ensures Runs(Initial(), ls, t) && |Repeats(t)| == n
  {
    hide Runs;
    ls := UnsettledRun(c, n);
    t := Unsettled(c, n);
    forall o: nat ensures o in Repeats(t) <==> 1 <= o <= n {
      assert 1 <= o <= n ==> UpTo(n)[o - 1] == o;
    }
    CountUpTo(n, Repeats(t));
  }
}
