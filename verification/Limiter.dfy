/**
 The request limiter: per caller a token bucket and a bound on open requests, and one bound on the
 open requests of a class over all callers. Idle buckets are forgotten. Times are in nanoseconds.
 */
module Limiter {
  import opened Basics

  const SECOND: int := 1_000_000_000
  const MILLISECOND: int := 1_000_000

  /** The bounds of one class; a field that is not positive turns its bound off. */
  datatype Policy = Policy(rate: real, burst: int, perCaller: int, inAll: int)
  {
    predicate Rated() { rate > 0.0 && burst > 0 }
  }

  /** A route class and a caller. */
  datatype Key = Key(class_: string, caller: string)

  datatype Bucket = Bucket(tokens: real, last: int, lastSeen: int, active: nat)

  datatype Reason = OverRate | CallerConcurrency | GlobalConcurrency | Callers

  datatype Answer = Granted(grant: nat) | Refused(reason: Reason, retryAfter: int, limit: int)

  // ---------------------------------------------------------------- tokens

  /** What a bucket earns from s to t. */
  function Earned(p: Policy, s: int, t: int): real {
    (t - s) as real / SECOND as real * p.rate
  }

  lemma {:induction false} EarnedSum(p: Policy, s: int, t: int, u: int)
    ensures Earned(p, s, t) + Earned(p, t, u) == Earned(p, s, u)
  {
    var a, b := (t - s) as real / SECOND as real, (u - t) as real / SECOND as real;
    assert a + b == (u - s) as real / SECOND as real;
    assert a * p.rate + b * p.rate == (a + b) * p.rate;
  }

  lemma {:induction false} EarnedGrows(p: Policy, s: int, t: int)
    requires p.Rated() && s <= t
    ensures Earned(p, s, t) >= 0.0
  {
    var a := (t - s) as real / SECOND as real;
    assert a >= 0.0;
  }

  function MinReal(a: real, b: real): real { if a < b then a else b }

  function Refill(b: Bucket, now: int, p: Policy): Bucket {
    if !p.Rated() then b.(last := now)
    else if now > b.last then b.(tokens := MinReal(p.burst as real, b.tokens + Earned(p, b.last, now)), last := now)
    else b
  }

  function Fresh(now: int, p: Policy): Bucket { Bucket(p.burst as real, now, now, 0) }

  /** Any run of admissions since the bucket was made is within the burst and what its time span earned. */
  ghost predicate Spaced(times: seq<int>, p: Policy) {
    forall i, j :: 0 <= i <= j < |times| ==> (j - i + 1) as real <= p.burst as real + Earned(p, times[i], times[j])
  }

  /** The tokens left and the admissions so far are within the burst and what was earned. */
  ghost predicate Paid(b: Bucket, times: seq<int>, p: Policy) {
    && 0.0 <= b.tokens <= p.burst as real
    && (forall i :: 0 <= i < |times| ==> times[i] <= b.last)
    && (forall i :: 0 <= i < |times| ==>
          (|times| - i) as real + b.tokens <= p.burst as real + Earned(p, times[i], b.last))
  }

  ghost predicate InBudget(b: Bucket, times: seq<int>, p: Policy) {
    p.Rated() ==> Paid(b, times, p) && Spaced(times, p)
  }

  lemma {:induction false} RefillPaid(b: Bucket, times: seq<int>, p: Policy, now: int)
    requires p.Rated() && Paid(b, times, p)
    ensures Paid(Refill(b, now, p), times, p)
  {
    if now > b.last {
      EarnedGrows(p, b.last, now);
      var c := Refill(b, now, p);
      forall i | 0 <= i < |times|
        ensures (|times| - i) as real + c.tokens <= p.burst as real + Earned(p, times[i], c.last)
      {
        EarnedSum(p, times[i], b.last, now);
      }
    }
  }

  /** Spending a token on an admission keeps the account. */
  lemma {:induction false} SpendPaid(b: Bucket, times: seq<int>, p: Policy)
    requires p.Rated() && Paid(b, times, p) && Spaced(times, p) && b.tokens >= 1.0
    ensures Paid(b.(tokens := b.tokens - 1.0), times + [b.last], p) && Spaced(times + [b.last], p)
  {
    var after := times + [b.last];
    assert Earned(p, b.last, b.last) == 0.0;
    forall i, j | 0 <= i <= j < |after| ensures (j - i + 1) as real <= p.burst as real + Earned(p, after[i], after[j]) {
      if j < |times| {
        assert (j - i + 1) as real <= p.burst as real + Earned(p, times[i], times[j]);
      }
    }
  }

  lemma {:induction false} FreshInBudget(now: int, p: Policy)
    ensures InBudget(Fresh(now, p), [], p)
  {
  }

  /** Forgetting a bucket that was idle for the whole TTL gives its caller nothing, when the TTL refills the burst. */
  lemma {:induction false} SweptWasFull(b: Bucket, times: seq<int>, p: Policy, now: int, idleTTL: int)
    requires p.Rated() && Paid(b, times, p) && b.last <= b.lastSeen && now - b.lastSeen > idleTTL >= 0
    requires p.burst as real <= Earned(p, 0, idleTTL)
    ensures Refill(b, now, p).tokens == Fresh(now, p).tokens && Refill(b, now, p).last == Fresh(now, p).last
  {
    EarnedSum(p, 0, idleTTL, now - b.last);
    EarnedGrows(p, idleTTL, now - b.last);
    assert Earned(p, 0, now - b.last) == Earned(p, b.last, now);
  }

  function Ceil(x: real): int { -((-x).Floor) }

  function RetryAfter(tokens: real, p: Policy): int
    requires p.rate > 0.0
  {
    var delay := Ceil((1.0 - tokens) / p.rate * SECOND as real);
    if delay < MILLISECOND then MILLISECOND else delay
  }

  /** A caller refused for its rate has a token again when it comes back after the delay it was told. */
  lemma {:induction false} RetryAfterSuffices(b: Bucket, p: Policy)
    requires p.Rated() && b.tokens < 1.0
    ensures Refill(b, b.last + RetryAfter(b.tokens, p), p).tokens >= 1.0
  {
    var delay := RetryAfter(b.tokens, p);
    var missing := 1.0 - b.tokens;
    var x := missing / p.rate * SECOND as real;
    assert delay as real >= x;
    assert delay as real / SECOND as real >= missing / p.rate;
    assert delay as real / SECOND as real * p.rate >= missing / p.rate * p.rate;
    assert missing / p.rate * p.rate == missing;
    assert Earned(p, b.last, b.last + delay) >= missing;
    assert p.burst as real >= 1.0;
  }

  // ---------------------------------------------------------------- open grants

  /** The grants a caller, and a class, holds open. */
  function GrantsOf(open: map<nat, Key>, k: Key): set<nat> { set g | g in open && open[g] == k }

  function GrantsIn(open: map<nat, Key>, c: string): set<nat> { set g | g in open && open[g].class_ == c }

  function Holding(open: map<nat, Key>, k: Key): nat { |GrantsOf(open, k)| }

  function ClassHolding(open: map<nat, Key>, c: string): nat { |GrantsIn(open, c)| }

  lemma {:induction false} HoldingOpened(open: map<nat, Key>, g: nat, to: Key, k: Key)
    requires g !in open
    ensures Holding(open[g := to], k) == Holding(open, k) + if k == to then 1 else 0
  {
    var later := open[g := to];
    assert GrantsOf(later, k) == if k == to then GrantsOf(open, k) + {g} else GrantsOf(open, k);
  }

  lemma {:induction false} ClassHoldingOpened(open: map<nat, Key>, g: nat, to: Key, c: string)
    requires g !in open
    ensures ClassHolding(open[g := to], c) == ClassHolding(open, c) + if c == to.class_ then 1 else 0
  {
    var later := open[g := to];
    assert GrantsIn(later, c) == if c == to.class_ then GrantsIn(open, c) + {g} else GrantsIn(open, c);
  }

  lemma {:induction false} HoldingReleased(open: map<nat, Key>, g: nat, k: Key)
    requires g in open
    ensures Holding(open - {g}, k) == Holding(open, k) - if k == open[g] then 1 else 0
    ensures ClassHolding(open - {g}, k.class_) ==
            ClassHolding(open, k.class_) - if k.class_ == open[g].class_ then 1 else 0
  {
    HoldingOpened(open - {g}, g, open[g], k);
    ClassHoldingOpened(open - {g}, g, open[g], k.class_);
    assert (open - {g})[g := open[g]] == open;
  }

  function Active(buckets: map<Key, Bucket>, k: Key): nat { if k in buckets then buckets[k].active else 0 }

  function InAll(global: map<string, nat>, c: string): nat { if c in global then global[c] else 0 }

  /** The counters are exactly the open grants. */
  ghost predicate Counted(buckets: map<Key, Bucket>, open: map<nat, Key>) {
    forall k: Key :: Active(buckets, k) == Holding(open, k)
  }

  ghost predicate CountedInAll(global: map<string, nat>, open: map<nat, Key>) {
    forall c: string :: InAll(global, c) == ClassHolding(open, c)
  }

  lemma {:induction false} CountedForget(buckets: map<Key, Bucket>, open: map<nat, Key>, k: Key)
    requires Counted(buckets, open) && k in buckets && buckets[k].active == 0
    ensures Counted(buckets - {k}, open)
  {
    forall j: Key ensures Active(buckets - {k}, j) == Holding(open, j) {
      assert Active(buckets, j) == Holding(open, j);
    }
  }

  lemma {:induction false} CountedPut(buckets: map<Key, Bucket>, open: map<nat, Key>, k: Key, b: Bucket)
    requires Counted(buckets, open) && b.active == Active(buckets, k)
    ensures Counted(buckets[k := b], open)
  {
    forall j: Key ensures Active(buckets[k := b], j) == Holding(open, j) {
      assert Active(buckets, j) == Holding(open, j);
    }
  }

  lemma {:induction false} CountedGrant(buckets: map<Key, Bucket>, global: map<string, nat>, open: map<nat, Key>,
                                        g: nat, k: Key, b: Bucket)
    requires Counted(buckets, open) && CountedInAll(global, open) && g !in open && b.active == Active(buckets, k) + 1
    ensures Counted(buckets[k := b], open[g := k])
    ensures CountedInAll(global[k.class_ := InAll(global, k.class_) + 1], open[g := k])
  {
    var after, later, inAll := buckets[k := b], open[g := k], global[k.class_ := InAll(global, k.class_) + 1];
    forall j: Key ensures Active(after, j) == Holding(later, j) {
      assert Active(buckets, j) == Holding(open, j);
      HoldingOpened(open, g, k, j);
    }
    forall c: string ensures InAll(inAll, c) == ClassHolding(later, c) {
      assert InAll(global, c) == ClassHolding(open, c);
      ClassHoldingOpened(open, g, k, c);
    }
  }

  lemma {:induction false} CountedRelease(buckets: map<Key, Bucket>, global: map<string, nat>, open: map<nat, Key>,
                                          g: nat, seen: int)
    requires Counted(buckets, open) && CountedInAll(global, open) && g in open
    ensures var k := open[g];
            && k in buckets && buckets[k].active > 0 && k.class_ in global && global[k.class_] > 0
            && Counted(buckets[k := buckets[k].(active := buckets[k].active - 1, lastSeen := seen)], open - {g})
            && CountedInAll(global[k.class_ := global[k.class_] - 1], open - {g})
  {
    var k := open[g];
    assert g in GrantsOf(open, k) && g in GrantsIn(open, k.class_);
    assert Active(buckets, k) == Holding(open, k) > 0;
    assert InAll(global, k.class_) == ClassHolding(open, k.class_) > 0;
    var after := buckets[k := buckets[k].(active := buckets[k].active - 1, lastSeen := seen)];
    forall j: Key ensures Active(after, j) == Holding(open - {g}, j) {
      assert Active(buckets, j) == Holding(open, j);
      HoldingReleased(open, g, j);
    }
    forall c: string ensures InAll(global[k.class_ := global[k.class_] - 1], c) == ClassHolding(open - {g}, c) {
      assert InAll(global, c) == ClassHolding(open, c);
      HoldingReleased(open, g, Key(c, ""));
    }
  }

  /** No caller and no class holds more than its policy allows. */
  ghost predicate Bounded(open: map<nat, Key>, policies: string -> Policy) {
    && (forall k: Key :: policies(k.class_).perCaller > 0 ==> Holding(open, k) <= policies(k.class_).perCaller)
    && (forall c: string :: policies(c).inAll > 0 ==> ClassHolding(open, c) <= policies(c).inAll)
  }

  lemma {:induction false} BoundedGrant(open: map<nat, Key>, policies: string -> Policy, g: nat, to: Key)
    requires Bounded(open, policies) && g !in open
    requires policies(to.class_).perCaller > 0 ==> Holding(open, to) < policies(to.class_).perCaller
    requires policies(to.class_).inAll > 0 ==> ClassHolding(open, to.class_) < policies(to.class_).inAll
    ensures Bounded(open[g := to], policies)
  {
    forall k: Key | policies(k.class_).perCaller > 0 ensures Holding(open[g := to], k) <= policies(k.class_).perCaller {
      HoldingOpened(open, g, to, k);
    }
    forall c: string | policies(c).inAll > 0 ensures ClassHolding(open[g := to], c) <= policies(c).inAll {
      ClassHoldingOpened(open, g, to, c);
    }
  }

  lemma {:induction false} BoundedRelease(open: map<nat, Key>, policies: string -> Policy, g: nat)
    requires Bounded(open, policies) && g in open
    ensures Bounded(open - {g}, policies)
  {
    forall k: Key | policies(k.class_).perCaller > 0 ensures Holding(open - {g}, k) <= policies(k.class_).perCaller {
      HoldingReleased(open, g, k);
    }
    forall c: string | policies(c).inAll > 0 ensures ClassHolding(open - {g}, c) <= policies(c).inAll {
      HoldingReleased(open, g, Key(c, ""));
    }
  }

  // ---------------------------------------------------------------- all buckets

  /** Every bucket keeps its account; admitted holds each bucket's admissions since it was made. */
  ghost predicate AllInBudget(buckets: map<Key, Bucket>, admitted: map<Key, seq<int>>, policies: string -> Policy) {
    admitted.Keys == buckets.Keys && forall k :: k in buckets ==> InBudget(buckets[k], admitted[k], policies(k.class_))
  }

  /** No bucket was refilled after it was last seen. */
  ghost predicate Seen(buckets: map<Key, Bucket>, clock: int) {
    forall k :: k in buckets ==> buckets[k].last <= buckets[k].lastSeen <= clock
  }

  predicate Idle(b: Bucket, now: int, idleTTL: int) {
    b.active == 0 && now - b.lastSeen > idleTTL
  }

  lemma {:induction false} SizeForget(buckets: map<Key, Bucket>, k: Key)
    requires k in buckets
    ensures |buckets - {k}| == |buckets| - 1
  {
    assert (buckets - {k}).Keys == buckets.Keys - {k};
  }

  lemma {:induction false} FewerBuckets(before: map<Key, Bucket>, after: map<Key, Bucket>)
    requires after.Keys <= before.Keys
    ensures |after| <= |before|
  {
    assert before.Keys == after.Keys + (before.Keys - after.Keys);
  }

  lemma {:induction false} SizePut(buckets: map<Key, Bucket>, k: Key, b: Bucket)
    ensures |buckets[k := b]| == |buckets| + if k in buckets then 0 else 1
  {
    assert buckets[k := b].Keys == buckets.Keys + {k};
    if k in buckets {
      assert buckets.Keys + {k} == buckets.Keys;
    }
  }

  lemma {:induction false} AllInBudgetPut(buckets: map<Key, Bucket>, admitted: map<Key, seq<int>>,
                                          policies: string -> Policy,
                                          k: Key, b: Bucket, times: seq<int>)
    requires AllInBudget(buckets, admitted, policies) && InBudget(b, times, policies(k.class_))
    ensures AllInBudget(buckets[k := b], admitted[k := times], policies)
  {
  }

  lemma {:induction false} OneInBudget(buckets: map<Key, Bucket>, admitted: map<Key, seq<int>>,
                                       policies: string -> Policy, k: Key)
    requires AllInBudget(buckets, admitted, policies) && k in buckets
    ensures k in admitted && InBudget(buckets[k], admitted[k], policies(k.class_))
  {
  }

  lemma {:induction false} SeenPut(buckets: map<Key, Bucket>, clock: int, k: Key, b: Bucket)
    requires Seen(buckets, clock) && b.last <= b.lastSeen <= clock
    ensures Seen(buckets[k := b], clock)
  {
  }

  lemma {:induction false} TouchInBudget(b: Bucket, times: seq<int>, p: Policy, now: int)
    requires InBudget(b, times, p)
    ensures InBudget(Refill(b.(lastSeen := now), now, p), times, p)
  {
    if p.Rated() {
      RefillPaid(b.(lastSeen := now), times, p, now);
    }
  }

  lemma {:induction false} TouchPaid(b: Bucket, times: seq<int>, p: Policy, now: int)
    ensures p.Rated() && Paid(b, times, p) ==> Paid(Refill(b.(lastSeen := now), now, p), times, p)
  {
    if p.Rated() && Paid(b, times, p) {
      RefillPaid(b.(lastSeen := now), times, p, now);
    }
  }

  lemma {:induction false} GrantInBudget(b: Bucket, times: seq<int>, p: Policy, after: Bucket)
    requires InBudget(b, times, p) && (p.Rated() ==> b.tokens >= 1.0)
    requires after == b.(active := b.active + 1, tokens := if p.Rated() then b.tokens - 1.0 else b.tokens)
    ensures InBudget(after, times + [b.last], p)
  {
    if p.Rated() {
      SpendPaid(b, times, p);
    }
  }

  lemma {:induction false} ReleaseInBudget(b: Bucket, times: seq<int>, p: Policy, after: Bucket)
    requires InBudget(b, times, p) && after.tokens == b.tokens && after.last == b.last
    ensures InBudget(after, times, p)
  {
  }

  lemma {:induction false} SeenGrant(buckets: map<Key, Bucket>, clock: int, k: Key, b: Bucket)
    requires Seen(buckets, clock) && k in buckets && b.last == buckets[k].last && b.lastSeen == buckets[k].lastSeen
    ensures Seen(buckets[k := b], clock)
  {
  }

  lemma {:induction false} SeenRelease(buckets: map<Key, Bucket>, clock: int, k: Key, b: Bucket)
    requires Seen(buckets, clock) && k in buckets && b.last == buckets[k].last
    requires buckets[k].lastSeen <= b.lastSeen <= clock
    ensures Seen(buckets[k := b], clock)
  {
  }

  // ---------------------------------------------------------------- over many buckets of one caller

  /** The TTL earns a whole burst. */
  predicate Refills(p: Policy, idleTTL: int) {
    p.Rated() && idleTTL >= 0 && p.burst as real <= Earned(p, 0, idleTTL)
  }

  /** The key's admissions over all its buckets. */
  function Ever(ever: map<Key, seq<int>>, k: Key): seq<int> { if k in ever then ever[k] else [] }

  /** The account of all the key's admissions: with its bucket, or with a full one while it has none. */
  ghost predicate LifeAt(buckets: map<Key, Bucket>, times: seq<int>, k: Key, p: Policy, clock: int) {
    Spaced(times, p) && Paid(if k in buckets then buckets[k] else Fresh(clock, p), times, p)
  }

  ghost predicate Lifelong(buckets: map<Key, Bucket>, ever: map<Key, seq<int>>, gone: set<Key>,
                           policies: string -> Policy, idleTTL: int, clock: int)
  {
    forall k: Key :: k !in gone && Refills(policies(k.class_), idleTTL) ==>
      LifeAt(buckets, Ever(ever, k), k, policies(k.class_), clock)
  }

  /** A full bucket stays full. */
  lemma {:induction false} FreshLater(times: seq<int>, p: Policy, clock: int, now: int)
    requires p.Rated() && clock <= now && Paid(Fresh(clock, p), times, p)
    ensures Paid(Fresh(now, p), times, p)
  {
    EarnedGrows(p, clock, now);
    forall i | 0 <= i < |times|
      ensures (|times| - i) as real + p.burst as real <= p.burst as real + Earned(p, times[i], now)
    {
      EarnedSum(p, times[i], clock, now);
    }
  }

  lemma {:induction false} LifelongTick(buckets: map<Key, Bucket>, ever: map<Key, seq<int>>, gone: set<Key>,
                                        policies: string -> Policy, idleTTL: int, clock: int, now: int)
    requires Lifelong(buckets, ever, gone, policies, idleTTL, clock) && clock <= now
    ensures Lifelong(buckets, ever, gone, policies, idleTTL, now)
  {
    forall k: Key | k !in gone && Refills(policies(k.class_), idleTTL)
      ensures LifeAt(buckets, Ever(ever, k), k, policies(k.class_), now)
    {
      if k !in buckets {
        FreshLater(Ever(ever, k), policies(k.class_), clock, now);
      }
    }
  }

  /** Sweeping an idle bucket leaves the caller's account as it is; an evicted caller's is not kept. */
  lemma {:induction false} LifelongSweep(buckets: map<Key, Bucket>, ever: map<Key, seq<int>>, gone: set<Key>,
                                         policies: string -> Policy, idleTTL: int, clock: int, k: Key)
    requires Lifelong(buckets, ever, gone, policies, idleTTL, clock) && k in buckets
    requires k !in gone ==> Idle(buckets[k], clock, idleTTL) && buckets[k].last <= buckets[k].lastSeen
    ensures Lifelong(buckets - {k}, ever, gone, policies, idleTTL, clock)
  {
    forall j: Key | j !in gone && Refills(policies(j.class_), idleTTL)
      ensures LifeAt(buckets - {k}, Ever(ever, j), j, policies(j.class_), clock)
    {
      if j == k {
        SweptWasFull(buckets[k], Ever(ever, k), policies(k.class_), clock, idleTTL);
        RefillPaid(buckets[k], Ever(ever, k), policies(k.class_), clock);
      }
    }
  }

  lemma {:induction false} LifelongPut(buckets: map<Key, Bucket>, ever: map<Key, seq<int>>, gone: set<Key>,
                                       policies: string -> Policy, idleTTL: int, clock: int, k: Key, b: Bucket)
    requires Lifelong(buckets, ever, gone, policies, idleTTL, clock)
    requires k !in gone && Refills(policies(k.class_), idleTTL) ==> Paid(b, Ever(ever, k), policies(k.class_))
    ensures Lifelong(buckets[k := b], ever, gone, policies, idleTTL, clock)
  {
    forall j: Key | j !in gone && Refills(policies(j.class_), idleTTL)
      ensures LifeAt(buckets[k := b], Ever(ever, j), j, policies(j.class_), clock)
    {
      assert LifeAt(buckets, Ever(ever, j), j, policies(j.class_), clock);
    }
  }

  lemma {:induction false} LifelongGrant(buckets: map<Key, Bucket>, ever: map<Key, seq<int>>, gone: set<Key>,
                                         policies: string -> Policy, idleTTL: int, clock: int, k: Key, b: Bucket)
    requires Lifelong(buckets, ever, gone, policies, idleTTL, clock) && k in buckets && b.last == buckets[k].last
    requires policies(k.class_).Rated() ==> buckets[k].tokens >= 1.0 && b.tokens == buckets[k].tokens - 1.0
    ensures Lifelong(buckets[k := b], ever[k := Ever(ever, k) + [b.last]], gone, policies, idleTTL, clock)
  {
    var after, more := buckets[k := b], ever[k := Ever(ever, k) + [b.last]];
    forall j: Key | j !in gone && Refills(policies(j.class_), idleTTL)
      ensures LifeAt(after, Ever(more, j), j, policies(j.class_), clock)
    {
      assert LifeAt(buckets, Ever(ever, j), j, policies(j.class_), clock);
      if j == k {
        SpendPaid(buckets[k], Ever(ever, k), policies(k.class_));
      }
    }
  }

  lemma {:induction false} LifelongRelease(buckets: map<Key, Bucket>, ever: map<Key, seq<int>>, gone: set<Key>,
                                           policies: string -> Policy, idleTTL: int, clock: int, k: Key, b: Bucket)
    requires Lifelong(buckets, ever, gone, policies, idleTTL, clock) && k in buckets && b.tokens == buckets[k].tokens
    requires b.last == buckets[k].last
    ensures Lifelong(buckets[k := b], ever, gone, policies, idleTTL, clock)
  {
    if k !in gone && Refills(policies(k.class_), idleTTL) {
      assert LifeAt(buckets, Ever(ever, k), k, policies(k.class_), clock);
    }
    LifelongPut(buckets, ever, gone, policies, idleTTL, clock, k, b);
  }

  lemma {:induction false} LifelongOne(buckets: map<Key, Bucket>, ever: map<Key, seq<int>>, gone: set<Key>,
                                       policies: string -> Policy, idleTTL: int, clock: int, k: Key)
    requires Lifelong(buckets, ever, gone, policies, idleTTL, clock)
    requires k !in gone && Refills(policies(k.class_), idleTTL)
    ensures LifeAt(buckets, Ever(ever, k), k, policies(k.class_), clock)
  {
  }

  class Requests {
    const maxCallers: nat
    const idleTTL: int
    ghost const policies: string -> Policy
    var buckets: map<Key, Bucket>
    var global: map<string, nat>
    var lastSweep: Option<int>
    /** The grants whose release was not called yet. */
    var open: map<nat, Key>
    var nextGrant: nat
    /** Each bucket's admissions since it was made, and each key's over all its buckets. */
    ghost var admitted: map<Key, seq<int>>
    ghost var ever: map<Key, seq<int>>
    /** The latest time seen; whether time never went back; whose buckets were evicted to make room. */
    ghost var clock: int
    ghost var steady: bool
    ghost var evicted: set<Key>

    ghost predicate Valid()
      reads this
    {
      && Counted(buckets, open) && CountedInAll(global, open) && Bounded(open, policies)
      && (forall g :: g in open ==> g < nextGrant)
      && |buckets| <= maxCallers
      && AllInBudget(buckets, admitted, policies)
      && (steady ==> Seen(buckets, clock))
      && (steady ==> Lifelong(buckets, ever, evicted, policies, idleTTL, clock))
    }

    constructor (maxCallers: nat, idleTTL: int, ghost policies: string -> Policy, ghost since: int)
      ensures Valid() && open == map[] && buckets == map[] && ever == map[] && steady && evicted == {} && clock == since
      ensures this.maxCallers == maxCallers && this.idleTTL == idleTTL && this.policies == policies
    {
      this.maxCallers, this.idleTTL, this.policies := maxCallers, idleTTL, policies;
      buckets, global, lastSweep, open, nextGrant := map[], map[], None, map[], 0;
      admitted, ever, clock, steady, evicted := map[], map[], since, true, {};
      new;
      assert forall k: Key :: GrantsOf(open, k) == {};
      assert forall c: string :: GrantsIn(open, c) == {};
    }

    /** Forgets one idle bucket. */
    method Forget(k: Key)
      requires Valid() && k in buckets && buckets[k].active == 0
      requires steady && k !in evicted ==> Idle(buckets[k], clock, idleTTL)
      modifies this`buckets, this`admitted
      ensures Valid() && buckets == old(buckets) - {k} && admitted == old(admitted) - {k}
      ensures |buckets| == |old(buckets)| - 1
    {
      hide Counted, CountedInAll, Bounded, InBudget, Lifelong;
      CountedForget(buckets, open, k);
      SizeForget(buckets, k);
      if steady {
        LifelongSweep(buckets, ever, evicted, policies, idleTTL, clock, k);
      }
      buckets := buckets - {k};
      admitted := admitted - {k};
    }

    /** Forgets every bucket idle for longer than the TTL, at most once a minute. */
    method Sweep(now: int)
      requires Valid() && (steady ==> clock == now)
      modifies this`buckets, this`admitted, this`lastSweep
      ensures Valid() && buckets.Keys <= old(buckets).Keys
      ensures forall k :: k in buckets ==> buckets[k] == old(buckets)[k] && admitted[k] == old(admitted)[k]
      ensures forall k :: k in old(buckets) && k !in buckets ==> Idle(old(buckets)[k], now, idleTTL)
      ensures old(lastSweep).None? || now - old(lastSweep).value >= 60 * SECOND ==> forall k :: k in buckets ==>
                !Idle(buckets[k], now, idleTTL)
    {
      hide Counted, CountedInAll, Bounded, InBudget, Seen, Lifelong;
      if lastSweep.Some? && now - lastSweep.value < 60 * SECOND {
        return;
      }
      var left := buckets.Keys;
      while left != {}
        modifies this`buckets, this`admitted
        invariant Valid() && left <= buckets.Keys <= old(buckets).Keys
        invariant forall k :: k in buckets ==>
                  buckets[k] == old(buckets)[k] && k in admitted && admitted[k] == old(admitted)[k]
        invariant forall k :: k in old(buckets) && k !in buckets ==> Idle(old(buckets)[k], now, idleTTL)
        invariant forall k :: k in buckets && k !in left ==> !Idle(buckets[k], now, idleTTL)
        decreases left
      {
        var k :| k in left;
        if Idle(buckets[k], now, idleTTL) {
          Forget(k);
        }
        left := left - {k};
      }
      lastSweep := Some(now);
    }

    /** Forgets the idle bucket seen longest ago, if any is idle. */
    method EvictOldestIdle()
      requires Valid()
      modifies this`buckets, this`admitted, this`evicted
      ensures Valid() && buckets.Keys <= old(buckets).Keys
      ensures forall k :: k in buckets ==> buckets[k] == old(buckets)[k] && admitted[k] == old(admitted)[k]
      ensures buckets == old(buckets) ==> forall k :: k in buckets ==> buckets[k].active != 0
      ensures buckets != old(buckets) ==> |buckets| == |old(buckets)| - 1
      ensures evicted == old(evicted) + (old(buckets).Keys - buckets.Keys)
      ensures forall k, j :: k in old(buckets) && k !in buckets && j in old(buckets) && old(buckets)[j].active == 0 ==>
                old(buckets)[k].active == 0 && old(buckets)[k].lastSeen <= old(buckets)[j].lastSeen
    {
      hide Valid;
      var oldest: Option<Key> := None;
      var left := buckets.Keys;
      while left != {}
        invariant left <= buckets.Keys
        invariant oldest.Some? ==> oldest.value in buckets && buckets[oldest.value].active == 0
        invariant forall j :: j in buckets && j !in left && buckets[j].active == 0 ==>
                    oldest.Some? && buckets[oldest.value].lastSeen <= buckets[j].lastSeen
        decreases left
      {
        var k :| k in left;
        if buckets[k].active == 0 && (oldest.None? || buckets[k].lastSeen < buckets[oldest.value].lastSeen) {
          oldest := Some(k);
        }
        left := left - {k};
      }
      AdmittedKeys();
      if oldest.Some? {
        Evicting(oldest.value);
        Forget(oldest.value);
        AdmittedKeys();
      }
    }

    ghost method Evicting(k: Key)
      requires Valid()
      modifies this`evicted
      ensures Valid() && evicted == old(evicted) + {k}
    {
      evicted := evicted + {k};
    }

    lemma {:induction false} AdmittedKeys()
      requires Valid()
      ensures admitted.Keys == buckets.Keys
    {
    }

    /** Time is now: it may have gone back, as callers read the clock before they take the lock. */
    ghost method Tick(now: int)
      requires Valid()
      modifies this`clock, this`steady
      ensures Valid() && now <= clock && (steady ==> clock == now) && steady == (old(steady) && old(clock) <= now)
    {
      hide Counted, CountedInAll, Bounded, AllInBudget, Lifelong;
      steady := steady && clock <= now;
      if clock <= now {
        if steady {
          LifelongTick(buckets, ever, evicted, policies, idleTTL, clock, now);
        }
        clock := now;
      }
    }

    /** Puts a bucket that holds as many grants as the key has open. */
    method Put(k: Key, b: Bucket, ghost times: seq<int>)
      requires Valid() && b.active == Active(buckets, k) && InBudget(b, times, policies(k.class_))
      requires k in buckets || |buckets| < maxCallers
      requires steady ==> b.last <= b.lastSeen <= clock
      requires steady && k !in evicted && Refills(policies(k.class_), idleTTL) ==>
                 Paid(b, Ever(ever, k), policies(k.class_))
      modifies this`buckets, this`admitted
      ensures Valid() && buckets == old(buckets)[k := b] && admitted == old(admitted)[k := times]
    {
      hide Counted, CountedInAll, Bounded, AllInBudget, Seen, InBudget, Lifelong, Refills, Paid;
      if steady {
        LifelongPut(buckets, ever, evicted, policies, idleTTL, clock, k, b);
      }
      CountedPut(buckets, open, k, b);
      AllInBudgetPut(buckets, admitted, policies, k, b, times);
      SizePut(buckets, k, b);
      if steady {
        SeenPut(buckets, clock, k, b);
      }
      buckets := buckets[k := b];
      admitted := admitted[k := times];
    }

    /** Makes a full bucket. */
    method Make(k: Key, policy: Policy, now: int)
      requires Valid() && policy == policies(k.class_) && now <= clock && (steady ==> clock == now)
      requires k !in buckets && |buckets| < maxCallers
      modifies this`buckets, this`admitted
      ensures Valid() && buckets == old(buckets)[k := Fresh(now, policy)] && admitted == old(admitted)[k := []]
    {
      hide Valid, Holding, InBudget, Paid;
      FreshInBudget(now, policy);
      LifeFacts(k);
      Put(k, Fresh(now, policy), []);
    }

    /** Refills a bucket and notes that its caller was seen. */
    method Touch(k: Key, policy: Policy, now: int)
      requires Valid() && policy == policies(k.class_) && now <= clock && (steady ==> clock == now) && k in buckets
      modifies this`buckets, this`admitted
      ensures Valid() && buckets == old(buckets)[k := Refill(old(buckets)[k].(lastSeen := now), now, policy)]
      ensures admitted == old(admitted)
      ensures (policy.Rated() || steady) ==> buckets[k].last >= now
    {
      hide Valid, Holding, InBudget, Paid;
      Facts(k);
      TouchInBudget(buckets[k], admitted[k], policy, now);
      LifeFacts(k);
      TouchPaid(buckets[k], Ever(ever, k), policy, now);
      Put(k, Refill(buckets[k].(lastSeen := now), now, policy), admitted[k]);
      assert admitted == old(admitted);
    }

    /** The caller's bucket, made if need be and refilled to now; false when there is no room for one. */
    method BucketFor(k: Key, policy: Policy, now: int) returns (ok: bool)
      requires Valid() && policy == policies(k.class_) && now <= clock && (steady ==> clock == now)
      modifies this`buckets, this`admitted, this`lastSweep, this`evicted
      ensures Valid() && ok == (k in buckets)
      ensures !ok ==> |buckets| == maxCallers && forall j :: j in buckets ==> buckets[j].active != 0
      ensures ok ==> buckets[k].active == Holding(open, k) && InBudget(buckets[k], admitted[k], policy)
      ensures ok && (policy.Rated() || steady) ==> buckets[k].last >= now
      ensures old(evicted) <= evicted && (evicted != old(evicted) ==> |old(buckets)| >= maxCallers)
      ensures ok ==> admitted[k] == [] || (k in old(admitted) && admitted[k] == old(admitted)[k])
      ensures steady && ok ==> buckets[k].last <= buckets[k].lastSeen <= clock
    {
      hide Valid, Holding, InBudget, Refill;
      Facts(k);
      Sweep(now);
      Facts(k);
      FewerBuckets(old(buckets), buckets);
      if k !in buckets {
        if |buckets| >= maxCallers {
          EvictOldestIdle();
          Facts(k);
        }
        if |buckets| >= maxCallers {
          return false;
        }
        Make(k, policy, now);
      }
      Touch(k, policy, now);
      Facts(k);
      ok := true;
    }

    lemma {:induction false} LifeFacts(k: Key)
      requires Valid()
      ensures steady && k !in evicted && Refills(policies(k.class_), idleTTL) ==>
                Paid(if k in buckets then buckets[k]
                  else Fresh(clock, policies(k.class_)), Ever(ever, k), policies(k.class_))
    {
    }

    lemma {:induction false} Facts(k: Key)
      requires Valid()
      ensures Active(buckets, k) == Holding(open, k) && |buckets| <= maxCallers && admitted.Keys == buckets.Keys
      ensures k in buckets ==> InBudget(buckets[k], admitted[k], policies(k.class_))
      ensures k in buckets && steady ==> buckets[k].last <= buckets[k].lastSeen <= clock
    {
    }

    /** Counts an admitted request in its bucket, in its class, and among the open grants. */
    method Grant(k: Key, policy: Policy) returns (g: nat)
      requires Valid() && policy == policies(k.class_) && k in buckets
      requires policy.Rated() ==> buckets[k].tokens >= 1.0
      requires policy.perCaller > 0 ==> Holding(open, k) < policy.perCaller
      requires policy.inAll > 0 ==> ClassHolding(open, k.class_) < policy.inAll
      modifies this`buckets, this`global, this`open, this`nextGrant, this`admitted, this`ever
      ensures Valid() && g !in old(open) && open == old(open)[g := k]
      ensures ever == old(ever)[k := Ever(old(ever), k) + [old(buckets)[k].last]]
      ensures k in old(admitted) && admitted == old(admitted)[k := old(admitted)[k] + [old(buckets)[k].last]]
      ensures buckets.Keys == old(buckets).Keys && global.Keys == old(global).Keys + {k.class_}
      ensures buckets[k].lastSeen == old(buckets)[k].lastSeen && buckets[k].last == old(buckets)[k].last
    {
      hide Counted, CountedInAll, Bounded, AllInBudget, Seen, InBudget, Holding, ClassHolding, Lifelong, Ever, InAll;
      OneInBudget(buckets, admitted, policies, k);
      g := nextGrant;
      var b := buckets[k].(active := buckets[k].active + 1);
      if policy.Rated() {
        b := b.(tokens := b.tokens - 1.0);
      }
      ghost var times := admitted[k] + [b.last];
      GrantInBudget(buckets[k], admitted[k], policy, b);
      CountedGrant(buckets, global, open, g, k, b);
      BoundedGrant(open, policies, g, k);
      AllInBudgetPut(buckets, admitted, policies, k, b, times);
      SizePut(buckets, k, b);
      if steady {
        SeenGrant(buckets, clock, k, b);
      }
      if steady {
        LifelongGrant(buckets, ever, evicted, policies, idleTTL, clock, k, b);
      }
      ever := ever[k := Ever(ever, k) + [b.last]];
      buckets := buckets[k := b];
      global := global[k.class_ := InAll(global, k.class_) + 1];
      open := open[g := k];
      nextGrant := nextGrant + 1;
      admitted := admitted[k := times];
    }

    /** Admits one request or says which bound refused it. */
    method Acquire(class_: string, caller: string, policy: Policy, now: int) returns (a: Answer)
      requires Valid() && policy == policies(class_)
      modifies this
      ensures Valid() && steady == (old(steady) && old(clock) <= now)
      ensures a.Granted? ==> a.grant !in old(open) && open == old(open)[a.grant := Key(class_, caller)]
      ensures a.Refused? ==> open == old(open) && ever == old(ever)
      ensures a.Granted? ==>
                var k := Key(class_, caller);
                k in buckets && ever == old(ever)[k := Ever(old(ever), k) + [buckets[k].last]]
      ensures old(evicted) <= evicted && (evicted != old(evicted) ==> |old(buckets)| >= maxCallers)
      ensures var k := Key(class_, caller);
              match a
              case Granted(g) =>
                && (policy.perCaller > 0 ==> Holding(old(open), k) < policy.perCaller)
                && (policy.inAll > 0 ==> ClassHolding(old(open), class_) < policy.inAll)
                && k in buckets && k in admitted && admitted[k] != []
                && admitted[k][|admitted[k]| - 1] == buckets[k].last
                && (policy.Rated() || steady ==> buckets[k].last >= now)
              case Refused(CallerConcurrency, _, limit) => 0 < limit == policy.perCaller <= Holding(open, k)
              case Refused(GlobalConcurrency, _, limit) => 0 < limit == policy.inAll <= ClassHolding(open, class_)
              case Refused(OverRate, retryAfter, limit) =>
                && policy.Rated() && limit == policy.burst
                && k in buckets && buckets[k].tokens < 1.0 && retryAfter == RetryAfter(buckets[k].tokens, policy)
              case Refused(Callers, _, limit) =>
                k !in buckets && |buckets| == limit == maxCallers && forall j :: j in buckets ==> buckets[j].active != 0
    {
      hide Valid, Holding, ClassHolding, InBudget;
      Tick(now);
      var k := Key(class_, caller);
      var ok := BucketFor(k, policy, now);
      if !ok {
        return Refused(Callers, 0, maxCallers);
      }
      ClassFacts(class_);
      var b := buckets[k];
      if policy.perCaller > 0 && b.active >= policy.perCaller {
        return Refused(CallerConcurrency, 0, policy.perCaller);
      }
      if policy.inAll > 0 && InAll(global, class_) >= policy.inAll {
        return Refused(GlobalConcurrency, 0, policy.inAll);
      }
      if policy.Rated() && b.tokens < 1.0 {
        return Refused(OverRate, RetryAfter(b.tokens, policy), policy.burst);
      }
      var g := Grant(k, policy);
      a := Granted(g);
    }

    lemma {:induction false} ClassFacts(c: string)
      requires Valid()
      ensures InAll(global, c) == ClassHolding(open, c)
    {
    }

    /** Ends a granted request. Calling it again does nothing. */
    method Release(g: nat, now: int)
      requires Valid()
      modifies this
      ensures Valid() && open == old(open) - {g} && ever == old(ever) && evicted == old(evicted)
      ensures steady == (old(steady) && old(clock) <= now)
      ensures g !in old(open) ==> buckets == old(buckets) && global == old(global)
      ensures g in old(open) && old(open)[g] in old(buckets) ==>
                var k := old(open)[g];
                buckets == old(buckets)[k := old(buckets)[k].(active := Holding(open, k), lastSeen := now)]
    {
      hide Counted, CountedInAll, Bounded, AllInBudget, Seen, InBudget, Holding, Lifelong;
      Tick(now);
      if g !in open {
        assert open - {g} == open;
        return;
      }
      var k := open[g];
      Facts(k);
      CountedRelease(buckets, global, open, g, now);
      BoundedRelease(open, policies, g);
      OneInBudget(buckets, admitted, policies, k);
      var b := buckets[k].(active := buckets[k].active - 1, lastSeen := now);
      ReleaseInBudget(buckets[k], admitted[k], policies(k.class_), b);
      AllInBudgetPut(buckets, admitted, policies, k, b, admitted[k]);
      assert admitted[k := admitted[k]] == admitted;
      SizePut(buckets, k, b);
      if steady {
        SeenRelease(buckets, clock, k, b);
      }
      if steady {
        LifelongRelease(buckets, ever, evicted, policies, idleTTL, clock, k, b);
      }
      buckets := buckets[k := b];
      global := global[k.class_ := global[k.class_] - 1];
      open := open - {g};
      Facts(k);
    }

    /** Both concurrency bounds hold, and the counters are exactly the grants not released. */
    lemma {:induction false} BoundsHold(k: Key)
      requires Valid()
      ensures Active(buckets, k) == Holding(open, k) && InAll(global, k.class_) == ClassHolding(open, k.class_)
      ensures policies(k.class_).perCaller > 0 ==> Active(buckets, k) <= policies(k.class_).perCaller
      ensures policies(k.class_).inAll > 0 ==> InAll(global, k.class_) <= policies(k.class_).inAll
    {
      Facts(k);
      ClassFacts(k.class_);
    }

    /** From one admission of a bucket to a later one there are at most the burst and what the time between earned. */
    lemma {:induction false} RateHolds(k: Key, i: nat, j: nat)
      requires Valid() && k in buckets && i <= j < |admitted[k]| && policies(k.class_).Rated()
      ensures var p, times := policies(k.class_), admitted[k];
              (j - i + 1) as real <= p.burst as real + Earned(p, times[i], times[j])
    {
      OneInBudget(buckets, admitted, policies, k);
    }

    /** The same over all buckets a caller had, however many sweeps lie between: with steady time, no eviction
        of its own and a TTL that earns the burst, sweeping gives nothing extra. */
    lemma {:induction false} RateHoldsOverSweeps(k: Key, i: nat, j: nat)
      requires Valid() && steady && k !in evicted && Refills(policies(k.class_), idleTTL) && i <= j < |Ever(ever, k)|
      ensures var p, times := policies(k.class_), Ever(ever, k);
              (j - i + 1) as real <= p.burst as real + Earned(p, times[i], times[j])
    {
      LifelongOne(buckets, ever, evicted, policies, idleTTL, clock, k);
    }
  }
}
