/**
 Reading a time window of the logs stream page by page. The stream is appended nearly in time
 order: timestamps are at most SKEW out of append order. A page starts at a binary search for the
 window's start and ends at a record past the window, at the head, or at a budget; `next` resumes it.
 */
module FetchLogs {
  import opened Basics

  const MIN64: int := -0x8000_0000_0000_0000
  const MAX64: int := 0x7fff_ffff_ffff_ffff
  const SKEW: int := 3_600_000

  /** Two's complement addition's result. */
  function Wrap64(x: int): int {
    (x + 0x8000_0000_0000_0000) % 0x1_0000_0000_0000_0000 - 0x8000_0000_0000_0000
  }

  function AddSat(a: int, b: int): int {
    var s := Wrap64(a + b);
    if b > 0 && s < a then MAX64 else if b < 0 && s > a then MIN64 else s
  }

  /** Saturating addition is the sum held within 64 bits. */
  lemma {:induction false} AddSatClamps(a: int, b: int)
    requires MIN64 <= a <= MAX64 && MIN64 <= b <= MAX64
    ensures AddSat(a, b) == if a + b > MAX64 then MAX64 else if a + b < MIN64 then MIN64 else a + b
  {
    var m := 0x1_0000_0000_0000_0000;
    var x := a + b + 0x8000_0000_0000_0000;
    if a + b > MAX64 {
      assert x % m == x - m;
    } else if a + b < MIN64 {
      assert x % m == x + m;
    } else {
      assert x % m == x;
    }
  }

  // ---------------------------------------------------------------- the stream

  /**
   One record of the stream. `place` is the service and level of a _Log topic, None for any other
   topic. `size` is the encoded entry with its payload, `bare` without it.
   */
  datatype Rec = Rec(offset: nat, ts: int, place: Option<(string, string)>, malformed: bool, size: nat, bare: nat)

  datatype Query = Query(from: int, to: int, after: Option<nat>, limit: nat, minLevel: nat, service: string)

  predicate ValidQuery(q: Query) {
    MIN64 <= q.from < q.to <= MAX64 && 1 <= q.limit
  }

  function Rank(level: string): nat {
    match level
    case "DEBUG" => 10
    case "INFO" => 20
    case "WARNING" => 30
    case "ERROR" => 40
    case "CRITICAL" => 50
    case _ => 0
  }

  predicate Matches(q: Query, place: Option<(string, string)>) {
    && place.Some?
    && (q.service == "" || place.value.0 == q.service)
    && (q.minLevel <= Rank("DEBUG") || Rank(place.value.1) >= q.minLevel)
  }

  /** The record is in the window and passes the filters. */
  predicate Wanted(q: Query, r: Rec) {
    q.from <= r.ts < q.to && Matches(q, r.place)
  }

  /** Everything ever appended, in append order. */
  ghost predicate Appended(h: seq<Rec>) {
    && (forall i, j :: 0 <= i < j < |h| ==> h[i].offset < h[j].offset)
    && (forall i :: 0 <= i < |h| ==> 1 <= h[i].offset && MIN64 <= h[i].ts <= MAX64 && h[i].size > 0 && h[i].bare > 0)
  }

  /** Timestamps are at most SKEW out of append order. */
  ghost predicate Skewed(h: seq<Rec>) {
    forall i, j :: 0 <= i < j < |h| ==> h[i].ts <= h[j].ts + SKEW
  }

  /** The stream at one moment: what was appended, the lowest retained offset (0 for an unknown stream) and the next. */
  datatype View = View(h: seq<Rec>, lwm: nat, next: nat)

  ghost predicate ValidView(v: View) {
    Appended(v.h) && forall i :: 0 <= i < |v.h| ==> v.h[i].offset < v.next
  }

  lemma {:induction false} ViewAppended(v: View)
    requires ValidView(v)
    ensures Appended(v.h)
  {
  }

  /** The number of records below an offset. */
  function Below(h: seq<Rec>, offset: int): (n: nat)
    ensures n <= |h|
    ensures n > 0 ==> h[n - 1].offset < offset
    ensures forall i :: n <= i < |h| ==> h[i].offset >= offset
  {
    if h == [] then 0 else if h[|h| - 1].offset < offset then |h| else Below(h[..|h| - 1], offset)
  }

  lemma {:induction false} BelowIs(h: seq<Rec>, offset: int, n: nat)
    requires Appended(h) && n <= |h|
    requires n > 0 ==> h[n - 1].offset < offset
    requires n < |h| ==> h[n].offset >= offset
    ensures Below(h, offset) == n
  {
    var m := Below(h, offset);
    assert m <= n;
    assert n <= m;
  }

  /** The records a query keeps, in append order. */
  function Pick(q: Query, s: seq<Rec>): seq<Rec> {
    if s == [] then []
    else if Wanted(q, s[|s| - 1]) then Pick(q, s[..|s| - 1]) + [s[|s| - 1]]
    else Pick(q, s[..|s| - 1])
  }

  lemma {:induction false} PickConcat(q: Query, s: seq<Rec>, t: seq<Rec>)
    ensures Pick(q, s + t) == Pick(q, s) + Pick(q, t)
  {
    if t == [] {
      assert s + t == s;
    } else {
      assert (s + t)[..|s + t| - 1] == s + t[..|t| - 1];
      PickConcat(q, s, t[..|t| - 1]);
    }
  }

  lemma {:induction false} PickNone(q: Query, s: seq<Rec>)
    requires forall r :: r in s ==> !Wanted(q, r)
    ensures Pick(q, s) == []
  {
    if s != [] {
      assert s[|s| - 1] in s;
      assert forall r :: r in s[..|s| - 1] ==> r in s;
      PickNone(q, s[..|s| - 1]);
    }
  }

  lemma {:induction false} PickOne(q: Query, h: seq<Rec>, a: nat, i: nat)
    requires a <= i < |h|
    ensures Pick(q, h[a..i + 1]) == if Wanted(q, h[i]) then Pick(q, h[a..i]) + [h[i]] else Pick(q, h[a..i])
  {
    assert h[a..i + 1][..i - a] == h[a..i];
  }

  lemma {:induction false} PickSplit(q: Query, h: seq<Rec>, a: nat, k: nat)
    requires a <= k <= |h|
    ensures Pick(q, h[..k]) == Pick(q, h[..a]) + Pick(q, h[a..k])
  {
    assert h[..k] == h[..a] + h[a..k];
    PickConcat(q, h[..a], h[a..k]);
  }

  // ---------------------------------------------------------------- the binary search

  function Lowest(v: View): nat { if v.lwm == 0 then 1 else v.lwm }

  ghost predicate OldBelow(h: seq<Rec>, r: int, ts: int) {
    exists i :: 0 <= i < |h| && h[i].offset == r - 1 && h[i].ts < ts
  }

  ghost predicate RecentFrom(h: seq<Rec>, r: int, ts: int) {
    Below(h, r) < |h| ==> h[Below(h, r)].ts >= ts
  }

  /** What the search promises of any stream, sorted or not. */
  ghost predicate SeekSpec(v: View, ts: int, r: nat) {
    if v.next <= Lowest(v) then r == v.next
    else
      && Lowest(v) <= r <= v.next
      && (r > Lowest(v) ==> OldBelow(v.h, r, ts))
      && RecentFrom(v.h, r, ts)
  }

  /** `readable` tells at which offsets reading the stream works. */
  method SeekTS(v: View, ts: int, readable: nat -> bool) returns (r: Option<nat>)
    requires ValidView(v)
    ensures r.Some? ==> SeekSpec(v, ts, r.value)
    ensures r.None? ==> exists m: nat :: Lowest(v) <= m < v.next && !readable(m)
  {
    var lo, hi := Lowest(v), v.next;
    if hi <= lo {
      return Some(hi);
    }
    ghost var low := lo;
    BelowIs(v.h, hi, |v.h|);
    while lo < hi
      invariant low <= lo <= hi <= v.next
      invariant lo > low ==> OldBelow(v.h, lo, ts)
      invariant RecentFrom(v.h, hi, ts)
      decreases hi - lo
    {
      var mid := lo + (hi - lo) / 2;
      if !readable(mid) {
        return None;
      }
      var i := Below(v.h, mid);
      if i == |v.h| || v.h[i].ts >= ts {
        hi := mid;
      } else {
        SeekPast(v.h, mid, hi, ts);
        assert OldBelow(v.h, v.h[i].offset + 1, ts);
        lo := v.h[i].offset + 1;
      }
    }
    r := Some(lo);
  }

  /** The record the search lands on is below hi, as the first one at hi or later is recent enough. */
  lemma {:induction false} SeekPast(h: seq<Rec>, mid: nat, hi: nat, ts: int)
    requires Appended(h) && mid < hi && Below(h, mid) < |h| && h[Below(h, mid)].ts < ts
    requires RecentFrom(h, hi, ts)
    ensures mid <= h[Below(h, mid)].offset < hi
  {
    var i, j := Below(h, mid), Below(h, hi);
    if h[i].offset >= hi {
      BelowIs(h, hi, i);
    }
  }

  /** On a stream in time order the search finds exactly the first recent record. */
  lemma {:induction false} SeekSorted(v: View, ts: int, r: nat)
    requires ValidView(v) && SeekSpec(v, ts, r) && Lowest(v) < v.next
    requires forall i, j :: 0 <= i < j < |v.h| ==> v.h[i].ts <= v.h[j].ts
    ensures forall i :: 0 <= i < |v.h| && v.h[i].offset >= Lowest(v) ==> (v.h[i].offset < r <==> v.h[i].ts < ts)
  {
    forall i | 0 <= i < |v.h| && v.h[i].offset >= Lowest(v) ensures v.h[i].offset < r <==> v.h[i].ts < ts {
      if v.h[i].offset < r {
        var k :| 0 <= k < |v.h| && v.h[k].offset == r - 1 && v.h[k].ts < ts;
        assert i <= k;
      } else {
        var b := Below(v.h, r);
        assert b <= i;
      }
    }
  }

  /** On a nearly sorted stream nothing the search leaves behind is in the window. */
  lemma {:induction false} SeekLeavesNothing(v: View, from: int, r: nat, h: seq<Rec>)
    requires ValidView(v) && Appended(h) && Skewed(h) && v.h <= h && MIN64 <= from <= MAX64
    requires SeekSpec(v, AddSat(from, -SKEW), r) && r > Lowest(v)
    ensures forall i :: 0 <= i < |h| && h[i].offset < r ==> h[i].ts < from
  {
    AddSatClamps(from, -SKEW);
    var k :| 0 <= k < |v.h| && v.h[k].offset == r - 1 && v.h[k].ts < AddSat(from, -SKEW);
    assert h[k] == v.h[k];
    forall i | 0 <= i < |h| && h[i].offset < r ensures h[i].ts < from {
      assert i <= k;
    }
  }

  // ---------------------------------------------------------------- one page

  datatype Budget = Budget(bytes: nat, scan: nat)

  /** A record as the page lists it: without its payload when that is malformed or larger than the page. */
  datatype Entry = Entry(offset: nat, ts: int, place: Option<(string, string)>, truncated: bool)

  datatype Page = Page(records: seq<Entry>, next: Option<nat>, complete: bool, lwm: nat, gap: bool)

  predicate Truncated(b: Budget, r: Rec) {
    r.malformed || r.size > b.bytes
  }

  function EntrySize(b: Budget, r: Rec): nat { if Truncated(b, r) then r.bare else r.size }

  function EntryOf(b: Budget, r: Rec): Entry { Entry(r.offset, r.ts, r.place, Truncated(b, r)) }

  function Entries(b: Budget, s: seq<Rec>): (e: seq<Entry>)
    ensures |e| == |s|
  {
    if s == [] then [] else Entries(b, s[..|s| - 1]) + [EntryOf(b, s[|s| - 1])]
  }

  function Bytes(b: Budget, s: seq<Rec>): nat {
    if s == [] then 0 else Bytes(b, s[..|s| - 1]) + EntrySize(b, s[|s| - 1])
  }

  lemma {:induction false} EntriesAppend(b: Budget, s: seq<Rec>, r: Rec)
    ensures Entries(b, s + [r]) == Entries(b, s) + [EntryOf(b, r)]
    ensures Bytes(b, s + [r]) == Bytes(b, s) + EntrySize(b, r)
  {
    assert (s + [r])[..|s|] == s;
  }

  /**
   One call: the LWM, the search and the scan each read the stream, in this order. `found` is what
   the search returned, `start` where the scan began, `last` the last offset the page dealt with.
   */
  datatype Call = Call(lwm: nat, seek: View, scan: View, q: Query, now: int, budget: Budget,
                       found: nat, start: nat, last: nat, page: Page)

  function DoneAt(q: Query): int { AddSat(q.to, SKEW) }

  function StartOf(found: nat, after: Option<nat>): (start: nat)
    ensures start >= 1 && start >= found && (after.Some? ==> start >= after.value + 1)
  {
    Max(1, if after.Some? then Max(found, after.value + 1) else found)
  }

  function GapOf(lwm: nat, found: nat, after: Option<nat>): bool {
    lwm > 1 && if after.Some? then after.value + 1 < lwm else found <= lwm
  }

  /** The scan's first record, and the first one it did not deal with. */
  function ScanFrom(c: Call): nat { Below(c.scan.h, Max(c.start, c.scan.lwm)) }

  function ScanTo(c: Call): nat { Below(c.scan.h, Max(c.last + 1, c.scan.lwm)) }

  /** What one page promises. */
  ghost predicate PageSpec(c: Call) {
    && ValidView(c.seek) && ValidView(c.scan) && ValidQuery(c.q)
    && SeekSpec(c.seek, AddSat(c.q.from, -SKEW), c.found)
    && c.start == StartOf(c.found, c.q.after)
    && c.page.lwm == c.lwm && c.page.gap == GapOf(c.lwm, c.found, c.q.after)
    && c.start - 1 <= c.last < Max(c.start, c.scan.next)
    && ScanFrom(c) <= ScanTo(c)
    && Holds(c.q, c.budget, c.scan.h, ScanFrom(c), ScanTo(c), c.page.records)
    && (c.page.complete ==>
          if ScanTo(c) < |c.scan.h| then c.scan.h[ScanTo(c)].ts >= DoneAt(c.q) else DoneAt(c.q) <= c.now)
    && (!c.page.complete ==>
          OutOfBudget(c.q, c.budget, c.scan.h, ScanFrom(c), ScanTo(c)) ||
          (ScanTo(c) == |c.scan.h| && c.now < DoneAt(c.q)))
    && c.page.next == if c.page.complete then None else Some(c.last)
  }

  /** Where the scan stands when `last` is the last offset dealt with: at record i. */
  ghost predicate At(h: seq<Rec>, lwm: nat, start: nat, a: nat, i: nat, last: nat) {
    && a == Below(h, Max(start, lwm)) && a <= i <= |h|
    && last == if i == a then start - 1 else h[i - 1].offset
  }

  lemma {:induction false} AtScanTo(h: seq<Rec>, lwm: nat, start: nat, a: nat, i: nat, last: nat)
    requires Appended(h) && start >= 1 && At(h, lwm, start, a, i, last)
    ensures Below(h, Max(last + 1, lwm)) == i && start - 1 <= last
  {
    if i > a {
      assert h[i - 1].offset >= Max(start, lwm);
      BelowIs(h, last + 1, i);
    }
  }

  /** The records a page holds after scanning [a, i): within the limit, and within the bytes unless there is only
      one. */
  ghost predicate Holds(q: Query, b: Budget, h: seq<Rec>, a: nat, i: nat, records: seq<Entry>) {
    && a <= i <= |h| && (forall j :: a <= j < i ==> h[j].ts < DoneAt(q))
    && var picked := Pick(q, h[a..i]);
    && records == Entries(b, picked) && |picked| <= q.limit && (|picked| > 1 ==> Bytes(b, picked) <= b.bytes)
  }

  ghost predicate OutOfBudget(q: Query, b: Budget, h: seq<Rec>, a: nat, k: nat)
    requires a <= k <= |h|
  {
    var picked := Pick(q, h[a..k]);
    || |picked| >= q.limit
    || k - a >= b.scan
    || (k < |h| && |picked| > 0 && Bytes(b, picked) + EntrySize(b, h[k]) > b.bytes)
  }

  lemma {:induction false} NothingPicked(q: Query, b: Budget, h: seq<Rec>, a: nat)
    requires a <= |h|
    ensures Pick(q, h[a..a]) == [] && Entries(b, []) == [] && Bytes(b, []) == 0
  {
    assert h[a..a] == [];
  }

  /** Why the walk ended at record k: a read failed, the window was over, a budget was used up, or the head was
      reached. */
  datatype Ending = ReadFailed | Over | Stopped | AtHead

  ghost predicate Ends(q: Query, b: Budget, h: seq<Rec>, a: nat, k: nat, end: Ending)
    requires a <= k <= |h|
  {
    match end
    case ReadFailed => true
    case Over => k < |h| && h[k].ts >= DoneAt(q)
    case Stopped => OutOfBudget(q, b, h, a, k)
    case AtHead => k == |h|
  }

  /** The walk from record a, ending at record k. `readable` tells at which records, or past the last one,
      reading works. */
  method Scan(h: seq<Rec>, a: nat, q: Query, b: Budget, readable: nat -> bool)
    returns (k: nat, records: seq<Entry>, end: Ending)
    requires a <= |h| && 1 <= q.limit && forall i :: 0 <= i < |h| ==> h[i].size > 0 && h[i].bare > 0
    ensures a <= k <= |h| && Holds(q, b, h, a, k, records)
    ensures Ends(q, b, h, a, k, end) && (end.ReadFailed? ==> !readable(k))
  {
    hide DoneAt, Wanted, Truncated, Pick, Entries, Bytes;
    var used, scanned := 0, 0;
    k, records := a, [];
    ghost var picked := [];
    NothingPicked(q, b, h, a);
    while k < |h|
      invariant a <= k <= |h| && scanned == k - a && forall j :: a <= j < k ==> h[j].ts < DoneAt(q)
      invariant picked == Pick(q, h[a..k]) && records == Entries(b, picked) && used == Bytes(b, picked)
      invariant (used > 0 <==> |picked| > 0) && |picked| < q.limit && (|picked| > 1 ==> used <= b.bytes)
    {
      if !readable(k) {
        return k, records, ReadFailed;
      }
      var r := h[k];
      PickOne(q, h, a, k);
      if scanned >= b.scan {
        return k, records, Stopped;
      }
      scanned := scanned + 1;
      if r.ts >= DoneAt(q) {
        return k, records, Over;
      }
      if Wanted(q, r) {
        var size := EntrySize(b, r);
        if used > 0 && used + size > b.bytes {
          return k, records, Stopped;
        }
        EntriesAppend(b, picked, r);
        picked := picked + [r];
        used, records := used + size, records + [EntryOf(b, r)];
        if |records| >= q.limit {
          return k + 1, records, Stopped;
        }
      }
      k := k + 1;
    }
    end := if readable(k) then AtHead else ReadFailed;
  }

  /** What the walk found makes the page. */
  lemma {:induction false} PageIs(c: Call, k: nat, end: Ending)
    requires ValidView(c.seek) && ValidView(c.scan) && ValidQuery(c.q)
    requires SeekSpec(c.seek, AddSat(c.q.from, -SKEW), c.found)
    requires c.start == StartOf(c.found, c.q.after) && Holds(c.q, c.budget, c.scan.h, ScanFrom(c), k, c.page.records)
    requires At(c.scan.h, c.scan.lwm, c.start, ScanFrom(c), k, c.last)
    requires Ends(c.q, c.budget, c.scan.h, ScanFrom(c), k, end) && !end.ReadFailed?
    requires c.page.complete == (end.Over? || (end.AtHead? && DoneAt(c.q) <= c.now))
    requires c.page.next == if c.page.complete then None else Some(c.last)
    requires c.page.lwm == c.lwm && c.page.gap == GapOf(c.lwm, c.found, c.q.after)
    ensures PageSpec(c)
  {
    hide SeekSpec, AddSat, GapOf, OutOfBudget, Holds;
    AtScanTo(c.scan.h, c.scan.lwm, c.start, ScanFrom(c), k, c.last);
  }

  /** One page, or none if a read failed. */
  method FetchPage(lwm: nat, seek: View, scan: View, q: Query, now: int, budget: Budget, seekReads: nat -> bool,
                   scanReads: nat -> bool)
    returns (page: Option<Page>)
    requires ValidView(seek) && ValidView(scan) && ValidQuery(q)
    ensures page.Some? ==>
              exists found, start, last ::
                PageSpec(Call(lwm, seek, scan, q, now, budget, found, start, last, page.value))
    ensures page.None? ==>
              || (exists m: nat :: Lowest(seek) <= m < seek.next && !seekReads(m))
              || (exists m: nat :: m <= |scan.h| && !scanReads(m))
  {
    hide SeekSpec, AddSat, GapOf, OutOfBudget, Holds, Below, PageSpec, Ends;
    var sought := SeekTS(seek, AddSat(q.from, -SKEW), seekReads);
    if sought.None? {
      return None;
    }
    var found := sought.value;
    var start := StartOf(found, q.after);
    var a := Below(scan.h, Max(start, scan.lwm));
    var k, records, end := Scan(scan.h, a, q, budget, scanReads);
    if end.ReadFailed? {
      return None;
    }
    var last: nat := if k == a then start - 1 else scan.h[k - 1].offset;
    var complete := end.Over? || (end.AtHead? && DoneAt(q) <= now);
    var p := Page(records, if complete then None else Some(last), complete, lwm, GapOf(lwm, found, q.after));
    PageIs(Call(lwm, seek, scan, q, now, budget, found, start, last, p), k, end);
    page := Some(p);
  }

  /** A page that meets a record is the last one or resumes past what it was asked to resume after. */
  lemma {:induction false} PageAdvances(c: Call)
    requires PageSpec(c) && ScanFrom(c) < |c.scan.h| && c.budget.scan > 0 && !c.page.complete
    ensures c.page.next == Some(c.last) && c.last >= c.start
    ensures c.q.after.Some? ==> c.last > c.q.after.value
  {
    var h, a := c.scan.h, ScanFrom(c);
    assert h[a..a] == [];
    assert !OutOfBudget(c.q, c.budget, h, a, a);
  }

  // ---------------------------------------------------------------- following `next`

  /** Two queries with one window and one filter; they may resume at different places. */
  predicate SameWindow(p: Query, q: Query) {
    p.from == q.from && p.to == q.to && p.minLevel == q.minLevel && p.service == q.service
  }

  /** The stream later: records were appended, and retention may have removed a prefix. */
  ghost predicate Later(v: View, w: View) {
    && v.h <= w.h && v.next <= w.next && v.lwm <= w.lwm
    && forall i :: |v.h| <= i < |w.h| ==> w.h[i].offset >= v.next
  }

  /** A first page's three reads of the LWM agree, or nothing is ever removed, or only the one record the search
      must have passed is. */
  predicate ReadsAgree(lwm: nat, seek: nat, scan: nat) {
    scan <= 1 || lwm == scan || (1 < lwm == seek && scan == lwm + 1)
  }

  /** Retention may advance while the page is read: a first page by no more than its reads tell, a resumed one
      up to where it resumes. */
  ghost predicate Told(c: Call) {
    && Later(c.seek, c.scan) && c.lwm <= c.seek.lwm
    && if c.q.after.Some? then c.scan.lwm <= c.q.after.value + 1 else ReadsAgree(c.lwm, c.seek.lwm, c.scan.lwm)
  }

  lemma {:induction false} PickSame(p: Query, q: Query, s: seq<Rec>)
    requires SameWindow(p, q)
    ensures Pick(p, s) == Pick(q, s)
  {
    if s != [] {
      PickSame(p, q, s[..|s| - 1]);
    }
  }

  /** A page without a gap starts within what is retained. */
  lemma {:induction false} NoGapStart(c: Call)
    requires PageSpec(c) && Told(c) && !c.page.gap
    ensures c.start >= c.scan.lwm
    ensures ScanFrom(c) == Below(c.scan.h, c.start) && ScanTo(c) == Below(c.scan.h, c.last + 1)
  {
  }

  /** The record count below the offset a page resumes at. */
  function ResumedAt(c: Call): nat { if c.q.after.Some? then Below(c.scan.h, c.q.after.value + 1) else 0 }

  lemma {:induction false} BelowMonotone(h: seq<Rec>, a: int, b: int)
    requires Appended(h) && a <= b
    ensures Below(h, a) <= Below(h, b)
  {
  }

  /** What a page without a gap jumps over is not in the window, retained or not. */
  lemma {:induction false} JumpsNothing(c: Call, i: nat)
    requires PageSpec(c) && Told(c) && !c.page.gap && Skewed(c.scan.h)
    requires ResumedAt(c) <= i < ScanFrom(c)
    ensures c.scan.h[i].ts < c.q.from
  {
    hide Pick, Wanted, OutOfBudget, ScanTo;
    NoGapStart(c);
    var h := c.scan.h;
    assert h[i].offset < c.start by {
      assert h[i].offset <= h[ScanFrom(c) - 1].offset;
    }
    assert c.found > Lowest(c.seek);
    SeekLeavesNothing(c.seek, c.q.from, c.found, h);
  }

  /** When a first page shows no gap, nothing that retention removed was in the window. */
  lemma {:induction false} NoGapNothingPruned(c: Call, i: nat)
    requires PageSpec(c) && Told(c) && !c.page.gap && c.q.after.None? && Skewed(c.scan.h)
    requires i < |c.scan.h| && c.scan.h[i].offset < c.scan.lwm
    ensures !Wanted(c.q, c.scan.h[i])
  {
    NoGapStart(c);
    JumpsNothing(c, i);
  }

  /** A page without a gap holds exactly what the window has between its resume point and `last`. */
  lemma {:induction false} PageExact(c: Call)
    requires PageSpec(c) && Told(c) && !c.page.gap && Skewed(c.scan.h) && ResumedAt(c) <= ScanFrom(c)
    ensures Pick(c.q, c.scan.h[..ScanTo(c)]) ==
            Pick(c.q, c.scan.h[..ResumedAt(c)]) + Pick(c.q, c.scan.h[ScanFrom(c)..ScanTo(c)])
  {
    hide PageSpec, Wanted, ScanTo, ScanFrom, ResumedAt, Told, Skewed;
    var h, p, a, k := c.scan.h, ResumedAt(c), ScanFrom(c), ScanTo(c);
    PageBounds(c);
    forall r | r in h[p..a] ensures !Wanted(c.q, r) {
      var i :| p <= i < a && h[i] == r;
      JumpsNothing(c, i);
      NotInWindow(c.q, r);
    }
    PickNone(c.q, h[p..a]);
    PickSplit(c.q, h, p, a);
    PickSplit(c.q, h, a, k);
  }

  lemma {:induction false} NotInWindow(q: Query, r: Rec)
    requires r.ts < q.from || r.ts >= q.to
    ensures !Wanted(q, r)
  {
  }

  lemma {:induction false} PageBounds(c: Call)
    requires PageSpec(c)
    ensures ScanFrom(c) <= ScanTo(c) <= |c.scan.h|
  {
  }

  function Offsets(s: seq<Entry>): seq<nat> {
    if s == [] then [] else Offsets(s[..|s| - 1]) + [s[|s| - 1].offset]
  }

  function RecOffsets(s: seq<Rec>): seq<nat> {
    if s == [] then [] else RecOffsets(s[..|s| - 1]) + [s[|s| - 1].offset]
  }

  lemma {:induction false} EntryOffsets(b: Budget, s: seq<Rec>)
    ensures Offsets(Entries(b, s)) == RecOffsets(s)
  {
    if s != [] {
      EntryOffsets(b, s[..|s| - 1]);
      assert Entries(b, s)[..|s| - 1] == Entries(b, s[..|s| - 1]);
    }
  }

  lemma {:induction false} RecOffsetsConcat(s: seq<Rec>, t: seq<Rec>)
    ensures RecOffsets(s + t) == RecOffsets(s) + RecOffsets(t)
  {
    if t == [] {
      assert s + t == s;
    } else {
      assert (s + t)[..|s + t| - 1] == s + t[..|t| - 1];
      RecOffsetsConcat(s, t[..|t| - 1]);
    }
  }

  /** All that the pages returned. */
  function Collected(cs: seq<Call>): seq<nat> {
    if cs == [] then [] else Collected(cs[..|cs| - 1]) + Offsets(cs[|cs| - 1].page.records)
  }

  /** A page taken on its own terms: no gap, and the window the reader follows. */
  ghost predicate GoodPage(c: Call, q: Query) {
    PageSpec(c) && Told(c) && !c.page.gap && SameWindow(c.q, q)
  }

  /** One page resumes the other, later. */
  ghost predicate Resumes(c: Call, d: Call) {
    !c.page.complete && d.q.after == c.page.next && Later(c.scan, d.seek)
  }

  /** The pages of a reader that asks for the window and follows `next`. */
  ghost predicate Followed(cs: seq<Call>, q: Query) {
    && |cs| > 0 && GoodPage(cs[|cs| - 1], q)
    && if |cs| == 1 then cs[0].q.after.None? else Followed(cs[..|cs| - 1], q) && Resumes(cs[|cs| - 2], cs[|cs| - 1])
  }

  /** The page dealt with nothing beyond the head. */
  ghost predicate WithinHead(c: Call) {
    c.last + 1 <= Max(1, c.scan.next)
  }

  lemma {:induction false} LaterNext(v: View, w: View)
    requires Later(v, w)
    ensures v.h <= w.h && v.next <= w.next
  {
  }

  lemma {:induction false} LaterTwice(u: View, v: View, w: View)
    requires Later(u, v) && Later(v, w)
    ensures Later(u, w)
  {
    forall i | |u.h| <= i < |w.h| ensures w.h[i].offset >= u.next {
      if i < |v.h| {
        assert w.h[i] == v.h[i];
      }
    }
  }

  /** What was below an offset the earlier page dealt with is what is below it later. */
  lemma {:induction false} SameBelow(v: View, w: View, offset: int)
    requires ValidView(v) && ValidView(w) && Later(v, w) && offset <= Max(1, v.next)
    ensures Below(w.h, offset) == Below(v.h, offset)
  {
    var n := Below(v.h, offset);
    if n < |w.h| {
      if n < |v.h| {
        assert w.h[n] == v.h[n];
      }
    }
    if n > 0 {
      assert w.h[n - 1] == v.h[n - 1];
    }
    BelowIs(w.h, offset, n);
  }

  lemma {:induction false} FirstPage(c: Call)
    requires PageSpec(c) && Told(c) && c.q.after.None?
    ensures WithinHead(c) && ResumedAt(c) == 0
  {
  }

  lemma {:induction false} PageFacts(c: Call)
    requires PageSpec(c)
    ensures ValidView(c.seek) && ValidView(c.scan) && c.found <= c.seek.next
    ensures c.start == StartOf(c.found, c.q.after) && c.last < Max(c.start, c.scan.next)
    ensures c.page.next == if c.page.complete then None else Some(c.last)
  {
  }

  lemma {:induction false} NextPage(c: Call, d: Call)
    requires PageSpec(c) && Told(c) && !c.page.gap && WithinHead(c)
    requires PageSpec(d) && Told(d) && !d.page.gap && Resumes(c, d)
    ensures WithinHead(d) && ResumedAt(d) == ScanTo(c) <= ScanFrom(d)
    ensures d.scan.h[..ResumedAt(d)] == c.scan.h[..ScanTo(c)]
  {
    hide PageSpec, ValidView, Below, Later;
    LaterNext(c.scan, d.seek);
    LaterNext(d.seek, d.scan);
    PageFacts(c);
    PageFacts(d);
    PageBounds(c);
    NoGapStart(c);
    NoGapStart(d);
    LaterTwice(c.scan, d.seek, d.scan);
    SameBelow(c.scan, d.scan, c.last + 1);
    assert Appended(d.scan.h) by { ViewAppended(d.scan); }
    BelowMonotone(d.scan.h, c.last + 1, d.start);
  }

  lemma {:induction false} PageOffsets(c: Call, q: Query)
    requires GoodPage(c, q)
    ensures Offsets(c.page.records) == RecOffsets(Pick(q, c.scan.h[ScanFrom(c)..ScanTo(c)]))
  {
    PickSame(c.q, q, c.scan.h[ScanFrom(c)..ScanTo(c)]);
    EntryOffsets(c.budget, Pick(c.q, c.scan.h[ScanFrom(c)..ScanTo(c)]));
  }

  /** One more page adds exactly what the window has up to its `last`. */
  lemma {:induction false} PageAdds(c: Call, q: Query, before: seq<Rec>, got: seq<nat>)
    requires GoodPage(c, q) && Skewed(c.scan.h) && ResumedAt(c) <= ScanFrom(c)
    requires before == c.scan.h[..ResumedAt(c)] && got == RecOffsets(Pick(q, before))
    ensures got + Offsets(c.page.records) == RecOffsets(Pick(q, c.scan.h[..ScanTo(c)]))
  {
    hide PageSpec, Pick, RecOffsets, Offsets, ScanFrom, ScanTo, ResumedAt, Skewed, Told;
    PageBounds(c);
    PageExact(c);
    PageOffsets(c, q);
    PickSame(c.q, q, before);
    PickSame(c.q, q, c.scan.h[ScanFrom(c)..ScanTo(c)]);
    PickSame(c.q, q, c.scan.h[..ScanTo(c)]);
    RecOffsetsConcat(Pick(q, before), Pick(q, c.scan.h[ScanFrom(c)..ScanTo(c)]));
  }

  lemma {:induction false} SkewedPrefix(h: seq<Rec>, g: seq<Rec>)
    requires Skewed(h) && g <= h
    ensures Skewed(g)
  {
    forall i, j | 0 <= i < j < |g| ensures g[i].ts <= g[j].ts + SKEW {
      assert h[i].ts <= h[j].ts + SKEW;
    }
  }

  lemma {:induction false} LaterHolds(c: Call, d: Call)
    requires Resumes(c, d) && Told(d)
    ensures c.scan.h <= d.scan.h
  {
  }

  /** After any number of pages the reader has exactly what the window has up to the last page's `last`. */
  lemma {:induction false} FollowedSoFar(cs: seq<Call>, q: Query)
    requires Followed(cs, q) && Skewed(cs[|cs| - 1].scan.h)
    ensures WithinHead(cs[|cs| - 1])
    ensures Collected(cs) == RecOffsets(Pick(q, cs[|cs| - 1].scan.h[..ScanTo(cs[|cs| - 1])]))
  {
    hide PageSpec, Told, Skewed, Pick, ScanFrom, ScanTo, ResumedAt, WithinHead, Offsets, Resumes, Later;
    var n := |cs| - 1;
    var d := cs[n];
    var earlier := cs[..n];
    PageBounds(d);
    if n == 0 {
      FirstPage(d);
      assert d.scan.h[..0] == [];
      PickNone(q, []);
      assert Collected(earlier) == [];
      PageAdds(d, q, [], []);
    } else {
      var c := cs[n - 1];
      assert earlier[n - 1] == c;
      LaterHolds(c, d);
      SkewedPrefix(d.scan.h, c.scan.h);
      FollowedSoFar(earlier, q);
      PageBounds(c);
      NextPage(c, d);
      PageAdds(d, q, c.scan.h[..ScanTo(c)], Collected(earlier));
    }
  }

  /** Behind a complete page nothing in the window is left, whatever is appended later. */
  lemma {:induction false} CompleteIsOver(c: Call, h: seq<Rec>, i: nat)
    requires PageSpec(c) && c.page.complete && c.q.to + SKEW <= MAX64
    requires c.scan.h <= h && Skewed(h) && ScanTo(c) <= i < |h|
    requires forall j :: |c.scan.h| <= j < |h| ==> h[j].ts >= c.now - SKEW
    ensures h[i].ts >= c.q.to
  {
    AddSatClamps(c.q.to, SKEW);
    var k := ScanTo(c);
    if k < |c.scan.h| {
      assert h[k] == c.scan.h[k];
    }
  }

  /**
   Following `next` to a complete page returns exactly the matching records of the window, each
   once and in append order, out of all records ever appended. A record appended after the last
   page carries a timestamp at most SKEW before that page's time.
   */
  lemma {:induction false} FollowingIsExact(cs: seq<Call>, q: Query, h: seq<Rec>)
    requires Followed(cs, q) && cs[|cs| - 1].page.complete && q.to + SKEW <= MAX64
    requires cs[|cs| - 1].scan.h <= h && Skewed(h)
    requires forall j :: |cs[|cs| - 1].scan.h| <= j < |h| ==> h[j].ts >= cs[|cs| - 1].now - SKEW
    ensures Collected(cs) == RecOffsets(Pick(q, h))
  {
    hide PageSpec, Told, Skewed, Pick, ScanTo, RecOffsets, Collected, Wanted, WithinHead;
    var c := cs[|cs| - 1];
    var k := ScanTo(c);
    PageBounds(c);
    SkewedPrefix(h, c.scan.h);
    FollowedSoFar(cs, q);
    forall r | r in h[k..] ensures !Wanted(q, r) {
      var i :| k <= i < |h| && h[i] == r;
      CompleteIsOver(c, h, i);
      NotInWindow(q, r);
    }
    PickNone(q, h[k..]);
    PickSplit(q, h, k, |h|);
    assert h[..|h|] == h && h[k..|h|] == h[k..] && h[..k] == c.scan.h[..k];
    assert Pick(q, h) == Pick(q, c.scan.h[..k]);
  }

  // ---------------------------------------------------------------- where the guarantee ends

  /** A record at the end of time, and behind it one the window holds. */
  function AtTheEndOfTime(q: Query): seq<Rec> {
    var place := Some((q.service, "CRITICAL"));
    [Rec(1, MAX64, place, false, 1, 1), Rec(2, q.to - 1, place, false, 1, 1)]
  }

  /** When the window's end plus the skew does not fit in 64 bits, there is a nearly sorted stream whose page misses
      a record. */
  lemma {:induction false} SaturationLosesARecord(c: Call)
    requires PageSpec(c) && c.q.after.None? && c.budget.scan > 0 && c.q.minLevel <= Rank("CRITICAL")
    requires c.seek == c.scan == View(AtTheEndOfTime(c.q), 1, 3)
    requires c.q.to + SKEW > MAX64
    ensures Skewed(c.scan.h) && c.page.complete && c.page.records == [] && Pick(c.q, c.scan.h) == [c.scan.h[1]]
  {
    var h := c.scan.h;
    AddSatClamps(c.q.to, SKEW);
    AddSatClamps(c.q.from, -SKEW);
    assert c.found == 1;
    assert Below(h, 1) == 0 by { BelowIs(h, 1, 0); }
    assert ScanFrom(c) == 0;
    assert h[0].ts >= DoneAt(c.q);
    assert ScanTo(c) == 0;
    assert h[0..0] == [];
    assert !OutOfBudget(c.q, c.budget, h, 0, 0);
    assert h[..1] == [h[0]] && h[..1][..0] == [];
    assert Pick(c.q, h[..1]) == [];
  }

  lemma {:induction false} PickedFrom(q: Query, s: seq<Rec>, offset: nat)
    requires offset in RecOffsets(Pick(q, s))
    ensures exists r :: r in s && r.offset == offset
  {
    if s != [] {
      var rest, r := s[..|s| - 1], s[|s| - 1];
      assert r in s && forall t :: t in rest ==> t in s;
      if Wanted(q, r) {
        assert Pick(q, s)[..|Pick(q, s)| - 1] == Pick(q, rest);
      }
      if offset in RecOffsets(Pick(q, rest)) {
        PickedFrom(q, rest, offset);
      }
    }
  }

  /** A removed record is on no page. */
  lemma {:induction false} RemovedIsMissing(c: Call, i: nat)
    requires PageSpec(c) && i < |c.scan.h| && c.scan.h[i].offset < c.scan.lwm
    ensures c.scan.h[i].offset !in Offsets(c.page.records)
  {
    hide Pick, RecOffsets, Offsets, Entries, Wanted;
    var h, a, k := c.scan.h, ScanFrom(c), ScanTo(c);
    EntryOffsets(c.budget, Pick(c.q, h[a..k]));
    if h[i].offset in Offsets(c.page.records) {
      PickedFrom(c.q, h[a..k], h[i].offset);
      assert false;
    }
  }

  /** When retention advances between the LWM read and the search, or had removed nothing when the LWM was
      read, a first page shows no gap, whatever is removed by the time of the scan: a removed record of the
      window is missing and the reader is not told. */
  lemma {:induction false} RetentionHidesTheGap(c: Call, i: nat)
    requires PageSpec(c) && c.q.after.None?
    requires c.lwm < c.seek.lwm < c.seek.next || c.lwm <= 1
    requires i < |c.scan.h| && c.scan.h[i].offset < c.scan.lwm
    ensures !c.page.gap && c.scan.h[i].offset !in Offsets(c.page.records)
  {
    RemovedIsMissing(c, i);
  }

  /** A first page of a nearly sorted stream whose LWM is `lwm` when it is read, `seek` at the search and
      `scan` at the scan. */
  ghost predicate FirstPageWith(c: Call, lwm: nat, seek: nat, scan: nat) {
    && PageSpec(c) && c.q.after.None? && Skewed(c.scan.h) && Later(c.seek, c.scan)
    && c.lwm == lwm && c.seek.lwm == seek && c.scan.lwm == scan
  }

  /** Such a page without a gap: nothing that retention removed before the scan was in the window. */
  ghost predicate GapIsTold(lwm: nat, seek: nat, scan: nat) {
    forall c, i {:trigger FirstPageWith(c, lwm, seek, scan), c.scan.h[i]} ::
      FirstPageWith(c, lwm, seek, scan) && !c.page.gap && 0 <= i < |c.scan.h| && c.scan.h[i].offset < scan ==>
        !Wanted(c.q, c.scan.h[i])
  }

  /** A page of the window [0, 1) over a stream of which everything was removed, read late enough to be complete. */
  function EmptyPage(after: Option<nat>, lwm: nat, seek: nat, scan: nat, h: seq<Rec>, found: nat): Call {
    var q := Query(0, 1, after, 1, 0, "");
    var start := StartOf(found, after);
    Call(lwm, View(h, seek, scan + 1), View(h, scan, scan + 1), q, 1 + SKEW, Budget(1, 1),
         found, start, start - 1, Page([], None, true, lwm, GapOf(lwm, found, after)))
  }

  lemma {:induction false} EmptyPageIs(after: Option<nat>, lwm: nat, seek: nat, scan: nat, h: seq<Rec>,
                                       found: nat)
    requires Appended(h) && (forall i :: 0 <= i < |h| ==> h[i].offset < scan) && seek <= scan
    requires SeekSpec(View(h, seek, scan + 1), -SKEW, found)
    ensures PageSpec(EmptyPage(after, lwm, seek, scan, h, found))
    ensures Later(View(h, seek, scan + 1), View(h, scan, scan + 1))
  {
    hide SeekSpec, Pick, Entries, Bytes, Wanted, AddSat;
    var c := EmptyPage(after, lwm, seek, scan, h, found);
    AddSatClamps(0, -SKEW);
    AddSatClamps(1, SKEW);
    var n := |h|;
    BelowIs(h, Max(c.start, scan), n);
    NothingPicked(c.q, c.budget, h, n);
    PageIs(c, n, AtHead);
  }

  const PLACE: Option<(string, string)> := Some(("svc", "INFO"))

  /** Retention advances past a record of the window before the search. */
  lemma {:induction false} MovedBeforeTheSearch(lwm: nat, seek: nat, scan: nat) returns (c: Call)
    requires lwm <= seek <= scan && 2 <= scan && (lwm < seek || lwm <= 1)
    ensures FirstPageWith(c, lwm, seek, scan) && !c.page.gap && |c.scan.h| == 1 && c.scan.h[0].offset < scan
    ensures Wanted(c.q, c.scan.h[0])
  {
    var h := [Rec(1, 0, PLACE, false, 1, 1)];
    var found := if seek == 0 then 1 else seek;
    c := EmptyPage(None, lwm, seek, scan, h, found);
    BelowIs(h, found, if found <= 1 then 0 else 1);
    EmptyPageIs(None, lwm, seek, scan, h, found);
    hide PageSpec, Appended;
  }

  /** Retention advances past a record of the window between the search and the scan. */
  lemma {:induction false} MovedBeforeTheScan(lwm: nat, scan: nat) returns (c: Call)
    requires 1 < lwm && lwm + 1 < scan
    ensures FirstPageWith(c, lwm, lwm, scan) && !c.page.gap && |c.scan.h| == 2 && c.scan.h[1].offset < scan
    ensures Wanted(c.q, c.scan.h[1])
  {
    hide PageSpec, Later, Below;
    var h := [Rec(lwm, -SKEW - 1, PLACE, false, 1, 1), Rec(lwm + 1, 0, PLACE, false, 1, 1)];
    c := EmptyPage(None, lwm, lwm, scan, h, lwm + 1);
    BelowIs(h, lwm + 1, 1);
    assert OldBelow(h, lwm + 1, -SKEW) by {
      assert h[0].offset == lwm;
    }
    EmptyPageIs(None, lwm, lwm, scan, h, lwm + 1);
  }

  /** A first page tells a gap, on every nearly sorted stream and for every window, if and only if the LWM is
      the same at the scan as when it was read, or nothing was removed, or it moved by one after the search. */
  lemma {:induction false} GapIsToldExactly(lwm: nat, seek: nat, scan: nat)
    requires lwm <= seek <= scan
    ensures GapIsTold(lwm, seek, scan) <==> ReadsAgree(lwm, seek, scan)
  {
    hide FirstPageWith, Wanted;
    if ReadsAgree(lwm, seek, scan) {
      forall c, i {:trigger FirstPageWith(c, lwm, seek, scan), c.scan.h[i]} |
        FirstPageWith(c, lwm, seek, scan) && !c.page.gap && 0 <= i < |c.scan.h| && c.scan.h[i].offset < scan
        ensures !Wanted(c.q, c.scan.h[i])
      {
        FirstPageReads(c, lwm, seek, scan);
        NoGapNothingPruned(c, i);
      }
    } else if lwm < seek || lwm <= 1 {
      var c := MovedBeforeTheSearch(lwm, seek, scan);
      assert FirstPageWith(c, lwm, seek, scan) && Wanted(c.q, c.scan.h[0]);
    } else {
      var c := MovedBeforeTheScan(lwm, scan);
      assert FirstPageWith(c, lwm, seek, scan) && Wanted(c.q, c.scan.h[1]);
    }
  }

  lemma {:induction false} FirstPageReads(c: Call, lwm: nat, seek: nat, scan: nat)
    requires FirstPageWith(c, lwm, seek, scan) && lwm <= seek && ReadsAgree(lwm, seek, scan)
    ensures PageSpec(c) && Told(c) && c.q.after.None? && Skewed(c.scan.h) && c.scan.lwm == scan
  {
  }

  /** A page of a nearly sorted stream that resumes after `after`, with its three LWMs. */
  ghost predicate ResumedPageWith(c: Call, after: nat, lwm: nat, seek: nat, scan: nat) {
    && PageSpec(c) && c.q.after == Some(after) && Skewed(c.scan.h) && Later(c.seek, c.scan)
    && c.lwm == lwm && c.seek.lwm == seek && c.scan.lwm == scan
  }

  /** Such a page without a gap: nothing that retention removed past the resume point was in the window. */
  ghost predicate ResumedGapIsTold(after: nat, lwm: nat, seek: nat, scan: nat) {
    forall c, i {:trigger ResumedPageWith(c, after, lwm, seek, scan), c.scan.h[i]} ::
      ResumedPageWith(c, after, lwm, seek, scan) && !c.page.gap &&
      0 <= i < |c.scan.h| && after < c.scan.h[i].offset < scan ==>
        !Wanted(c.q, c.scan.h[i])
  }

  /** The page would show the gap, and does not: retention passed the resume point after the LWM was read. */
  lemma {:induction false} MovedPastTheResumePoint(after: nat, lwm: nat, seek: nat, scan: nat) returns (c: Call)
    requires lwm <= seek <= scan && after + 1 < scan && (lwm <= 1 || lwm <= after + 1)
    ensures ResumedPageWith(c, after, lwm, seek, scan) && !c.page.gap && |c.scan.h| == 1
    ensures after < c.scan.h[0].offset < scan && Wanted(c.q, c.scan.h[0])
  {
    var h := [Rec(after + 1, 0, PLACE, false, 1, 1)];
    var found := if seek == 0 then 1 else seek;
    c := EmptyPage(Some(after), lwm, seek, scan, h, found);
    BelowIs(h, found, if found <= after + 1 then 0 else 1);
    EmptyPageIs(Some(after), lwm, seek, scan, h, found);
    hide PageSpec, Appended;
  }

  /** A resumed page tells a gap, on every nearly sorted stream and for every window, if and only if retention
      has not passed its resume point by the time of the scan, or had when the LWM was read. */
  lemma {:induction false} ResumedGapIsToldExactly(after: nat, lwm: nat, seek: nat, scan: nat)
    requires lwm <= seek <= scan
    ensures ResumedGapIsTold(after, lwm, seek, scan) <==> scan <= after + 1 || (1 < lwm && after + 1 < lwm)
  {
    hide ResumedPageWith, Wanted;
    if scan <= after + 1 {
    } else if 1 < lwm && after + 1 < lwm {
      forall c | ResumedPageWith(c, after, lwm, seek, scan) ensures c.page.gap {
        ResumedShowsGap(c, after, lwm, seek, scan);
      }
    } else {
      var c := MovedPastTheResumePoint(after, lwm, seek, scan);
      assert ResumedPageWith(c, after, lwm, seek, scan) && Wanted(c.q, c.scan.h[0]);
    }
  }

  lemma {:induction false} ResumedShowsGap(c: Call, after: nat, lwm: nat, seek: nat, scan: nat)
    requires ResumedPageWith(c, after, lwm, seek, scan)
    ensures c.page.gap <==> 1 < lwm && after + 1 < lwm
  {
  }
}
