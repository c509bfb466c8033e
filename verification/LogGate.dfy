/**
 The log gate: repeats of a record collapse within a window, each service has two record budgets
 per window, and every window's end is in a deadline heap. A heap entry is told from a live window
 by its generation.
 */
module LogGate {
  import opened Basics
  import opened Sums

  const MAX_COLLAPSIBLE := 8192
  const MAX_HELD := 16777216

  datatype Budget = Low | High
  datatype Verdict = Store | Collapsed | RateLimited
  datatype Untracked = NotUntracked | UntrackedRepeat | UntrackedService

  /** One _Log record. `decodes`: the payload is a JSON object with a message; `logger` is "" when absent. */
  datatype Record = Record(topic: string, payload: string, decodes: bool, logger: string, message: string)

  /** What repeatKey hashes. */
  datatype RepeatKey = RepeatKey(topic: string, logger: string, message: string)

  function KeyOf(rec: Record): Option<RepeatKey> {
    if 0 < |rec.payload| <= MAX_COLLAPSIBLE && rec.decodes
    then Some(RepeatKey(rec.topic, rec.logger, rec.message)) else None
  }

  /** The index after the last '/', 0 when there is none. */
  function AfterSlash(topic: string): (i: nat)
    ensures i <= |topic|
    ensures i > 0 ==> topic[i - 1] == '/'
    ensures forall j :: i <= j < |topic| ==> topic[j] != '/'
  {
    if topic == "" then 0
    else if topic[|topic| - 1] == '/' then |topic|
    else AfterSlash(topic[..|topic| - 1])
  }

  function BudgetFor(topic: string): Budget {
    if topic[AfterSlash(topic)..] in ["WARNING", "ERROR", "CRITICAL"] then High else Low
  }

  /** The topic without its level segment. */
  function ServiceKey(topic: string): string {
    if AfterSlash(topic) > 1 then topic[..AfterSlash(topic) - 1] else topic
  }

  /** A repeat window: `payload` and `author` are those of the last withheld record. */
  datatype Repeat = Repeat(gen: nat, topic: string, end: int, count: nat, first: int, last: int,
                           payload: Option<string>, author: string)

  datatype Service = Service(gen: nat, end: int, storedLow: nat, storedHigh: nat, droppedLow: nat, droppedHigh: nat)
  {
    function Stored(b: Budget): nat { if b == Low then storedLow else storedHigh }
    function Dropped(): nat { droppedLow + droppedHigh }
    function Spend(b: Budget): Service {
      if b == Low then this.(storedLow := storedLow + 1) else this.(storedHigh := storedHigh + 1)
    }
    function Drop(b: Budget): Service {
      if b == Low then this.(droppedLow := droppedLow + 1) else this.(droppedHigh := droppedHigh + 1)
    }
  }

  datatype Target = RepeatAt(key: RepeatKey) | ServiceAt(name: string)

  /** A window end in the deadline heap. */
  datatype Entry = Entry(at: int, gen: nat, target: Target)

  /** What the gate asks its owner to write: a collapse summary, or a drop notice. */
  datatype Write =
    | Summary(topic: string, payload: string, count: nat, first: int, last: int, author: string)
    | Notice(service: string, low: nat, high: nat)

  /** A record stored within a service's budget: when, whose, and in which window. */
  datatype Spent = Spent(at: int, service: string, budget: Budget, win: int)

  function Summarised(writes: seq<Write>): nat {
    if writes == [] then 0
    else
      var last := writes[|writes| - 1];
      Summarised(writes[..|writes| - 1]) + if last.Summary? then last.count else 0
  }

  function Noticed(writes: seq<Write>): nat {
    if writes == [] then 0
    else
      var last := writes[|writes| - 1];
      Noticed(writes[..|writes| - 1]) + if last.Notice? then last.low + last.high else 0
  }

  lemma {:induction false} WritesAppend(writes: seq<Write>, w: Write)
    ensures Summarised(writes + [w]) == Summarised(writes) + (if w.Summary? then w.count else 0)
    ensures Noticed(writes + [w]) == Noticed(writes) + (if w.Notice? then w.low + w.high else 0)
  {
    assert (writes + [w])[..|writes|] == writes;
  }

  // ---------------------------------------------------------------- what the tables hold

  type Repeats = map<RepeatKey, Repeat>
  type Services = map<string, Service>

  ghost function Counts(m: Repeats): map<RepeatKey, nat> { map k | k in m :: m[k].count }
  ghost function Lengths(m: Repeats): map<RepeatKey, nat> { map k | k in m :: PayloadLength(m[k]) }
  ghost function Drops(m: Services): map<string, nat> { map k | k in m :: m[k].Dropped() }

  function PayloadLength(r: Repeat): nat { if r.payload.Some? then |r.payload.value| else 0 }

  lemma {:induction false} CountsUpdate(m: Repeats, k: RepeatKey, r: Repeat)
    ensures Total(Counts(m[k := r])) == Total(Counts(m)) - (if k in m then m[k].count else 0) + r.count
    ensures Total(Lengths(m[k := r])) == Total(Lengths(m)) - (if k in m then PayloadLength(m[k])
            else 0) + PayloadLength(r)
  {
    assert Counts(m[k := r]) == Counts(m)[k := r.count];
    assert Lengths(m[k := r]) == Lengths(m)[k := PayloadLength(r)];
    TotalUpdate(Counts(m), k, r.count);
    TotalUpdate(Lengths(m), k, PayloadLength(r));
  }

  lemma {:induction false} CountsRemove(m: Repeats, k: RepeatKey)
    requires k in m
    ensures Total(Counts(m)) == m[k].count + Total(Counts(m - {k}))
    ensures Total(Lengths(m)) == PayloadLength(m[k]) + Total(Lengths(m - {k}))
  {
    assert Counts(m) - {k} == Counts(m - {k}) && Lengths(m) - {k} == Lengths(m - {k});
    TotalRemove(Counts(m), k);
    TotalRemove(Lengths(m), k);
  }

  lemma {:induction false} DropsUpdate(m: Services, k: string, s: Service)
    ensures Total(Drops(m[k := s])) == Total(Drops(m)) - (if k in m then m[k].Dropped() else 0) + s.Dropped()
  {
    assert Drops(m[k := s]) == Drops(m)[k := s.Dropped()];
    TotalUpdate(Drops(m), k, s.Dropped());
  }

  lemma {:induction false} DropsRemove(m: Services, k: string)
    requires k in m
    ensures Total(Drops(m)) == m[k].Dropped() + Total(Drops(m - {k}))
  {
    assert Drops(m) - {k} == Drops(m - {k});
    TotalRemove(Drops(m), k);
  }

  // ---------------------------------------------------------------- the rate

  /** Records of a service and budget stored in the window that began at win. */
  function InWindow(history: seq<Spent>, service: string, b: Budget, win: int): nat {
    if history == [] then 0
    else
      var e := history[|history| - 1];
      InWindow(history[..|history| - 1], service, b, win) +
      if e.service == service && e.budget == b && e.win == win then 1 else 0
  }

  /** Records of a service and budget stored at a time in [from, to). */
  function Between(history: seq<Spent>, service: string, b: Budget, from: int, to: int): nat {
    if history == [] then 0
    else
      var e := history[|history| - 1];
      Between(history[..|history| - 1], service, b, from, to) +
      if e.service == service && e.budget == b && from <= e.at < to then 1 else 0
  }

  /** Windows of one service are disjoint, hold their records, and each holds at most max of a budget. */
  ghost predicate Paced(history: seq<Spent>, window: int, max: nat) {
    && (forall e :: e in history ==> e.win <= e.at < e.win + window)
    && (forall e, f :: e in history && f in history && e.service == f.service ==>
          e.win == f.win || e.win + window <= f.win || f.win + window <= e.win)
    && (forall service: string, b: Budget, win: int :: InWindow(history, service, b, win) <= max)
  }

  lemma {:induction false} InWindowAppend(history: seq<Spent>, e: Spent, service: string, b: Budget, win: int)
    ensures InWindow(history + [e], service, b, win) ==
            InWindow(history, service, b, win) + if e.service == service && e.budget == b && e.win == win then 1 else 0
  {
    assert (history + [e])[..|history|] == history;
  }

  lemma {:induction false} InWindowZero(history: seq<Spent>, service: string, b: Budget, win: int)
    requires forall e :: e in history && e.service == service ==> e.win != win
    ensures InWindow(history, service, b, win) == 0
  {
    if history != [] {
      assert forall e :: e in history[..|history| - 1] ==> e in history;
      assert history[|history| - 1] in history;
      InWindowZero(history[..|history| - 1], service, b, win);
    }
  }

  /** The records between two times, when they all lie in one of two windows. */
  lemma {:induction false} BetweenTwo(history: seq<Spent>, service: string, b: Budget, from: int, to: int, w1: int,
                                      w2: int)
    requires forall e :: e in history && e.service == service && e.budget == b && from <= e.at < to ==>
              e.win == w1 || e.win == w2
    ensures Between(history, service, b, from, to) <=
            InWindow(history, service, b, w1) + InWindow(history, service, b, w2)
  {
    if history != [] {
      assert forall e :: e in history[..|history| - 1] ==> e in history;
      assert history[|history| - 1] in history;
      BetweenTwo(history[..|history| - 1], service, b, from, to, w1, w2);
    }
  }

  /** An interval one window long holds at most two budgets' worth of a service's records. */
  lemma {:induction false} RateBound(history: seq<Spent>, window: int, max: nat, service: string, b: Budget, from: int)
    requires window > 0 && Paced(history, window, max)
    ensures Between(history, service, b, from, from + window) <= 2 * max
  {
    var to := from + window;
    var w1, w2 := from, from;
    if e1 :| e1 in history && e1.service == service && e1.budget == b && from <= e1.at < to {
      w1, w2 := e1.win, e1.win;
      if e2 :| e2 in history && e2.service == service && e2.budget == b && from <= e2.at < to && e2.win != w1 {
        w2 := e2.win;
      }
    }
    BetweenTwo(history, service, b, from, to, w1, w2);
    assert InWindow(history, service, b, w1) <= max && InWindow(history, service, b, w2) <= max;
  }

  /** What the tables must satisfy for the next record to keep the pace: how far each live window is spent. */
  ghost predicate OnPace(history: seq<Spent>, services: Services, window: int, max: nat, clock: int) {
    && (forall n, b :: n in services ==>
          services[n].Stored(b) == InWindow(history, n, b, services[n].end - window))
    && (forall n :: n in services ==> services[n].end - window <= clock)
    && (forall e :: e in history ==>
          if e.service in services then
            e.win == services[e.service].end - window || e.win + window <= services[e.service].end - window
          else e.win + window <= clock)
  }

  lemma {:induction false} OnPaceLater(history: seq<Spent>, services: Services, window: int, max: nat, clock: int,
                                       now: int)
    requires OnPace(history, services, window, max, clock) && clock <= now
    ensures OnPace(history, services, window, max, now)
  {
  }

  lemma {:induction false} OnPaceEnd(history: seq<Spent>, services: Services, window: int, max: nat, clock: int,
                                     n: string)
    requires OnPace(history, services, window, max, clock) && n in services && services[n].end <= clock && window > 0
    ensures OnPace(history, services - {n}, window, max, clock)
  {
    var after := services - {n};
    forall m, b | m in after ensures after[m].Stored(b) == InWindow(history, m, b, after[m].end - window) {
      assert services[m].Stored(b) == InWindow(history, m, b, services[m].end - window);
    }
  }

  lemma {:induction false} OnPaceOpen(history: seq<Spent>, services: Services, window: int, max: nat, clock: int,
                                      n: string, s: Service)
    requires OnPace(history, services, window, max, clock) && n !in services && window > 0
    requires s.end == clock + window && s.storedLow == 0 && s.storedHigh == 0
    ensures OnPace(history, services[n := s], window, max, clock)
  {
    var after := services[n := s];
    forall m, b | m in after ensures after[m].Stored(b) == InWindow(history, m, b, after[m].end - window) {
      if m == n {
        InWindowZero(history, n, b, clock);
      } else {
        assert services[m].Stored(b) == InWindow(history, m, b, services[m].end - window);
      }
    }
  }

  lemma {:induction false} OnPaceDrop(history: seq<Spent>, services: Services, window: int, max: nat, clock: int,
                                      n: string, b: Budget)
    requires OnPace(history, services, window, max, clock) && n in services
    ensures OnPace(history, services[n := services[n].Drop(b)], window, max, clock)
  {
    var after := services[n := services[n].Drop(b)];
    forall m, c | m in after ensures after[m].Stored(c) == InWindow(history, m, c, after[m].end - window) {
      assert services[m].Stored(c) == InWindow(history, m, c, services[m].end - window);
    }
  }

  /** Spending within the budget keeps every window within its budget. */
  lemma {:induction false} PacedSpend(history: seq<Spent>, services: Services, window: int, max: nat, clock: int,
                                      n: string, b: Budget)
    requires Paced(history, window, max) && OnPace(history, services, window, max, clock)
    requires n in services && clock < services[n].end && services[n].Stored(b) < max
    ensures Paced(history + [Spent(clock, n, b, services[n].end - window)], window, max)
  {
    var e := Spent(clock, n, b, services[n].end - window);
    forall m: string, c: Budget, w: int ensures InWindow(history + [e], m, c, w) <= max {
      InWindowAppend(history, e, m, c, w);
      if m == n && c == b && w == e.win {
        assert services[n].Stored(b) == InWindow(history, n, b, e.win);
      }
    }
    forall d | d in history && d.service == n ensures d.win == e.win || d.win + window <= e.win {
    }
  }

  lemma {:induction false} OnPaceSpend(history: seq<Spent>, services: Services, window: int, max: nat, clock: int,
                                       n: string, b: Budget)
    requires OnPace(history, services, window, max, clock) && n in services
    ensures OnPace(history + [Spent(clock, n, b, services[n].end - window)], services[n := services[n].Spend(b)],
                   window, max, clock)
  {
    var e := Spent(clock, n, b, services[n].end - window);
    var after := services[n := services[n].Spend(b)];
    forall m, c | m in after ensures after[m].Stored(c) == InWindow(history + [e], m, c, after[m].end - window) {
      assert services[m].Stored(c) == InWindow(history, m, c, services[m].end - window);
      InWindowAppend(history, e, m, c, after[m].end - window);
    }
  }

  // ---------------------------------------------------------------- the deadline heap

  predicate Live(e: Entry, repeats: Repeats, services: Services) {
    match e.target
    case RepeatAt(k) => k in repeats && repeats[k].gen == e.gen
    case ServiceAt(n) => n in services && services[n].gen == e.gen
  }

  /** Every live window has its entry; generations are not reused; an entry without a window is already due. */
  ghost predicate Scheduled(repeats: Repeats, services: Services, due: set<Entry>, gen: nat, clock: int) {
    && (forall k :: k in repeats ==> Entry(repeats[k].end, repeats[k].gen, RepeatAt(k)) in due)
    && (forall n :: n in services ==> Entry(services[n].end, services[n].gen, ServiceAt(n)) in due)
    && (forall e :: e in due ==> e.gen <= gen)
    && (forall e, f :: e in due && f in due && e.gen == f.gen ==> e == f)
    && (forall e :: e in due && !Live(e, repeats, services) ==> e.at <= clock)
  }

  lemma {:induction false} ScheduledLater(repeats: Repeats, services: Services, due: set<Entry>, gen: nat, clock: int,
                                          now: int)
    requires Scheduled(repeats, services, due, gen, clock) && clock <= now
    ensures Scheduled(repeats, services, due, gen, now)
  {
  }

  lemma {:induction false} ScheduledEndRepeat(repeats: Repeats, services: Services, due: set<Entry>, gen: nat,
                                              clock: int, k: RepeatKey)
    requires Scheduled(repeats, services, due, gen, clock) && k in repeats && repeats[k].end <= clock
    ensures Scheduled(repeats - {k}, services, due, gen, clock)
  {
    assert Entry(repeats[k].end, repeats[k].gen, RepeatAt(k)) in due;
  }

  lemma {:induction false} ScheduledEndService(repeats: Repeats, services: Services, due: set<Entry>, gen: nat,
                                               clock: int, n: string)
    requires Scheduled(repeats, services, due, gen, clock) && n in services && services[n].end <= clock
    ensures Scheduled(repeats, services - {n}, due, gen, clock)
  {
    assert Entry(services[n].end, services[n].gen, ServiceAt(n)) in due;
  }

  lemma {:induction false} ScheduledOpenRepeat(repeats: Repeats, services: Services, due: set<Entry>, gen: nat,
                                               clock: int, k: RepeatKey, r: Repeat)
    requires Scheduled(repeats, services, due, gen, clock) && k !in repeats && r.gen == gen + 1
    ensures Scheduled(repeats[k := r], services, due + {Entry(r.end, r.gen, RepeatAt(k))}, gen + 1, clock)
  {
  }

  lemma {:induction false} ScheduledOpenService(repeats: Repeats, services: Services, due: set<Entry>, gen: nat,
                                                clock: int, n: string, s: Service)
    requires Scheduled(repeats, services, due, gen, clock) && n !in services && s.gen == gen + 1
    ensures Scheduled(repeats, services[n := s], due + {Entry(s.end, s.gen, ServiceAt(n))}, gen + 1, clock)
  {
  }

  /** Counting in a window leaves the schedule alone. */
  lemma {:induction false} ScheduledCount(repeats: Repeats, services: Services, due: set<Entry>, gen: nat, clock: int,
                                          k: RepeatKey, r: Repeat)
    requires Scheduled(repeats, services, due, gen, clock) && k in repeats && r.gen == repeats[k].gen
    requires r.end == repeats[k].end
    ensures Scheduled(repeats[k := r], services, due, gen, clock)
  {
  }

  lemma {:induction false} ScheduledCharge(repeats: Repeats, services: Services, due: set<Entry>, gen: nat, clock: int,
                                           n: string, s: Service)
    requires Scheduled(repeats, services, due, gen, clock) && n in services && s.gen == services[n].gen
    requires s.end == services[n].end
    ensures Scheduled(repeats, services[n := s], due, gen, clock)
  {
  }

  /** The tables after an entry is taken off the heap: its window ends if it is still that generation's. */
  function RepeatsAfter(e: Entry, repeats: Repeats): Repeats {
    if e.target.RepeatAt? && e.target.key in repeats && repeats[e.target.key].gen == e.gen
    then repeats - {e.target.key} else repeats
  }

  function ServicesAfter(e: Entry, services: Services): Services {
    if e.target.ServiceAt? && e.target.name in services && services[e.target.name].gen == e.gen
    then services - {e.target.name} else services
  }

  lemma {:induction false} ScheduledPop(repeats: Repeats, services: Services, due: set<Entry>, gen: nat, clock: int,
                                        e: Entry)
    requires Scheduled(repeats, services, due, gen, clock) && e in due
    ensures Scheduled(RepeatsAfter(e, repeats), ServicesAfter(e, services), due - {e}, gen, clock)
    ensures e.target.RepeatAt? && e.target.key in repeats && repeats[e.target.key].gen == e.gen ==>
              repeats[e.target.key].end == e.at
    ensures e.target.ServiceAt? && e.target.name in services && services[e.target.name].gen == e.gen ==>
              services[e.target.name].end == e.at
  {
    var rs, ss := RepeatsAfter(e, repeats), ServicesAfter(e, services);
    forall k | k in rs ensures Entry(rs[k].end, rs[k].gen, RepeatAt(k)) in due - {e} {
      assert Entry(repeats[k].end, repeats[k].gen, RepeatAt(k)) in due;
    }
    forall n | n in ss ensures Entry(ss[n].end, ss[n].gen, ServiceAt(n)) in due - {e} {
      assert Entry(services[n].end, services[n].gen, ServiceAt(n)) in due;
    }
    if e.target.RepeatAt? && e.target.key in repeats {
      assert Entry(repeats[e.target.key].end, repeats[e.target.key].gen, RepeatAt(e.target.key)) in due;
    }
    if e.target.ServiceAt? && e.target.name in services {
      assert Entry(services[e.target.name].end, services[e.target.name].gen, ServiceAt(e.target.name)) in due;
    }
    forall f | f in due - {e} && !Live(f, rs, ss) ensures f.at <= clock {
      assert !Live(f, repeats, services);
    }
  }

  predicate Earliest(e: Entry, due: set<Entry>) {
    e in due && forall f :: f in due ==> e.at <= f.at
  }

  lemma {:induction false} EarliestExists(due: set<Entry>)
    requires due != {}
    ensures exists e :: Earliest(e, due)
  {
    var e :| e in due;
    var rest := due - {e};
    assert forall f :: f in due ==> f == e || f in rest;
    if rest == {} {
      assert Earliest(e, due);
    } else {
      EarliestExists(rest);
      var m :| Earliest(m, rest);
      assert Earliest(if e.at < m.at then e else m, due);
    }
  }

  // ---------------------------------------------------------------- what a window withheld

  /** A withheld record. */
  datatype Held = Held(at: int, payload: string, author: string)

  /** A repeat window tells what it withheld: how many, when the first and the last came, and one of the payloads. */
  ghost predicate Tells(r: Repeat, withheld: seq<Held>) {
    && r.count == |withheld|
    && (r.count == 0 <==> r.payload.None?)
    && (r.count > 0 ==>
          && r.first == withheld[0].at
          && r.last == withheld[r.count - 1].at
          && r.author == withheld[r.count - 1].author
          && exists h :: h in withheld && h.payload == r.payload.value)
  }

  /** Each repeat window tells what it withheld, and the held bytes are exactly the pending payloads'. */
  ghost predicate Accounted(repeats: Repeats, withheld: map<RepeatKey, seq<Held>>, held: int) {
    && withheld.Keys == repeats.Keys
    && (forall k :: k in repeats ==> Tells(repeats[k], withheld[k]))
    && held == Total(Lengths(repeats))
  }

  lemma {:induction false} AccountedEnd(repeats: Repeats, withheld: map<RepeatKey, seq<Held>>, held: int, k: RepeatKey)
    requires Accounted(repeats, withheld, held) && k in repeats
    ensures Accounted(repeats - {k}, withheld - {k}, held - PayloadLength(repeats[k]))
    ensures repeats[k].count > 0 <==> repeats[k].payload.Some?
  {
    CountsRemove(repeats, k);
    assert Tells(repeats[k], withheld[k]);
  }

  lemma {:induction false} AccountedOpen(repeats: Repeats, withheld: map<RepeatKey, seq<Held>>, held: int, k: RepeatKey,
                                         r: Repeat)
    requires Accounted(repeats, withheld, held) && k !in repeats && r.count == 0 && r.payload.None?
    ensures Accounted(repeats[k := r], withheld[k := []], held)
  {
    CountsUpdate(repeats, k, r);
  }

  /** A window after withholding one more record; `replace` says whether the record's payload is kept. */
  function Withholding(r: Repeat, h: Held, replace: bool): Repeat {
    r.(count := r.count + 1, first := if r.count == 0 then h.at else r.first, last := h.at, author := h.author,
    payload := if replace then Some(h.payload) else r.payload)
  }

  lemma {:induction false} AccountedCount(repeats: Repeats, withheld: map<RepeatKey, seq<Held>>, held: int,
                                          k: RepeatKey, h: Held, replace: bool)
    requires Accounted(repeats, withheld, held) && k in repeats && (replace || repeats[k].payload.Some?)
    ensures k in withheld
    ensures var r := Withholding(repeats[k], h, replace);
            Accounted(repeats[k := r], withheld[k := withheld[k] + [h]],
                      held - PayloadLength(repeats[k]) + PayloadLength(r))
  {
    hide Total, Counts, Lengths;
    var r := Withholding(repeats[k], h, replace);
    CountsUpdate(repeats, k, r);
    assert Tells(repeats[k], withheld[k]);
    assert h in withheld[k] + [h];
    assert Tells(r, withheld[k] + [h]);
  }

  /** The first record of every repeat window was stored when the window opened. */
  ghost predicate Preceded(repeats: Repeats, firsts: set<(RepeatKey, int)>, window: int) {
    forall k :: k in repeats ==> (k, repeats[k].end - window) in firsts
  }

  ghost predicate Past(firsts: set<(RepeatKey, int)>, clock: int) {
    forall f :: f in firsts ==> f.1 <= clock
  }

  lemma {:induction false} WasStored(repeats: Repeats, firsts: set<(RepeatKey, int)>, window: int, clock: int,
                                     k: RepeatKey)
    requires Preceded(repeats, firsts, window) && Past(firsts, clock) && k in repeats
    ensures repeats[k].end - window <= clock
    ensures (k, repeats[k].end - window) in firsts && firsts + {(k, repeats[k].end - window)} == firsts
  {
  }

  lemma {:induction false} SizeWithout(services: Services, n: string)
    requires n in services
    ensures |services - {n}| == |services| - 1
  {
    assert (services - {n}).Keys == services.Keys - {n};
  }

  lemma {:induction false} SizeWith(services: Services, n: string, s: Service)
    ensures |services[n := s]| == |services| + if n in services then 0 else 1
  {
    assert services[n := s].Keys == services.Keys + {n};
    if n in services {
      assert services.Keys + {n} == services.Keys;
    }
  }

  lemma {:induction false} PutAside(services: Services, n: string, s: Service)
    ensures services[n := s] - {n} == services - {n}
  {
  }

  function Size<K, V>(m: map<K, V>): nat { |m| }

  lemma {:induction false} PrecededEnd(repeats: Repeats, firsts: set<(RepeatKey, int)>, window: int, k: RepeatKey)
    requires Preceded(repeats, firsts, window) && k in repeats
    ensures Preceded(repeats - {k}, firsts, window)
    ensures Size(repeats - {k}) == Size(repeats) - 1
  {
    assert (repeats - {k}).Keys == repeats.Keys - {k};
  }

  lemma {:induction false} PrecededPut(repeats: Repeats, firsts: set<(RepeatKey, int)>, window: int, k: RepeatKey,
                                       r: Repeat)
    requires Preceded(repeats, firsts, window)
    ensures Preceded(repeats[k := r], firsts + {(k, r.end - window)}, window)
    ensures |repeats[k := r]| == |repeats| + if k in repeats then 0 else 1
  {
    assert repeats[k := r].Keys == repeats.Keys + {k};
    if k in repeats {
      assert repeats.Keys + {k} == repeats.Keys;
    }
  }

  function SummaryOf(r: Repeat): seq<Write> {
    if r.count == 0 || r.payload.None? then []
    else [Summary(r.topic, r.payload.value, r.count, r.first, r.last, r.author)]
  }

  function NoticeOf(name: string, s: Service): seq<Write> {
    if s.Dropped() == 0 then [] else [Notice(name, s.droppedLow, s.droppedHigh)]
  }

  /** Some windows are gone: each of them had ended by now, and its write is in writes. */
  ghost predicate RepeatsEnded(before: Repeats, after: Repeats, now: int, writes: seq<Write>) {
    && (forall k :: k in after ==> k in before && after[k] == before[k])
    && (forall k :: k in before && k !in after ==>
          before[k].end <= now && forall w :: w in SummaryOf(before[k]) ==> w in writes)
  }

  ghost predicate ServicesEnded(before: Services, after: Services, now: int, writes: seq<Write>) {
    && (forall n :: n in after ==> n in before && after[n] == before[n])
    && (forall n :: n in before && n !in after ==>
          before[n].end <= now && forall w :: w in NoticeOf(n, before[n]) ==> w in writes)
  }

  lemma {:induction false} RepeatsEndedStep(before: Repeats, mid: Repeats, after: Repeats, e: Entry, now: int,
                                            writes: seq<Write>, out: seq<Write>)
    requires RepeatsEnded(before, mid, now, writes) && writes <= out && after == RepeatsAfter(e, mid)
    requires forall k :: k in mid && k !in after ==> mid[k].end <= now && out == writes + SummaryOf(mid[k])
    ensures RepeatsEnded(before, after, now, out)
  {
  }

  lemma {:induction false} ServicesEndedStep(before: Services, mid: Services, after: Services, e: Entry, now: int,
                                             writes: seq<Write>, out: seq<Write>)
    requires ServicesEnded(before, mid, now, writes) && writes <= out && after == ServicesAfter(e, mid)
    requires forall n :: n in mid && n !in after ==> mid[n].end <= now && out == writes + NoticeOf(n, mid[n])
    ensures ServicesEnded(before, after, now, out)
  {
  }

  lemma {:induction false} NoneEnded(repeats: Repeats, services: Services, now: int)
    ensures RepeatsEnded(repeats, repeats, now, []) && ServicesEnded(services, services, now, [])
  {
  }

  /** When nothing in the heap is due, no window is. */
  lemma {:induction false} NoneDue(repeats: Repeats, services: Services, due: set<Entry>, gen: nat, clock: int,
                                   now: int)
    requires Scheduled(repeats, services, due, gen, clock) && forall e :: e in due ==> e.at > now
    ensures forall k :: k in repeats ==> repeats[k].end > now
    ensures forall n :: n in services ==> services[n].end > now
  {
    forall k | k in repeats ensures repeats[k].end > now {
      assert Entry(repeats[k].end, repeats[k].gen, RepeatAt(k)) in due;
    }
    forall n | n in services ensures services[n].end > now {
      assert Entry(services[n].end, services[n].gen, ServiceAt(n)) in due;
    }
  }

  lemma {:induction false} NothingPending(repeats: Repeats, services: Services, due: set<Entry>, gen: nat, clock: int)
    requires Scheduled(repeats, services, due, gen, clock) && due == {}
    ensures repeats == map[] && services == map[]
    ensures Total(Counts(repeats)) == 0 && Total(Drops(services)) == 0
  {
    if k :| k in repeats {
      assert false;
    }
    if n :| n in services {
      assert false;
    }
    assert repeats == map[] && services == map[];
    assert Counts(repeats) == map[] && Drops(services) == map[];
  }

  /** The windows of every key but one are the same. */
  ghost predicate OtherRepeats(before: Repeats, after: Repeats, key: Option<RepeatKey>) {
    forall k :: key != Some(k) ==>
      (k in after <==> k in before) && (k in before && k in after ==> after[k] == before[k])
  }

  lemma {:induction false} OtherRepeatsKept(repeats: Repeats, key: Option<RepeatKey>)
    ensures OtherRepeats(repeats, repeats, key)
  {
  }

  lemma {:induction false} OtherRepeatsTwice(before: Repeats, middle: Repeats, after: Repeats, key: Option<RepeatKey>)
    requires OtherRepeats(before, middle, key) && OtherRepeats(middle, after, key)
    ensures OtherRepeats(before, after, key)
  {
  }

  lemma {:induction false} NothingWritten()
    ensures Summarised([]) == 0 && Noticed([]) == 0
  {
  }

  // ---------------------------------------------------------------- the gate

  class Gate {
    const window: int
    const maxPerService: nat
    const maxTracked: nat
    var closed: bool
    var held: int
    var repeats: Repeats
    var services: Services
    var due: set<Entry>
    var gen: nat

    /** Verdicts given and counts written so far. */
    ghost var collapsed: nat
    ghost var limited: nat
    ghost var summarised: nat
    ghost var noticed: nat
    /** The records each live repeat window withheld, and the keyed records stored, with their times. */
    ghost var withheld: map<RepeatKey, seq<Held>>
    ghost var firsts: set<(RepeatKey, int)>
    /** The records stored within a budget; the latest time seen; whether time never went back and no service went
        untracked. */
    ghost var history: seq<Spent>
    ghost var clock: int
    ghost var steady: bool

    ghost predicate Conserved()
      reads this
    {
      && collapsed == summarised + Total(Counts(repeats))
      && limited == noticed + Total(Drops(services))
    }

    ghost predicate Bounded()
      reads this
    {
      held <= MAX_HELD && Size(repeats) <= maxTracked && Size(services) <= maxTracked
    }

    ghost predicate PaceKept()
      reads this
    {
      steady && window > 0 ==>
        && Paced(history, window, maxPerService)
        && (!closed ==> OnPace(history, services, window, maxPerService, clock))
    }

    /** What ending a window keeps, whatever is in the heap. */
    ghost predicate Kept()
      reads this
    {
      && Conserved() && Bounded() && PaceKept()
      && Accounted(repeats, withheld, held)
      && Preceded(repeats, firsts, window)
    }

    ghost predicate Valid()
      reads this
    {
      && Kept()
      && Scheduled(repeats, services, due, gen, clock)
      && Past(firsts, clock)
      && (closed ==> repeats == map[] && services == map[] && due == {})
    }

    constructor (window: int, maxPerService: nat, maxTracked: nat, ghost since: int)
      ensures Valid() && !closed && repeats == map[] && services == map[] && steady
      ensures this.window == window && this.maxPerService == maxPerService && this.maxTracked == maxTracked
      ensures collapsed == limited == summarised == noticed == 0 && history == [] && firsts == {} && clock == since
    {
      this.window, this.maxPerService, this.maxTracked := window, maxPerService, maxTracked;
      closed, held, repeats, services, due, gen := false, 0, map[], map[], {}, 0;
      collapsed, limited, summarised, noticed := 0, 0, 0, 0;
      withheld, firsts, history, clock, steady := map[], {}, [], since, true;
      new;
      assert Counts(repeats) == map[] && Lengths(repeats) == map[] && Drops(services) == map[];
    }

    predicate HasRoom(held: int, r: Repeat, payload: string)
    {
      r.payload.Some? || held - PayloadLength(r) + |payload| <= MAX_HELD
    }

    /** Adds a window's summary to the writes, if it withheld anything. */
    static method Summarise(r: Repeat, writes: seq<Write>) returns (out: seq<Write>)
      requires r.count > 0 <==> r.payload.Some?
      ensures out == writes + SummaryOf(r)
      ensures Summarised(out) == Summarised(writes) + r.count && Noticed(out) == Noticed(writes)
    {
      out := writes;
      if r.count > 0 {
        var summary := Summary(r.topic, r.payload.value, r.count, r.first, r.last, r.author);
        WritesAppend(writes, summary);
        out := writes + [summary];
      }
    }

    /** Forgets a repeat window; its count is then the summary's to tell. */
    method Discard(key: RepeatKey) returns (r: Repeat)
      requires Kept() && key in repeats
      modifies this`repeats, this`held, this`withheld, this`summarised
      ensures Kept() && r == old(repeats)[key] && repeats == old(repeats) - {key}
      ensures summarised == old(summarised) + r.count && (r.count > 0 <==> r.payload.Some?)
    {
      hide Paced, OnPace, Total, Counts, Lengths, Drops, Accounted, Preceded, PayloadLength, Size;
      r := repeats[key];
      AccountedEnd(repeats, withheld, held, key);
      PrecededEnd(repeats, firsts, window, key);
      CountsRemove(repeats, key);
      repeats := repeats - {key};
      withheld := withheld - {key};
      held := held - PayloadLength(r);
      summarised := summarised + r.count;
    }

    /** Forgets a repeat window and writes its summary if it withheld anything. */
    method EndRepeat(key: RepeatKey, writes: seq<Write>) returns (out: seq<Write>)
      requires Kept() && key in repeats
      modifies this`repeats, this`held, this`withheld, this`summarised
      ensures Kept() && repeats == old(repeats) - {key}
      ensures out == writes + SummaryOf(old(repeats)[key])
      ensures summarised - old(summarised) == Summarised(out) - Summarised(writes)
      ensures Noticed(out) == Noticed(writes)
    {
      hide Kept, Summarised, Noticed, SummaryOf;
      var r := Discard(key);
      out := Summarise(r, writes);
    }

    /** Ends a repeat window that is over, ahead of its heap entry. */
    method Expire(key: RepeatKey, writes: seq<Write>) returns (out: seq<Write>)
      requires Valid() && key in repeats && repeats[key].end <= clock
      modifies this`repeats, this`held, this`withheld, this`summarised
      ensures Valid() && repeats == old(repeats) - {key} && |repeats| < maxTracked
      ensures out == writes + SummaryOf(old(repeats)[key])
      ensures summarised - old(summarised) == Summarised(out) - Summarised(writes)
      ensures Noticed(out) == Noticed(writes)
    {
      hide Paced, OnPace, Accounted, Scheduled, Total, Counts, Lengths, Drops, Preceded, Past, SummaryOf, Summarised,
        Noticed;
      ScheduledEndRepeat(repeats, services, due, gen, clock, key);
      PrecededEnd(repeats, firsts, window, key);
      out := EndRepeat(key, writes);
    }

    /** Forgets a service's window and writes its drop notice if it dropped anything. */
    method EndService(name: string, writes: seq<Write>) returns (out: seq<Write>)
      requires Kept() && name in services
      requires closed || services[name].end <= clock
      modifies this`services, this`noticed
      ensures Kept() && services == old(services) - {name}
      ensures out == writes + NoticeOf(name, old(services)[name])
      ensures noticed - old(noticed) == Noticed(out) - Noticed(writes)
      ensures Summarised(out) == Summarised(writes)
    {
      hide Paced, OnPace, Accounted, Total, Drops, Counts, Preceded;
      var s := services[name];
      DropsRemove(services, name);
      SizeWithout(services, name);
      if steady && window > 0 && !closed {
        OnPaceEnd(history, services, window, maxPerService, clock, name);
      }
      services := services - {name};
      out := writes;
      if s.Dropped() > 0 {
        WritesAppend(writes, Notice(name, s.droppedLow, s.droppedHigh));
        out := writes + [Notice(name, s.droppedLow, s.droppedHigh)];
      }
      noticed := noticed + s.Dropped();
    }

    /** Takes an entry off the heap and ends its window if it is still that generation's. */
    method Pop(e: Entry, writes: seq<Write>) returns (out: seq<Write>)
      requires Kept() && Scheduled(repeats, services, due, gen, clock) && e in due
      requires closed || e.at <= clock
      modifies this`due, this`repeats, this`held, this`withheld, this`summarised, this`services, this`noticed
      ensures Kept() && Scheduled(repeats, services, due, gen, clock) && due == old(due) - {e}
      ensures repeats == RepeatsAfter(e, old(repeats)) && services == ServicesAfter(e, old(services))
      ensures writes <= out
      ensures forall k :: k in old(repeats) && k !in repeats ==>
                old(repeats)[k].end == e.at && out == writes + SummaryOf(old(repeats)[k])
      ensures forall n :: n in old(services) && n !in services ==>
                old(services)[n].end == e.at && out == writes + NoticeOf(n, old(services)[n])
      ensures summarised - old(summarised) == Summarised(out) - Summarised(writes)
      ensures noticed - old(noticed) == Noticed(out) - Noticed(writes)
    {
      hide Paced, OnPace, Accounted, Scheduled, Total, Counts, Lengths, Drops, Summarised, Noticed, Preceded;
      ScheduledPop(repeats, services, due, gen, clock, e);
      due := due - {e};
      out := writes;
      match e.target
      case RepeatAt(key) =>
        if key in repeats && repeats[key].gen == e.gen {
          out := EndRepeat(key, writes);
        }
      case ServiceAt(name) =>
        if name in services && services[name].gen == e.gen {
          out := EndService(name, writes);
        }
    }

    /** The earliest entry of the heap. */
    method First() returns (e: Entry)
      requires due != {}
      ensures Earliest(e, due)
    {
      EarliestExists(due);
      e :| Earliest(e, due);
    }

    /** Time is now: it may have gone back. */
    ghost method Tick(now: int)
      requires Valid()
      modifies this`clock, this`steady
      ensures Valid() && (steady ==> clock == now) && clock == if old(clock) <= now then now else old(clock)
      ensures steady == (old(steady) && old(clock) <= now)
    {
      hide Paced, OnPace, Accounted, Scheduled, Total, Counts, Lengths, Drops, Preceded;
      steady := steady && clock <= now;
      if clock <= now {
        ScheduledLater(repeats, services, due, gen, clock, now);
        if steady && window > 0 && !closed {
          OnPaceLater(history, services, window, maxPerService, clock, now);
        }
        clock := now;
      }
    }

    /** Ends every window that ended at or before now, and no other. */
    method Due(now: int) returns (writes: seq<Write>)
      requires Valid()
      modifies this`due, this`repeats, this`held, this`withheld, this`summarised, this`services, this`noticed
      modifies this`clock, this`steady
      ensures Valid()
      ensures RepeatsEnded(old(repeats), repeats, now, writes) && forall k :: k in repeats ==> repeats[k].end > now
      ensures ServicesEnded(old(services), services, now, writes) && forall n :: n in services ==> services[n].end > now
      ensures forall e :: e in due ==> e.at > now
      ensures steady == (old(steady) && old(clock) <= now)
      ensures summarised == old(summarised) + Summarised(writes)
      ensures noticed == old(noticed) + Noticed(writes)
    {
      hide Paced, OnPace, Accounted, Scheduled, Total, Counts, Lengths, Drops, Preceded, Past, SummaryOf, NoticeOf,
        RepeatsAfter, ServicesAfter, Size, Live, RepeatsEnded, ServicesEnded;
      NoneEnded(repeats, services, now);
      Tick(now);
      writes := [];
      while due != {}
        modifies this`due, this`repeats, this`held, this`withheld, this`summarised, this`services, this`noticed
        invariant Kept() && Scheduled(repeats, services, due, gen, clock)
        invariant now <= clock && Past(firsts, clock) && (closed ==> due == {} && repeats == map[] && services == map[])
        invariant RepeatsEnded(old(repeats), repeats, now, writes)
        invariant ServicesEnded(old(services), services, now, writes)
        invariant summarised == old(summarised) + Summarised(writes)
        invariant noticed == old(noticed) + Noticed(writes)
        decreases due
      {
        var e := First();
        if e.at > now {
          break;
        }
        ghost var rs, ss, before := repeats, services, writes;
        writes := Pop(e, writes);
        RepeatsEndedStep(old(repeats), rs, repeats, e, now, before, writes);
        ServicesEndedStep(old(services), ss, services, e, now, before, writes);
      }
      NoneDue(repeats, services, due, gen, clock, now);
    }

    /** Ends every window: nothing stays pending, and the gate passes every later record. */
    method Close() returns (writes: seq<Write>)
      requires Valid()
      modifies this`closed, this`due, this`repeats, this`held, this`withheld, this`summarised, this`services
      modifies this`noticed
      ensures Valid() && closed
      ensures summarised == old(summarised) + Summarised(writes) && summarised == collapsed
      ensures noticed == old(noticed) + Noticed(writes) && noticed == limited
    {
      hide Paced, OnPace, Accounted, Total, Counts, Lengths, Drops, Preceded, SummaryOf, NoticeOf, Live;
      closed := true;
      writes := [];
      while due != {}
        invariant Kept() && Scheduled(repeats, services, due, gen, clock) && closed
        invariant summarised == old(summarised) + Summarised(writes)
        invariant noticed == old(noticed) + Noticed(writes)
        decreases due
      {
        var e := First();
        writes := Pop(e, writes);
      }
      NothingPending(repeats, services, due, gen, clock);
    }

    /** Withholds a record in its live window, keeping its payload for the summary if the held bytes allow it. */
    method Withhold(key: RepeatKey, h: Held)
      requires Valid() && key in repeats && HasRoom(held, repeats[key], h.payload)
      modifies this`repeats, this`held, this`withheld, this`collapsed
      ensures Valid() && collapsed == old(collapsed) + 1
      ensures key in old(withheld) && withheld == old(withheld)[key := old(withheld)[key] + [h]]
      ensures repeats.Keys == old(repeats).Keys && repeats[key].end == old(repeats)[key].end
      ensures forall k :: k in repeats && k != key ==> repeats[k] == old(repeats)[k]
      ensures (key, repeats[key].end - window) in firsts && repeats[key].end - window <= clock
      ensures old(held) - PayloadLength(old(repeats)[key]) + |h.payload| <= MAX_HELD ==>
                repeats[key].payload == Some(h.payload)
    {
      hide Paced, OnPace, Accounted, Scheduled, Total, Counts, Lengths, Drops, Preceded, Past;
      var r := repeats[key];
      var replace := held - PayloadLength(r) + |h.payload| <= MAX_HELD;
      var after := Withholding(r, h, replace);
      AccountedCount(repeats, withheld, held, key, h, replace);
      CountsUpdate(repeats, key, after);
      ScheduledCount(repeats, services, due, gen, clock, key, after);
      PrecededPut(repeats, firsts, window, key, after);
      WasStored(repeats, firsts, window, clock, key);
      if replace {
        held := held + |h.payload| - PayloadLength(r);
      }
      repeats := repeats[key := after];
      withheld := withheld[key := withheld[key] + [h]];
      collapsed := collapsed + 1;
    }

    /** Opens a repeat window for a record that is stored now, if the table has room. */
    method OpenRepeat(key: RepeatKey, topic: string, now: int) returns (ok: bool)
      requires Valid() && key !in repeats && !closed && now <= clock
      modifies this`repeats, this`withheld, this`gen, this`due, this`firsts
      ensures Valid() && ok == (|old(repeats)| < maxTracked)
      ensures repeats == if ok then old(repeats)[key := Repeat(gen, topic, now + window, 0, 0, 0, None, "")]
              else old(repeats)
      ensures firsts == if ok then old(firsts) + {(key, now)} else old(firsts)
    {
      hide Paced, OnPace, Accounted, Scheduled, Total, Counts, Lengths, Drops, Preceded;
      ok := |repeats| < maxTracked;
      if ok {
        var r := Repeat(gen + 1, topic, now + window, 0, 0, 0, None, "");
        AccountedOpen(repeats, withheld, held, key, r);
        CountsUpdate(repeats, key, r);
        ScheduledOpenRepeat(repeats, services, due, gen, clock, key, r);
        PrecededPut(repeats, firsts, window, key, r);
        gen := gen + 1;
        repeats := repeats[key := r];
        withheld := withheld[key := []];
        due := due + {Entry(r.end, r.gen, RepeatAt(key))};
        firsts := firsts + {(key, now)};
      }
    }

    /** Opens a service's window. */
    method OpenService(name: string, now: int)
      requires Valid() && !closed && window > 0 && (steady ==> clock == now) && name !in services
      requires |services| < maxTracked
      modifies this`services, this`gen, this`due
      ensures Valid() && services == old(services)[name := Service(gen, now + window, 0, 0, 0, 0)]
    {
      hide Paced, OnPace, Accounted, Scheduled, Total, Counts, Lengths, Drops, Preceded;
      var s := Service(gen + 1, now + window, 0, 0, 0, 0);
      SizeWith(services, name, s);
      DropsUpdate(services, name, s);
      ScheduledOpenService(repeats, services, due, gen, clock, name, s);
      if steady {
        OnPaceOpen(history, services, window, maxPerService, clock, name, s);
      }
      gen := gen + 1;
      services := services[name := s];
      due := due + {Entry(s.end, s.gen, ServiceAt(name))};
    }

    /** The service's window at now: an ended one is forgotten, and a new one opens if the table has room. */
    method ServiceWindow(name: string, now: int, writes: seq<Write>) returns (tracked: bool, out: seq<Write>)
      requires Valid() && !closed && window > 0 && now <= clock && (steady ==> clock == now)
      modifies this`services, this`noticed, this`gen, this`due, this`steady
      ensures Valid() && tracked == (name in services) && steady == (old(steady) && tracked)
      ensures tracked == (name in old(services) || |old(services)| < maxTracked)
      ensures services - {name} == old(services) - {name}
      ensures tracked ==> now < services[name].end
      ensures tracked && name in old(services) && now < old(services)[name].end ==>
                services[name] == old(services)[name]
      ensures tracked && !(name in old(services) && now < old(services)[name].end) ==>
                services[name] == Service(gen, now + window, 0, 0, 0, 0)
      ensures out == writes + if name in old(services) && old(services)[name].end <= now
                              then NoticeOf(name, old(services)[name]) else []
      ensures noticed - old(noticed) == Noticed(out) - Noticed(writes) && Summarised(out) == Summarised(writes)
    {
      hide Paced, OnPace, Accounted, Scheduled, Total, Counts, Lengths, Drops, Preceded, Summarised, Noticed;
      out := writes;
      if name in services && services[name].end <= now {
        SizeWithout(services, name);
        ScheduledEndService(repeats, services, due, gen, clock, name);
        out := EndService(name, writes);
      }
      tracked := name in services || |services| < maxTracked;
      if name !in services && tracked {
        OpenService(name, now);
      }
      steady := steady && tracked;
    }

    /** Spends one record of a live window's budget, or counts a drop. */
    method Charge(name: string, b: Budget, now: int) returns (ok: bool)
      requires Valid() && !closed && window > 0 && name in services && now < services[name].end
      requires steady ==> clock == now
      modifies this`services, this`history, this`limited
      ensures Valid() && ok == (old(services)[name].Stored(b) < maxPerService)
      ensures services == old(services)[name := if ok then old(services)[name].Spend(b)
              else old(services)[name].Drop(b)]
      ensures services - {name} == old(services) - {name}
      ensures history == if ok then old(history) + [Spent(now, name, b, old(services)[name].end - window)]
              else old(history)
      ensures limited == old(limited) + if ok then 0 else 1
    {
      hide Paced, OnPace, Accounted, Scheduled, Total, Counts, Lengths, Drops, Preceded;
      var s := services[name];
      ok := s.Stored(b) < maxPerService;
      var after := if ok then s.Spend(b) else s.Drop(b);
      SizeWith(services, name, after);
      PutAside(services, name, after);
      DropsUpdate(services, name, after);
      ScheduledCharge(repeats, services, due, gen, clock, name, after);
      if ok {
        if steady {
          PacedSpend(history, services, window, maxPerService, clock, name, b);
          OnPaceSpend(history, services, window, maxPerService, clock, name, b);
        }
        history := history + [Spent(now, name, b, s.end - window)];
      } else {
        if steady {
          OnPaceDrop(history, services, window, maxPerService, clock, name, b);
        }
        limited := limited + 1;
      }
      services := services[name := after];
    }

    /** Admit's decision on a record that is not withheld: whether its service may store it. */
    method Budgeted(now: int, rec: Record, writes: seq<Write>) returns (ok: bool, tracked: bool, out: seq<Write>)
      requires Valid() && !closed && window > 0 && now <= clock && (steady ==> clock == now)
      modifies this`services, this`noticed, this`gen, this`due, this`steady, this`history, this`limited
      ensures Valid() && ok == !OverBudget(old(services), now, rec)
      ensures tracked == !NoServiceRoom(old(services), rec) && steady == (old(steady) && tracked)
      ensures services - {ServiceKey(rec.topic)} == old(services) - {ServiceKey(rec.topic)}
      ensures maxPerService > 0 && tracked ==> Charged(services, LiveWindow(old(services), now, rec), rec, ok)
      ensures history == if ok && tracked && maxPerService > 0 then
                old(history) + [Spent(now, ServiceKey(rec.topic), BudgetFor(rec.topic), ServiceStart(services, rec))]
                else old(history)
      ensures out == writes + EndedNotice(old(services), now, rec)
      ensures limited == old(limited) + if ok then 0 else 1
      ensures noticed - old(noticed) == Noticed(out) - Noticed(writes) && Summarised(out) == Summarised(writes)
    {
      hide Valid, Summarised, Noticed, AfterSlash, ServiceKey, BudgetFor, KeyOf, NoticeOf;
      ok, tracked, out := true, true, writes;
      if maxPerService > 0 {
        var name := ServiceKey(rec.topic);
        tracked, out := ServiceWindow(name, now, writes);
        if tracked {
          ok := Charge(name, BudgetFor(rec.topic), now);
        }
      }
    }

    predicate Active()
      reads this
    {
      window > 0 && !closed
    }

    /** The record's key has a window that is open at now. */
    predicate Open(repeats: Repeats, now: int, rec: Record)
    {
      KeyOf(rec).Some? && KeyOf(rec).value in repeats && now < repeats[KeyOf(rec).value].end
    }

    predicate Collapses(repeats: Repeats, held: int, now: int, rec: Record)
    {
      Open(repeats, now, rec) && HasRoom(held, repeats[KeyOf(rec).value], rec.payload)
    }

    predicate OverBudget(services: Services, now: int, rec: Record)
    {
      var name := ServiceKey(rec.topic);
      && maxPerService > 0 && name in services && now < services[name].end
      && services[name].Stored(BudgetFor(rec.topic)) >= maxPerService
    }

    predicate NoServiceRoom(services: Services, rec: Record)
    {
      maxPerService > 0 && ServiceKey(rec.topic) !in services && |services| >= maxTracked
    }

    predicate NoRepeatRoom(repeats: Repeats, now: int, rec: Record)
    {
      KeyOf(rec).Some? && (Open(repeats, now, rec) || (KeyOf(rec).value !in repeats && |repeats| >= maxTracked))
    }

    /** The service's window a record admitted at now falls in: the open one, or a new one. */
    function LiveWindow(services: Services, now: int, rec: Record): Service
    {
      var name := ServiceKey(rec.topic);
      if name in services && now < services[name].end then services[name] else Service(0, now + window, 0, 0, 0, 0)
    }

    /** The service's window is s with the record stored, or dropped. */
    predicate Charged(services: Services, s: Service, rec: Record, stored: bool)
    {
      var name, b := ServiceKey(rec.topic), BudgetFor(rec.topic);
      name in services && services[name] == (if stored then s.Spend(b) else s.Drop(b)).(gen := services[name].gen)
    }

    function ServiceStart(services: Services, rec: Record): int
    {
      var name := ServiceKey(rec.topic);
      if name in services then services[name].end - window else 0
    }

    /** The writes of the record's own windows that ended by now. */
    function EndedSummary(repeats: Repeats, now: int, rec: Record): seq<Write>
    {
      var key := KeyOf(rec);
      if key.Some? && key.value in repeats && repeats[key.value].end <= now then SummaryOf(repeats[key.value]) else []
    }

    function EndedNotice(services: Services, now: int, rec: Record): seq<Write>
    {
      var name := ServiceKey(rec.topic);
      if maxPerService > 0 && name in services && services[name].end <= now then NoticeOf(name, services[name]) else []
    }

    /** Admit's decision on a record whose key may have a window: whether it is withheld, and else whether it may
        open one. */
    method Repeated(now: int, rec: Record, author: string)
      returns (withhold: bool, collapsible: bool, writes: seq<Write>)
      requires Valid() && Active() && now <= clock && (steady ==> clock == now)
      modifies this`repeats, this`held, this`withheld, this`summarised, this`collapsed
      ensures Valid() && withhold == Collapses(old(repeats), old(held), now, rec)
      ensures withhold ==> exists at :: (KeyOf(rec).value, at) in firsts && now < at + window && (steady ==> at <= now)
      ensures withhold ==> writes == []
      ensures !withhold ==> writes == EndedSummary(old(repeats), now, rec)
      ensures collapsible == (KeyOf(rec).Some? && !Open(old(repeats), now, rec))
      ensures collapsible && !withhold ==> KeyOf(rec).value !in repeats
      ensures collapsible && !withhold ==> (|repeats| < maxTracked <==> !NoRepeatRoom(old(repeats), now, rec))
      ensures collapsed == old(collapsed) + if withhold then 1 else 0
      ensures withhold ==>
                && KeyOf(rec).value in old(withheld)
                && var k := KeyOf(rec).value;
                withheld == old(withheld)[k := old(withheld)[k] + [Held(now, rec.payload, author)]]
      ensures summarised == old(summarised) + Summarised(writes) && Noticed(writes) == 0
      ensures OtherRepeats(old(repeats), repeats, KeyOf(rec))
    {
      hide Valid, SummaryOf, KeyOf;
      var key := KeyOf(rec);
      withhold, collapsible, writes := false, key.Some?, [];
      if key.Some? && key.value in repeats {
        if repeats[key.value].end <= now {
          writes := Expire(key.value, writes);
        } else {
          collapsible := false;
          withhold := HasRoom(held, repeats[key.value], rec.payload);
          if withhold {
            Withhold(key.value, Held(now, rec.payload, author));
          }
        }
      }
    }

    /** Admit's decision on a record that is not withheld. */
    method Unwithheld(now: int, rec: Record, collapsible: bool, writes: seq<Write>)
      returns (verdict: Verdict, untracked: Untracked, out: seq<Write>)
      requires Valid() && Active() && now <= clock && (steady ==> clock == now)
      requires collapsible ==> KeyOf(rec).Some? && KeyOf(rec).value !in repeats
      modifies this`services, this`noticed, this`gen, this`due, this`steady, this`history, this`limited, this`repeats
      modifies this`withheld, this`firsts
      ensures Valid() && verdict == if OverBudget(old(services), now, rec) then RateLimited else Store
      ensures steady == (old(steady) && !NoServiceRoom(old(services), rec))
      ensures untracked == if verdict.RateLimited? then NotUntracked
                           else if NoServiceRoom(old(services), rec) then UntrackedService
                           else if KeyOf(rec).Some? && !(collapsible && |old(repeats)| < maxTracked)
                           then UntrackedRepeat else NotUntracked
      ensures out == writes + EndedNotice(old(services), now, rec)
      ensures limited == old(limited) + if verdict.RateLimited? then 1 else 0
      ensures noticed - old(noticed) == Noticed(out) - Noticed(writes) && Summarised(out) == Summarised(writes)
      ensures firsts <= old(firsts) + (if verdict.Store? && KeyOf(rec).Some? then {(KeyOf(rec).value, now)} else {})
      ensures OtherRepeats(old(repeats), repeats, KeyOf(rec))
      ensures collapsible && verdict.Store? && |old(repeats)| < maxTracked ==>
                repeats == old(repeats)[KeyOf(rec).value := Repeat(gen, rec.topic, now + window, 0, 0, 0, None, "")]
      ensures !(collapsible && verdict.Store? && |old(repeats)| < maxTracked) ==> repeats == old(repeats)
      ensures services - {ServiceKey(rec.topic)} == old(services) - {ServiceKey(rec.topic)}
      ensures maxPerService > 0 && !NoServiceRoom(old(services), rec) ==>
                Charged(services, LiveWindow(old(services), now, rec), rec, verdict.Store?)
      ensures history == if verdict.Store? && maxPerService > 0 && !untracked.UntrackedService? then
                old(history) + [Spent(now, ServiceKey(rec.topic), BudgetFor(rec.topic), ServiceStart(services, rec))]
                else old(history)
    {
      hide Valid, NoticeOf, AfterSlash, ServiceKey, BudgetFor, KeyOf, Summarised, Noticed;
      var ok, tracked;
      ok, tracked, out := Budgeted(now, rec, writes);
      if !ok {
        return RateLimited, NotUntracked, out;
      }
      var room := false;
      if collapsible {
        room := OpenRepeat(KeyOf(rec).value, rec.topic, now);
      }
      verdict := Store;
      untracked := if !tracked then UntrackedService else if KeyOf(rec).Some? && !room then UntrackedRepeat
        else NotUntracked;
    }

    /** Decides one record admitted at now. */
    method Admit(now: int, rec: Record, author: string)
      returns (verdict: Verdict, untracked: Untracked, writes: seq<Write>)
      requires Valid()
      modifies this
      ensures Valid() && closed == old(closed)
      ensures verdict == if !old(Active()) then Store
                         else if Collapses(old(repeats), old(held), now, rec) then Collapsed
                         else if OverBudget(old(services), now, rec) then RateLimited
                         else Store
      ensures untracked == if !old(Active()) || !verdict.Store? then NotUntracked
                           else if NoServiceRoom(old(services), rec) then UntrackedService
                           else if NoRepeatRoom(old(repeats), now, rec) then UntrackedRepeat
                           else NotUntracked
      ensures writes == if !old(Active()) || verdict.Collapsed? then []
                        else EndedSummary(old(repeats), now, rec) + EndedNotice(old(services), now, rec)
      // every verdict is counted, and every count is pending or written
      ensures collapsed == old(collapsed) + if verdict.Collapsed? then 1 else 0
      ensures limited == old(limited) + if verdict.RateLimited? then 1 else 0
      ensures summarised == old(summarised) + Summarised(writes)
      ensures noticed == old(noticed) + Noticed(writes)
      // a collapsed record follows a stored one of its key in the same window
      ensures verdict.Collapsed? ==>
                && KeyOf(rec).value in old(withheld)
                && var k := KeyOf(rec).value;
                withheld == old(withheld)[k := old(withheld)[k] + [Held(now, rec.payload, author)]]
      ensures verdict.Collapsed? ==>
                exists at :: (KeyOf(rec).value, at) in old(firsts) && now < at + window && (steady ==> at <= now)
      ensures firsts <= old(firsts) + (if verdict.Store? && KeyOf(rec).Some? then {(KeyOf(rec).value, now)} else {})
      // a stored record opens its key's window, and is charged to its service
      ensures old(Active()) && verdict.Store? && untracked.NotUntracked? && KeyOf(rec).Some? ==>
                && KeyOf(rec).value in repeats
                && repeats[KeyOf(rec).value] == Repeat(gen, rec.topic, now + window, 0, 0, 0, None, "")
      ensures old(Active()) && !verdict.Collapsed? && maxPerService > 0 && !NoServiceRoom(old(services), rec) ==>
                Charged(services, LiveWindow(old(services), now, rec), rec, verdict.Store?)
      // windows of other keys and services are left alone
      ensures OtherRepeats(old(repeats), repeats, KeyOf(rec))
      ensures services - {ServiceKey(rec.topic)} == old(services) - {ServiceKey(rec.topic)}
      // the record of the rate: every budgeted store, while time is steady and no service goes untracked
      ensures history == if old(Active()) && verdict.Store? && maxPerService > 0 && !untracked.UntrackedService? then
                old(history) + [Spent(now, ServiceKey(rec.topic), BudgetFor(rec.topic), ServiceStart(services, rec))]
                else old(history)
      ensures steady ==
              (old(steady) &&
               (old(Active()) ==> old(clock) <= now && (verdict.Collapsed? || !NoServiceRoom(old(services), rec))))
      ensures clock == if old(Active()) && old(clock) <= now then now else old(clock)
    {
      hide Valid, SummaryOf, NoticeOf, AfterSlash, ServiceKey, BudgetFor, KeyOf, OtherRepeats, Summarised, Noticed,
        OverBudget, LiveWindow, Charged, ServiceStart, EndedNotice, NoServiceRoom;
      NothingWritten();
      OtherRepeatsKept(repeats, KeyOf(rec));
      verdict, untracked, writes := Store, NotUntracked, [];
      if window <= 0 || closed {
        return;
      }
      Tick(now);
      var withhold, collapsible;
      withhold, collapsible, writes := Repeated(now, rec, author);
      ghost var middle := repeats;
      if withhold {
        return Collapsed, NotUntracked, writes;
      }
      verdict, untracked, writes := Unwithheld(now, rec, collapsible, writes);
      OtherRepeatsTwice(old(repeats), middle, repeats, KeyOf(rec));
    }

    /** The summary a window will write tells exactly what it withheld. */
    lemma {:induction false} SummaryTells(k: RepeatKey)
      requires Valid() && k in repeats
      ensures k in withheld && (withheld[k] == [] <==> SummaryOf(repeats[k]) == [])
      ensures withheld[k] != [] ==>
                exists h :: h in withheld[k] && SummaryOf(repeats[k]) ==
                  [Summary(repeats[k].topic, h.payload, |withheld[k]|, withheld[k][0].at,
                           withheld[k][|withheld[k]| - 1].at, withheld[k][|withheld[k]| - 1].author)]
    {
      assert Tells(repeats[k], withheld[k]);
    }

    /** Any interval one window long holds at most two budgets' worth of one service's stored records. */
    lemma {:induction false} StoredRate(service: string, b: Budget, from: int)
      requires Valid() && steady && window > 0
      ensures Between(history, service, b, from, from + window) <= 2 * maxPerService
    {
      RateBound(history, window, maxPerService, service, b, from);
    }
  }
}
