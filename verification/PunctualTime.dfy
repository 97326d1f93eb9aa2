/** Deadlines: when every timer expires on its deadline, retries come at multiples of t3 and a local
    procedure is given up before its cleanup timer expires. */
module PunctualTime {
  import opened Octets
  import opened Elements
  import opened Retransmission
  import opened Transactions
  import opened TransactionRuns
  import opened TransactionIndex
  import opened TransactionHistory

  /** A run in time, in microseconds: due holds the deadline of every timer ever armed, start the
      instant at which each number was last opened. */
  datatype Clocked = Clocked(w: World, now: nat, due: map<TimerId, nat>, start: map<nat, nat>)

  datatype Tick = Wait(d: nat) | Do(e: Event)

  function Deadlines(now: nat, armed: map<TimerId, Interval>): map<TimerId, nat> {
    map t | t in armed :: now + Span(armed[t])
  }

  function Act(c: Clocked, tick: Tick): Clocked {
    match tick
    case Wait(d) => c.(now := c.now + d)
    case Do(e) =>
      Clocked(Step(c.w, e), c.now, c.due + Deadlines(c.now, Effect(c.w.stack, e).armed),
              if Opens(c.w.stack, e) then c.start[Subject(c.w.stack, e).value := c.now] else c.start)
  }

  /** No armed cleanup timer is mapped to the number. */
  predicate Cleared(w: World, n: nat) {
    forall t :: t in w.stack.cleanup && t in w.live ==> w.stack.cleanup[t] != n
  }

  /** As `Allowed`, and a local send gets a number to which no armed cleanup timer is mapped. */
  predicate Plausible(w: World, e: Event) {
    match e
    case Arrives(_, _, id, t) => Opens(w.stack, e) ==> id !in w.issued && FreshTimer(w, t)
    case Sends(msg, _, _, id, t, c) =>
      var n := Numbered(w.stack, msg).sequenceNumber;
      id !in w.issued && FreshTimer(w, t) && FreshTimer(w, c) && t != c && n !in w.stack.pending && Cleared(w, n)
    case Answers(_, _, id, _) => id in w.remote
    case Expires(t, next) => FreshTimer(w, next) && next != t
  }

  /** Timers expire on their deadlines and never later. */
  predicate Punctual(c: Clocked, tick: Tick) {
    match tick
    case Wait(d) => forall t :: t in c.w.live && t in c.due ==> c.now + d <= c.due[t]
    case Do(e) => Plausible(c.w, e) && (e.Expires? ==> e.t in c.w.live && e.t in c.due && c.due[e.t] == c.now)
  }

  function Course(c: Clocked, ticks: seq<Tick>): Clocked
    decreases |ticks|
  {
    if ticks == [] then c else Course(Act(c, ticks[0]), ticks[1..])
  }

  predicate PunctualCourse(c: Clocked, ticks: seq<Tick>)
    decreases |ticks|
  {
    ticks == [] || (Punctual(c, ticks[0]) && PunctualCourse(Act(c, ticks[0]), ticks[1..]))
  }

  // ---- the schedule ----

  /** k whole periods. */
  function Times(k: nat, period: nat): nat {
    if k == 0 then 0 else Times(k - 1, period) + period
  }

  lemma {:induction false} TimesIsProduct(k: nat, period: nat)
    ensures Times(k, period) == k * period
  {
    if k > 0 {
      TimesIsProduct(k - 1, period);
      assert k * period == (k - 1) * period + period;
    }
  }

  lemma {:induction false} LaterTime(j: nat, k: nat, period: nat)
    requires j < k && period > 0
    ensures Times(j, period) < Times(k, period)
    decreases k
  {
    if j < k - 1 {
      LaterTime(j, k - 1, period);
    }
  }

  predicate NotOverdue(live: set<TimerId>, due: map<TimerId, nat>, now: nat) {
    forall t :: t in live ==> t in due && now <= due[t]
  }

  predicate OnSchedule(p: Procedure, start: nat, due: map<TimerId, nat>, n3: nat, period: nat) {
    && p.cleanupTimer in due && due[p.cleanupTimer] == start + Times(n3 + 2, period)
    && (p.retryMsg.Some? ==>
          p.retryCount <= n3 && p.retryTimer in due && due[p.retryTimer] == start + Times(p.retryCount + 1, period))
  }

  predicate Scheduled(pending: Procedures, start: map<nat, nat>, due: map<TimerId, nat>, n3: nat, period: nat) {
    forall n :: n in pending ==> n in start && OnSchedule(pending[n], start[n], due, n3, period)
  }

  /** Every retry timer is a pending procedure's own, and so is every armed cleanup timer of a local one. */
  predicate NoOrphans(pending: Procedures, cleanup: map<TimerId, nat>, retry: map<TimerId, nat>, live: set<TimerId>) {
    && (forall t :: t in retry ==> retry[t] in pending && pending[retry[t]].retryTimer == t)
    && (forall t :: t in cleanup && t in live && cleanup[t] in pending && pending[cleanup[t]].retryMsg.Some? ==>
          pending[cleanup[t]].cleanupTimer == t)
  }

  function Period(s: Stack): nat {
    s.t3 * 1000
  }

  predicate TimedInv(c: Clocked) {
    var s := c.w.stack;
    && Inv(c.w)
    && NotOverdue(c.w.live, c.due, c.now)
    && Scheduled(s.pending, c.start, c.due, s.n3, Period(s))
    && NoOrphans(s.pending, s.cleanup, s.retry, c.w.live)
    && c.due.Keys <= c.w.used
  }

  /** Settings for which the 32-bit arithmetic and the 8-bit counter are exact. */
  predicate Moderate(t3: nat, n3: nat) {
    0 < t3 && t3 * (n3 + 2) < 0x1_0000_0000 && n3 <= 255
  }

  lemma Product(a: nat, b: nat)
    ensures a * b * 1000 == b * (a * 1000)
  {
  }

  lemma NoWrap(t3: u32, n3: u32, ms: nat)
    requires n3 <= 255 && ms == t3 * (n3 + 2) && ms < 0x1_0000_0000
    ensures ProcTimeOut(t3, n3) == ms
  {
    assert Wrap32(n3 + 2) == n3 + 2;
  }

  lemma SpanOf(ms: u32, t3: nat, k: nat)
    requires ms == t3 * k
    ensures Span(Split(ms)) == Times(k, t3 * 1000)
  {
    SplitIsLossless(ms);
    Product(t3, k);
    TimesIsProduct(k, t3 * 1000);
  }

  /** The two set-ups are one period and n3 + 2 periods long. */
  predicate Spaced(t3: u32, n3: u32) {
    && 0 < t3 && n3 <= 255
    && Span(Split(t3)) == Times(1, t3 * 1000)
    && Span(Split(ProcTimeOut(t3, n3))) == Times(n3 + 2, t3 * 1000)
  }

  lemma Spans(t3: u32, n3: u32)
    requires Moderate(t3, n3)
    ensures Spaced(t3, n3)
  {
    var ms := t3 * (n3 + 2);
    NoWrap(t3, n3, ms);
    SpanOf(t3, t3, 1);
    SpanOf(ms, t3, n3 + 2);
  }

  /** The heart of the matter: a cleanup timer that expires on time is never a local procedure's. */
  lemma CleanupIsRemote(c: Clocked, t: TimerId)
    requires TimedInv(c) && c.w.stack.t3 > 0
    requires t in c.w.live && t in c.w.stack.cleanup && c.w.stack.cleanup[t] in c.w.stack.pending && c.due[t] == c.now
    ensures c.w.stack.pending[c.w.stack.cleanup[t]].retryMsg.None?
  {
    var n := c.w.stack.cleanup[t];
    if c.w.stack.pending[n].retryMsg.Some? {
      RetryIsAhead(c, n);
      DueBefore(c.w.stack.pending[n], c.start[n], c.due, c.w.stack.n3, Period(c.w.stack));
      assert false;
    }
  }

  lemma RetryIsAhead(c: Clocked, n: nat)
    requires TimedInv(c) && n in c.w.stack.pending && c.w.stack.pending[n].retryMsg.Some?
    ensures var p := c.w.stack.pending[n];
            && n in c.start && OnSchedule(p, c.start[n], c.due, c.w.stack.n3, Period(c.w.stack))
            && p.retryTimer in c.due && c.now <= c.due[p.retryTimer]
            && forall t :: t in c.w.stack.cleanup && t in c.w.live && c.w.stack.cleanup[t] == n ==> p.cleanupTimer == t
  {
    assert HasTimers(n, c.w.stack.pending[n], c.w.stack.cleanup, c.w.stack.retry, c.w.live);
  }

  lemma DueBefore(p: Procedure, start: nat, due: map<TimerId, nat>, n3: nat, period: nat)
    requires OnSchedule(p, start, due, n3, period) && p.retryMsg.Some? && period > 0
    ensures due[p.retryTimer] < due[p.cleanupTimer]
  {
    LaterTime(p.retryCount + 1, n3 + 2, period);
  }

  /** Retry k + 1 of a local procedure expires at start + (k + 1) * t3, strictly before its cleanup. */
  lemma RetryInstant(c: Clocked, t: TimerId)
    requires TimedInv(c) && c.w.stack.t3 > 0
    requires t in c.w.stack.retry && c.due[t] == c.now
    ensures var n := c.w.stack.retry[t];
            && n in c.w.stack.pending && n in c.start
            && var p := c.w.stack.pending[n];
               && p.retryMsg.Some? && p.cleanupTimer in c.due && p.retryCount <= c.w.stack.n3
               && c.now == c.start[n] + Times(p.retryCount + 1, Period(c.w.stack)) < c.due[p.cleanupTimer]
  {
    var p := c.w.stack.pending[c.w.stack.retry[t]];
    LaterTime(p.retryCount + 1, c.w.stack.n3 + 2, Period(c.w.stack));
  }

  // ---- the assumption about retry timers holds by itself ----

  lemma PlausibleIsAllowed(c: Clocked, e: Event)
    requires TimedInv(c) && Plausible(c.w, e)
    ensures Allowed(c.w, e) && Unreused(c.w, e)
  {
    if Opens(c.w.stack, e) && (e.Arrives? || e.Sends?) {
      assert forall t :: t in c.w.stack.retry ==> c.w.stack.retry[t] in c.w.stack.pending;
    }
  }

  // ---- what keeps the schedule ----

  predicate Extends(due: map<TimerId, nat>, due': map<TimerId, nat>) {
    forall t :: t in due ==> t in due' && due'[t] == due[t]
  }

  lemma FreshDeadlines(due: map<TimerId, nat>, now: nat, armed: map<TimerId, Interval>)
    requires armed.Keys !! due.Keys
    ensures Extends(due, due + Deadlines(now, armed))
    ensures (due + Deadlines(now, armed)).Keys == due.Keys + armed.Keys
    ensures forall t :: t in armed ==> (due + Deadlines(now, armed))[t] == now + Span(armed[t])
  {
  }

  lemma StillDue(live: set<TimerId>, due: map<TimerId, nat>, now: nat, gone: set<TimerId>, stopped: set<TimerId>,
                 armed: map<TimerId, Interval>)
    requires NotOverdue(live, due, now) && armed.Keys !! due.Keys
    ensures NotOverdue(live - gone - stopped + armed.Keys, due + Deadlines(now, armed), now)
  {
    FreshDeadlines(due, now, armed);
  }

  lemma OpenSchedule(pending: Procedures, start: map<nat, nat>, due: map<TimerId, nat>, due': map<TimerId, nat>, n3: nat, period: nat,
                     n: nat, p: Procedure, now: nat)
    requires Scheduled(pending, start, due, n3, period) && Extends(due, due')
    requires n !in pending && OnSchedule(p, now, due', n3, period)
    ensures Scheduled(Insert(pending, n, p), start[n := now], due', n3, period)
  {
  }

  lemma ChangeSchedule(pending: Procedures, start: map<nat, nat>, due: map<TimerId, nat>, due': map<TimerId, nat>, n3: nat, period: nat,
                       n: nat, p: Procedure)
    requires Scheduled(pending, start, due, n3, period) && Extends(due, due')
    requires n in pending && OnSchedule(p, start[n], due', n3, period)
    ensures Scheduled(pending[n := p], start, due', n3, period)
  {
  }

  lemma OpenOrphans(pending: Procedures, cleanup: map<TimerId, nat>, retry: map<TimerId, nat>, live: set<TimerId>,
                    n: nat, p: Procedure)
    requires NoOrphans(pending, cleanup, retry, live) && n !in pending
    requires p.cleanupTimer !in cleanup && p.retryTimer !in cleanup && p.retryTimer != p.cleanupTimer
    requires p.retryMsg.Some? ==> p.retryTimer !in retry && forall t :: t in cleanup && t in live ==> cleanup[t] != n
    ensures var c' := Insert(cleanup, p.cleanupTimer, n);
            && (p.retryMsg.None? ==> NoOrphans(Insert(pending, n, p), c', retry, live + {p.cleanupTimer}))
            && (p.retryMsg.Some? ==>
                  NoOrphans(Insert(pending, n, p), c', Insert(retry, p.retryTimer, n), live + {p.retryTimer, p.cleanupTimer}))
  {
  }

  lemma CloseOrphans(pending: Procedures, cleanup: map<TimerId, nat>, retry: map<TimerId, nat>, live: set<TimerId>,
                     n: nat, gone: set<TimerId>)
    requires NoOrphans(pending, cleanup, retry, live)
    requires forall t :: t in retry && retry[t] == n ==> t in gone
    ensures NoOrphans(pending - {n}, cleanup, retry - gone, live - gone)
    ensures NoOrphans(pending - {n}, cleanup - gone, retry - gone, live - gone)
  {
  }

  lemma RepeatOrphans(pending: Procedures, cleanup: map<TimerId, nat>, retry: map<TimerId, nat>, live: set<TimerId>,
                      t: TimerId, p: Procedure)
    requires NoOrphans(pending, cleanup, retry, live)
    requires t in retry && retry[t] in pending && p.cleanupTimer == pending[retry[t]].cleanupTimer && p.retryTimer !in cleanup
    requires p.retryTimer !in retry && p.retryMsg.Some? && pending[retry[t]].retryMsg.Some?
    ensures NoOrphans(pending[retry[t] := p], cleanup, Insert(retry - {t}, p.retryTimer, retry[t]), live - {t} + {p.retryTimer})
  {
  }

  // ---- every step keeps the schedule ----

  lemma ArmedAreFresh(w: World, e: Event)
    requires Plausible(w, e)
    ensures Effect(w.stack, e).armed.Keys !! w.used
  {
    if e.Sends? {
      ArmedBoth(e.t, e.c, w.stack.t3, ProcTimeOut(w.stack.t3, w.stack.n3));
    }
  }

  /** Whatever the event, deadlines already set stay and none is missed. */
  lemma DeadlinesStay(c: Clocked, e: Event)
    requires NotOverdue(c.w.live, c.due, c.now) && c.due.Keys <= c.w.used && Plausible(c.w, e)
    ensures var c', armed := Act(c, Do(e)), Effect(c.w.stack, e).armed;
            && NotOverdue(c'.w.live, c'.due, c'.now) && c'.due.Keys <= c'.w.used
            && Extends(c.due, c'.due)
            && forall t :: t in armed ==> t in c'.due && c'.due[t] == c.now + Span(armed[t])
  {
    ArmedAreFresh(c.w, e);
    var o := Effect(c.w.stack, e);
    FreshDeadlines(c.due, c.now, o.armed);
    StillDue(c.w.live, c.due, c.now, if e.Expires? then {e.t} else {}, o.stopped, o.armed);
  }

  predicate AllScheduled(c: Clocked) {
    Scheduled(c.w.stack.pending, c.start, c.due, c.w.stack.n3, Period(c.w.stack))
  }

  predicate Unstrayed(c: Clocked) {
    NoOrphans(c.w.stack.pending, c.w.stack.cleanup, c.w.stack.retry, c.w.live)
  }

  predicate Timely(c: Clocked) {
    AllScheduled(c) && Unstrayed(c)
  }

  lemma CloseSchedule(pending: Procedures, start: map<nat, nat>, due: map<TimerId, nat>, due': map<TimerId, nat>, n3: nat, period: nat,
                      n: nat)
    requires Scheduled(pending, start, due, n3, period) && Extends(due, due')
    ensures Scheduled(pending - {n}, start, due', n3, period)
    ensures Scheduled(pending, start, due', n3, period)
  {
  }

  lemma ReplyTimely(c: Clocked, e: Event)
    requires TimedInv(c) && Plausible(c.w, e)
    requires e.Arrives? && e.seqNum in c.w.stack.pending && !Effect(c.w.stack, e).error
    ensures Timely(Act(c, Do(e)))
  {
    var s, n := c.w.stack, e.seqNum;
    DeadlinesStay(c, e);
    CloseSchedule(s.pending, c.start, c.due, Act(c, Do(e)).due, s.n3, Period(s), n);
    CloseOrphans(s.pending, s.cleanup, s.retry, c.w.live, n, TimersOf(s.pending[n]));
    Plain(c.w.live, TimersOf(s.pending[n]), {}, {}, {});
  }

  lemma NothingTimely(c: Clocked, e: Event)
    requires TimedInv(c) && Plausible(c.w, e) && !e.Expires? && !Opens(c.w.stack, e)
    requires var o := Effect(c.w.stack, e); o.stack == c.w.stack && o.armed == map[] && o.stopped == {}
    ensures Timely(Act(c, Do(e)))
  {
    DeadlinesStay(c, e);
    Plain(c.w.live, {}, {}, {}, {});
  }

  lemma RequestSchedule(c: Clocked, e: Event)
    requires NotOverdue(c.w.live, c.due, c.now) && c.due.Keys <= c.w.used && AllScheduled(c)
    requires Plausible(c.w, e) && Spaced(c.w.stack.t3, c.w.stack.n3) && e.Arrives? && Opens(c.w.stack, e)
    ensures AllScheduled(Act(c, Do(e)))
  {
    var s, p := c.w.stack, NewRequest(e.kind, e.id, e.t);
    DeadlinesStay(c, e);
    OpenSchedule(s.pending, c.start, c.due, Act(c, Do(e)).due, s.n3, Period(s), e.seqNum, p, c.now);
  }

  lemma RequestOwned(c: Clocked, e: Event)
    requires TimedInv(c) && Plausible(c.w, e) && e.Arrives? && Opens(c.w.stack, e)
    ensures Unstrayed(Act(c, Do(e)))
  {
    var s := c.w.stack;
    OpenOrphans(s.pending, s.cleanup, s.retry, c.w.live, e.seqNum, NewRequest(e.kind, e.id, e.t));
    Plain(c.w.live, {}, {}, {}, {});
  }

  /** A deadline one period or n3 + 2 periods after the set-up. */
  lemma ArmedDeadlines(now: nat, due': map<TimerId, nat>, t: TimerId, c: TimerId, t3: u32, n3: u32,
                       armed: map<TimerId, Interval>)
    requires Spaced(t3, n3) && t != NO_TIMER && c != NO_TIMER && t != c
    requires armed == Armed(t, t3) + Armed(c, ProcTimeOut(t3, n3))
    requires forall x :: x in armed ==> x in due' && due'[x] == now + Span(armed[x])
    ensures t in due' && due'[t] == now + Times(1, t3 * 1000)
    ensures c in due' && due'[c] == now + Times(n3 + 2, t3 * 1000)
  {
    assert t in armed && c in armed;
  }

  lemma SendDue(c: Clocked, e: Event)
    requires NotOverdue(c.w.live, c.due, c.now) && c.due.Keys <= c.w.used
    requires Plausible(c.w, e) && Spaced(c.w.stack.t3, c.w.stack.n3) && e.Sends?
    ensures var due', s := Act(c, Do(e)).due, c.w.stack;
            && Extends(c.due, due')
            && e.t in due' && due'[e.t] == c.now + Times(1, Period(s))
            && e.c in due' && due'[e.c] == c.now + Times(s.n3 + 2, Period(s))
  {
    DeadlinesStay(c, e);
    ArmedDeadlines(c.now, Act(c, Do(e)).due, e.t, e.c, c.w.stack.t3, c.w.stack.n3,
                   Effect(c.w.stack, e).armed);
  }

  lemma SendsSchedule(c: Clocked, e: Event, due': map<TimerId, nat>)
    requires AllScheduled(c) && Plausible(c.w, e) && e.Sends? && due' == Act(c, Do(e)).due && Extends(c.due, due')
    requires e.t in due' && due'[e.t] == c.now + Times(1, Period(c.w.stack))
    requires e.c in due' && due'[e.c] == c.now + Times(c.w.stack.n3 + 2, Period(c.w.stack))
    ensures AllScheduled(Act(c, Do(e)))
  {
    var s, m := c.w.stack, Numbered(c.w.stack, e.msg);
    var p := NewSend(m, e.peer, e.teid, e.id, e.t, e.c);
    assert OnSchedule(p, c.now, due', s.n3, Period(s));
    OpenSchedule(s.pending, c.start, c.due, due', s.n3, Period(s), m.sequenceNumber, p, c.now);
  }

  lemma SendsOwned(c: Clocked, e: Event)
    requires TimedInv(c) && Plausible(c.w, e) && e.Sends?
    ensures Unstrayed(Act(c, Do(e)))
  {
    var s, m := c.w.stack, Numbered(c.w.stack, e.msg);
    ArmedBoth(e.t, e.c, s.t3, ProcTimeOut(s.t3, s.n3));
    OpenOrphans(s.pending, s.cleanup, s.retry, c.w.live, m.sequenceNumber, NewSend(m, e.peer, e.teid, e.id, e.t, e.c));
    Plain(c.w.live, {}, {}, {}, {});
  }

  lemma AnswersTimely(c: Clocked, e: Event)
    requires TimedInv(c) && Plausible(c.w, e) && e.Answers?
    ensures Timely(Act(c, Do(e)))
  {
    var s := c.w.stack;
    if e.id in s.txIndex && e.deleteTx {
      var n := s.txIndex[e.id];
      var gone := {s.pending[n].cleanupTimer};
      DeadlinesStay(c, e);
      CloseSchedule(s.pending, c.start, c.due, Act(c, Do(e)).due, s.n3, Period(s), n);
      CloseOrphans(s.pending, s.cleanup, s.retry, c.w.live, n, gone);
      Plain(c.w.live, gone, {}, {}, {});
    } else {
      NothingTimely(c, e);
    }
  }

  /** The retry timer was due one period ago less; the next is due one period from now. */
  lemma NextRetry(p: Procedure, t: TimerId, m: Outgoing, start: nat, now: nat, due: map<TimerId, nat>, due': map<TimerId, nat>,
                  n3: nat, period: nat)
    requires OnSchedule(p, start, due, n3, period) && p.retryMsg.Some? && p.retryCount < n3 <= 255
    requires due[p.retryTimer] == now && Extends(due, due')
    requires t in due' && due'[t] == now + Times(1, period)
    ensures OnSchedule(p.(retryCount := Bump(p.retryCount), retryTimer := t, retryMsg := Some(m)), start, due', n3, period)
  {
  }

  lemma RepeatSchedule(c: Clocked, e: Event, n: nat, p: Procedure)
    requires NotOverdue(c.w.live, c.due, c.now) && c.due.Keys <= c.w.used && AllScheduled(c)
    requires Punctual(c, Do(e)) && Spaced(c.w.stack.t3, c.w.stack.n3)
    requires e.Expires? && e.t in c.w.stack.retry && n == c.w.stack.retry[e.t] && n in c.w.stack.pending
    requires p == c.w.stack.pending[n] && p.retryCount < c.w.stack.n3 && p.retryMsg.Some? && p.retryTimer == e.t
    ensures AllScheduled(Act(c, Do(e)))
  {
    var s, c' := c.w.stack, Act(c, Do(e));
    var p' := p.(retryCount := Bump(p.retryCount), retryTimer := e.next, retryMsg := Some(AfterMsg(p.retryMsg.value)));
    DeadlinesStay(c, e);
    NextRetry(p, e.next, AfterMsg(p.retryMsg.value), c.start[n], c.now, c.due, c'.due, s.n3, Period(s));
    ChangeSchedule(s.pending, c.start, c.due, c'.due, s.n3, Period(s), n, p');
  }

  lemma RepeatOwned(c: Clocked, e: Event, n: nat, p: Procedure)
    requires Unstrayed(c) && e.Expires? && FreshTimer(c.w, e.next) && c.w.stack.cleanup.Keys <= c.w.used
    requires e.next !in c.w.stack.retry
    requires e.t in c.w.stack.retry && n == c.w.stack.retry[e.t] && n in c.w.stack.pending
    requires p == c.w.stack.pending[n] && p.retryCount < c.w.stack.n3 && p.retryMsg.Some?
    requires p.retryMsg.value.sequenceNumber == n
    ensures Unstrayed(Act(c, Do(e)))
  {
    var s := c.w.stack;
    var p' := p.(retryCount := Bump(p.retryCount), retryTimer := e.next, retryMsg := Some(AfterMsg(p.retryMsg.value)));
    RepeatOrphans(s.pending, s.cleanup, s.retry, c.w.live, e.t, p');
    Plain(c.w.live - {e.t}, {}, {}, {}, {});
  }

  /** A procedure ends because a timer expires. */
  lemma EndSchedule(c: Clocked, e: Event, n: nat)
    requires NotOverdue(c.w.live, c.due, c.now) && c.due.Keys <= c.w.used && AllScheduled(c) && Plausible(c.w, e) && e.Expires?
    requires Effect(c.w.stack, e).stack.pending == c.w.stack.pending - {n}
    ensures AllScheduled(Act(c, Do(e)))
  {
    var s := c.w.stack;
    DeadlinesStay(c, e);
    CloseSchedule(s.pending, c.start, c.due, Act(c, Do(e)).due, s.n3, Period(s), n);
  }

  lemma GiveUpTimely(c: Clocked, e: Event, n: nat)
    requires TimedInv(c) && Punctual(c, Do(e))
    requires e.Expires? && e.t in c.w.stack.retry && n == c.w.stack.retry[e.t] && n in c.w.stack.pending
    requires c.w.stack.pending[n].retryCount >= c.w.stack.n3
    ensures Timely(Act(c, Do(e)))
  {
    var s := c.w.stack;
    EndSchedule(c, e, n);
    CloseOrphans(s.pending, s.cleanup, s.retry, c.w.live, n, {e.t});
    Plain(c.w.live - {e.t}, {}, {}, {}, {});
  }

  lemma CleanupOwned(c: Clocked, e: Event, n: nat)
    requires Unstrayed(c) && TimerInv(c.w)
    requires e.Expires? && e.t in c.w.stack.cleanup && n == c.w.stack.cleanup[e.t] && n in c.w.stack.pending
    requires c.w.stack.pending[n].retryMsg.None?
    ensures Unstrayed(Act(c, Do(e)))
  {
    var s := c.w.stack;
    assert s.retry - {e.t} == s.retry;
    CloseOrphans(s.pending, s.cleanup, s.retry, c.w.live, n, {e.t});
    Plain(c.w.live - {e.t}, {}, {}, {}, {});
  }

  lemma StaleTimely(c: Clocked, e: Event)
    requires TimedInv(c) && Punctual(c, Do(e)) && e.Expires? && e.t !in c.w.stack.retry
    requires e.t in c.w.stack.cleanup ==> c.w.stack.cleanup[e.t] !in c.w.stack.pending
    ensures Timely(Act(c, Do(e)))
  {
    var s := c.w.stack;
    DeadlinesStay(c, e);
    CloseSchedule(s.pending, c.start, c.due, Act(c, Do(e)).due, s.n3, Period(s), 0);
    Plain(c.w.live - {e.t}, {}, {}, {}, {});
  }

  lemma RetryTimely(c: Clocked, e: Event, n: nat)
    requires TimedInv(c) && Punctual(c, Do(e)) && Spaced(c.w.stack.t3, c.w.stack.n3)
    requires e.Expires? && e.t in c.w.stack.retry && n == c.w.stack.retry[e.t]
    ensures Timely(Act(c, Do(e)))
  {
    var s := c.w.stack;
    Ours(c);
    OwnRetry(c.w, e.t);
    if s.pending[n].retryCount < s.n3 {
      RepeatSchedule(c, e, n, s.pending[n]);
      RepeatOwned(c, e, n, s.pending[n]);
    } else {
      GiveUpTimely(c, e, n);
    }
  }

  lemma ExpiresTimely(c: Clocked, e: Event)
    requires TimedInv(c) && Punctual(c, Do(e)) && Spaced(c.w.stack.t3, c.w.stack.n3) && e.Expires?
    ensures Timely(Act(c, Do(e)))
  {
    var s := c.w.stack;
    if e.t in s.retry {
      RetryTimely(c, e, s.retry[e.t]);
    } else if e.t in s.cleanup && s.cleanup[e.t] in s.pending {
      CleanupIsRemote(c, e.t);
      EndSchedule(c, e, s.cleanup[e.t]);
      CleanupOwned(c, e, s.cleanup[e.t]);
    } else {
      StaleTimely(c, e);
    }
  }

  lemma DoTimely(c: Clocked, e: Event)
    requires TimedInv(c) && Punctual(c, Do(e)) && Spaced(c.w.stack.t3, c.w.stack.n3)
    ensures Timely(Act(c, Do(e)))
  {
    match e
    case Arrives(_, _, _, _) =>
      if Opens(c.w.stack, e) {
        RequestSchedule(c, e);
        RequestOwned(c, e);
      } else if Effect(c.w.stack, e).error {
        NothingTimely(c, e);
      } else {
        ReplyTimely(c, e);
      }
    case Sends(_, _, _, _, _, _) => SendDue(c, e); SendsSchedule(c, e, Act(c, Do(e)).due); SendsOwned(c, e);
    case Answers(_, _, _, _) => AnswersTimely(c, e);
    case Expires(_, _) => ExpiresTimely(c, e);
  }

  lemma ActKeeps(c: Clocked, tick: Tick)
    requires TimedInv(c) && Punctual(c, tick) && Spaced(c.w.stack.t3, c.w.stack.n3)
    ensures TimedInv(Act(c, tick))
    ensures Act(c, tick).w.stack.t3 == c.w.stack.t3 && Act(c, tick).w.stack.n3 == c.w.stack.n3
  {
    if tick.Do? {
      PlausibleIsAllowed(c, tick.e);
      StepKeeps(c.w, tick.e);
      DeadlinesStay(c, tick.e);
      DoTimely(c, tick.e);
      SameSettings(c.w, tick.e);
    }
  }

  lemma {:induction false} CourseKeeps(c: Clocked, ticks: seq<Tick>)
    requires TimedInv(c) && PunctualCourse(c, ticks) && Spaced(c.w.stack.t3, c.w.stack.n3)
    ensures TimedInv(Course(c, ticks))
    decreases |ticks|
  {
    if ticks != [] {
      ActKeeps(c, ticks[0]);
      CourseKeeps(Act(c, ticks[0]), ticks[1..]);
    }
  }

  function Beginning(t3: u32, n3: u32, seqNum: u32): Clocked {
    Clocked(Initial(t3, n3, seqNum), 0, map[], map[])
  }

  /** The retry timer t of a pending local procedure expires a whole number of periods after its start and
      before the cleanup timer is due; if that gives the procedure up, n3 + 1 periods after it. */
  predicate OnTime(c: Clocked, e: Event)
    requires e.Expires? && e.t in c.w.stack.retry
  {
    var s, n := c.w.stack, c.w.stack.retry[e.t];
    && n in s.pending && n in c.start
    && var p := s.pending[n];
       && p.retryMsg.Some? && p.cleanupTimer in c.due
       && c.now == c.start[n] + Times(p.retryCount + 1, Period(s)) < c.due[p.cleanupTimer]
       && (Effect(s, e).report.Some? ==> c.now == c.start[n] + Times(s.n3 + 1, Period(s)))
  }

  predicate InStep(c: Clocked, e: Event)
    requires e.Expires?
  {
    var s := c.w.stack;
    && (e.t in s.retry ==> OnTime(c, e))
    && (e.t !in s.retry && e.t in s.cleanup && s.cleanup[e.t] in s.pending ==> s.pending[s.cleanup[e.t]].retryMsg.None?)
  }

  /** In every punctual run, an expiring retry timer belongs to a pending local procedure and expires a
      whole number of periods after its start, the peer is reported exactly n3 + 1 periods after the
      start and before the cleanup timer is due, and that timer never ends a local procedure. */
  lemma PunctualRuns(t3: u32, n3: u32, seqNum: u32, ticks: seq<Tick>, e: Event)
    requires Moderate(t3, n3) && PunctualCourse(Beginning(t3, n3, seqNum), ticks)
    requires var c := Course(Beginning(t3, n3, seqNum), ticks); Punctual(c, Do(e)) && e.Expires?
    ensures InStep(Course(Beginning(t3, n3, seqNum), ticks), e)
  {
    var c := Course(Beginning(t3, n3, seqNum), ticks);
    InitialInv(t3, n3, seqNum);
    Spans(t3, n3);
    CourseKeeps(Beginning(t3, n3, seqNum), ticks);
    CourseSettings(Beginning(t3, n3, seqNum), ticks);
    InstantOf(c, e);
  }

  lemma {:induction false} CourseSettings(c: Clocked, ticks: seq<Tick>)
    ensures Course(c, ticks).w.stack.t3 == c.w.stack.t3 && Course(c, ticks).w.stack.n3 == c.w.stack.n3
    decreases |ticks|
  {
    if ticks != [] {
      if ticks[0].Do? {
        SameSettings(c.w, ticks[0].e);
      }
      CourseSettings(Act(c, ticks[0]), ticks[1..]);
    }
  }

  lemma ReportedAtLimit(s: Stack, e: Event)
    requires e.Expires? && e.t in s.retry && s.retry[e.t] in s.pending && Effect(s, e).report.Some?
    ensures s.pending[s.retry[e.t]].retryCount >= s.n3
  {
  }

  lemma RetryOnTime(c: Clocked, e: Event)
    requires TimedInv(c) && e.Expires? && e.t in c.w.stack.retry && c.due[e.t] == c.now && c.w.stack.t3 > 0
    ensures OnTime(c, e)
  {
    RetryInstant(c, e.t);
    LimitReached(c, e, c.w.stack.retry[e.t]);
  }

  lemma LimitReached(c: Clocked, e: Event, n: nat)
    requires e.Expires? && e.t in c.w.stack.retry && n == c.w.stack.retry[e.t] && n in c.w.stack.pending && n in c.start
    requires c.w.stack.pending[n].retryCount <= c.w.stack.n3
    requires c.now == c.start[n] + Times(c.w.stack.pending[n].retryCount + 1, Period(c.w.stack))
    ensures Effect(c.w.stack, e).report.Some? ==> c.now == c.start[n] + Times(c.w.stack.n3 + 1, Period(c.w.stack))
  {
    if Effect(c.w.stack, e).report.Some? {
      ReportedAtLimit(c.w.stack, e);
    }
  }

  lemma InstantOf(c: Clocked, e: Event)
    requires TimedInv(c) && Punctual(c, Do(e)) && e.Expires? && c.w.stack.t3 > 0
    ensures InStep(c, e)
  {
    var s := c.w.stack;
    if e.t in s.retry {
      RetryOnTime(c, e);
    } else if e.t in s.cleanup && s.cleanup[e.t] in s.pending {
      CleanupIsRemote(c, e.t);
    }
  }

  // ---- punctual runs are runs ----

  function EventsOf(ticks: seq<Tick>): seq<Event> {
    if ticks == [] then [] else if ticks[0].Do? then [ticks[0].e] + EventsOf(ticks[1..]) else EventsOf(ticks[1..])
  }

  lemma {:induction false} CourseIsRun(c: Clocked, ticks: seq<Tick>)
    requires TimedInv(c) && PunctualCourse(c, ticks) && Spaced(c.w.stack.t3, c.w.stack.n3)
    ensures AdmittedRun(c.w, EventsOf(ticks)) && Course(c, ticks).w == Run(c.w, EventsOf(ticks))
    decreases |ticks|
  {
    if ticks != [] {
      ActKeeps(c, ticks[0]);
      CourseIsRun(Act(c, ticks[0]), ticks[1..]);
      if ticks[0].Do? {
        PlausibleIsAllowed(c, ticks[0].e);
        FirstAdmitted(c.w, ticks[0].e, EventsOf(ticks[1..]));
      }
    }
  }

  lemma FirstAdmitted(w: World, e: Event, more: seq<Event>)
    requires Admitted(w, e) && AdmittedRun(Step(w, e), more)
    ensures AdmittedRun(w, [e] + more) && Run(w, [e] + more) == Run(Step(w, e), more)
  {
    assert ([e] + more)[1..] == more;
  }

  /** In punctual runs no step uses a missing retry message. */
  lemma PunctualDefined(t3: u32, n3: u32, seqNum: u32, ticks: seq<Tick>, e: Event)
    requires Moderate(t3, n3) && PunctualCourse(Beginning(t3, n3, seqNum), ticks)
    ensures !Effect(Course(Beginning(t3, n3, seqNum), ticks).w.stack, e).undefined
  {
    var c := Course(Beginning(t3, n3, seqNum), ticks);
    InitialInv(t3, n3, seqNum);
    Spans(t3, n3);
    CourseKeeps(Beginning(t3, n3, seqNum), ticks);
    UndefinedMeans(c.w, e);
    if e.Expires? && e.t in c.w.stack.retry {
      Ours(c);
      OwnRetry(c.w, e.t);
    }
  }

  lemma Ours(c: Clocked)
    requires TimedInv(c)
    ensures OwnInv(c.w)
  {
  }

  /** In punctual runs retransmission is bounded with nothing assumed about retry timers. */
  lemma PunctualBounded(t3: u32, n3: u32, seqNum: u32, ticks: seq<Tick>)
    requires Moderate(t3, n3) && PunctualCourse(Beginning(t3, n3, seqNum), ticks)
    ensures AllBounded(Course(Beginning(t3, n3, seqNum), ticks).w.records, n3)
  {
    InitialInv(t3, n3, seqNum);
    Spans(t3, n3);
    CourseIsRun(Beginning(t3, n3, seqNum), ticks);
    BoundedRetransmission(t3, n3, seqNum, EventsOf(ticks));
  }
}
