/** Whole runs of the transaction layer: the stack together with the timers that are armed, the ids
    in use and the history of every transaction. */
module TransactionRuns {
  import opened Octets
  import opened Elements
  import opened Messages
  import opened Transactions

  datatype Event =
    | Arrives(seqNum: nat, kind: byte, id: nat, t: TimerId)
    | Sends(msg: Outgoing, peer: nat, teid: u32, id: nat, t: TimerId, c: TimerId)
    | Answers(reply: Outgoing, peer: nat, id: nat, deleteTx: bool)
    | Expires(t: TimerId, next: TimerId)

  /** The history of one transaction: what the application asked for, the packets sent for it, the types
      of the messages handed to the application, and the reports that the peer does not respond. */
  datatype Record = Record(local: bool, msg: Outgoing, peer: nat, teid: u32, txId: nat, sent: seq<Packet>, ups: seq<byte>,
                           reports: seq<Report>)

  /** live: timers armed, neither expired nor stopped; used: timers ever returned; issued: ids the
      generator holds; remote: ids last issued for received requests; abandoned: ids given up by
      retry exhaustion; records: every transaction so far; current: that of each pending procedure. */
  datatype World = World(stack: Stack, live: set<TimerId>, used: set<TimerId>, issued: set<nat>,
                         remote: set<nat>, abandoned: set<nat>, records: seq<Record>, current: map<nat, nat>)

  function Effect(s: Stack, e: Event): (o: Outcome)
    ensures o.stack.t3 == s.t3 && o.stack.n3 == s.n3
  {
    match e
    case Arrives(n, kind, id, t) => Receive(s, n, kind, id, t)
    case Sends(msg, peer, teid, id, t, c) => SendInitial(s, msg, peer, teid, id, t, c)
    case Answers(msg, peer, id, deleteTx) => SendTriggered(s, msg, peer, id, deleteTx)
    case Expires(t, next) => TimeOut(s, t, next)
  }

  /** The number under which an event looks for a procedure. */
  function Subject(s: Stack, e: Event): Option<nat> {
    match e
    case Arrives(n, _, _, _) => Some(n)
    case Sends(msg, _, _, _, _, _) => Some(Numbered(s, msg).sequenceNumber)
    case Answers(_, _, id, deleteTx) => if deleteTx && id in s.txIndex then Some(s.txIndex[id]) else None
    case Expires(t, _) =>
      if t in s.retry then Some(s.retry[t]) else if t in s.cleanup then Some(s.cleanup[t]) else None
  }

  /** Whether the event opens a transaction. */
  predicate Opens(s: Stack, e: Event) {
    e.Sends? || (e.Arrives? && e.seqNum !in s.pending && IsInitial(e.kind))
  }

  function Opened(s: Stack, e: Event, o: Outcome): Record
    requires Opens(s, e)
  {
    match e
    case Sends(msg, peer, teid, id, _, _) =>
      Record(true, Numbered(s, msg), peer, teid, id, if o.sent.Some? then [o.sent.value] else [], [], [])
    case Arrives(_, kind, id, _) => Record(false, NewMsg(kind), 0, 0, id, [], [kind], [])
  }

  /** The record of a pending transaction after an event about it. */
  function Noted(r: Record, e: Event, o: Outcome): Record {
    match e
    case Arrives(_, kind, _, _) => if o.error then r else r.(ups := r.ups + [kind])
    case Expires(_, _) =>
      r.(sent := if o.sent.Some? then r.sent + [o.sent.value] else r.sent,
         reports := if o.report.Some? then r.reports + [o.report.value] else r.reports)
    case _ => r
  }

  function Histories(w: World, e: Event, o: Outcome): seq<Record> {
    var n := Subject(w.stack, e);
    if Opens(w.stack, e) then w.records + [Opened(w.stack, e, o)]
    else if n.Some? && n.value in w.current && w.current[n.value] < |w.records| then
      w.records[w.current[n.value] := Noted(w.records[w.current[n.value]], e, o)]
    else w.records
  }

  function Currents(w: World, e: Event, o: Outcome): map<nat, nat> {
    var n := Subject(w.stack, e);
    if n.None? then w.current
    else if n.value !in o.stack.pending then w.current - {n.value}
    else if Opens(w.stack, e) then w.current[n.value := |w.records|]
    else w.current
  }

  function Step(w: World, e: Event): World {
    var o := Effect(w.stack, e);
    World(o.stack,
          w.live - (if e.Expires? then {e.t} else {}) - o.stopped + o.armed.Keys,
          w.used + o.armed.Keys,
          w.issued + (if Opens(w.stack, e) then {e.id} else {}) - o.freed,
          if !Opens(w.stack, e) then w.remote else if e.Arrives? then w.remote + {e.id} else w.remote - {e.id},
          if o.report.Some? then w.abandoned + {o.report.value.txId} else w.abandoned,
          Histories(w, e, o), Currents(w, e, o))
  }

  predicate FreshTimer(w: World, t: TimerId) {
    t != NO_TIMER && t !in w.used
  }

  /** No retry timer is still armed for the number. */
  predicate Unretried(s: Stack, n: nat) {
    forall t :: t in s.retry ==> s.retry[t] != n
  }

  /** What the stack takes from its surroundings: new timers and ids are new, a local send gets a
      number that is not pending, and answers are sent on ids that came with received requests. Timers
      may expire at any time, and a peer may choose any number. */
  predicate Allowed(w: World, e: Event) {
    match e
    case Arrives(_, _, id, t) => Opens(w.stack, e) ==> id !in w.issued && FreshTimer(w, t)
    case Sends(msg, _, _, id, t, c) =>
      && id !in w.issued && FreshTimer(w, t) && FreshTimer(w, c) && t != c
      && Numbered(w.stack, msg).sequenceNumber !in w.stack.pending
    case Answers(_, _, id, _) => id in w.remote
    case Expires(t, next) => FreshTimer(w, next) && next != t
  }

  /** No number is opened while a retry timer is still mapped to it. */
  predicate Unreused(w: World, e: Event) {
    Opens(w.stack, e) ==> Unretried(w.stack, Subject(w.stack, e).value)
  }

  /** Without retransmissions (n3 == 0) the index also needs numbers that are not reused too early. */
  predicate Admitted(w: World, e: Event) {
    Allowed(w, e) && (w.stack.n3 == 0 ==> Unreused(w, e))
  }

  function Run(w: World, events: seq<Event>): World
    decreases |events|
  {
    if events == [] then w else Run(Step(w, events[0]), events[1..])
  }

  predicate AllowedRun(w: World, events: seq<Event>)
    decreases |events|
  {
    events == [] || (Allowed(w, events[0]) && AllowedRun(Step(w, events[0]), events[1..]))
  }

  predicate AdmittedRun(w: World, events: seq<Event>)
    decreases |events|
  {
    events == [] || (Admitted(w, events[0]) && AdmittedRun(Step(w, events[0]), events[1..]))
  }

  predicate UnreusedRun(w: World, events: seq<Event>)
    decreases |events|
  {
    events == [] || (Unreused(w, events[0]) && UnreusedRun(Step(w, events[0]), events[1..]))
  }

  function Initial(t3: u32, n3: u32, seqNum: u32): World {
    World(Stack(t3, n3, seqNum, map[], map[], map[], map[]), {}, {}, {}, {}, {}, [], map[])
  }

  // ---- the indexes ----

  type Procedures = map<nat, Procedure>

  predicate Owns(pending: Procedures, txIndex: map<nat, nat>, x: nat)
    requires x in txIndex
  {
    txIndex[x] in pending && pending[txIndex[x]].txId == x
  }

  /** Each pending procedure is found by its id, and the only ids that lead nowhere are abandoned. */
  predicate Indexed(pending: Procedures, txIndex: map<nat, nat>, issued: set<nat>, abandoned: set<nat>, remote: set<nat>) {
    && (forall n :: n in pending ==> pending[n].txId in txIndex && txIndex[pending[n].txId] == n)
    && (forall x :: x in txIndex ==> (x in abandoned <==> !Owns(pending, txIndex, x)))
    && issued == txIndex.Keys
    && (forall x :: x in abandoned ==> x in txIndex && x !in remote)
    && (forall n :: n in pending ==> (pending[n].txId in remote <==> pending[n].retryMsg.None?))
  }

  predicate HasTimers(n: nat, p: Procedure, cleanup: map<TimerId, nat>, retry: map<TimerId, nat>, live: set<TimerId>) {
    && p.cleanupTimer in live && p.cleanupTimer in cleanup && cleanup[p.cleanupTimer] == n
    && p.triggeredType == 0
    && if p.retryMsg.Some?
       then p.retryTimer in retry && retry[p.retryTimer] == n && p.retryMsg.value.sequenceNumber == n
       else p.retryTimer == NO_TIMER && p.retryCount == 0 && IsInitial(p.initialType)
  }

  /** Each pending procedure has an armed cleanup timer and, if it is local, an armed retry timer,
      both mapped to its own number. */
  predicate Guarded(pending: Procedures, cleanup: map<TimerId, nat>, retry: map<TimerId, nat>, live: set<TimerId>) {
    forall n :: n in pending ==> HasTimers(n, pending[n], cleanup, retry, live)
  }

  /** Retry timers are armed, and the timer maps share no key. */
  predicate Separate(cleanup: map<TimerId, nat>, retry: map<TimerId, nat>, live: set<TimerId>, used: set<TimerId>) {
    && (forall t :: t in retry ==> t in live && t !in cleanup)
    && cleanup.Keys + live <= used && NO_TIMER !in used
  }

  /** A retry timer mapped to a pending procedure is that procedure's. */
  predicate Owned(pending: Procedures, retry: map<TimerId, nat>) {
    forall t :: t in retry && retry[t] in pending ==> pending[retry[t]].retryTimer == t
  }

  predicate IndexInv(w: World) {
    Indexed(w.stack.pending, w.stack.txIndex, w.issued, w.abandoned, w.remote)
  }

  predicate TimerInv(w: World) {
    && Guarded(w.stack.pending, w.stack.cleanup, w.stack.retry, w.live)
    && Separate(w.stack.cleanup, w.stack.retry, w.live, w.used)
  }

  predicate OwnInv(w: World) {
    Owned(w.stack.pending, w.stack.retry)
  }

  predicate Inv(w: World) {
    IndexInv(w) && TimerInv(w) && (w.stack.n3 == 0 ==> OwnInv(w))
  }

  lemma InitialInv(t3: u32, n3: u32, seqNum: u32)
    ensures Inv(Initial(t3, n3, seqNum)) && OwnInv(Initial(t3, n3, seqNum))
  {
  }

  // ---- what opening, closing, repeating and giving up a procedure keep ----

  lemma OpenIndex(pending: Procedures, txIndex: map<nat, nat>, issued: set<nat>, abandoned: set<nat>, remote: set<nat>,
                  n: nat, p: Procedure)
    requires Indexed(pending, txIndex, issued, abandoned, remote)
    requires n !in pending && p.txId !in issued
    ensures Indexed(Insert(pending, n, p), Insert(txIndex, p.txId, n), issued + {p.txId}, abandoned,
                    if p.retryMsg.None? then remote + {p.txId} else remote - {p.txId})
  {
  }

  lemma CloseIndex(pending: Procedures, txIndex: map<nat, nat>, issued: set<nat>, abandoned: set<nat>, remote: set<nat>, n: nat)
    requires Indexed(pending, txIndex, issued, abandoned, remote)
    requires n in pending
    ensures Indexed(pending - {n}, txIndex - {pending[n].txId}, issued - {pending[n].txId}, abandoned, remote)
  {
  }

  lemma AbandonIndex(pending: Procedures, txIndex: map<nat, nat>, issued: set<nat>, abandoned: set<nat>, remote: set<nat>, n: nat)
    requires Indexed(pending, txIndex, issued, abandoned, remote)
    requires n in pending && pending[n].retryMsg.Some?
    ensures Indexed(pending - {n}, txIndex, issued, abandoned + {pending[n].txId}, remote)
  {
  }

  lemma ChangeIndex(pending: Procedures, txIndex: map<nat, nat>, issued: set<nat>, abandoned: set<nat>, remote: set<nat>,
                    n: nat, p: Procedure)
    requires Indexed(pending, txIndex, issued, abandoned, remote)
    requires n in pending && p.txId == pending[n].txId && p.retryMsg.None? == pending[n].retryMsg.None?
    ensures Indexed(pending[n := p], txIndex, issued, abandoned, remote)
  {
  }

  lemma OpenGuard(pending: Procedures, cleanup: map<TimerId, nat>, retry: map<TimerId, nat>, live: set<TimerId>, used: set<TimerId>,
                  n: nat, p: Procedure)
    requires Guarded(pending, cleanup, retry, live) && Separate(cleanup, retry, live, used)
    requires n !in pending && p.triggeredType == 0 && p.cleanupTimer != NO_TIMER && p.cleanupTimer !in used
    requires if p.retryMsg.Some? then p.retryTimer != NO_TIMER && p.retryTimer !in used && p.retryTimer != p.cleanupTimer
                                      && p.retryMsg.value.sequenceNumber == n
             else p.retryTimer == NO_TIMER && p.retryCount == 0 && IsInitial(p.initialType)
    ensures var new_ := if p.retryMsg.Some? then {p.retryTimer, p.cleanupTimer} else {p.cleanupTimer};
            var retry' := if p.retryMsg.Some? then Insert(retry, p.retryTimer, n) else retry;
            && Guarded(Insert(pending, n, p), Insert(cleanup, p.cleanupTimer, n), retry', live + new_)
            && Separate(Insert(cleanup, p.cleanupTimer, n), retry', live + new_, used + new_)
  {
  }

  /** Removing a procedure, with timers that are stopped or expire for no other one. */
  lemma CloseGuard(pending: Procedures, cleanup: map<TimerId, nat>, retry: map<TimerId, nat>, live: set<TimerId>, used: set<TimerId>,
                   n: nat, gone: set<TimerId>)
    requires Guarded(pending, cleanup, retry, live) && Separate(cleanup, retry, live, used)
    requires n in pending
    requires forall t :: t in gone ==> (t in retry ==> retry[t] == n) && (t in cleanup ==> cleanup[t] == n)
    ensures Guarded(pending - {n}, cleanup, retry - gone, live - gone)
    ensures Separate(cleanup, retry - gone, live - gone, used)
    ensures Guarded(pending - {n}, cleanup - gone, retry - gone, live - gone)
    ensures Separate(cleanup - gone, retry - gone, live - gone, used)
  {
  }

  lemma RepeatGuard(pending: Procedures, cleanup: map<TimerId, nat>, retry: map<TimerId, nat>, live: set<TimerId>, used: set<TimerId>,
                    t: TimerId, p: Procedure)
    requires Guarded(pending, cleanup, retry, live) && Separate(cleanup, retry, live, used)
    requires t in retry && retry[t] in pending && p.retryTimer != NO_TIMER && p.retryTimer !in used
    requires var q := pending[retry[t]];
             p.cleanupTimer == q.cleanupTimer && p.triggeredType == 0 && p.retryMsg.Some? && q.retryMsg.Some?
             && p.retryMsg.value.sequenceNumber == retry[t]
    ensures var r := Insert(retry - {t}, p.retryTimer, retry[t]);
            && Guarded(pending[retry[t] := p], cleanup, r, live - {t} + {p.retryTimer})
            && Separate(cleanup, r, live - {t} + {p.retryTimer}, used + {p.retryTimer})
  {
  }

  /** A timer that no procedure holds. */
  lemma ForgetTimer(pending: Procedures, cleanup: map<TimerId, nat>, retry: map<TimerId, nat>, live: set<TimerId>, used: set<TimerId>,
                    t: TimerId)
    requires Guarded(pending, cleanup, retry, live) && Separate(cleanup, retry, live, used)
    requires forall n :: n in pending ==>
               pending[n].cleanupTimer != t && (pending[n].retryMsg.Some? ==> pending[n].retryTimer != t)
    ensures Guarded(pending, cleanup - {t}, retry - {t}, live - {t})
    ensures Separate(cleanup - {t}, retry - {t}, live - {t}, used)
  {
  }

  // ---- every step keeps the indexes ----

  lemma Plain(live: set<TimerId>, stopped: set<TimerId>, used: set<TimerId>, issued: set<nat>, freed: set<nat>)
    ensures live - {} - stopped + {} == live - stopped && live - {} == live && used + {} == used
    ensures issued + {} - freed == issued - freed && issued - {} == issued
  {
  }

  /** A discarded message, or an answer that leaves the transaction open. */
  lemma NothingKeeps(w: World, e: Event)
    requires !e.Expires? && !Opens(w.stack, e) && Effect(w.stack, e).stack == w.stack
    requires var o := Effect(w.stack, e); o.stopped == {} && o.freed == {} && o.armed == map[] && o.report.None?
    ensures TimerInv(w) ==> TimerInv(Step(w, e))
    ensures IndexInv(w) ==> IndexInv(Step(w, e))
  {
    Plain(w.live, {}, w.used, w.issued, {});
  }

  lemma ReplyTimers(w: World, e: Event)
    requires TimerInv(w) && e.Arrives? && e.seqNum in w.stack.pending && !Effect(w.stack, e).error
    ensures TimerInv(Step(w, e))
  {
    var s, p := w.stack, w.stack.pending[e.seqNum];
    CloseGuard(s.pending, s.cleanup, s.retry, w.live, w.used, e.seqNum, TimersOf(p));
    Plain(w.live, TimersOf(p), w.used, {}, {});
  }

  lemma RequestTimers(w: World, e: Event)
    requires TimerInv(w) && Allowed(w, e) && e.Arrives? && Opens(w.stack, e)
    ensures TimerInv(Step(w, e))
  {
    var s := w.stack;
    OpenGuard(s.pending, s.cleanup, s.retry, w.live, w.used, e.seqNum, NewRequest(e.kind, e.id, e.t));
    Plain(w.live, {}, w.used, {}, {});
  }

  lemma ArmedBoth(t: TimerId, c: TimerId, a: u32, b: u32)
    requires t != NO_TIMER && c != NO_TIMER
    ensures (Armed(t, a) + Armed(c, b)).Keys == {t, c}
  {
  }

  lemma SendsTimers(w: World, e: Event)
    requires TimerInv(w) && Allowed(w, e) && e.Sends?
    ensures TimerInv(Step(w, e))
  {
    var s, m := w.stack, Numbered(w.stack, e.msg);
    var p := NewSend(m, e.peer, e.teid, e.id, e.t, e.c);
    OpenGuard(s.pending, s.cleanup, s.retry, w.live, w.used, m.sequenceNumber, p);
    ArmedBoth(e.t, e.c, s.t3, ProcTimeOut(s.t3, s.n3));
    Plain(w.live, {}, {}, {}, {});
  }

  lemma AnswersTimers(w: World, e: Event)
    requires TimerInv(w) && e.Answers?
    ensures TimerInv(Step(w, e))
  {
    var s := w.stack;
    Plain(w.live, {}, w.used, {}, {});
    if e.id in s.txIndex && e.deleteTx && s.txIndex[e.id] in s.pending {
      var n := s.txIndex[e.id];
      var gone := {s.pending[n].cleanupTimer};
      CloseGuard(s.pending, s.cleanup, s.retry, w.live, w.used, n, gone);
      Plain(w.live, gone, w.used, {}, {});
    }
  }

  lemma RepeatTimers(w: World, e: Event, n: nat)
    requires TimerInv(w) && Allowed(w, e) && e.Expires? && e.t in w.stack.retry && n == w.stack.retry[e.t] && n in w.stack.pending
    requires w.stack.pending[n].retryCount < w.stack.n3 && w.stack.pending[n].retryMsg.Some?
    ensures TimerInv(Step(w, e))
  {
    var s, o := w.stack, Effect(w.stack, e);
    RepeatGuard(s.pending, s.cleanup, s.retry, w.live, w.used, e.t, o.stack.pending[n]);
    Plain(w.live - {e.t}, {}, w.used, {}, {});
  }

  lemma GiveUpTimers(w: World, e: Event, n: nat)
    requires TimerInv(w) && e.Expires? && e.t in w.stack.retry && n == w.stack.retry[e.t] && n in w.stack.pending
    requires w.stack.pending[n].retryCount >= w.stack.n3
    ensures TimerInv(Step(w, e))
  {
    var s := w.stack;
    CloseGuard(s.pending, s.cleanup, s.retry, w.live, w.used, n, {e.t});
    Plain(w.live - {e.t}, {}, w.used, {}, {});
  }

  lemma CleanupTimers(w: World, e: Event, n: nat)
    requires TimerInv(w) && e.Expires? && e.t in w.stack.cleanup && n == w.stack.cleanup[e.t] && n in w.stack.pending
    ensures TimerInv(Step(w, e))
  {
    var s := w.stack;
    CloseGuard(s.pending, s.cleanup, s.retry, w.live, w.used, n, {e.t});
    assert s.retry - {e.t} == s.retry;
    Plain(w.live - {e.t}, {}, w.used, {}, {});
  }

  /** A timer of no pending procedure expires, or a left-over retry timer of a received request. */
  predicate Stray(s: Stack, t: TimerId) {
    && (t in s.retry && s.retry[t] in s.pending ==>
          s.pending[s.retry[t]].retryMsg.None? && s.pending[s.retry[t]].retryCount < s.n3)
    && (t in s.cleanup ==> s.cleanup[t] !in s.pending)
  }

  lemma StrayEffect(s: Stack, e: Event)
    requires e.Expires? && Stray(s, e.t) && (e.t in s.retry ==> e.t !in s.cleanup)
    ensures var o := Effect(s, e);
            && o.stack == s.(retry := s.retry - {e.t}, cleanup := s.cleanup - {e.t})
            && o.sent.None? && o.report.None? && o.armed == map[] && o.stopped == {} && o.freed == {}
  {
    assert e.t !in s.retry ==> s.retry - {e.t} == s.retry;
    assert e.t !in s.cleanup ==> s.cleanup - {e.t} == s.cleanup;
  }

  lemma StrayTimers(w: World, e: Event)
    requires TimerInv(w) && e.Expires? && Stray(w.stack, e.t)
    ensures TimerInv(Step(w, e))
  {
    var s := w.stack;
    StrayEffect(s, e);
    ForgetTimer(s.pending, s.cleanup, s.retry, w.live, w.used, e.t);
    Plain(w.live - {e.t}, {}, w.used, {}, {});
  }

  lemma ExpiresTimers(w: World, e: Event)
    requires TimerInv(w) && Allowed(w, e) && e.Expires?
    ensures TimerInv(Step(w, e))
  {
    var s := w.stack;
    if e.t in s.retry && s.retry[e.t] in s.pending {
      var n := s.retry[e.t];
      if s.pending[n].retryCount >= s.n3 {
        GiveUpTimers(w, e, n);
      } else if s.pending[n].retryMsg.Some? {
        RepeatTimers(w, e, n);
      } else {
        StrayTimers(w, e);
      }
    } else if e.t in s.cleanup && s.cleanup[e.t] in s.pending {
      CleanupTimers(w, e, s.cleanup[e.t]);
    } else {
      StrayTimers(w, e);
    }
  }

  /** Every handler call keeps the timer invariant, whatever numbers are reused. */
  lemma StepTimers(w: World, e: Event)
    requires TimerInv(w) && Allowed(w, e)
    ensures TimerInv(Step(w, e))
  {
    match e
    case Arrives(_, _, _, _) =>
      if Opens(w.stack, e) {
        RequestTimers(w, e);
      } else if Effect(w.stack, e).error {
        NothingKeeps(w, e);
      } else {
        ReplyTimers(w, e);
      }
    case Sends(_, _, _, _, _, _) => SendsTimers(w, e);
    case Answers(_, _, _, _) => AnswersTimers(w, e);
    case Expires(_, _) => ExpiresTimers(w, e);
  }

  lemma {:induction false} RunTimers(w: World, events: seq<Event>)
    requires TimerInv(w) && AllowedRun(w, events)
    ensures TimerInv(Run(w, events))
    decreases |events|
  {
    if events != [] {
      StepTimers(w, events[0]);
      RunTimers(Step(w, events[0]), events[1..]);
    }
  }

  // ---- the index of ids ----

  lemma ReplyIndex(w: World, e: Event)
    requires IndexInv(w) && e.Arrives? && e.seqNum in w.stack.pending && !Effect(w.stack, e).error
    ensures IndexInv(Step(w, e))
  {
    var s := w.stack;
    CloseIndex(s.pending, s.txIndex, w.issued, w.abandoned, w.remote, e.seqNum);
    Plain({}, {}, {}, w.issued, {s.pending[e.seqNum].txId});
  }

  lemma RequestIndex(w: World, e: Event)
    requires IndexInv(w) && Allowed(w, e) && e.Arrives? && Opens(w.stack, e)
    ensures IndexInv(Step(w, e))
  {
    var s := w.stack;
    OpenIndex(s.pending, s.txIndex, w.issued, w.abandoned, w.remote, e.seqNum, NewRequest(e.kind, e.id, e.t));
    Plain({}, {}, {}, w.issued + {e.id}, {});
  }

  lemma SendsIndex(w: World, e: Event)
    requires IndexInv(w) && Allowed(w, e) && e.Sends?
    ensures IndexInv(Step(w, e))
  {
    var s, m := w.stack, Numbered(w.stack, e.msg);
    var p := NewSend(m, e.peer, e.teid, e.id, e.t, e.c);
    OpenIndex(s.pending, s.txIndex, w.issued, w.abandoned, w.remote, m.sequenceNumber, p);
    Plain({}, {}, {}, w.issued + {e.id}, {});
  }

  lemma AnswersIndex(w: World, e: Event)
    requires IndexInv(w) && Allowed(w, e) && e.Answers?
    ensures IndexInv(Step(w, e))
  {
    var s := w.stack;
    if e.id in s.txIndex && e.deleteTx {
      var n := s.txIndex[e.id];
      CloseIndex(s.pending, s.txIndex, w.issued, w.abandoned, w.remote, n);
      Plain({}, {}, {}, w.issued, {e.id});
    } else {
      NothingKeeps(w, e);
    }
  }

  lemma RepeatIndex(w: World, e: Event, n: nat)
    requires IndexInv(w) && e.Expires? && e.t in w.stack.retry && n == w.stack.retry[e.t] && n in w.stack.pending
    requires w.stack.pending[n].retryCount < w.stack.n3 && w.stack.pending[n].retryMsg.Some?
    ensures IndexInv(Step(w, e))
  {
    var s, o := w.stack, Effect(w.stack, e);
    ChangeIndex(s.pending, s.txIndex, w.issued, w.abandoned, w.remote, n, o.stack.pending[n]);
    Plain({}, {}, {}, w.issued, {});
  }

  lemma GiveUpIndex(w: World, e: Event, n: nat)
    requires IndexInv(w) && e.Expires? && e.t in w.stack.retry && n == w.stack.retry[e.t] && n in w.stack.pending
    requires w.stack.pending[n].retryCount >= w.stack.n3 && w.stack.pending[n].retryMsg.Some?
    ensures IndexInv(Step(w, e))
  {
    var s := w.stack;
    AbandonIndex(s.pending, s.txIndex, w.issued, w.abandoned, w.remote, n);
    Plain({}, {}, {}, w.issued, {});
  }

  lemma CleanupIndex(w: World, e: Event, n: nat)
    requires IndexInv(w) && e.Expires? && e.t !in w.stack.retry
    requires e.t in w.stack.cleanup && n == w.stack.cleanup[e.t] && n in w.stack.pending
    ensures IndexInv(Step(w, e))
  {
    var s := w.stack;
    CloseIndex(s.pending, s.txIndex, w.issued, w.abandoned, w.remote, n);
    Plain({}, {}, {}, w.issued, {s.pending[n].txId});
  }

  lemma StrayIndex(w: World, e: Event)
    requires IndexInv(w) && e.Expires? && Stray(w.stack, e.t) && (e.t in w.stack.retry ==> e.t !in w.stack.cleanup)
    ensures IndexInv(Step(w, e))
  {
    StrayEffect(w.stack, e);
    Plain({}, {}, {}, w.issued, {});
  }

  /** Who is given up is local: a received request has no retries behind it, so with n3 >= 1 it cannot be
      given up, and with n3 == 0 no left-over timer leads to it. */
  lemma GivenUpIsLocal(w: World, t: TimerId)
    requires Inv(w) && t in w.stack.retry && w.stack.retry[t] in w.stack.pending
    requires w.stack.pending[w.stack.retry[t]].retryCount >= w.stack.n3
    ensures w.stack.pending[w.stack.retry[t]].retryMsg.Some?
  {
    assert HasTimers(w.stack.retry[t], w.stack.pending[w.stack.retry[t]], w.stack.cleanup, w.stack.retry, w.live);
  }

  lemma ExpiresIndex(w: World, e: Event)
    requires Inv(w) && e.Expires?
    ensures IndexInv(Step(w, e))
  {
    var s := w.stack;
    if e.t in s.retry && s.retry[e.t] in s.pending {
      var n := s.retry[e.t];
      if s.pending[n].retryCount >= s.n3 {
        GivenUpIsLocal(w, e.t);
        GiveUpIndex(w, e, n);
      } else if s.pending[n].retryMsg.Some? {
        RepeatIndex(w, e, n);
      } else {
        StrayIndex(w, e);
      }
    } else if e.t in s.cleanup && s.cleanup[e.t] in s.pending {
      CleanupIndex(w, e, s.cleanup[e.t]);
    } else {
      StrayIndex(w, e);
    }
  }

  lemma StepIndex(w: World, e: Event)
    requires Inv(w) && Allowed(w, e)
    ensures IndexInv(Step(w, e))
  {
    match e
    case Arrives(_, _, _, _) =>
      if Opens(w.stack, e) {
        RequestIndex(w, e);
      } else if Effect(w.stack, e).error {
        NothingKeeps(w, e);
      } else {
        ReplyIndex(w, e);
      }
    case Sends(_, _, _, _, _, _) => SendsIndex(w, e);
    case Answers(_, _, _, _) => AnswersIndex(w, e);
    case Expires(_, _) => ExpiresIndex(w, e);
  }

  // ---- ownership of retry timers ----

  lemma OwnOpen(pending: Procedures, retry: map<TimerId, nat>, n: nat, p: Procedure)
    requires Owned(pending, retry) && n !in pending && (forall t :: t in retry ==> retry[t] != n)
    ensures Owned(Insert(pending, n, p), retry) && Owned(Insert(pending, n, p), Insert(retry, p.retryTimer, n))
  {
  }

  lemma OwnClose(pending: Procedures, retry: map<TimerId, nat>, n: nat, gone: set<TimerId>)
    requires Owned(pending, retry)
    ensures Owned(pending - {n}, retry - gone) && Owned(pending, retry - gone)
  {
  }

  lemma OwnRepeat(pending: Procedures, retry: map<TimerId, nat>, t: TimerId, p: Procedure)
    requires Owned(pending, retry) && t in retry && retry[t] in pending && p.retryTimer !in retry
    ensures Owned(pending[retry[t] := p], Insert(retry - {t}, p.retryTimer, retry[t]))
  {
  }

  lemma SendsOwn(w: World, e: Event)
    requires OwnInv(w) && Allowed(w, e) && Unreused(w, e) && e.Sends?
    ensures OwnInv(Step(w, e))
  {
    var s, m := w.stack, Numbered(w.stack, e.msg);
    OwnOpen(s.pending, s.retry, m.sequenceNumber, NewSend(m, e.peer, e.teid, e.id, e.t, e.c));
  }

  lemma ArrivesOwn(w: World, e: Event)
    requires OwnInv(w) && Allowed(w, e) && Unreused(w, e) && e.Arrives?
    ensures OwnInv(Step(w, e))
  {
    var s := w.stack;
    if Opens(s, e) {
      OwnOpen(s.pending, s.retry, e.seqNum, NewRequest(e.kind, e.id, e.t));
    } else if !Effect(s, e).error {
      OwnClose(s.pending, s.retry, e.seqNum, TimersOf(s.pending[e.seqNum]));
    }
  }

  lemma AnswersOwn(w: World, e: Event)
    requires OwnInv(w) && e.Answers?
    ensures OwnInv(Step(w, e))
  {
    var s := w.stack;
    if e.id in s.txIndex && e.deleteTx && s.txIndex[e.id] in s.pending {
      var n := s.txIndex[e.id];
      OwnClose(s.pending, s.retry, n, {s.pending[n].cleanupTimer});
    }
  }

  lemma ExpiresOwn(w: World, e: Event)
    requires OwnInv(w) && TimerInv(w) && Allowed(w, e) && e.Expires?
    ensures OwnInv(Step(w, e))
  {
    var s, o := w.stack, Effect(w.stack, e);
    if e.t in s.retry {
      var n := s.retry[e.t];
      OwnClose(s.pending, s.retry, n, {e.t});
      if n in s.pending && s.pending[n].retryCount < s.n3 {
        OwnRetry(w, e.t);
        OwnRepeat(s.pending, s.retry, e.t, o.stack.pending[n]);
      }
    } else if e.t in s.cleanup {
      OwnClose(s.pending, s.retry, s.cleanup[e.t], {});
      assert s.retry - {} == s.retry;
    }
  }

  lemma StepOwn(w: World, e: Event)
    requires OwnInv(w) && TimerInv(w) && Allowed(w, e) && Unreused(w, e)
    ensures OwnInv(Step(w, e))
  {
    match e
    case Arrives(_, _, _, _) => ArrivesOwn(w, e);
    case Sends(_, _, _, _, _, _) => SendsOwn(w, e);
    case Answers(_, _, _, _) => AnswersOwn(w, e);
    case Expires(_, _) => ExpiresOwn(w, e);
  }

  /** Where timers are owned, only a local procedure has a retry timer. */
  lemma OwnRetry(w: World, t: TimerId)
    requires TimerInv(w) && OwnInv(w) && t in w.stack.retry && w.stack.retry[t] in w.stack.pending
    ensures w.stack.pending[w.stack.retry[t]].retryMsg.Some?
  {
    assert HasTimers(w.stack.retry[t], w.stack.pending[w.stack.retry[t]], w.stack.cleanup, w.stack.retry, w.live);
  }

  // ---- whole runs ----

  lemma SameSettings(w: World, e: Event)
    ensures Step(w, e).stack.n3 == w.stack.n3 && Step(w, e).stack.t3 == w.stack.t3
    ensures Step(w, e).stack == Effect(w.stack, e).stack
  {
  }

  /** Every handler call keeps the index and timer invariants. */
  lemma StepKeeps(w: World, e: Event)
    requires Inv(w) && Admitted(w, e)
    ensures Inv(Step(w, e))
  {
    StepIndex(w, e);
    StepTimers(w, e);
    SameSettings(w, e);
    if w.stack.n3 == 0 {
      StepOwn(w, e);
    }
  }

  lemma {:induction false} RunKeeps(w: World, events: seq<Event>)
    requires Inv(w) && AdmittedRun(w, events)
    ensures Inv(Run(w, events))
    decreases |events|
  {
    if events != [] {
      StepKeeps(w, events[0]);
      RunKeeps(Step(w, events[0]), events[1..]);
    }
  }

  /** With at least one retransmission nothing more is asked of a run than `Allowed`. */
  lemma {:induction false} AllowedIsAdmitted(w: World, events: seq<Event>)
    requires AllowedRun(w, events) && w.stack.n3 >= 1
    ensures AdmittedRun(w, events)
    decreases |events|
  {
    if events != [] {
      SameSettings(w, events[0]);
      AllowedIsAdmitted(Step(w, events[0]), events[1..]);
    }
  }
}
