/** Bounded retransmission: what the history of every transaction looks like in every run. */
module TransactionHistory {
  import opened Octets
  import opened Elements
  import opened Messages
  import opened Retransmission
  import opened Transactions
  import opened TransactionRuns
  import opened TransactionIndex

  /** A message after k dumps. */
  function AfterDumps(m: Outgoing, k: nat): Outgoing {
    if k == 0 then m else AfterMsg(AfterDumps(m, k - 1))
  }

  lemma {:induction false} DumpsAdd(m: Outgoing, j: nat, k: nat)
    ensures NthDump(AfterDumps(m, j), k) == NthDump(m, j + k)
    decreases j
  {
    if j > 0 {
      DumpsAdd(m, j - 1, k + 1);
    }
  }

  /** The next dump of a message that was dumped k times is its transmission number k. */
  lemma NextDump(m: Outgoing, k: nat)
    ensures DumpMsg(AfterDumps(m, k)) == NthDump(m, k)
  {
    DumpsAdd(m, k, 0);
  }

  /** Transmission k of a local request: to the peer it was meant for, with the octets of dump k. */
  function Transmission(r: Record, k: nat): Packet {
    Packet(if k == 0 then Allocated else WellKnown, r.peer, NthDump(r.msg, k))
  }

  /** The report that the remote peer is not responding (cause 100). */
  function NotResponding(r: Record): Report {
    Report(r.peer, r.teid, 100, r.txId)
  }

  /** What a transaction may ever have done. A local one was sent once and then at most n3 times more,
      each time with the octets of that dump; the peer was reported at most once, only after all
      n3 + 1 transmissions and with no reply; and the application saw at most one reply. A remote
      one was handed up once, followed by at most one message its type triggers. */
  predicate Bounded(r: Record, n3: nat) {
    && (forall k :: 0 <= k < |r.sent| ==> r.sent[k] == Transmission(r, k))
    && if r.local then
         && 1 <= |r.sent| <= n3 + 1
         && |r.ups| <= 1 && (|r.ups| == 1 ==> Answer(r.msg.messageType, r.ups[0]))
         && (r.reports == [] || (r.reports == [NotResponding(r)] && |r.sent| == n3 + 1 && r.ups == []))
       else
         && r.sent == [] && r.reports == []
         && 1 <= |r.ups| <= 2 && Request(r.ups[0]) && (|r.ups| == 2 ==> Answer(r.ups[0], r.ups[1]))
  }

  /** What holds of a transaction for every n3: as above, except that the bound on transmissions needs a
      counter that does not wrap, and that without retransmissions a received request can be reported. */
  predicate Faithful(r: Record, n3: nat) {
    && (forall k :: 0 <= k < |r.sent| ==> r.sent[k] == Transmission(r, k))
    && if r.local then
         && 1 <= |r.sent| && (n3 <= 255 ==> |r.sent| <= n3 + 1)
         && |r.ups| <= 1 && (|r.ups| == 1 ==> Answer(r.msg.messageType, r.ups[0]))
         && (r.reports == [] || (r.reports == [NotResponding(r)] && |r.sent| == n3 + 1 && r.ups == []))
       else
         && r.sent == [] && (n3 >= 1 ==> r.reports == [])
         && 1 <= |r.ups| <= 2 && Request(r.ups[0]) && (|r.ups| == 2 ==> Answer(r.ups[0], r.ups[1]))
  }

  /** The same in terms of the stack's own switches. */
  predicate Kept(r: Record, n3: nat) {
    && (forall k :: 0 <= k < |r.sent| ==> r.sent[k] == Transmission(r, k))
    && if r.local then
         && 1 <= |r.sent| && (n3 <= 255 ==> |r.sent| <= n3 + 1)
         && |r.ups| <= 1 && (|r.ups| == 1 ==> Triggers(r.msg.messageType, r.ups[0]))
         && (r.reports == [] || (r.reports == [NotResponding(r)] && |r.sent| == n3 + 1 && r.ups == []))
       else
         && r.sent == [] && (n3 >= 1 ==> r.reports == [])
         && 1 <= |r.ups| <= 2 && IsInitial(r.ups[0]) && (|r.ups| == 2 ==> Triggers(r.ups[0], r.ups[1]))
  }

  lemma KeptIsFaithful(r: Record, n3: nat)
    ensures Kept(r, n3) <==> Faithful(r, n3)
  {
    if r.local && |r.ups| == 1 {
      SwitchesAreTable(r.msg.messageType, r.ups[0]);
    } else if !r.local && 1 <= |r.ups| <= 2 {
      SwitchesAreTable(r.ups[0], r.ups[|r.ups| - 1]);
    }
  }

  /** The record of a procedure that is still pending. */
  predicate Tracks(r: Record, p: Procedure, n3: nat) {
    && r.local == p.retryMsg.Some? && r.reports == [] && p.txId == r.txId
    && if r.local then
         && r.ups == [] && (n3 <= 255 ==> |r.sent| == 1 + p.retryCount && p.retryCount <= n3)
         && p.retryMsg.value == AfterDumps(r.msg, |r.sent|) && p.initialType == r.msg.messageType
         && p.peer == r.peer && p.localTeid == r.teid
       else r.ups == [p.initialType]
  }

  predicate Current(pending: Procedures, records: seq<Record>, current: map<nat, nat>, n3: nat) {
    && current.Keys == pending.Keys
    && (forall n :: n in pending ==> current[n] < |records| && Tracks(records[current[n]], pending[n], n3))
    && (forall m, n :: m in current && n in current && current[m] == current[n] ==> m == n)
  }

  predicate AllFaithful(records: seq<Record>, n3: nat) {
    forall i :: 0 <= i < |records| ==> Faithful(records[i], n3)
  }

  predicate AllKept(records: seq<Record>, n3: nat) {
    forall i :: 0 <= i < |records| ==> Kept(records[i], n3)
  }

  predicate AllBounded(records: seq<Record>, n3: nat) {
    forall i :: 0 <= i < |records| ==> Bounded(records[i], n3)
  }

  predicate HistoryInv(w: World) {
    Current(w.stack.pending, w.records, w.current, w.stack.n3) && AllKept(w.records, w.stack.n3)
  }

  lemma OpenRecord(pending: Procedures, records: seq<Record>, current: map<nat, nat>, n3: nat, n: nat, p: Procedure, r: Record)
    requires Current(pending, records, current, n3) && AllKept(records, n3)
    requires n !in pending && Tracks(r, p, n3) && Kept(r, n3)
    ensures Current(Insert(pending, n, p), records + [r], current[n := |records|], n3)
    ensures AllKept(records + [r], n3)
  {
  }

  lemma CloseRecord(pending: Procedures, records: seq<Record>, current: map<nat, nat>, n3: nat, n: nat, r: Record)
    requires Current(pending, records, current, n3) && AllKept(records, n3)
    requires n in pending && Kept(r, n3)
    ensures Current(pending - {n}, records[current[n] := r], current - {n}, n3)
    ensures AllKept(records[current[n] := r], n3)
  {
  }

  lemma ChangeRecord(pending: Procedures, records: seq<Record>, current: map<nat, nat>, n3: nat, n: nat, p: Procedure, r: Record)
    requires Current(pending, records, current, n3) && AllKept(records, n3)
    requires n in pending && Tracks(r, p, n3) && Kept(r, n3)
    ensures Current(pending[n := p], records[current[n] := r], current, n3)
    ensures AllKept(records[current[n] := r], n3)
  {
  }

  // ---- one record at a time ----

  lemma Repeated(r: Record, p: Procedure, n3: nat, packet: Packet)
    requires Tracks(r, p, n3) && Kept(r, n3) && r.local && p.retryCount < n3
    requires packet == Packet(WellKnown, p.peer, DumpMsg(p.retryMsg.value))
    ensures var r' := r.(sent := r.sent + [packet]);
            Kept(r', n3)
            && forall t :: Tracks(r', p.(retryCount := Bump(p.retryCount), retryTimer := t,
                                         retryMsg := Some(AfterMsg(p.retryMsg.value))), n3)
  {
    NextDump(r.msg, |r.sent|);
    assert AfterDumps(r.msg, |r.sent| + 1) == AfterMsg(AfterDumps(r.msg, |r.sent|));
  }

  lemma Replied(r: Record, p: Procedure, n3: nat, kind: byte)
    requires Tracks(r, p, n3) && Kept(r, n3) && Triggers(p.initialType, kind)
    ensures Kept(r.(ups := r.ups + [kind]), n3)
  {
  }

  lemma GivenUp(r: Record, p: Procedure, n3: nat)
    requires Tracks(r, p, n3) && Kept(r, n3) && p.retryCount >= n3 && (!r.local ==> n3 == 0)
    ensures Kept(r.(reports := r.reports + [Report(p.peer, p.localTeid, REMOTE_PEER_NOT_RESPONDING, p.txId)]), n3)
  {
  }

  // ---- every step keeps the history ----

  lemma RequestHistory(w: World, e: Event)
    requires HistoryInv(w) && e.Arrives? && Opens(w.stack, e)
    ensures HistoryInv(Step(w, e))
  {
    var s := w.stack;
    OpenRecord(s.pending, w.records, w.current, s.n3, e.seqNum, NewRequest(e.kind, e.id, e.t), Opened(s, e, Effect(s, e)));
  }

  /** An event about the pending procedure n that opens nothing touches its record alone. */
  lemma OneRecord(w: World, e: Event, n: nat, r: Record)
    requires Subject(w.stack, e) == Some(n) && !Opens(w.stack, e)
    requires n in w.current && w.current[n] < |w.records|
    requires r == Noted(w.records[w.current[n]], e, Effect(w.stack, e))
    ensures var w' := Step(w, e);
            && w'.records == w.records[w.current[n] := r]
            && w'.current == if n in w'.stack.pending then w.current else w.current - {n}
  {
  }

  lemma ReplyHistory(w: World, e: Event, n: nat, r: Record)
    requires HistoryInv(w) && e.Arrives? && n == e.seqNum && n in w.stack.pending && !Effect(w.stack, e).error
    requires w.stack.pending[n].triggeredType == 0
    requires r == w.records[w.current[n]]
    ensures HistoryInv(Step(w, e))
  {
    var s, r' := w.stack, r.(ups := r.ups + [e.kind]);
    Replied(r, s.pending[n], s.n3, e.kind);
    CloseRecord(s.pending, w.records, w.current, s.n3, n, r');
    OneRecord(w, e, n, r');
  }

  lemma SameHistory(w: World, w': World)
    requires HistoryInv(w) && w'.stack.pending == w.stack.pending && w'.stack.n3 == w.stack.n3
    requires w'.records == w.records && w'.current == w.current
    ensures HistoryInv(w')
  {
  }

  lemma AllRecorded(w: World)
    requires HistoryInv(w)
    ensures w.current.Keys == w.stack.pending.Keys && forall n :: n in w.current ==> w.current[n] < |w.records|
  {
  }

  lemma NoRecord(w: World, e: Event)
    requires w.current.Keys == w.stack.pending.Keys && forall n :: n in w.current ==> w.current[n] < |w.records|
    requires !Opens(w.stack, e) && Effect(w.stack, e).stack.pending == w.stack.pending
    requires var o := Effect(w.stack, e);
             e.Answers? || (e.Arrives? && o.error) || (e.Expires? && o.sent.None? && o.report.None?)
    ensures Step(w, e).records == w.records && Step(w, e).current == w.current
  {
    var n := Subject(w.stack, e);
    if n.Some? {
      if n.value in w.stack.pending {
        OneRecord(w, e, n.value, w.records[w.current[n.value]]);
      } else {
        assert w.current - {n.value} == w.current;
      }
    }
  }

  /** Nothing is noted and no procedure changes. */
  lemma NothingHistory(w: World, e: Event)
    requires HistoryInv(w) && !Opens(w.stack, e) && Effect(w.stack, e).stack.pending == w.stack.pending
    requires var o := Effect(w.stack, e);
             e.Answers? || (e.Arrives? && o.error) || (e.Expires? && o.sent.None? && o.report.None?)
    ensures HistoryInv(Step(w, e))
  {
    AllRecorded(w);
    NoRecord(w, e);
    SameSettings(w, e);
    SameHistory(w, Step(w, e));
  }

  lemma ArrivesHistory(w: World, e: Event)
    requires TimerInv(w) && HistoryInv(w) && e.Arrives?
    ensures HistoryInv(Step(w, e))
  {
    if Opens(w.stack, e) {
      RequestHistory(w, e);
    } else if Effect(w.stack, e).error {
      NothingHistory(w, e);
    } else {
      AllRecorded(w);
      StillOpen(w, e.seqNum);
      ReplyHistory(w, e, e.seqNum, w.records[w.current[e.seqNum]]);
    }
  }

  lemma StillOpen(w: World, n: nat)
    requires TimerInv(w) && n in w.stack.pending
    ensures w.stack.pending[n].triggeredType == 0
  {
  }

  lemma SendsHistory(w: World, e: Event)
    requires TimerInv(w) && HistoryInv(w) && Allowed(w, e) && e.Sends?
    ensures HistoryInv(Step(w, e))
  {
    var s, m := w.stack, Numbered(w.stack, e.msg);
    assert AfterDumps(m, 1) == AfterMsg(AfterDumps(m, 0));
    OpenRecord(s.pending, w.records, w.current, s.n3, m.sequenceNumber, NewSend(m, e.peer, e.teid, e.id, e.t, e.c),
               Opened(s, e, Effect(s, e)));
  }

  lemma AnswersHistory(w: World, e: Event)
    requires TimerInv(w) && HistoryInv(w) && Allowed(w, e) && e.Answers?
    ensures HistoryInv(Step(w, e))
  {
    var s := w.stack;
    if e.id in s.txIndex && e.deleteTx && s.txIndex[e.id] in s.pending {
      var n := s.txIndex[e.id];
      CloseRecord(s.pending, w.records, w.current, s.n3, n, w.records[w.current[n]]);
      OneRecord(w, e, n, w.records[w.current[n]]);
    } else {
      NothingHistory(w, e);
    }
  }

  lemma RepeatHistory(w: World, e: Event, n: nat, p: Procedure, r: Record)
    requires HistoryInv(w)
    requires e.Expires? && e.t in w.stack.retry && n == w.stack.retry[e.t] && n in w.stack.pending
    requires p == w.stack.pending[n] && p.retryMsg.Some? && p.retryCount < w.stack.n3
    requires r == w.records[w.current[n]]
    ensures HistoryInv(Step(w, e))
  {
    var s, m := w.stack, p.retryMsg.value;
    var packet := Packet(WellKnown, p.peer, DumpMsg(m));
    var r' := r.(sent := r.sent + [packet]);
    var p' := p.(retryCount := Bump(p.retryCount), retryTimer := e.next, retryMsg := Some(AfterMsg(m)));
    Repeated(r, p, s.n3, packet);
    assert Tracks(r', p', s.n3);
    ChangeRecord(s.pending, w.records, w.current, s.n3, n, p', r');
    OneRecord(w, e, n, r');
  }

  lemma GiveUpHistory(w: World, e: Event, n: nat, r: Record)
    requires HistoryInv(w)
    requires e.Expires? && e.t in w.stack.retry && n == w.stack.retry[e.t] && n in w.stack.pending
    requires w.stack.pending[n].retryCount >= w.stack.n3 && (w.stack.pending[n].retryMsg.None? ==> w.stack.n3 == 0)
    requires r == w.records[w.current[n]]
    ensures HistoryInv(Step(w, e))
  {
    var s, p := w.stack, w.stack.pending[n];
    var r' := r.(reports := r.reports + [Report(p.peer, p.localTeid, REMOTE_PEER_NOT_RESPONDING, p.txId)]);
    GivenUp(r, s.pending[n], s.n3);
    CloseRecord(s.pending, w.records, w.current, s.n3, n, r');
    OneRecord(w, e, n, r');
  }

  lemma CleanupHistory(w: World, e: Event, n: nat)
    requires HistoryInv(w) && e.Expires? && e.t in w.stack.cleanup && n == w.stack.cleanup[e.t]
    requires n in w.stack.pending && e.t !in w.stack.retry
    ensures HistoryInv(Step(w, e))
  {
    var s, r := w.stack, w.records[w.current[n]];
    CloseRecord(s.pending, w.records, w.current, s.n3, n, r);
    OneRecord(w, e, n, r);
  }

  lemma NoRetries(w: World, n: nat)
    requires TimerInv(w) && n in w.stack.pending
    ensures w.stack.pending[n].retryMsg.None? ==> w.stack.pending[n].retryCount == 0
  {
    assert HasTimers(n, w.stack.pending[n], w.stack.cleanup, w.stack.retry, w.live);
  }

  lemma ExpiresHistory(w: World, e: Event)
    requires TimerInv(w) && HistoryInv(w) && e.Expires?
    ensures HistoryInv(Step(w, e))
  {
    var s := w.stack;
    if e.t in s.retry && s.retry[e.t] in s.pending {
      var n := s.retry[e.t];
      NoRetries(w, n);
      if s.pending[n].retryCount >= s.n3 {
        GiveUpHistory(w, e, n, w.records[w.current[n]]);
      } else if s.pending[n].retryMsg.Some? {
        RepeatHistory(w, e, n, s.pending[n], w.records[w.current[n]]);
      } else {
        NothingHistory(w, e);
      }
    } else if e.t in s.cleanup && s.cleanup[e.t] in s.pending {
      CleanupHistory(w, e, s.cleanup[e.t]);
    } else {
      NothingHistory(w, e);
    }
  }

  lemma StepHistory(w: World, e: Event)
    requires TimerInv(w) && HistoryInv(w) && Allowed(w, e)
    ensures HistoryInv(Step(w, e))
  {
    match e
    case Arrives(_, _, _, _) => ArrivesHistory(w, e);
    case Sends(_, _, _, _, _, _) => SendsHistory(w, e);
    case Answers(_, _, _, _) => AnswersHistory(w, e);
    case Expires(_, _) => ExpiresHistory(w, e);
  }

  lemma {:induction false} RunHistory(w: World, events: seq<Event>)
    requires TimerInv(w) && HistoryInv(w) && AllowedRun(w, events)
    ensures HistoryInv(Run(w, events)) && Run(w, events).stack.n3 == w.stack.n3
    decreases |events|
  {
    if events != [] {
      var e := events[0];
      StepTimers(w, e);
      StepHistory(w, e);
      SameSettings(w, e);
      RunHistory(Step(w, e), events[1..]);
    }
  }

  // ---- reports without retransmissions ----

  /** No received request was reported. */
  predicate Clean(records: seq<Record>) {
    forall i :: 0 <= i < |records| && !records[i].local ==> records[i].reports == []
  }

  lemma CleanExpiry(w: World, e: Event)
    requires TimerInv(w) && OwnInv(w) && HistoryInv(w) && Clean(w.records) && e.Expires?
    ensures Clean(Step(w, e).records)
  {
    AllRecorded(w);
    if e.t in w.stack.retry && w.stack.retry[e.t] in w.stack.pending {
      OwnRetry(w, e.t);
    }
  }

  lemma CleanStep(w: World, e: Event)
    requires TimerInv(w) && OwnInv(w) && HistoryInv(w) && Clean(w.records)
    ensures Clean(Step(w, e).records)
  {
    if e.Expires? {
      CleanExpiry(w, e);
    }
  }

  lemma {:induction false} CleanRun(w: World, events: seq<Event>)
    requires TimerInv(w) && OwnInv(w) && HistoryInv(w) && Clean(w.records) && AllowedRun(w, events) && UnreusedRun(w, events)
    ensures Clean(Run(w, events).records)
    decreases |events|
  {
    if events != [] {
      var e := events[0];
      StepTimers(w, e);
      StepOwn(w, e);
      StepHistory(w, e);
      CleanStep(w, e);
      CleanRun(Step(w, e), events[1..]);
    }
  }

  lemma {:induction false} AdmittedWithoutRetries(w: World, events: seq<Event>)
    requires AdmittedRun(w, events)
    ensures AllowedRun(w, events) && (w.stack.n3 == 0 ==> UnreusedRun(w, events))
    decreases |events|
  {
    if events != [] {
      SameSettings(w, events[0]);
      AdmittedWithoutRetries(Step(w, events[0]), events[1..]);
    }
  }

  // ---- the main results ----

  lemma FaithfulOverRuns(t3: u32, n3: u32, seqNum: u32, events: seq<Event>)
    requires AllowedRun(Initial(t3, n3, seqNum), events)
    ensures AllFaithful(Run(Initial(t3, n3, seqNum), events).records, n3)
  {
    var w := Initial(t3, n3, seqNum);
    InitialInv(t3, n3, seqNum);
    RunHistory(w, events);
    forall i | 0 <= i < |Run(w, events).records| ensures Faithful(Run(w, events).records[i], n3) {
      KeptIsFaithful(Run(w, events).records[i], n3);
    }
  }

  /** In every run of a stack with n3 <= 255, every transaction is bounded. */
  lemma BoundedRetransmission(t3: u32, n3: u32, seqNum: u32, events: seq<Event>)
    requires AdmittedRun(Initial(t3, n3, seqNum), events) && n3 <= 255
    ensures AllBounded(Run(Initial(t3, n3, seqNum), events).records, n3)
  {
    var w := Initial(t3, n3, seqNum);
    InitialInv(t3, n3, seqNum);
    AdmittedWithoutRetries(w, events);
    FaithfulOverRuns(t3, n3, seqNum, events);
    if n3 == 0 {
      CleanRun(w, events);
    }
  }

  lemma Once(r: Record, n3: nat, i: nat)
    requires Faithful(r, n3) && !r.local && i < |r.ups| && !(r.ups[0] in {95, 97, 99})
    ensures r.ups[i] == r.ups[0] <==> i == 0
  {
  }

  /** In every run, a received request is handed to the application once while its procedure lasts, unless
      it is one of the bearer requests; and it is handed up. */
  lemma OncePerLifetime(t3: u32, n3: u32, seqNum: u32, events: seq<Event>, k: nat)
    requires AllowedRun(Initial(t3, n3, seqNum), events)
    requires var r := Run(Initial(t3, n3, seqNum), events).records; k < |r| && !r[k].local
    ensures var r := Run(Initial(t3, n3, seqNum), events).records[k];
            && |r.ups| >= 1 && Request(r.ups[0])
            && (!(r.ups[0] in {95, 97, 99}) ==> forall i :: 0 <= i < |r.ups| && r.ups[i] == r.ups[0] ==> i == 0)
  {
    FaithfulOverRuns(t3, n3, seqNum, events);
    var r := Run(Initial(t3, n3, seqNum), events).records[k];
    if !(r.ups[0] in {95, 97, 99}) {
      forall i | 0 <= i < |r.ups| && r.ups[i] == r.ups[0] ensures i == 0 {
        Once(r, n3, i);
      }
    }
  }

  lemma IdenticalSends(r: Record, n3: nat)
    requires Faithful(r, n3) && |r.sent| >= 2
    ensures (forall k :: 0 <= k < |r.sent| ==> r.sent[k].octets == r.sent[0].octets)
       <==> SteadyHeader(r.msg) && SymmetricAll(r.msg.ies)
  {
    SecondDump(r.msg);
    if SteadyHeader(r.msg) && SymmetricAll(r.msg.ies) {
      forall k | 0 <= k < |r.sent| ensures r.sent[k].octets == r.sent[0].octets {
        RepeatsForever(r.msg, k);
      }
    } else {
      assert r.sent[1].octets != r.sent[0].octets;
    }
  }

  /** In every run, the transmissions of a request sent at least twice are all the same octets if and only
      if no FQ-CSID identifier in it changes when its octets are exchanged. */
  lemma IdenticalRetries(t3: u32, n3: u32, seqNum: u32, events: seq<Event>, i: nat)
    requires AllowedRun(Initial(t3, n3, seqNum), events)
    requires var r := Run(Initial(t3, n3, seqNum), events).records; i < |r| && |r[i].sent| >= 2
    ensures var r := Run(Initial(t3, n3, seqNum), events).records[i];
            (forall k :: 0 <= k < |r.sent| ==> r.sent[k].octets == r.sent[0].octets)
            <==> SteadyHeader(r.msg) && SymmetricAll(r.msg.ies)
  {
    FaithfulOverRuns(t3, n3, seqNum, events);
    IdenticalSends(Run(Initial(t3, n3, seqNum), events).records[i], n3);
  }

  // ---- beyond the 8-bit counter ----

  /** One local transaction, number n, waiting on retry timer t. */
  predicate Retrying(w: World, n: nat, t: TimerId, top: nat) {
    && w.stack.n3 >= 256 && |w.records| == 1 && w.records[0].local && w.records[0].reports == []
    && t in w.stack.retry && w.stack.retry[t] == n && n in w.stack.pending && n in w.current && w.current[n] == 0
    && w.stack.pending[n].retryMsg.Some? && w.stack.pending[n].retryMsg.value.sequenceNumber == n
    && t < top && forall x :: x in w.used ==> x < top
  }

  lemma RetriesAgain(w: World, n: nat, t: TimerId, top: nat)
    requires Retrying(w, n, t, top) && top > 0 && top !in w.stack.retry
    ensures var e := Expires(t, top);
            && Allowed(w, e) && Retrying(Step(w, e), n, top, top + 1)
            && |Step(w, e).records[0].sent| == |w.records[0].sent| + 1
            && Step(w, e).stack.retry.Keys <= w.stack.retry.Keys + {top}
  {
    OneRecord(w, Expires(t, top), n, Noted(w.records[0], Expires(t, top), Effect(w.stack, Expires(t, top))));
  }

  lemma {:induction false} RetriesForever(w: World, n: nat, t: TimerId, top: nat, k: nat) returns (events: seq<Event>)
    requires Retrying(w, n, t, top) && top > 0 && forall x :: x in w.stack.retry ==> x < top
    ensures AllowedRun(w, events)
    ensures var r := Run(w, events).records; |r| == 1 && r[0].local && |r[0].sent| == |w.records[0].sent| + k
    decreases k
  {
    if k == 0 {
      events := [];
    } else {
      RetriesAgain(w, n, t, top);
      var e := Expires(t, top);
      var more := RetriesForever(Step(w, e), n, top, top + 1, k - 1);
      events := [e] + more;
      assert events[1..] == more;
    }
  }

  /** With n3 >= 256 the counter wraps before it reaches n3: for every k there is a run that sends one
      request k + 1 times. */
  lemma UnboundedRetransmission(t3: u32, n3: u32, seqNum: u32, k: nat) returns (events: seq<Event>)
    requires n3 >= 256
    ensures AllowedRun(Initial(t3, n3, seqNum), events)
    ensures var r := Run(Initial(t3, n3, seqNum), events).records; |r| == 1 && r[0].local && |r[0].sent| == k + 1
  {
    var w, e := Initial(t3, n3, seqNum), Sends(NewMsg(1), 0, 0, 1, 1, 2);
    var n := Numbered(w.stack, e.msg).sequenceNumber;
    ArmedBoth(1, 2, t3, ProcTimeOut(t3, n3));
    var w' := Step(w, e);
    assert w'.used == {1, 2};
    assert Retrying(w', n, 1, 3);
    var more := RetriesForever(w', n, 1, 3, k);
    events := [e] + more;
    assert events[1..] == more;
  }

  /** Without retransmissions a late timer reports a received request. */
  lemma ReportedRequest(t3: u32, seqNum: u32) returns (events: seq<Event>)
    ensures AllowedRun(Initial(t3, 0, seqNum), events)
    ensures !AllBounded(Run(Initial(t3, 0, seqNum), events).records, 0)
  {
    var w := Initial(t3, 0, seqNum);
    var m := Numbered(w.stack, NewMsg(1));
    LateRun(t3, 0, seqNum, m);
    LateGiveUp(t3, seqNum, m);
    LateReport(t3, seqNum, m);
    OneStep(LateWorld(t3, 0, seqNum, m), Expires(1, 5));
    RunAppend(w, LateRetry(m.sequenceNumber), [Expires(1, 5)]);
    events := LateRetry(m.sequenceNumber) + [Expires(1, 5)];
    assert !Bounded(Run(w, events).records[1], 0);
  }

  /** In runs that also open no number too early when n3 == 0, the bound holds exactly when n3 fits. */
  lemma AdmittedIffCounterFits(t3: u32, n3: u32, seqNum: u32)
    ensures (forall events :: AdmittedRun(Initial(t3, n3, seqNum), events)
                              ==> AllBounded(Run(Initial(t3, n3, seqNum), events).records, n3))
       <==> n3 <= 255
  {
    var w := Initial(t3, n3, seqNum);
    if n3 <= 255 {
      forall events | AdmittedRun(w, events) ensures AllBounded(Run(w, events).records, n3) {
        BoundedRetransmission(t3, n3, seqNum, events);
      }
    } else {
      var events := UnboundedRetransmission(t3, n3, seqNum, n3 + 1);
      AllowedIsAdmitted(w, events);
      assert !Bounded(Run(w, events).records[0], n3);
    }
  }

  /** The bound holds in every run exactly when there is a retransmission and n3 fits the counter. */
  lemma BoundedIffCounterFits(t3: u32, n3: u32, seqNum: u32)
    ensures (forall events :: AllowedRun(Initial(t3, n3, seqNum), events)
                              ==> AllBounded(Run(Initial(t3, n3, seqNum), events).records, n3))
       <==> 1 <= n3 <= 255
  {
    var w := Initial(t3, n3, seqNum);
    if n3 == 0 {
      var events := ReportedRequest(t3, seqNum);
    } else if n3 <= 255 {
      forall events | AllowedRun(w, events) ensures AllBounded(Run(w, events).records, n3) {
        AllowedIsAdmitted(w, events);
        BoundedRetransmission(t3, n3, seqNum, events);
      }
    } else {
      var events := UnboundedRetransmission(t3, n3, seqNum, n3 + 1);
      assert !Bounded(Run(w, events).records[0], n3);
    }
  }
}
