/** What every run of the transaction layer satisfies: the index of ids, the timers, duplicates, answers,
    and the end of all procedures. */
module TransactionIndex {
  import opened Octets
  import opened Elements
  import opened Messages
  import opened Transactions
  import opened TransactionRuns

  // ---- the main results about the indexes ----

  /** Each pending procedure is found by its id, no two share one, and the ids that lead to no pending
      procedure are exactly those reported as peer not responding; the generator holds exactly the ids in
      the index. */
  ghost predicate IndexExact(w: World) {
    var s := w.stack;
    && (forall n :: n in s.pending ==> s.pending[n].txId in s.txIndex && s.txIndex[s.pending[n].txId] == n)
    && (forall m, n :: m in s.pending && n in s.pending && s.pending[m].txId == s.pending[n].txId ==> m == n)
    && (forall x :: x in w.abandoned <==> x in s.txIndex && forall n :: n in s.pending ==> s.pending[n].txId != x)
    && w.issued == s.txIndex.Keys
  }

  lemma IndexMeans(w: World)
    requires IndexInv(w)
    ensures IndexExact(w)
  {
    var s := w.stack;
    forall x
      ensures x in w.abandoned <==> x in s.txIndex && forall n :: n in s.pending ==> s.pending[n].txId != x
    {
      if x in s.txIndex && x !in w.abandoned {
        assert s.pending[s.txIndex[x]].txId == x;
      }
    }
  }

  lemma IndexOverRuns(t3: u32, n3: u32, seqNum: u32, events: seq<Event>)
    requires AdmittedRun(Initial(t3, n3, seqNum), events)
    ensures IndexExact(Run(Initial(t3, n3, seqNum), events))
  {
    InitialInv(t3, n3, seqNum);
    RunKeeps(Initial(t3, n3, seqNum), events);
    IndexMeans(Run(Initial(t3, n3, seqNum), events));
  }

  /** In every run each pending procedure has an armed cleanup timer mapped to it, the retry timer of
      a procedure is mapped to it, and the two timer maps share no key. */
  lemma TimersOverRuns(t3: u32, n3: u32, seqNum: u32, events: seq<Event>)
    requires AllowedRun(Initial(t3, n3, seqNum), events)
    ensures var w := Run(Initial(t3, n3, seqNum), events);
            var s := w.stack;
            && (forall n :: n in s.pending ==>
                  var p := s.pending[n];
                  && p.cleanupTimer in w.live && p.cleanupTimer in s.cleanup && s.cleanup[p.cleanupTimer] == n
                  && (p.retryTimer != NO_TIMER ==> p.retryTimer in w.live && p.retryTimer in s.retry && s.retry[p.retryTimer] == n))
            && s.cleanup.Keys !! s.retry.Keys
  {
    InitialInv(t3, n3, seqNum);
    RunTimers(Initial(t3, n3, seqNum), events);
  }

  lemma RequestOf(w: World, n: nat)
    requires TimerInv(w) && n in w.stack.pending && w.stack.pending[n].retryMsg.None?
    ensures w.stack.pending[n].triggeredType == 0 && Request(w.stack.pending[n].initialType)
  {
    assert HasTimers(n, w.stack.pending[n], w.stack.cleanup, w.stack.retry, w.live);
    SwitchesAreTable(w.stack.pending[n].initialType, 0);
  }

  /** In every run, a message is accepted if and only if no procedure is pending under its number and it is
      a request, or a received request is pending and its type is the next one or that of a bearer
      request. */
  lemma AcceptanceOverRuns(t3: u32, n3: u32, seqNum: u32, events: seq<Event>, n: nat, kind: byte, id: nat, t: TimerId)
    requires AllowedRun(Initial(t3, n3, seqNum), events)
    ensures var s := Run(Initial(t3, n3, seqNum), events).stack;
            && (n !in s.pending ==> (!Receive(s, n, kind, id, t).error <==> Request(kind)))
            && (n in s.pending && s.pending[n].retryMsg.None? ==>
                  (!Receive(s, n, kind, id, t).error
                   <==> kind == s.pending[n].initialType + 1 || kind == 95 || kind == 97 || kind == 99))
            && (n in s.pending && s.pending[n].retryMsg.Some? && Request(s.pending[n].initialType) ==>
                  (!Receive(s, n, kind, id, t).error
                   <==> kind == s.pending[n].initialType + 1 || kind == 95 || kind == 97 || kind == 99))
  {
    var w := Run(Initial(t3, n3, seqNum), events);
    InitialInv(t3, n3, seqNum);
    RunTimers(Initial(t3, n3, seqNum), events);
    if n !in w.stack.pending {
      AcceptsRequests(w.stack, n, kind, id, t);
    } else {
      AcceptanceOf(w, n, kind, id, t);
    }
  }

  lemma AcceptanceOf(w: World, n: nat, kind: byte, id: nat, t: TimerId)
    requires TimerInv(w) && n in w.stack.pending
    ensures w.stack.pending[n].retryMsg.None? || Request(w.stack.pending[n].initialType) ==>
              (!Receive(w.stack, n, kind, id, t).error
               <==> kind == w.stack.pending[n].initialType + 1 || kind == 95 || kind == 97 || kind == 99)
  {
    assert HasTimers(n, w.stack.pending[n], w.stack.cleanup, w.stack.retry, w.live);
    if w.stack.pending[n].retryMsg.None? {
      RequestOf(w, n);
    }
    if Request(w.stack.pending[n].initialType) {
      AcceptsAnswers(w.stack, n, kind, id, t);
    }
  }

  lemma DuplicateOf(w: World, n: nat, id: nat, t: TimerId)
    requires TimerInv(w) && n in w.stack.pending && w.stack.pending[n].retryMsg.None?
    ensures var s, kind := w.stack, w.stack.pending[n].initialType;
            && (Receive(s, n, kind, id, t) == Outcome(s, error := true) <==> kind != 95 && kind != 97 && kind != 99)
            && (Receive(s, n, kind, id, t).error <==> kind != 95 && kind != 97 && kind != 99)
  {
    RequestOf(w, n);
    DuplicateSuppression(w.stack, n, id, t);
  }

  /** In every run, another copy of a received request that is pending is an error that changes nothing,
      unless it is one of the three bearer requests. */
  lemma DuplicatesOverRuns(t3: u32, n3: u32, seqNum: u32, events: seq<Event>, n: nat, id: nat, t: TimerId)
    requires AllowedRun(Initial(t3, n3, seqNum), events)
    requires var s := Run(Initial(t3, n3, seqNum), events).stack; n in s.pending && s.pending[n].retryMsg.None?
    ensures var s := Run(Initial(t3, n3, seqNum), events).stack;
            var kind := s.pending[n].initialType;
            && (Receive(s, n, kind, id, t) == Outcome(s, error := true) <==> kind != 95 && kind != 97 && kind != 99)
            && (Receive(s, n, kind, id, t).error <==> kind != 95 && kind != 97 && kind != 99)
  {
    InitialInv(t3, n3, seqNum);
    RunTimers(Initial(t3, n3, seqNum), events);
    DuplicateOf(Run(Initial(t3, n3, seqNum), events), n, id, t);
  }

  lemma AnswerOf(w: World, n: nat, msg: Outgoing, peer: nat, deleteTx: bool)
    requires IndexInv(w) && n in w.stack.pending
    ensures var o := SendTriggered(w.stack, msg, peer, w.stack.pending[n].txId, deleteTx);
            && o.sent == Some(Packet(WellKnown, peer, DumpMsg(SetSequenceNumber(msg, n))))
            && o.stack.pending == if deleteTx then w.stack.pending - {n} else w.stack.pending
  {
  }

  /** In every run, an answer on the id of a pending procedure goes out under that procedure's own number,
      and ends that procedure and no other if it is the last. */
  lemma AnswersOverRuns(t3: u32, n3: u32, seqNum: u32, events: seq<Event>, n: nat, msg: Outgoing, peer: nat, deleteTx: bool)
    requires AdmittedRun(Initial(t3, n3, seqNum), events) && n in Run(Initial(t3, n3, seqNum), events).stack.pending
    ensures var s := Run(Initial(t3, n3, seqNum), events).stack;
            var o := SendTriggered(s, msg, peer, s.pending[n].txId, deleteTx);
            && o.sent == Some(Packet(WellKnown, peer, DumpMsg(SetSequenceNumber(msg, n))))
            && o.stack.pending == if deleteTx then s.pending - {n} else s.pending
  {
    InitialInv(t3, n3, seqNum);
    RunKeeps(Initial(t3, n3, seqNum), events);
    AnswerOf(Run(Initial(t3, n3, seqNum), events), n, msg, peer, deleteTx);
  }

  // ---- the retry of a received request ----

  /** The timer leads to a received request that is pending. */
  predicate LeadsToRequest(s: Stack, t: TimerId) {
    t in s.retry && s.retry[t] in s.pending && s.pending[s.retry[t]].retryMsg.None?
  }

  lemma UndefinedMeans(w: World, e: Event)
    requires TimerInv(w)
    ensures Effect(w.stack, e).undefined <==> e.Expires? && LeadsToRequest(w.stack, e.t) && w.stack.n3 > 0
  {
    if e.Expires? && LeadsToRequest(w.stack, e.t) {
      var n := w.stack.retry[e.t];
      assert HasTimers(n, w.stack.pending[n], w.stack.cleanup, w.stack.retry, w.live);
    }
  }

  /** In every run, a step uses a missing retry message if and only if a retry timer expires that leads to
      a received request, and there is at least one retransmission. */
  lemma UndefinedOverRuns(t3: u32, n3: u32, seqNum: u32, events: seq<Event>, e: Event)
    requires AllowedRun(Initial(t3, n3, seqNum), events)
    ensures var s := Run(Initial(t3, n3, seqNum), events).stack;
            Effect(s, e).undefined <==> e.Expires? && LeadsToRequest(s, e.t) && s.n3 > 0
  {
    InitialInv(t3, n3, seqNum);
    RunTimers(Initial(t3, n3, seqNum), events);
    UndefinedMeans(Run(Initial(t3, n3, seqNum), events), e);
  }

  lemma {:induction false} RunOwns(w: World, events: seq<Event>)
    requires TimerInv(w) && OwnInv(w) && AllowedRun(w, events) && UnreusedRun(w, events)
    ensures TimerInv(Run(w, events)) && OwnInv(Run(w, events))
    decreases |events|
  {
    if events != [] {
      StepTimers(w, events[0]);
      StepOwn(w, events[0]);
      RunOwns(Step(w, events[0]), events[1..]);
    }
  }

  /** No step does so in runs that open no number while a retry timer is mapped to it. */
  lemma NeverUndefined(t3: u32, n3: u32, seqNum: u32, events: seq<Event>, e: Event)
    requires AllowedRun(Initial(t3, n3, seqNum), events) && UnreusedRun(Initial(t3, n3, seqNum), events)
    ensures !Effect(Run(Initial(t3, n3, seqNum), events).stack, e).undefined
  {
    var w := Run(Initial(t3, n3, seqNum), events);
    InitialInv(t3, n3, seqNum);
    RunOwns(Initial(t3, n3, seqNum), events);
    UndefinedMeans(w, e);
    if e.Expires? && e.t in w.stack.retry && w.stack.retry[e.t] in w.stack.pending {
      OwnRetry(w, e.t);
    }
  }

  // ---- a request under a number whose retry timer is still armed ----

  /** A local request whose cleanup timer expires before its retry timer, then a peer's request under the
      same number. */
  function LateRetry(n: nat): seq<Event> {
    [Sends(NewMsg(1), 0, 0, 7, 1, 2), Expires(2, 3), Arrives(n, 32, 8, 4)]
  }

  function LocalRecord(m: Outgoing): Record {
    Record(true, m, 0, 0, 7, [Packet(Allocated, 0, DumpMsg(m))], [], [])
  }

  /** The world after these three events. */
  function LateWorld(t3: u32, n3: u32, seqNum: u32, m: Outgoing): World {
    var n := m.sequenceNumber;
    World(Stack(t3, n3, NextSeqNum(seqNum), map[8 := n], map[4 := n], map[1 := n], map[n := NewRequest(32, 8, 4)]),
          {1, 4}, {1, 2, 4}, {8}, {8}, {},
          [LocalRecord(m), Record(false, NewMsg(32), 0, 0, 8, [], [32], [])], map[n := 1])
  }

  function SentWorld(t3: u32, n3: u32, seqNum: u32, m: Outgoing): World {
    var n := m.sequenceNumber;
    World(Stack(t3, n3, NextSeqNum(seqNum), map[7 := n], map[2 := n], map[1 := n], map[n := NewSend(m, 0, 0, 7, 1, 2)]),
          {1, 2}, {1, 2}, {7}, {}, {}, [LocalRecord(m)], map[n := 0])
  }

  function ClearedWorld(t3: u32, n3: u32, seqNum: u32, m: Outgoing): World {
    var n := m.sequenceNumber;
    World(Stack(t3, n3, NextSeqNum(seqNum), map[], map[], map[1 := n], map[]), {1}, {1, 2}, {}, {}, {}, [LocalRecord(m)], map[])
  }

  lemma LateFirst(t3: u32, n3: u32, seqNum: u32, m: Outgoing)
    requires m == Numbered(Initial(t3, n3, seqNum).stack, NewMsg(1))
    ensures var w, e := Initial(t3, n3, seqNum), LateRetry(m.sequenceNumber)[0];
            Allowed(w, e) && Step(w, e) == SentWorld(t3, n3, seqNum, m)
  {
    ArmedBoth(1, 2, t3, ProcTimeOut(t3, n3));
  }

  lemma LateSecond(t3: u32, n3: u32, seqNum: u32, m: Outgoing)
    ensures var w, e := SentWorld(t3, n3, seqNum, m), LateRetry(m.sequenceNumber)[1];
            Allowed(w, e) && Step(w, e) == ClearedWorld(t3, n3, seqNum, m)
  {
  }

  lemma LateThird(t3: u32, n3: u32, seqNum: u32, m: Outgoing)
    ensures var w, e := ClearedWorld(t3, n3, seqNum, m), LateRetry(m.sequenceNumber)[2];
            Allowed(w, e) && Step(w, e) == LateWorld(t3, n3, seqNum, m)
  {
  }

  lemma LateRun(t3: u32, n3: u32, seqNum: u32, m: Outgoing)
    requires m == Numbered(Initial(t3, n3, seqNum).stack, NewMsg(1))
    ensures var events := LateRetry(m.sequenceNumber);
            AllowedRun(Initial(t3, n3, seqNum), events) && Run(Initial(t3, n3, seqNum), events) == LateWorld(t3, n3, seqNum, m)
  {
    var e := LateRetry(m.sequenceNumber);
    LateFirst(t3, n3, seqNum, m);
    LateSecond(t3, n3, seqNum, m);
    LateThird(t3, n3, seqNum, m);
    assert e[1..] == [e[1], e[2]] && e[1..][1..] == [e[2]] && e[1..][1..][1..] == [];
  }

  /** With n3 >= 1 the late retry timer then finds no message to send again. */
  lemma UndefinedIsReachable(t3: u32, n3: u32, seqNum: u32, m: Outgoing)
    requires m == Numbered(Initial(t3, n3, seqNum).stack, NewMsg(1)) && n3 >= 1
    ensures var events := LateRetry(m.sequenceNumber);
            var w := Run(Initial(t3, n3, seqNum), events);
            AllowedRun(Initial(t3, n3, seqNum), events) && Allowed(w, Expires(1, 5)) && Effect(w.stack, Expires(1, 5)).undefined
  {
    LateRun(t3, n3, seqNum, m);
  }

  // ---- the same without retransmissions ----

  lemma {:induction false} RunAppend(w: World, a: seq<Event>, b: seq<Event>)
    requires AllowedRun(w, a) && AllowedRun(Run(w, a), b)
    ensures AllowedRun(w, a + b) && Run(w, a + b) == Run(Run(w, a), b)
    decreases |a|
  {
    if a == [] {
      assert a + b == b;
    } else {
      var w' := Step(w, a[0]);
      Unfolded(w, a, w');
      RunAppend(w', a[1..], b);
      FirstOf(a, b);
      FirstEvent(w, a[0], a[1..] + b, w');
    }
  }

  lemma FirstOf<T>(a: seq<T>, b: seq<T>)
    requires a != []
    ensures a + b == [a[0]] + (a[1..] + b)
  {
  }

  lemma Unfolded(w: World, a: seq<Event>, w': World)
    requires a != [] && AllowedRun(w, a) && w' == Step(w, a[0])
    ensures Allowed(w, a[0]) && AllowedRun(w', a[1..]) && Run(w, a) == Run(w', a[1..])
  {
  }

  lemma FirstEvent(w: World, e: Event, more: seq<Event>, w': World)
    requires Allowed(w, e) && w' == Step(w, e) && AllowedRun(w', more)
    ensures AllowedRun(w, [e] + more) && Run(w, [e] + more) == Run(w', more)
  {
    assert ([e] + more)[1..] == more;
  }

  lemma OneStep(w: World, e: Event)
    ensures Run(w, [e]) == Step(w, e) && (AllowedRun(w, [e]) <==> Allowed(w, e))
  {
    assert [e][1..] == [];
  }

  /** With n3 == 0 the late timer gives the received request up, as if the peer had not answered. */
  lemma LateGiveUp(t3: u32, seqNum: u32, m: Outgoing)
    ensures var w, e := LateWorld(t3, 0, seqNum, m), Expires(1, 5);
            && Allowed(w, e) && Step(w, e).abandoned == {8} && Step(w, e).remote == {8}
            && Step(w, e).stack.pending == map[] && Step(w, e).stack.txIndex == map[8 := m.sequenceNumber]
  {
  }

  /** The report is noted against the received request. */
  lemma LateReport(t3: u32, seqNum: u32, m: Outgoing)
    ensures var r := Step(LateWorld(t3, 0, seqNum, m), Expires(1, 5)).records;
            |r| == 2 && !r[1].local && r[1].reports == [Report(0, 0, REMOTE_PEER_NOT_RESPONDING, 8)]
  {
    assert [] + [Report(0, 0, REMOTE_PEER_NOT_RESPONDING, 8)] == [Report(0, 0, REMOTE_PEER_NOT_RESPONDING, 8)];
  }

  /** An answer sent on its id afterwards takes that id out of the index. */
  lemma LateAnswer(w: World, n: nat)
    requires w.abandoned == {8} && w.remote == {8} && w.stack.pending == map[] && w.stack.txIndex == map[8 := n]
    ensures var e := Answers(NewMsg(33), 0, 8, true);
            Allowed(w, e) && Step(w, e).abandoned == {8} && 8 !in Step(w, e).stack.txIndex
  {
  }

  lemma IndexFails(t3: u32, seqNum: u32) returns (events: seq<Event>)
    ensures AllowedRun(Initial(t3, 0, seqNum), events) && !IndexExact(Run(Initial(t3, 0, seqNum), events))
  {
    var w0 := Initial(t3, 0, seqNum);
    var m := Numbered(w0.stack, NewMsg(1));
    var first, e, f := LateRetry(m.sequenceNumber), Expires(1, 5), Answers(NewMsg(33), 0, 8, true);
    LateRun(t3, 0, seqNum, m);
    LateGiveUp(t3, seqNum, m);
    var w3 := LateWorld(t3, 0, seqNum, m);
    OneStep(w3, e);
    RunAppend(w0, first, [e]);
    LateAnswer(Step(w3, e), m.sequenceNumber);
    OneStep(Step(w3, e), f);
    RunAppend(w0, first + [e], [f]);
    events := first + [e] + [f];
    assert 8 in Run(w0, events).abandoned && 8 !in Run(w0, events).stack.txIndex;
  }

  /** The index is exact in every run if and only if there is at least one retransmission. */
  lemma IndexExactIffRetries(t3: u32, n3: u32, seqNum: u32)
    ensures (forall events :: AllowedRun(Initial(t3, n3, seqNum), events) ==> IndexExact(Run(Initial(t3, n3, seqNum), events)))
       <==> n3 >= 1
  {
    if n3 >= 1 {
      forall events | AllowedRun(Initial(t3, n3, seqNum), events) ensures IndexExact(Run(Initial(t3, n3, seqNum), events)) {
        AllowedIsAdmitted(Initial(t3, n3, seqNum), events);
        IndexOverRuns(t3, n3, seqNum, events);
      }
    } else {
      var events := IndexFails(t3, seqNum);
    }
  }

  // ---- draining ----

  predicate OnlyExpiries(events: seq<Event>) {
    forall i :: 0 <= i < |events| ==> events[i].Expires?
  }

  predicate ExpiresIn(t: TimerId, events: seq<Event>) {
    exists i :: 0 <= i < |events| && events[i].Expires? && events[i].t == t
  }

  lemma ExpiryShrinks(w: World, e: Event, t: TimerId)
    requires w.stack.cleanup.Keys <= w.used && e.Expires? && e.next !in w.used
    requires t in Step(w, e).stack.cleanup && t in Step(w, e).live
    ensures t in w.stack.cleanup && t in w.live && t != e.t
  {
  }

  lemma {:induction false} SurvivesUnexpired(w: World, events: seq<Event>, t: TimerId)
    requires TimerInv(w) && AllowedRun(w, events) && OnlyExpiries(events)
    requires t in Run(w, events).stack.cleanup && t in Run(w, events).live
    ensures t in w.stack.cleanup && t in w.live && !ExpiresIn(t, events)
    decreases |events|
  {
    if events != [] {
      StepTimers(w, events[0]);
      SurvivesUnexpired(Step(w, events[0]), events[1..], t);
      ExpiryShrinks(w, events[0], t);
      forall i | 0 <= i < |events| ensures events[i].t != t {
        if i > 0 {
          assert events[i] == events[1..][i - 1];
        }
      }
    }
  }

  /** Once every armed cleanup timer has expired, with no new traffic, no procedure is pending. */
  lemma Drained(w: World, events: seq<Event>)
    requires TimerInv(w) && AllowedRun(w, events) && OnlyExpiries(events)
    requires forall t :: t in w.stack.cleanup && t in w.live ==> ExpiresIn(t, events)
    ensures Run(w, events).stack.pending == map[]
  {
    RunTimers(w, events);
    var w' := Run(w, events);
    if n :| n in w'.stack.pending {
      HasCleanup(w', n);
      SurvivesUnexpired(w, events, w'.stack.pending[n].cleanupTimer);
    }
  }

  lemma HasCleanup(w: World, n: nat)
    requires TimerInv(w) && n in w.stack.pending
    ensures w.stack.pending[n].cleanupTimer in w.stack.cleanup && w.stack.pending[n].cleanupTimer in w.live
  {
    assert HasTimers(n, w.stack.pending[n], w.stack.cleanup, w.stack.retry, w.live);
  }

  /** So it is after any run, whatever was received, sent and answered before. */
  lemma DrainedOverRuns(t3: u32, n3: u32, seqNum: u32, before: seq<Event>, events: seq<Event>)
    requires AllowedRun(Initial(t3, n3, seqNum), before)
    requires var w := Run(Initial(t3, n3, seqNum), before);
             && AllowedRun(w, events) && OnlyExpiries(events)
             && forall t :: t in w.stack.cleanup && t in w.live ==> ExpiresIn(t, events)
    ensures Run(Run(Initial(t3, n3, seqNum), before), events).stack.pending == map[]
  {
    InitialInv(t3, n3, seqNum);
    RunTimers(Initial(t3, n3, seqNum), before);
    Drained(Run(Initial(t3, n3, seqNum), before), events);
  }
}
