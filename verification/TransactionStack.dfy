/** The stack object: handlers that update the four maps and the sequence number in place, each proved
    to compute what the specification of its handler says. */
module TransactionStack {
  import opened Octets
  import opened Elements
  import opened Messages
  import opened Retransmission
  import opened Transactions

  class Gtpv2cStack {
    const t3: u32
    const n3: u32
    var seqNum: u32
    var txIndex: map<nat, nat>
    var cleanup: map<TimerId, nat>
    var retry: map<TimerId, nat>
    var pending: map<nat, Procedure>

    ghost function State(): Stack
      reads this
    {
      Stack(t3, n3, seqNum, txIndex, cleanup, retry, pending)
    }

    /** The clock's nanoseconds seed the sequence numbers. */
    constructor (t3: u32, n3: u32, nanoseconds: u32)
      ensures State() == Stack(t3, n3, nanoseconds % 0x8000_0000, map[], map[], map[], map[])
    {
      this.t3, this.n3, seqNum := t3, n3, nanoseconds % 0x8000_0000;
      txIndex, cleanup, retry, pending := map[], map[], map[], map[];
    }

    method GetNextSeqNum() returns (n: u32)
      modifies this`seqNum
      ensures State() == old(State()).(seqNum := n) && n == NextSeqNum(old(seqNum))
    {
      seqNum := (seqNum + 1) % 0x1_0000_0000;
      if seqNum >= 0x8000_0000 {
        seqNum := 0;
      }
      n := seqNum;
    }

    /** t is what the timer service returned for the set-up in `armed`. */
    method StartMsgRetryTimer(p: Procedure, ms: u32, n: nat, t: TimerId) returns (q: Procedure, armed: map<TimerId, Interval>)
      modifies this`retry
      ensures q == p.(retryTimer := t) && armed == Armed(t, ms)
      ensures State() == old(State()).(retry := if t == NO_TIMER then old(retry) else Insert(old(retry), t, n))
    {
      q, armed := p.(retryTimer := t), map[];
      if t != NO_TIMER {
        armed := map[t := Interval(ms / 1000, ms % 1000 * 1000)];
        if t !in retry {
          retry := retry[t := n];
        }
      }
    }

    method StopMsgRetryTimer(p: Procedure) returns (q: Procedure, stopped: set<TimerId>)
      modifies this`retry
      ensures q == p.(retryTimer := NO_TIMER)
      ensures stopped == if p.retryTimer == NO_TIMER then {} else {p.retryTimer}
      ensures State() == old(State()).(retry := if p.retryTimer == NO_TIMER then old(retry) else old(retry) - {p.retryTimer})
    {
      q, stopped := p, {};
      if q.retryTimer != NO_TIMER {
        stopped := {q.retryTimer};
        retry := retry - {q.retryTimer};
        q := q.(retryTimer := NO_TIMER);
      }
    }

    method StartProcCleanupTimer(p: Procedure, ms: u32, n: nat, t: TimerId) returns (q: Procedure, armed: map<TimerId, Interval>)
      modifies this`cleanup
      ensures p.cleanupTimer == NO_TIMER ==>
                && q == p.(cleanupTimer := t) && armed == Armed(t, ms)
                && State() == old(State()).(cleanup := Insert(old(cleanup), t, n))
      ensures p.cleanupTimer != NO_TIMER ==> q == p && armed == map[] && State() == old(State())
    {
      q, armed := p, map[];
      if p.cleanupTimer == NO_TIMER {
        if t != NO_TIMER {
          armed := map[t := Interval(ms / 1000, ms % 1000 * 1000)];
        }
        q := p.(cleanupTimer := t);
        if t !in cleanup {
          cleanup := cleanup[t := n];
        }
      }
    }

    /** The entry is erased from the map of retry timers; the map of cleanup timers keeps its own. */
    method StopProcCleanupTimer(p: Procedure) returns (q: Procedure)
      modifies this`retry
      ensures q == p.(cleanupTimer := NO_TIMER)
      ensures State() == old(State()).(retry := old(retry) - {p.cleanupTimer})
    {
      retry := retry - {p.cleanupTimer};
      q := p.(cleanupTimer := NO_TIMER);
    }

    /** Besides what the source returns: the timers set up and stopped. */
    method HandleReceiveMessage(n: nat, kind: byte, id: nat, t: TimerId)
      returns (error: bool, txId: nat, armed: map<TimerId, Interval>, stopped: set<TimerId>)
      modifies this`txIndex, this`cleanup, this`retry, this`pending
      ensures var o := Receive(old(State()), n, kind, id, t);
              && State() == o.stack && error == o.error && txId == o.txId
              && armed == o.armed && stopped == o.stopped
    {
      txId, error, armed, stopped := 0, true, map[], {};
      if n !in pending {
        if IsInitial(kind) {
          var p := Procedure(None, 0, 0, NO_TIMER, NO_TIMER, id, kind, 0, 0);
          p, armed := StartProcCleanupTimer(p, ProcTimeOut(t3, n3), n, t);
          pending := pending[n := p];
          if id !in txIndex {
            txIndex := txIndex[id := n];
          }
          error, txId := false, id;
        }
      } else {
        var p := pending[n];
        var request := if p.triggeredType == 0 then p.initialType else p.triggeredType;
        if Triggers(request, kind) {
          error, txId := false, p.txId;
          ghost var before := retry;
          var q;
          q, stopped := StopMsgRetryTimer(p);
          stopped := stopped + {q.cleanupTimer};
          q := StopProcCleanupTimer(q);
          assert stopped == TimersOf(p);
          assert retry == before - TimersOf(p);
          txIndex := txIndex - {txId};
          pending := pending - {n};
        }
      }
    }

    method SendInitialMessage(msg: Outgoing, peer: nat, teid: u32, id: nat, t: TimerId, c: TimerId)
      returns (n: nat, packet: Packet, armed: map<TimerId, Interval>)
      modifies this
      ensures var o := SendInitial(old(State()), msg, peer, teid, id, t, c);
              State() == o.stack && o.sent == Some(packet) && n == OnWire(o.stack.seqNum) && armed == o.armed
    {
      var number := GetNextSeqNum();
      var m: Outgoing := SetSequenceNumber(msg, number);
      packet := Packet(Allocated, peer, DumpMsg(m));
      n := m.sequenceNumber;
      var p := Procedure(Some(AfterMsg(m)), peer, teid, NO_TIMER, NO_TIMER, id, m.messageType, 0, 0);
      p, armed := StartMsgRetryTimer(p, t3, n, t);
      var more;
      p, more := StartProcCleanupTimer(p, ProcTimeOut(t3, n3), n, c);
      armed := armed + more;
      if n !in pending {
        pending := pending[n := p];
      }
      if id !in txIndex {
        txIndex := txIndex[id := n];
      }
    }

    method SendTriggeredMessage(msg: Outgoing, peer: nat, id: nat, deleteTx: bool)
      returns (packet: Option<Packet>, stopped: set<TimerId>)
      modifies this`txIndex, this`retry, this`pending
      ensures var o := SendTriggered(old(State()), msg, peer, id, deleteTx);
              State() == o.stack && packet == o.sent && stopped == o.stopped
    {
      packet, stopped := None, {};
      if id in txIndex {
        var n := txIndex[id];
        var m: Outgoing := SetSequenceNumber(msg, n);
        packet := Some(Packet(WellKnown, peer, DumpMsg(m)));
        if deleteTx {
          if n in pending {
            stopped := {pending[n].cleanupTimer};
            var q := StopProcCleanupTimer(pending[n]);
            pending := pending - {n};
          }
          txIndex := txIndex - {id};
        }
      }
    }

    /** The cleanup branch is modelled under the test that the source makes two lines too late. */
    method TimeOutEvent(t: TimerId, next: TimerId)
      returns (handled: bool, packet: Option<Packet>, report: Option<Report>, armed: map<TimerId, Interval>)
      requires !TimeOut(State(), t, next).undefined
      modifies this`txIndex, this`cleanup, this`retry, this`pending
      ensures var o := TimeOut(old(State()), t, next);
              State() == o.stack && handled == o.handled && packet == o.sent && report == o.report && armed == o.armed
    {
      handled, packet, report, armed := false, None, None, map[];
      if t in retry {
        var n := retry[t];
        retry := retry - {t};
        handled := true;
        if n in pending {
          var p := pending[n];
          if p.retryCount < n3 {
            var m := p.retryMsg.value;
            p := p.(retryCount := Bump(p.retryCount), retryTimer := NO_TIMER);
            p, armed := StartMsgRetryTimer(p, t3, m.sequenceNumber, next);
            packet := Some(Packet(WellKnown, p.peer, DumpMsg(m)));
            pending := pending[n := p.(retryMsg := Some(AfterMsg(m)))];
          } else {
            report := Some(Report(p.peer, p.localTeid, REMOTE_PEER_NOT_RESPONDING, p.txId));
            pending := pending - {n};
          }
        }
      } else if t in cleanup {
        var n := cleanup[t];
        cleanup := cleanup - {t};
        handled := true;
        if n in pending {
          txIndex := txIndex - {pending[n].txId};
          pending := pending - {n};
        }
      }
    }
  }
}
