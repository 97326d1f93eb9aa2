/** The transaction layer of the GTPv2-C stack: message types, sequence numbers, and what each
    handler makes of the four maps (section 7.6 of 3GPP TS 29.274). */
module Transactions {
  import opened Octets
  import opened Elements
  import opened Messages
  import opened Retransmission

  // ---- message types ----

  const CREATE_BEARER_REQUEST: byte := 95
  const UPDATE_BEARER_REQUEST: byte := 97
  const DELETE_BEARER_REQUEST: byte := 99
  const VERSION_NOT_SUPPORTED: byte := 3

  /** Messages that open a transaction. */
  predicate IsInitial(kind: byte) {
    kind in {1, 32, 34, 36, 38, 40, 64, 66, 68, 95, 97, 99, 101, 103, 128, 130, 133, 135, 137, 139,
             149, 153, 155, 158, 160, 162, 164, 166, 168, 170, 176, 179, 200, 211, 231, 233, 235}
  }

  /** Bearer requests, accepted as triggered by anything. */
  predicate IsBearerRequest(kind: byte) {
    kind == CREATE_BEARER_REQUEST || kind == UPDATE_BEARER_REQUEST || kind == DELETE_BEARER_REQUEST
  }

  /** Whether a message of type `triggered` may answer one of type `initial`. */
  predicate Triggers(initial: byte, triggered: byte) {
    || (if IsInitial(initial) then triggered == initial + 1 else triggered == VERSION_NOT_SUPPORTED)
    || IsBearerRequest(triggered)
  }

  /** The exchanges of the protocol by number, each request or command with its answer. */
  predicate Exchange(request: byte, answer: byte) {
    || (request == 1 && answer == 2) // Echo
    || (request == 32 && answer == 33) // Create Session
    || (request == 34 && answer == 35) // Modify Bearer
    || (request == 36 && answer == 37) // Delete Session
    || (request == 38 && answer == 39) // Change Notification
    || (request == 40 && answer == 41) // Remote UE Report
    || (request == 64 && answer == 65) // Modify Bearer Command
    || (request == 66 && answer == 67) // Delete Bearer Command
    || (request == 68 && answer == 69) // Bearer Resource Command
    || (request == 95 && answer == 96) // Create Bearer
    || (request == 97 && answer == 98) // Update Bearer
    || (request == 99 && answer == 100) // Delete Bearer
    || (request == 101 && answer == 102) // Delete PDN Connection Set
    || (request == 103 && answer == 104) // PGW Downlink Triggering
    || (request == 128 && answer == 129) // Identification
    || (request == 130 && answer == 131) // Context
    || (request == 133 && answer == 134) // Forward Relocation
    || (request == 135 && answer == 136) // Forward Relocation Complete
    || (request == 137 && answer == 138) // Forward Access Context
    || (request == 139 && answer == 140) // Relocation Cancel
    || (request == 149 && answer == 150) // Detach
    || (request == 153 && answer == 154) // Alert MME
    || (request == 155 && answer == 156) // UE Activity
    || (request == 158 && answer == 159) // UE Registration Query
    || (request == 160 && answer == 161) // Create Forwarding Tunnel
    || (request == 162 && answer == 163) // Suspend
    || (request == 164 && answer == 165) // Resume
    || (request == 166 && answer == 167) // Create Indirect Data Forwarding Tunnel
    || (request == 168 && answer == 169) // Delete Indirect Data Forwarding Tunnel
    || (request == 170 && answer == 171) // Release Access Bearers
    || (request == 176 && answer == 177) // Downlink Data Notification
    || (request == 179 && answer == 180) // PGW Restart
    || (request == 200 && answer == 201) // Update PDN Connection Set
    || (request == 211 && answer == 212) // Modify Access Bearers
    || (request == 231 && answer == 232) // MBMS Session Start
    || (request == 233 && answer == 234) // MBMS Session Update
    || (request == 235 && answer == 236) // MBMS Session Stop
  }

  /** The message types that open an exchange. */
  predicate Request(kind: byte) {
    kind < 255 && Exchange(kind, kind + 1)
  }

  /** What may answer a message of type `request`: the other half of its exchange or, for anything, a
      Create, Update or Delete Bearer Request; for what is no request, Version Not Supported. */
  predicate Answer(request: byte, kind: byte) {
    || Exchange(request, kind)
    || kind == 95 || kind == 97 || kind == 99
    || (kind == 3 && !Request(request))
  }

  /** The two switches are the protocol's table. */
  lemma SwitchesAreTable(initial: byte, triggered: byte)
    ensures IsInitial(initial) <==> Request(initial)
    ensures Triggers(initial, triggered) <==> Answer(initial, triggered)
  {
  }

  // ---- sequence numbers ----

  function NextSeqNum(n: u32): u32 {
    var m := (n + 1) % 0x1_0000_0000;
    if m >= 0x8000_0000 then 0 else m
  }

  function NthSeqNum(n: u32, k: nat): u32 {
    if k == 0 then n else NextSeqNum(NthSeqNum(n, k - 1))
  }

  /** The 24 bits that go on the wire. */
  function OnWire(n: u32): nat {
    n % 0x100_0000
  }

  lemma NextIsSuccessor(n: u32)
    requires n < 0x8000_0000
    ensures NextSeqNum(n) == (n + 1) % 0x8000_0000 < 0x8000_0000
    ensures OnWire(NextSeqNum(n)) == (OnWire(n) + 1) % 0x100_0000
  {
  }

  lemma {:induction false} NthOnWire(n: u32, k: nat)
    requires n < 0x8000_0000
    ensures NthSeqNum(n, k) < 0x8000_0000
    ensures NthSeqNum(n, k) == (n + k) % 0x8000_0000 && OnWire(NthSeqNum(n, k)) == (n + k) % 0x100_0000
  {
    if k > 0 {
      NthOnWire(n, k - 1);
      NextIsSuccessor(NthSeqNum(n, k - 1));
      OneMore(n + k - 1);
    }
  }

  lemma OneMore(n: nat)
    ensures (n % 0x8000_0000 + 1) % 0x8000_0000 == (n + 1) % 0x8000_0000
    ensures (n % 0x100_0000 + 1) % 0x100_0000 == (n + 1) % 0x100_0000
  {
  }

  /** Any 2^24 consecutive sends carry different numbers on the wire, and one more repeats the first. */
  lemma DistinctOnWire(n: u32, i: nat, j: nat)
    requires n < 0x8000_0000 && i < j <= i + 0x100_0000
    ensures OnWire(NthSeqNum(n, i)) == OnWire(NthSeqNum(n, j)) <==> j == i + 0x100_0000
  {
    NthOnWire(n, i);
    NthOnWire(n, j);
    SameResidue(n + i, n + j);
  }

  lemma SameResidue(a: nat, b: nat)
    requires a < b <= a + 0x100_0000
    ensures a % 0x100_0000 == b % 0x100_0000 <==> b == a + 0x100_0000
  {
    var qa, qb := a / 0x100_0000, b / 0x100_0000;
    if a % 0x100_0000 == b % 0x100_0000 {
      assert b - a == 0x100_0000 * (qb - qa);
    }
  }

  // ---- the state of the stack ----

  type TimerId = nat
  const NO_TIMER: TimerId := 0

  /** A message whose elements can be written. */
  type Outgoing = m: Msg | DumpableAll(m.ies) witness NewMsg(0)

  datatype Procedure = Procedure(retryMsg: Option<Outgoing>, peer: nat, localTeid: u32, retryTimer: TimerId,
                                 cleanupTimer: TimerId, txId: nat, initialType: byte, triggeredType: byte,
                                 retryCount: byte)

  datatype Stack = Stack(t3: u32, n3: u32, seqNum: u32, txIndex: map<nat, nat>, cleanup: map<TimerId, nat>,
                         retry: map<TimerId, nat>, pending: map<nat, Procedure>)

  /** A timer set-up as the timer service takes it. */
  datatype Interval = Interval(seconds: nat, microseconds: nat)

  datatype Report = Report(peer: nat, teid: u32, cause: byte, txId: nat)

  const REMOTE_PEER_NOT_RESPONDING: byte := 100

  /** Requests leave from a port of their own; their retransmissions and all answers from the well-known
      port. */
  datatype Port = Allocated | WellKnown

  datatype Packet = Packet(port: Port, peer: nat, octets: bytes)

  /** What one call of a handler does. */
  datatype Outcome = Outcome(stack: Stack, error: bool := false, handled: bool := false, txId: nat := 0,
                             sent: Option<Packet> := None, report: Option<Report> := None,
                             armed: map<TimerId, Interval> := map[], stopped: set<TimerId> := {},
                             freed: set<nat> := {}, undefined: bool := false)

  /** Insertion that leaves an existing entry alone. */
  function Insert<K, V>(m: map<K, V>, k: K, v: V): map<K, V> {
    if k in m then m else m[k := v]
  }

  function Split(ms: u32): Interval {
    Interval(ms / 1000, ms % 1000 * 1000)
  }

  function Span(i: Interval): nat {
    i.seconds * 1_000_000 + i.microseconds
  }

  /** The split into seconds and microseconds loses nothing. */
  lemma SplitIsLossless(ms: u32)
    ensures Span(Split(ms)) == ms * 1000 && Split(ms).microseconds < 1_000_000
  {
  }

  /** How long a procedure may stay, in the source's 32-bit arithmetic. */
  function ProcTimeOut(t3: u32, n3: u32): u32 {
    Wrap32(t3 * Wrap32(n3 + 2))
  }

  function Wrap32(n: nat): (r: u32)
    ensures n < 0x1_0000_0000 ==> r == n
  {
    n % 0x1_0000_0000
  }

  function Armed(t: TimerId, ms: u32): map<TimerId, Interval> {
    if t == NO_TIMER then map[] else map[t := Split(ms)]
  }

  // ---- the handlers ----

  function NewRequest(kind: byte, id: nat, t: TimerId): Procedure {
    Procedure(None, 0, 0, NO_TIMER, t, id, kind, 0, 0)
  }

  /** `handle_receive_message_cb`; id and t are what the id generator and the timer service return. */
  function Receive(s: Stack, seqNum: nat, kind: byte, id: nat, t: TimerId): (o: Outcome)
    ensures o.stack.t3 == s.t3 && o.stack.n3 == s.n3
    ensures o.error ==> o == Outcome(s, error := true)
    ensures !o.error && seqNum in s.pending ==>
              && seqNum !in o.stack.pending && o.txId == s.pending[seqNum].txId && o.freed == {o.txId}
              && forall t :: t in o.stopped <==>
                   t == s.pending[seqNum].cleanupTimer || (t == s.pending[seqNum].retryTimer && t != NO_TIMER)
    ensures !o.error && seqNum !in s.pending ==>
              && o.txId == id && seqNum in o.stack.pending && o.stack.pending[seqNum].txId == id
              && id in o.stack.txIndex && (id !in s.txIndex ==> o.stack.txIndex[id] == seqNum)
  {
    if seqNum !in s.pending then
      if !IsInitial(kind) then Outcome(s, error := true)
      else
        Outcome(s.(cleanup := Insert(s.cleanup, t, seqNum),
                   pending := Insert(s.pending, seqNum, NewRequest(kind, id, t)),
                   txIndex := Insert(s.txIndex, id, seqNum)),
                txId := id, armed := Armed(t, ProcTimeOut(s.t3, s.n3)))
    else
      var p := s.pending[seqNum];
      if !Triggers(if p.triggeredType == 0 then p.initialType else p.triggeredType, kind) then
        Outcome(s, error := true)
      else
        Outcome(s.(retry := s.retry - TimersOf(p), txIndex := s.txIndex - {p.txId}, pending := s.pending - {seqNum}),
                txId := p.txId, freed := {p.txId}, stopped := TimersOf(p))
  }

  /** The timers a procedure holds. */
  function TimersOf(p: Procedure): set<TimerId> {
    if p.retryTimer == NO_TIMER then {p.cleanupTimer} else {p.cleanupTimer, p.retryTimer}
  }

  function NewSend(m: Outgoing, peer: nat, teid: u32, id: nat, t: TimerId, c: TimerId): Procedure {
    Procedure(Some(AfterMsg(m)), peer, teid, t, c, id, m.messageType, 0, 0)
  }

  /** A message under the next sequence number. */
  function Numbered(s: Stack, m: Outgoing): (r: Outgoing)
    ensures r.sequenceNumber == OnWire(NextSeqNum(s.seqNum))
  {
    SetSequenceNumber(m, NextSeqNum(s.seqNum))
  }

  /** `send_initial_message`; t and c are the retry and cleanup timers. */
  function SendInitial(s: Stack, msg: Outgoing, peer: nat, teid: u32, id: nat, t: TimerId, c: TimerId): (o: Outcome)
    ensures o.stack.t3 == s.t3 && o.stack.n3 == s.n3
  {
    var m := Numbered(s, msg);
    var n := m.sequenceNumber;
    Outcome(s.(seqNum := NextSeqNum(s.seqNum),
               retry := if t == NO_TIMER then s.retry else Insert(s.retry, t, n),
               cleanup := Insert(s.cleanup, c, n),
               pending := Insert(s.pending, n, NewSend(m, peer, teid, id, t, c)),
               txIndex := Insert(s.txIndex, id, n)),
            sent := Some(Packet(Allocated, peer, DumpMsg(m))), txId := id,
            armed := Armed(t, s.t3) + Armed(c, ProcTimeOut(s.t3, s.n3)))
  }

  /** `send_triggered_message`. */
  function SendTriggered(s: Stack, msg: Outgoing, peer: nat, id: nat, deleteTx: bool): (o: Outcome)
    ensures o.stack.t3 == s.t3 && o.stack.n3 == s.n3
    ensures id !in s.txIndex ==> o == Outcome(s)
    ensures id in s.txIndex && deleteTx ==> id !in o.stack.txIndex && s.txIndex[id] !in o.stack.pending
    ensures id in s.txIndex && deleteTx && s.txIndex[id] in s.pending ==>
              o.stopped == {s.pending[s.txIndex[id]].cleanupTimer} && o.freed == {id}
  {
    if id !in s.txIndex then Outcome(s)
    else
      var n := s.txIndex[id];
      var sent := Some(Packet(WellKnown, peer, DumpMsg(SetSequenceNumber(msg, n))));
      if !deleteTx then Outcome(s, sent := sent)
      else if n !in s.pending then Outcome(s.(txIndex := s.txIndex - {id}), sent := sent)
      else
        Outcome(s.(txIndex := s.txIndex - {id}, pending := s.pending - {n},
                   retry := s.retry - {s.pending[n].cleanupTimer}),
                sent := sent, freed := {id}, stopped := {s.pending[n].cleanupTimer})
  }

  /** The 8-bit retry counter, one up. */
  function Bump(n: byte): (r: byte)
    ensures if n == 255 then r == 0 else r == n + 1
  {
    (n + 1) % 256
  }

  /** A retry timer expired for the procedure p under number n; t is the next retry timer. */
  function Retry(s: Stack, n: nat, p: Procedure, t: TimerId): (o: Outcome)
    requires n in s.pending
    ensures o.stack.t3 == s.t3 && o.stack.n3 == s.n3
  {
    if p.retryCount < s.n3 then
      if p.retryMsg.None? then Outcome(s, handled := true, undefined := true)
      else
        var m := p.retryMsg.value;
        Outcome(s.(retry := if t == NO_TIMER then s.retry else Insert(s.retry, t, m.sequenceNumber),
                   pending := s.pending[n := p.(retryCount := Bump(p.retryCount), retryTimer := t,
                                               retryMsg := Some(AfterMsg(m)))]),
                handled := true, sent := Some(Packet(WellKnown, p.peer, DumpMsg(m))), armed := Armed(t, s.t3))
    else
      Outcome(s.(pending := s.pending - {n}), handled := true,
              report := Some(Report(p.peer, p.localTeid, REMOTE_PEER_NOT_RESPONDING, p.txId)))
  }

  /** `time_out_event`; next is what the timer service would return for a new retry timer. */
  function TimeOut(s: Stack, t: TimerId, next: TimerId): (o: Outcome)
    ensures o.stack.t3 == s.t3 && o.stack.n3 == s.n3
    ensures o.stack.cleanup.Keys <= s.cleanup.Keys && o.armed.Keys <= {next}
    ensures o.handled <==> t in s.retry || t in s.cleanup
    ensures o.undefined ==> t in s.retry && s.retry[t] in s.pending && s.pending[s.retry[t]].retryMsg.None?
  {
    if t in s.retry then
      var n, s' := s.retry[t], s.(retry := s.retry - {t});
      if n in s.pending then Retry(s', n, s.pending[n], next) else Outcome(s', handled := true)
    else if t in s.cleanup then
      var n, s' := s.cleanup[t], s.(cleanup := s.cleanup - {t});
      if n in s.pending then
        Outcome(s'.(txIndex := s.txIndex - {s.pending[n].txId}, pending := s.pending - {n}),
                handled := true, freed := {s.pending[n].txId})
      else Outcome(s', handled := true)
    else Outcome(s)
  }

  // ---- which messages are accepted ----

  /** With no procedure under its number a message is accepted if and only if it is a request. */
  lemma AcceptsRequests(s: Stack, n: nat, kind: byte, id: nat, t: TimerId)
    requires n !in s.pending
    ensures !Receive(s, n, kind, id, t).error <==> Request(kind)
  {
    SwitchesAreTable(kind, 0);
  }

  /** A message under the number of a pending request is accepted if and only if its type is the next one
      or that of a bearer request. */
  lemma AcceptsAnswers(s: Stack, n: nat, kind: byte, id: nat, t: TimerId)
    requires n in s.pending && s.pending[n].triggeredType == 0 && Request(s.pending[n].initialType)
    ensures !Receive(s, n, kind, id, t).error
       <==> kind == s.pending[n].initialType + 1 || kind == 95 || kind == 97 || kind == 99
  {
    SwitchesAreTable(s.pending[n].initialType, kind);
  }

  /** While a request is pending, another message of the same type under its number is an error that
      changes nothing, for every type but the three bearer requests. */
  lemma DuplicateSuppression(s: Stack, n: nat, id: nat, t: TimerId)
    requires n in s.pending && s.pending[n].triggeredType == 0 && Request(s.pending[n].initialType)
    ensures var kind := s.pending[n].initialType;
            && (Receive(s, n, kind, id, t) == Outcome(s, error := true) <==> kind != 95 && kind != 97 && kind != 99)
            && (Receive(s, n, kind, id, t).error <==> kind != 95 && kind != 97 && kind != 99)
  {
    AcceptsAnswers(s, n, s.pending[n].initialType, id, t);
  }
}
