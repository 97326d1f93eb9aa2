/** The timer service of the middleware: a set of timers ordered by deadline, a slot for the one in
    hand that removers share with the manager thread, and the manager's loop in lock-sized steps. */
module Timers {
  import Queues

  datatype Timer = Timer(id: nat, due: nat)

  const NO_ID: nat := 0

  /** Where the manager thread is: about to pick, holding a timer it has not looked at, about to wait,
      waiting until an instant, about to read the slot for a time-out, about to send the time-out it has
      read, or woken early and about to put the timer back. */
  datatype Phase = Idle | Picked | ToWait | Waiting(until: nat) | Signalling | Sending(id: nat) | Woken

  /** Issued: the id is taken and the timer not yet in the set; InFlight: its time-out is being sent. */
  datatype Fate = Issued | Queued | InHand | InFlight | Fired | Cancelled | Lost

  /** A successful removal notes whether the time-out was already being sent. */
  datatype Entry = WasFired(id: nat, at: nat) | WasRemoved(id: nat, late: bool)

  /** entering: timers on their way into the set; waiting: the ordered set; never: the deadline of the null
      timer; due, fate and log: what was set up for each id, what became of it, and the time-outs sent
      and removals that succeeded, in order. */
  datatype Service = Service(entering: set<Timer>, waiting: seq<Timer>, current: Timer, lastId: nat, phase: Phase,
                             now: nat, never: nat, due: map<nat, nat>, fate: map<nat, Fate>, log: seq<Entry>)

  predicate Ordered(s: seq<Timer>) {
    forall i, j :: 0 <= i < j < |s| ==> s[i].due < s[j].due
  }

  /** Where a deadline belongs: the number of timers due before it. */
  function Position(s: seq<Timer>, due: nat): (k: nat)
    ensures k <= |s|
    ensures forall i :: 0 <= i < k ==> s[i].due < due
    ensures k < |s| ==> s[k].due >= due
  {
    if s == [] || s[0].due >= due then 0 else 1 + Position(s[1..], due)
  }

  /** Insertion into a set whose elements compare by deadline alone: an equal deadline is kept out. */
  predicate Clashes(s: seq<Timer>, due: nat) {
    exists i :: 0 <= i < |s| && s[i].due == due
  }

  function Inserted(s: seq<Timer>, t: Timer): seq<Timer> {
    var k := Position(s, t.due);
    if k < |s| && s[k].due == t.due then s else s[..k] + [t] + s[k..]
  }

  lemma Spliced(s: seq<Timer>, k: nat, t: Timer, d: seq<Timer>)
    requires Ordered(s) && k <= |s| && d == s[..k] + [t] + s[k..]
    requires (forall i :: 0 <= i < k ==> s[i].due < t.due) && (k < |s| ==> t.due < s[k].due)
    ensures Ordered(d) && !Clashes(s, t.due)
    ensures forall u :: u in d <==> u == t || u in s
  {
    assert s == s[..k] + s[k..];
  }

  lemma InsertedHolds(s: seq<Timer>, t: Timer)
    requires Ordered(s)
    ensures Ordered(Inserted(s, t))
    ensures Clashes(s, t.due) ==> Inserted(s, t) == s
    ensures !Clashes(s, t.due) ==> forall u :: u in Inserted(s, t) <==> u == t || u in s
  {
    var k := Position(s, t.due);
    if k == |s| || s[k].due != t.due {
      Spliced(s, k, t, Inserted(s, t));
    } else {
      assert Clashes(s, t.due);
    }
  }

  /** The first place of an id, or the length. */
  function IndexOf(s: seq<Timer>, id: nat): (k: nat)
    ensures k <= |s|
    ensures forall i :: 0 <= i < k ==> s[i].id != id
    ensures k < |s| ==> s[k].id == id
  {
    if s == [] || s[0].id == id then 0 else 1 + IndexOf(s[1..], id)
  }

  /** The set without the timer of an id. */
  function Without(s: seq<Timer>, id: nat): seq<Timer> {
    var k := IndexOf(s, id);
    if k == |s| then s else s[..k] + s[k + 1..]
  }

  predicate Holds(s: seq<Timer>, id: nat) {
    IndexOf(s, id) < |s|
  }

  lemma HoldsMeans(s: seq<Timer>, id: nat)
    ensures Holds(s, id) <==> exists t :: t in s && t.id == id
  {
    var k := IndexOf(s, id);
    if k < |s| {
      assert s[k] in s && s[k].id == id;
    }
  }

  lemma Dropped(s: seq<Timer>, k: nat, d: seq<Timer>)
    requires Ordered(s) && k < |s| && d == s[..k] + s[k + 1..]
    ensures Ordered(d) && forall u :: u in d <==> u in s && u != s[k]
  {
    assert s == s[..k] + [s[k]] + s[k + 1..];
    forall u | u in d ensures u != s[k] {
      var i :| 0 <= i < |d| && d[i] == u;
      assert u == if i < k then s[i] else s[i + 1];
    }
  }

  // ---- the steps ----

  datatype Move =
    | Issue(due: nat)
    | Enter(t: Timer)
    | Remove(id: nat)
    | Pick
    | Check
    | Wait
    | TimesOut
    | IsNotified
    | PutBack
    | Compose
    | Deliver
    | Passes(d: nat)

  function Null(s: Service): Timer {
    Timer(NO_ID, s.never)
  }

  predicate Enabled(s: Service, m: Move) {
    match m
    case Enter(t) => t in s.entering
    case Pick => s.phase.Idle? && s.waiting != []
    case Check => s.phase.Picked?
    case Wait => s.phase.ToWait?
    case TimesOut => s.phase.Waiting? && s.phase.until <= s.now
    case IsNotified => s.phase.Waiting?
    case PutBack => s.phase.Woken?
    case Compose => s.phase.Signalling?
    case Deliver => s.phase.Sending?
    case _ => true
  }

  /** What `timer_remove` answers. */
  predicate Removes(s: Service, id: nat) {
    s.current.id == id || Holds(s.waiting, id)
  }

  function Marked(s: Service, id: nat, f: Fate): map<nat, Fate> {
    if id == NO_ID then s.fate else s.fate[id := f]
  }

  /** Removing the timer in the slot cancels it, unless it has fired or its time-out is being sent. */
  function DoRemove(s: Service, id: nat): Service {
    if s.current.id == id then
      s.(current := Null(s), log := s.log + [WasRemoved(id, s.phase == Sending(id))],
         fate := if s.phase.Idle? || s.phase.Sending? then s.fate else Marked(s, id, Cancelled))
    else if Holds(s.waiting, id) then
      s.(waiting := Without(s.waiting, id), log := s.log + [WasRemoved(id, false)], fate := Marked(s, id, Cancelled))
    else s
  }

  function DoIssue(s: Service, due: nat): Service {
    var t := Timer(s.lastId + 1, due);
    s.(lastId := t.id, due := s.due[t.id := due], entering := s.entering + {t}, fate := s.fate[t.id := Issued])
  }

  function DoEnter(s: Service, t: Timer): Service {
    s.(entering := s.entering - {t}, waiting := Inserted(s.waiting, t), fate := s.fate[t.id := Placed(s.waiting, t.due)])
  }

  /** What becomes of a timer that is put into the set. */
  function Placed(waiting: seq<Timer>, due: nat): Fate {
    if Clashes(waiting, due) then Lost else Queued
  }

  function DoPutBack(s: Service): Service {
    if s.current.id == NO_ID then s.(current := Null(s), phase := Idle)
    else
      s.(waiting := Inserted(s.waiting, s.current), current := Null(s), phase := Idle,
         fate := s.fate[s.current.id := Placed(s.waiting, s.current.due)])
  }

  function Next(s: Service, m: Move): Service
    requires Enabled(s, m)
  {
    match m
    case Issue(due) => DoIssue(s, due)
    case Enter(t) => DoEnter(s, t)
    case Remove(id) => DoRemove(s, id)
    case Pick =>
      s.(current := s.waiting[0], waiting := s.waiting[1..], phase := Picked, fate := Marked(s, s.waiting[0].id, InHand))
    case Check => s.(phase := if s.current.due > s.now then ToWait else Signalling)
    case Wait => s.(phase := Waiting(if s.current.due > s.now then s.current.due else s.now))
    case TimesOut => s.(phase := Signalling)
    case IsNotified => s.(phase := Woken)
    case PutBack => DoPutBack(s)
    case Compose => s.(phase := Sending(s.current.id), fate := Marked(s, s.current.id, InFlight))
    case Deliver =>
      s.(phase := Idle, log := s.log + [WasFired(s.phase.id, s.now)], fate := Marked(s, s.phase.id, Fired))
    case Passes(d) => s.(now := s.now + d)
  }

  predicate PossibleRun(s: Service, moves: seq<Move>)
    decreases |moves|
  {
    moves == [] || (Enabled(s, moves[0]) && PossibleRun(Next(s, moves[0]), moves[1..]))
  }

  function Run(s: Service, moves: seq<Move>): Service
    requires PossibleRun(s, moves)
    decreases |moves|
  {
    if moves == [] then s else Run(Next(s, moves[0]), moves[1..])
  }

  function Initial(now: nat, never: nat): Service {
    Service({}, [], Timer(NO_ID, never), 0, Idle, now, never, map[], map[], [])
  }

  // ---- what every step keeps ----

  ghost predicate QueueInv(waiting: seq<Timer>, due: map<nat, nat>, fate: map<nat, Fate>) {
    && Ordered(waiting)
    && fate.Keys == due.Keys && NO_ID !in due
    && (forall t :: t in waiting ==> t.id in due && due[t.id] == t.due && fate[t.id] == Queued)
    && (forall id :: id in fate && fate[id] == Queued ==> Timer(id, due[id]) in waiting)
  }

  ghost predicate EnterInv(entering: set<Timer>, due: map<nat, nat>, fate: map<nat, Fate>) {
    && fate.Keys == due.Keys
    && (forall t :: t in entering ==> t.id in due && due[t.id] == t.due && fate[t.id] == Issued)
    && (forall id :: id in fate && fate[id] == Issued ==> Timer(id, due[id]) in entering)
  }

  /** The fate of the timer in the slot. */
  function SlotFate(p: Phase): Fate {
    if p.Idle? then Fired else if p.Sending? then InFlight else InHand
  }

  ghost predicate SlotInv(current: Timer, phase: Phase, now: nat, due: map<nat, nat>, fate: map<nat, Fate>) {
    && fate.Keys == due.Keys && NO_ID !in due
    && (current.id != NO_ID ==>
          current.id in due && due[current.id] == current.due && fate[current.id] == SlotFate(phase))
    && (forall id :: id in fate && fate[id] == InHand ==> id == current.id && !phase.Idle? && !phase.Sending?)
    && (forall id :: id in fate ==> (fate[id] == InFlight <==> phase == Sending(id)))
    && (current.id != NO_ID && phase.Signalling? ==> current.due <= now)
    && (current.id != NO_ID && phase.Waiting? ==> current.due <= phase.until)
    && (phase.Sending? && phase.id != NO_ID ==> phase.id in due && due[phase.id] <= now)
  }

  ghost predicate IdInv(s: Service) {
    forall id :: id in s.due <==> 1 <= id <= s.lastId
  }

  /** A timer is lost only to another with the same deadline. */
  ghost predicate LossInv(due: map<nat, nat>, fate: map<nat, Fate>) {
    && fate.Keys == due.Keys
    && forall id :: id in fate && fate[id] == Lost ==> exists other :: other in due && other != id && due[other] == due[id]
  }

  ghost predicate FiredIn(log: seq<Entry>, id: nat) {
    exists i :: 0 <= i < |log| && log[i].WasFired? && log[i].id == id
  }

  /** Removed before its time-out was being sent, or after it was sent. */
  ghost predicate RemovedIn(log: seq<Entry>, id: nat) {
    exists i :: 0 <= i < |log| && log[i] == WasRemoved(id, false)
  }

  ghost predicate RemovedLate(log: seq<Entry>, id: nat) {
    exists i :: 0 <= i < |log| && log[i] == WasRemoved(id, true)
  }

  /** The log agrees with the fates. */
  ghost predicate LogInv(log: seq<Entry>, fate: map<nat, Fate>) {
    forall id :: id in fate ==>
      && (FiredIn(log, id) <==> fate[id] == Fired)
      && (RemovedIn(log, id) ==> fate[id] == Fired || fate[id] == Cancelled)
      && (fate[id] == Cancelled ==> RemovedIn(log, id))
      && (RemovedLate(log, id) ==> fate[id] == Fired || fate[id] == InFlight)
  }

  /** No timer fires twice or early, and none fires after a removal that was not too late. */
  ghost predicate GoodLog(log: seq<Entry>, due: map<nat, nat>) {
    && (forall i :: 0 <= i < |log| && log[i].id != NO_ID ==>
          log[i].id in due && (log[i].WasFired? ==> due[log[i].id] <= log[i].at))
    && (forall i, j :: 0 <= i < j < |log| && log[j].WasFired? && log[j].id != NO_ID && log[i].id == log[j].id ==>
          log[i].WasRemoved? && log[i].late)
  }

  ghost predicate FiresAfter(log: seq<Entry>, i: nat, id: nat) {
    exists j :: i < j < |log| && log[j].WasFired? && log[j].id == id
  }

  /** A removal that was too late is followed by its time-out, or that is still being sent. */
  ghost predicate LateInv(log: seq<Entry>, phase: Phase) {
    forall i :: 0 <= i < |log| && log[i].id != NO_ID && log[i].WasRemoved? && log[i].late ==>
      phase == Sending(log[i].id) || FiresAfter(log, i, log[i].id)
  }

  ghost predicate Inv(s: Service) {
    && QueueInv(s.waiting, s.due, s.fate) && EnterInv(s.entering, s.due, s.fate)
    && SlotInv(s.current, s.phase, s.now, s.due, s.fate) && IdInv(s)
    && LossInv(s.due, s.fate) && LogInv(s.log, s.fate) && GoodLog(s.log, s.due) && LateInv(s.log, s.phase)
  }

  // ---- logs, one entry at a time ----

  lemma Logged(log: seq<Entry>, e: Entry, id: nat)
    ensures FiredIn(log + [e], id) <==> FiredIn(log, id) || (e.WasFired? && e.id == id)
    ensures RemovedIn(log + [e], id) <==> RemovedIn(log, id) || e == WasRemoved(id, false)
    ensures RemovedLate(log + [e], id) <==> RemovedLate(log, id) || e == WasRemoved(id, true)
  {
    var l := log + [e];
    assert l[|log|] == e;
    assert forall i :: 0 <= i < |log| ==> l[i] == log[i];
  }

  lemma InLog(log: seq<Entry>, i: nat)
    requires i < |log|
    ensures FiredIn(log, log[i].id) || RemovedIn(log, log[i].id) || RemovedLate(log, log[i].id)
    ensures log[i].WasFired? ==> FiredIn(log, log[i].id)
    ensures log[i].WasRemoved? ==> if log[i].late then RemovedLate(log, log[i].id) else RemovedIn(log, log[i].id)
  {
  }

  /** The fate of one id changes to one that the log says nothing about. */
  lemma SameLog(log: seq<Entry>, fate: map<nat, Fate>, fate': map<nat, Fate>, id: nat)
    requires LogInv(log, fate) && fate'.Keys == fate.Keys + {id} && NO_ID !in fate'
    requires forall x :: x in fate && x != id ==> fate'[x] == fate[x]
    requires if id in fate then fate[id] == Issued || fate[id] == Queued || fate[id] == InHand
             else !FiredIn(log, id) && !RemovedIn(log, id) && !RemovedLate(log, id)
    requires fate'[id] != Fired && fate'[id] != Cancelled
    ensures LogInv(log, fate')
  {
  }

  /** One more entry, about id, whose fate it settles. */
  lemma Append(log: seq<Entry>, fate: map<nat, Fate>, fate': map<nat, Fate>, e: Entry, id: nat)
    requires LogInv(log, fate) && id == e.id && fate'.Keys == fate.Keys
    requires forall x :: x in fate && x != id ==> fate'[x] == fate[x]
    requires id in fate ==>
               if e.WasFired? then fate[id] == InFlight && fate'[id] == Fired
               else if e.late then fate[id] == InFlight && fate'[id] == InFlight
               else if fate[id] == Fired then fate'[id] == Fired
               else fate[id] != InFlight && fate'[id] == Cancelled
    ensures LogInv(log + [e], fate')
  {
    forall x | x in fate'
      ensures (FiredIn(log + [e], x) <==> fate'[x] == Fired)
      ensures RemovedIn(log + [e], x) ==> fate'[x] == Fired || fate'[x] == Cancelled
      ensures fate'[x] == Cancelled ==> RemovedIn(log + [e], x)
      ensures RemovedLate(log + [e], x) ==> fate'[x] == Fired || fate'[x] == InFlight
    {
      Logged(log, e, x);
    }
  }

  lemma AppendGood(log: seq<Entry>, due: map<nat, nat>, fate: map<nat, Fate>, e: Entry)
    requires GoodLog(log, due) && LogInv(log, fate) && fate.Keys == due.Keys && NO_ID !in due
    requires e.id != NO_ID ==> e.id in due
    requires e.id != NO_ID && e.WasFired? ==> due[e.id] <= e.at && fate[e.id] == InFlight
    ensures GoodLog(log + [e], due)
  {
    if e.id != NO_ID && e.WasFired? {
      forall i | 0 <= i < |log| && log[i].id == e.id ensures log[i].WasRemoved? && log[i].late {
        InLog(log, i);
      }
    }
  }

  lemma StillAfter(log: seq<Entry>, e: Entry, i: nat, id: nat)
    requires FiresAfter(log, i, id)
    ensures FiresAfter(log + [e], i, id)
  {
    var j :| i < j < |log| && log[j].WasFired? && log[j].id == id;
    assert (log + [e])[j] == log[j];
  }

  /** A new entry and a new phase: late removals still in flight either stay so or are answered by it. */
  lemma AppendLate(log: seq<Entry>, phase: Phase, e: Entry, phase': Phase)
    requires LateInv(log, phase)
    requires phase' == phase || !phase.Sending? || (e.WasFired? && e.id == phase.id)
    requires e.WasRemoved? && e.late ==> phase' == Sending(e.id)
    ensures LateInv(log + [e], phase')
  {
    var l := log + [e];
    forall i | 0 <= i < |l| && l[i].id != NO_ID && l[i].WasRemoved? && l[i].late
      ensures phase' == Sending(l[i].id) || FiresAfter(l, i, l[i].id)
    {
      if i < |log| {
        assert l[i] == log[i];
        if FiresAfter(log, i, log[i].id) {
          StillAfter(log, e, i, log[i].id);
        } else if phase' != phase {
          assert l[|log|] == e;
        }
      }
    }
  }

  /** The phase leaves or enters `Sending` with no removal in between. */
  lemma SameLate(log: seq<Entry>, phase: Phase, phase': Phase)
    requires LateInv(log, phase) && (phase.Sending? ==> phase' == phase)
    ensures LateInv(log, phase')
  {
  }

  // ---- fates, one timer at a time ----

  lemma SameLoss(due: map<nat, nat>, fate: map<nat, Fate>, fate': map<nat, Fate>, id: nat)
    requires LossInv(due, fate) && fate'.Keys == fate.Keys
    requires forall x :: x in fate && x != id ==> fate'[x] == fate[x]
    requires id in fate ==> fate'[id] != Lost
    ensures LossInv(due, fate')
  {
  }

  /** A timer put into the set is lost only where one with its deadline waits. */
  lemma PlacedLoss(waiting: seq<Timer>, due: map<nat, nat>, fate: map<nat, Fate>, t: Timer, f: Fate)
    requires QueueInv(waiting, due, fate) && LossInv(due, fate) && t.id in due && due[t.id] == t.due && fate[t.id] != Queued
    requires f == Placed(waiting, t.due)
    ensures LossInv(due, fate[t.id := f])
  {
    if f == Lost {
      var i :| 0 <= i < |waiting| && waiting[i].due == t.due;
      assert waiting[i] in waiting;
      assert waiting[i].id in due && waiting[i].id != t.id && due[waiting[i].id] == due[t.id];
    }
  }

  lemma AddQueue(waiting: seq<Timer>, due: map<nat, nat>, fate: map<nat, Fate>, d: seq<Timer>, t: Timer)
    requires QueueInv(waiting, due, fate) && t.id in due && due[t.id] == t.due && fate[t.id] != Queued
    requires Ordered(d) && forall u :: u in d <==> u == t || u in waiting
    ensures QueueInv(d, due, fate[t.id := Queued])
  {
  }

  lemma PlacedQueue(waiting: seq<Timer>, due: map<nat, nat>, fate: map<nat, Fate>, t: Timer, f: Fate)
    requires QueueInv(waiting, due, fate) && t.id in due && due[t.id] == t.due && fate[t.id] != Queued
    requires f == Placed(waiting, t.due)
    ensures QueueInv(Inserted(waiting, t), due, fate[t.id := f])
  {
    InsertedHolds(waiting, t);
    if f == Queued {
      AddQueue(waiting, due, fate, Inserted(waiting, t), t);
    }
  }

  lemma DropQueue(waiting: seq<Timer>, due: map<nat, nat>, fate: map<nat, Fate>, d: seq<Timer>, t: Timer, f: Fate)
    requires QueueInv(waiting, due, fate) && t in waiting && f != Queued
    requires Ordered(d) && forall u :: u in d <==> u in waiting && u != t
    ensures QueueInv(d, due, fate[t.id := f])
  {
  }

  lemma TakenOut(s: Service, k: nat, d: seq<Timer>, f: Fate)
    requires QueueInv(s.waiting, s.due, s.fate) && k < |s.waiting| && f != Queued
    requires d == s.waiting[..k] + s.waiting[k + 1..]
    ensures var t := s.waiting[k];
            && t.id in s.fate && s.fate[t.id] == Queued && s.due[t.id] == t.due && QueueInv(d, s.due, s.fate[t.id := f])
  {
    assert s.waiting[k] in s.waiting;
    Dropped(s.waiting, k, d);
    DropQueue(s.waiting, s.due, s.fate, d, s.waiting[k], f);
  }

  /** A fate changes that concerns neither the set nor those on their way into it. */
  lemma OtherFate(s: Service, id: nat, f: Fate)
    requires QueueInv(s.waiting, s.due, s.fate) && EnterInv(s.entering, s.due, s.fate) && id in s.fate
    requires s.fate[id] != Queued && s.fate[id] != Issued && f != Queued && f != Issued
    ensures QueueInv(s.waiting, s.due, s.fate[id := f]) && EnterInv(s.entering, s.due, s.fate[id := f])
  {
  }

  lemma EnterOther(entering: set<Timer>, due: map<nat, nat>, fate: map<nat, Fate>, id: nat, f: Fate)
    requires EnterInv(entering, due, fate) && id in fate && fate[id] != Issued && f != Issued
    ensures EnterInv(entering, due, fate[id := f])
  {
  }

  // ---- every step keeps the invariants ----

  lemma IssueKeeps(s: Service, due: nat)
    requires Inv(s)
    ensures Inv(DoIssue(s, due))
  {
    var id := s.lastId + 1;
    NotLogged(s, id);
    SameLog(s.log, s.fate, s.fate[id := Issued], id);
    IssueLoss(s, id, due);
    IssueQueue(s, id, due);
    IssueSlot(s, id, due);
    IssueLog(s, id, due);
    Assembled(DoIssue(s, due));
  }

  lemma IssueLog(s: Service, id: nat, due: nat)
    requires GoodLog(s.log, s.due) && IdInv(s) && id == s.lastId + 1
    ensures GoodLog(s.log, s.due[id := due]) && IdInv(DoIssue(s, due))
  {
  }

  lemma Assembled(s: Service)
    requires QueueInv(s.waiting, s.due, s.fate) && EnterInv(s.entering, s.due, s.fate)
    requires SlotInv(s.current, s.phase, s.now, s.due, s.fate) && IdInv(s)
    requires LossInv(s.due, s.fate) && LogInv(s.log, s.fate) && GoodLog(s.log, s.due) && LateInv(s.log, s.phase)
    ensures Inv(s)
  {
  }

  lemma IssueQueue(s: Service, id: nat, due: nat)
    requires QueueInv(s.waiting, s.due, s.fate) && EnterInv(s.entering, s.due, s.fate) && id !in s.due && id != NO_ID
    ensures QueueInv(s.waiting, s.due[id := due], s.fate[id := Issued])
    ensures EnterInv(s.entering + {Timer(id, due)}, s.due[id := due], s.fate[id := Issued])
  {
  }

  lemma IssueSlot(s: Service, id: nat, due: nat)
    requires SlotInv(s.current, s.phase, s.now, s.due, s.fate) && id !in s.due && id != NO_ID
    ensures SlotInv(s.current, s.phase, s.now, s.due[id := due], s.fate[id := Issued])
  {
  }

  lemma NotLogged(s: Service, id: nat)
    requires GoodLog(s.log, s.due) && id !in s.due && id != NO_ID
    ensures !FiredIn(s.log, id) && !RemovedIn(s.log, id) && !RemovedLate(s.log, id)
  {
  }

  lemma IssueLoss(s: Service, id: nat, due: nat)
    requires LossInv(s.due, s.fate) && id !in s.due
    ensures LossInv(s.due[id := due], s.fate[id := Issued])
  {
    var due', fate' := s.due[id := due], s.fate[id := Issued];
    forall x | x in fate' && fate'[x] == Lost
      ensures exists other :: other in due' && other != x && due'[other] == due'[x]
    {
      var other :| other in s.due && other != x && s.due[other] == s.due[x];
      assert due'[other] == due'[x];
    }
  }

  lemma EnterKeeps(s: Service, t: Timer)
    requires Inv(s) && t in s.entering
    ensures Inv(DoEnter(s, t))
  {
    var f := Placed(s.waiting, t.due);
    PlacedQueue(s.waiting, s.due, s.fate, t, f);
    PlacedLoss(s.waiting, s.due, s.fate, t, f);
    SameLog(s.log, s.fate, s.fate[t.id := f], t.id);
  }

  /** Removing the timer in the slot. */
  lemma RemoveCurrent(s: Service, id: nat)
    requires Inv(s) && s.current.id == id
    ensures Inv(DoRemove(s, id))
  {
    var s', e := DoRemove(s, id), WasRemoved(id, s.phase == Sending(id));
    if s'.fate != s.fate {
      OtherFate(s, id, Cancelled);
      SameLoss(s.due, s.fate, s'.fate, id);
    }
    Append(s.log, s.fate, s'.fate, e, id);
    AppendGood(s.log, s.due, s.fate, e);
    AppendLate(s.log, s.phase, e, s.phase);
  }

  lemma RemoveWaiting(s: Service, id: nat)
    requires Inv(s) && s.current.id != id && Holds(s.waiting, id)
    ensures Inv(DoRemove(s, id))
  {
    var fate', e := s.fate[id := Cancelled], WasRemoved(id, false);
    TakenOut(s, IndexOf(s.waiting, id), Without(s.waiting, id), Cancelled);
    EnterOther(s.entering, s.due, s.fate, id, Cancelled);
    SameLoss(s.due, s.fate, fate', id);
    Append(s.log, s.fate, fate', e, id);
    AppendGood(s.log, s.due, s.fate, e);
    AppendLate(s.log, s.phase, e, s.phase);
  }

  lemma RemoveKeeps(s: Service, id: nat)
    requires Inv(s)
    ensures Inv(DoRemove(s, id))
  {
    if s.current.id == id {
      RemoveCurrent(s, id);
    } else if Holds(s.waiting, id) {
      RemoveWaiting(s, id);
    }
  }

  lemma PickFate(s: Service, t: Timer, fate': map<nat, Fate>)
    requires LossInv(s.due, s.fate) && LogInv(s.log, s.fate) && EnterInv(s.entering, s.due, s.fate) && NO_ID !in s.due
    requires t.id in s.fate && s.fate[t.id] == Queued && fate' == s.fate[t.id := InHand]
    ensures LossInv(s.due, fate') && LogInv(s.log, fate') && EnterInv(s.entering, s.due, fate')
  {
    EnterOther(s.entering, s.due, s.fate, t.id, InHand);
    SameLoss(s.due, s.fate, fate', t.id);
    SameLog(s.log, s.fate, fate', t.id);
  }

  lemma PickKeeps(s: Service)
    requires Inv(s) && Enabled(s, Pick)
    ensures Inv(Next(s, Pick))
  {
    var t := s.waiting[0];
    assert s.waiting[..0] + s.waiting[1..] == s.waiting[1..];
    TakenOut(s, 0, s.waiting[1..], InHand);
    PickFate(s, t, s.fate[t.id := InHand]);
    PickSlot(s, t);
    SameLate(s.log, s.phase, Picked);
    Assembled(Next(s, Pick));
  }

  lemma PickSlot(s: Service, t: Timer)
    requires SlotInv(s.current, s.phase, s.now, s.due, s.fate) && s.phase.Idle?
    requires t.id in s.due && s.due[t.id] == t.due
    ensures SlotInv(t, Picked, s.now, s.due, s.fate[t.id := InHand])
  {
  }

  lemma PutBackKeeps(s: Service)
    requires Inv(s) && s.phase.Woken?
    ensures Inv(DoPutBack(s))
  {
    var t := s.current;
    SameLate(s.log, s.phase, Idle);
    if t.id != NO_ID {
      var f := Placed(s.waiting, t.due);
      PlacedQueue(s.waiting, s.due, s.fate, t, f);
      EnterOther(s.entering, s.due, s.fate, t.id, f);
      PlacedLoss(s.waiting, s.due, s.fate, t, f);
      SameLog(s.log, s.fate, s.fate[t.id := f], t.id);
    }
  }

  lemma ComposeKeeps(s: Service)
    requires Inv(s) && Enabled(s, Compose)
    ensures Inv(Next(s, Compose))
  {
    var id := s.current.id;
    SameLate(s.log, s.phase, Sending(id));
    if id != NO_ID {
      OtherFate(s, id, InFlight);
      SameLoss(s.due, s.fate, s.fate[id := InFlight], id);
      SameLog(s.log, s.fate, s.fate[id := InFlight], id);
    }
  }

  lemma DeliverKeeps(s: Service)
    requires Inv(s) && Enabled(s, Deliver)
    ensures Inv(Next(s, Deliver))
  {
    var s', id := Next(s, Deliver), s.phase.id;
    var e := WasFired(id, s.now);
    if id != NO_ID {
      OtherFate(s, id, Fired);
      SameLoss(s.due, s.fate, s'.fate, id);
    }
    Append(s.log, s.fate, s'.fate, e, id);
    AppendGood(s.log, s.due, s.fate, e);
    AppendLate(s.log, s.phase, e, Idle);
  }

  lemma NextKeeps(s: Service, m: Move)
    requires Inv(s) && Enabled(s, m)
    ensures Inv(Next(s, m))
  {
    match m
    case Issue(due) => IssueKeeps(s, due);
    case Enter(t) => EnterKeeps(s, t);
    case Remove(id) => RemoveKeeps(s, id);
    case Pick => PickKeeps(s);
    case PutBack => PutBackKeeps(s);
    case Compose => ComposeKeeps(s);
    case Deliver => DeliverKeeps(s);
    case _ => SameLate(s.log, s.phase, Next(s, m).phase);
  }

  lemma {:induction false} RunKeeps(s: Service, moves: seq<Move>)
    requires Inv(s) && PossibleRun(s, moves)
    ensures Inv(Run(s, moves))
    decreases |moves|
  {
    if moves != [] {
      NextKeeps(s, moves[0]);
      RunKeeps(Next(s, moves[0]), moves[1..]);
    }
  }

  // ---- the main results ----

  /** The places an id can be, told from the set, the slot, the manager's phase and the log alone; one
      that is at none of the six others is lost. */
  ghost predicate AtOnePlace(s: Service, id: nat) {
    && id in s.fate
    && (s.fate[id] == Issued <==> exists t :: t in s.entering && t.id == id)
    && (s.fate[id] == Queued <==> exists t :: t in s.waiting && t.id == id)
    && (s.fate[id] == InHand <==> !s.phase.Idle? && !s.phase.Sending? && s.current.id == id)
    && (s.fate[id] == InFlight <==> s.phase == Sending(id))
    && (s.fate[id] == Fired <==> FiredIn(s.log, id))
    && (s.fate[id] == Cancelled <==> RemovedIn(s.log, id) && !FiredIn(s.log, id))
  }

  lemma InvPlaces(s: Service, id: nat)
    requires Inv(s) && 1 <= id <= s.lastId
    ensures AtOnePlace(s, id)
  {
  }

  /** For every interleaving: each issued id is in exactly one place, none fires twice or early, and a
      timer is lost only if another was set up for the same instant. */
  lemma TimersConserved(now: nat, never: nat, moves: seq<Move>)
    requires PossibleRun(Initial(now, never), moves)
    ensures var s := Run(Initial(now, never), moves);
            && (forall id :: 1 <= id <= s.lastId ==> AtOnePlace(s, id))
            && GoodLog(s.log, s.due)
            && LossInv(s.due, s.fate)
  {
    var s := Run(Initial(now, never), moves);
    RunKeeps(Initial(now, never), moves);
    forall id | 1 <= id <= s.lastId ensures AtOnePlace(s, id) {
      InvPlaces(s, id);
    }
  }

  lemma NotAfter(log: seq<Entry>, due: map<nat, nat>, i: nat)
    requires GoodLog(log, due) && i < |log| && log[i].WasRemoved? && !log[i].late && log[i].id != NO_ID
    ensures !FiresAfter(log, i, log[i].id)
  {
  }

  lemma LateMeans(s: Service, i: nat)
    requires Inv(s) && i < |s.log| && s.log[i].WasRemoved? && s.log[i].id != NO_ID
    ensures s.log[i].late <==> s.phase == Sending(s.log[i].id) || FiresAfter(s.log, i, s.log[i].id)
  {
    var id := s.log[i].id;
    InLog(s.log, i);
    if !s.log[i].late {
      NotAfter(s.log, s.due, i);
    }
  }

  /** For every interleaving: a timer fires after a removal of it that succeeded, or is about to, if and
      only if the manager had already read it for its time-out when it was removed. */
  lemma FiresAfterRemoval(now: nat, never: nat, moves: seq<Move>, i: nat)
    requires PossibleRun(Initial(now, never), moves)
    requires var log := Run(Initial(now, never), moves).log; i < |log| && log[i].WasRemoved? && log[i].id != NO_ID
    ensures var s := Run(Initial(now, never), moves);
            s.log[i].late <==> s.phase == Sending(s.log[i].id) || FiresAfter(s.log, i, s.log[i].id)
  {
    RunKeeps(Initial(now, never), moves);
    LateMeans(Run(Initial(now, never), moves), i);
  }

  /** A removal is noted as late exactly when the time-out of that timer is being sent. */
  lemma LateRemoval(s: Service, id: nat)
    requires Inv(s) && Removes(s, id)
    ensures DoRemove(s, id).log == s.log + [WasRemoved(id, s.phase == Sending(id))] || id == NO_ID
  {
    if s.current.id != id {
      TakenOut(s, IndexOf(s.waiting, id), Without(s.waiting, id), Cancelled);
    }
  }

  /** For every interleaving: a removal succeeds, and is noted, if and only if the timer waits or is in the
      slot, otherwise it changes nothing; every timer that waits or is in hand can be removed. */
  lemma RemovalAnswers(now: nat, never: nat, moves: seq<Move>, id: nat)
    requires PossibleRun(Initial(now, never), moves)
    ensures var s := Run(Initial(now, never), moves);
            && (Removes(s, id) <==> s.current.id == id || exists t :: t in s.waiting && t.id == id)
            && (Removes(s, id) <==> |Next(s, Remove(id)).log| == |s.log| + 1)
            && (!Removes(s, id) ==> Next(s, Remove(id)) == s)
            && (Removes(s, id) && id != NO_ID ==> id in s.fate && s.fate[id] in {Queued, InHand, InFlight, Fired})
            && (id in s.fate && s.fate[id] in {Queued, InHand} ==> Removes(s, id))
  {
    var s := Run(Initial(now, never), moves);
    RunKeeps(Initial(now, never), moves);
    HoldsMeans(s.waiting, id);
    if Holds(s.waiting, id) {
      var t :| t in s.waiting && t.id == id;
      assert s.fate[t.id] == Queued;
    }
    if id in s.fate && s.fate[id] == Queued {
      assert Timer(id, s.due[id]) in s.waiting;
    }
  }

  /** A timer that is due when it is picked is signalled at once. */
  lemma PromptWhenDue(s: Service)
    requires s.phase.Picked? && s.current.due <= s.now
    ensures PossibleRun(s, [Check] + ([Compose] + ([Deliver] + [])))
    ensures Run(s, [Check] + ([Compose] + ([Deliver] + []))).log == s.log + [WasFired(s.current.id, s.now)]
  {
    var a := Next(s, Check);
    var b := Next(a, Compose);
    RunEnds(Next(b, Deliver));
    RunFrom(b, Deliver, []);
    RunFrom(a, Compose, [Deliver] + []);
    RunFrom(s, Check, [Compose] + ([Deliver] + []));
  }

  /** One that is not is waited for until its deadline. */
  lemma WaitsUntilDue(s: Service)
    requires s.phase.Picked? && s.current.due > s.now
    ensures PossibleRun(s, [Check] + ([Wait] + [])) && Run(s, [Check] + ([Wait] + [])).phase == Waiting(s.current.due)
  {
    var a := Next(s, Check);
    RunEnds(Next(a, Wait));
    RunFrom(a, Wait, []);
    RunFrom(s, Check, [Wait] + []);
  }

  function RemovedTooLate(due: nat): seq<Move> {
    [Issue(due), Enter(Timer(1, due)), Passes(due), Pick, Check, Compose, Remove(1), Deliver]
  }

  /** Such a run: the removal answers ok and the time-out follows. */
  lemma TooLate(never: nat, due: nat)
    ensures PossibleRun(Initial(0, never), RemovedTooLate(due))
    ensures Run(Initial(0, never), RemovedTooLate(due)).log == [WasRemoved(1, true), WasFired(1, due)]
  {
    var m := RemovedTooLate(due);
    var s4 := ReadOut(never, due);
    RunEnds(Next(Next(s4, Remove(1)), Deliver));
    RunFrom(Next(s4, Remove(1)), Deliver, []);
    RunFrom(s4, Remove(1), [Deliver]);
    RunsToRead(never, due, [Remove(1)] + ([Deliver] + []));
    assert [Issue(due), Enter(Timer(1, due)), Passes(due), Pick, Check, Compose] + ([Remove(1)] + ([Deliver] + [])) == m;
    assert Next(Next(s4, Remove(1)), Deliver).log == [WasRemoved(1, true), WasFired(1, due)];
  }

  /** The service when timer 1, due now, has been read for its time-out. */
  function ReadOut(never: nat, due: nat): Service {
    Service({}, [], Timer(1, due), 1, Sending(1), due, never, map[1 := due], map[1 := InFlight], [])
  }

  lemma RunsToRead(never: nat, due: nat, more: seq<Move>)
    requires PossibleRun(ReadOut(never, due), more)
    ensures var moves := [Issue(due), Enter(Timer(1, due)), Passes(due), Pick, Check, Compose] + more;
            PossibleRun(Initial(0, never), moves) && Run(Initial(0, never), moves) == Run(ReadOut(never, due), more)
  {
    var t, moves := Timer(1, due), [Issue(due), Enter(Timer(1, due)), Passes(due), Pick, Check, Compose] + more;
    var s1 := DoIssue(Initial(0, never), due);
    var s2 := DoEnter(s1, t);
    assert s2 == Service({}, [t], Timer(NO_ID, never), 1, Idle, 0, never, map[1 := due], map[1 := Queued], []);
    var s3 := Next(s2, Passes(due));
    var s4 := Next(s3, Pick);
    var s5 := Next(s4, Check);
    assert map[1 := InHand][1 := InFlight] == map[1 := InFlight];
    assert s5 == Service({}, [], t, 1, Signalling, due, never, map[1 := due], map[1 := InHand], []);
    RunFrom(s5, Compose, more);
    RunFrom(s4, Check, [Compose] + more);
    RunFrom(s3, Pick, [Check] + ([Compose] + more));
    RunFrom(s2, Passes(due), [Pick] + ([Check] + ([Compose] + more)));
    RunFrom(s1, Enter(t), [Passes(due)] + ([Pick] + ([Check] + ([Compose] + more))));
    RunFrom(Initial(0, never), Issue(due), [Enter(t)] + ([Passes(due)] + ([Pick] + ([Check] + ([Compose] + more)))));
    assert [Issue(due)] + ([Enter(t)] + ([Passes(due)] + ([Pick] + ([Check] + ([Compose] + more))))) == moves;
  }

  lemma RunEnds(s: Service)
    ensures PossibleRun(s, []) && Run(s, []) == s
  {
  }

  lemma RunFrom(s: Service, m: Move, more: seq<Move>)
    requires Enabled(s, m) && PossibleRun(Next(s, m), more)
    ensures PossibleRun(s, [m] + more) && Run(s, [m] + more) == Run(Next(s, m), more)
  {
    assert ([m] + more)[1..] == more;
  }

  /** For every interleaving, with pairwise distinct deadlines nothing is lost. */
  lemma NothingLost(now: nat, never: nat, moves: seq<Move>)
    requires PossibleRun(Initial(now, never), moves)
    requires var due := Run(Initial(now, never), moves).due;
             forall x, y :: x in due && y in due && x != y ==> due[x] != due[y]
    ensures var s := Run(Initial(now, never), moves); forall id :: id in s.fate ==> s.fate[id] != Lost
  {
    RunKeeps(Initial(now, never), moves);
  }

  /** Two timers for the same instant: the second is lost, and never fires or waits. */
  lemma EqualDeadlinesLose(now: nat, never: nat, due: nat)
    ensures var s1 := DoEnter(DoIssue(Initial(now, never), due), Timer(1, due));
            var s := DoEnter(DoIssue(s1, due), Timer(2, due));
            s.lastId == 2 && s.fate[2] == Lost && s.waiting == [Timer(1, due)]
  {
    var s1 := DoEnter(DoIssue(Initial(now, never), due), Timer(1, due));
    assert s1.waiting == [Timer(1, due)] && s1.waiting[0].due == due;
  }

  /** For every interleaving, the timer picked has the least deadline of all that wait, and is the only
      one with it. */
  lemma PickedIsLeast(now: nat, never: nat, moves: seq<Move>, t: Timer)
    requires PossibleRun(Initial(now, never), moves)
    requires var s := Run(Initial(now, never), moves); Enabled(s, Pick) && t in s.waiting
    ensures var picked := Next(Run(Initial(now, never), moves), Pick).current;
            picked.due <= t.due && (picked.due == t.due ==> t == picked)
  {
    RunKeeps(Initial(now, never), moves);
    var s := Run(Initial(now, never), moves);
    var i :| 0 <= i < |s.waiting| && s.waiting[i] == t;
  }

  // ---- the object ----

  class TimerService {
    /** The deadline of the null timer. */
    const never: nat
    var timers: seq<Timer>
    var current: Timer
    var timerId: nat
    ghost var model: Service

    /** The object is the model's state; `NextKeeps` says what every step of the model keeps. */
    ghost predicate Valid()
      reads this
    {
      timers == model.waiting && current == model.current && timerId == model.lastId && never == model.never
    }

    constructor (ghost now: nat, never: nat)
      ensures Valid() && model == Initial(now, never)
    {
      this.never := never;
      timers, current, timerId := [], Timer(NO_ID, never), 0;
      model := Initial(now, never);
    }

    /** The timer thread's own task and tasks that do not exist get no timer. */
    method TimerSetup(task: nat, due: nat) returns (id: nat)
      requires Valid()
      modifies this
      ensures Valid()
      ensures 0 < task < 21 ==>
                id == old(model).lastId + 1 && model == DoEnter(DoIssue(old(model), due), Timer(id, due))
      ensures !(0 < task < 21) ==> model == old(model) && id == NO_ID
    {
      if !(0 < task < Queues.TASK_MAX) {
        return NO_ID;
      }
      id := timerId + 1;
      timerId := id;
      model := Next(model, Issue(due));
      Insert(Timer(id, due));
      model := Next(model, Enter(Timer(id, due)));
    }

    /** std::set::insert with the deadline as the only key. */
    method Insert(t: Timer)
      modifies this`timers
      ensures timers == Inserted(old(timers), t)
    {
      var k := 0;
      while k < |timers| && timers[k].due < t.due
        invariant 0 <= k <= |timers| && timers == old(timers)
        invariant Position(timers, t.due) == k + Position(timers[k..], t.due)
      {
        assert timers[k..][1..] == timers[k + 1..];
        k := k + 1;
      }
      if k == |timers| || timers[k].due != t.due {
        timers := timers[..k] + [t] + timers[k..];
      }
    }

    method TimerRemove(id: nat) returns (ok: bool)
      requires Valid()
      modifies this
      ensures Valid() && model == Next(old(model), Remove(id))
      ensures ok <==> old(current).id == id || exists t :: t in old(timers) && t.id == id
      ensures if ok then |model.log| == |old(model).log| + 1 else model == old(model)
    {
      ghost var before := model;
      HoldsMeans(timers, id);
      model := DoRemove(model, id);
      if current.id == id {
        current := Timer(NO_ID, never);
        return true;
      }
      var it := 0;
      while it < |timers|
        invariant 0 <= it <= |timers| && timers == before.waiting && current == before.current
        invariant timerId == before.lastId && model == DoRemove(before, id)
        invariant IndexOf(timers, id) == it + IndexOf(timers[it..], id)
      {
        if timers[it].id == id {
          timers := timers[..it] + timers[it + 1..];
          return true;
        }
        assert timers[it..][1..] == timers[it + 1..];
        it := it + 1;
      }
      return false;
    }

    /** The manager takes the earliest timer into the slot. */
    method PickEarliest()
      requires Valid() && Enabled(model, Pick)
      modifies this
      ensures Valid() && model == Next(old(model), Pick)
    {
      model := Next(model, Pick);
      current, timers := timers[0], timers[1..];
    }

    /** The manager, woken before the deadline, puts the timer back unless it was removed meanwhile. */
    method PutTimerBack()
      requires Valid() && Enabled(model, PutBack)
      modifies this
      ensures Valid() && model == Next(old(model), PutBack)
    {
      if current.id != NO_ID {
        Insert(current);
      }
      current := Timer(NO_ID, never);
      model := DoPutBack(model);
    }

    /** The manager reads the slot, with no lock, into the time-out it is going to send. */
    method ComposeTimeOut() returns (id: nat)
      requires Valid() && Enabled(model, Compose)
      modifies this`model
      ensures Valid() && model == Next(old(model), Compose) && model.phase == Sending(id)
    {
      id := current.id;
      model := Next(model, Compose);
    }
  }
}
