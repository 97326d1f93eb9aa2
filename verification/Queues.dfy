/** Message queues of the middleware: one first-in first-out queue per task, senders that look at a
    task's state before they lock its queue, and broadcasts that visit the tasks one by one. */
module Queues {
  import opened Octets

  const TASK_MAX: nat := 21
  const TASK_ALL: nat := 255

  datatype State = NotConfigured | Starting | Ready | Ended

  datatype Letter = Letter(number: nat, origin: nat, destination: nat)

  datatype Task = Task(state: State, queue: seq<Letter>)

  type Tasks = s: seq<Option<Task>> | |s| == TASK_MAX witness seq(TASK_MAX, i => None)

  type Ledger = s: seq<seq<Letter>> | |s| == TASK_MAX witness seq(TASK_MAX, i => [])

  function Queue(t: Option<Task>): seq<Letter> {
    if t.Some? then t.value.queue else []
  }

  predicate IsReady(t: Option<Task>) {
    t.Some? && t.value.state == Ready
  }

  // ---- the interleaved steps ----

  /** A thread inside `send_msg` or `send_broadcast_msg`: tasks next to last - 1 are still to visit,
      granted means that next was seen ready and its queue is about to be locked, ready collects the
      tasks seen ready. */
  datatype Sender = Sender(m: Letter, next: nat, last: nat, granted: bool, ready: set<nat>)

  datatype Office = Office(tasks: Tasks, accepted: Ledger, received: Ledger, senders: map<nat, Sender>)

  datatype Move =
    | Start(thread: nat, m: Letter)
    | Look(thread: nat)
    | Push(thread: nat)
    | Take(task: nat)
    | Create(task: nat)
    | BecomeReady(task: nat)
    | End(task: nat)

  function NewSender(m: Letter): Sender {
    if m.destination < TASK_MAX then Sender(m, m.destination, m.destination + 1, false, {})
    else if m.destination == TASK_ALL then Sender(m, 0, TASK_MAX, false, {})
    else Sender(m, 0, 0, false, {})
  }

  /** A letter sent is an object of its own. */
  predicate NewLetter(o: Office, m: Letter) {
    && (forall t :: 0 <= t < TASK_MAX ==> m !in o.accepted[t])
    && (forall th :: th in o.senders ==> o.senders[th].m != m)
  }

  predicate Enabled(o: Office, move: Move) {
    match move
    case Start(th, m) => th !in o.senders && NewLetter(o, m)
    case Look(th) => th in o.senders && !o.senders[th].granted && o.senders[th].next < o.senders[th].last <= TASK_MAX
    case Push(th) =>
      th in o.senders && o.senders[th].granted && o.senders[th].next < TASK_MAX && o.tasks[o.senders[th].next].Some?
    case Take(t) => t < TASK_MAX && Queue(o.tasks[t]) != []
    case Create(t) => t < TASK_MAX && o.tasks[t].None?
    case BecomeReady(t) => t < TASK_MAX && o.tasks[t].Some? && o.tasks[t].value.state == Starting
    case End(t) => t < TASK_MAX && o.tasks[t].Some?
  }

  function Seen(o: Office, s: Sender): Sender
    requires s.next < TASK_MAX
  {
    if IsReady(o.tasks[s.next]) then s.(granted := true, ready := s.ready + {s.next}) else s.(next := s.next + 1)
  }

  function Pushed(tasks: Tasks, t: nat, m: Letter): Tasks
    requires t < TASK_MAX && tasks[t].Some?
  {
    tasks[t := Some(tasks[t].value.(queue := tasks[t].value.queue + [m]))]
  }

  function Taken(tasks: Tasks, t: nat): Tasks
    requires t < TASK_MAX && Queue(tasks[t]) != []
  {
    tasks[t := Some(tasks[t].value.(queue := tasks[t].value.queue[1..]))]
  }

  function WithState(tasks: Tasks, t: nat, state: State): Tasks
    requires t < TASK_MAX && tasks[t].Some?
  {
    tasks[t := Some(tasks[t].value.(state := state))]
  }

  function Next(o: Office, move: Move): Office
    requires Enabled(o, move)
  {
    match move
    case Start(th, m) => o.(senders := o.senders[th := NewSender(m)])
    case Look(th) => o.(senders := o.senders[th := Seen(o, o.senders[th])])
    case Push(th) =>
      var s := o.senders[th];
      o.(tasks := Pushed(o.tasks, s.next, s.m), accepted := o.accepted[s.next := o.accepted[s.next] + [s.m]],
         senders := o.senders[th := s.(granted := false, next := s.next + 1)])
    case Take(t) =>
      o.(tasks := Taken(o.tasks, t), received := o.received[t := o.received[t] + [Queue(o.tasks[t])[0]]])
    case Create(t) => o.(tasks := o.tasks[t := Some(Task(Starting, []))])
    case BecomeReady(t) => o.(tasks := WithState(o.tasks, t, Ready))
    case End(t) => o.(tasks := WithState(o.tasks, t, Ended))
  }

  predicate PossibleRun(o: Office, moves: seq<Move>)
    decreases |moves|
  {
    moves == [] || (Enabled(o, moves[0]) && PossibleRun(Next(o, moves[0]), moves[1..]))
  }

  function Run(o: Office, moves: seq<Move>): Office
    requires PossibleRun(o, moves)
    decreases |moves|
  {
    if moves == [] then o else Run(Next(o, moves[0]), moves[1..])
  }

  function Initial(): Office {
    Office(seq(TASK_MAX, i => None), seq(TASK_MAX, i => []), seq(TASK_MAX, i => []), map[])
  }

  // ---- what every step keeps ----

  /** What a task has received, followed by what is still queued, is what was accepted for it. */
  predicate InOrder(o: Office) {
    forall t :: 0 <= t < TASK_MAX ==> o.accepted[t] == o.received[t] + Queue(o.tasks[t])
  }

  predicate Delivered(s: Sender, t: nat) {
    t in s.ready && !(s.granted && t == s.next)
  }

  predicate Shape(s: Sender) {
    && s.last <= TASK_MAX
    && (s.granted ==> s.next in s.ready && s.next < s.last)
    && (forall t :: t in s.ready ==> t < s.next || (s.granted && t == s.next))
  }

  /** One copy of a sender's letter is with each task it has served, and none with any other. */
  predicate OneCopy(accepted: Ledger, s: Sender) {
    forall t :: 0 <= t < TASK_MAX ==> multiset(accepted[t])[s.m] == if Delivered(s, t) then 1 else 0
  }

  predicate SendersInv(o: Office) {
    && (forall th :: th in o.senders ==> Shape(o.senders[th]) && OneCopy(o.accepted, o.senders[th]))
    && (forall a, b :: a in o.senders && b in o.senders && a != b ==> o.senders[a].m != o.senders[b].m)
  }

  predicate Inv(o: Office) {
    InOrder(o) && SendersInv(o)
  }

  lemma StartKeeps(o: Office, th: nat, m: Letter)
    requires Inv(o) && Enabled(o, Start(th, m))
    ensures Inv(Next(o, Start(th, m)))
  {
  }

  lemma LookKeeps(o: Office, th: nat)
    requires Inv(o) && Enabled(o, Look(th))
    ensures Inv(Next(o, Look(th)))
  {
  }

  lemma PushOrder(o: Office, th: nat)
    requires InOrder(o) && Enabled(o, Push(th))
    ensures InOrder(Next(o, Push(th)))
  {
  }

  lemma OwnCopy(accepted: Ledger, s: Sender)
    requires Shape(s) && s.granted && OneCopy(accepted, s)
    ensures OneCopy(accepted[s.next := accepted[s.next] + [s.m]], s.(granted := false, next := s.next + 1))
  {
    assert multiset(accepted[s.next] + [s.m]) == multiset(accepted[s.next]) + multiset{s.m};
  }

  lemma OtherCopy(accepted: Ledger, t: nat, m: Letter, other: Sender)
    requires t < TASK_MAX && OneCopy(accepted, other) && other.m != m
    ensures OneCopy(accepted[t := accepted[t] + [m]], other)
  {
    assert multiset(accepted[t] + [m]) == multiset(accepted[t]) + multiset{m};
  }

  lemma PushSenders(o: Office, th: nat, s: Sender)
    requires SendersInv(o) && Enabled(o, Push(th)) && s == o.senders[th]
    ensures SendersInv(Next(o, Push(th)))
  {
    var o' := Next(o, Push(th));
    OwnCopy(o.accepted, s);
    forall x | x in o'.senders ensures Shape(o'.senders[x]) && OneCopy(o'.accepted, o'.senders[x]) {
      if x != th {
        OtherCopy(o.accepted, s.next, s.m, o.senders[x]);
      }
    }
  }

  lemma PushKeeps(o: Office, th: nat)
    requires Inv(o) && Enabled(o, Push(th))
    ensures Inv(Next(o, Push(th)))
  {
    PushOrder(o, th);
    PushSenders(o, th, o.senders[th]);
  }

  lemma TakeKeeps(o: Office, t: nat)
    requires Inv(o) && Enabled(o, Take(t))
    ensures Inv(Next(o, Take(t)))
  {
    var q := Queue(o.tasks[t]);
    assert q == [q[0]] + q[1..];
  }

  lemma NextKeeps(o: Office, move: Move)
    requires Inv(o) && Enabled(o, move)
    ensures Inv(Next(o, move))
  {
    match move
    case Start(th, m) => StartKeeps(o, th, m);
    case Look(th) => LookKeeps(o, th);
    case Push(th) => PushKeeps(o, th);
    case Take(t) => TakeKeeps(o, t);
    case _ =>
  }

  lemma {:induction false} RunKeeps(o: Office, moves: seq<Move>)
    requires Inv(o) && PossibleRun(o, moves)
    ensures Inv(Run(o, moves))
    decreases |moves|
  {
    if moves != [] {
      NextKeeps(o, moves[0]);
      RunKeeps(Next(o, moves[0]), moves[1..]);
    }
  }

  /** For every interleaving: what a task received followed by what it still has queued is what was
      accepted for it, in order; and a sender that is through has left exactly one copy with each task
      it saw ready, and none with any other. */
  lemma QueueFidelity(moves: seq<Move>)
    requires PossibleRun(Initial(), moves)
    ensures var o := Run(Initial(), moves);
            && (forall t :: 0 <= t < TASK_MAX ==> o.received[t] + Queue(o.tasks[t]) == o.accepted[t])
            && (forall th, t :: th in o.senders && o.senders[th].next == o.senders[th].last && 0 <= t < TASK_MAX ==>
                  multiset(o.accepted[t])[o.senders[th].m] == if t in o.senders[th].ready then 1 else 0)
  {
    RunKeeps(Initial(), moves);
  }

  /** A send with no other step in between adds one copy to the destination if it is ready, a broadcast (to
      255) to each of the 21 tasks that is ready, and neither to any other. */
  lemma WholeSend(o: Office, m: Letter, th: nat)
    requires Enabled(o, Start(th, m))
    ensures var o' := Visit(Next(o, Start(th, m)), th);
            |o.tasks| == 21
            && forall t :: 0 <= t < 21 ==>
                 Queue(o'.tasks[t])
                 == Added(Queue(o.tasks[t]),
                          (m.destination == t || m.destination == 255) && o.tasks[t].Some? && o.tasks[t].value.state == Ready, m)
  {
    var o1 := Next(o, Start(th, m));
    forall t | 0 <= t < 21
      ensures Queue(Visit(o1, th).tasks[t])
           == Added(Queue(o.tasks[t]),
                    (m.destination == t || m.destination == 255) && o.tasks[t].Some? && o.tasks[t].value.state == Ready, m)
    {
      VisitOne(o1, th, t);
    }
  }

  function Added(q: seq<Letter>, copied: bool, m: Letter): seq<Letter> {
    if copied then q + [m] else q
  }

  /** A sender run to its end with nothing in between. */
  function Visit(o: Office, th: nat): Office
    requires th in o.senders && !o.senders[th].granted && o.senders[th].last <= TASK_MAX
    decreases TASK_MAX - o.senders[th].next
  {
    if o.senders[th].next >= o.senders[th].last then o
    else
      var o1 := Next(o, Look(th));
      if o1.senders[th].granted then Visit(Next(o1, Push(th)), th) else Visit(o1, th)
  }

  lemma {:induction false} VisitOne(o: Office, th: nat, t: nat)
    requires th in o.senders && !o.senders[th].granted && o.senders[th].last <= TASK_MAX && t < TASK_MAX
    ensures var o', s := Visit(o, th), o.senders[th];
            Queue(o'.tasks[t]) == Added(Queue(o.tasks[t]), s.next <= t < s.last && IsReady(o.tasks[t]), s.m)
    decreases TASK_MAX - o.senders[th].next
  {
    if o.senders[th].next < o.senders[th].last {
      var o1 := Next(o, Look(th));
      if o1.senders[th].granted {
        VisitOne(Next(o1, Push(th)), th, t);
      } else {
        VisitOne(o1, th, t);
      }
    }
  }

  // ---- the object ----

  class TaskQueues {
    var tasks: Tasks

    constructor ()
      ensures tasks == Initial().tasks
    {
      tasks := seq(TASK_MAX, i => None);
    }

    method SendMsg(m: Letter) returns (ok: bool)
      modifies this
      ensures ok <==> m.destination == 255
                      || (m.destination < 21 && old(tasks)[m.destination].Some?
                          && old(tasks)[m.destination].value.state == Ready)
      ensures forall t :: 0 <= t < 21 ==>
                if old(tasks)[t].Some? && old(tasks)[t].value.state == Ready && (m.destination == 255 || m.destination == t)
                then tasks[t] == Some(Task(Ready, old(tasks)[t].value.queue + [m]))
                else tasks[t] == old(tasks)[t]
    {
      ok := false;
      if m.destination < TASK_MAX {
        if IsReady(tasks[m.destination]) {
          tasks := Pushed(tasks, m.destination, m);
          ok := true;
        }
      } else if m.destination == TASK_ALL {
        ok := SendBroadcastMsg(m);
      }
    }

    method SendBroadcastMsg(m: Letter) returns (ok: bool)
      modifies this
      ensures ok <==> m.destination == 255
      ensures forall t :: 0 <= t < 21 ==>
                if ok && old(tasks)[t].Some? && old(tasks)[t].value.state == Ready
                then tasks[t] == Some(Task(Ready, old(tasks)[t].value.queue + [m]))
                else tasks[t] == old(tasks)[t]
    {
      if m.destination != TASK_ALL {
        return false;
      }
      var t := 0;
      while t < TASK_MAX
        invariant 0 <= t <= TASK_MAX
        invariant forall u :: 0 <= u < t ==>
                    tasks[u] == if IsReady(old(tasks)[u]) then Pushed(old(tasks), u, m)[u] else old(tasks)[u]
        invariant forall u :: t <= u < TASK_MAX ==> tasks[u] == old(tasks)[u]
      {
        if IsReady(tasks[t]) {
          tasks := Pushed(tasks, t, m);
        }
        t := t + 1;
      }
      return true;
    }

    /** None stands for an invalid task, for one that does not exist, and for an empty queue. */
    method PollMsg(t: nat) returns (m: Option<Letter>)
      modifies this
      ensures m.Some? <==> t < 21 && old(tasks)[t].Some? && old(tasks)[t].value.queue != []
      ensures m.Some? ==>
                && [m.value] + Queue(tasks[t]) == Queue(old(tasks)[t])
                && tasks[t].Some? && tasks[t].value.state == old(tasks)[t].value.state
                && forall u :: 0 <= u < 21 && u != t ==> tasks[u] == old(tasks)[u]
      ensures m.None? ==> tasks == old(tasks)
    {
      m := None;
      if t < TASK_MAX && Queue(tasks[t]) != [] {
        m := Some(tasks[t].value.queue[0]);
        tasks := Taken(tasks, t);
      }
    }
  }
}
