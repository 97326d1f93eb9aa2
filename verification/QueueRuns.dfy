/** Which tasks a message goes to, told from the moves of a run alone. */
module QueueRuns {
  import opened Octets
  import opened Queues

  function Front(moves: seq<Move>): seq<Move>
    requires moves != []
  {
    moves[..|moves| - 1]
  }

  function Last(moves: seq<Move>): Move
    requires moves != []
  {
    moves[|moves| - 1]
  }

  lemma {:induction false} LastStep(o: Office, moves: seq<Move>)
    requires moves != [] && PossibleRun(o, moves)
    ensures PossibleRun(o, Front(moves)) && Enabled(Run(o, Front(moves)), Last(moves))
    ensures Run(o, moves) == Next(Run(o, Front(moves)), Last(moves))
    decreases |moves|
  {
    if |moves| > 1 {
      LastStep(Next(o, moves[0]), moves[1..]);
      assert Front(moves)[1..] == Front(moves[1..]) && Front(moves)[0] == moves[0] && Last(moves) == Last(moves[1..]);
    } else {
      assert Front(moves) == [] && moves[1..] == [];
    }
  }

  // ---- the state of a task ----

  ghost predicate Created(moves: seq<Move>, t: nat) {
    exists i :: 0 <= i < |moves| && moves[i] == Create(t)
  }

  /** The task was created, reported ready after that, and has not ended since. */
  ghost predicate MadeReady(moves: seq<Move>, t: nat) {
    exists i :: 0 <= i < |moves| && moves[i] == BecomeReady(t) && Created(moves[..i], t)
                && forall j :: i < j < |moves| ==> moves[j] != End(t)
  }

  lemma CreatedStep(moves: seq<Move>, t: nat)
    requires moves != []
    ensures Created(moves, t) <==> Created(Front(moves), t) || Last(moves) == Create(t)
  {
    if Created(moves, t) {
      var i :| 0 <= i < |moves| && moves[i] == Create(t);
      assert i < |moves| - 1 ==> Front(moves)[i] == Create(t);
    }
    if Created(Front(moves), t) {
      var i :| 0 <= i < |Front(moves)| && Front(moves)[i] == Create(t);
      assert moves[i] == Create(t);
    }
  }

  lemma ReadyStep(moves: seq<Move>, t: nat)
    requires moves != []
    ensures MadeReady(moves, t)
       <==> (Last(moves) == BecomeReady(t) && Created(Front(moves), t)) || (Last(moves) != End(t) && MadeReady(Front(moves), t))
  {
    var f, n := Front(moves), |moves| - 1;
    assert forall i :: 0 <= i <= n ==> f[..i] == moves[..i];
    if MadeReady(moves, t) {
      var i :| 0 <= i < |moves| && moves[i] == BecomeReady(t) && Created(moves[..i], t)
               && forall j :: i < j < |moves| ==> moves[j] != End(t);
      if i < n {
        assert f[i] == BecomeReady(t) && f[..i] == moves[..i];
        assert moves[n] != End(t);
      }
    }
    if Last(moves) == BecomeReady(t) && Created(f, t) {
      assert moves[n] == BecomeReady(t) && moves[..n] == f;
    }
    if Last(moves) != End(t) && MadeReady(f, t) {
      var i :| 0 <= i < |f| && f[i] == BecomeReady(t) && Created(f[..i], t) && forall j :: i < j < |f| ==> f[j] != End(t);
      assert moves[i] == BecomeReady(t) && moves[..i] == f[..i];
      assert forall j :: i < j < |moves| ==> j == n || moves[j] == f[j];
    }
  }

  lemma ReadyWasCreated(moves: seq<Move>, t: nat)
    requires MadeReady(moves, t)
    ensures Created(moves, t)
  {
    var i :| 0 <= i < |moves| && moves[i] == BecomeReady(t) && Created(moves[..i], t);
    var k :| 0 <= k < i && moves[..i][k] == Create(t);
    assert moves[k] == Create(t);
  }

  /** One step changes existence and readiness of a task as the moves say. */
  lemma StepState(o: Office, m: Move, t: nat)
    requires Enabled(o, m) && t < 21
    ensures Next(o, m).tasks[t].Some? <==> o.tasks[t].Some? || m == Create(t)
    ensures IsReady(Next(o, m).tasks[t]) <==> m == BecomeReady(t) || (IsReady(o.tasks[t]) && m != End(t))
  {
  }

  /** After every run a task exists if and only if it was created, and is in state READY if and only if it
      was created, reported ready after that, and has not ended since. */
  lemma {:induction false} ReadyByMoves(moves: seq<Move>, t: nat)
    requires PossibleRun(Initial(), moves) && t < 21
    ensures var task := Run(Initial(), moves).tasks[t];
            (task.Some? <==> Created(moves, t)) && (task.Some? && task.value.state == Ready <==> MadeReady(moves, t))
    decreases |moves|
  {
    if moves != [] {
      LastStep(Initial(), moves);
      ReadyByMoves(Front(moves), t);
      CreatedStep(moves, t);
      ReadyStep(moves, t);
      StepState(Run(Initial(), Front(moves)), Last(moves), t);
      if MadeReady(Front(moves), t) {
        ReadyWasCreated(Front(moves), t);
      }
    }
  }

  // ---- who gets a copy ----

  /** At move k the sender looked at the task, and it was ready by the moves before. */
  ghost predicate SawReady(moves: seq<Move>, k: nat, th: nat, t: nat) {
    && k < |moves| && moves[k] == Look(th) && PossibleRun(Initial(), moves[..k])
    && th in Run(Initial(), moves[..k]).senders && Run(Initial(), moves[..k]).senders[th].next == t
    && MadeReady(moves[..k], t)
  }

  ghost predicate Saw(moves: seq<Move>, th: nat, t: nat) {
    exists k: nat :: SawReady(moves, k, th, t)
  }

  lemma SawStep(moves: seq<Move>, th: nat, t: nat)
    requires moves != []
    ensures Saw(moves, th, t) <==> Saw(Front(moves), th, t) || SawReady(moves, |moves| - 1, th, t)
  {
    var f, n := Front(moves), |moves| - 1;
    if k: nat :| SawReady(moves, k, th, t) && k < n {
      assert f[..k] == moves[..k] && f[k] == moves[k];
      assert SawReady(f, k, th, t);
    }
    if k: nat :| SawReady(f, k, th, t) {
      assert f[..k] == moves[..k] && f[k] == moves[k];
      assert SawReady(moves, k, th, t);
    }
  }

  lemma SendersStay(o: Office, m: Move, th: nat)
    requires Enabled(o, m) && th in o.senders
    ensures th in Next(o, m).senders
  {
  }

  /** A thread that has not started has seen nothing. */
  lemma {:induction false} UnseenBefore(moves: seq<Move>, th: nat, t: nat)
    requires PossibleRun(Initial(), moves) && th !in Run(Initial(), moves).senders
    ensures !Saw(moves, th, t)
    decreases |moves|
  {
    if moves != [] {
      LastStep(Initial(), moves);
      SawStep(moves, th, t);
      var o := Run(Initial(), Front(moves));
      if th in o.senders {
        SendersStay(o, Last(moves), th);
      } else {
        UnseenBefore(Front(moves), th, t);
      }
    }
  }

  lemma SeenLast(moves: seq<Move>, th: nat, t: nat)
    requires moves != [] && PossibleRun(Initial(), Front(moves)) && Enabled(Run(Initial(), Front(moves)), Last(moves)) && t < 21
    requires th in Run(Initial(), Front(moves)).senders
    ensures SawReady(moves, |moves| - 1, th, t)
       <==> var o := Run(Initial(), Front(moves)); Last(moves) == Look(th) && o.senders[th].next == t && IsReady(o.tasks[t])
  {
    assert moves[..|moves| - 1] == Front(moves);
    ReadyByMoves(Front(moves), t);
  }

  lemma StepReady(o: Office, m: Move, th: nat, t: nat)
    requires Enabled(o, m) && th in o.senders && t < 21
    ensures t in Next(o, m).senders[th].ready
       <==> t in o.senders[th].ready || (m == Look(th) && o.senders[th].next == t && IsReady(o.tasks[t]))
  {
  }

  /** The tasks a sender has collected as ready are those it looked at while they were. */
  lemma {:induction false} CollectedByMoves(moves: seq<Move>, th: nat, t: nat)
    requires PossibleRun(Initial(), moves) && th in Run(Initial(), moves).senders && t < 21
    ensures t in Run(Initial(), moves).senders[th].ready <==> Saw(moves, th, t)
    decreases |moves|
  {
    if moves != [] {
      LastStep(Initial(), moves);
      SawStep(moves, th, t);
      var o := Run(Initial(), Front(moves));
      if th in o.senders {
        CollectedByMoves(Front(moves), th, t);
        SeenLast(moves, th, t);
        StepReady(o, Last(moves), th, t);
      } else {
        UnseenBefore(Front(moves), th, t);
      }
    }
  }

  /** For every interleaving: a sender that is through has left exactly one copy with each task it looked at
      while that was created, reported ready and not ended, and none with any other; and what a task
      received followed by what it has queued is what was accepted for it, in order. */
  lemma DeliveredByMoves(moves: seq<Move>, th: nat, t: nat)
    requires PossibleRun(Initial(), moves) && t < 21
    ensures var o := Run(Initial(), moves);
            && o.received[t] + Queue(o.tasks[t]) == o.accepted[t]
            && (th in o.senders && o.senders[th].next == o.senders[th].last ==>
                  multiset(o.accepted[t])[o.senders[th].m] == if Saw(moves, th, t) then 1 else 0)
  {
    QueueFidelity(moves);
    if th in Run(Initial(), moves).senders {
      CollectedByMoves(moves, th, t);
    }
  }
}
