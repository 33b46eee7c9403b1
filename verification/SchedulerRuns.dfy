/** Whole runs of the scheduler: conservation, order within a session, fairness between sessions. */
module SchedulerRuns {
  import opened Scheduler
  import opened SchedulerProofs

  datatype Event =
    | Received(task: Task)
    | Popped(expired: nat)
    | Finished(key: SessionKey)
    | TookCompletion
    | CancelledAll(order: seq<SessionKey>, buffered: seq<Task>)

  /** What the event loop and its goroutines may do next; the loop stops reading and dispatching once it cancels. */
  ghost predicate Admissible(m: Machine, e: Event) {
    match e
    case Received(_) => !m.cancelling
    case Popped(_) => !m.cancelling && CanPop(m.sched)
    case Finished(key) => key in m.going
    case TookCompletion => m.completed != []
    case CancelledAll(order, _) => !m.cancelling && Visits(m.sched.sessions, order)
  }

  ghost function Step(m: Machine, e: Event): Machine
    requires Admissible(m, e)
  {
    match e
    case Received(t) => Receive(m, t)
    case Popped(expired) => Pop(m, expired)
    case Finished(key) => Finish(m, key)
    case TookCompletion => TakeCompletion(m)
    case CancelledAll(order, buffered) => CancelAll(m, order, buffered)
  }

  ghost predicate Runs(m: Machine, events: seq<Event>, end: Machine)
    decreases |events|
  {
    if events == [] then end == m
    else Admissible(m, events[0]) && Runs(Step(m, events[0]), events[1..], end)
  }

  lemma StepKeepsInv(m: Machine, e: Event)
    requires Inv(m) && Admissible(m, e)
    ensures Inv(Step(m, e)) && Step(m, e).sched.limit == m.sched.limit
  {
    match e
    case Received(t) => ReceiveKeepsInv(m, t);
    case Popped(expired) => PopKeepsInv(m, expired);
    case Finished(key) => FinishKeepsInv(m, key);
    case TookCompletion => TakeCompletionKeepsInv(m);
    case CancelledAll(order, buffered) => CancelAllKeepsInv(m, order, buffered);
  }

  lemma {:induction false} RunKeepsInv(m: Machine, events: seq<Event>, end: Machine)
    requires Inv(m) && Runs(m, events, end)
    ensures Inv(end) && end.sched.limit == m.sched.limit
    decreases |events|
  {
    if events != [] {
      StepKeepsInv(m, events[0]);
      RunKeepsInv(Step(m, events[0]), events[1..], end);
    }
  }

  lemma StartInv(limit: nat)
    ensures Inv(Start(limit))
  {
  }

  /**
   * In every reachable state: the limit holds, completions fit their channel, and the ready list is exact until
   * cancellation.
   */
  lemma ReachableStates(limit: nat, events: seq<Event>, end: Machine)
    requires Runs(Start(limit), events, end)
    ensures end.sched.active == |Active(end.sched)| <= limit
    ensures |end.completed| + |end.going| == end.sched.active
    ensures !end.cancelling ==> NoDuplicates(end.sched.ready)
    ensures !end.cancelling ==>
            forall k :: k in end.sched.ready <==> k in end.sched.sessions && Runnable(end.sched.sessions[k])
  {
    StartInv(limit);
    RunKeepsInv(Start(limit), events, end);
    CompletionsFit(end);
  }

  // ---- Conservation and order ----

  /** Counting a task among those of its own session counts it among all. */
  lemma {:induction false} OfCounts(tasks: seq<Task>, t: Task)
    ensures multiset(Of(tasks, Key(t)))[t] == multiset(tasks)[t]
  {
    if tasks != [] {
      var front := tasks[..|tasks| - 1];
      OfCounts(front, t);
      assert tasks == front + [tasks[|tasks| - 1]];
    }
  }

  /** At any time a session's tasks have been handed their outcomes in the order they were received. */
  lemma OutcomesInOrder(limit: nat, events: seq<Event>, end: Machine, key: SessionKey)
    requires Runs(Start(limit), events, end)
    ensures Of(Tasks(end.log), key) <= Of(end.received, key)
  {
    StartInv(limit);
    RunKeepsInv(Start(limit), events, end);
    assert Of(end.received, key) == Of(Tasks(end.log), key) + Waiting(end.sched, key);
  }

  /** When the loop can return, every received task has had exactly one outcome and nothing still runs. */
  lemma Conservation(limit: nat, events: seq<Event>, end: Machine)
    requires Runs(Start(limit), events, end) && Idle(end.sched)
    ensures multiset(Tasks(end.log)) == multiset(end.received)
    ensures forall key: SessionKey :: Of(Tasks(end.log), key) == Of(end.received, key)
    ensures end.going == {} && end.completed == []
  {
    StartInv(limit);
    RunKeepsInv(Start(limit), events, end);
    CompletionsFit(end);
    forall key: SessionKey ensures Of(Tasks(end.log), key) == Of(end.received, key) {
      assert Of(end.received, key) == Of(Tasks(end.log), key) + Waiting(end.sched, key);
    }
    forall t: Task ensures multiset(Tasks(end.log))[t] == multiset(end.received)[t] {
      OfCounts(Tasks(end.log), t);
      OfCounts(end.received, t);
      assert Of(Tasks(end.log), Key(t)) == Of(end.received, Key(t));
    }
  }

  /** Whatever was not started was cancelled: the outcomes split the received tasks in two. */
  lemma RunOrCancelled(limit: nat, events: seq<Event>, end: Machine, t: Task)
    requires Runs(Start(limit), events, end) && Idle(end.sched)
    ensures multiset(end.log)[Ran(t)] + multiset(end.log)[Cancelled(t)] == multiset(end.received)[t]
  {
    Conservation(limit, events, end);
    OutcomeCounts(end.log, t);
  }

  lemma {:induction false} OutcomeCounts(log: seq<Outcome>, t: Task)
    ensures multiset(log)[Ran(t)] + multiset(log)[Cancelled(t)] == multiset(Tasks(log))[t]
  {
    if log != [] {
      var front, last := log[..|log| - 1], log[|log| - 1];
      OutcomeCounts(front, t);
      assert log == front + [last];
      TasksConcat(front, [last]);
      assert Tasks([last]) == [last.task];
    }
  }

  // ---- Fairness ----

  function Pops(events: seq<Event>): nat {
    if events == [] then 0 else (if events[0].Popped? then 1 else 0) + Pops(events[1..])
  }

  predicate Uncancelled(events: seq<Event>) {
    forall i :: 0 <= i < |events| ==> !events[i].CancelledAll?
  }

  lemma StepKeepsPlace(m: Machine, e: Event, p: nat)
    requires Inv(m) && Admissible(m, e) && !e.CancelledAll? && !m.cancelling
    requires p < |m.sched.ready| && (e.Popped? ==> p > 0)
    ensures var m' := Step(m, e);
            var p' := if e.Popped? then p - 1 else p;
            !m'.cancelling && p' < |m'.sched.ready| && m'.sched.ready[p'] == m.sched.ready[p]
  {
  }

  /**
   * A session at position p of the ready list is p pops from its turn, whatever else happens: other
   * sessions' backlogs, new arrivals and completions do not push it back.
   */
  lemma {:induction false} TurnComes(m: Machine, events: seq<Event>, end: Machine, p: nat)
    requires Inv(m) && !m.cancelling && Runs(m, events, end) && Uncancelled(events)
    requires p < |m.sched.ready| && Pops(events) <= p
    ensures !end.cancelling && p - Pops(events) < |end.sched.ready|
    ensures end.sched.ready[p - Pops(events)] == m.sched.ready[p]
    decreases |events|
  {
    if events != [] {
      StepKeepsInv(m, events[0]);
      StepKeepsPlace(m, events[0], p);
      assert forall i :: 0 <= i < |events[1..]| ==> events[1..][i] == events[i + 1];
      TurnComes(Step(m, events[0]), events[1..], end, if events[0].Popped? then p - 1 else p);
    }
  }

  /**
   * After exactly p pops of others the next pop is the session's own, and it starts a task or reports all as expired.
   */
  lemma ServedAtItsTurn(m: Machine, events: seq<Event>, end: Machine, p: nat, expired: nat)
    requires Inv(m) && !m.cancelling && Runs(m, events, end) && Uncancelled(events)
    requires p < |m.sched.ready| && Pops(events) == p && CanPop(end.sched)
    ensures var key, after := m.sched.ready[p], Pop(end, expired);
            && key in end.sched.sessions && end.sched.sessions[key].tasks != []
            && var tasks := end.sched.sessions[key].tasks;
               if expired < |tasks| then after.log == end.log + Cancellations(tasks[..expired]) + [Ran(tasks[expired])]
               else after.log == end.log + Cancellations(tasks)
  {
    TurnComes(m, events, end, p);
    RunKeepsInv(m, events, end);
    PopServes(end, expired);
  }

  // ---- Dispatching ----

  /** Pops as long as the dispatch loop runs, `drops` giving how many tasks had expired each time. */
  function PopAll(m: Machine, drops: seq<nat>): Machine {
    if drops == [] then m
    else
      var before := PopAll(m, drops[..|drops| - 1]);
      if CanPop(before.sched) then Pop(before, drops[|drops| - 1]) else before
  }

  /** Once dispatch has stopped with work left, something is running, so a completion will wake the loop. */
  lemma NoLostWakeup(m: Machine)
    requires Inv(m) && !m.cancelling && !CanPop(m.sched) && m.sched.limit > 0
    ensures !Idle(m.sched) ==> m.sched.active > 0 && (m.going != {} || m.completed != [])
    ensures m.sched.active == m.sched.limit || m.sched.ready == []
  {
    CompletionsFit(m);
    if k :| k in m.sched.sessions && k !in Active(m.sched) {
      assert k in m.sched.ready;
    }
  }

  /** While cancelling, a loop that is not idle waits for a running task only. */
  lemma CancellingWaitsForRunning(m: Machine)
    requires Inv(m) && m.cancelling
    ensures !Idle(m.sched) ==> m.going != {} || m.completed != []
  {
    CompletionsFit(m);
    assert forall k | k in m.sched.sessions :: k in Active(m.sched);
  }
}
