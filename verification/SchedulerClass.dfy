/**
 * The scheduler as it runs, its queues and lists changed in place, and the event loop of
 * `Runner.Start` over it. The environment - expiry, goroutines, arrivals, cancellation - is free.
 */
module SchedulerClass {
  import opened Common
  import opened Scheduler
  import opened SchedulerProofs
  import opened SchedulerRuns

  class TaskScheduler {
    const limit: nat
    var active: nat
    var sessions: map<SessionKey, Queue>
    var ready: seq<SessionKey>
    var completed: seq<SessionKey>

    /** The sessions whose goroutine still runs. */
    var going: set<SessionKey>

    /** What the outside saw: tasks received and outcomes handed out. */
    ghost var received: seq<Task>
    ghost var log: seq<Outcome>

    /** Set once the event loop has started to cancel; the loop's own flag. */
    var cancelling: bool

    ghost function Machine(): Machine
      reads this
    {
      Scheduler.Machine(Sched(limit, active, sessions, ready), going, completed, received, log, cancelling)
    }

    constructor (limit: nat)
      ensures Machine() == Scheduler.Start(limit)
    {
      this.limit, active, sessions, ready, completed := limit, 0, map[], [], [];
      going, received, log, cancelling := {}, [], [], false;
    }

    method MarkReady(key: SessionKey)
      requires key in sessions
      modifies this`sessions, this`ready
      ensures Machine() == old(Machine()).(sched := Scheduler.MarkReady(old(Machine()).sched, key))
    {
      var queue := sessions[key];
      if queue.running.Some? || queue.ready || |queue.tasks| == 0 {
        return;
      }
      sessions := sessions[key := queue.(ready := true)];
      ready := ready + [key];
    }

    method Enqueue(task: Task)
      modifies this
      ensures Machine() == Receive(old(Machine()), task)
    {
      var key := Key(task);
      var queue := Queue([], None, false);
      if key in sessions {
        queue := sessions[key];
      }
      sessions := sessions[key := queue.(tasks := queue.tasks + [task])];
      received := received + [task];
      MarkReady(key);
    }

    /** Takes the first waiting task whose context is still alive; the expired ones before it are cancelled. */
    method NextRunnable(key: SessionKey) returns (task: Option<Task>, ghost expired: nat)
      requires key in sessions
      modifies this`sessions, this`log
      ensures var tasks := old(sessions[key].tasks);
              && (if task.Some? then
                    expired < |tasks| && task.value == tasks[expired] &&
                    log == old(log) + Cancellations(tasks[..expired]) &&
                    sessions == old(sessions)[key := old(sessions[key]).(tasks := tasks[expired + 1..])]
                  else
                    expired == |tasks| && log == old(log) + Cancellations(tasks) &&
                    sessions == old(sessions)[key := old(sessions[key]).(tasks := [])])
    {
      ghost var tasks := sessions[key].tasks;
      expired := 0;
      while |sessions[key].tasks| > 0
        invariant expired <= |tasks|
        invariant sessions == old(sessions)[key := old(sessions)[key].(tasks := tasks[expired..])]
        invariant log == old(log) + Cancellations(tasks[..expired])
        decreases |sessions[key].tasks|
      {
        var next := sessions[key].tasks[0];
        sessions := sessions[key := sessions[key].(tasks := sessions[key].tasks[1..])];
        var alive: bool := *;
        if alive {
          return Some(next), expired;
        }
        log := log + [Cancelled(next)];
        assert Cancellations(tasks[..expired + 1]) == Cancellations(tasks[..expired]) + [Cancelled(next)];
        expired := expired + 1;
      }
      assert tasks[..expired] == tasks;
      task := None;
    }

    method Dispatch() returns (ghost drops: seq<nat>)
      requires Inv(Machine()) && !cancelling
      modifies this
      ensures Machine() == PopAll(old(Machine()), drops)
      ensures !CanPop(Machine().sched)
      ensures Inv(Machine()) && !cancelling
    {
      drops := [];
      while active < limit && |ready| > 0
        invariant Machine() == PopAll(old(Machine()), drops)
        invariant Inv(Machine()) && !cancelling
        decreases |ready|
      {
        ghost var m := Machine();
        ghost var drop := DispatchOne();
        PopKeepsInv(m, drop);
        assert (drops + [drop])[..|drops|] == drops;
        drops := drops + [drop];
      }
    }

    /** One turn of the dispatch loop. */
    method DispatchOne() returns (ghost expired: nat)
      requires CanPop(Machine().sched)
      modifies this
      ensures Machine() == Pop(old(Machine()), expired)
    {
      expired := 0;
      var key := ready[0];
      ready := ready[1..];
      if key !in sessions {
        return;
      }
      sessions := sessions[key := sessions[key].(ready := false)];
      if sessions[key].running.Some? {
        return;
      }
      var task;
      task, expired := NextRunnable(key);
      if task.None? {
        sessions := sessions - {key};
        return;
      }
      sessions := sessions[key := sessions[key].(running := task)];
      active := active + 1;
      going := going + {key};
      log := log + [Ran(task.value)];
    }

    method Complete(key: SessionKey)
      modifies this`active, this`sessions, this`ready
      ensures Machine() == old(Machine()).(sched := Scheduler.Complete(old(Machine()).sched, key))
    {
      if key !in sessions || sessions[key].running.None? {
        return;
      }
      sessions := sessions[key := sessions[key].(running := None)];
      active := if active > 0 then active - 1 else 0;
      if |sessions[key].tasks| == 0 {
        sessions := sessions - {key};
        return;
      }
      MarkReady(key);
    }

    /** Cancels the waiting tasks of one session, which stays only while its running task does. */
    method CancelSession(key: SessionKey)
      requires key in sessions
      modifies this`sessions, this`log
      ensures log == old(log) + Cancellations(old(sessions)[key].tasks)
      ensures sessions ==
              if old(sessions)[key].running.Some? then
                old(sessions)[key := Queue([], old(sessions)[key].running, false)]
              else old(sessions) - {key}
    {
      var queue := sessions[key];
      log := log + Cancellations(queue.tasks);
      if queue.running.Some? {
        sessions := sessions[key := Queue([], queue.running, false)];
      } else {
        sessions := sessions - {key};
      }
    }

    /** Visits the sessions in an arbitrary order, which is returned for the record. */
    method CancelAll() returns (ghost order: seq<SessionKey>)
      modifies this`ready, this`sessions, this`log, this`cancelling
      ensures Visits(old(sessions), order)
      ensures Machine() == Scheduler.CancelAll(old(Machine()), order, [])
    {
      ready := [];
      order := [];
      var keys := sessions.Keys;
      while keys != {}
        invariant keys <= old(sessions).Keys
        invariant NoDuplicates(order) && forall k :: k in order <==> k in old(sessions) && k !in keys
        invariant sessions == CancelSessions(old(sessions), old(sessions).Keys - keys)
        invariant log == old(log) + CancelLog(old(sessions), order)
        invariant ready == []
        decreases keys
      {
        var key :| key in keys;
        CancelOneMore(old(sessions), old(sessions).Keys - keys, key);
        CancelSession(key);
        assert (order + [key])[..|order|] == order;
        order := order + [key];
        assert old(sessions).Keys - (keys - {key}) == old(sessions).Keys - keys + {key};
        keys := keys - {key};
      }
      assert old(sessions).Keys - keys == old(sessions).Keys;
      assert received + [] == received && log + Cancellations([]) == log;
      cancelling := true;
    }

    /** Any number of goroutines end; each reports to the channel, which always has room. */
    method Goroutines()
      requires Inv(Machine())
      modifies this`going, this`completed
      ensures Inv(Machine()) && cancelling == old(cancelling)
    {
      var many: bool := *;
      while many && going != {}
        invariant Inv(Machine())
        decreases going
      {
        var key: SessionKey := *;
        if key in going {
          FinishKeepsInv(Machine(), key);
          CompletionsFit(Machine());
          assert |completed| < limit by {
            assert going != {} && |going| > 0;
          }
          going := going - {key};
          completed := completed + [key];
        } else {
          return;
        }
        many := *;
      }
    }
  }

  class Runner {
    /**
     * The event loop over an arbitrary environment, cut after any number of turns. When it returns of its
     * own accord, every received task was run once or cancelled once, session by session in order, and
     * nothing is queued or running.
     */
    method Start(limit: nat) returns (s: TaskScheduler, returned: bool)
      requires limit > 0
      ensures fresh(s)
      ensures Inv(s.Machine())
      ensures returned ==> Idle(s.Machine().sched) && s.going == {} && s.completed == []
      ensures returned ==> forall key: SessionKey :: Of(Tasks(s.log), key) == Of(s.received, key)
    {
      s := new TaskScheduler(limit);
      StartInv(limit);
      var inputOpen, cancelled := true, false;
      var turns: nat := *;
      while turns > 0
        invariant fresh(s) && s.limit == limit
        invariant Inv(s.Machine()) && (s.cancelling ==> !inputOpen)
        decreases turns
      {
        turns := turns - 1;
        inputOpen, cancelled := Advance(s, inputOpen, cancelled);
        if !inputOpen && s.active == 0 && s.sessions == map[] {
          NothingLeft(s.Machine());
          return s, true;
        }
        inputOpen, cancelled := Select(s, inputOpen, cancelled);
      }
      returned := false;
    }

    /** The top of a turn: cancel if the context is done, dispatch unless cancelling. */
    method Advance(s: TaskScheduler, inputOpen: bool, cancelled: bool) returns (inputOpen': bool, cancelled': bool)
      requires s.limit > 0 && Inv(s.Machine()) && (s.cancelling ==> !inputOpen)
      modifies s
      ensures Inv(s.Machine()) && (s.cancelling ==> !inputOpen')
      ensures !s.cancelling ==> s.active == s.limit || s.ready == []
      ensures !Idle(s.Machine().sched) && !inputOpen' ==> s.going != {} || s.completed != []
    {
      s.Goroutines();
      var now: bool := *;
      inputOpen', cancelled' := inputOpen, cancelled || now;
      if !s.cancelling && cancelled' {
        Cancel(s);
        inputOpen' := false;
      }
      if !s.cancelling {
        ghost var drops := s.Dispatch();
        NoLostWakeup(s.Machine());
      } else {
        CancellingWaitsForRunning(s.Machine());
      }
    }

    /** One of the ready cases of the select: cancellation, an arrival, the closing of the input, a completion. */
    method Select(s: TaskScheduler, inputOpen: bool, cancelled: bool) returns (inputOpen': bool, cancelled': bool)
      requires Inv(s.Machine()) && (s.cancelling ==> !inputOpen)
      modifies s
      ensures Inv(s.Machine()) && (s.cancelling ==> !inputOpen')
    {
      s.Goroutines();
      var now: bool := *;
      inputOpen', cancelled' := inputOpen, cancelled || now;
      var choice: nat := *;
      if choice == 0 && cancelled' && !s.cancelling {
        Cancel(s);
        inputOpen' := false;
      } else if choice == 1 && inputOpen {
        inputOpen' := false;
      } else if choice == 2 && inputOpen {
        var task: Task := *;
        ReceiveKeepsInv(s.Machine(), task);
        s.Enqueue(task);
        now := *;
        cancelled' := cancelled' || now;
        if cancelled' {
          Cancel(s);
          inputOpen' := false;
        }
      } else if |s.completed| > 0 {
        TakeCompletionKeepsInv(s.Machine());
        var key := s.completed[0];
        s.completed := s.completed[1..];
        s.Complete(key);
      }
    }

    /** Cancels what waits, then drains an arbitrary content of the input channel. */
    method Cancel(s: TaskScheduler)
      requires Inv(s.Machine()) && !s.cancelling
      modifies s
      ensures Inv(s.Machine()) && s.cancelling
    {
      ghost var m := s.Machine();
      ghost var order := s.CancelAll();
      var buffered: seq<Task> := *;
      CancelBufferedTasks(s, buffered);
      assert m.received + [] == m.received && Cancellations([]) == [];
      assert s.Machine() == CancelAll(m, order, buffered);
      CancelAllKeepsInv(m, order, buffered);
    }

    /** What is still in the input channel is received only to be cancelled. */
    method CancelBufferedTasks(s: TaskScheduler, tasks: seq<Task>)
      modifies s`received, s`log
      ensures s.received == old(s.received) + tasks
      ensures s.log == old(s.log) + Cancellations(tasks)
    {
      var i := 0;
      while i < |tasks|
        invariant 0 <= i <= |tasks|
        invariant s.received == old(s.received) + tasks[..i]
        invariant s.log == old(s.log) + Cancellations(tasks[..i])
      {
        s.received := s.received + [tasks[i]];
        s.log := s.log + [Cancelled(tasks[i])];
        assert Cancellations(tasks[..i + 1]) == Cancellations(tasks[..i]) + [Cancelled(tasks[i])];
        i := i + 1;
      }
      assert tasks[..i] == tasks;
    }
  }

  lemma CancelOneMore(sessions: map<SessionKey, Queue>, done: set<SessionKey>, key: SessionKey)
    requires key in sessions && key !in done
    ensures var before := CancelSessions(sessions, done);
            key in before && before[key] == sessions[key] &&
            CancelSessions(sessions, done + {key}) ==
            if sessions[key].running.Some? then before[key := Queue([], sessions[key].running, false)]
            else before - {key}
  {
  }

  lemma NothingLeft(m: Machine)
    requires Inv(m) && Idle(m.sched)
    ensures m.going == {} && m.completed == []
    ensures forall key: SessionKey :: Of(Tasks(m.log), key) == Of(m.received, key)
  {
    CompletionsFit(m);
    forall key: SessionKey ensures Of(Tasks(m.log), key) == Of(m.received, key) {
      assert Of(m.received, key) == Of(Tasks(m.log), key) + Waiting(m.sched, key);
    }
  }
}
