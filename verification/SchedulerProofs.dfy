/** What every reachable state of the scheduler keeps, and what follows for whole runs. */
module SchedulerProofs {
  import opened Common
  import opened Scheduler

  // ---- Accounting by session ----

  /** The tasks of one session, in order. */
  function Of(tasks: seq<Task>, key: SessionKey): seq<Task> {
    if tasks == [] then []
    else
      var t := tasks[|tasks| - 1];
      Of(tasks[..|tasks| - 1], key) + (if Key(t) == key then [t] else [])
  }

  function Tasks(log: seq<Outcome>): (r: seq<Task>)
    ensures |r| == |log|
  {
    seq(|log|, i requires 0 <= i < |log| => log[i].task)
  }

  function Waiting(s: Sched, key: SessionKey): seq<Task> {
    if key in s.sessions then s.sessions[key].tasks else []
  }

  lemma {:induction false} OfConcat(a: seq<Task>, b: seq<Task>, key: SessionKey)
    ensures Of(a + b, key) == Of(a, key) + Of(b, key)
  {
    if b == [] {
      assert a + b == a;
    } else {
      assert (a + b)[..|a + b| - 1] == a + b[..|b| - 1];
      OfConcat(a, b[..|b| - 1], key);
    }
  }

  lemma {:induction false} OfUniform(tasks: seq<Task>, key: SessionKey, key': SessionKey)
    requires forall t | t in tasks :: Key(t) == key
    ensures Of(tasks, key') == if key' == key then tasks else []
  {
    if tasks != [] {
      OfUniform(tasks[..|tasks| - 1], key, key');
    }
  }

  lemma TasksConcat(a: seq<Outcome>, b: seq<Outcome>)
    ensures Tasks(a + b) == Tasks(a) + Tasks(b)
  {
  }

  lemma TasksOfCancellations(tasks: seq<Task>)
    ensures Tasks(Cancellations(tasks)) == tasks
  {
  }

  // ---- The invariant ----

  function Active(s: Sched): set<SessionKey> {
    set k | k in s.sessions && s.sessions[k].running.Some?
  }

  predicate Runnable(q: Queue) {
    q.tasks != [] && q.running.None?
  }

  ghost predicate NoDuplicates(keys: seq<SessionKey>) {
    forall i, j :: 0 <= i < j < |keys| ==> keys[i] != keys[j]
  }

  /** `active` counts the sessions with a running task and stays within the limit; no session is empty. */
  ghost predicate Counted(s: Sched) {
    && s.active == |Active(s)| <= s.limit
    && (forall k | k in s.sessions :: s.sessions[k].running.Some? || s.sessions[k].tasks != [])
    && (forall k, t | k in s.sessions && t in s.sessions[k].tasks :: Key(t) == k)
  }

  /** Before cancellation the ready list is exactly the sessions with waiting tasks and none running. */
  ghost predicate ReadyExact(s: Sched) {
    && NoDuplicates(s.ready)
    && (forall k :: k in s.ready <==> k in s.sessions && Runnable(s.sessions[k]))
    && (forall k | k in s.sessions :: s.sessions[k].ready <==> Runnable(s.sessions[k]))
  }

  /** After cancellation nothing waits and nothing is ready. */
  ghost predicate Drained(s: Sched) {
    s.ready == [] && forall k | k in s.sessions :: s.sessions[k].tasks == []
  }

  /** Each running session has one goroutine that runs, or one completion in the channel. */
  ghost predicate Running(m: Machine) {
    && NoDuplicates(m.completed)
    && (forall k :: k in m.completed ==> k !in m.going)
    && (forall k :: k in Active(m.sched) <==> k in m.going || k in m.completed)
  }

  /** Session by session, what was received is what got an outcome, in that order, then what still waits. */
  ghost predicate Accounted(m: Machine) {
    forall key: SessionKey :: Of(m.received, key) == Of(Tasks(m.log), key) + Waiting(m.sched, key)
  }

  ghost predicate Inv(m: Machine) {
    && Counted(m.sched)
    && (if m.cancelling then Drained(m.sched) else ReadyExact(m.sched))
    && Running(m)
    && Accounted(m)
  }

  // ---- Counting running sessions ----

  /** A finishing goroutine never blocks: completions not yet read stay below the channel capacity. */
  lemma CompletionsFit(m: Machine)
    requires Inv(m)
    ensures |m.completed| + |m.going| == m.sched.active <= m.sched.limit
  {
    var pending := set k | k in m.completed;
    PendingCount(m.completed);
    assert Active(m.sched) == m.going + pending;
    assert m.going !! pending;
  }

  lemma {:induction false} PendingCount(keys: seq<SessionKey>)
    requires NoDuplicates(keys)
    ensures |(set k | k in keys)| == |keys|
  {
    if keys == [] {
      assert (set k | k in keys) == {};
    } else {
      var front := keys[..|keys| - 1];
      PendingCount(front);
      assert (set k | k in keys) == (set k | k in front) + {keys[|keys| - 1]};
    }
  }

  // ---- Every operation keeps the invariant ----

  lemma ReceiveAccountedAt(m: Machine, t: Task, k: SessionKey)
    requires Of(m.received, k) == Of(Tasks(m.log), k) + Waiting(m.sched, k)
    ensures Of(m.received + [t], k) == Of(Tasks(m.log), k) + Waiting(Enqueue(m.sched, t), k)
  {
    assert (m.received + [t])[..|m.received|] == m.received;
    assert Waiting(Enqueue(m.sched, t), k) == if k == Key(t) then Waiting(m.sched, k) + [t] else Waiting(m.sched, k);
  }

  lemma ReceiveAccounted(m: Machine, t: Task)
    requires Accounted(m)
    ensures Accounted(Receive(m, t))
  {
    forall k: SessionKey ensures Of(m.received + [t], k) == Of(Tasks(m.log), k) + Waiting(Enqueue(m.sched, t), k) {
      ReceiveAccountedAt(m, t, k);
    }
  }

  lemma ReceiveCounted(s: Sched, t: Task)
    requires Counted(s)
    ensures Counted(Enqueue(s, t)) && Active(Enqueue(s, t)) == Active(s)
  {
    assert Active(Enqueue(s, t)) == Active(s);
  }

  lemma ReceiveKeepsInv(m: Machine, t: Task)
    requires Inv(m) && !m.cancelling
    ensures Inv(Receive(m, t))
  {
    ReceiveAccounted(m, t);
    ReceiveCounted(m.sched, t);
    var s, s', key := m.sched, Enqueue(m.sched, t), Key(t);
    var joins := QueueOf(s, key).running.None? && !QueueOf(s, key).ready;
    assert s'.ready == if joins then s.ready + [key] else s.ready;
  }

  /** What one pop of the ready list does: it serves that session, in order, and no other. */
  lemma PopServes(m: Machine, expired: nat)
    requires Inv(m) && !m.cancelling && CanPop(m.sched)
    ensures var key, m' := m.sched.ready[0], Pop(m, expired);
            && key in m.sched.sessions && Runnable(m.sched.sessions[key])
            && var tasks := m.sched.sessions[key].tasks;
            var n := if expired >= |tasks| then |tasks| else expired + 1;
            && Tasks(m'.log) == Tasks(m.log) + tasks[..n]
            && Waiting(m'.sched, key) == tasks[n..]
            && (n > expired ==>
                  m'.log[|m'.log| - 1] == Ran(tasks[expired]) && m'.sched.sessions[key].running == Some(tasks[expired]))
            && (n <= expired ==> key !in m'.sched.sessions && m'.log == m.log + Cancellations(tasks))
  {
    var key, m' := m.sched.ready[0], Pop(m, expired);
    assert key in m.sched.ready;
    var tasks := m.sched.sessions[key].tasks;
    if expired < |tasks| {
      assert Tasks(m'.log) == Tasks(m.log) + tasks[..expired] + [tasks[expired]];
      assert tasks[..expired] + [tasks[expired]] == tasks[..expired + 1];
    }
  }

  /** Handing the front of a session's waiting tasks an outcome leaves every session's account unchanged. */
  lemma HandOut(log: seq<Task>, served: seq<Task>, rest: seq<Task>, key: SessionKey, k: SessionKey)
    requires forall t | t in served :: Key(t) == key
    ensures k != key ==> Of(log + served, k) == Of(log, k)
    ensures k == key ==> Of(log + served, k) + rest == Of(log, k) + (served + rest)
  {
    hide *;
    OfConcat(log, served, k);
    OfUniform(served, key, k);
    if k == key {
      ConcatAssociates(Of(log, k), served, rest);
    } else {
      ConcatEmpty(Of(log, k));
    }
  }

  lemma PopAccountedAt(m: Machine, expired: nat, k: SessionKey)
    requires Inv(m) && !m.cancelling && CanPop(m.sched)
    ensures Of(m.received, k) == Of(Tasks(Pop(m, expired).log), k) + Waiting(Pop(m, expired).sched, k)
  {
    PopServes(m, expired);
    var key, m' := m.sched.ready[0], Pop(m, expired);
    var tasks := m.sched.sessions[key].tasks;
    var n := if expired >= |tasks| then |tasks| else expired + 1;
    assert tasks[..n] + tasks[n..] == tasks;
    HandOut(Tasks(m.log), tasks[..n], tasks[n..], key, k);
    assert k != key ==> Waiting(m'.sched, k) == Waiting(m.sched, k);
  }

  lemma PopAccounted(m: Machine, expired: nat)
    requires Inv(m) && !m.cancelling && CanPop(m.sched)
    ensures Accounted(Pop(m, expired))
  {
    var m' := Pop(m, expired);
    forall k: SessionKey ensures Of(m'.received, k) == Of(Tasks(m'.log), k) + Waiting(m'.sched, k) {
      PopAccountedAt(m, expired, k);
    }
  }

  lemma PopReadyExact(s: Sched, s': Sched)
    requires ReadyExact(s) && s.ready != [] && s'.ready == s.ready[1..]
    requires forall k :: k != s.ready[0] ==>
             (k in s'.sessions <==> k in s.sessions) && (k in s.sessions ==> s'.sessions[k] == s.sessions[k])
    requires s.ready[0] in s'.sessions ==> !Runnable(s'.sessions[s.ready[0]]) && !s'.sessions[s.ready[0]].ready
    ensures ReadyExact(s')
  {
    forall k ensures k in s'.ready <==> k in s'.sessions && Runnable(s'.sessions[k]) {
      assert k in s.ready <==> k == s.ready[0] || k in s'.ready;
    }
  }

  lemma PopKeepsInv(m: Machine, expired: nat)
    requires Inv(m) && !m.cancelling && CanPop(m.sched)
    ensures Inv(Pop(m, expired))
  {
    PopServes(m, expired);
    PopAccounted(m, expired);
    var s, s' := m.sched, Pop(m, expired).sched;
    var key := s.ready[0];
    PopReadyExact(s, s');
    assert Active(s') == if expired < |s.sessions[key].tasks| then Active(s) + {key} else Active(s);
  }

  lemma FinishKeepsInv(m: Machine, key: SessionKey)
    requires Inv(m) && key in m.going
    ensures Inv(Finish(m, key))
  {
    var m' := Finish(m, key);
    assert forall k :: k in m'.completed <==> k in m.completed || k == key;
  }

  lemma CompleteKeeps(s: Sched, key: SessionKey, cancelling: bool)
    requires Counted(s) && key in Active(s)
    requires if cancelling then Drained(s) else ReadyExact(s)
    ensures var s' := Complete(s, key);
            && Counted(s') && Active(s') == Active(s) - {key}
            && (if cancelling then Drained(s') else ReadyExact(s'))
            && (forall k: SessionKey :: Waiting(s', k) == Waiting(s, k))
  {
    var s' := Complete(s, key);
    assert Active(s') == Active(s) - {key};
  }

  lemma TakeCompletionKeepsInv(m: Machine)
    requires Inv(m) && m.completed != []
    ensures Inv(TakeCompletion(m))
  {
    var key, m' := m.completed[0], TakeCompletion(m);
    assert key in m.completed;
    CompleteKeeps(m.sched, key, m.cancelling);
    assert forall k :: k in m.completed <==> k == key || k in m'.completed;
  }

  function CancelledOf(sessions: map<SessionKey, Queue>, key: SessionKey): seq<Task> {
    if key in sessions then sessions[key].tasks else []
  }

  lemma {:induction false} CancelLogOf(sessions: map<SessionKey, Queue>, order: seq<SessionKey>, key: SessionKey)
    requires forall k, t | k in sessions && t in sessions[k].tasks :: Key(t) == k
    requires NoDuplicates(order)
    ensures Of(Tasks(CancelLog(sessions, order)), key) == if key in order then CancelledOf(sessions, key) else []
  {
    if order != [] {
      var last, rest := order[|order| - 1], order[..|order| - 1];
      CancelLogOf(sessions, rest, key);
      var tasks := CancelledOf(sessions, last);
      var log := CancelLog(sessions, rest);
      assert Tasks(CancelLog(sessions, order)) == Tasks(log) + tasks by {
        TasksConcat(log, Cancellations(tasks));
        TasksOfCancellations(tasks);
      }
      OfConcat(Tasks(log), tasks, key);
      OfUniform(tasks, last, key);
      assert key in order <==> key in rest || key == last;
    }
  }

  lemma CancelAllAccounted(m: Machine, order: seq<SessionKey>, buffered: seq<Task>, key: SessionKey)
    requires Inv(m) && Visits(m.sched.sessions, order)
    ensures var m' := CancelAll(m, order, buffered);
            Of(m'.received, key) == Of(Tasks(m'.log), key) && Waiting(m'.sched, key) == []
  {
    var cancelled := CancelLog(m.sched.sessions, order);
    OfConcat(m.received, buffered, key);
    TasksConcat(m.log + cancelled, Cancellations(buffered));
    TasksConcat(m.log, cancelled);
    TasksOfCancellations(buffered);
    OfConcat(Tasks(m.log) + Tasks(cancelled), buffered, key);
    OfConcat(Tasks(m.log), Tasks(cancelled), key);
    CancelLogOf(m.sched.sessions, order, key);
    assert key in m.sched.sessions <==> key in order;
    assert Of(m.received, key) == Of(Tasks(m.log), key) + Of(Tasks(cancelled), key);
  }

  lemma CancelAllKeepsInv(m: Machine, order: seq<SessionKey>, buffered: seq<Task>)
    requires Inv(m) && Visits(m.sched.sessions, order)
    ensures Inv(CancelAll(m, order, buffered))
  {
    var m' := CancelAll(m, order, buffered);
    assert Active(m'.sched) == Active(m.sched);
    forall key: SessionKey ensures Of(m'.received, key) == Of(Tasks(m'.log), key) + Waiting(m'.sched, key) {
      CancelAllAccounted(m, order, buffered, key);
    }
  }
}
