/**
 * The Feishu task scheduler on values: per-session queues in front of a global concurrency limit,
 * a round-robin ready list, expiry and cancellation (internal/feishu/scheduler.go), together with
 * what it can be held to account for: the tasks received and the outcome given to each.
 */
module Scheduler {
  import opened Common

  datatype Task = Task(id: string, chat: string, sender: string)

  datatype SessionKey = SessionKey(text: string)

  /** Chat and sender joined by a colon: two pairs that join to the same text share a session. */
  function Key(t: Task): SessionKey {
    SessionKey(t.chat + ":" + t.sender)
  }

  /** What follows the first colon pair of one text is part of the other's chat. */
  ghost predicate Shifted(a: Task, b: Task) {
    exists middle: string :: b.chat == a.chat + ":" + middle && a.sender == middle + ":" + b.sender
  }

  lemma SameTextShifted(a: Task, b: Task)
    requires Key(a) == Key(b) && |a.chat| < |b.chat|
    ensures Shifted(a, b)
  {
    var text := a.chat + ":" + a.sender;
    var middle := b.chat[|a.chat| + 1..];
    assert text == b.chat + ":" + b.sender;
    assert text[..|a.chat|] == a.chat && text[..|b.chat|] == b.chat && text[|b.chat| + 1..] == b.sender;
    assert b.chat[|a.chat|] == text[|a.chat|] == ':';
    assert b.chat == a.chat + ":" + middle;
    assert a.sender == text[|a.chat| + 1..] == middle + ":" + b.sender;
  }

  lemma SameTextSame(a: Task, b: Task)
    requires Key(a) == Key(b) && |a.chat| == |b.chat|
    ensures a.chat == b.chat && a.sender == b.sender
  {
    var text := a.chat + ":" + a.sender;
    assert text == b.chat + ":" + b.sender;
    assert text[..|a.chat|] == a.chat && text[..|a.chat|] == b.chat;
    assert text[|a.chat| + 1..] == a.sender && text[|a.chat| + 1..] == b.sender;
  }

  lemma ShiftedSame(a: Task, b: Task)
    requires Shifted(a, b)
    ensures Key(a) == Key(b) && ':' in b.chat
  {
    var middle: string :| b.chat == a.chat + ":" + middle && a.sender == middle + ":" + b.sender;
    assert b.chat[|a.chat|] == ':';
    assert a.chat + ":" + (middle + ":" + b.sender) == a.chat + ":" + middle + ":" + b.sender;
  }

  /**
   * Two tasks share a session exactly when chat and sender are the same, or a colon within a chat lets the
   * boundary shift. So chats without a colon keep chats and senders apart.
   */
  lemma SharedSessionIff(a: Task, b: Task)
    ensures Key(a) == Key(b) <==> (a.chat == b.chat && a.sender == b.sender) || Shifted(a, b) || Shifted(b, a)
    ensures ':' !in a.chat && ':' !in b.chat ==> (Key(a) == Key(b) <==> a.chat == b.chat && a.sender == b.sender)
  {
    if Key(a) == Key(b) {
      if |a.chat| < |b.chat| {
        SameTextShifted(a, b);
      } else if |b.chat| < |a.chat| {
        SameTextShifted(b, a);
      } else {
        SameTextSame(a, b);
      }
    }
    if Shifted(a, b) {
      ShiftedSame(a, b);
    }
    if Shifted(b, a) {
      ShiftedSame(b, a);
    }
  }

  /** A colon in a chat: two chats and two senders, one session. */
  lemma SessionsCollide(id: string)
    ensures Key(Task(id, "a", "b:c")) == Key(Task(id, "a:b", "c"))
  {
    assert "a" + ":" + "b:c" == "a:b" + ":" + "c";
  }

  datatype Queue = Queue(tasks: seq<Task>, running: Option<Task>, ready: bool)

  datatype Sched = Sched(limit: nat, active: nat, sessions: map<SessionKey, Queue>, ready: seq<SessionKey>)

  /** The one thing that happens to a task: it is started, or a cancellation is delivered for it. */
  datatype Outcome = Ran(task: Task) | Cancelled(task: Task)

  /**
   * The scheduler inside `Start`: `going` are the sessions whose goroutine still runs, `completed` the
   * channel those goroutines report to, `received` every task read from the input channel.
   */
  datatype Machine = Machine(
    sched: Sched, going: set<SessionKey>, completed: seq<SessionKey>, received: seq<Task>, log: seq<Outcome>,
      cancelling: bool)

  function Cancellations(tasks: seq<Task>): (r: seq<Outcome>)
    ensures |r| == |tasks|
  {
    seq(|tasks|, i requires 0 <= i < |tasks| => Cancelled(tasks[i]))
  }

  // ---- The operations ----

  function MarkReady(s: Sched, key: SessionKey): Sched
    requires key in s.sessions
  {
    var q := s.sessions[key];
    if q.running.Some? || q.ready || q.tasks == [] then s
    else s.(sessions := s.sessions[key := q.(ready := true)], ready := s.ready + [key])
  }

  function QueueOf(s: Sched, key: SessionKey): Queue {
    if key in s.sessions then s.sessions[key] else Queue([], None, false)
  }

  function Enqueue(s: Sched, t: Task): Sched {
    var q := QueueOf(s, Key(t));
    MarkReady(s.(sessions := s.sessions[Key(t) := q.(tasks := q.tasks + [t])]), Key(t))
  }

  function Receive(m: Machine, t: Task): Machine {
    m.(sched := Enqueue(m.sched, t), received := m.received + [t])
  }

  predicate CanPop(s: Sched) {
    s.active < s.limit && s.ready != []
  }

  /** One turn of the dispatch loop; `expired` many of the waiting tasks in front have expired. */
  function Pop(m: Machine, expired: nat): Machine
    requires CanPop(m.sched)
  {
    var s := m.sched;
    var key := s.ready[0];
    var s1 := s.(ready := s.ready[1..]);
    if key !in s.sessions then m.(sched := s1)
    else
      var q := s.sessions[key].(ready := false);
      if q.running.Some? then m.(sched := s1.(sessions := s1.sessions[key := q]))
      else if expired >= |q.tasks| then
        m.(sched := s1.(sessions := s1.sessions - {key}), log := m.log + Cancellations(q.tasks))
      else
        var t := q.tasks[expired];
        m.(sched := s1.(active := s.active + 1,
                        sessions := s1.sessions[key := Queue(q.tasks[expired + 1..], Some(t), false)]),
           going := m.going + {key},
           log := m.log + Cancellations(q.tasks[..expired]) + [Ran(t)])
  }

  /** The goroutine of a session reports its completion. */
  function Finish(m: Machine, key: SessionKey): Machine {
    m.(going := m.going - {key}, completed := m.completed + [key])
  }

  function Complete(s: Sched, key: SessionKey): Sched {
    if key !in s.sessions || s.sessions[key].running.None? then s
    else
      var q := s.sessions[key].(running := None);
      var s1 := s.(active := if s.active > 0 then s.active - 1 else 0);
      if q.tasks == [] then s1.(sessions := s1.sessions - {key})
      else MarkReady(s1.(sessions := s1.sessions[key := q]), key)
  }

  /** The event loop reads one completion. */
  function TakeCompletion(m: Machine): Machine
    requires m.completed != []
  {
    m.(sched := Complete(m.sched, m.completed[0]), completed := m.completed[1..])
  }

  function CancelSessions(sessions: map<SessionKey, Queue>, keys: set<SessionKey>): map<SessionKey, Queue> {
    map k | k in sessions && (k in keys ==> sessions[k].running.Some?)
      :: if k in keys then Queue([], sessions[k].running, false) else sessions[k]
  }

  /** The cancellations delivered when the sessions are visited in the given order. */
  function CancelLog(sessions: map<SessionKey, Queue>, order: seq<SessionKey>): seq<Outcome> {
    if order == [] then []
    else
      var key := order[|order| - 1];
      CancelLog(sessions, order[..|order| - 1]) + (if key in sessions then Cancellations(sessions[key].tasks) else [])
  }

  /** Visits every session once, in any order. */
  ghost predicate Visits(sessions: map<SessionKey, Queue>, order: seq<SessionKey>) {
    && (forall i, j :: 0 <= i < j < |order| ==> order[i] != order[j])
    && (forall k :: k in order <==> k in sessions)
  }

  /** Cancellation: every waiting task is cancelled, then every task still buffered in the input channel. */
  function CancelAll(m: Machine, order: seq<SessionKey>, buffered: seq<Task>): Machine {
    m.(sched := m.sched.(ready := [], sessions := CancelSessions(m.sched.sessions, m.sched.sessions.Keys)),
       received := m.received + buffered,
       log := m.log + CancelLog(m.sched.sessions, order) + Cancellations(buffered),
       cancelling := true)
  }

  predicate Idle(s: Sched) {
    s.active == 0 && s.sessions == map[]
  }

  function Start(limit: nat): Machine {
    Machine(Sched(limit, 0, map[], []), {}, [], [], [], false)
  }
}
