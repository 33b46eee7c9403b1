/**
 * Admission of message deliveries (internal/feishu/gateway.go): how handlers and shutdown share the
 * admission counter, its two channels, the delivery store and the task channel.
 */
module Gateway {
  import opened Delivery

  /** `drained` counts how often the drained channel was closed; closing it twice would panic. */
  datatype Admission = Admission(closed: bool, active: int, drained: nat, aborted: bool)

  function Begun(a: Admission): Admission {
    if a.closed then a else a.(active := a.active + 1)
  }

  function Finished(a: Admission): Admission {
    var active := a.active - 1;
    a.(active := active, drained := if a.closed && active == 0 then a.drained + 1 else a.drained)
  }

  function Stopped(a: Admission): Admission {
    if a.closed then a
    else a.(closed := true, drained := if a.active == 0 then a.drained + 1 else a.drained)
  }

  /** The fields behind the admission mutex; each method is one critical section. */
  class Admissions {
    var admissionClosed: bool
    var activeDeliveries: int
    var drainedCloses: nat
    var admissionAborted: bool

    function State(): Admission
      reads this
    {
      Admission(admissionClosed, activeDeliveries, drainedCloses, admissionAborted)
    }

    constructor ()
      ensures State() == Admission(false, 0, 0, false)
    {
      admissionClosed, activeDeliveries, drainedCloses, admissionAborted := false, 0, 0, false;
    }

    method BeginDelivery() returns (ok: bool)
      modifies this
      ensures State() == Begun(old(State())) && (ok <==> !old(admissionClosed))
    {
      if admissionClosed {
        return false;
      }
      activeDeliveries := activeDeliveries + 1;
      ok := true;
    }

    method FinishDelivery()
      modifies this
      ensures State() == Finished(old(State()))
    {
      activeDeliveries := activeDeliveries - 1;
      if admissionClosed && activeDeliveries == 0 {
        drainedCloses := drainedCloses + 1;
      }
    }

    /** The part of StopAccepting that holds the mutex; its caller then waits for the drained channel. */
    method StopAccepting()
      modifies this
      ensures State() == Stopped(old(State()))
    {
      if !admissionClosed {
        admissionClosed := true;
        if activeDeliveries == 0 {
          drainedCloses := drainedCloses + 1;
        }
      }
    }

    method AbortDeliveries()
      modifies this
      ensures State() == old(State()).(aborted := true)
    {
      if !admissionAborted {
        admissionAborted := true;
      }
    }
  }

  /**
   * A handler is Admitted, then holds its reservation, then has passed the abort check and stands at
   * the send (Cleared); it enqueues its task or undoes the reservation (Undoing), returns, and is Gone.
   */
  datatype Phase = Admitted | Held | Cleared | Undoing | Enqueued | Turned | Gone(enqueued: bool)

  datatype Handler = Handler(id: MessageID, phase: Phase, reservedAt: int)

  datatype Stopper = Pending | ReturnedNil | TimedOut

  datatype State = State(gate: Admission, handlers: seq<Handler>, stoppers: seq<Stopper>, accepted: Accepted,
                         clock: int, tasksClosed: bool, panicked: bool)

  /** How a reservation attempt went in the store: refused by an error, or written. */
  datatype Attempt = Unwritten | Written | WrittenThenCancelled

  datatype Step =
    | Begin(id: MessageID)
    | Ignore(h: nat)
    | Attempting(h: nat, attempt: Attempt, gap: nat)
    | Check(h: nat)
    | Send(h: nat)
    | GiveUp(h: nat)
    | Undo(h: nat, removed: bool)
    | Finish(h: nat)
    | Stop
    | Wake(k: nat)
    | Expire(k: nat)
    | CloseTasks
    | Wait(time: nat)

  predicate At(s: State, h: nat, phase: Phase) {
    h < |s.handlers| && s.handlers[h].phase == phase
  }

  function Moved(s: State, h: nat, phase: Phase): State
    requires h < |s.handlers|
  {
    s.(handlers := s.handlers[h := s.handlers[h].(phase := phase)])
  }

  predicate Returning(s: State, h: nat) {
    At(s, h, Enqueued) || At(s, h, Turned)
  }

  /** A duplicate id, or an error before anything was written, turns the handler away. */
  function Attempted(s: State, h: nat, attempt: Attempt, gap: nat): State
    requires At(s, h, Admitted)
  {
    var id := s.handlers[h].id;
    if attempt.Unwritten? || Refuses(s.accepted, s.clock, id) then Moved(s, h, Turned)
    else
      var at := s.clock + gap;
      s.(accepted := Reserve(s.accepted, s.clock, at, id), clock := at,
         handlers := s.handlers[h := Handler(id, if attempt.Written? then Held else Undoing, at)])
  }

  /** One step; a step that is not possible is skipped. */
  function Next(s: State, step: Step): State {
    match step
    case Begin(id) =>
      s.(gate := Begun(s.gate),
         handlers := if s.gate.closed then s.handlers else s.handlers + [Handler(id, Admitted, 0)])
    case Ignore(h) => if At(s, h, Admitted) then Moved(s, h, Turned) else s
    case Attempting(h, attempt, gap) => if At(s, h, Admitted) then Attempted(s, h, attempt, gap) else s
    case Check(h) => if At(s, h, Held) then Moved(s, h, if s.gate.aborted then Undoing else Cleared) else s
    case Send(h) =>
      if !At(s, h, Cleared) then s
      else if s.tasksClosed then Moved(s, h, Turned).(panicked := true)
      else Moved(s, h, Enqueued)
    case GiveUp(h) => if At(s, h, Cleared) then Moved(s, h, Undoing) else s
    case Undo(h, removed) =>
      if !At(s, h, Undoing) then s
      else Moved(s, h, Turned).(accepted := if removed then Release(s.accepted, s.handlers[h].id) else s.accepted)
    case Finish(h) =>
      if Returning(s, h) then Moved(s, h, Gone(s.handlers[h].phase == Enqueued)).(gate := Finished(s.gate)) else s
    case Stop => s.(gate := Stopped(s.gate), stoppers := s.stoppers + [Pending])
    case Wake(k) =>
      if k < |s.stoppers| && s.stoppers[k].Pending? && s.gate.drained > 0
      then s.(stoppers := s.stoppers[k := ReturnedNil]) else s
    case Expire(k) =>
      if k < |s.stoppers| && s.stoppers[k].Pending?
      then s.(stoppers := s.stoppers[k := TimedOut], gate := s.gate.(aborted := true)) else s
    case CloseTasks => s.(tasksClosed := true)
    case Wait(time) => s.(clock := s.clock + time)
  }

  function Initial(accepted: Accepted, clock: int): State {
    State(Admission(false, 0, 0, false), [], [], accepted, clock, false, false)
  }

  function RunFrom(s: State, steps: seq<Step>): State {
    if steps == [] then s else Next(RunFrom(s, steps[..|steps| - 1]), steps[|steps| - 1])
  }

  /** Any interleaving, from any store. */
  function Run(accepted: Accepted, clock: int, steps: seq<Step>): State {
    RunFrom(Initial(accepted, clock), steps)
  }

  function Live(handlers: seq<Handler>): set<nat> {
    set h | 0 <= h < |handlers| && !handlers[h].phase.Gone?
  }

  ghost predicate GateInv(s: State) {
    && s.gate.active == |Live(s.handlers)|
    && s.gate.drained == (if s.gate.closed && s.gate.active == 0 then 1 else 0)
    && StoppersTold(s)
    && (s.gate.aborted ==> s.gate.closed)
  }

  /** Whoever stops admission finds it closed, and returns nil only when nobody is active. */
  ghost predicate StoppersTold(s: State) {
    && (s.stoppers != [] ==> s.gate.closed)
    && (forall k :: 0 <= k < |s.stoppers| && s.stoppers[k].ReturnedNil? ==> s.gate.active == 0)
    && (forall k :: 0 <= k < |s.stoppers| && s.stoppers[k].TimedOut? ==> s.gate.aborted)
  }

  lemma LiveUpdate(handlers: seq<Handler>, h: nat, handler: Handler)
    requires h < |handlers|
    ensures |Live(handlers[h := handler])| ==
            |Live(handlers)| + (if handler.phase.Gone? then 0 else 1) - (if handlers[h].phase.Gone? then 0 else 1)
  {
    var others := Live(handlers) - {h};
    assert Live(handlers) == if handlers[h].phase.Gone? then others else others + {h};
    assert Live(handlers[h := handler]) == if handler.phase.Gone? then others else others + {h};
  }

  lemma LiveAdd(handlers: seq<Handler>, handler: Handler)
    requires !handler.phase.Gone?
    ensures |Live(handlers + [handler])| == |Live(handlers)| + 1
  {
    assert Live(handlers + [handler]) == Live(handlers) + {|handlers|};
  }

  lemma LiveSome(handlers: seq<Handler>, h: nat)
    requires h < |handlers| && !handlers[h].phase.Gone?
    ensures |Live(handlers)| > 0
  {
    assert h in Live(handlers);
  }

  /** Only Finish lets a handler go. */
  lemma LiveStep(s: State, step: Step)
    requires !step.Begin?
    ensures |Live(Next(s, step).handlers)| ==
            |Live(s.handlers)| - (if step.Finish? && Returning(s, step.h) then 1 else 0)
  {
    hide Live;
    var t := Next(s, step);
    if step.Stop? || step.Wake? || step.Expire? || step.CloseTasks? || step.Wait? {
    } else if step.h < |s.handlers| {
      LiveUpdate(s.handlers, step.h, t.handlers[step.h]);
      assert t.handlers == s.handlers[step.h := t.handlers[step.h]];
    }
  }

  lemma StopperStep(s: State, step: Step, k: nat)
    requires GateInv(s) && k < |Next(s, step).stoppers|
    requires Next(s, step).stoppers[k].ReturnedNil?
    ensures Next(s, step).gate.active == 0
  {
    if k < |s.stoppers| {
      assert s.stoppers[k].ReturnedNil? ==> s.gate.active == 0;
    }
    if step.Finish? && Returning(s, step.h) {
      LiveSome(s.handlers, step.h);
    }
  }

  lemma CountStep(s: State, step: Step)
    requires GateInv(s)
    ensures Next(s, step).gate.active == |Live(Next(s, step).handlers)|
    ensures Next(s, step).gate.drained == (if Next(s, step).gate.closed && Next(s, step).gate.active == 0 then 1 else 0)
  {
    if step.Begin? {
      if !s.gate.closed {
        LiveAdd(s.handlers, Handler(step.id, Admitted, 0));
      }
    } else {
      LiveStep(s, step);
      if step.Finish? && Returning(s, step.h) {
        LiveSome(s.handlers, step.h);
      }
    }
  }

  lemma GateStep(s: State, step: Step)
    requires GateInv(s)
    ensures GateInv(Next(s, step))
  {
    CountStep(s, step);
    var t := Next(s, step);
    forall k | 0 <= k < |t.stoppers| && t.stoppers[k].ReturnedNil? ensures t.gate.active == 0 {
      StopperStep(s, step, k);
    }
  }

  lemma {:induction false} GateHolds(accepted: Accepted, clock: int, steps: seq<Step>)
    ensures GateInv(Run(accepted, clock, steps))
  {
    if steps == [] {
      assert Live([]) == {};
    } else {
      GateHolds(accepted, clock, steps[..|steps| - 1]);
      GateStep(Run(accepted, clock, steps[..|steps| - 1]), steps[|steps| - 1]);
    }
  }

  /** The drained channel is closed at most once, and is closed exactly when admission is and every handler is gone. */
  lemma DrainedOnce(accepted: Accepted, clock: int, steps: seq<Step>)
    ensures var s := Run(accepted, clock, steps);
            && s.gate.drained <= 1
            && (s.gate.drained == 1 <==>
                s.gate.closed && forall h :: 0 <= h < |s.handlers| ==> s.handlers[h].phase.Gone?)
  {
    GateHolds(accepted, clock, steps);
    var s := Run(accepted, clock, steps);
    if h :| 0 <= h < |s.handlers| && !s.handlers[h].phase.Gone? {
      LiveSome(s.handlers, h);
    } else {
      assert Live(s.handlers) == {};
    }
  }

  ghost predicate Quiet(s: State) {
    s.gate.closed && forall h :: 0 <= h < |s.handlers| ==> s.handlers[h].phase.Gone?
  }

  lemma {:induction false} QuietStays(s: State, more: seq<Step>)
    requires Quiet(s)
    ensures RunFrom(s, more).handlers == s.handlers && RunFrom(s, more).gate.closed
    ensures RunFrom(s, more).panicked == s.panicked && RunFrom(s, more).accepted == s.accepted
  {
    if more != [] {
      QuietStays(s, more[..|more| - 1]);
    }
  }

  /**
   * Once some StopAccepting call returned nil, whatever happens later no handler is active, none
   * starts, and closing the task channel at any time makes no send panic.
   */
  lemma NilMeansQuiet(accepted: Accepted, clock: int, steps: seq<Step>, k: nat, more: seq<Step>)
    requires k < |Run(accepted, clock, steps).stoppers| && Run(accepted, clock, steps).stoppers[k].ReturnedNil?
    ensures var s := Run(accepted, clock, steps);
            var t := RunFrom(s, more);
            && Quiet(t)
            && t.handlers == s.handlers && t.accepted == s.accepted && t.panicked == s.panicked
  {
    var s := Run(accepted, clock, steps);
    GateHolds(accepted, clock, steps);
    DrainedOnce(accepted, clock, steps);
    QuietStays(s, more);
  }

  lemma AbortedNext(s: State, step: Step, h: nat)
    requires s.gate.aborted && s.gate.closed
    ensures var t := Next(s, step);
            && t.gate.aborted && t.gate.closed && |t.handlers| == |s.handlers|
            && (At(t, h, Cleared) ==> At(s, h, Cleared))
  {
    hide Reserve, Refuses, Release;
  }

  lemma {:induction false} AbortedStays(s: State, more: seq<Step>, h: nat)
    requires s.gate.aborted && s.gate.closed
    ensures var t := RunFrom(s, more);
            && t.gate.aborted && t.gate.closed && |t.handlers| == |s.handlers|
            && (At(t, h, Cleared) ==> At(s, h, Cleared))
  {
    hide Next, At;
    if more != [] {
      AbortedStays(s, more[..|more| - 1], h);
      AbortedNext(RunFrom(s, more[..|more| - 1]), more[|more| - 1], h);
    }
  }

  /**
   * Once some StopAccepting call timed out, whatever happens later none starts and no further handler reaches
   * its send.
   */
  lemma TimeoutAborts(accepted: Accepted, clock: int, steps: seq<Step>, k: nat, more: seq<Step>, h: nat)
    requires k < |Run(accepted, clock, steps).stoppers| && Run(accepted, clock, steps).stoppers[k].TimedOut?
    ensures var s := Run(accepted, clock, steps);
            var t := RunFrom(s, more);
            && t.gate.aborted && |t.handlers| == |s.handlers|
            && (At(t, h, Cleared) ==> At(s, h, Cleared))
  {
    var s := Run(accepted, clock, steps);
    GateHolds(accepted, clock, steps);
    AbortedStays(s, more, h);
  }

  /** Some later interleaving sends on the closed channel. */
  ghost predicate MayPanic(s: State) {
    exists more: seq<Step> :: RunFrom(s, more).panicked
  }

  /**
   * Handlers that can still reach the send: those standing at it, and unless deliveries were aborted
   * those on their way there or, with admission open, yet to come.
   */
  ghost predicate MayStillSend(s: State) {
    || (exists h :: At(s, h, Cleared))
    || (!s.gate.aborted && exists h :: At(s, h, Admitted) || At(s, h, Held))
    || !s.gate.closed
  }

  lemma NoMoreSends(s: State, step: Step)
    requires s.tasksClosed && !MayStillSend(s) && !s.panicked
    ensures Next(s, step).tasksClosed && !MayStillSend(Next(s, step)) && !Next(s, step).panicked
  {
    var t := Next(s, step);
    assert t.gate.closed && (s.gate.aborted ==> t.gate.aborted);
    forall h ensures !At(t, h, Cleared) {
      assert !At(s, h, Cleared) && (At(s, h, Held) ==> s.gate.aborted);
    }
    forall h ensures !t.gate.aborted ==> !At(t, h, Admitted) && !At(t, h, Held) {
      assert !s.gate.aborted ==> !At(s, h, Admitted) && !At(s, h, Held);
    }
  }

  lemma {:induction false} NeverSends(s: State, more: seq<Step>)
    requires s.tasksClosed && !MayStillSend(s) && !s.panicked
    ensures RunFrom(s, more).tasksClosed && !MayStillSend(RunFrom(s, more)) && !RunFrom(s, more).panicked
  {
    if more != [] {
      NeverSends(s, more[..|more| - 1]);
      NoMoreSends(RunFrom(s, more[..|more| - 1]), more[|more| - 1]);
    }
  }

  lemma Then(s: State, step: Step)
    requires MayPanic(Next(s, step))
    ensures MayPanic(s)
  {
    var more: seq<Step> :| RunFrom(Next(s, step), more).panicked;
    Prepend(s, step, more);
    assert RunFrom(s, [step] + more).panicked;
  }

  lemma {:induction false} Prepend(s: State, step: Step, more: seq<Step>)
    ensures RunFrom(s, [step] + more) == RunFrom(Next(s, step), more)
  {
    var all := [step] + more;
    if more == [] {
      assert all[..0] == [];
    } else {
      Prepend(s, step, more[..|more| - 1]);
      assert all[..|all| - 1] == [step] + more[..|more| - 1];
    }
  }

  lemma ClearedMayPanic(s: State, h: nat)
    requires s.tasksClosed && At(s, h, Cleared)
    ensures MayPanic(s)
  {
    assert RunFrom(s, [Send(h)][..0]) == s;
    assert RunFrom(s, [Send(h)]).panicked;
  }

  lemma HeldMayPanic(s: State, h: nat)
    requires s.tasksClosed && !s.gate.aborted && At(s, h, Held)
    ensures MayPanic(s)
  {
    ClearedMayPanic(Next(s, Check(h)), h);
    Then(s, Check(h));
  }

  lemma AdmittedMayPanic(s: State, h: nat)
    requires s.tasksClosed && !s.gate.aborted && At(s, h, Admitted)
    ensures MayPanic(s)
  {
    var id := s.handlers[h].id;
    var time: nat := if Refuses(s.accepted, s.clock, id) then s.accepted[id] + RETENTION + 1 - s.clock else 0;
    var later := Next(s, Wait(time));
    assert !Refuses(later.accepted, later.clock, id);
    HeldMayPanic(Next(later, Attempting(h, Written, 0)), h);
    Then(later, Attempting(h, Written, 0));
    Then(s, Wait(time));
  }

  /**
   * Closing the task channel can lead to a panicking send exactly when some handler may still reach
   * its send at that moment. The shutdown code closes it after two waits whether or not they
   * succeeded: when both timed out, deliveries are aborted, and what remains is a handler that had
   * passed its abort check but not yet sent.
   */
  lemma CloseMayPanicIff(s: State)
    requires GateInv(s) && !s.panicked
    ensures MayPanic(s.(tasksClosed := true)) <==> MayStillSend(s)
    ensures s.gate.aborted ==> (MayPanic(s.(tasksClosed := true)) <==> exists h :: At(s, h, Cleared))
  {
    var t := s.(tasksClosed := true);
    if h :| At(s, h, Cleared) {
      ClearedMayPanic(t, h);
    } else if !s.gate.closed {
      var id := MessageID("");
      var u := Next(t, Begin(id));
      AdmittedMayPanic(u, |s.handlers|);
      Then(t, Begin(id));
    } else if !s.gate.aborted && exists h :: At(s, h, Admitted) || At(s, h, Held) {
      var h :| At(s, h, Admitted) || At(s, h, Held);
      if At(s, h, Admitted) {
        AdmittedMayPanic(t, h);
      } else {
        HeldMayPanic(t, h);
      }
    } else {
      assert forall h, phase :: At(t, h, phase) ==> At(s, h, phase);
      assert !MayStillSend(t);
      forall more: seq<Step> ensures !RunFrom(t, more).panicked {
        NeverSends(t, more);
      }
    }
  }

  /** Two waits that timed out, with a handler between its abort check and its send: the close then races. */
  lemma TimedOutCloseRaces(id: MessageID)
    ensures var steps := [Begin(id), Attempting(0, Written, 0), Check(0), Stop, Expire(0), Stop, Expire(1),
                          CloseTasks, Send(0)];
            Run(map[], 0, steps).panicked && Run(map[], 0, steps).stoppers == [TimedOut, TimedOut]
  {
    var s0 := Initial(map[], 0);
    var r1 := [Begin(id)];
    Snoc(s0, [], Begin(id));
    var r2 := r1 + [Attempting(0, Written, 0)];
    Snoc(s0, r1, Attempting(0, Written, 0));
    var r3 := r2 + [Check(0)];
    Snoc(s0, r2, Check(0));
    assert RunFrom(s0, r3).handlers == [Handler(id, Cleared, 0)];
    Snoc(s0, r3, Stop);
    Snoc(s0, r3 + [Stop], Expire(0));
    var r5 := r3 + [Stop] + [Expire(0)];
    Snoc(s0, r5, Stop);
    Snoc(s0, r5 + [Stop], Expire(1));
    var r7 := r5 + [Stop] + [Expire(1)];
    assert RunFrom(s0, r7).stoppers == [TimedOut, TimedOut];
    Snoc(s0, r7, CloseTasks);
    Snoc(s0, r7 + [CloseTasks], Send(0));
    assert r7 + [CloseTasks] + [Send(0)] ==
           [Begin(id), Attempting(0, Written, 0), Check(0), Stop, Expire(0), Stop, Expire(1), CloseTasks, Send(0)];
  }

  lemma Snoc(s: State, steps: seq<Step>, step: Step)
    ensures RunFrom(s, steps + [step]) == Next(RunFrom(s, steps), step)
  {
    assert (steps + [step])[..|steps|] == steps;
  }
}
