/** What handlers and the store owe each message: one enqueued task per retention window. */
module GatewayOnce {
  import opened Delivery
  import opened Gateway

  /** A handler whose accepted reservation was not given back. */
  predicate Holding(handler: Handler) {
    handler.phase.Held? || handler.phase.Cleared? || handler.phase.Undoing? || Sent(handler)
  }

  predicate Sent(handler: Handler) {
    handler.phase.Enqueued? || (handler.phase.Gone? && handler.phase.enqueued)
  }

  /** Bound to return without having enqueued. */
  predicate GivingUp(handler: Handler) {
    handler.phase.Undoing? || handler.phase.Turned? || (handler.phase.Gone? && !handler.phase.enqueued)
  }

  /** Every release that reaches the store comes within the retention of the releasing handler's own reservation. */
  ghost predicate TimelyFrom(s: State, steps: seq<Step>)
    decreases |steps|
  {
    steps == [] ||
    (TimelyFrom(s, steps[..|steps| - 1]) && TimelyStep(RunFrom(s, steps[..|steps| - 1]), steps[|steps| - 1]))
  }

  ghost predicate Timely(accepted: Accepted, clock: int, steps: seq<Step>) {
    TimelyFrom(Initial(accepted, clock), steps)
  }

  predicate TimelyStep(s: State, step: Step) {
    step.Undo? && step.removed && At(s, step.h, Undoing) ==> !Expired(s.handlers[step.h].reservedAt, s.clock)
  }

  /** A reservation is on record until it expires, */
  ghost predicate OnRecord(s: State) {
    forall h :: 0 <= h < |s.handlers| && Holding(s.handlers[h]) && !Expired(s.handlers[h].reservedAt, s.clock) ==>
      s.handlers[h].id in s.accepted && s.accepted[s.handlers[h].id] == s.handlers[h].reservedAt
  }

  predicate Apart(a: Handler, b: Handler) {
    a.reservedAt > b.reservedAt + RETENTION || b.reservedAt > a.reservedAt + RETENTION
  }

  /** and reservations of one id are far apart. */
  ghost predicate AllApart(s: State) {
    forall g, h ::
      0 <= g < h < |s.handlers| && s.handlers[g].id == s.handlers[h].id && Holding(s.handlers[g]) &&
        Holding(s.handlers[h]) ==>
        Apart(s.handlers[g], s.handlers[h])
  }

  ghost predicate Past(s: State) {
    forall h :: 0 <= h < |s.handlers| && Holding(s.handlers[h]) ==> s.handlers[h].reservedAt <= s.clock
  }

  ghost predicate Inv(s: State) {
    OnRecord(s) && AllApart(s) && Past(s)
  }

  /** Holding is only begun by an accepted attempt. */
  lemma HoldingComesFrom(s: State, step: Step, h: nat)
    requires h < |Next(s, step).handlers| && Holding(Next(s, step).handlers[h])
    requires !(step.Attempting? && step.h == h && At(s, h, Admitted))
    ensures h < |s.handlers| && Holding(s.handlers[h])
    ensures Next(s, step).handlers[h].id == s.handlers[h].id &&
            Next(s, step).handlers[h].reservedAt == s.handlers[h].reservedAt
    ensures Next(s, step).clock >= s.clock
  {
  }

  lemma OnRecordAt(s: State, step: Step, h: nat)
    requires Inv(s) && TimelyStep(s, step)
    requires h < |Next(s, step).handlers| && Holding(Next(s, step).handlers[h])
    requires !Expired(Next(s, step).handlers[h].reservedAt, Next(s, step).clock)
    ensures Next(s, step).handlers[h].id in Next(s, step).accepted
    ensures Next(s, step).accepted[Next(s, step).handlers[h].id] == Next(s, step).handlers[h].reservedAt
  {
    if !(step.Attempting? && step.h == h && At(s, h, Admitted)) {
      HoldingComesFrom(s, step, h);
      assert !Expired(s.handlers[h].reservedAt, s.clock);
      if step.Undo? && step.removed && At(s, step.h, Undoing) {
        NotItsOwn(s, step.h, h);
      }
    }
  }

  /** Within the window a release removes nobody else's reservation. */
  lemma NotItsOwn(s: State, g: nat, h: nat)
    requires Inv(s) && At(s, g, Undoing) && !Expired(s.handlers[g].reservedAt, s.clock)
    requires h < |s.handlers| && Holding(s.handlers[h]) && !Expired(s.handlers[h].reservedAt, s.clock) && g != h
    ensures s.handlers[g].id != s.handlers[h].id
  {
  }

  lemma ApartAt(s: State, step: Step, g: nat, h: nat)
    requires Inv(s) && g < h < |Next(s, step).handlers|
    requires Next(s, step).handlers[g].id == Next(s, step).handlers[h].id
    requires Holding(Next(s, step).handlers[g]) && Holding(Next(s, step).handlers[h])
    ensures Apart(Next(s, step).handlers[g], Next(s, step).handlers[h])
  {
    if step.Attempting? && step.h == g && At(s, g, Admitted) {
      HoldingComesFrom(s, step, h);
    } else if step.Attempting? && step.h == h && At(s, h, Admitted) {
      HoldingComesFrom(s, step, g);
    } else {
      HoldingComesFrom(s, step, g);
      HoldingComesFrom(s, step, h);
      assert Apart(s.handlers[g], s.handlers[h]);
    }
  }

  lemma StepKeepsInv(s: State, step: Step)
    requires Inv(s) && TimelyStep(s, step)
    ensures Inv(Next(s, step))
  {
    var t := Next(s, step);
    forall h | 0 <= h < |t.handlers| && Holding(t.handlers[h]) && !Expired(t.handlers[h].reservedAt, t.clock)
      ensures t.handlers[h].id in t.accepted && t.accepted[t.handlers[h].id] == t.handlers[h].reservedAt
    {
      OnRecordAt(s, step, h);
    }
    forall g, h | 0 <= g < h < |t.handlers| && t.handlers[g].id == t.handlers[h].id && Holding(t.handlers[g]) &&
        Holding(t.handlers[h])
      ensures Apart(t.handlers[g], t.handlers[h])
    {
      ApartAt(s, step, g, h);
    }
    forall h | 0 <= h < |t.handlers| && Holding(t.handlers[h]) ensures t.handlers[h].reservedAt <= t.clock {
      if !(step.Attempting? && step.h == h && At(s, h, Admitted)) {
        HoldingComesFrom(s, step, h);
      }
    }
  }

  lemma {:induction false} InvHolds(s: State, steps: seq<Step>)
    requires Inv(s) && TimelyFrom(s, steps)
    ensures Inv(RunFrom(s, steps))
    decreases |steps|
  {
    if steps != [] {
      InvHolds(s, steps[..|steps| - 1]);
      StepKeepsInv(RunFrom(s, steps[..|steps| - 1]), steps[|steps| - 1]);
    }
  }

  /**
   * In every interleaving of deliveries and shutdown, two tasks enqueued for one message were reserved
   * more than the retention apart, provided every rollback comes within the retention of the
   * reservation it rolls back.
   */
  lemma EnqueuedOncePerWindow(accepted: Accepted, clock: int, steps: seq<Step>, g: nat, h: nat)
    requires Timely(accepted, clock, steps)
    requires g < h < |Run(accepted, clock, steps).handlers|
    requires Sent(Run(accepted, clock, steps).handlers[g]) && Sent(Run(accepted, clock, steps).handlers[h])
    requires Run(accepted, clock, steps).handlers[g].id == Run(accepted, clock, steps).handlers[h].id
    ensures Apart(Run(accepted, clock, steps).handlers[g], Run(accepted, clock, steps).handlers[h])
  {
    InvHolds(Initial(accepted, clock), steps);
  }

  /** The proviso is needed: a rollback that comes too late frees an id another handler has enqueued. */
  lemma LateRollbackForgets(id: MessageID)
    ensures exists steps: seq<Step> ::
              !Timely(map[], 0, steps) &&
              |Run(map[], 0, steps).handlers| == 3 &&
              Run(map[], 0, steps).handlers[1] == Handler(id, Enqueued, RETENTION + 1) &&
              Run(map[], 0, steps).handlers[2] == Handler(id, Enqueued, RETENTION + 1)
  {
    var second := LateSecond(id);
    var s0, s2 := Initial(map[], 0), Run(map[], 0, second);
    var undone := second + [Undo(0, true)];
    Snoc(s0, second, Undo(0, true));
    assert undone[..|second|] == second;
    assert !Timely(map[], 0, undone);
    var third := undone + [Attempting(2, Written, 0)] + [Check(2)] + [Send(2)];
    OneDelivery(Next(s2, Undo(0, true)), 2);
    Snoc(s0, undone, Attempting(2, Written, 0));
    Snoc(s0, undone + [Attempting(2, Written, 0)], Check(2));
    Snoc(s0, undone + [Attempting(2, Written, 0)] + [Check(2)], Send(2));
    UntimelyStays(map[], 0, undone, Attempting(2, Written, 0));
    UntimelyStays(map[], 0, undone + [Attempting(2, Written, 0)], Check(2));
    UntimelyStays(map[], 0, undone + [Attempting(2, Written, 0)] + [Check(2)], Send(2));
    assert !Timely(map[], 0, third);
  }

  /** Three steps take an admitted handler whose id is free through its send. */
  lemma OneDelivery(s: State, h: nat)
    requires At(s, h, Admitted) && !s.gate.aborted && !s.tasksClosed && !Refuses(s.accepted, s.clock, s.handlers[h].id)
    ensures Next(Next(Next(s, Attempting(h, Written, 0)), Check(h)), Send(h)) ==
            s.(accepted := Reserve(s.accepted, s.clock, s.clock, s.handlers[h].id),
               handlers := s.handlers[h := Handler(s.handlers[h].id, Enqueued, s.clock)])
  {
  }

  /** Three handlers of one message; the first is still undoing its reservation when the second enqueues. */
  lemma LateFirst(id: MessageID) returns (steps: seq<Step>)
    ensures Run(map[], 0, steps) == Initial(map[id := 0], RETENTION + 1).(
                gate := Admission(false, 3, 0, false),
                handlers := [Handler(id, Undoing, 0), Handler(id, Admitted, 0), Handler(id, Admitted, 0)])
  {
    var s0 := Initial(map[], 0);
    var begins := ThreeBegun(id);
    var s3 := RunFrom(s0, begins);
    Snoc(s0, begins, Attempting(0, Written, 0));
    var s4 := Next(s3, Attempting(0, Written, 0));
    assert s4.handlers == [Handler(id, Held, 0), Handler(id, Admitted, 0), Handler(id, Admitted, 0)];
    assert s4.accepted == map[id := 0];
    Snoc(s0, begins + [Attempting(0, Written, 0)], Check(0));
    Snoc(s0, begins + [Attempting(0, Written, 0)] + [Check(0)], GiveUp(0));
    Snoc(s0, begins + [Attempting(0, Written, 0)] + [Check(0)] + [GiveUp(0)], Wait(RETENTION + 1));
    steps := begins + [Attempting(0, Written, 0)] + [Check(0)] + [GiveUp(0)] + [Wait(RETENTION + 1)];
  }

  lemma ThreeBegun(id: MessageID) returns (steps: seq<Step>)
    ensures Run(map[], 0, steps) == Initial(map[], 0).(
                gate := Admission(false, 3, 0, false),
                handlers := [Handler(id, Admitted, 0), Handler(id, Admitted, 0), Handler(id, Admitted, 0)])
  {
    var s0 := Initial(map[], 0);
    Snoc(s0, [], Begin(id));
    Snoc(s0, [Begin(id)], Begin(id));
    Snoc(s0, [Begin(id)] + [Begin(id)], Begin(id));
    steps := [Begin(id)] + [Begin(id)] + [Begin(id)];
    var s3 := RunFrom(s0, steps);
    assert s3.handlers == [Handler(id, Admitted, 0), Handler(id, Admitted, 0), Handler(id, Admitted, 0)];
  }

  lemma LateSecond(id: MessageID) returns (steps: seq<Step>)
    ensures Run(map[], 0, steps) == Initial(map[id := RETENTION + 1], RETENTION + 1).(
                gate := Admission(false, 3, 0, false),
                handlers := [Handler(id, Undoing, 0), Handler(id, Enqueued, RETENTION + 1), Handler(id, Admitted, 0)])
  {
    var s0 := Initial(map[], 0);
    var first := LateFirst(id);
    OneDelivery(Run(map[], 0, first), 1);
    Snoc(s0, first, Attempting(1, Written, 0));
    Snoc(s0, first + [Attempting(1, Written, 0)], Check(1));
    Snoc(s0, first + [Attempting(1, Written, 0)] + [Check(1)], Send(1));
    steps := first + [Attempting(1, Written, 0)] + [Check(1)] + [Send(1)];
    var s2 := RunFrom(s0, steps);
    assert s2.accepted == map[id := RETENTION + 1];
  }

  lemma UntimelyStays(accepted: Accepted, clock: int, steps: seq<Step>, step: Step)
    requires !Timely(accepted, clock, steps)
    ensures !Timely(accepted, clock, steps + [step])
  {
    assert (steps + [step])[..|steps|] == steps;
  }

  lemma FateStep(s: State, h: nat, step: Step)
    requires h < |s.handlers|
    ensures h < |Next(s, step).handlers|
    ensures Sent(s.handlers[h]) ==>
            Sent(Next(s, step).handlers[h]) && Next(s, step).handlers[h].reservedAt == s.handlers[h].reservedAt
    ensures GivingUp(s.handlers[h]) ==> GivingUp(Next(s, step).handlers[h])
  {
  }

  /** Once a handler has enqueued its task, nothing it does later gives the reservation back, and vice versa. */
  lemma {:induction false} EnqueuesOrRollsBack(s: State, h: nat, more: seq<Step>)
    requires h < |s.handlers|
    ensures h < |RunFrom(s, more).handlers|
    ensures Sent(s.handlers[h]) ==>
            Sent(RunFrom(s, more).handlers[h]) && RunFrom(s, more).handlers[h].reservedAt == s.handlers[h].reservedAt
    ensures GivingUp(s.handlers[h]) ==> GivingUp(RunFrom(s, more).handlers[h])
  {
    if more != [] {
      EnqueuesOrRollsBack(s, h, more[..|more| - 1]);
      FateStep(RunFrom(s, more[..|more| - 1]), h, more[|more| - 1]);
    }
  }

  /** A duplicate of a message within the retention is turned away without touching the store. */
  lemma DuplicateTurnedAway(s: State, h: nat, g: nat, attempt: Attempt, gap: nat)
    requires Inv(s) && At(s, h, Admitted)
    requires g < |s.handlers| && Holding(s.handlers[g]) && s.handlers[g].id == s.handlers[h].id
    requires !Expired(s.handlers[g].reservedAt, s.clock)
    ensures Next(s, Attempting(h, attempt, gap)) == Moved(s, h, Turned)
  {
  }

  lemma NotAdmittedStep(s: State, step: Step, h: nat)
    requires h < |s.handlers| && !At(s, h, Admitted)
    ensures h < |Next(s, step).handlers| && !At(Next(s, step), h, Admitted)
  {
  }

  lemma {:induction false} NotAdmittedAgain(s: State, more: seq<Step>, h: nat)
    requires h < |s.handlers| && !At(s, h, Admitted)
    ensures h < |RunFrom(s, more).handlers| && !At(RunFrom(s, more), h, Admitted)
  {
    if more != [] {
      NotAdmittedAgain(s, more[..|more| - 1], h);
      NotAdmittedStep(RunFrom(s, more[..|more| - 1]), more[|more| - 1], h);
    }
  }

  /** Holding is begun only by an attempt, which another reservation in force turns away. */
  lemma HeldAgainst(u: State, step: Step, g: nat, h: nat)
    requires Inv(u) && g != h && g < |u.handlers| && !At(u, g, Admitted)
    requires h < |u.handlers| && u.handlers[h].id == u.handlers[g].id ==> !Holding(u.handlers[h])
    requires var t := Next(u, step);
             && Holding(t.handlers[g]) && !Expired(t.handlers[g].reservedAt, t.clock)
             && h < |t.handlers| && t.handlers[h].id == t.handlers[g].id
    ensures Holding(u.handlers[g]) && !Expired(u.handlers[g].reservedAt, u.clock) && !Holding(Next(u, step).handlers[h])
  {
    HoldingComesFrom(u, step, g);
    if step.Attempting? && step.h == h && At(u, h, Admitted) {
      DuplicateTurnedAway(u, h, g, step.attempt, step.gap);
    }
  }

  /**
   * As long as a handler's reservation is held and unexpired, no delivery of the same message that was waiting
   * or came since has reserved it, let alone enqueued a task, whatever else happened.
   */
  lemma {:induction false} DuplicatesNeverHold(s: State, more: seq<Step>, g: nat, h: nat)
    requires Inv(s) && TimelyFrom(s, more) && g != h
    requires g < |s.handlers| && !At(s, g, Admitted) && (h < |s.handlers| ==> At(s, h, Admitted))
    requires var t := RunFrom(s, more);
             && g < |t.handlers| && Holding(t.handlers[g]) && !Expired(t.handlers[g].reservedAt, t.clock)
             && h < |t.handlers| && t.handlers[h].id == t.handlers[g].id
    ensures !Holding(RunFrom(s, more).handlers[h])
  {
    if more != [] {
      var u, step := RunFrom(s, more[..|more| - 1]), more[|more| - 1];
      InvHolds(s, more[..|more| - 1]);
      NotAdmittedAgain(s, more[..|more| - 1], g);
      HoldingComesFrom(u, step, g);
      if h < |u.handlers| {
        SameID(u, step, g);
        SameID(u, step, h);
        DuplicatesNeverHold(s, more[..|more| - 1], g, h);
      }
      HeldAgainst(u, step, g, h);
    }
  }

  lemma SameID(s: State, step: Step, h: nat)
    requires h < |s.handlers|
    ensures h < |Next(s, step).handlers| && Next(s, step).handlers[h].id == s.handlers[h].id
    ensures Next(s, step).clock >= s.clock
  {
  }
}
