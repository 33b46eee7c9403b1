/**
 * A rollback that comes after its own reservation expired: what it takes for it to do harm, for every
 * state the gateway and the store can be in.
 */
module GatewayLate {
  import opened Delivery
  import opened Gateway
  import opened GatewayOnce

  /** Two tasks of one message, reserved within the retention of each other. */
  ghost predicate Doubled(s: State, id: MessageID) {
    exists a, b :: 0 <= a < b < |s.handlers| && s.handlers[a].id == id && s.handlers[b].id == id &&
      Sent(s.handlers[a]) && Sent(s.handlers[b]) && !Apart(s.handlers[a], s.handlers[b])
  }

  /** Some continuation without another late rollback enqueues the message twice. */
  ghost predicate MayDouble(s: State, id: MessageID) {
    exists more: seq<Step> :: TimelyFrom(s, more) && Doubled(RunFrom(s, more), id)
  }

  /** Another handler of the message has an unexpired reservation: the one on record, under the invariant. */
  predicate HoldsToo(s: State, h: nat, g: nat)
    requires h < |s.handlers|
  {
    g < |s.handlers| && g != h && s.handlers[g].id == s.handlers[h].id && Holding(s.handlers[g]) &&
    !Expired(s.handlers[g].reservedAt, s.clock)
  }

  predicate Waiting(s: State, id: MessageID, k: nat) {
    At(s, k, Admitted) && s.handlers[k].id == id
  }

  /** One handler of the message, or two, can still be admitted and reserve. */
  ghost predicate OneMore(s: State, id: MessageID) {
    !s.gate.closed || exists k :: Waiting(s, id, k)
  }

  ghost predicate TwoMore(s: State, id: MessageID) {
    !s.gate.closed || exists j, k :: j < k && Waiting(s, id, j) && Waiting(s, id, k)
  }

  /**
   * Sends are still possible, another handler holds the reservation on record, and enough handlers can
   * follow: one, if that handler has sent or still can; two, if it is itself about to roll back.
   */
  ghost predicate Harmful(s: State, h: nat)
    requires h < |s.handlers|
  {
    && !s.tasksClosed && !s.gate.aborted
    && exists g :: HoldsToo(s, h, g) &&
         if At(s, g, Undoing) then TwoMore(s, s.handlers[h].id) else OneMore(s, s.handlers[h].id)
  }

  // ---- Harm is reachable ----

  lemma {:induction false} ConsTimely(s: State, step: Step, more: seq<Step>)
    requires TimelyStep(s, step) && TimelyFrom(Next(s, step), more)
    ensures TimelyFrom(s, [step] + more)
    decreases |more|
  {
    hide Next, TimelyStep;
    var all := [step] + more;
    if more == [] {
      assert all[..0] == [] && TimelyFrom(s, []) && RunFrom(s, []) == s;
    } else {
      var last := |more| - 1;
      ConsTimely(s, step, more[..last]);
      Prepend(s, step, more[..last]);
      assert all[..|more|] == [step] + more[..last] && all[|more|] == more[last];
    }
  }

  lemma First(s: State, step: Step, id: MessageID)
    requires TimelyStep(s, step) && MayDouble(Next(s, step), id)
    ensures MayDouble(s, id)
  {
    hide TimelyStep, Doubled, Next;
    var more :| TimelyFrom(Next(s, step), more) && Doubled(RunFrom(Next(s, step), more), id);
    ConsTimely(s, step, more);
    Prepend(s, step, more);
  }

  lemma AlreadyDoubled(s: State, id: MessageID)
    requires Doubled(s, id)
    ensures MayDouble(s, id)
  {
    assert TimelyFrom(s, []) && RunFrom(s, []) == s;
  }

  predicate Open(s: State) {
    !s.tasksClosed && !s.gate.aborted
  }

  /** A message that is free and has a task within the retention can be enqueued again by one more handler. */
  lemma OneFollows(s: State, id: MessageID, g: nat)
    requires Open(s) && id !in s.accepted && OneMore(s, id)
    requires g < |s.handlers| && Sent(s.handlers[g]) && s.handlers[g].id == id
    requires s.handlers[g].reservedAt <= s.clock && !Expired(s.handlers[g].reservedAt, s.clock)
    ensures MayDouble(s, id)
  {
    if k :| Waiting(s, id, k) {
      WaitingFollows(s, id, g, k);
    } else {
      WaitingFollows(Next(s, Begin(id)), id, g, |s.handlers|);
      First(s, Begin(id), id);
    }
  }

  lemma WaitingFollows(s: State, id: MessageID, g: nat, k: nat)
    requires Open(s) && id !in s.accepted && Waiting(s, id, k)
    requires g < |s.handlers| && Sent(s.handlers[g]) && s.handlers[g].id == id
    requires s.handlers[g].reservedAt <= s.clock && !Expired(s.handlers[g].reservedAt, s.clock)
    ensures MayDouble(s, id)
  {
    OneDelivery(s, k);
    var s1 := Next(s, Attempting(k, Written, 0));
    var s2 := Next(s1, Check(k));
    var s3 := Next(s2, Send(k));
    if g < k {
      assert !Apart(s3.handlers[g], s3.handlers[k]);
    } else {
      assert !Apart(s3.handlers[k], s3.handlers[g]);
    }
    AlreadyDoubled(s3, id);
    First(s2, Send(k), id);
    First(s1, Check(k), id);
    First(s, Attempting(k, Written, 0), id);
  }

  /** A holder that is not rolling back sends first. */
  lemma HolderSends(s: State, id: MessageID, g: nat)
    requires Open(s) && id !in s.accepted && OneMore(s, id)
    requires g < |s.handlers| && Holding(s.handlers[g]) && !At(s, g, Undoing) && s.handlers[g].id == id
    requires s.handlers[g].reservedAt <= s.clock && !Expired(s.handlers[g].reservedAt, s.clock)
    ensures MayDouble(s, id)
    decreases At(s, g, Held)
  {
    if At(s, g, Held) {
      MoreStays(s, id, Check(g));
      HolderSends(Next(s, Check(g)), id, g);
      First(s, Check(g), id);
    } else if At(s, g, Cleared) {
      MoreStays(s, id, Send(g));
      OneFollows(Next(s, Send(g)), id, g);
      First(s, Send(g), id);
    } else {
      OneFollows(s, id, g);
    }
  }

  lemma MoreStays(s: State, id: MessageID, step: Step)
    requires OneMore(s, id) && ((step.Check? && At(s, step.h, Held)) || (step.Send? && At(s, step.h, Cleared)))
    ensures OneMore(Next(s, step), id)
  {
    if k :| Waiting(s, id, k) {
      assert Waiting(Next(s, step), id, k);
    }
  }

  /** A holder about to roll back makes room for a second handler after a first one has enqueued. */
  lemma TwoFollow(s: State, id: MessageID, g: nat)
    requires Open(s) && id !in s.accepted && TwoMore(s, id)
    requires At(s, g, Undoing) && s.handlers[g].id == id && !Expired(s.handlers[g].reservedAt, s.clock)
    ensures MayDouble(s, id)
  {
    if !s.gate.closed {
      var s1 := Next(s, Begin(id));
      var s2 := Next(s1, Begin(id));
      BothFollow(s2, id, g, |s.handlers|, |s.handlers| + 1);
      First(s1, Begin(id), id);
      First(s, Begin(id), id);
    } else {
      var j, k :| j < k && Waiting(s, id, j) && Waiting(s, id, k);
      BothFollow(s, id, g, j, k);
    }
  }

  lemma BothFollow(s: State, id: MessageID, g: nat, j: nat, k: nat)
    requires Open(s) && id !in s.accepted && j < k && Waiting(s, id, j) && Waiting(s, id, k)
    requires At(s, g, Undoing) && s.handlers[g].id == id && !Expired(s.handlers[g].reservedAt, s.clock)
    ensures MayDouble(s, id)
  {
    OneDelivery(s, j);
    var s1 := Next(s, Attempting(j, Written, 0));
    var s2 := Next(s1, Check(j));
    var s3 := Next(s2, Send(j));
    var s4 := Next(s3, Undo(g, true));
    WaitingFollows(s4, id, j, k);
    First(s3, Undo(g, true), id);
    First(s2, Send(j), id);
    First(s1, Check(j), id);
    First(s, Attempting(j, Written, 0), id);
  }

  lemma HarmfulDoubles(s: State, h: nat)
    requires Inv(s) && At(s, h, Undoing) && Harmful(s, h)
    ensures MayDouble(Next(s, Undo(h, true)), s.handlers[h].id)
  {
    var id, t := s.handlers[h].id, Next(s, Undo(h, true));
    var g :| HoldsToo(s, h, g) && if At(s, g, Undoing) then TwoMore(s, id) else OneMore(s, id);
    assert forall k :: Waiting(s, id, k) ==> Waiting(t, id, k);
    if At(s, g, Undoing) {
      TwoFollow(t, id, g);
    } else {
      HolderSends(t, id, g);
    }
  }

  // ---- Otherwise none is ---

  lemma NotDoubled(s: State, id: MessageID)
    requires AllApart(s)
    ensures !Doubled(s, id)
  {
  }

  /** With no other reservation in force the rollback removes nothing that anybody counts on. */
  lemma NothingLost(s: State, h: nat)
    requires Inv(s) && At(s, h, Undoing) && forall g: nat :: !HoldsToo(s, h, g)
    ensures Inv(Next(s, Undo(h, true)))
  {
    var t := Next(s, Undo(h, true));
    forall k | 0 <= k < |t.handlers| && Holding(t.handlers[k]) && !Expired(t.handlers[k].reservedAt, t.clock)
      ensures t.handlers[k].id in t.accepted && t.accepted[t.handlers[k].id] == t.handlers[k].reservedAt
    {
      assert !HoldsToo(s, h, k);
    }
  }

  /** Where a handler that has sent, or is about to, stood before. */
  ghost predicate FromBefore(s: State, t: State, x: nat)
    requires x < |t.handlers|
  {
    x < |s.handlers| && Holding(s.handlers[x]) && t.handlers[x].id == s.handlers[x].id &&
    t.handlers[x].reservedAt == s.handlers[x].reservedAt
  }

  /** Able to send, or sent, after the shutdown `s` saw. */
  predicate StillSends(s: State, handler: Handler) {
    Sent(handler) || (s.gate.aborted && handler.phase.Cleared?)
  }

  /** Once deliveries are aborted, or the task channel is closed, only those past the check, or none, can still send. */
  lemma {:induction false} ShutSends(s: State, more: seq<Step>, x: nat)
    requires !Open(s)
    ensures (s.tasksClosed ==> RunFrom(s, more).tasksClosed) && (s.gate.aborted ==> RunFrom(s, more).gate.aborted)
    ensures x < |RunFrom(s, more).handlers| && StillSends(s, RunFrom(s, more).handlers[x]) ==>
            FromBefore(s, RunFrom(s, more), x)
  {
    hide Next, StillSends, FromBefore, Open;
    if more == [] {
      StandsThere(s, x);
    } else {
      var t := RunFrom(s, more[..|more| - 1]);
      ShutSends(s, more[..|more| - 1], x);
      ShutStays(t, more[|more| - 1]);
      if x < |RunFrom(s, more).handlers| && StillSends(s, RunFrom(s, more).handlers[x]) {
        ShutStep(s, t, more[|more| - 1], x);
      }
    }
  }

  lemma ShutStays(t: State, step: Step)
    ensures (t.tasksClosed ==> Next(t, step).tasksClosed) && (t.gate.aborted ==> Next(t, step).gate.aborted)
  {
  }

  lemma StandsThere(s: State, x: nat)
    ensures x < |s.handlers| && StillSends(s, s.handlers[x]) ==> FromBefore(s, s, x)
  {
  }

  lemma ShutStep(s: State, t: State, step: Step, x: nat)
    requires !Open(s) && (s.tasksClosed ==> t.tasksClosed) && (s.gate.aborted ==> t.gate.aborted)
    requires x < |t.handlers| && StillSends(s, t.handlers[x]) ==> FromBefore(s, t, x)
    requires x < |Next(t, step).handlers| && StillSends(s, Next(t, step).handlers[x])
    ensures FromBefore(s, Next(t, step), x)
  {
  }

  lemma ShutNeverDoubles(s: State, id: MessageID)
    requires AllApart(s) && !Open(s)
    ensures !MayDouble(s, id)
  {
    forall more: seq<Step> ensures !Doubled(RunFrom(s, more), id) {
      var t := RunFrom(s, more);
      forall a, b | 0 <= a < b < |t.handlers| && t.handlers[a].id == id && t.handlers[b].id == id &&
          Sent(t.handlers[a]) && Sent(t.handlers[b])
        ensures Apart(t.handlers[a], t.handlers[b])
      {
        ShutSends(s, more, a);
        ShutSends(s, more, b);
      }
    }
  }

  /**
   * Once admission is closed the handlers are those there are: what each later holds it held already,
   * or reserved since.
   */
  ghost predicate OfThese(s: State, t: State, x: nat)
    requires x < |s.handlers| && x < |t.handlers|
  {
    && t.handlers[x].id == s.handlers[x].id
    && (At(t, x, Admitted) ==> At(s, x, Admitted))
    && (Holding(t.handlers[x]) ==>
          FromBefore(s, t, x) || (At(s, x, Admitted) && t.handlers[x].reservedAt >= s.clock))
  }

  lemma {:induction false} ClosedRun(s: State, more: seq<Step>)
    requires s.gate.closed
    ensures AllOfThese(s, RunFrom(s, more))
  {
    hide AllOfThese;
    if more == [] {
      NoneMoved(s);
    } else {
      ClosedRun(s, more[..|more| - 1]);
      ClosedSteps(s, RunFrom(s, more[..|more| - 1]), more[|more| - 1]);
    }
  }

  ghost predicate AllOfThese(s: State, t: State) {
    && t.gate.closed && |t.handlers| == |s.handlers| && t.clock >= s.clock
    && forall x | 0 <= x < |s.handlers| :: OfThese(s, t, x)
  }

  lemma NoneMoved(s: State)
    requires s.gate.closed
    ensures AllOfThese(s, s)
  {
  }

  lemma ClosedSteps(s: State, t: State, step: Step)
    requires AllOfThese(s, t)
    ensures AllOfThese(s, Next(t, step))
  {
    forall x | 0 <= x < |s.handlers| ensures OfThese(s, Next(t, step), x) {
      assert OfThese(s, t, x);
      ClosedStep(s, t, step, x);
    }
  }

  lemma ClosedStep(s: State, t: State, step: Step, x: nat)
    requires t.gate.closed && t.clock >= s.clock && |t.handlers| == |s.handlers| && x < |s.handlers| && OfThese(s, t, x)
    ensures OfThese(s, Next(t, step), x)
  {
  }

  /**
   * Two handlers that sent reserved far apart, unless both were waiting; a handler that was not waiting had let
   * its reservation expire by then if the other one was.
   */
  lemma ClosedApart(s: State, t: State, a: nat, b: nat)
    requires AllApart(s) && |t.handlers| == |s.handlers| && a < b < |s.handlers| && OfThese(s, t, a) && OfThese(s, t, b)
    requires t.handlers[a].id == t.handlers[b].id && Sent(t.handlers[a]) && Sent(t.handlers[b])
    requires !(Waiting(s, t.handlers[a].id, a) && Waiting(s, t.handlers[a].id, b))
    requires At(s, a, Admitted) ==> Expired(s.handlers[b].reservedAt, s.clock)
    requires At(s, b, Admitted) ==> Expired(s.handlers[a].reservedAt, s.clock)
    ensures Apart(t.handlers[a], t.handlers[b])
  {
  }

  lemma OneUnexpired(s: State, h: nat, g: nat, b: nat)
    requires Inv(s) && h < |s.handlers| && HoldsToo(s, h, g) && HoldsToo(s, h, b)
    ensures g == b
  {
  }

  /** Admission is closed and too few handlers of the message are left. */
  lemma TooFewLeft(s: State, h: nat, g: nat, more: seq<Step>)
    requires Inv(s) && At(s, h, Undoing) && Expired(s.handlers[h].reservedAt, s.clock) && HoldsToo(s, h, g)
    requires if At(s, g, Undoing) then !TwoMore(s, s.handlers[h].id) else !OneMore(s, s.handlers[h].id)
    ensures !Doubled(RunFrom(Next(s, Undo(h, true)), more), s.handlers[h].id)
  {
    var id, u := s.handlers[h].id, Next(s, Undo(h, true));
    var t := RunFrom(u, more);
    ClosedRun(u, more);
    EnqueuesOrRollsBack(u, g, more);
    forall a, b | 0 <= a < b < |t.handlers| && t.handlers[a].id == id && t.handlers[b].id == id &&
        Sent(t.handlers[a]) && Sent(t.handlers[b])
      ensures Apart(t.handlers[a], t.handlers[b])
    {
      assert OfThese(u, t, a) && OfThese(u, t, b);
      LeftApart(s, h, g, t, a, b);
    }
  }

  lemma LeftApart(s: State, h: nat, g: nat, t: State, a: nat, b: nat)
    requires Inv(s) && At(s, h, Undoing) && HoldsToo(s, h, g)
    requires if At(s, g, Undoing) then !TwoMore(s, s.handlers[h].id) else !OneMore(s, s.handlers[h].id)
    requires var u := Next(s, Undo(h, true));
             |t.handlers| == |u.handlers| && a < b < |u.handlers| && OfThese(u, t, a) && OfThese(u, t, b)
    requires t.handlers[a].id == s.handlers[h].id && t.handlers[b].id == s.handlers[h].id
    requires Sent(t.handlers[a]) && Sent(t.handlers[b]) && (At(s, g, Undoing) ==> g != a && g != b)
    ensures Apart(t.handlers[a], t.handlers[b])
  {
    var id, u := s.handlers[h].id, Next(s, Undo(h, true));
    assert Waiting(u, id, a) ==> Waiting(s, id, a);
    assert Waiting(u, id, b) ==> Waiting(s, id, b);
    assert AllApart(u);
    forall x: nat | x in {a, b} && !At(u, x, Admitted) && At(s, g, Undoing)
      ensures Expired(u.handlers[x].reservedAt, u.clock)
    {
      if !Expired(u.handlers[x].reservedAt, u.clock) {
        OneUnexpired(s, h, g, x);
      }
    }
    ClosedApart(u, t, a, b);
  }

  /**
   * After a rollback that came too late, some continuation without another late one enqueues the message twice
   * within the retention if and only if sends are still possible, another handler's reservation was the one on
   * record, and enough handlers of the message can follow.
   */
  lemma LateRollbackHarmsIff(s: State, h: nat)
    requires Inv(s) && At(s, h, Undoing) && Expired(s.handlers[h].reservedAt, s.clock)
    ensures MayDouble(Next(s, Undo(h, true)), s.handlers[h].id) <==> Harmful(s, h)
  {
    var id, u := s.handlers[h].id, Next(s, Undo(h, true));
    if Harmful(s, h) {
      HarmfulDoubles(s, h);
    } else if !Open(s) {
      assert AllApart(u);
      ShutNeverDoubles(u, id);
    } else if g: nat :| HoldsToo(s, h, g) {
      forall more: seq<Step> ensures !Doubled(RunFrom(u, more), id) {
        TooFewLeft(s, h, g, more);
      }
    } else {
      NothingLost(s, h);
      forall more: seq<Step> | TimelyFrom(u, more) ensures !Doubled(RunFrom(u, more), id) {
        InvHolds(u, more);
        NotDoubled(RunFrom(u, more), id);
      }
    }
  }
}
