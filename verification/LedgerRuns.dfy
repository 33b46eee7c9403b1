/** What no interleaving of reconciliations, commits, failed writes and restarts can undo in a ledger. */
module LedgerRuns {
  import opened Common
  import opened LedgerItems
  import opened Seed
  import opened LedgerClass

  /** Work on the item has begun, and it is not waiting to be bound to a backlog item. */
  predicate Settled(it: LedgerItem) {
    !it.status.Pending? && !it.legacyPending
  }

  predicate IdentityEvolves(a: LedgerItem, b: LedgerItem) {
    && a.itemID == b.itemID && a.slug == b.slug
    && (a.sourceID != EMPTY ==> b.sourceID == a.sourceID)
    && (b.legacyPending ==> a.legacyPending)
  }

  /** Once settled, always settled, with the same requirement, its recorded length and digest, and priority. */
  predicate RequirementEvolves(a: LedgerItem, b: LedgerItem) {
    && (!a.status.Pending? ==> !b.status.Pending?)
    && (Settled(a) ==> b.revision == a.revision && b.priority == a.priority)
  }

  /**
   * The issue number is written once; events are kept, delivery marks stay, and at most one event is ever
   * added, with the number.
   */
  predicate OutboxEvolves(a: LedgerItem, b: LedgerItem) {
    && (a.issue > 0 ==> b.issue == a.issue)
    && |a.outbox| <= |b.outbox|
    && (forall i :: 0 <= i < |a.outbox| ==>
          SameEvent(a.outbox[i], b.outbox[i]) && (a.outbox[i].delivered ==> b.outbox[i].delivered))
    && (|a.outbox| < |b.outbox| ==> |b.outbox| == |a.outbox| + 1 && a.issue <= 0 && b.issue > 0)
  }

  /** Attempts stay in place; only a running one may have become terminal, once. */
  predicate AttemptsEvolve(a: LedgerItem, b: LedgerItem) {
    && |a.attempts| <= |b.attempts|
    && (forall i :: 0 <= i < |a.attempts| ==>
        a.attempts[i] == b.attempts[i] || Terminates(a.attempts[i], b.attempts[i]))
  }

  predicate Evolves(a: LedgerItem, b: LedgerItem) {
    IdentityEvolves(a, b) && RequirementEvolves(a, b) && OutboxEvolves(a, b) && AttemptsEvolve(a, b)
  }

  lemma EvolvesTransitive(a: LedgerItem, b: LedgerItem, c: LedgerItem)
    requires Evolves(a, b) && Evolves(b, c)
    ensures Evolves(a, c)
  {
    assert OutboxEvolves(a, c) by {
      forall i | 0 <= i < |a.outbox|
        ensures SameEvent(a.outbox[i], c.outbox[i]) && (a.outbox[i].delivered ==> c.outbox[i].delivered)
      {
        assert SameEvent(a.outbox[i], b.outbox[i]) && SameEvent(b.outbox[i], c.outbox[i]);
      }
    }
    assert AttemptsEvolve(a, c) by {
      forall i | 0 <= i < |a.attempts|
        ensures a.attempts[i] == c.attempts[i] || Terminates(a.attempts[i], c.attempts[i])
      {
        assert a.attempts[i] == b.attempts[i] || Terminates(a.attempts[i], b.attempts[i]);
      }
    }
  }

  ghost predicate LedgerEvolves(a: seq<LedgerItem>, b: seq<LedgerItem>) {
    |a| <= |b| && forall k :: 0 <= k < |a| ==> Evolves(a[k], b[k])
  }

  lemma LedgerEvolvesTransitive(a: seq<LedgerItem>, b: seq<LedgerItem>, c: seq<LedgerItem>)
    requires LedgerEvolves(a, b) && LedgerEvolves(b, c)
    ensures LedgerEvolves(a, c)
  {
    hide Evolves;
    forall k | 0 <= k < |a| ensures Evolves(a[k], c[k]) {
      EvolvesTransitive(a[k], b[k], c[k]);
    }
  }

  lemma EvolvesReflexive(a: seq<LedgerItem>)
    ensures LedgerEvolves(a, a)
  {
  }

  /** What every record in memory satisfies, valid or not. */
  predicate Sane(it: LedgerItem) {
    && (it.legacyPending ==> it.sourceID == EMPTY)
    && (!it.status.Pending? ==> it.frozen)
  }

  ghost predicate AllSane(items: seq<LedgerItem>) {
    forall k :: 0 <= k < |items| ==> Sane(items[k])
  }

  lemma ValidSane(items: seq<LedgerItem>)
    requires ValidItems(items)
    ensures AllSane(items)
  {
    forall k | 0 <= k < |items| ensures Sane(items[k]) {
      assert ValidItem(items[k]);
    }
  }

  // Reconciliation.

  lemma ReconciledEvolves(it: LedgerItem, source: Item, order: int)
    requires Sane(it)
    ensures Evolves(it, Reconciled(it, source, order).0) && Sane(Reconciled(it, source, order).0)
  {
    hide ByteLength;
  }

  lemma AbsentEvolves(it: LedgerItem)
    requires Sane(it)
    ensures Evolves(it, Absent(it)) && Sane(Absent(it))
  {
  }

  lemma {:induction false} AppendedSane(existing: seq<LedgerItem>, sources: seq<Item>, m: Matching, n: nat)
    requires n <= |m| && |m| == |sources| && AllSane(existing)
    ensures AllSane(Appended(existing, sources, m, n))
  {
    hide NewSlug, ByteLength;
    if n > 0 {
      AppendedSane(existing, sources, m, n - 1);
    }
  }

  lemma SeededEvolves(items: seq<LedgerItem>, sources: seq<Item>)
    requires AllSane(items)
    ensures LedgerEvolves(items, Seeded(items, sources)) && AllSane(Seeded(items, sources))
  {
    hide Evolves, Sane, Match, Reconciled, Absent;
    if Refused(items, sources) {
      EvolvesReflexive(items);
    } else {
      var m := Match(items, sources, |sources|).value;
      var existing := Existing(items, sources, m);
      forall k | 0 <= k < |items| ensures Evolves(items[k], existing[k]) && Sane(existing[k]) {
        var i := SourceOf(m, k, |m|);
        if i.Some? {
          ReconciledEvolves(items[k], sources[i.value], i.value);
        } else {
          AbsentEvolves(items[k]);
        }
      }
      AppendedSane(existing, sources, m, |m|);
    }
  }

  // Commits, with any mutation.

  lemma MutationEvolves(before: LedgerItem, after: LedgerItem)
    requires Sane(before) && ValidMutation(before, after) && ValidWorkflow(after)
    ensures Evolves(before, after)
  {
  }

  lemma CandidateEvolves(items: seq<LedgerItem>, i: nat, after: LedgerItem)
    requires AllSane(items) && i < |items| && Candidate(items, i, after).Some?
    ensures LedgerEvolves(items, Candidate(items, i, after).value) && ValidItems(Candidate(items, i, after).value)
  {
    hide Evolves, ValidMutation;
    var frozen := Freeze(items[i], after);
    assert ValidItem(items[i := frozen][i]);
    assert Sane(items[i]);
    MutationEvolves(items[i], frozen);
    EvolvesReflexive(items);
  }

  // Runs.

  datatype State = State(mem: seq<LedgerItem>, file: seq<LedgerItem>)

  /** `after` is what the caller's mutation makes of the record; `written` is whether the rename happens. */
  datatype Step =
    | Seeding(backlog: seq<Item>)
    | Saving(written: bool)
    | Committing(slug: Text, after: LedgerItem, written: bool)
    | Restarting

  ghost function Next(s: State, step: Step): State {
    match step
    case Seeding(backlog) => s.(mem := Seeded(s.mem, Normalized(backlog)))
    case Saving(written) => if written && ValidItems(s.mem) then s.(file := s.mem) else s
    case Committing(slug, after, written) =>
      var found := Find(s.mem, slug);
      if found.None? || !written then s
      else
        var candidate := Candidate(s.mem, found.value, after);
        if candidate.Some? then State(candidate.value, candidate.value) else s
    case Restarting => s.(mem := s.file)
  }

  ghost function Run(s: State, steps: seq<Step>): State {
    if steps == [] then s else Next(Run(s, steps[..|steps| - 1]), steps[|steps| - 1])
  }

  ghost predicate Inv(s: State) {
    ValidItems(s.file) && AllSane(s.mem) && LedgerEvolves(s.file, s.mem)
  }

  lemma StepEvolves(s: State, step: Step)
    requires Inv(s)
    ensures Inv(Next(s, step)) && LedgerEvolves(s.file, Next(s, step).file) && LedgerEvolves(s.file, Next(s, step).mem)
  {
    hide Evolves, Sane, Seeded, ValidItems;
    EvolvesReflexive(s.file);
    EvolvesReflexive(s.mem);
    match step
    case Seeding(backlog) =>
      SeededEvolves(s.mem, Normalized(backlog));
      LedgerEvolvesTransitive(s.file, s.mem, Seeded(s.mem, Normalized(backlog)));
    case Saving(_) =>
    case Committing(slug, after, written) =>
      var found := Find(s.mem, slug);
      if found.Some? && written && Candidate(s.mem, found.value, after).Some? {
        var c := Candidate(s.mem, found.value, after).value;
        CandidateEvolves(s.mem, found.value, after);
        LedgerEvolvesTransitive(s.file, s.mem, c);
        ValidSane(c);
        EvolvesReflexive(c);
      }
    case Restarting =>
      ValidSane(s.file);
  }

  lemma {:induction false} RunEvolves(s: State, steps: seq<Step>)
    requires Inv(s)
    ensures Inv(Run(s, steps)) && LedgerEvolves(s.file, Run(s, steps).file) && LedgerEvolves(s.file, Run(s, steps).mem)
  {
    hide Evolves, Sane, Seeded, ValidItems, Next;
    if steps == [] {
      EvolvesReflexive(s.file);
    } else {
      var t := Run(s, steps[..|steps| - 1]);
      RunEvolves(s, steps[..|steps| - 1]);
      StepEvolves(t, steps[|steps| - 1]);
      LedgerEvolvesTransitive(s.file, t.file, Next(t, steps[|steps| - 1]).file);
      LedgerEvolvesTransitive(s.file, t.file, Next(t, steps[|steps| - 1]).mem);
    }
  }

  /**
   * From the moment the file records an item as started, through any interleaving of reconciliations
   * and commits of any mutations, failed writes and restarts: its requirement never changes and it is
   * never pending again.
   */
  lemma StartedStaysFrozen(s: State, steps: seq<Step>, k: nat)
    requires Inv(s) && k < |s.file| && Settled(s.file[k])
    ensures k < |Run(s, steps).mem| && k < |Run(s, steps).file|
    ensures forall it :: it in {Run(s, steps).mem[k], Run(s, steps).file[k]} ==>
              && it.itemID == s.file[k].itemID && it.revision == s.file[k].revision && it.priority == s.file[k].priority
              && !it.status.Pending? && it.frozen
  {
    RunEvolves(s, steps);
    var t := Run(s, steps);
    assert Evolves(s.file[k], t.file[k]) && Evolves(s.file[k], t.mem[k]);
    ValidSane(t.file);
    assert Sane(t.file[k]) && Sane(t.mem[k]);
  }

  /** At most one event, and only with an issue number. */
  predicate OneEvent(it: LedgerItem) {
    |it.outbox| <= 1 && (it.outbox != [] ==> it.issue > 0)
  }

  predicate OneEventAt(s: State, k: nat) {
    && (k < |s.mem| ==> OneEvent(s.mem[k]))
    && (k < |s.file| ==> OneEvent(s.file[k]))
  }

  lemma EvolvesOneEvent(a: seq<LedgerItem>, b: seq<LedgerItem>, k: nat)
    requires LedgerEvolves(a, b) && k < |a| && OneEvent(a[k])
    ensures OneEvent(b[k])
  {
    assert Evolves(a[k], b[k]);
  }

  lemma {:induction false} AppendedNoEvent(existing: seq<LedgerItem>, sources: seq<Item>, m: Matching, n: nat, k: nat)
    requires n <= |m| && |m| == |sources| && |existing| <= k < |Appended(existing, sources, m, n)|
    ensures Appended(existing, sources, m, n)[k].outbox == []
  {
    hide NewSlug, ByteLength;
    if k < |Appended(existing, sources, m, n - 1)| {
      AppendedNoEvent(existing, sources, m, n - 1, k);
    }
  }

  lemma SeededOneEvent(items: seq<LedgerItem>, sources: seq<Item>, k: nat)
    requires AllSane(items) && (k < |items| ==> OneEvent(items[k])) && k < |Seeded(items, sources)|
    ensures OneEvent(Seeded(items, sources)[k])
  {
    hide Match, Appended, Existing, Refused, OneEvent;
    if k < |items| {
      SeededEvolves(items, sources);
      EvolvesOneEvent(items, Seeded(items, sources), k);
    } else {
      SeededNoEvent(items, sources, k);
    }
  }

  lemma SeededNoEvent(items: seq<LedgerItem>, sources: seq<Item>, k: nat)
    requires |items| <= k < |Seeded(items, sources)|
    ensures OneEvent(Seeded(items, sources)[k])
  {
    hide Match, Appended;
    var m := Match(items, sources, |sources|).value;
    AppendedNoEvent(Existing(items, sources, m), sources, m, |m|, k);
  }

  lemma StepOneEvent(s: State, step: Step, k: nat)
    requires Inv(s) && OneEventAt(s, k)
    ensures OneEventAt(Next(s, step), k)
  {
    hide Seeded, ValidItems, OneEvent, Evolves, Sane;
    match step
    case Seeding(backlog) =>
      if k < |Next(s, step).mem| {
        SeededOneEvent(s.mem, Normalized(backlog), k);
      }
    case Saving(_) =>
    case Committing(slug, after, written) =>
      var found := Find(s.mem, slug);
      if found.Some? && written && Candidate(s.mem, found.value, after).Some? && k < |s.mem| {
        CandidateEvolves(s.mem, found.value, after);
        EvolvesOneEvent(s.mem, Candidate(s.mem, found.value, after).value, k);
      }
    case Restarting =>
  }

  /** From any ledger whose items have at most one event each, with an issue number, no run gives one a second. */
  lemma {:induction false} OneEventKept(s: State, steps: seq<Step>, k: nat)
    requires Inv(s) && OneEventAt(s, k)
    ensures OneEventAt(Run(s, steps), k)
  {
    hide OneEventAt, Inv, Next;
    if steps != [] {
      OneEventKept(s, steps[..|steps| - 1], k);
      RunEvolves(s, steps[..|steps| - 1]);
      StepOneEvent(Run(s, steps[..|steps| - 1]), steps[|steps| - 1], k);
    }
  }

  /**
   * In every ledger that reconciliations, commits, failed writes and restarts build from an empty one, an item has
   * at most one event, in memory and in the file, and only with an issue number; in the file it is that item's own.
   */
  lemma OneEventEver(steps: seq<Step>)
    ensures var s := Run(State([], []), steps);
            && (forall k | 0 <= k < |s.mem| :: OneEvent(s.mem[k]))
            && (forall k | 0 <= k < |s.file| :: OneEvent(s.file[k]) && OwnEvents(s.file[k]))
  {
    hide Run, Next, OneEvent, ValidItem;
    var start, s := State([], []), Run(State([], []), steps);
    RunEvolves(start, steps);
    forall k: nat ensures OneEventAt(s, k) {
      OneEventKept(start, steps, k);
    }
    forall k | 0 <= k < |s.mem| ensures OneEvent(s.mem[k]) {
      assert OneEventAt(s, k);
    }
    forall k | 0 <= k < |s.file| ensures OneEvent(s.file[k]) && OwnEvents(s.file[k]) {
      assert OneEventAt(s, k) && ValidItem(s.file[k]);
      ValidOwnEvents(s.file[k]);
    }
  }

  predicate OwnEvents(it: LedgerItem) {
    forall i | 0 <= i < |it.outbox| :: it.outbox[i].id.IssueEvent? && it.outbox[i].id.item == it.itemID
  }

  lemma ValidOwnEvents(it: LedgerItem)
    requires ValidItem(it)
    ensures OwnEvents(it)
  {
    hide ValidShape, ValidIdentity, ValidAttempts, ValidWorkflow, ByteLength;
  }

  /** Attempts of a file only ever grow or end; a terminal one is there for good, at its place. */
  lemma TerminalAttemptStays(s: State, steps: seq<Step>, k: nat, i: nat)
    requires Inv(s) && k < |s.file| && i < |s.file[k].attempts|
    ensures k < |Run(s, steps).file| && i < |Run(s, steps).file[k].attempts|
    ensures var a, b := s.file[k].attempts[i], Run(s, steps).file[k].attempts[i];
            b.id == a.id && b.ordinal == a.ordinal && (a.state.AttemptTerminal? ==> b == a)
  {
    RunEvolves(s, steps);
    assert Evolves(s.file[k], Run(s, steps).file[k]);
  }

  // The freeze takes both validators: each alone would let an item go back to pending.

  predicate Thawed(before: LedgerItem, after: LedgerItem) {
    after == before.(status := Pending, stage := StageNone, stageState := StagePending, frozen := after.frozen)
  }

  lemma BothValidatorsFreeze(it: LedgerItem)
    requires ValidItem(it) && it.status.InProgress? && it.sourceState.Current? && !it.legacyPending
    ensures var kept := it.(status := Pending, stage := StageNone, stageState := StagePending);
            var thawed := kept.(frozen := false);
            && Thawed(it, kept) && ValidMutation(it, kept) && !ValidItem(kept)
            && Thawed(it, thawed) && !ValidMutation(it, thawed) && ValidItem(thawed)
  {
  }
}
