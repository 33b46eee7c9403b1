/** Every ledger that reconciliations and commits build from an empty file is one reconciliation can start from. */
module SeedRuns {
  import opened Common
  import opened LedgerItems
  import opened LedgerClass
  import opened LedgerRuns
  import opened Seed
  import SeedProofs
  import opened SeedTheorems

  ghost predicate BuildsHealthy(s: State) {
    Regular(s.mem) && Healthy(s.file)
  }

  lemma SeededRegular(items: seq<LedgerItem>, sources: seq<Item>)
    requires Regular(items) && SourcesTrimmed(sources)
    ensures Regular(Seeded(items, sources))
  {
    hide Match, Result, ValidItem, Owned, Trimmed, Confusing;
    if !Refused(items, sources) {
      var m := Match(items, sources, |sources|).value;
      SeedProofs.MatchSound(items, sources);
      SeededIs(items, sources, m);
      ResultRegular(items, sources, m);
    }
  }

  lemma CandidateHealthy(items: seq<LedgerItem>, i: nat, after: LedgerItem)
    requires Regular(items) && i < |items| && Candidate(items, i, after).Some?
    ensures Healthy(Candidate(items, i, after).value) && Regular(Candidate(items, i, after).value)
  {
    hide ValidItem, OutboxMutation, AttemptsMutation;
    var frozen := Freeze(items[i], after);
    assert frozen.itemID == items[i].itemID && frozen.sourceID == items[i].sourceID && frozen.slug == items[i].slug;
    var changed := items[i := frozen];
    assert Owned(items[i]);
    forall k | 0 <= k < |changed| ensures Owned(changed[k]) {
      if k != i {
        assert changed[k] == items[k];
      }
    }
  }

  lemma StepBuildsHealthy(s: State, step: Step)
    requires BuildsHealthy(s)
    ensures BuildsHealthy(Next(s, step))
  {
    hide ValidItem, Seeded, Candidate, AllOwned, SourcesTrimmed;
    match step
    case Seeding(backlog) =>
      NormalizedTrimmed(backlog);
      SeededRegular(s.mem, Normalized(backlog));
    case Saving(_) =>
    case Committing(slug, after, written) =>
      var found := Find(s.mem, slug);
      if found.Some? && written && Candidate(s.mem, found.value, after).Some? {
        CandidateHealthy(s.mem, found.value, after);
      }
    case Restarting =>
  }

  /**
   * Through any interleaving of reconciliations, commits of any mutations, failed writes and restarts from an
   * empty ledger, the file is healthy and every record in memory is valid, with its own slug, source id and id.
   */
  lemma {:induction false} EveryLedgerHealthy(steps: seq<Step>)
    ensures BuildsHealthy(Run(State([], []), steps))
  {
    hide Regular, Healthy, Next;
    if steps == [] {
      NothingHealthy();
    } else {
      EveryLedgerHealthy(steps[..|steps| - 1]);
      StepBuildsHealthy(Run(State([], []), steps[..|steps| - 1]), steps[|steps| - 1]);
    }
  }

  lemma NothingHealthy()
    ensures Regular([]) && Healthy([])
  {
  }
}
