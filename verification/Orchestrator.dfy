/**
 * The control plane (internal/autodev/orchestrator.go): which item is next, one item end to end, and the drain loop.
 */
module Orchestrator {
  import opened Common
  import opened LedgerPaths
  import opened LedgerItems
  import opened LedgerClass
  import opened CoreOutcome
  import opened Progress
  import opened Mutations
  import opened Stages
  import opened Publisher
  import opened Seed
  import LedgerRuns
  import SeedFates
  import SeedProofs
  import Slug

  const PIPELINE: seq<PipelineStage> := [MaterializeRequirements, GenerateSpec, SpecToPlan, PlanToTasks, ImplementTasks]

  /** A running pipeline stage resumes at itself, a verified one at its successor; a later stage skips the pipeline. */
  function PipelineIndex(it: LedgerItem, from: nat): (i: nat)
    requires from <= |PIPELINE|
    ensures i <= |PIPELINE|
    decreases |PIPELINE| - from
  {
    if it.stage.StageNone? then 0
    else if from == |PIPELINE| then |PIPELINE|
    else if PIPELINE[from] == it.stage then (if it.stageState.StageVerified? then from + 1 else from)
    else PipelineIndex(it, from + 1)
  }

  lemma PipelineStages(i: nat)
    requires i < |PIPELINE|
    ensures IsExecutable(PIPELINE[i]) && !IsPublishing(PIPELINE[i]) && !PIPELINE[i].PRStage?
  {
  }

  /** Each pipeline stage follows the one before, and publishing the last. */
  lemma PipelineFollows(it: LedgerItem, i: nat)
    requires i < |PIPELINE| && Verified(it, PIPELINE[i])
    ensures Follows(it, if i + 1 < |PIPELINE| then PIPELINE[i + 1] else PipelineStage.Publish)
  {
  }

  /** Resuming never goes back and never skips: the first stage driven was left running or follows the recorded one. */
  lemma PipelineForward(it: LedgerItem)
    requires Working(it)
    ensures var i := PipelineIndex(it, 0);
            if i < |PIPELINE| then (it.stage == PIPELINE[i] && it.stageState.StageRunning?) || Follows(it, PIPELINE[i])
            else IsPublishing(it.stage) || Follows(it, PipelineStage.Publish)
  {
    hide ValidShape, ValidIdentity, ValidOutbox, ValidAttempts, ByteLength;
    assert PIPELINE[0].MaterializeRequirements? && PIPELINE[1].GenerateSpec? && PIPELINE[2].SpecToPlan? &&
           PIPELINE[3].PlanToTasks? && PIPELINE[4].ImplementTasks?;
    if !it.stage.StageNone? {
      assert PipelineIndex(it, 5) == 5;
      assert PipelineIndex(it, 4) ==
             if it.stage.ImplementTasks? then (if it.stageState.StageVerified? then 5 else 4)
             else 5;
      assert PipelineIndex(it, 3) ==
             if it.stage.PlanToTasks? then (if it.stageState.StageVerified? then 4 else 3)
             else PipelineIndex(it, 4);
      assert PipelineIndex(it, 2) ==
             if it.stage.SpecToPlan? then (if it.stageState.StageVerified? then 3 else 2)
             else PipelineIndex(it, 3);
      assert PipelineIndex(it, 1) ==
             if it.stage.GenerateSpec? then (if it.stageState.StageVerified? then 2 else 1)
             else PipelineIndex(it, 2);
    }
  }

  // Selection.

  predicate Selectable(it: LedgerItem, status: Status) {
    it.status == status && it.sourceState.Current?
  }

  /** Priority first, then backlog order, then ledger order. */
  predicate Precedes(items: seq<LedgerItem>, a: nat, b: nat) {
    && a < |items| && b < |items|
    && var (p, q) := (items[a].priority.Rank(), items[b].priority.Rank());
       p < q || (p == q && (items[a].sourceOrder < items[b].sourceOrder ||
                            (items[a].sourceOrder == items[b].sourceOrder && a < b)))
  }

  lemma PrecedesOrder(items: seq<LedgerItem>, a: nat, b: nat, c: nat)
    requires a < |items| && b < |items| && c < |items|
    ensures a != b ==> Precedes(items, a, b) || Precedes(items, b, a)
    ensures Precedes(items, a, b) && Precedes(items, b, c) ==> Precedes(items, a, c)
  {
  }

  ghost predicate InOrder(items: seq<LedgerItem>, picked: seq<nat>) {
    forall i, j :: 0 <= i < j < |picked| ==> Precedes(items, picked[i], picked[j])
  }

  /** The current records of a status, each once, in order of selection. */
  method SelectByStatus(items: seq<LedgerItem>, status: Status) returns (picked: seq<nat>)
    ensures forall k: nat :: k in picked <==> k < |items| && Selectable(items[k], status)
    ensures InOrder(items, picked)
  {
    hide Selectable;
    picked := [];
    var k := 0;
    while k < |items|
      invariant 0 <= k <= |items|
      invariant forall p: nat :: p in picked <==> p < k && Selectable(items[p], status)
      invariant InOrder(items, picked)
    {
      if Selectable(items[k], status) {
        picked := Insert(items, picked, k);
      }
      k := k + 1;
    }
  }

  /** Puts one more record, the latest, in its place. */
  method Insert(items: seq<LedgerItem>, picked: seq<nat>, k: nat) returns (r: seq<nat>)
    requires k < |items| && InOrder(items, picked) && forall p <- picked :: p < k
    ensures InOrder(items, r) && forall p: nat :: p in r <==> p in picked || p == k
  {
    var at := |picked|;
    while at > 0 && Precedes(items, k, picked[at - 1])
      invariant 0 <= at <= |picked|
      invariant forall i :: at <= i < |picked| ==> Precedes(items, k, picked[i])
    {
      at := at - 1;
    }
    InsertedInOrder(items, picked, at, k);
    r := picked[..at] + [k] + picked[at..];
    assert picked == picked[..at] + picked[at..];
  }

  function Inserted(picked: seq<nat>, at: nat, k: nat): (r: seq<nat>)
    requires at <= |picked|
    ensures |r| == |picked| + 1
    ensures forall i :: 0 <= i < |r| ==> r[i] == if i < at then picked[i] else if i == at then k else picked[i - 1]
  {
    picked[..at] + [k] + picked[at..]
  }

  lemma InsertedInOrder(items: seq<LedgerItem>, picked: seq<nat>, at: nat, k: nat)
    requires at <= |picked| && k < |items| && InOrder(items, picked) && forall p <- picked :: p < k
    requires forall i :: at <= i < |picked| ==> Precedes(items, k, picked[i])
    requires at > 0 ==> !Precedes(items, k, picked[at - 1])
    ensures InOrder(items, Inserted(picked, at, k))
  {
    hide Precedes;
    var r := Inserted(picked, at, k);
    forall i | 0 <= i < at ensures Precedes(items, picked[i], k) {
      assert picked[i] in picked && picked[at - 1] in picked;
      assert i < at - 1 ==> Precedes(items, picked[i], picked[at - 1]);
      PrecedesOrder(items, picked[at - 1], k, k);
      PrecedesOrder(items, picked[i], picked[at - 1], k);
    }
    forall i, j | 0 <= i < j < |r| ensures Precedes(items, r[i], r[j]) {
      var a, b := if i < at then i else i - 1, if j < at then j else j - 1;
      if i != at && j != at {
        assert Precedes(items, picked[a], picked[b]);
      }
    }
  }

  const MAX_WORKTREE_CANDIDATES: nat := 100

  class Control {
    const machine: StageMachine
    const publisher: RemotePublisher

    constructor (machine: StageMachine, publisher: RemotePublisher)
      requires publisher.machine == machine
      ensures this.machine == machine && this.publisher == publisher
    {
      this.machine, this.publisher := machine, publisher;
    }

    /** A branch for the item: the recorded one, or the first free one named after its slug. */
    static method CreateWorktree(it: LedgerItem) returns (branch: Option<Text>)
      requires ValidItem(it)
      ensures branch.Some? ==> ValidBranch(branch.value.chars)
      ensures branch.Some? && it.status.InProgress? && it.branch != EMPTY ==> branch.value == it.branch
      ensures branch.Some? && !(it.status.InProgress? && it.branch != EMPTY) ==>
                branch.value.chars == "auto" + ['/'] + it.slug.chars ||
                exists i :: 2 <= i <= MAX_WORKTREE_CANDIDATES &&
                  branch.value.chars == "auto" + ['/'] + Slug.Numbered(it.slug.chars, i)
    {
      hide ValidComponent, ValidBranch, ValidIdentity, ValidOutbox, ValidAttempts, ValidWorkflow, ByteLength;
      if it.status.InProgress? && it.branch != EMPTY {
        var resumed: bool := *;
        return if resumed then Some(it.branch) else None;
      }
      var i := 1;
      while i <= MAX_WORKTREE_CANDIDATES
        invariant i >= 1
      {
        var name := if i > 1 then Slug.Numbered(it.slug.chars, i) else it.slug.chars;
        NumberedComponentValid(it.slug.chars, i);
        AutoBranchValid(name);
        var usable: bool, failed: bool := *, *;
        if usable {
          return Some(Text("auto" + ['/'] + name));
        }
        if failed {
          return None;
        }
        i := i + 1;
      }
      branch := None;
    }

    /** Puts the record in progress on its branch. */
    method BeginItem(k: nat, branch: Text) returns (ok: bool)
      requires machine.Synced() && k < |machine.ledger.items| && ValidBranch(branch.chars)
      requires Selectable(machine.ledger.items[k], Pending) || Selectable(machine.ledger.items[k], InProgress)
      requires machine.ledger.items[k].status.Pending? ==> ItsTurn(machine.ledger.items, k)
      modifies machine`trace, machine.ledger
      ensures machine.Synced() && SameButHistory(old(machine.trace), machine.trace)
      ensures OnlyItem(old(machine.ledger.items), machine.ledger.items, k)
      ensures var was := old(machine.ledger.items)[k];
              (!ok && machine.ledger.items[k] == was) ||
              machine.ledger.items[k] ==
              was.(status := InProgress, branch := branch, frozen := was.frozen || was.status.Pending?)
      ensures ok ==> Working(machine.ledger.items[k])
    {
      hide Working, Sound, Accepted, OutboxReported, ValidItem, Orderly;
      ghost var items := machine.ledger.items;
      LastGood(machine.trace);
      ReportedItem(items, k, machine.trace.reports);
      GoodValid(items, k);
      BeginAccepted(items[k], branch);
      SameOutboxReported(items[k], Freeze(items[k], Begin(items[k], branch)), machine.trace.reports);
      OnlyOne(items, k, Freeze(items[k], Begin(items[k], branch)));
      ok := machine.Record(k, item => Begin(item, branch));
    }

    /** Records a pipeline stage as verified, with the feature directory bound to the item. */
    method VerifiedStage(sc: StageContext, k: nat, stage: PipelineStage) returns (ok: bool)
      requires machine.AtWork(sc, k) && !IsPublishing(stage) && sc.Confirmed(stage)
      requires machine.ledger.items[k].stage == stage && machine.ledger.items[k].stageState.StageRunning?
      modifies machine`trace, machine.ledger
      ensures machine.Synced() && SameButHistory(old(machine.trace), machine.trace)
      ensures OnlyItem(old(machine.ledger.items), machine.ledger.items, k)
      ensures var was := old(machine.ledger.items)[k];
              (!ok && machine.ledger.items[k] == was) ||
              machine.ledger.items[k] ==
              was.(stageState := StageVerified,
                   featureDir := if sc.featureDir == EMPTY then was.featureDir else sc.featureDir)
      ensures ok ==> machine.AtWork(sc, k)
    {
      hide Working, Sound, Accepted, OutboxReported, ValidItem;
      ghost var it := machine.ledger.items[k];
      var featureDir := sc.featureDir;
      WorkingParts(machine.trace, machine.ledger.items, k);
      VerifyAccepted(it, stage, featureDir);
      StillWorking(machine.ledger.items, k, Verify(it, stage, featureDir));
      SameOutboxReported(it, Verify(it, stage, featureDir), machine.trace.reports);
      OnlyOne(machine.ledger.items, k, Verify(it, stage, featureDir));
      ok := machine.Record(k, item => Verify(item, stage, featureDir));
    }

    /** Drives one pipeline stage: intent unless resumed, the stage, and its verification. */
    method PipelineStep(sc: StageContext, k: nat, i: nat, resuming: bool) returns (ok: bool)
      requires machine.AtWork(sc, k) && i < |PIPELINE|
      requires resuming ==>
                 machine.ledger.items[k].stage == PIPELINE[i] && machine.ledger.items[k].stageState.StageRunning?
      requires !resuming ==> Follows(machine.ledger.items[k], PIPELINE[i])
      modifies machine`trace, machine.ledger, sc
      ensures machine.Synced()
      ensures WorkedOn(old(machine.ledger.items), machine.ledger.items, old(machine.trace.drives), machine.trace.drives,
                       k, false, false)
      ensures ok ==> machine.AtWork(sc, k) && Uncancelled(old(machine.ledger.items)[k], machine.ledger.items[k])
      ensures ok ==> machine.ledger.items[k].stage == PIPELINE[i] && machine.ledger.items[k].stageState.StageVerified?
    {
      hide Working, Sound, Bound, Follows, Delivered, OnlyItem, OnlyAttempts, Uncancelled, Attempted, WorkedOn;
      ghost var items, drives := machine.ledger.items, machine.trace.drives;
      var stage := PIPELINE[i];
      WorkedOnOne(items, k, Intend(items[k], stage), drives, false, false);
      PipelineStages(i);
      var stop: bool := *;
      if stop {
        return false;
      }
      if !resuming {
        ok := machine.IntendStage(sc, k, stage);
        if !ok {
          return;
        }
      }
      ghost var intended := machine.ledger.items;
      var r := machine.RunStep(sc, k, stage, resuming);
      ghost var ran, driven := machine.ledger.items, machine.trace.drives;
      RanOn(intended, ran, drives, driven, k, stage);
      WorkedOnAgain(items, intended, ran, drives, drives, driven, k, false, false, false, false);
      if r.StepFailed? {
        return false;
      }
      ok := VerifiedStage(sc, k, stage);
      RecordedOn(ran, machine.ledger.items, k, driven);
      WorkedOnAgain(items, ran, machine.ledger.items, drives, driven, driven, k, false, false, false, false);
      if !ok || r.StepCancelled? {
        return false;
      }
      StepUncancelled(items[k], machine.ledger.items[k]);
    }

    method RunPipeline(sc: StageContext, k: nat) returns (ok: bool)
      requires machine.AtWork(sc, k)
      modifies machine`trace, machine.ledger, sc
      ensures machine.Synced()
      ensures WorkedOn(old(machine.ledger.items), machine.ledger.items, old(machine.trace.drives), machine.trace.drives,
                       k, false, false)
      ensures ok ==> machine.AtWork(sc, k) && Uncancelled(old(machine.ledger.items)[k], machine.ledger.items[k])
      ensures ok ==>
                if IsPublishing(machine.ledger.items[k].stage) then machine.ledger.items == old(machine.ledger.items)
                else Follows(machine.ledger.items[k], PipelineStage.Publish)
    {
      hide Working, Sound, PipelineIndex, Follows, Uncancelled, WorkedOn;
      ghost var items, drives := machine.ledger.items, machine.trace.drives;
      var it := machine.ledger.items[k];
      var start := PipelineIndex(it, 0);
      PipelineForward(it);
      WorkedOnOne(items, k, it, drives, false, false);
      NothingCancelled(it);
      var i := start;
      while i < |PIPELINE|
        invariant start <= i <= |PIPELINE|
        invariant machine.AtWork(sc, k) && Uncancelled(it, machine.ledger.items[k])
        invariant WorkedOn(items, machine.ledger.items, drives, machine.trace.drives, k, false, false)
        invariant i == start ==> machine.ledger.items == items
        invariant i > start ==> Verified(machine.ledger.items[k], PIPELINE[i - 1])
      {
        ghost var before, driven := machine.ledger.items, machine.trace.drives;
        if i > start {
          PipelineFollows(machine.ledger.items[k], i - 1);
        }
        var resuming := i == start && it.stage == PIPELINE[i] && it.stageState.StageRunning?;
        ok := PipelineStep(sc, k, i, resuming);
        WorkedOnAgain(items, before, machine.ledger.items, drives, driven, machine.trace.drives, k,
                      false, false, false, false);
        if !ok {
          return;
        }
        UncancelledAgain(it, before[k], machine.ledger.items[k]);
        i := i + 1;
      }
      if i > start {
        PipelineStages(i - 1);
        PipelineFollows(machine.ledger.items[k], i - 1);
      }
      ok := true;
    }

    /** Records the item as done with the numbers published. */
    method FinishItem(k: nat, issue: int, pr: int) returns (ok: bool)
      requires publisher.machine == machine && publisher.Clear(k) && Published(machine.ledger.items[k])
      requires issue == machine.ledger.items[k].issue && pr == machine.ledger.items[k].pr
      modifies machine`trace, machine.ledger
      ensures machine.Synced() && SameButHistory(old(machine.trace), machine.trace)
      ensures OnlyItem(old(machine.ledger.items), machine.ledger.items, k)
      ensures var was := old(machine.ledger.items)[k];
              (!ok && machine.ledger.items[k] == was) ||
              machine.ledger.items[k] == was.(status := Done, stage := StageDone, stageState := StageVerified)
    {
      hide Working, Sound, Accepted, OutboxReported, ValidItem;
      ghost var it := machine.ledger.items[k];
      WorkingParts(machine.trace, machine.ledger.items, k);
      FinishAccepted(it);
      StillWorking(machine.ledger.items, k, Finish(it, issue, pr));
      SameOutboxReported(it, Finish(it, issue, pr), machine.trace.reports);
      OnlyOne(machine.ledger.items, k, Finish(it, issue, pr));
      ok := machine.Record(k, item => Finish(item, issue, pr));
    }

    /** Takes the item as far as the remote sequence; true means it is recorded as being published. */
    method Build(k: nat) returns (ok: bool)
      requires publisher.machine == machine && machine.Synced() && k < |machine.ledger.items|
      requires Selectable(machine.ledger.items[k], Pending) || Selectable(machine.ledger.items[k], InProgress)
      requires machine.ledger.items[k].status.Pending? ==> ItsTurn(machine.ledger.items, k)
      modifies machine`trace, machine.ledger
      ensures machine.Synced()
      ensures WorkedOn(old(machine.ledger.items), machine.ledger.items, old(machine.trace.drives), machine.trace.drives,
                       k, false, false)
      ensures ok ==> Working(machine.ledger.items[k]) && IsPublishing(machine.ledger.items[k].stage)
      ensures ok ==> Uncancelled(old(machine.ledger.items)[k], machine.ledger.items[k])
      ensures ok && machine.ledger.items[k].stage.PRStage? ==> old(machine.ledger.items)[k].stage.PRStage?
    {
      hide Working, Sound, Follows, ValidItem, WorkedOn, Uncancelled;
      ghost var items, drives := machine.ledger.items, machine.trace.drives;
      LastGood(machine.trace);
      GoodValid(items, k);
      var it := machine.ledger.items[k];
      WorkedOnOne(items, k, it, drives, false, false);
      var branch := CreateWorktree(it);
      if branch.None? {
        return false;
      }
      ok := BeginItem(k, branch.value);
      ghost var begun := machine.ledger.items;
      RecordedOn(items, begun, k, drives);
      if !ok {
        return;
      }
      WorkingContext(begun[k]);
      var sc := new StageContext(machine.ledger.items[k], it.featureDir, 0, 0);
      var usable: bool := *;
      if !usable {
        return false;
      }
      ok := RunPipeline(sc, k);
      ghost var piped, driven := machine.ledger.items, machine.trace.drives;
      WorkedOnAgain(items, begun, piped, drives, drives, driven, k, false, false, false, false);
      if !ok {
        return;
      }
      SameAttempts(items[k], begun[k], piped[k], piped[k]);
      var stop: bool := *;
      if stop {
        return false;
      }
      if !IsPublishing(machine.ledger.items[k].stage) {
        WorkedOnOne(piped, k, Intend(piped[k], PipelineStage.Publish), driven, false, false);
        ok := machine.IntendStage(sc, k, PipelineStage.Publish);
        WorkedOnAgain(items, piped, machine.ledger.items, drives, driven, driven, k, false, false, false, false);
        SameAttempts(items[k], begun[k], piped[k], machine.ledger.items[k]);
      }
    }

    /**
     * One item end to end; true means it is recorded done, none of its attempts having been cancelled, with
     * what the toggles ask for.
     */
    method ProcessItem(k: nat, cfg: Config) returns (ok: bool)
      requires publisher.machine == machine && machine.Synced() && k < |machine.ledger.items|
      requires Selectable(machine.ledger.items[k], Pending) || Selectable(machine.ledger.items[k], InProgress)
      requires machine.ledger.items[k].status.Pending? ==> ItsTurn(machine.ledger.items, k)
      modifies machine`trace, machine.ledger
      ensures machine.Synced()
      ensures WorkedOn(old(machine.ledger.items), machine.ledger.items, old(machine.trace.drives), machine.trace.drives,
                       k, cfg.createIssue, cfg.openPR)
      ensures ok ==> Selectable(machine.ledger.items[k], Done)
      ensures ok ==> Uncancelled(old(machine.ledger.items)[k], machine.ledger.items[k])
      ensures ok && cfg.openPR ==> machine.ledger.items[k].pr > 0
      ensures ok && cfg.createIssue && !old(machine.ledger.items)[k].stage.PRStage? ==>
                machine.ledger.items[k].issue > 0
    {
      hide Working, Sound, Published, WorkedOn, Uncancelled;
      ghost var items, drives := machine.ledger.items, machine.trace.drives;
      ok := Build(k);
      ghost var built, driven := machine.ledger.items, machine.trace.drives;
      WorkedOnOne(items, k, items[k], drives, cfg.createIssue, cfg.openPR);
      WorkedOnAgain(items, items, built, drives, drives, driven, k, cfg.createIssue, cfg.openPR, false, false);
      if !ok {
        return;
      }
      var issue, pr;
      ok, issue, pr := publisher.Publish(k, cfg);
      ghost var published, sent := machine.ledger.items, machine.trace.drives;
      WorkedOnAgain(items, built, published, drives, driven, sent, k, cfg.createIssue, cfg.openPR,
                    cfg.createIssue, cfg.openPR);
      if !ok {
        return;
      }
      UncancelledAgain(items[k], built[k], published[k]);
      var closed: bool := *;
      if !closed {
        return false;
      }
      WorkingContext(published[k]);
      ok := FinishItem(k, issue, pr);
      RecordedOn(published, machine.ledger.items, k, sent);
      WorkedOnAgain(items, published, machine.ledger.items, drives, sent, sent, k, cfg.createIssue, cfg.openPR,
                    false, false);
      SameAttempts(items[k], items[k], published[k], machine.ledger.items[k]);
    }

    /**
     * One process: load, reconcile, save, and drain. True means no current item is left pending or in
     * progress. It may end anywhere; the next one starts from the file. Only what its backlog lists is worked on.
     */
    method Run(backlog: seq<Item>, cfg: Config) returns (ok: bool)
      requires publisher.machine == machine && machine.Valid()
      modifies machine`trace, machine.ledger
      ensures machine.Valid()
      ensures ok ==> machine.Synced() && AllDone(machine.ledger.items)
      ensures OnlyListed(old(machine.ledger.file), machine.ledger.file, old(machine.trace.drives), machine.trace.drives,
                         Normalized(backlog), cfg)
      ensures ok && cfg.openPR ==> NewlyDoneOpened(old(machine.ledger.file), machine.ledger.file)
    {
      hide OnlyListed, AllListed, NewlyDoneOpened, SameWork, InProgressCurrent, AllDone, Sound;
      ok := Reconcile(backlog);
      ghost var was, mid, drives := old(machine.ledger.file), machine.ledger.file, old(machine.trace.drives);
      NothingWorked(was, mid, drives, Normalized(backlog), cfg);
      if ok {
        ok := Drain(Normalized(backlog), cfg);
        OnlyListedAfter(was, mid, machine.ledger.file, drives, machine.trace.drives, Normalized(backlog), cfg);
      }
    }

    /** Load, reconcile and save; true means every in-progress record is current, and every current one listed. */
    method Reconcile(backlog: seq<Item>) returns (ok: bool)
      requires machine.Valid()
      modifies machine`trace, machine.ledger
      ensures machine.Valid() && machine.trace.drives == old(machine.trace.drives)
      ensures SameWork(old(machine.ledger.file), machine.ledger.file)
      ensures ok ==> machine.Synced() && InProgressCurrent(machine.ledger.items)
      ensures ok ==> AllListed(machine.ledger.items, Normalized(backlog))
    {
      hide Seeded, SeedFails, Sound, Good, Forward, OneStep, Reported, SameWork, AllListed;
      LastGood(machine.trace);
      ghost var items := machine.ledger.file;
      NoWork(items);
      var failed := machine.ledger.Load();
      var ready: bool := *;
      if failed || !ready {
        return false;
      }
      ghost var sources := Normalized(backlog);
      var stuck := machine.ledger.Seed(backlog);
      SeededGood(items, sources, machine.trace.reports);
      GoodDistinct(items);
      SeededWork(items, sources);
      failed := machine.ledger.Save();
      if machine.ledger.file != items {
        ExtendedSound(machine.trace, machine.ledger.file);
        machine.trace := Extended(machine.trace, machine.ledger.file);
      }
      if failed || stuck {
        return false;
      }
      SeededCurrent(items, sources);
      SeededListed(items, sources);
      ok := true;
    }

    /** Items one at a time, started ones first, until none is left. */
    method Drain(ghost sources: seq<Item>, cfg: Config) returns (ok: bool)
      requires publisher.machine == machine && machine.Synced() && InProgressCurrent(machine.ledger.items)
      requires AllListed(machine.ledger.items, sources)
      modifies machine`trace, machine.ledger
      ensures machine.Synced()
      ensures ok ==> AllDone(machine.ledger.items)
      ensures OnlyListed(old(machine.ledger.items), machine.ledger.items, old(machine.trace.drives),
                         machine.trace.drives, sources, cfg)
      ensures ok && cfg.openPR ==> NewlyDoneOpened(old(machine.ledger.items), machine.ledger.items)
    {
      hide Sound, WorkedOn, OnlyListed, AllListed, NewlyDoneOpened, Uncancelled;
      ghost var was, drives := machine.ledger.items, machine.trace.drives;
      NoWork(was);
      NothingWorked(was, was, drives, sources, cfg);
      while true
        invariant machine.Synced() && InProgressCurrent(machine.ledger.items)
        invariant AllListed(machine.ledger.items, sources)
        invariant OnlyListed(was, machine.ledger.items, drives, machine.trace.drives, sources, cfg)
        invariant cfg.openPR ==> NewlyDoneOpened(was, machine.ledger.items)
        decreases |Open(machine.ledger.items)|
      {
        var stop: bool := *;
        if stop {
          return false;
        }
        ghost var items, driven := machine.ledger.items, machine.trace.drives;
        var started := SelectByStatus(machine.ledger.items, InProgress);
        var k: nat;
        if started != [] {
          k := started[0];
          assert k in started;
        } else {
          var waiting := SelectByStatus(machine.ledger.items, Pending);
          if waiting == [] {
            LastGood(machine.trace);
            NothingLeft(items, started, waiting);
            return true;
          }
          k := waiting[0];
          assert k in waiting;
          NoneStarted(items, started);
          FirstHasTurn(items, waiting);
        }
        ok := ProcessItem(k, cfg);
        OneWorked(was, items, machine.ledger.items, drives, driven, machine.trace.drives, k, sources, cfg);
        if !ok {
          return;
        }
        OneLess(items, machine.ledger.items, k);
      }
    }
  }

  /** Every current record is listed in the backlog. */
  ghost predicate AllListed(items: seq<LedgerItem>, sources: seq<Item>) {
    forall k :: 0 <= k < |items| && items[k].sourceState.Current? ==> SeedFates.Listed(items[k], sources)
  }

  /**
   * What a process works on is listed in its backlog: every record it drives or changes the status of. Issues and
   * pull requests are driven, and numbers bound, only with their toggles on.
   */
  ghost predicate OnlyListed(was: seq<LedgerItem>, now: seq<LedgerItem>, drives: seq<Drive>, drives': seq<Drive>,
                             sources: seq<Item>, cfg: Config) {
    && |was| <= |now| && drives <= drives'
    && (forall i :: |drives| <= i < |drives'| ==>
          drives'[i].k < |now| && SeedFates.Listed(now[drives'[i].k], sources) &&
          (drives'[i].stage.IssueStage? ==> cfg.createIssue) && (drives'[i].stage.PRStage? ==> cfg.openPR))
    && (forall k :: 0 <= k < |was| && now[k].status != was[k].status ==> SeedFates.Listed(now[k], sources))
    && (forall k :: |was| <= k < |now| && !now[k].status.Pending? ==> SeedFates.Listed(now[k], sources))
    && (forall k :: 0 <= k < |was| ==> NumbersKept(was[k], now[k], cfg.createIssue, cfg.openPR))
  }

  /** Every record done since has a pull request. */
  predicate NewlyDoneOpened(was: seq<LedgerItem>, now: seq<LedgerItem>) {
    forall k :: 0 <= k < |now| && now[k].status.Done? && (k < |was| ==> !was[k].status.Done?) ==> now[k].pr > 0
  }

  /** Nothing was worked on: statuses and numbers stay, and added records are pending. */
  predicate SameWork(a: seq<LedgerItem>, b: seq<LedgerItem>) {
    && |a| <= |b|
    && (forall k :: 0 <= k < |a| ==> a[k].status == b[k].status && a[k].issue == b[k].issue && a[k].pr == b[k].pr)
    && (forall k :: |a| <= k < |b| ==> b[k].status.Pending?)
  }

  lemma NoWork(items: seq<LedgerItem>)
    ensures SameWork(items, items) && NewlyDoneOpened(items, items)
  {
  }

  lemma NothingWorked(a: seq<LedgerItem>, b: seq<LedgerItem>, drives: seq<Drive>, sources: seq<Item>, cfg: Config)
    requires SameWork(a, b)
    ensures OnlyListed(a, b, drives, drives, sources, cfg)
  {
  }

  lemma OnlyListedAfter(a: seq<LedgerItem>, b: seq<LedgerItem>, c: seq<LedgerItem>, drives: seq<Drive>,
                        drives': seq<Drive>, sources: seq<Item>, cfg: Config)
    requires SameWork(a, b) && OnlyListed(b, c, drives, drives', sources, cfg)
    ensures OnlyListed(a, c, drives, drives', sources, cfg)
    ensures NewlyDoneOpened(b, c) ==> NewlyDoneOpened(a, c)
  {
    hide SeedFates.Listed;
  }

  lemma ListedStays(a: LedgerItem, b: LedgerItem, sources: seq<Item>)
    requires SameSource(a, b) && SeedFates.Listed(a, sources)
    ensures SeedFates.Listed(b, sources)
  {
    var i :| 0 <= i < |sources| && SeedFates.Is(a, sources[i]);
    assert SeedFates.Is(b, sources[i]);
  }

  lemma OneWorked(was: seq<LedgerItem>, a: seq<LedgerItem>, b: seq<LedgerItem>, drives: seq<Drive>, mid: seq<Drive>,
                  now: seq<Drive>, k: nat, sources: seq<Item>, cfg: Config)
    requires OnlyListed(was, a, drives, mid, sources, cfg) && AllListed(a, sources)
    requires WorkedOn(a, b, mid, now, k, cfg.createIssue, cfg.openPR) && a[k].sourceState.Current?
    ensures OnlyListed(was, b, drives, now, sources, cfg) && AllListed(b, sources) && |b| == |a|
    ensures NewlyDoneOpened(was, a) && b[k].pr > 0 ==> NewlyDoneOpened(was, b)
    ensures OnlyItem(a, b, k)
  {
    hide SeedFates.Listed;
    ListedStays(a[k], b[k], sources);
  }

  lemma SeededWork(items: seq<LedgerItem>, sources: seq<Item>)
    requires SlugsDistinct(items)
    ensures SameWork(items, Seeded(items, sources))
  {
    hide Seeded;
    SeededProgress(items, sources);
  }

  lemma SeededListed(items: seq<LedgerItem>, sources: seq<Item>)
    requires Good(items) && !SeedFails(items, sources)
    ensures AllListed(Seeded(items, sources), sources)
  {
    hide Seeded, ValidItems, SeedFates.Listed, Refused, Stuck;
    forall k | 0 <= k < |Seeded(items, sources)| && Seeded(items, sources)[k].sourceState.Current?
      ensures SeedFates.Listed(Seeded(items, sources)[k], sources)
    {
      SeedFates.CurrentListed(items, sources, k);
    }
  }

  /**
   * Any number of processes over one ledger file, from its first: any backlogs, any toggles each time,
   * any of them ending anywhere. What is durable stays in order, whatever was driven was durably
   * running, and no change was refused but that of an attempt failing with an error without text.
   */
  method Operate() returns (control: Control)
    ensures fresh(control) && control.machine.Valid()
    ensures control.machine.trace.refused ==> control.machine.trace.mute
    ensures OneAtATime(control.machine.trace)
    ensures NothingGoesBack(control.machine.trace) && NothingDrivenAgain(control.machine.trace)
    ensures NothingSkipped(control.machine.trace) && EventsBeforePR(control.machine.trace)
    ensures AttemptsRecordedFirst(control.machine.trace) && OrdinalsOfRunsGrow(control.machine.trace)
    ensures var t := control.machine.trace;
            RetriesAllowed(t.history, t.drives, t.runs) && BegunInTurn(t)
  {
    var ledger := new Ledger([]);
    var machine := new StageMachine(ledger);
    var publisher := new RemotePublisher(machine);
    control := new Control(machine, publisher);
    var processes: int := *;
    while processes > 0
      invariant control.publisher.machine == control.machine && control.machine.Valid()
      invariant fresh(control) && fresh(control.machine) && fresh(control.machine.ledger)
    {
      var backlog: seq<Item>, cfg: Config := *, *;
      var ok := control.Run(backlog, cfg);
      processes := processes - 1;
    }
    SoundHistory(control.machine.trace);
  }

  /** No current item is left to do. */
  ghost predicate AllDone(items: seq<LedgerItem>) {
    forall k :: 0 <= k < |items| && items[k].sourceState.Current? ==> items[k].status.Done?
  }

  ghost predicate NoneInProgress(items: seq<LedgerItem>) {
    forall i :: 0 <= i < |items| ==> !items[i].status.InProgress?
  }

  ghost predicate InProgressCurrent(items: seq<LedgerItem>) {
    forall i :: 0 <= i < |items| && items[i].status.InProgress? ==> items[i].sourceState.Current?
  }

  /** Current records still to be done. */
  function Open(items: seq<LedgerItem>): set<nat> {
    set k | 0 <= k < |items| && items[k].sourceState.Current? && !items[k].status.Done?
  }

  /** Each item done leaves one less to do. */
  lemma OneLess(before: seq<LedgerItem>, after: seq<LedgerItem>, k: nat)
    requires OnlyItem(before, after, k) && k in Open(before) && Selectable(after[k], Done)
    ensures |Open(after)| < |Open(before)|
    ensures InProgressCurrent(before) ==> InProgressCurrent(after)
  {
    assert Open(after) == Open(before) - {k};
  }

  lemma NoneStarted(items: seq<LedgerItem>, started: seq<nat>)
    requires InProgressCurrent(items) && started == []
    requires forall k: nat :: k in started <==> k < |items| && Selectable(items[k], InProgress)
    ensures NoneInProgress(items)
  {
    forall i | 0 <= i < |items| ensures !items[i].status.InProgress? {
      assert i !in started;
    }
  }

  lemma PrecedesSooner(items: seq<LedgerItem>, a: nat, b: nat)
    requires a < |items| && b < |items| && Precedes(items, a, b)
    ensures Sooner(items, a, b)
  {
  }

  lemma FirstHasTurn(items: seq<LedgerItem>, waiting: seq<nat>)
    requires NoneInProgress(items) && waiting != [] && InOrder(items, waiting)
    requires forall k: nat :: k in waiting <==> k < |items| && Selectable(items[k], Pending)
    ensures waiting[0] < |items| && ItsTurn(items, waiting[0])
  {
    hide Precedes, Sooner;
    var k := waiting[0];
    assert k in waiting;
    forall i | 0 <= i < |items| && i != k && items[i].status.Pending? && items[i].sourceState.Current?
      ensures Sooner(items, k, i)
    {
      assert i in waiting;
      var n :| 0 <= n < |waiting| && waiting[n] == i;
      PrecedesSooner(items, k, i);
    }
  }

  lemma NothingLeft(items: seq<LedgerItem>, started: seq<nat>, waiting: seq<nat>)
    requires Good(items) && started == [] && waiting == []
    requires forall k: nat :: k in started <==> k < |items| && Selectable(items[k], InProgress)
    requires forall k: nat :: k in waiting <==> k < |items| && Selectable(items[k], Pending)
    ensures AllDone(items)
  {
    forall k | 0 <= k < |items| && items[k].sourceState.Current? ensures items[k].status.Done? {
      assert k !in started && k !in waiting;
      assert ValidItem(items[k]);
    }
  }

  lemma RecordedOn(a: seq<LedgerItem>, b: seq<LedgerItem>, k: nat, drives: seq<Drive>)
    requires OnlyItem(a, b, k) && b[k].issue == a[k].issue && b[k].pr == a[k].pr
    ensures WorkedOn(a, b, drives, drives, k, false, false)
  {
  }

  lemma WorkingContext(it: LedgerItem)
    requires Working(it)
    ensures LastOrdinal(it.attempts) >= 0 && (it.featureDir != EMPTY ==> ValidFeatureDir(it.featureDir.chars)) &&
            it.sourceState.Current?
  {
  }

  // What reconciliation leaves alone.

  predicate SameProgress(a: LedgerItem, b: LedgerItem) {
    && a.slug == b.slug && a.status == b.status && a.stage == b.stage && a.stageState == b.stageState
    && a.issue == b.issue && a.pr == b.pr && a.outbox == b.outbox && a.attempts == b.attempts
  }

  predicate Untouched(it: LedgerItem) {
    it.status.Pending? && it.stage.StageNone? && it.stageState.StagePending? && it.issue == 0 && it.pr == 0 &&
      it.outbox == []
  }

  lemma {:induction false} AppendedUntouched(existing: seq<LedgerItem>, sources: seq<Item>, m: Matching, n: nat)
    requires n <= |m| && |m| == |sources|
    ensures forall k :: |existing| <= k < |Appended(existing, sources, m, n)| ==>
            Untouched(Appended(existing, sources, m, n)[k])
  {
    hide NewSlug;
    if n > 0 {
      AppendedUntouched(existing, sources, m, n - 1);
    }
  }

  lemma ReconciledProgress(it: LedgerItem, source: Item, order: int)
    ensures SameProgress(it, Reconciled(it, source, order).0) && SameProgress(it, Absent(it))
  {
    hide ByteLength;
  }

  lemma SeededProgress(items: seq<LedgerItem>, sources: seq<Item>)
    requires SlugsDistinct(items)
    ensures |Seeded(items, sources)| >= |items| && SlugsDistinct(Seeded(items, sources))
    ensures forall k :: 0 <= k < |items| ==> SameProgress(items[k], Seeded(items, sources)[k])
    ensures forall k :: |items| <= k < |Seeded(items, sources)| ==> Untouched(Seeded(items, sources)[k])
  {
    hide Match, Reconciled, Absent, Untouched;
    if !Refused(items, sources) {
      var m := Match(items, sources, |sources|).value;
      var existing := Existing(items, sources, m);
      forall k | 0 <= k < |items| ensures SameProgress(items[k], existing[k]) {
        var i := SourceOf(m, k, |m|);
        ReconciledProgress(items[k],
                           if i.Some? then sources[i.value] else Item(EMPTY, EMPTY, EMPTY, Low),
                           if i.Some? then i.value else 0);
      }
      assert SlugsDistinct(existing);
      SeedProofs.AppendedSlugs(existing, sources, m, |m|);
      AppendedUntouched(existing, sources, m, |m|);
    }
  }

  lemma ForwardSame(a: seq<LedgerItem>, b: seq<LedgerItem>)
    requires LedgerRuns.LedgerEvolves(a, b) && forall k :: 0 <= k < |a| ==> SameProgress(a[k], b[k])
    ensures Forward(a, b)
  {
    hide LedgerRuns.Evolves;
  }

  /** Once saved, which takes the validator, a reconciled ledger is a good next durable state. */
  lemma SeededGood(items: seq<LedgerItem>, sources: seq<Item>, reports: seq<EventID>)
    requires Good(items) && Reported(items, reports)
    ensures var r := Seeded(items, sources);
            ValidItems(r) ==>
              && Good(r) && Reported(r, reports)
              && Forward(items, r) && LedgerRuns.LedgerEvolves(items, r) && OneStep(items, r)
  {
    hide ValidItem, LedgerRuns.LedgerEvolves, Seeded;
    var r := Seeded(items, sources);
    SeededProgress(items, sources);
    LedgerRuns.ValidSane(items);
    LedgerRuns.SeededEvolves(items, sources);
    ForwardSame(items, r);
    forall k | 0 <= k < |r| ensures Orderly(r[k]) && OutboxReported(r[k], reports) {
      if k < |items| {
        assert SameProgress(items[k], r[k]) && Orderly(items[k]);
        ReportedItem(items, k, reports);
      } else {
        assert Untouched(r[k]);
      }
    }
    forall i, j | 0 <= i < j < |r| && r[i].status.InProgress? ensures !r[j].status.InProgress? {
      if j < |items| {
        assert SameProgress(items[i], r[i]) && SameProgress(items[j], r[j]);
      } else {
        assert Untouched(r[j]);
      }
    }
  }

  lemma GoodDistinct(items: seq<LedgerItem>)
    requires Good(items)
    ensures SlugsDistinct(items)
  {
  }

  /** After a reconciliation without error every in-progress record is current. */
  lemma SeededCurrent(items: seq<LedgerItem>, sources: seq<Item>)
    requires !SeedFails(items, sources) && SlugsDistinct(items)
    ensures InProgressCurrent(Seeded(items, sources))
  {
    hide Match;
    var m := Match(items, sources, |sources|).value;
    var r := Seeded(items, sources);
    AppendedUntouched(Existing(items, sources, m), sources, m, |m|);
    forall k | 0 <= k < |r| && r[k].status.InProgress? ensures r[k].sourceState.Current? {
      if k < |items| {
        CurrentAt(items, sources, m, k);
      }
    }
  }

  lemma CurrentAt(items: seq<LedgerItem>, sources: seq<Item>, m: Matching, k: nat)
    requires |m| == |sources| && !Stuck(items, sources, m) && k < |items| && items[k].status.InProgress?
    ensures ReconciledAt(items, sources, m, k).sourceState.Current?
  {
    hide ByteLength;
    var i := SourceOf(m, k, |m|);
    if i.Some? {
      assert !Reconciled(items[m[i.value].value], sources[i.value], i.value).1;
    }
  }
}
