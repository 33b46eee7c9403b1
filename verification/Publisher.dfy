/**
 * The remote sequence (internal/autodev/remote.go): stage, commit, push, issue, pull request, with its event outbox.
 */
module Publisher {
  import opened LedgerItems
  import opened Progress
  import opened CoreOutcome
  import opened Mutations
  import opened Stages

  /** The remote_flow toggles. */
  datatype Config = Config(createIssue: bool, openPR: bool)

  function Steps(cfg: Config): seq<PipelineStage> {
    [StageChanges, CommitStaged, Push] + (if cfg.createIssue then [IssueStage] else []) +
      (if cfg.openPR then [PRStage] else [])
  }

  /**
   * Where in the sequence a durable stage resumes: at a running one's first step not before it, or after
   * a verified one.
   */
  function ResumeIndex(it: LedgerItem, steps: seq<PipelineStage>, from: nat): (i: nat)
    requires from <= |steps|
    ensures i <= |steps| && (IsPublishing(it.stage) ==> from <= i)
    decreases |steps| - from
  {
    if !IsPublishing(it.stage) then 0
    else if from == |steps| then from
    else if it.stageState.StageVerified? && Rank(steps[from]) > Rank(it.stage) then from
    else if !it.stageState.StageVerified? && Rank(steps[from]) >= Rank(it.stage) then from
    else ResumeIndex(it, steps, from + 1)
  }

  /** Each remote stage follows the one before, and the last completes the publication. */
  lemma StepsFollow(cfg: Config, i: nat, it: LedgerItem)
    requires i < |Steps(cfg)| && Verified(it, Steps(cfg)[i])
    ensures if i + 1 < |Steps(cfg)| then Follows(it, Steps(cfg)[i + 1]) else Published(it)
  {
  }

  lemma StepsPublish(cfg: Config, i: nat)
    requires i < |Steps(cfg)|
    ensures IsPublishing(Steps(cfg)[i]) && IsExecutable(Steps(cfg)[i])
    ensures Rank(Steps(cfg)[i]) > Rank(PipelineStage.Publish)
    ensures Steps(cfg)[i].IssueStage? <==> cfg.createIssue && i == 3
    ensures Steps(cfg)[i].PRStage? <==> cfg.openPR && i == |Steps(cfg)| - 1
  {
  }

  /**
   * A record stands before this step of the sequence: it was left running there, or the step follows the
   * recorded one; before none, it is published. Steps passed over were verified, but for an issue left out
   * before its pull request.
   */
  predicate StandsBefore(it: LedgerItem, cfg: Config, start: nat) {
    && start <= |Steps(cfg)|
    && (if start < |Steps(cfg)| then
          (it.stage == Steps(cfg)[start] && it.stageState.StageRunning?) || Follows(it, Steps(cfg)[start])
        else Published(it) && (cfg.openPR ==> Verified(it, PRStage)))
    && (cfg.createIssue && start > 3 && !it.stage.PRStage? ==> Verified(it, IssueStage))
  }

  /**
   * Resuming never goes back and never skips: the first step driven was left running or follows the
   * recorded stage, with whatever toggles; if none is left, the item is published.
   */
  lemma ResumeFollows(it: LedgerItem, cfg: Config)
    requires IsPublishing(it.stage) && (it.stageState.StageRunning? || it.stageState.StageVerified?)
    ensures StandsBefore(it, cfg, ResumeIndex(it, Steps(cfg), 0))
  {
    var steps := Steps(cfg);
    assert steps[0].StageChanges? && steps[1].CommitStaged? && steps[2].Push?;
    assert ResumeIndex(it, steps, |steps|) == |steps|;
    if |steps| == 5 {
      ResumeAt(it, steps, 4);
    }
    if |steps| >= 4 {
      ResumeAt(it, steps, 3);
    }
    ResumeAt(it, steps, 2);
    ResumeAt(it, steps, 1);
    ResumeAt(it, steps, 0);
  }

  lemma ResumeAt(it: LedgerItem, steps: seq<PipelineStage>, from: nat)
    requires IsPublishing(it.stage) && from < |steps|
    ensures ResumeIndex(it, steps, from) ==
            if (if it.stageState.StageVerified? then Rank(steps[from]) > Rank(it.stage)
                else Rank(steps[from]) >= Rank(it.stage))
            then from else ResumeIndex(it, steps, from + 1)
  {
  }

  /** The ids of the events still to be delivered, in order. */
  function Undelivered(outbox: seq<EventRecord>, n: nat): seq<EventID>
    requires n <= |outbox|
  {
    if n == 0 then []
    else Undelivered(outbox, n - 1) + (if outbox[n - 1].delivered then [] else [outbox[n - 1].id])
  }

  /** Only this record differs, and not in whose it is. */
  predicate OnlyItem(a: seq<LedgerItem>, b: seq<LedgerItem>, k: nat) {
    k < |a| && |b| == |a| && b == a[k := b[k]] && SameSource(a[k], b[k])
  }

  lemma OnlyItemAgain(a: seq<LedgerItem>, b: seq<LedgerItem>, c: seq<LedgerItem>, k: nat)
    requires OnlyItem(a, b, k) && OnlyItem(b, c, k)
    ensures OnlyItem(a, c, k) && k < |a| && |b| == |a| && |c| == |a|
  {
    assert c == a[k := c[k]];
  }

  lemma OnlyOne(a: seq<LedgerItem>, k: nat, it: LedgerItem)
    requires k < |a| && SameSource(a[k], it)
    ensures OnlyItem(a, a[k := it], k) && OnlyItem(a, a, k)
  {
    assert a == a[k := a[k]];
  }

  lemma OnlyAttemptsItem(a: seq<LedgerItem>, b: seq<LedgerItem>, k: nat)
    requires OnlyAttempts(a, b, k)
    ensures OnlyItem(a, b, k) && k < |a| && |b| == |a| && b[k] == a[k].(attempts := b[k].attempts)
  {
    assert b == a[k := b[k]];
  }

  /** Attempts were only added, and none of them was cancelled. */
  predicate Uncancelled(was: LedgerItem, now: LedgerItem) {
    was.attempts <= now.attempts &&
    forall i :: |was.attempts| <= i < |now.attempts| ==> !now.attempts[i].outcome.Cancelled?
  }

  lemma UncancelledAgain(a: LedgerItem, b: LedgerItem, c: LedgerItem)
    requires Uncancelled(a, b) && Uncancelled(b, c)
    ensures Uncancelled(a, c)
  {
  }

  lemma StepUncancelled(a: LedgerItem, b: LedgerItem)
    requires Attempted(a.attempts, b.attempts)
    requires |b.attempts| > |a.attempts| ==> !b.attempts[|b.attempts| - 1].outcome.Cancelled?
    ensures Uncancelled(a, b)
  {
  }

  /** What was driven since is of this record; its issue and its pull request only where that is wanted. */
  predicate DrivenOf(was: seq<Drive>, now: seq<Drive>, k: nat, issue: bool, pr: bool) {
    was <= now && forall i :: |was| <= i < |now| ==>
      now[i].k == k && (now[i].stage.IssueStage? ==> issue) && (now[i].stage.PRStage? ==> pr)
  }

  /** Numbers bound stay, and none is bound that is not wanted. */
  predicate NumbersKept(was: LedgerItem, now: LedgerItem, issue: bool, pr: bool) {
    && (was.issue != 0 || !issue ==> now.issue == was.issue)
    && (was.pr != 0 || !pr ==> now.pr == was.pr)
  }

  /** All that work on a record does to the ledger and to the stages driven. */
  predicate WorkedOn(a: seq<LedgerItem>, b: seq<LedgerItem>, was: seq<Drive>, now: seq<Drive>, k: nat, issue: bool,
                     pr: bool) {
    OnlyItem(a, b, k) && DrivenOf(was, now, k, issue, pr) && NumbersKept(a[k], b[k], issue, pr)
  }

  lemma WorkedOnOne(a: seq<LedgerItem>, k: nat, it: LedgerItem, drives: seq<Drive>, issue: bool, pr: bool)
    requires k < |a| && SameSource(a[k], it) && NumbersKept(a[k], it, issue, pr)
    ensures WorkedOn(a, a[k := it], drives, drives, k, issue, pr) && WorkedOn(a, a, drives, drives, k, issue, pr)
  {
    OnlyOne(a, k, it);
  }

  lemma RanOn(a: seq<LedgerItem>, b: seq<LedgerItem>, was: seq<Drive>, now: seq<Drive>, k: nat, stage: PipelineStage)
    requires OnlyAttempts(a, b, k) && was <= now && |now| <= |was| + 1
    requires |was| < |now| ==> now[|was|].k == k && now[|was|].stage == stage
    ensures WorkedOn(a, b, was, now, k, stage.IssueStage?, stage.PRStage?)
    ensures k < |a| && |b| == |a| && b[k] == a[k].(attempts := b[k].attempts)
  {
    OnlyAttemptsItem(a, b, k);
  }

  lemma WorkedOnAgain(a: seq<LedgerItem>, b: seq<LedgerItem>, c: seq<LedgerItem>, was: seq<Drive>, mid: seq<Drive>,
                      now: seq<Drive>, k: nat, issue: bool, pr: bool, issue': bool, pr': bool)
    requires WorkedOn(a, b, was, mid, k, issue, pr) && WorkedOn(b, c, mid, now, k, issue', pr')
    requires (issue' ==> issue) && (pr' ==> pr)
    ensures WorkedOn(a, c, was, now, k, issue, pr) && k < |a| == |b| == |c|
  {
    OnlyItemAgain(a, b, c, k);
  }

  class RemotePublisher {
    const machine: StageMachine

    constructor (machine: StageMachine)
      ensures this.machine == machine
    {
      this.machine := machine;
    }

    /** Working on this record, all of whose events are delivered. */
    ghost predicate Clear(k: nat)
      reads machine, machine.ledger
    {
      machine.Synced() && k < |machine.ledger.items| && Working(machine.ledger.items[k]) &&
        Delivered(machine.ledger.items[k])
    }

    /** Reports every event not yet marked, in order, and marks each before the next. */
    method DeliverPendingEvents(k: nat) returns (ok: bool)
      requires machine.Synced() && k < |machine.ledger.items| && Working(machine.ledger.items[k])
      modifies machine`trace, machine.ledger
      ensures machine.Synced() && |machine.ledger.items| == |old(machine.ledger.items)|
      ensures var items := old(machine.ledger.items);
              machine.ledger.items == items[k := items[k].(outbox := machine.ledger.items[k].outbox)]
      ensures machine.trace.drives == old(machine.trace.drives) && machine.trace.runs == old(machine.trace.runs)
      ensures ok ==> Clear(k) && |machine.ledger.items[k].outbox| == |old(machine.ledger.items)[k].outbox|
      ensures var outbox := old(machine.ledger.items)[k].outbox;
              var pending := old(machine.trace.reports) + Undelivered(outbox, |outbox|);
              if ok then machine.trace.reports == pending
              else old(machine.trace.reports) <= machine.trace.reports <= pending
    {
      hide Working, Sound, Undelivered, OutboxReported, Accepted, ValidItem;
      ghost var items, t := machine.ledger.items, machine.trace;
      var outbox := machine.ledger.items[k].outbox;
      var i := 0;
      NothingDelivered(outbox);
      assert items[k := items[k].(outbox := outbox)] == items;
      while i < |outbox|
        invariant 0 <= i <= |outbox| && machine.Synced() && |machine.ledger.items| == |items|
        invariant Working(machine.ledger.items[k]) && DeliveredUpTo(outbox, machine.ledger.items[k].outbox, i)
        invariant machine.ledger.items == items[k := items[k].(outbox := machine.ledger.items[k].outbox)]
        invariant machine.trace.reports == t.reports + Undelivered(outbox, i)
        invariant t.reports <= machine.trace.reports <= t.reports + Undelivered(outbox, |outbox|)
        invariant machine.trace.drives == t.drives && machine.trace.runs == t.runs
      {
        UndeliveredNext(t.reports, outbox, i);
        if !outbox[i].delivered {
          var stop: bool := *;
          if stop {
            return false;
          }
          var id := outbox[i].id;
          WorkingParts(machine.trace, machine.ledger.items, k);
          ReportSound(machine.trace, id);
          machine.trace := machine.trace.(reports := machine.trace.reports + [id]);
          var reported: bool := *;
          if !reported {
            return false;
          }
          ghost var it := machine.ledger.items[k];
          DeliverAccepted(it, id);
          StillWorking(machine.ledger.items, k, Deliver(it, id));
          WorkingParts(machine.trace, machine.ledger.items, k);
          MarkReported(it, id, machine.trace.reports);
          MarkedOne(it, outbox, i);
          ok := machine.Record(k, item => Deliver(item, id));
          assert machine.ledger.items == items[k := items[k].(outbox := machine.ledger.items[k].outbox)];
          if !ok {
            return;
          }
          assert machine.ledger.items == items[k := items[k].(outbox := machine.ledger.items[k].outbox)];
        } else {
          DeliveredAlready(machine.ledger.items[k].outbox, outbox, i);
        }
        i := i + 1;
      }
      AllDelivered(machine.ledger.items[k], outbox);
      ok := true;
    }

    /** Working on this record with all events delivered, and the context knows it. */
    ghost predicate Underway(sc: StageContext, k: nat)
      reads machine, machine.ledger, sc
    {
      Clear(k) && sc.For(machine.ledger.items[k]) && Agrees(sc, machine.ledger.items[k])
    }

    /** Records a verified step with what it bound; a new issue's event is recorded with it. */
    method BindStep(sc: StageContext, k: nat, stage: PipelineStage, issue: int, pr: int) returns (ok: bool)
      requires machine.AtWork(sc, k) && Delivered(machine.ledger.items[k]) && IsPublishing(stage)
      requires machine.ledger.items[k].stage == stage && machine.ledger.items[k].stageState.StageRunning?
      requires issue == machine.ledger.items[k].issue && pr == machine.ledger.items[k].pr && issue >= 0 && pr >= 0
      requires Bound(stage, issue, sc.issue, pr, sc.pr, true) && sc.Confirmed(stage)
      modifies machine`trace, machine.ledger
      ensures machine.Synced() && SameButHistory(old(machine.trace), machine.trace)
      ensures WorkedOn(old(machine.ledger.items), machine.ledger.items, old(machine.trace.drives), machine.trace.drives,
                       k, stage.IssueStage?, stage.PRStage?)
      ensures machine.ledger.items[k].attempts == old(machine.ledger.items)[k].attempts
      ensures ok ==> machine.AtWork(sc, k) && Agrees(sc, machine.ledger.items[k])
      ensures ok ==> machine.ledger.items[k].stage == stage && machine.ledger.items[k].stageState.StageVerified?
      ensures ok && sc.issue == issue ==> Delivered(machine.ledger.items[k])
    {
      hide Working, Sound, Accepted, OutboxReported, ValidItem;
      ghost var it := machine.ledger.items[k];
      var newIssue := if sc.issue != 0 && sc.issue != issue then sc.issue else 0;
      var newPR := if sc.pr != 0 && sc.pr != pr then sc.pr else 0;
      BoundNumbers(stage, issue, sc.issue, pr, sc.pr);
      WorkingParts(machine.trace, machine.ledger.items, k);
      VerifyRemoteAccepted(it, stage, newIssue, newPR);
      StillWorking(machine.ledger.items, k, VerifyRemote(it, stage, newIssue, newPR));
      VerifiedReported(it, stage, newIssue, newPR, machine.trace.reports);
      StillDelivered(it, stage, newPR);
      WorkedOnOne(machine.ledger.items, k, VerifyRemote(it, stage, newIssue, newPR), machine.trace.drives,
                  stage.IssueStage?, stage.PRStage?);
      ok := machine.Record(k, item => VerifyRemote(item, stage, newIssue, newPR));
    }

    /** The intent to drive a step, durable before anything of it happens; a resumed step has it already. */
    method IntendStep(sc: StageContext, k: nat, stage: PipelineStage, resuming: bool) returns (ok: bool)
      requires Underway(sc, k) && IsExecutable(stage)
      requires resuming ==> machine.ledger.items[k].stage == stage && machine.ledger.items[k].stageState.StageRunning?
      requires !resuming ==> Follows(machine.ledger.items[k], stage)
      modifies machine`trace, machine.ledger
      ensures machine.Synced() && SameButHistory(old(machine.trace), machine.trace)
      ensures WorkedOn(old(machine.ledger.items), machine.ledger.items, old(machine.trace.drives), machine.trace.drives,
                       k, stage.IssueStage?, stage.PRStage?)
      ensures ok ==> Underway(sc, k) && machine.ledger.items[k].attempts == old(machine.ledger.items)[k].attempts
      ensures ok ==> machine.ledger.items[k].stage == stage && machine.ledger.items[k].stageState.StageRunning?
    {
      hide Working, Sound, Follows, Delivered, WorkedOn;
      ghost var items, drives := machine.ledger.items, machine.trace.drives;
      WorkedOnOne(items, k, Intend(items[k], stage), drives, stage.IssueStage?, stage.PRStage?);
      if resuming {
        return true;
      }
      StillDeliveredIntend(items[k], stage);
      ok := machine.IntendStage(sc, k, stage);
    }

    /**
     * One step of the sequence: intent, the step itself, and what it verified or bound; a new issue's event is
     * delivered at once.
     */
    method PublishStep(sc: StageContext, k: nat, stage: PipelineStage, resuming: bool) returns (ok: bool)
      requires Underway(sc, k) && IsPublishing(stage) && IsExecutable(stage)
      requires resuming ==> machine.ledger.items[k].stage == stage && machine.ledger.items[k].stageState.StageRunning?
      requires !resuming ==> Follows(machine.ledger.items[k], stage)
      modifies machine`trace, machine.ledger, sc
      ensures machine.Synced() && old(machine.trace.reports) <= machine.trace.reports
      ensures WorkedOn(old(machine.ledger.items), machine.ledger.items, old(machine.trace.drives), machine.trace.drives,
                       k, stage.IssueStage?, stage.PRStage?)
      ensures ok ==> Underway(sc, k) && Uncancelled(old(machine.ledger.items)[k], machine.ledger.items[k])
      ensures ok ==> machine.ledger.items[k].stage == stage && machine.ledger.items[k].stageState.StageVerified?
    {
      hide Working, Sound, Follows, Delivered, Uncancelled, WorkedOn;
      ghost var items, drives := machine.ledger.items, machine.trace.drives;
      ghost var binds, opens := stage.IssueStage?, stage.PRStage?;
      WorkedOnOne(items, k, items[k], drives, binds, opens);
      var stop: bool := *;
      if stop {
        return false;
      }
      ok := IntendStep(sc, k, stage, resuming);
      if !ok {
        return;
      }
      ghost var intended := machine.ledger.items;
      var issue := sc.issue;
      ok := DriveStep(sc, k, stage, resuming);
      ghost var bound, driven := machine.ledger.items, machine.trace.drives;
      WorkedOnAgain(items, intended, bound, drives, drives, driven, k, binds, opens, binds, opens);
      if !ok {
        return;
      }
      SameAttempts(items[k], intended[k], bound[k], bound[k]);
      if sc.issue != issue {
        ok := DeliverPendingEvents(k);
        WorkedOnOne(bound, k, machine.ledger.items[k], driven, binds, opens);
        WorkedOnAgain(items, bound, machine.ledger.items, drives, driven, driven, k, binds, opens, binds, opens);
        SameAttempts(items[k], intended[k], bound[k], machine.ledger.items[k]);
      }
    }

    /** Drives a step that is durably running and records what it verified or bound. */
    method DriveStep(sc: StageContext, k: nat, stage: PipelineStage, resuming: bool) returns (ok: bool)
      requires Underway(sc, k) && IsPublishing(stage) && IsExecutable(stage)
      requires machine.ledger.items[k].stage == stage && machine.ledger.items[k].stageState.StageRunning?
      modifies machine`trace, machine.ledger, sc
      ensures machine.Synced() && old(machine.trace.reports) == machine.trace.reports
      ensures WorkedOn(old(machine.ledger.items), machine.ledger.items, old(machine.trace.drives), machine.trace.drives,
                       k, stage.IssueStage?, stage.PRStage?)
      ensures ok ==> machine.AtWork(sc, k) && Agrees(sc, machine.ledger.items[k])
      ensures ok ==> Uncancelled(old(machine.ledger.items)[k], machine.ledger.items[k])
      ensures ok && sc.issue == old(sc.issue) ==> Delivered(machine.ledger.items[k])
      ensures ok ==> machine.ledger.items[k].stage == stage && machine.ledger.items[k].stageState.StageVerified?
    {
      hide Working, Sound, Bound, Delivered, OnlyAttempts, Uncancelled, Attempted, WorkedOn;
      ghost var items, drives := machine.ledger.items, machine.trace.drives;
      ghost var binds, opens := stage.IssueStage?, stage.PRStage?;
      var issue, pr := sc.issue, sc.pr;
      var r := machine.RunStep(sc, k, stage, resuming);
      ghost var ran, driven := machine.ledger.items, machine.trace.drives;
      RanOn(items, ran, drives, driven, k, stage);
      if r.StepFailed? {
        return false;
      }
      StillDeliveredAttempts(items[k], ran[k].attempts);
      ok := BindStep(sc, k, stage, issue, pr);
      WorkedOnAgain(items, ran, machine.ledger.items, drives, driven, driven, k, binds, opens, binds, opens);
      if !ok || r.StepCancelled? {
        return false;
      }
      StepUncancelled(items[k], machine.ledger.items[k]);
    }

    /** Runs the steps from one on; the first is resumed if it was left running. */
    method PublishFrom(sc: StageContext, k: nat, cfg: Config, start: nat) returns (ok: bool)
      requires Underway(sc, k) && StandsBefore(machine.ledger.items[k], cfg, start)
      modifies machine`trace, machine.ledger, sc
      ensures machine.Synced() && old(machine.trace.reports) <= machine.trace.reports
      ensures WorkedOn(old(machine.ledger.items), machine.ledger.items, old(machine.trace.drives), machine.trace.drives,
                       k, cfg.createIssue, cfg.openPR)
      ensures ok ==> Underway(sc, k) && Uncancelled(old(machine.ledger.items)[k], machine.ledger.items[k])
      ensures ok ==> Published(machine.ledger.items[k]) && (cfg.openPR ==> Verified(machine.ledger.items[k], PRStage))
      ensures ok && cfg.createIssue && !old(machine.ledger.items)[k].stage.PRStage? ==>
                machine.ledger.items[k].issue > 0
    {
      hide Working, Sound, WorkedOn, Follows, Published, Steps, Delivered, Uncancelled;
      ghost var items, drives := machine.ledger.items, machine.trace.drives;
      var steps := Steps(cfg);
      var it := machine.ledger.items[k];
      WorkedOnOne(items, k, it, drives, cfg.createIssue, cfg.openPR);
      NothingCancelled(it);
      var i := start;
      while i < |steps|
        invariant start <= i <= |steps|
        invariant old(machine.trace.reports) <= machine.trace.reports
        invariant Underway(sc, k)
        invariant WorkedOn(items, machine.ledger.items, drives, machine.trace.drives, k, cfg.createIssue, cfg.openPR)
        invariant Uncancelled(it, machine.ledger.items[k])
        invariant cfg.createIssue && i > 3 && !it.stage.PRStage? && i > start ==> machine.ledger.items[k].issue > 0
        invariant i == start ==> machine.ledger.items[k] == it
        invariant i > start ==> Verified(machine.ledger.items[k], steps[i - 1])
      {
        ghost var before, driven := machine.ledger.items, machine.trace.drives;
        var resuming := i == start && it.stage == steps[i] && it.stageState.StageRunning?;
        StepsPublish(cfg, i);
        if i > start {
          StepsFollow(cfg, i - 1, machine.ledger.items[k]);
        }
        NumbersBound(before[k]);
        ok := PublishStep(sc, k, steps[i], resuming);
        WorkedOnAgain(items, before, machine.ledger.items, drives, driven, machine.trace.drives, k,
                      cfg.createIssue, cfg.openPR, steps[i].IssueStage?, steps[i].PRStage?);
        if !ok {
          return;
        }
        IssueStays(before, machine.ledger.items, driven, machine.trace.drives, k, steps[i]);
        NumbersBound(machine.ledger.items[k]);
        UncancelledAgain(it, before[k], machine.ledger.items[k]);
        i := i + 1;
      }
      NumbersBound(machine.ledger.items[k]);
      StepsToggled(cfg);
      if i > start {
        StepsPublish(cfg, i - 1);
        StepsFollow(cfg, i - 1, machine.ledger.items[k]);
      }
      ok := true;
    }

    /**
     * Runs the sequence from where the record stands; true means all of it is verified and every event delivered.
     * Events an earlier run left unmarked are reported again, before anything else. With the toggle on the pull
     * request is there in the end, and so is the issue, unless the record came with its pull request under way;
     * with a toggle off its stage is not driven and its number stays.
     */
    method Publish(k: nat, cfg: Config) returns (ok: bool, issue: int, pr: int)
      requires machine.Synced() && k < |machine.ledger.items| && Working(machine.ledger.items[k])
      requires IsPublishing(machine.ledger.items[k].stage)
      modifies machine`trace, machine.ledger
      ensures machine.Synced()
      ensures var outbox := old(machine.ledger.items)[k].outbox;
              ok ==> old(machine.trace.reports) + Undelivered(outbox, |outbox|) <= machine.trace.reports
      ensures WorkedOn(old(machine.ledger.items), machine.ledger.items, old(machine.trace.drives), machine.trace.drives,
                       k, cfg.createIssue, cfg.openPR)
      ensures old(machine.trace.drives) <= machine.trace.drives
      ensures forall i :: |old(machine.trace.drives)| <= i < |machine.trace.drives| ==>
                var d := machine.trace.drives[i];
                d.k == k && (d.stage.IssueStage? ==> cfg.createIssue) && (d.stage.PRStage? ==> cfg.openPR)
      ensures !cfg.createIssue ==> machine.ledger.items[k].issue == old(machine.ledger.items)[k].issue
      ensures !cfg.openPR ==> machine.ledger.items[k].pr == old(machine.ledger.items)[k].pr
      ensures ok ==> Clear(k) && issue == machine.ledger.items[k].issue && pr == machine.ledger.items[k].pr
      ensures ok ==> Published(machine.ledger.items[k])
      ensures ok && cfg.openPR ==> Verified(machine.ledger.items[k], PRStage) && pr > 0
      ensures ok && cfg.createIssue && !old(machine.ledger.items)[k].stage.PRStage? ==> issue > 0
      ensures ok ==> Uncancelled(old(machine.ledger.items)[k], machine.ledger.items[k])
    {
      hide Working, Sound, ResumeIndex, OnlyItem, Follows, Published, Steps, Undelivered, StandsBefore, Uncancelled;
      ghost var items := machine.ledger.items;
      NothingCancelled(items[k]);
      ok := DeliverPendingEvents(k);
      WorkedOnOne(items, k, machine.ledger.items[k], machine.trace.drives, cfg.createIssue, cfg.openPR);
      if !ok {
        return false, 0, 0;
      }
      ghost var delivered := machine.ledger.items;
      var it := machine.ledger.items[k];
      WorkingParts(machine.trace, machine.ledger.items, k);
      var sc := new StageContext(it, EMPTY, it.issue, it.pr);
      FreshContext(it);
      var steps := Steps(cfg);
      PublishingState(it);
      ResumeFollows(it, cfg);
      ok := PublishFrom(sc, k, cfg, ResumeIndex(it, steps, 0));
      WorkedOnAgain(items, delivered, machine.ledger.items, old(machine.trace.drives), old(machine.trace.drives),
                    machine.trace.drives, k, cfg.createIssue, cfg.openPR, cfg.createIssue, cfg.openPR);
      if ok {
        NumbersBound(machine.ledger.items[k]);
        SameAttempts(items[k], it, machine.ledger.items[k], machine.ledger.items[k]);
      }
      return ok, sc.issue, sc.pr;
    }
  }

  lemma NothingCancelled(it: LedgerItem)
    ensures Uncancelled(it, it)
  {
  }

  lemma IssueStays(a: seq<LedgerItem>, b: seq<LedgerItem>, was: seq<Drive>, now: seq<Drive>, k: nat,
                   stage: PipelineStage)
    requires WorkedOn(a, b, was, now, k, stage.IssueStage?, stage.PRStage?)
    ensures k < |a| == |b| && (!stage.IssueStage? ==> b[k].issue == a[k].issue)
  {
  }

  lemma SameAttempts(a: LedgerItem, b: LedgerItem, c: LedgerItem, d: LedgerItem)
    requires a.attempts == b.attempts && Uncancelled(b, c) && c.attempts == d.attempts
    ensures Uncancelled(a, d)
  {
  }

  lemma NumbersBound(it: LedgerItem)
    requires Working(it)
    ensures Verified(it, IssueStage) ==> it.issue > 0
    ensures Verified(it, PRStage) ==> it.pr > 0
  {
  }

  lemma StepsToggled(cfg: Config)
    ensures cfg.createIssue ==> |Steps(cfg)| > 3
    ensures cfg.openPR ==> Steps(cfg)[|Steps(cfg)| - 1].PRStage?
  {
  }

  /** The first n events are delivered, the others as they were. */
  predicate DeliveredUpTo(outbox: seq<EventRecord>, now: seq<EventRecord>, n: nat) {
    && |now| == |outbox| && n <= |outbox|
    && (forall j :: 0 <= j < n ==> now[j] == outbox[j].(delivered := true))
    && (forall j :: n <= j < |outbox| ==> now[j] == outbox[j])
  }

  lemma NothingDelivered(outbox: seq<EventRecord>)
    ensures DeliveredUpTo(outbox, outbox, 0) && Undelivered(outbox, 0) == []
    ensures forall reports: seq<EventID> ::
            reports <= reports + Undelivered(outbox, |outbox|) && reports + Undelivered(outbox, 0) == reports
  {
  }

  lemma {:induction false} UndeliveredPrefix(outbox: seq<EventRecord>, i: nat, n: nat)
    requires i <= n <= |outbox|
    ensures Undelivered(outbox, i) <= Undelivered(outbox, n)
  {
    if i < n {
      UndeliveredPrefix(outbox, i, n - 1);
    }
  }

  lemma UndeliveredNext(reports: seq<EventID>, outbox: seq<EventRecord>, i: nat)
    requires i < |outbox|
    ensures outbox[i].delivered ==> Undelivered(outbox, i + 1) == Undelivered(outbox, i)
    ensures !outbox[i].delivered ==>
            reports + Undelivered(outbox, i + 1) == reports + Undelivered(outbox, i) + [outbox[i].id]
    ensures reports + Undelivered(outbox, i + 1) <= reports + Undelivered(outbox, |outbox|)
  {
    UndeliveredPrefix(outbox, i + 1, |outbox|);
  }

  lemma MarkReported(it: LedgerItem, id: EventID, reports: seq<EventID>)
    requires OutboxReported(it, reports) && id in reports
    ensures OutboxReported(Deliver(it, id), reports)
  {
  }

  /** Event ids are distinct, so marking one marks no other. */
  lemma MarkedOne(it: LedgerItem, outbox: seq<EventRecord>, i: nat)
    requires Working(it) && i < |outbox| && DeliveredUpTo(outbox, it.outbox, i)
    ensures DeliveredUpTo(outbox, Deliver(it, outbox[i].id).outbox, i + 1)
  {
    hide ValidShape, ValidIdentity, ValidAttempts, ValidWorkflow, ByteLength;
    var marked := Deliver(it, outbox[i].id).outbox;
    forall j | 0 <= j < |outbox| && j != i ensures marked[j] == it.outbox[j] {
      assert it.outbox[if i < j then i else j].id != it.outbox[if i < j then j else i].id;
    }
  }

  lemma DeliveredAlready(now: seq<EventRecord>, outbox: seq<EventRecord>, i: nat)
    requires i < |outbox| && outbox[i].delivered && DeliveredUpTo(outbox, now, i)
    ensures DeliveredUpTo(outbox, now, i + 1)
  {
  }

  lemma AllDelivered(it: LedgerItem, outbox: seq<EventRecord>)
    requires DeliveredUpTo(outbox, it.outbox, |outbox|)
    ensures Delivered(it)
  {
  }

  /** The context knows the numbers bound so far. */
  ghost predicate Agrees(sc: StageContext, it: LedgerItem)
    reads sc
  {
    sc.issue == it.issue && sc.pr == it.pr
  }

  lemma PublishingState(it: LedgerItem)
    requires Working(it) && IsPublishing(it.stage)
    ensures it.stageState.StageRunning? || it.stageState.StageVerified?
  {
  }

  lemma FreshContext(it: LedgerItem)
    requires Working(it)
    ensures LastOrdinal(it.attempts) >= 0 && it.issue >= 0 && it.pr >= 0
  {
  }

  /** A step binds a number only where there was none. */
  lemma BoundNumbers(stage: PipelineStage, issue0: int, issue: int, pr0: int, pr: int)
    requires Bound(stage, issue0, issue, pr0, pr, true) && issue0 >= 0 && pr0 >= 0
    ensures var newIssue := if issue != 0 && issue != issue0 then issue else 0;
            && newIssue >= 0 && (newIssue != 0 ==> stage.IssueStage? && issue0 == 0) &&
               (stage.IssueStage? ==> issue0 + newIssue > 0)
            && issue == (if newIssue != 0 then newIssue else issue0)
    ensures var newPR := if pr != 0 && pr != pr0 then pr else 0;
            && newPR >= 0 && (newPR != 0 ==> stage.PRStage? && pr0 == 0) && (stage.PRStage? ==> pr0 + newPR > 0)
            && pr == (if newPR != 0 then newPR else pr0)
  {
  }

  lemma VerifiedReported(it: LedgerItem, stage: PipelineStage, issue: int, pr: int, reports: seq<EventID>)
    requires OutboxReported(it, reports)
    ensures OutboxReported(VerifyRemote(it, stage, issue, pr), reports)
  {
  }

  lemma StillDeliveredIntend(it: LedgerItem, stage: PipelineStage)
    ensures Delivered(it) ==> Delivered(Intend(it, stage))
  {
  }

  lemma StillDeliveredAttempts(it: LedgerItem, attempts: seq<AttemptRecord>)
    ensures Delivered(it) ==> Delivered(it.(attempts := attempts))
  {
  }

  lemma StillDelivered(it: LedgerItem, stage: PipelineStage, pr: int)
    ensures Delivered(it) ==> Delivered(VerifyRemote(it, stage, 0, pr))
  {
  }
}
