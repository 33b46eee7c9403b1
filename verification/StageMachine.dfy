/**
 * The stage machine (internal/autodev/stage.go) and the commits it makes, against a free environment:
 * core runs, git, gh, engineers and file writes answer as they like. A crash is a run that ends early,
 * at any write or between two.
 */
module Stages {
  import opened Common
  import opened LedgerPaths
  import opened LedgerItems
  import opened LedgerClass
  import opened CoreOutcome
  import opened Progress
  import opened Mutations

  /** How a step ended; `StepCancelled` is a cancelled run whose stage turned out verified. */
  datatype StepResult = StepDone | StepFailed | StepCancelled

  /** What a step carries along: the item's identity, and the recorder's copy of its attempts. */
  class StageContext {
    const itemID: ItemID
    var featureDir: Text
    var issue: int
    var pr: int
    var ordinal: int
    var attempts: seq<AttemptRecord>

    /** How often the core runner was replaced. */
    ghost var runner: nat

    /** The last answer of the ground truth about each stage, in the step going on. */
    ghost var verdicts: map<PipelineStage, bool>

    constructor (it: LedgerItem, featureDir: Text, issue: int, pr: int)
      ensures itemID == it.itemID && this.featureDir == featureDir && this.issue == issue && this.pr == pr
      ensures attempts == it.attempts && ordinal == LastOrdinal(it.attempts)
    {
      itemID, this.featureDir, this.issue, this.pr := it.itemID, featureDir, issue, pr;
      attempts, ordinal := it.attempts, LastOrdinal(it.attempts);
      runner, verdicts := 0, map[];
    }

    ghost predicate For(it: LedgerItem)
      reads this
    {
      && itemID == it.itemID && attempts == it.attempts && ordinal >= LastOrdinal(it.attempts) && ordinal >= 0
      && issue >= 0 && pr >= 0
      && (featureDir != EMPTY ==> ValidFeatureDir(featureDir.chars))
    }

    ghost predicate Confirmed(stage: PipelineStage)
      reads this
    {
      stage in verdicts && verdicts[stage]
    }

    ghost predicate Denied(stage: PipelineStage)
      reads this
    {
      stage in verdicts && !verdicts[stage]
    }

    /** Ground truth of a stage. A remote step may find the number it was to create; numbers are positive. */
    method VerifyStage(stage: PipelineStage) returns (ok: bool, failed: bool)
      requires issue >= 0 && pr >= 0
      modifies this`issue, this`pr, this`verdicts
      ensures issue >= 0 && pr >= 0 && !(ok && failed)
      ensures ok ==> Confirmed(stage)
      ensures !ok && !failed ==> Denied(stage)
      ensures old(issue) != 0 || !stage.IssueStage? ==> issue == old(issue)
      ensures old(pr) != 0 || !stage.PRStage? ==> pr == old(pr)
      ensures ok && stage.IssueStage? ==> issue > 0
      ensures ok && stage.PRStage? ==> pr > 0
    {
      failed := *;
      if failed {
        return false, true;
      }
      ok := *;
      var found: int := *;
      if stage.IssueStage? && issue == 0 {
        ok := ok && found > 0;
        if ok {
          issue := found;
        }
      } else if stage.PRStage? && pr == 0 {
        ok := ok && found > 0;
        if ok {
          pr := found;
        }
      }
      verdicts := verdicts[stage := ok];
    }

    /** A step already satisfied: what lets it be skipped is what its own verification asks for. */
    method Skip(stage: PipelineStage) returns (skip: bool)
      modifies this`verdicts
      ensures skip ==> Confirmed(stage)
      ensures !skip ==> verdicts == old(verdicts)
    {
      skip := *;
      if skip {
        verdicts := verdicts[stage := true];
      }
    }

    /** The control step that writes the requirements into a new or bound feature directory. */
    method Materialize() returns (failed: bool)
      modifies this`featureDir
      ensures !failed ==> ValidFeatureDir(featureDir.chars)
    {
      if featureDir == EMPTY {
        var name: string := *;
        featureDir := Text(SPECS + name);
      }
      if !ValidFeatureDir(featureDir.chars) {
        return true;
      }
      failed := *;
    }

    /**
     * What comes before the core is driven: a remote stage is checked for being there already, a resumed
     * one is verified, and a control stage is run and verified. None means the core is needed.
     */
    method Settle(stage: PipelineStage, resuming: bool) returns (r: Option<StepResult>)
      requires issue >= 0 && pr >= 0 && (featureDir != EMPTY ==> ValidFeatureDir(featureDir.chars))
      modifies this`issue, this`pr, this`verdicts, this`featureDir
      ensures r != Some(StepFailed) ==> Bound(stage, old(issue), issue, old(pr), pr, r.Some?)
      ensures r != Some(StepFailed) ==> featureDir != EMPTY ==> ValidFeatureDir(featureDir.chars)
      ensures r != Some(StepFailed) && (r.None? || !stage.MaterializeRequirements?) ==> featureDir == old(featureDir)
      ensures r.Some? && !r.value.StepFailed? ==> Confirmed(stage) && r.value.StepDone?
      ensures r.None? && resuming ==> Denied(stage)
      ensures r.None? && !old(Confirmed(stage)) ==> !Confirmed(stage)
    {
      hide ValidFeatureDir;
      var ok, failed := false, false;
      if stage.IssueStage? || stage.PRStage? {
        ok, failed := VerifyStage(stage);
        if failed || ok {
          return Some(if failed then StepFailed else StepDone);
        }
      } else if stage.StageChanges? || stage.CommitStaged? || stage.Push? {
        var skip := Skip(stage);
        if skip {
          return Some(StepDone);
        }
      }
      if resuming {
        ok, failed := VerifyStage(stage);
        if failed || ok {
          return Some(if failed then StepFailed else StepDone);
        }
      }
      if stage.MaterializeRequirements? {
        failed := Materialize();
        if failed {
          return Some(StepFailed);
        }
        ok, failed := VerifyStage(stage);
        return Some(if ok then StepDone else StepFailed);
      }
      r := None;
    }

    method NewCoreAttempt(stage: PipelineStage, prompt: Text) returns (a: Attempt)
      requires IsExecutable(stage)
      modifies this`ordinal
      ensures ordinal == old(ordinal) + 1 && a.ordinal == ordinal && Identified(itemID, stage, a) && a.prompt == prompt
    {
      ordinal := ordinal + 1;
      var id := CoreID(itemID, stage, ordinal);
      a := Attempt(id, id, ordinal, prompt);
    }

    /** Puts a new core runner in place of the one used so far, if it can. */
    method Replace() returns (ok: bool)
      modifies this`runner
      ensures runner == if ok then old(runner) + 1 else old(runner)
    {
      ok := *;
      runner := if ok then runner + 1 else runner;
    }

    /** Whether the stage, not verified after this outcome, is attempted once more. */
    method MayRetry(o: Outcome) returns (again: bool)
      modifies this`runner
      ensures again ==> !o.status.Cancelled? && (o.status.Succeeded? || !o.retry.Never?)
      ensures runner == if again && o.retry.FreshRunner? then old(runner) + 1 else old(runner)
    {
      if o.status.Cancelled? || (!o.status.Succeeded? && o.retry.Never?) {
        return false;
      }
      var timedOut: bool, reviewed: bool := *, *;
      if timedOut || !reviewed {
        return false;
      }
      again := true;
      if o.retry.FreshRunner? {
        again := Replace();
      }
    }
  }

  ghost predicate OutboxReported(it: LedgerItem, reports: seq<EventID>) {
    forall i :: 0 <= i < |it.outbox| && it.outbox[i].delivered ==> it.outbox[i].id in reports
  }

  lemma ReportedChanged(items: seq<LedgerItem>, k: nat, after: LedgerItem, reports: seq<EventID>)
    requires Reported(items, reports) && k < |items| && OutboxReported(after, reports)
    ensures Reported(items[k := after], reports)
  {
  }

  lemma ReportedItem(items: seq<LedgerItem>, k: nat, reports: seq<EventID>)
    requires Reported(items, reports) && k < |items|
    ensures OutboxReported(items[k], reports)
  {
  }

  class StageMachine {
    const ledger: Ledger

    /** The record of everything durable so far. */
    ghost var trace: Trace

    ghost predicate Valid()
      reads this, ledger
    {
      Sound(trace) && Last(trace) == ledger.file
    }

    /** Memory agrees with the file, as it does all through a run once the backlog is reconciled. */
    ghost predicate Synced()
      reads this, ledger
    {
      Valid() && ledger.items == ledger.file
    }

    ghost predicate AtWork(sc: StageContext, k: nat)
      reads this, ledger, sc
    {
      Synced() && k < |ledger.items| && Working(ledger.items[k]) && sc.For(ledger.items[k])
    }

    constructor (ledger: Ledger)
      requires ledger.file == [] && ledger.items == []
      ensures this.ledger == ledger && Synced()
      ensures trace == Trace([[]], [], [], [], [0], false, false)
    {
      this.ledger := ledger;
      trace := Trace([[]], [], [], [], [0], false, false);
    }

    /** Commits a change that the validators accept; false ends the run, whatever reached the file. */
    method Record(k: nat, mut: LedgerItem -> LedgerItem) returns (ok: bool)
      requires Synced() && k < |ledger.items|
      requires Accepted(ledger.items[k], Freeze(ledger.items[k], mut(ledger.items[k])))
      requires Alone(ledger.items, k, Freeze(ledger.items[k], mut(ledger.items[k])))
      requires OutboxReported(Freeze(ledger.items[k], mut(ledger.items[k])), trace.reports)
      modifies this`trace, ledger
      ensures Synced() && SameButHistory(old(trace), trace)
      ensures
        || (!ok && ledger.items == old(ledger.items) && trace == old(trace))
        || (ledger.items == old(ledger.items)[k := Freeze(old(ledger.items)[k], mut(old(ledger.items)[k]))] &&
            trace == Extended(old(trace), ledger.items))
    {
      hide ValidItem, ValidItems, Accepted, Alone, Forward, Reported, Good, Sound;
      ghost var items := ledger.items;
      ghost var after := Freeze(items[k], mut(items[k]));
      LastGood(trace);
      AcceptedIsCandidate(items, k, mut(items[k]));
      AcceptedKeepsGood(items, k, after);
      ReportedChanged(items, k, after, trace.reports);
      var r := ledger.Commit(ledger.items[k].slug, mut);
      assert r.Unwritten? || r.Written?;
      if r.Written? {
        ExtendedSound(trace, ledger.items);
        trace := Extended(trace, ledger.items);
      }
      ok := r == Written(false);
    }

    /** Records the intent to drive a stage, before anything is driven. */
    method IntendStage(sc: StageContext, k: nat, stage: PipelineStage) returns (ok: bool)
      requires AtWork(sc, k) && Follows(ledger.items[k], stage)
      requires stage.PRStage? ==> Delivered(ledger.items[k])
      modifies this`trace, ledger
      ensures Synced() && SameButHistory(old(trace), trace)
      ensures (!ok && ledger.items == old(ledger.items)) ||
              ledger.items == old(ledger.items)[k := Intend(old(ledger.items)[k], stage)]
      ensures ok ==> AtWork(sc, k)
    {
      hide Working, Sound, Accepted, OutboxReported, ValidItem;
      ghost var items := ledger.items;
      WorkingParts(trace, items, k);
      IntendAccepted(items[k], stage);
      StillWorking(items, k, Intend(items[k], stage));
      SameOutboxReported(items[k], Intend(items[k], stage), trace.reports);
      ok := Record(k, item => Intend(item, stage));
    }

    // The stage machine.

    /** Records an attempt as running; only then may it run. */
    method StartAttempt(sc: StageContext, k: nat, stage: PipelineStage, a: Attempt) returns (ok: bool)
      requires AtWork(sc, k) && Identified(sc.itemID, stage, a) && a.ordinal == sc.ordinal &&
               a.ordinal > LastOrdinal(sc.attempts)
      requires MayRun(trace, k, sc.runner)
      modifies this`trace, ledger, sc`attempts
      ensures Synced() && SameLogs(old(trace), trace) && OnlyAttempts(old(ledger.items), ledger.items, k)
      ensures (!ok && ledger.items[k].attempts == old(ledger.items)[k].attempts) ||
              ledger.items[k].attempts == old(ledger.items)[k].attempts + [RunningRecord(stage, a)]
      ensures ok ==> AtWork(sc, k) && trace.history == old(trace.history) + [ledger.items]
      ensures trace.runs ==
              if ok then old(trace.runs) + [CoreRun(k, a.id, |old(trace.history)|, sc.runner)] else old(trace.runs)
    {
      hide Working, Accepted, Sound, RunningRecord, OutboxReported, UpdateAttempts;
      var record := RunningRecord(stage, a);
      ghost var it, t := ledger.items[k], trace;
      RunningParts(stage, a);
      RunningAccepted(it, stage, a);
      WorkingParts(t, ledger.items, k);
      SameOutboxReported(it, RecordAttempt(it, record), t.reports);
      var candidate := UpdateAttemptRecord(sc.attempts, record);
      ok := Record(k, item => RecordAttempt(item, record));
      if ok {
        AttemptStarted(t, k, a.id, sc.runner, ledger.items);
        trace := trace.(runs := trace.runs + [CoreRun(k, a.id, |trace.history| - 1, sc.runner)]);
        sc.attempts := candidate.value;
      }
    }

    /** Records how an attempt ended. The ledger refuses it only if the attempt failed with an error without text. */
    method EndAttempt(sc: StageContext, k: nat, stage: PipelineStage, o: Outcome) returns (ok: bool)
      requires AtWork(sc, k) && Identified(sc.itemID, stage, o.attempt) && Validate(o)
      requires sc.attempts != [] && sc.attempts[|sc.attempts| - 1] == RunningRecord(stage, o.attempt)
      modifies this`trace, ledger, sc`attempts
      ensures Synced() && SameLogs(old(trace), trace) && OnlyAttempts(old(ledger.items), ledger.items, k)
      ensures trace.runs == old(trace.runs)
      ensures (!ok && ledger.items[k].attempts == old(sc.attempts)) ||
              LastEnded(old(sc.attempts), ledger.items[k].attempts, stage, o)
      ensures ok ==> AtWork(sc, k) && trace.history == old(trace.history) + [ledger.items]
      ensures trace.refused != old(trace.refused) ==> !o.status.Succeeded? && o.cause == Some(EMPTY)
    {
      hide Working, Accepted, Sound, Validate, RunningRecord, TerminalRecord, OutboxReported, UpdateAttempts,
        LastOrdinal, ValidItem, Ended;
      var record := TerminalRecord(stage, o);
      TerminalEnded(sc.attempts, stage, o);
      ghost var it, t := ledger.items[k], trace;
      WorkingParts(t, ledger.items, k);
      FailureHasCause(o);
      OutcomeAcceptedIff(it, stage, o);
      OutcomeUpdates(it.itemID, it.attempts, stage, o);
      SameOutboxReported(it, RecordAttempt(it, record), t.reports);
      var candidate := UpdateAttemptRecord(sc.attempts, record);
      if o.status.Succeeded? || o.cause != Some(EMPTY) {
        ok := Record(k, item => RecordAttempt(item, record));
        if ok {
          sc.attempts := candidate.value;
        }
      } else {
        var r := ledger.Commit(ledger.items[k].slug, item => RecordAttempt(item, record));
        RefusedCommit(t, ledger.items, k, RecordAttempt(it, record));
        trace := trace.(refused := true, mute := true);
        ok := false;
      }
    }

    /**
     * Drains the core, asks the ground truth and records how the attempt ended; not `ok` if the step has to end
     * for any of it.
     */
    method ConcludeAttempt(sc: StageContext, k: nat, stage: PipelineStage, o: Outcome)
      returns (ok: bool, verified: bool)
      requires AtWork(sc, k) && Identified(sc.itemID, stage, o.attempt) && Validate(o) && !sc.Confirmed(stage)
      requires sc.attempts != [] && sc.attempts[|sc.attempts| - 1] == RunningRecord(stage, o.attempt)
      modifies this`trace, ledger, sc`attempts, sc`issue, sc`pr, sc`verdicts
      ensures Synced() && SameLogs(old(trace), trace) && OnlyAttempts(old(ledger.items), ledger.items, k)
      ensures trace.runs == old(trace.runs)
      ensures var was, now := old(sc.attempts), ledger.items[k].attempts;
              |now| == |was| && now[..|was| - 1] == was[..|was| - 1]
      ensures ok ==> AtWork(sc, k) && trace.history == old(trace.history) + [ledger.items]
      ensures ok ==> LastEnded(old(sc.attempts), ledger.items[k].attempts, stage, o)
      ensures ok ==> Bound(stage, old(sc.issue), sc.issue, old(sc.pr), sc.pr, verified)
      ensures ok ==> (verified <==> sc.Confirmed(stage))
    {
      hide Working, Sound, Validate, RunningRecord, Retryable, Identified, OnlyAttempts, ValidFeatureDir, LastOrdinal;
      verified := false;
      if !o.lifecycle.started {
        ok := EndAttempt(sc, k, stage, o);
        return;
      }
      var drained: bool := *;
      if !drained {
        DrainFailureValid(o);
        ok := EndAttempt(sc, k, stage, o.(status := Failed, cause := Some(Joined(o.cause, DRAIN)), retry := Never));
        ok := false;
        return;
      }
      DrainedValid(o);
      var unverifiable;
      verified, unverifiable := sc.VerifyStage(stage);
      ok := EndAttempt(sc, k, stage, o.(lifecycle := o.lifecycle.(drained := true)));
      ok := ok && !unverifiable;
    }

    /** The core's answer to an attempt; one that names another attempt is made a failure of this one. */
    static method RunCoreAttempt(a: Attempt) returns (o: Outcome, mismatched: bool, ghost answer: Outcome)
      ensures mismatched <==> answer.attempt != a
      ensures o.attempt == a && if mismatched then o.status.Failed? && o.retry.Never? && o.cause.Some? else o == answer
    {
      o := *;
      answer, mismatched := o, o.attempt != a;
      if mismatched {
        o := o.(attempt := a, status := Failed, cause := Some(Joined(o.cause, MISMATCH)), retry := Never);
      }
    }

    /**
     * Runs one attempt, recorded before and after; None ends the step. The ghosts are the durable state it ran in
     * and the core's answer.
     */
    method AttemptOnce(sc: StageContext, k: nat, stage: PipelineStage, prompt: Text)
      returns (outcome: Option<Outcome>, verified: bool, ghost started: seq<LedgerItem>, ghost answer: Outcome)
      requires AtWork(sc, k) && IsExecutable(stage) && !sc.Confirmed(stage) && MayRun(trace, k, sc.runner)
      modifies this`trace, ledger, sc`attempts, sc`ordinal, sc`issue, sc`pr, sc`verdicts
      ensures Synced() && SameLogs(old(trace), trace) && OnlyAttempts(old(ledger.items), ledger.items, k)
      ensures Attempted(old(ledger.items)[k].attempts, ledger.items[k].attempts)
      ensures outcome.Some? ==> AtWork(sc, k) && EndedAfter(old(trace), trace, k, sc.runner, started, ledger.items)
      ensures outcome.Some? ==>
                |ledger.items[k].attempts| == |old(ledger.items)[k].attempts| + 1 &&
                Ended(ledger.items[k].attempts[|old(ledger.items)[k].attempts|], stage, outcome.value)
      ensures outcome.Some? ==> Bound(stage, old(sc.issue), sc.issue, old(sc.pr), sc.pr, verified)
      ensures outcome.Some? ==> outcome.value == answer && (verified <==> sc.Confirmed(stage))
    {
      hide Working, Sound, Validate, RunningRecord, MayRun, Attempted, AllRetried, LastEnded, Ended, Bound,
        Good, Reported, Identified, ValidFeatureDir;
      NothingTried(ledger.items, k);
      LastGood(trace);
      outcome, verified, started, answer := None, false, ledger.items, *;
      var a := sc.NewCoreAttempt(stage, prompt);
      var ok := StartAttempt(sc, k, stage, a);
      started := ledger.items;
      ghost var was, running := old(ledger.items)[k].attempts, sc.attempts;
      OneTried(was, started[k].attempts);
      if !ok {
        return;
      }
      var o, mismatched;
      o, mismatched, answer := RunCoreAttempt(a);
      if !Validate(o) {
        return;
      }
      ok, verified := ConcludeAttempt(sc, k, stage, o);
      OnlyAttemptsAgain(old(ledger.items), started, ledger.items, k);
      OneEnded(was, running, ledger.items[k].attempts, stage, o);
      if ok && !mismatched {
        assert trace.runs[..|old(trace).runs|] == old(trace).runs;
        outcome := Some(o);
      }
    }

    /** One supervised attempt: Some(result) ends the step, None means another attempt. */
    method RunAttempt(sc: StageContext, k: nat, stage: PipelineStage, prompt: Text) returns (r: Option<StepResult>)
      requires AtWork(sc, k) && IsExecutable(stage) && !sc.Confirmed(stage) && MayRun(trace, k, sc.runner)
      modifies this`trace, ledger, sc
      ensures Synced() && SameLogs(old(trace), trace) && OnlyAttempts(old(ledger.items), ledger.items, k)
      ensures Attempted(old(ledger.items)[k].attempts, ledger.items[k].attempts)
      ensures r != Some(StepFailed) ==> AtWork(sc, k)
      ensures r != Some(StepFailed) ==>
              Bound(stage, old(sc.issue), sc.issue, old(sc.pr), sc.pr, r.Some?) && sc.featureDir == old(sc.featureDir)
      ensures r != Some(StepFailed) ==>
                |ledger.items[k].attempts| == |old(ledger.items)[k].attempts| + 1 &&
                var ended := ledger.items[k].attempts[|old(ledger.items)[k].attempts|];
                if r.Some? then sc.Confirmed(stage) && (r.value.StepCancelled? <==> ended.outcome.Cancelled?)
                else !sc.Confirmed(stage) && Retryable(ended)
      ensures r.None? ==> MayRun(trace, k, sc.runner)
    {
      hide Working, Sound, MayRun, Retryable, Bound, OnlyAttempts, EndedAfter;
      NothingTried(ledger.items, k);
      var stop: bool := *;
      if stop {
        return Some(StepFailed);
      }
      ghost var runner := sc.runner;
      var outcome, verified, started, _ := AttemptOnce(sc, k, stage, prompt);
      if outcome.None? {
        return Some(StepFailed);
      }
      if verified {
        return Some(if outcome.value.status.Cancelled? then StepCancelled else StepDone);
      }
      var again := sc.MayRetry(outcome.value);
      if !again {
        return Some(StepFailed);
      }
      EndedRetryable(ledger.items[k].attempts[|old(ledger.items)[k].attempts|], stage, outcome.value);
      AnotherMayRun(old(trace), trace, k, runner, sc.runner, started, ledger.items);
      r := None;
    }

    /**
     * The supervised loop: attempts until the ground truth says the stage is complete, or one ends it. A
     * resumed stage gets here only after the ground truth denied it. However it ends, every attempt it
     * recorded but the last allowed another.
     */
    method Supervise(sc: StageContext, k: nat, stage: PipelineStage, ghost resuming: bool) returns (r: StepResult)
      requires AtWork(sc, k) && IsExecutable(stage) && !sc.Confirmed(stage) && MayRun(trace, k, sc.runner)
      requires resuming ==> sc.Denied(stage)
      modifies this`trace, ledger, sc
      ensures Synced() && SameLogs(old(trace), trace) && OnlyAttempts(old(ledger.items), ledger.items, k)
      ensures Attempted(old(ledger.items)[k].attempts, ledger.items[k].attempts)
      ensures !r.StepFailed? ==> AtWork(sc, k) && ledger.items[k].attempts != old(ledger.items)[k].attempts
      ensures !r.StepFailed? ==>
                (r.StepCancelled? <==> ledger.items[k].attempts[|ledger.items[k].attempts| - 1].outcome.Cancelled?)
      ensures !r.StepFailed? ==>
              Bound(stage, old(sc.issue), sc.issue, old(sc.pr), sc.pr, true) && sc.featureDir == old(sc.featureDir)
      ensures !r.StepFailed? ==> sc.Confirmed(stage)
    {
      hide Working, Sound, MayRun, Retryable;
      var attempts: int := *;
      NothingTried(ledger.items, k);
      while attempts > 0
        invariant AtWork(sc, k) && SameLogs(old(trace), trace)
        invariant !sc.Confirmed(stage) && MayRun(trace, k, sc.runner)
        invariant OnlyAttempts(old(ledger.items), ledger.items, k)
        invariant AllRetried(old(ledger.items)[k].attempts, ledger.items[k].attempts)
        invariant Bound(stage, old(sc.issue), sc.issue, old(sc.pr), sc.pr, false) && sc.featureDir == old(sc.featureDir)
      {
        attempts := attempts - 1;
        ghost var before := ledger.items;
        var prompt: Text := *;
        var ended := RunAttempt(sc, k, stage, prompt);
        OnlyAttemptsAgain(old(ledger.items), before, ledger.items, k);
        AttemptedAfter(old(ledger.items)[k].attempts, before[k].attempts, ledger.items[k].attempts);
        if ended.Some? {
          return ended.value;
        }
      }
      r := StepFailed;
    }

    /**
     * Drives one stage that is durably running. A resumed stage is verified before the core is driven
     * again; a remote stage is first checked for being there already.
     */
    method RunStep(sc: StageContext, k: nat, stage: PipelineStage, resuming: bool) returns (r: StepResult)
      requires AtWork(sc, k) && IsExecutable(stage)
      requires ledger.items[k].stage == stage && ledger.items[k].stageState.StageRunning?
      modifies this`trace, ledger, sc
      ensures Synced() && trace.reports == old(trace.reports) && OnlyAttempts(old(ledger.items), ledger.items, k)
      ensures Attempted(old(ledger.items)[k].attempts, ledger.items[k].attempts)
      ensures trace.drives == old(trace.drives) + [Drive(k, stage, |old(trace.history)| - 1)] ||
              (r.StepFailed? && trace.drives == old(trace.drives) && ledger.items == old(ledger.items))
      ensures !r.StepFailed? ==> AtWork(sc, k) && sc.Confirmed(stage)
      ensures !r.StepFailed? ==> Bound(stage, old(sc.issue), sc.issue, old(sc.pr), sc.pr, true)
      ensures !r.StepFailed? ==> !stage.MaterializeRequirements? ==> sc.featureDir == old(sc.featureDir)
      ensures !r.StepFailed? ==>
                var was, now := old(ledger.items)[k].attempts, ledger.items[k].attempts;
                (r.StepCancelled? <==> |was| < |now| && now[|now| - 1].outcome.Cancelled?)
    {
      hide Working, Sound, MayRun, Retryable, Good, OutboxReported, ValidAttempts;
      NothingTried(ledger.items, k);
      var stop: bool := *;
      if stop {
        return StepFailed;
      }
      WorkingParts(trace, ledger.items, k);
      DrivenSound(trace, k);
      trace := trace.(drives := trace.drives + [Drive(k, stage, |trace.history| - 1)]);
      sc.verdicts := map[];
      var settled := sc.Settle(stage, resuming);
      if settled.Some? {
        return settled.value;
      }
      var seeded: bool := *;
      if !seeded {
        return StepFailed;
      }
      r := Supervise(sc, k, stage, resuming);
    }
  }

  const MISMATCH := Text("mismatched attempt correlation")

  const DRAIN := Text("core lifecycle drain")

  /** The text of two errors joined. */
  function Joined(cause: Option<Text>, more: Text): (t: Text)
    requires more != EMPTY
    ensures t != EMPTY
  {
    if cause.Some? then Text(cause.value.chars + "\n" + more.chars) else more
  }

  lemma DrainFailureValid(o: Outcome)
    requires Validate(o) && o.lifecycle.started
    ensures Validate(o.(status := Failed, cause := Some(Joined(o.cause, DRAIN)), retry := Never))
  {
  }

  lemma FailureHasCause(o: Outcome)
    requires Validate(o)
    ensures o.status.Succeeded? || o.cause.Some?
  {
  }

  lemma DrainedValid(o: Outcome)
    requires Validate(o) && o.lifecycle.started
    ensures Validate(o.(lifecycle := o.lifecycle.(drained := true)))
  {
  }

  /** Only the attempts of one record differ. */
  predicate OnlyAttempts(a: seq<LedgerItem>, b: seq<LedgerItem>, k: nat) {
    k < |a| && |b| == |a| && b == a[k := a[k].(attempts := b[k].attempts)]
  }

  /** Attempts were only added, and another only after one that allows it. */
  predicate Attempted(was: seq<AttemptRecord>, now: seq<AttemptRecord>) {
    was <= now && forall i :: |was| <= i < |now| - 1 ==> Retryable(now[i])
  }

  predicate AllRetried(was: seq<AttemptRecord>, now: seq<AttemptRecord>) {
    was <= now && forall i :: |was| <= i < |now| ==> Retryable(now[i])
  }

  lemma AttemptedAfter(a: seq<AttemptRecord>, b: seq<AttemptRecord>, c: seq<AttemptRecord>)
    requires AllRetried(a, b) && Attempted(b, c)
    ensures Attempted(a, c) && (AllRetried(b, c) ==> AllRetried(a, c))
  {
    hide Retryable;
  }

  lemma NothingTried(a: seq<LedgerItem>, k: nat)
    requires k < |a|
    ensures OnlyAttempts(a, a, k) && Attempted(a[k].attempts, a[k].attempts) &&
            AllRetried(a[k].attempts, a[k].attempts)
  {
    assert a[k := a[k].(attempts := a[k].attempts)] == a;
  }

  lemma OneTried(was: seq<AttemptRecord>, now: seq<AttemptRecord>)
    requires |now| <= |was| + 1 && was <= now
    ensures Attempted(was, now)
  {
  }

  lemma OneEnded(was: seq<AttemptRecord>, running: seq<AttemptRecord>, now: seq<AttemptRecord>, stage: PipelineStage,
                 o: Outcome)
    requires |running| == |was| + 1 == |now| && was <= running && now[..|was|] == running[..|was|]
    ensures Attempted(was, now) && was <= now
    ensures LastEnded(running, now, stage, o) ==> Ended(now[|was|], stage, o)
  {
  }

  /** The record says how the attempt ended. */
  predicate Ended(a: AttemptRecord, stage: PipelineStage, o: Outcome) {
    && a.id == o.attempt.id && a.correlation == o.attempt.correlation && a.ordinal == o.attempt.ordinal
    && a.stage == stage && a.state.AttemptTerminal? && a.outcome == o.status && a.retry == o.retry
    && a.sessionID == o.sessionID && a.runID == o.runID && a.cause == (if o.cause.Some? then o.cause.value else EMPTY)
  }

  predicate LastEnded(was: seq<AttemptRecord>, now: seq<AttemptRecord>, stage: PipelineStage, o: Outcome) {
    && was != [] && |now| == |was| && now == was[|was| - 1 := now[|was| - 1]]
    && Ended(now[|was| - 1], stage, o)
  }

  lemma TerminalEnded(attempts: seq<AttemptRecord>, stage: PipelineStage, o: Outcome)
    requires attempts != []
    ensures LastEnded(attempts, attempts[|attempts| - 1 := TerminalRecord(stage, o)], stage, o)
  {
  }

  lemma EndedRetryable(a: AttemptRecord, stage: PipelineStage, o: Outcome)
    requires Ended(a, stage, o) && !o.status.Cancelled? && (o.status.Succeeded? || !o.retry.Never?)
    ensures Retryable(a)
  {
  }

  /** One attempt ran in the second of two more durable states, and had ended in the third. */
  predicate EndedAfter(t: Trace, u: Trace, k: nat, runner: nat, started: seq<LedgerItem>, now: seq<LedgerItem>) {
    && t.history != [] && k < |Last(t)| && k < |started| && k < |now|
    && u.history == t.history + [started] + [now] && |u.runs| == |t.runs| + 1
    && u.drives == t.drives && u.runs[..|t.runs|] == t.runs
    && u.runs[|t.runs|] == CoreRun(k, u.runs[|t.runs|].id, |t.history|, runner)
    && |started[k].attempts| == |Last(t)[k].attempts| + 1 == |now[k].attempts|
    && Last(t)[k].attempts <= now[k].attempts
  }

  /** After an attempt that allows another, one more may run, by a new runner if it asked for one. */
  lemma AnotherMayRun(t: Trace, u: Trace, k: nat, before: nat, runner: nat, started: seq<LedgerItem>,
                      now: seq<LedgerItem>)
    requires MayRun(t, k, before) && EndedAfter(t, u, k, before, started, now) && before <= runner
    requires var ended := now[k].attempts[|Last(t)[k].attempts|];
             Retryable(ended) && (ended.retry.FreshRunner? ==> before < runner)
    ensures MayRun(u, k, runner)
  {
    hide Retryable;
    forall a | 0 <= a < |u.runs| && u.runs[a].k == k && NoDrive(u.drives, k, u.runs[a].at, |u.history|)
      ensures Allows(u.history, u.runs[a], |u.history| - 1, runner)
    {
      if a < |t.runs| {
        assert NoDrive(t.drives, k, t.runs[a].at, |t.history|);
        assert Allows(t.history, t.runs[a], |t.history| - 1, before);
      }
    }
  }

  lemma OnlyAttemptsAgain(a: seq<LedgerItem>, b: seq<LedgerItem>, c: seq<LedgerItem>, k: nat)
    requires OnlyAttempts(a, b, k) && OnlyAttempts(b, c, k)
    ensures OnlyAttempts(a, c, k)
  {
    assert c == a[k := a[k].(attempts := c[k].attempts)];
  }

  /** A step keeps numbers already bound, binds only its own, and once through has bound it. */
  predicate Bound(stage: PipelineStage, issue0: int, issue: int, pr0: int, pr: int, through: bool) {
    && issue >= 0 && pr >= 0
    && (issue0 != 0 || !stage.IssueStage? ==> issue == issue0)
    && (pr0 != 0 || !stage.PRStage? ==> pr == pr0)
    && (through && stage.IssueStage? ==> issue > 0)
    && (through && stage.PRStage? ==> pr > 0)
  }

  lemma RunningParts(stage: PipelineStage, a: Attempt)
    ensures RunningRecord(stage, a).id == a.id && RunningRecord(stage, a).state.AttemptRunning?
    ensures RunningRecord(stage, a).ordinal == a.ordinal
  {
  }

  lemma WorkingParts(t: Trace, items: seq<LedgerItem>, k: nat)
    requires Sound(t) && Last(t) == items && k < |items| && Working(items[k])
    ensures t.history != [] && Good(items) && OutboxReported(items[k], t.reports) &&
            ValidAttempts(items[k].itemID, items[k].attempts)
    ensures items[k].status.InProgress?
  {
    LastGood(t);
    ReportedItem(items, k, t.reports);
  }

  lemma StillWorking(items: seq<LedgerItem>, k: nat, after: LedgerItem)
    requires k < |items| && Working(items[k])
    ensures Alone(items, k, after)
  {
  }

  lemma SameOutboxReported(it: LedgerItem, after: LedgerItem, reports: seq<EventID>)
    requires OutboxReported(it, reports) && after.outbox == it.outbox
    ensures OutboxReported(after, reports)
  {
  }

  lemma AttemptStarted(t: Trace, k: nat, id: AttemptID, runner: nat, items: seq<LedgerItem>)
    requires Sound(t) && Sound(Extended(t, items)) && k < |Last(t)| && k < |items| && MayRun(t, k, runner)
    requires |items[k].attempts| == |Last(t)[k].attempts| + 1
    requires items[k].attempts[|Last(t)[k].attempts|].id == id &&
             items[k].attempts[|Last(t)[k].attempts|].state.AttemptRunning?
    ensures var u := Extended(t, items); Sound(u.(runs := u.runs + [CoreRun(k, id, |u.history| - 1, runner)]))
  {
    hide OneStep, LedgerRuns.LedgerEvolves, Good, Reported, DriveLogged, NoDrive, Retryable, RetriesAllowed;
    var u := Extended(t, items);
    assert u.history[|u.history| - 2] == Last(t);
    forall r | r in u.runs ensures r.at < |u.history| - 1 {
      assert RunLogged(t.history, r);
    }
    forall r | r in u.runs && r.k == k && NoDrive(u.drives, k, r.at, |u.history| - 1)
      ensures Allows(u.history, r, |u.history| - 2, runner)
    {
      assert Allows(t.history, r, |t.history| - 1, runner);
    }
    RanSound(u, k, id, runner);
  }

  lemma OutcomeUpdates(item: ItemID, attempts: seq<AttemptRecord>, stage: PipelineStage, o: Outcome)
    requires ValidAttempts(item, attempts) && attempts != [] &&
             attempts[|attempts| - 1] == RunningRecord(stage, o.attempt)
    ensures UpdateAttempts(attempts, TerminalRecord(stage, o)) ==
            Some(attempts[|attempts| - 1 := TerminalRecord(stage, o)])
    ensures LastOrdinal(attempts[|attempts| - 1 := TerminalRecord(stage, o)]) == LastOrdinal(attempts)
  {
    TerminalParts(stage, o);
    UpdatesLast(item, attempts, TerminalRecord(stage, o));
  }

  lemma RefusedCommit(t: Trace, items: seq<LedgerItem>, k: nat, after: LedgerItem)
    requires Sound(t) && Last(t) == items && k < |items| && !ValidItem(after) && Freeze(items[k], after) == after
    ensures Candidate(items, k, after).None? && Find(items, items[k].slug) == Some(k)
    ensures Sound(t.(refused := true, mute := true))
  {
    hide ValidItem, ValidMutation;
    LastGood(t);
    FindOwn(items, k);
    assert items[k := after][k] == after;
  }

  predicate SameButHistory(a: Trace, b: Trace) {
    b == a.(history := b.history, heard := b.heard)
  }

  predicate SameLogs(a: Trace, b: Trace) {
    b.reports == a.reports && b.drives == a.drives
  }

  lemma LastGood(t: Trace)
    requires Sound(t)
    ensures t.history != [] && Good(Last(t)) && Reported(Last(t), t.reports)
  {
    hide Good;
    var n := |t.history| - 1;
    assert Reported(t.history[n], t.reports[..t.heard[n]]);
    assert forall id | id in t.reports[..t.heard[n]] :: id in t.reports;
  }
}
