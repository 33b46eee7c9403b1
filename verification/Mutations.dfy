/** Every change the orchestrator, the publisher and the attempt recorder make to a record, and why it is accepted. */
module Mutations {
  import opened Common
  import opened LedgerPaths
  import opened LedgerItems
  import opened CoreOutcome
  import opened Progress

  function Begin(it: LedgerItem, branch: Text): LedgerItem {
    it.(status := InProgress, branch := branch)
  }

  function Intend(it: LedgerItem, stage: PipelineStage): LedgerItem {
    it.(stage := stage, stageState := StageRunning)
  }

  function Verify(it: LedgerItem, stage: PipelineStage, featureDir: Text): LedgerItem {
    it.(stage := stage, stageState := StageVerified,
        featureDir := if featureDir != EMPTY then featureDir else it.featureDir)
  }

  /** A verified remote step, with the number it bound, if any (0 is none). */
  function VerifyRemote(it: LedgerItem, stage: PipelineStage, issue: int, pr: int): LedgerItem {
    it.(stage := stage, stageState := StageVerified,
        issue := if issue != 0 then issue else it.issue,
        outbox := if issue != 0 then it.outbox + [IssueRecord(it.itemID, issue)] else it.outbox,
        pr := if pr != 0 then pr else it.pr)
  }

  function MarkedDelivered(outbox: seq<EventRecord>, id: EventID): (r: seq<EventRecord>)
    ensures |r| == |outbox|
    ensures forall i :: 0 <= i < |outbox| ==>
            r[i] == if outbox[i].id == id then outbox[i].(delivered := true) else outbox[i]
  {
    seq(|outbox|, i requires 0 <= i < |outbox| =>
          if outbox[i].id == id then outbox[i].(delivered := true) else outbox[i])
  }

  function Deliver(it: LedgerItem, id: EventID): LedgerItem {
    it.(outbox := MarkedDelivered(it.outbox, id))
  }

  /** A conflicting record leaves the history alone. */
  function RecordAttempt(it: LedgerItem, record: AttemptRecord): LedgerItem {
    var updated := UpdateAttempts(it.attempts, record);
    if updated.Some? then it.(attempts := updated.value) else it
  }

  function Finish(it: LedgerItem, issue: int, pr: int): LedgerItem {
    it.(status := Done, stage := StageDone, stageState := StageVerified, issue := issue, pr := pr)
  }

  /** A record being worked on. */
  ghost predicate Working(it: LedgerItem) {
    ValidItem(it) && Orderly(it) && it.status.InProgress? && it.sourceState.Current?
  }

  lemma BeginAccepted(it: LedgerItem, branch: Text)
    requires ValidItem(it) && Orderly(it) && it.sourceState.Current? && (it.status.Pending? || it.status.InProgress?)
    requires ValidBranch(branch.chars)
    ensures Accepted(it, Freeze(it, Begin(it, branch))) && Working(Freeze(it, Begin(it, branch)))
  {
    hide ValidComponent, ValidBranch, ValidFeatureDir, ByteLength, Trim, ValidAttempts;
  }

  lemma IntendAccepted(it: LedgerItem, stage: PipelineStage)
    requires Working(it) && Follows(it, stage)
    requires stage.PRStage? ==> Delivered(it)
    ensures Accepted(it, Intend(it, stage)) && Working(Intend(it, stage)) &&
            Freeze(it, Intend(it, stage)) == Intend(it, stage)
  {
    hide ValidShape, ValidOutbox, ByteLength, Trim, ValidAttempts;
    KeepsShape(it, Intend(it, stage));
  }

  lemma KeepsShape(it: LedgerItem, after: LedgerItem)
    requires after.slug == it.slug && after.branch == it.branch && after.itemID == it.itemID
    ensures ValidShape(it) && (after.featureDir == it.featureDir || ValidFeatureDir(after.featureDir.chars)) ==>
            ValidShape(after)
    ensures ValidOutbox(it) && after.outbox == it.outbox ==> ValidOutbox(after)
  {
  }

  lemma VerifyAccepted(it: LedgerItem, stage: PipelineStage, featureDir: Text)
    requires Working(it) && it.stage == stage && it.stageState.StageRunning? && !IsPublishing(stage)
    requires featureDir != EMPTY ==> ValidFeatureDir(featureDir.chars)
    ensures Accepted(it, Verify(it, stage, featureDir)) && Working(Verify(it, stage, featureDir))
    ensures Freeze(it, Verify(it, stage, featureDir)) == Verify(it, stage, featureDir)
  {
    hide ValidShape, ValidOutbox, ByteLength, Trim, ValidAttempts, ValidFeatureDir;
    KeepsShape(it, Verify(it, stage, featureDir));
  }

  /** A bound issue number comes with its event; a bound pull request with its number. */
  lemma VerifyRemoteAccepted(it: LedgerItem, stage: PipelineStage, issue: int, pr: int)
    requires Working(it) && it.stage == stage && it.stageState.StageRunning? && IsPublishing(stage)
    requires issue >= 0 && (issue != 0 ==> stage.IssueStage? && it.issue == 0) &&
             (stage.IssueStage? ==> it.issue + issue > 0)
    requires pr >= 0 && (pr != 0 ==> stage.PRStage? && it.pr == 0) && (stage.PRStage? ==> it.pr + pr > 0)
    ensures Accepted(it, VerifyRemote(it, stage, issue, pr)) && Working(VerifyRemote(it, stage, issue, pr))
    ensures Freeze(it, VerifyRemote(it, stage, issue, pr)) == VerifyRemote(it, stage, issue, pr)
  {
    hide ValidShape, ByteLength, Trim, ValidAttempts, ValidOutbox, OutboxMutation;
    var after := VerifyRemote(it, stage, issue, pr);
    KeepsShape(it, after);
    OutboxGrows(it, stage, issue, pr);
  }

  lemma OutboxGrows(it: LedgerItem, stage: PipelineStage, issue: int, pr: int)
    requires ValidOutbox(it) && Orderly(it) && issue >= 0 && (issue != 0 ==> it.issue == 0) && !it.itemID.NoID?
    ensures var after := VerifyRemote(it, stage, issue, pr);
            && ValidOutbox(after) && OutboxMutation(it, after)
            && (issue != 0 ==>
                  && after.outbox == [IssueRecord(it.itemID, issue)]
                  && after.outbox[0] == IssueRecord(after.itemID, after.issue))
            && (issue == 0 ==> after.outbox == it.outbox)
  {
    if issue != 0 {
      assert VerifyRemote(it, stage, issue, pr).outbox == [IssueRecord(it.itemID, issue)];
    }
  }

  lemma DeliverAccepted(it: LedgerItem, id: EventID)
    requires Working(it)
    ensures Accepted(it, Deliver(it, id)) && Working(Deliver(it, id)) && Freeze(it, Deliver(it, id)) == Deliver(it, id)
  {
    hide ValidShape, ByteLength, Trim, ValidAttempts;
    KeepsShape(it, Deliver(it, id));
  }

  lemma FinishAccepted(it: LedgerItem)
    requires Working(it) && Delivered(it) && Published(it)
    ensures Accepted(it, Finish(it, it.issue, it.pr)) &&
            Freeze(it, Finish(it, it.issue, it.pr)) == Finish(it, it.issue, it.pr)
  {
    hide ValidShape, ValidOutbox, ByteLength, Trim, ValidAttempts;
    KeepsShape(it, Finish(it, it.issue, it.pr));
  }

  lemma NewAttemptsAccepted(it: LedgerItem, attempts: seq<AttemptRecord>)
    requires Working(it) && ValidAttempts(it.itemID, attempts) && AttemptsMutation(it.attempts, attempts)
    ensures Accepted(it, it.(attempts := attempts)) && Working(it.(attempts := attempts))
  {
    hide ValidShape, ValidOutbox, ByteLength, Trim, ValidAttempts;
    KeepsShape(it, it.(attempts := attempts));
  }

  lemma RunningAccepted(it: LedgerItem, stage: PipelineStage, a: Attempt)
    requires Working(it) && Identified(it.itemID, stage, a) && a.ordinal > LastOrdinal(it.attempts)
    ensures RecordAttempt(it, RunningRecord(stage, a)) == it.(attempts := it.attempts + [RunningRecord(stage, a)])
    ensures Accepted(it, RecordAttempt(it, RunningRecord(stage, a))) &&
            Working(RecordAttempt(it, RunningRecord(stage, a)))
    ensures Freeze(it, RecordAttempt(it, RunningRecord(stage, a))) == RecordAttempt(it, RunningRecord(stage, a))
  {
    hide ValidShape, ValidOutbox, ByteLength, Trim, ValidWorkflow, UpdateAttempts, RunningRecord;
    NextAttemptNew(it.itemID, it.attempts, a, stage);
    NewAttemptsAccepted(it, it.attempts + [RunningRecord(stage, a)]);
  }

  /** A valid outcome is accepted, unless its error has no text; then the ledger refuses it. */
  lemma OutcomeAcceptedIff(it: LedgerItem, stage: PipelineStage, o: Outcome)
    requires Working(it) && Identified(it.itemID, stage, o.attempt) && Validate(o)
    requires it.attempts != [] && it.attempts[|it.attempts| - 1] == RunningRecord(stage, o.attempt)
    ensures var after := RecordAttempt(it, TerminalRecord(stage, o));
            && after == it.(attempts := it.attempts[|it.attempts| - 1 := TerminalRecord(stage, o)])
            && Freeze(it, after) == after
            && (if o.status.Succeeded? || o.cause.value != EMPTY then Accepted(it, after) && Working(after)
                else !ValidItem(after))
  {
    hide ValidShape, ValidOutbox, ByteLength, Trim, ValidWorkflow, Validate, TerminalRecord, RunningRecord;
    TerminalAcceptedIff(it.itemID, stage, o);
    var record := TerminalRecord(stage, o);
    TerminalParts(stage, o);
    var last := |it.attempts| - 1;
    UpdatesLast(it.itemID, it.attempts, record);
    if ValidAttempt(it.itemID, record) {
      OutcomeRecorded(it.itemID, it.attempts, o, stage);
      NewAttemptsAccepted(it, it.attempts[last := record]);
    } else {
      assert it.attempts[last := record][last] == record;
    }
  }

  lemma TerminalParts(stage: PipelineStage, o: Outcome)
    ensures Terminates(RunningRecord(stage, o.attempt), TerminalRecord(stage, o))
    ensures RunningRecord(stage, o.attempt) != TerminalRecord(stage, o)
  {
  }

  lemma UpdatesLast(item: ItemID, attempts: seq<AttemptRecord>, record: AttemptRecord)
    requires ValidAttempts(item, attempts) && attempts != [] && Terminates(attempts[|attempts| - 1], record)
    requires attempts[|attempts| - 1] != record
    ensures UpdateAttempts(attempts, record) == Some(attempts[|attempts| - 1 := record])
  {
    var last := |attempts| - 1;
    forall i | 0 <= i < last ensures attempts[i].id != record.id {
      assert ValidAttempt(item, attempts[i]) && ValidAttempt(item, attempts[last]);
    }
  }
}
