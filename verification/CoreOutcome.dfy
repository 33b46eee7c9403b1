/** Outcomes of core attempts and the durable attempt history (internal/autodev/core_outcome.go, ledger.go). */
module CoreOutcome {
  import opened Common
  import opened LedgerItems

  datatype Attempt = Attempt(id: AttemptID, correlation: AttemptID, ordinal: int, prompt: Text)

  datatype Lifecycle = Lifecycle(started: bool, postRun: bool, drained: bool)

  /** `cause` is an error by its text; an error may have none. */
  datatype Outcome = Outcome(attempt: Attempt, status: OutcomeStatus, sessionID: Text, runID: Text, partial: Text,
                             cause: Option<Text>, retry: RetryClass, lifecycle: Lifecycle)

  predicate Validate(o: Outcome) {
    && o.attempt.id != OtherAttemptID(EMPTY) && o.attempt.correlation != OtherAttemptID(EMPTY) && o.attempt.ordinal > 0
    && (match o.status
        case Succeeded => o.cause.None? && o.retry.Never? && o.lifecycle.started
        case Failed => o.cause.Some? && o.lifecycle.started
        case TurnExhausted => o.cause.Some? && o.lifecycle.started
        case Cancelled =>
          && o.cause.Some? && o.retry.Never?
          && (!o.lifecycle.started ==>
              o.sessionID == EMPTY && o.runID == EMPTY && o.partial == EMPTY && !o.lifecycle.postRun)
        case StartFailed => o.cause.Some? && !o.lifecycle.started && o.sessionID == EMPTY && o.runID == EMPTY &&
          o.partial == EMPTY
        case _ => false)
    && (o.lifecycle.postRun ==> o.lifecycle.started)
    && (o.lifecycle.drained ==> o.lifecycle.started)
    && (o.lifecycle.started ==> o.sessionID != EMPTY && o.runID != EMPTY)
    && (!o.status.Succeeded? ==> KnownRetry(o.retry))
  }

  function RunningRecord(stage: PipelineStage, a: Attempt): AttemptRecord {
    AttemptRecord(a.id, a.correlation, stage, a.ordinal, AttemptRunning, NoOutcome, EMPTY, EMPTY, NoRetryClass, EMPTY)
  }

  function TerminalRecord(stage: PipelineStage, o: Outcome): AttemptRecord {
    AttemptRecord(o.attempt.id, o.attempt.correlation, stage, o.attempt.ordinal, AttemptTerminal, o.status,
                  o.sessionID, o.runID, o.retry, if o.cause.Some? then o.cause.value else EMPTY)
  }

  /** The attempt and its record belong to an item's stage. */
  predicate Identified(item: ItemID, stage: PipelineStage, a: Attempt) {
    a.id == CoreID(item, stage, a.ordinal) && a.correlation == a.id && IsExecutable(stage)
  }

  /** A valid outcome makes an acceptable terminal record, unless its error says nothing. */
  lemma TerminalAcceptedIff(item: ItemID, stage: PipelineStage, o: Outcome)
    requires Validate(o) && Identified(item, stage, o.attempt)
    ensures ValidAttempt(item, TerminalRecord(stage, o)) <==> o.status.Succeeded? || o.cause.value != EMPTY
    ensures TerminalRecord(stage, o).sessionID != EMPTY <==> o.lifecycle.started
    ensures TerminalRecord(stage, o).runID != EMPTY <==> o.lifecycle.started
    ensures o.status.Succeeded? <==> o.cause.None?
    ensures o.status.Succeeded? || o.status.Cancelled? ==> o.retry.Never?
  {
  }

  /** A valid outcome of a failed attempt whose error says nothing: the ledger refuses its record. */
  lemma TextlessRefused(item: ItemID)
    ensures var id := CoreID(item, GenerateSpec, 1);
            var o := Outcome(Attempt(id, id, 1, EMPTY), Failed, Text("session"), Text("run"), EMPTY, Some(EMPTY),
                             FreshRunner, Lifecycle(true, false, false));
            && Validate(o) && Identified(item, GenerateSpec, o.attempt)
            && ValidAttempt(item, RunningRecord(GenerateSpec, o.attempt)) &&
               !ValidAttempt(item, TerminalRecord(GenerateSpec, o))
  {
    var id := CoreID(item, GenerateSpec, 1);
    assert Text("session").chars[0] == 's' && Text("run").chars[0] == 'r';
  }

  /** An error of the runtime: whether it is a cancellation, names its retry class, or is of a kind that matters. */
  datatype CoreError = CoreError(text: Text, cancelled: bool, retryClass: Option<RetryClass>, turnLimit: bool,
                                 retryable: bool)

  function RetryFor(contextDone: bool, err: Option<CoreError>): RetryClass {
    if err.None? || err.value.cancelled || contextDone then Never
    else if err.value.retryClass.Some? then err.value.retryClass.value
    else if err.value.turnLimit || err.value.retryable then SameRunner
    else FreshRunner
  }

  function Classify(contextDone: bool, err: Option<CoreError>, started: bool): (OutcomeStatus, RetryClass) {
    if err.None? then (Succeeded, Never)
    else if err.value.cancelled || contextDone then (Cancelled, Never)
    else if err.value.turnLimit then (TurnExhausted, SameRunner)
    else (if started then Failed else StartFailed, RetryFor(contextDone, err))
  }

  /** An outcome reporting an error before or after the start of a run. */
  function Classified(attempt: Attempt, contextDone: bool, err: Option<CoreError>, run: Option<(Text, Text)>): Outcome {
    var (status, retry) := Classify(contextDone, err, run.Some?);
    Outcome(attempt, status, if run.Some? then run.value.0 else EMPTY, if run.Some? then run.value.1 else EMPTY, EMPTY,
            if err.Some? then Some(err.value.text) else None, retry, Lifecycle(run.Some?, false, false))
  }

  /**
   * Classification meets the outcome contract exactly when a run that did not start failed for another
   * reason than a turn limit, and an error that names its retry class names a known one. A turn limit
   * reported before the start would be called turn-exhausted, which the contract refuses. Nothing follows a
   * cancellation, or an error that says never; a new runner is asked for by an error that says so, or that
   * names no class and is neither a turn limit nor retryable.
   */
  lemma ClassifiedIff(item: ItemID, stage: PipelineStage, attempt: Attempt, contextDone: bool, err: Option<CoreError>,
                      run: Option<(Text, Text)>)
    requires Identified(item, stage, attempt) && attempt.ordinal > 0
    requires run.Some? ==> run.value.0 != EMPTY && run.value.1 != EMPTY
    ensures Validate(Classified(attempt, contextDone, err, run)) <==>
            if err.None? then run.Some?
            else if err.value.cancelled || contextDone then true
            else if err.value.turnLimit then run.Some?
            else err.value.retryClass.Some? ==> KnownRetry(err.value.retryClass.value)
    ensures var o := Classified(attempt, contextDone, err, run);
            && (o.status.Succeeded? <==> err.None?)
            && (o.status.Cancelled? <==> err.Some? && (err.value.cancelled || contextDone))
            && (o.retry.Never? && !o.status.Succeeded? && !o.status.Cancelled? ==>
                  !err.value.turnLimit && err.value.retryClass == Some(Never))
            && (o.retry.FreshRunner? <==>
                err.Some? && !err.value.cancelled && !contextDone && !err.value.turnLimit &&
                  (err.value.retryClass == Some(FreshRunner) || (err.value.retryClass.None? && !err.value.retryable)))
  {
  }

  /** A turn limit reported before the run started: classified as turn-exhausted, which the contract refuses. */
  lemma TurnLimitBeforeStart(attempt: Attempt, text: Text)
    ensures var err := CoreError(text, false, None, true, true);
            Classify(false, Some(err), false) == (TurnExhausted, SameRunner) &&
              !Validate(Classified(attempt, false, Some(err), None))
  {
  }

  /** The first record with an id, if any. */
  function FindAttempt(attempts: seq<AttemptRecord>, id: AttemptID, from: nat): (r: Option<nat>)
    requires from <= |attempts|
    ensures r.Some? ==> from <= r.value < |attempts| && attempts[r.value].id == id
    ensures r.Some? ==> forall i :: from <= i < r.value ==> attempts[i].id != id
    ensures r.None? ==> forall i :: from <= i < |attempts| ==> attempts[i].id != id
    decreases |attempts| - from
  {
    if from == |attempts| then None
    else if attempts[from].id == id then Some(from)
    else FindAttempt(attempts, id, from + 1)
  }

  /** Records a running attempt once and its terminal outcome once; anything else is a conflict. */
  function UpdateAttempts(attempts: seq<AttemptRecord>, record: AttemptRecord): Option<seq<AttemptRecord>> {
    var found := FindAttempt(attempts, record.id, 0);
    if found.None? then
      if record.state.AttemptRunning? then Some(attempts + [record]) else None
    else if attempts[found.value] == record then Some(attempts)
    else if Terminates(attempts[found.value], record) then Some(attempts[found.value := record])
    else None
  }

  method UpdateAttemptRecord(attempts: seq<AttemptRecord>, record: AttemptRecord)
    returns (updated: Option<seq<AttemptRecord>>)
    ensures updated == UpdateAttempts(attempts, record)
  {
    var i := 0;
    while i < |attempts|
      invariant 0 <= i <= |attempts|
      invariant FindAttempt(attempts, record.id, 0) == FindAttempt(attempts, record.id, i)
    {
      if attempts[i].id == record.id {
        if attempts[i] == record {
          return Some(attempts);
        }
        if !attempts[i].state.AttemptRunning? || !record.state.AttemptTerminal? ||
            attempts[i].correlation != record.correlation ||
           attempts[i].stage != record.stage || attempts[i].ordinal != record.ordinal {
          return None;
        }
        return Some(attempts[i := record]);
      }
      i := i + 1;
    }
    if !record.state.AttemptRunning? {
      return None;
    }
    updated := Some(attempts + [record]);
  }

  function LastOrdinal(attempts: seq<AttemptRecord>): int {
    if attempts == [] then 0 else attempts[|attempts| - 1].ordinal
  }

  /** A run that starts from a greater ordinal is recorded as a new attempt, */
  lemma NextAttemptNew(item: ItemID, attempts: seq<AttemptRecord>, a: Attempt, stage: PipelineStage)
    requires ValidAttempts(item, attempts) && Identified(item, stage, a) && a.ordinal > LastOrdinal(attempts)
    ensures UpdateAttempts(attempts, RunningRecord(stage, a)) == Some(attempts + [RunningRecord(stage, a)])
    ensures ValidAttempts(item, attempts + [RunningRecord(stage, a)])
    ensures AttemptsMutation(attempts, attempts + [RunningRecord(stage, a)])
  {
    forall i | 0 <= i < |attempts| ensures attempts[i].id != a.id && attempts[i].ordinal < a.ordinal {
      assert ValidAttempt(item, attempts[i]);
    }
  }

  /** and its outcome, once it has an acceptable record, takes the running record's place. */
  lemma OutcomeRecorded(item: ItemID, attempts: seq<AttemptRecord>, o: Outcome, stage: PipelineStage)
    requires ValidAttempts(item, attempts) && Identified(item, stage, o.attempt)
    requires attempts != [] && attempts[|attempts| - 1] == RunningRecord(stage, o.attempt)
    requires ValidAttempt(item, TerminalRecord(stage, o))
    ensures UpdateAttempts(attempts, TerminalRecord(stage, o)) ==
            Some(attempts[|attempts| - 1 := TerminalRecord(stage, o)])
    ensures ValidAttempts(item, attempts[|attempts| - 1 := TerminalRecord(stage, o)])
    ensures AttemptsMutation(attempts, attempts[|attempts| - 1 := TerminalRecord(stage, o)])
  {
    var last := |attempts| - 1;
    forall i | 0 <= i < last ensures attempts[i].id != o.attempt.id {
      assert ValidAttempt(item, attempts[i]) && ValidAttempt(item, attempts[last]);
    }
  }

  /** A terminal record is never rewritten, and one without its running record is refused. */
  lemma OutcomeConflicts(attempts: seq<AttemptRecord>, record: AttemptRecord)
    requires record.state.AttemptTerminal?
    ensures UpdateAttempts(attempts, record).None? <==>
            FindAttempt(attempts, record.id, 0).None? ||
            (var existing := attempts[FindAttempt(attempts, record.id, 0).value];
             existing != record && !Terminates(existing, record))
  {
  }

  /** The history after a series of records, those that conflict having been refused. */
  function Recorded(attempts: seq<AttemptRecord>, records: seq<AttemptRecord>): seq<AttemptRecord> {
    if records == [] then attempts
    else
      var before := Recorded(attempts, records[..|records| - 1]);
      var updated := UpdateAttempts(before, records[|records| - 1]);
      if updated.Some? then updated.value else before
  }

  predicate IdsApart(attempts: seq<AttemptRecord>) {
    forall i, j :: 0 <= i < j < |attempts| ==> attempts[i].id != attempts[j].id
  }

  /** What a series of records may make of one attempt: nothing, or once its end. */
  predicate EndedOnce(a: AttemptRecord, b: AttemptRecord) {
    a == b || Terminates(a, b)
  }

  lemma RecordOnce(attempts: seq<AttemptRecord>, record: AttemptRecord)
    requires IdsApart(attempts) && UpdateAttempts(attempts, record).Some?
    ensures var updated := UpdateAttempts(attempts, record).value;
            && IdsApart(updated) && |attempts| <= |updated| <= |attempts| + 1
            && (forall i :: 0 <= i < |attempts| ==> EndedOnce(attempts[i], updated[i]))
            && (|attempts| < |updated| ==> updated[|attempts|] == record && record.state.AttemptRunning?)
            && (record.state.AttemptTerminal? ==> |updated| == |attempts| && record in updated)
  {
    if record.state.AttemptTerminal? {
      OutcomeConflicts(attempts, record);
      var i := FindAttempt(attempts, record.id, 0).value;
      assert UpdateAttempts(attempts, record).value[i] == record;
    }
  }

  /** The attempt was recorded as running by one of the records. */
  predicate Began(records: seq<AttemptRecord>, b: AttemptRecord) {
    exists j :: 0 <= j < |records| && records[j].state.AttemptRunning? && EndedOnce(records[j], b)
  }

  lemma EndedOnceMore(a: AttemptRecord, b: AttemptRecord, c: AttemptRecord)
    requires EndedOnce(a, b) && EndedOnce(b, c)
    ensures EndedOnce(a, c)
  {
  }

  lemma BeganMore(records: seq<AttemptRecord>, b: AttemptRecord, c: AttemptRecord)
    requires records != [] && EndedOnce(b, c)
    requires Began(records[..|records| - 1], b) || (records[|records| - 1] == b && b.state.AttemptRunning?)
    ensures Began(records, c)
  {
    if Began(records[..|records| - 1], b) {
      var j :| 0 <= j < |records| - 1 && records[..|records| - 1][j].state.AttemptRunning? &&
               EndedOnce(records[..|records| - 1][j], b);
      EndedOnceMore(records[j], b, c);
    } else {
      assert records[|records| - 1].state.AttemptRunning?;
    }
  }

  /**
   * Whatever records are offered, in whatever order: ids stay unique, every attempt keeps its place, a terminal
   * record is there for good, and no attempt is ever recorded as ended that was not recorded as running before.
   */
  lemma {:induction false} RecordedOnce(attempts: seq<AttemptRecord>, records: seq<AttemptRecord>)
    requires IdsApart(attempts)
    ensures var updated := Recorded(attempts, records);
            && IdsApart(updated) && |attempts| <= |updated|
            && (forall i :: 0 <= i < |attempts| ==> EndedOnce(attempts[i], updated[i]))
            && (forall i :: |attempts| <= i < |updated| ==> Began(records, updated[i]))
  {
    if records != [] {
      hide UpdateAttempts, EndedOnce, Began, IdsApart;
      var n := |records| - 1;
      var before, updated := Recorded(attempts, records[..n]), Recorded(attempts, records);
      RecordedOnce(attempts, records[..n]);
      SameHistory(before);
      if UpdateAttempts(before, records[n]).Some? {
        RecordOnce(before, records[n]);
      }
      forall i | 0 <= i < |attempts| ensures EndedOnce(attempts[i], updated[i]) {
        EndedOnceMore(attempts[i], before[i], updated[i]);
      }
      forall i | |attempts| <= i < |updated| ensures Began(records, updated[i]) {
        if i == |before| {
          SameHistory(updated);
        }
        BeganMore(records, if i < |before| then before[i] else records[n], updated[i]);
      }
    }
  }

  lemma SameHistory(attempts: seq<AttemptRecord>)
    ensures forall i :: 0 <= i < |attempts| ==> EndedOnce(attempts[i], attempts[i])
  {
  }
}
