/** Ledger records and the two validators that guard them (internal/autodev/ledger.go). */
module LedgerItems {
  import opened Common
  import opened LedgerPaths

  /** A text whose contents matter only where they are looked into. */
  datatype Text = Text(chars: string)

  const EMPTY := Text("")

  /** Ids are digests of a namespace and a seed, here the pair itself: digests are taken to be injective. */
  datatype ItemID =
    NoID | FromLegacy(slug: Text, title: Text) | FromTitle(title: Text) | FromSource(source: Text) | OtherID(text: Text)

  datatype PipelineStage =
    | StageNone
    | MaterializeRequirements | GenerateSpec | SpecToPlan | PlanToTasks | ImplementTasks
    | Publish | StageChanges | CommitStaged | Push | IssueStage | PRStage
    | StageDone
    | OtherStage(text: Text)

  datatype StageState = StagePending | StageRunning | StageVerified | OtherStageState(text: Text)

  datatype Status = Pending | InProgress | Done | OtherStatus(text: Text)

  datatype SourceState = Current | Orphaned | Blocked | Historical | OtherSourceState(text: Text)

  datatype Priority = High | Medium | Low | OtherPriority(text: Text) {
    function Rank(): nat {
      match this
      case High => 0
      case Medium => 1
      case _ => 2
    }
  }

  datatype AttemptState = AttemptRunning | AttemptTerminal | OtherAttemptState(text: Text)

  datatype OutcomeStatus =
    NoOutcome | Succeeded | Failed | Cancelled | TurnExhausted | StartFailed | OtherOutcome(text: Text)

  datatype RetryClass = NoRetryClass | Never | SameRunner | FreshRunner | OtherRetryClass(text: Text)

  datatype AttemptID = CoreID(item: ItemID, stage: PipelineStage, ordinal: int) | OtherAttemptID(text: Text)

  datatype AttemptRecord = AttemptRecord(id: AttemptID, correlation: AttemptID, stage: PipelineStage, ordinal: int,
                                         state: AttemptState, outcome: OutcomeStatus, sessionID: Text, runID: Text,
                                         retry: RetryClass, cause: Text)

  datatype EventID = IssueEvent(item: ItemID, number: int) | OtherEventID(text: Text)

  datatype EventKind = IssueKind | OtherKind(text: Text)

  datatype EventRecord = EventRecord(id: EventID, item: ItemID, kind: EventKind, number: int, delivered: bool)

  /** What is to be built, with the length and digest recorded for it. */
  datatype Revision = Revision(title: Text, description: Text, bytes: nat, hash: Hash)

  datatype Hash = Digest(text: Text) | OtherHash(text: Text)

  datatype LedgerItem = LedgerItem(
    itemID: ItemID, sourceID: Text, slug: Text, revision: Revision, frozen: bool, legacyPending: bool,
    sourceState: SourceState, sourceOrder: int, priority: Priority, status: Status, branch: Text,
    stage: PipelineStage, stageState: StageState, issue: int, pr: int,
    outbox: seq<EventRecord>, attempts: seq<AttemptRecord>, featureDir: Text)

  function ByteLength(s: string): nat {
    if s == [] then 0
    else
      var c := s[|s| - 1];
      ByteLength(s[..|s| - 1]) +
        (if c < '\U{80}' then 1 else if c < '\U{800}' then 2 else if c < '\U{10000}' then 3 else 4)
  }

  /** The requirement is the description, or the title when there is none. */
  function Requirement(title: Text, description: Text): Text {
    if description != EMPTY then description else title
  }

  function MakeRevision(title: Text, description: Text): Revision {
    var text := Requirement(title, description);
    Revision(title, description, ByteLength(text.chars), Digest(text))
  }

  predicate IsExecutable(stage: PipelineStage) {
    !stage.StageNone? && !stage.StageDone? && !stage.OtherStage?
  }

  predicate IsPublishing(stage: PipelineStage) {
    stage.Publish? || stage.StageChanges? || stage.CommitStaged? || stage.Push? || stage.IssueStage? || stage.PRStage?
  }

  function IssueRecord(item: ItemID, number: int): EventRecord {
    EventRecord(IssueEvent(item, number), item, IssueKind, number, false)
  }

  // What validateLedgerItems demands of one record, in the current schema.

  predicate ValidShape(it: LedgerItem) {
    && ValidComponent(it.slug.chars)
    && (it.branch != EMPTY ==> ValidBranch(it.branch.chars))
    && (it.featureDir != EMPTY ==> ValidFeatureDir(it.featureDir.chars))
  }

  predicate ValidIdentity(it: LedgerItem) {
    && !it.itemID.NoID?
    && (it.sourceID != EMPTY ==> Trim(it.sourceID.chars) == it.sourceID.chars)
    && (it.legacyPending ==> it.sourceID == EMPTY && it.sourceState == AbsentState(it.status))
  }

  /** Where an item stands whose source is not in the backlog. */
  function AbsentState(status: Status): SourceState {
    if status.Pending? then Orphaned else if status.InProgress? then Blocked else Historical
  }

  predicate ValidOutbox(it: LedgerItem) {
    && (forall i :: 0 <= i < |it.outbox| ==>
          var e := it.outbox[i];
          e.item == it.itemID && e.kind.IssueKind? && e.number > 0 && e.id == IssueEvent(e.item, e.number))
    && (forall i, j :: 0 <= i < j < |it.outbox| ==> it.outbox[i].id != it.outbox[j].id)
  }

  predicate ValidTerminal(a: AttemptRecord) {
    match a.outcome
    case Succeeded => a.cause == EMPTY && a.retry.Never?
    case Cancelled => a.cause != EMPTY && a.retry.Never?
    case StartFailed => a.cause != EMPTY && a.sessionID == EMPTY && a.runID == EMPTY && KnownRetry(a.retry)
    case Failed => a.cause != EMPTY && KnownRetry(a.retry)
    case TurnExhausted => a.cause != EMPTY && KnownRetry(a.retry)
    case _ => false
  }

  predicate KnownRetry(retry: RetryClass) {
    retry.Never? || retry.SameRunner? || retry.FreshRunner?
  }

  predicate ValidAttempt(item: ItemID, a: AttemptRecord) {
    && a.id == CoreID(item, a.stage, a.ordinal) && a.correlation == a.id
    && IsExecutable(a.stage)
    && match a.state
       case AttemptRunning => a.outcome.NoOutcome? && a.sessionID == EMPTY && a.runID == EMPTY &&
         a.retry.NoRetryClass? && a.cause == EMPTY
       case AttemptTerminal => ValidTerminal(a)
       case _ => false
  }

  /** Ordinals are positive and grow along the history, which also keeps the ids apart. */
  predicate ValidAttempts(item: ItemID, attempts: seq<AttemptRecord>) {
    && (forall i :: 0 <= i < |attempts| ==> ValidAttempt(item, attempts[i]) && attempts[i].ordinal > 0)
    && (forall i, j :: 0 <= i < j < |attempts| ==> attempts[i].ordinal < attempts[j].ordinal)
  }

  predicate ValidWorkflow(it: LedgerItem) {
    match it.status
    case Pending =>
      it.stage.StageNone? && it.stageState.StagePending? && !it.frozen &&
        (it.sourceState.Current? || it.sourceState.Orphaned?)
    case InProgress =>
      && (if it.stage.StageNone? then it.stageState.StagePending?
          else IsExecutable(it.stage) && (it.stageState.StageRunning? || it.stageState.StageVerified?))
      && (it.stage.IssueStage? && it.stageState.StageVerified? ==> it.issue > 0)
      && (it.stage.PRStage? && it.stageState.StageVerified? ==> it.pr > 0)
      && it.frozen && (it.sourceState.Current? || it.sourceState.Blocked?)
    case Done =>
      it.stage.StageDone? && it.stageState.StageVerified? && it.frozen &&
        (it.sourceState.Current? || it.sourceState.Historical?)
    case _ => false
  }

  predicate ValidItem(it: LedgerItem) {
    && ValidShape(it) && ValidIdentity(it) && ValidOutbox(it) && ValidAttempts(it.itemID, it.attempts)
    && it.revision == MakeRevision(it.revision.title, it.revision.description)
    && ValidWorkflow(it)
  }

  ghost predicate IDsDistinct(items: seq<LedgerItem>) {
    forall i, j :: 0 <= i < j < |items| ==> items[i].itemID != items[j].itemID
  }

  ghost predicate SourcesDistinct(items: seq<LedgerItem>) {
    forall i, j :: 0 <= i < j < |items| && items[i].sourceID != EMPTY ==> items[i].sourceID != items[j].sourceID
  }

  ghost predicate SlugsDistinct(items: seq<LedgerItem>) {
    forall i, j :: 0 <= i < j < |items| ==> items[i].slug != items[j].slug
  }

  /** validateLedgerItems: every record is valid, and ids and source ids are unique. */
  ghost predicate ValidItems(items: seq<LedgerItem>) {
    && (forall i :: 0 <= i < |items| ==> ValidItem(items[i]))
    && IDsDistinct(items) && SourcesDistinct(items)
  }

  /** A running attempt says nothing yet; an ended one has an error unless it succeeded, and is retried only then. */
  predicate Told(a: AttemptRecord) {
    if a.state.AttemptRunning? then
      a.outcome.NoOutcome? && a.retry.NoRetryClass? && a.sessionID == EMPTY && a.runID == EMPTY && a.cause == EMPTY
    else
      && a.state.AttemptTerminal? && a.outcome in {Succeeded, Failed, Cancelled, TurnExhausted, StartFailed}
      && (a.outcome.Succeeded? <==> a.cause == EMPTY)
      && (a.retry.Never? || (a.retry in {SameRunner, FreshRunner} && !a.outcome.Succeeded? && !a.outcome.Cancelled?))
      && (a.outcome.StartFailed? ==> a.sessionID == EMPTY && a.runID == EMPTY)
  }

  /**
   * What the validator's records mean: work has begun exactly if the requirement is frozen, a done item is past
   * every stage, a bound stage has its number, and attempts and events have ids of their own.
   */
  lemma ValidMeans(it: LedgerItem)
    requires ValidItem(it)
    ensures it.frozen <==> it.status.InProgress? || it.status.Done?
    ensures !it.frozen <==> it.status.Pending?
    ensures it.status.Done? <==> it.stage.StageDone?
    ensures it.status.Pending? ==> it.stage.StageNone? && it.sourceState in {Current, Orphaned}
    ensures it.status.InProgress? ==> it.sourceState in {Current, Blocked}
    ensures it.status.Done? ==> it.stageState.StageVerified? && it.sourceState in {Current, Historical}
    ensures it.stageState.StageRunning? ==> it.status.InProgress? && IsExecutable(it.stage)
    ensures it.stageState.StageVerified? && it.stage.IssueStage? ==> it.issue > 0
    ensures it.stageState.StageVerified? && it.stage.PRStage? ==> it.pr > 0
    ensures forall i :: 0 <= i < |it.attempts| ==>
              Told(it.attempts[i]) && IsExecutable(it.attempts[i].stage) && it.attempts[i].ordinal > 0
    ensures forall i, j :: 0 <= i < j < |it.attempts| ==> it.attempts[i].id != it.attempts[j].id
    ensures forall i, j :: 0 <= i < j < |it.outbox| ==> it.outbox[i].number != it.outbox[j].number
    ensures forall i :: 0 <= i < |it.outbox| ==> it.outbox[i].number > 0 && it.outbox[i].item == it.itemID
  {
    hide ValidShape, ByteLength, Trim;
    forall i, j | 0 <= i < j < |it.attempts| ensures it.attempts[i].id != it.attempts[j].id {
      assert ValidAttempt(it.itemID, it.attempts[i]) && ValidAttempt(it.itemID, it.attempts[j]);
    }
    forall i, j | 0 <= i < j < |it.outbox| ensures it.outbox[i].number != it.outbox[j].number {
      assert it.outbox[i].id != it.outbox[j].id;
    }
  }

  // What validateWorkflowMutation demands of one record's change.

  predicate SameEvent(a: EventRecord, b: EventRecord) {
    a.id == b.id && a.item == b.item && a.kind == b.kind && a.number == b.number
  }

  predicate OutboxMutation(before: LedgerItem, after: LedgerItem) {
    && |before.outbox| <= |after.outbox|
    && (forall i :: 0 <= i < |before.outbox| ==>
          SameEvent(before.outbox[i], after.outbox[i]) && (before.outbox[i].delivered ==> after.outbox[i].delivered))
    && (|before.outbox| < |after.outbox| ==>
        |after.outbox| == |before.outbox| + 1 && before.issue == 0 && after.issue > 0)
  }

  predicate Terminates(a: AttemptRecord, b: AttemptRecord) {
    a.state.AttemptRunning? && b.state.AttemptTerminal? &&
    a.id == b.id && a.correlation == b.correlation && a.stage == b.stage && a.ordinal == b.ordinal
  }

  predicate AttemptsMutation(before: seq<AttemptRecord>, after: seq<AttemptRecord>) {
    && |before| <= |after| <= |before| + 1
    && (forall i :: 0 <= i < |before| && before[i] != after[i] ==> Terminates(before[i], after[i]))
    && (|after| == |before| + 1 ==>
          after[|before|].state.AttemptRunning? && forall i :: 0 <= i < |before| ==> before[i] == after[i])
    && (forall i, j :: 0 <= i < j < |before| && before[i] != after[i] ==> before[j] == after[j])
  }

  predicate ValidMutation(before: LedgerItem, after: LedgerItem) {
    && before.itemID == after.itemID && before.sourceID == after.sourceID && before.slug == after.slug
    && before.revision == after.revision && before.priority == after.priority
    && before.sourceState == after.sourceState && before.sourceOrder == after.sourceOrder
    && before.legacyPending == after.legacyPending
    && after.frozen == (before.frozen || (before.status.Pending? && !after.status.Pending?))
    && (before.issue > 0 ==> after.issue == before.issue)
    && OutboxMutation(before, after)
    && AttemptsMutation(before.attempts, after.attempts)
    && (before.issue == 0 && after.issue > 0 && after.stage.IssueStage? && after.stageState.StageVerified? ==>
          exists i :: 0 <= i < |after.outbox| && after.outbox[i] == IssueRecord(after.itemID, after.issue))
  }

  /** Whose a record is and what is to be built stays. */
  predicate SameSource(a: LedgerItem, b: LedgerItem) {
    && a.itemID == b.itemID && a.slug == b.slug && a.sourceID == b.sourceID && a.revision == b.revision
    && a.priority == b.priority && a.sourceState == b.sourceState && a.sourceOrder == b.sourceOrder
    && a.legacyPending == b.legacyPending
  }

  /** Leaving pending freezes the requirement. */
  function Freeze(before: LedgerItem, after: LedgerItem): LedgerItem {
    if before.status.Pending? && !after.status.Pending? then after.(frozen := true) else after
  }

  lemma MutationKeeps(before: LedgerItem, after: LedgerItem)
    requires ValidMutation(before, after)
    ensures SameSource(before, after) && (before.issue > 0 ==> after.issue == before.issue)
    ensures after.frozen == (before.frozen || (before.status.Pending? && !after.status.Pending?))
  {
  }

  function Find(items: seq<LedgerItem>, slug: Text): (r: Option<nat>)
    ensures r.Some? ==> r.value < |items| && items[r.value].slug == slug
    ensures r.None? ==> forall i :: 0 <= i < |items| ==> items[i].slug != slug
  {
    FindFrom(items, slug, 0)
  }

  function FindFrom(items: seq<LedgerItem>, slug: Text, from: nat): (r: Option<nat>)
    requires from <= |items|
    ensures r.Some? ==> from <= r.value < |items| && items[r.value].slug == slug
    ensures r.Some? ==> forall i :: from <= i < r.value ==> items[i].slug != slug
    ensures r.None? ==> forall i :: from <= i < |items| ==> items[i].slug != slug
    decreases |items| - from
  {
    if from == |items| then None else if items[from].slug == slug then Some(from) else FindFrom(items, slug, from + 1)
  }

  /** With distinct slugs a slug finds its own record. */
  lemma FindOwn(items: seq<LedgerItem>, i: nat)
    requires SlugsDistinct(items) && i < |items|
    ensures Find(items, items[i].slug) == Some(i)
  {
    var found := Find(items, items[i].slug);
    assert found.Some?;
  }
}
