/**
 * How far an item has come, and the record kept of a whole history of the ledger file: every durable
 * state, every stage driven, every core attempt run, every event reported.
 */
module Progress {
  import opened Common
  import opened LedgerItems
  import opened LedgerClass
  import LedgerRuns

  /** The order of durable stages: the fixed pipeline, then the remote sequence. */
  function Rank(stage: PipelineStage): nat {
    match stage
    case StageNone => 0
    case MaterializeRequirements => 1
    case GenerateSpec => 2
    case SpecToPlan => 3
    case PlanToTasks => 4
    case ImplementTasks => 5
    case Publish => 6
    case StageChanges => 7
    case CommitStaged => 8
    case Push => 9
    case IssueStage => 10
    case PRStage => 11
    case StageDone => 12
    case OtherStage(_) => 0
  }

  /** A stage verified is further than the stage running, and not as far as the next. */
  function Reached(it: LedgerItem): nat {
    2 * Rank(it.stage) + (if it.stageState.StageVerified? then 1 else 0)
  }

  predicate Verified(it: LedgerItem, stage: PipelineStage) {
    it.stage == stage && it.stageState.StageVerified?
  }

  /**
   * A stage is taken up only from its predecessor, verified; the issue may be left out or left running by the toggles.
   */
  predicate Follows(it: LedgerItem, next: PipelineStage) {
    match next
    case MaterializeRequirements => it.stage.StageNone?
    case GenerateSpec => Verified(it, MaterializeRequirements)
    case SpecToPlan => Verified(it, GenerateSpec)
    case PlanToTasks => Verified(it, SpecToPlan)
    case ImplementTasks => Verified(it, PlanToTasks)
    case Publish => Verified(it, ImplementTasks)
    case StageChanges => it.stage.Publish?
    case CommitStaged => Verified(it, StageChanges)
    case Push => Verified(it, CommitStaged)
    case IssueStage => Verified(it, Push)
    case PRStage => Verified(it, Push) || it.stage.IssueStage?
    case _ => false
  }

  /** Pushed, and past whatever of the issue and the pull request was taken up. */
  predicate Published(it: LedgerItem) {
    Verified(it, Push) || it.stage.IssueStage? || it.stage.PRStage?
  }

  /** One durable change of a record's stage. */
  predicate Edge(a: LedgerItem, b: LedgerItem) {
    || (b.stage == a.stage && b.stageState == a.stageState)
    || (a.stageState.StageRunning? && Verified(b, a.stage))
    || (b.stageState.StageRunning? && Follows(a, b.stage))
    || (Verified(b, StageDone) && Published(a))
  }

  lemma EdgeForward(a: LedgerItem, b: LedgerItem)
    requires Edge(a, b) && (a.stage.StageNone? ==> !a.stageState.StageVerified?)
    ensures Reached(a) <= Reached(b)
  {
  }

  predicate Delivered(it: LedgerItem) {
    forall i :: 0 <= i < |it.outbox| ==> it.outbox[i].delivered
  }

  /**
   * What runs keep of an item beyond validity: its event comes with its issue, and is delivered before
   * its pull request.
   */
  predicate Orderly(it: LedgerItem) {
    && it.issue >= 0 && it.pr >= 0 && (it.stage.StageNone? ==> it.stageState.StagePending?)
    && (it.issue == 0 ==> it.outbox == [])
    && (Rank(it.stage) >= Rank(PRStage) ==> Delivered(it))
  }

  ghost predicate OneInProgress(items: seq<LedgerItem>) {
    forall i, j :: 0 <= i < j < |items| && items[i].status.InProgress? ==> !items[j].status.InProgress?
  }

  ghost predicate Good(items: seq<LedgerItem>) {
    && ValidItems(items) && SlugsDistinct(items) && OneInProgress(items)
    && (forall k :: 0 <= k < |items| ==> Orderly(items[k]))
  }

  ghost predicate Forward(a: seq<LedgerItem>, b: seq<LedgerItem>) {
    && LedgerRuns.LedgerEvolves(a, b)
    && (forall k :: 0 <= k < |a| ==> Reached(a[k]) <= Reached(b[k]))
  }

  lemma ForwardTransitive(a: seq<LedgerItem>, b: seq<LedgerItem>, c: seq<LedgerItem>)
    requires Forward(a, b) && Forward(b, c)
    ensures Forward(a, c)
  {
    hide LedgerRuns.Evolves;
    LedgerRuns.LedgerEvolvesTransitive(a, b, c);
    assert forall k :: 0 <= k < |a| ==> Reached(a[k]) <= Reached(b[k]) <= Reached(c[k]);
  }

  // Changes of one record.

  /** A change both validators accept, that keeps the item orderly and moves it at most one step on. */
  ghost predicate Accepted(before: LedgerItem, after: LedgerItem) {
    ValidMutation(before, after) && ValidItem(after) && Orderly(after) && Edge(before, after)
  }

  predicate MoreUrgent(p: Priority, q: Priority) {
    (p.High? && !q.High?) || (p.Medium? && !q.High? && !q.Medium?)
  }

  /** The more urgent of two records is taken first, then the one earlier in the backlog, then in the ledger. */
  predicate Sooner(items: seq<LedgerItem>, a: nat, b: nat)
    requires a < |items| && b < |items|
  {
    || MoreUrgent(items[a].priority, items[b].priority)
    || (!MoreUrgent(items[b].priority, items[a].priority) &&
        (items[a].sourceOrder < items[b].sourceOrder || (items[a].sourceOrder == items[b].sourceOrder && a < b)))
  }

  /** A current record may be begun: none is in progress, and no other current one that waits is taken sooner. */
  ghost predicate ItsTurn(items: seq<LedgerItem>, k: nat)
    requires k < |items|
  {
    && items[k].sourceState.Current?
    && (forall i :: 0 <= i < |items| ==> !items[i].status.InProgress?)
    && (forall i :: 0 <= i < |items| && i != k && items[i].status.Pending? && items[i].sourceState.Current? ==>
          Sooner(items, k, i))
  }

  /**
   * From one durable state to the next every record moves at most one step, new ones have no stage, and one is
   * begun only when it is its turn.
   */
  ghost predicate OneStep(a: seq<LedgerItem>, b: seq<LedgerItem>) {
    && |a| <= |b|
    && (forall k :: 0 <= k < |a| ==> Edge(a[k], b[k]))
    && (forall k :: |a| <= k < |b| ==> b[k].stage.StageNone?)
    && OnlyInTurn(a, b)
  }

  ghost predicate OnlyInTurn(a: seq<LedgerItem>, b: seq<LedgerItem>) {
    forall k :: 0 <= k < |a| && k < |b| && b[k].status.InProgress? && !a[k].status.InProgress? ==> ItsTurn(a, k)
  }

  /** Work on a record begins only in its turn. */
  ghost predicate Alone(items: seq<LedgerItem>, k: nat, after: LedgerItem)
    requires k < |items|
  {
    after.status.InProgress? && !items[k].status.InProgress? ==> ItsTurn(items, k)
  }

  lemma AcceptedKeepsGood(items: seq<LedgerItem>, k: nat, after: LedgerItem)
    requires Good(items) && k < |items| && Accepted(items[k], after) && Alone(items, k, after)
    ensures Good(items[k := after]) && Forward(items, items[k := after])
    ensures LedgerRuns.LedgerEvolves(items, items[k := after]) && OneStep(items, items[k := after])
  {
    hide ValidItem, Orderly, LedgerRuns.Evolves, OutboxMutation, AttemptsMutation, Edge, Reached;
    NoStageUnverified(items[k]);
    EdgeForward(items[k], after);
    assert forall i :: 0 <= i < |items| ==> Edge(items[i], items[i]) by {
      forall i | 0 <= i < |items| ensures Edge(items[i], items[i]) {
        EdgeReflexive(items[i]);
      }
    }
    SaneValid(items[k]);
    WorkflowOf(after);
    LedgerRuns.MutationEvolves(items[k], after);
    LedgerRuns.EvolvesReflexive(items);
    var changed := items[k := after];
    assert forall i :: 0 <= i < |items| ==>
           changed[i].itemID == items[i].itemID && changed[i].sourceID == items[i].sourceID &&
             changed[i].slug == items[i].slug;
  }

  lemma NoStageUnverified(it: LedgerItem)
    requires Orderly(it)
    ensures it.stage.StageNone? ==> !it.stageState.StageVerified?
  {
  }

  lemma EdgeReflexive(it: LedgerItem)
    ensures Edge(it, it)
  {
  }

  lemma SaneValid(it: LedgerItem)
    requires ValidItem(it)
    ensures LedgerRuns.Sane(it)
  {
  }

  lemma WorkflowOf(it: LedgerItem)
    requires ValidItem(it)
    ensures ValidWorkflow(it)
  {
  }

  lemma AcceptedIsCandidate(items: seq<LedgerItem>, k: nat, after: LedgerItem)
    requires Good(items) && k < |items| && Accepted(items[k], Freeze(items[k], after)) &&
             Alone(items, k, Freeze(items[k], after))
    ensures Candidate(items, k, after) == Some(items[k := Freeze(items[k], after)])
    ensures Find(items, items[k].slug) == Some(k)
  {
    hide ValidItem, Orderly, ValidMutation;
    AcceptedKeepsGood(items, k, Freeze(items[k], after));
    FindOwn(items, k);
  }

  // The record of a history.

  /** A stage of an item set going while this was the durable state. */
  datatype Drive = Drive(k: nat, stage: PipelineStage, at: nat)

  /** A core attempt run while this was the durable state, by the runner that many replacements made. */
  datatype CoreRun = CoreRun(k: nat, id: AttemptID, at: nat, runner: nat)

  /**
   * `heard` counts, for each durable state, the events reported before it. `refused` is set when a validator
   * refuses a change; `mute` when an attempt failed with an error without text.
   */
  datatype Trace = Trace(history: seq<seq<LedgerItem>>, drives: seq<Drive>, runs: seq<CoreRun>, reports: seq<EventID>,
                         heard: seq<nat>, refused: bool, mute: bool)

  /** The history begins with nothing and each state is one step from the one before. */
  ghost predicate Stepwise(history: seq<seq<LedgerItem>>) {
    && history != [] && history[0] == []
    && forall i :: 0 < i < |history| ==>
       OneStep(history[i - 1], history[i]) && LedgerRuns.LedgerEvolves(history[i - 1], history[i])
  }

  ghost predicate AllGood(history: seq<seq<LedgerItem>>) {
    forall i :: 0 <= i < |history| ==> Good(history[i])
  }

  /** A stage is driven only while it is durably running, */
  predicate DriveLogged(history: seq<seq<LedgerItem>>, d: Drive) {
    d.at < |history| && d.k < |history[d.at]| && history[d.at][d.k].stage == d.stage &&
      history[d.at][d.k].stageState.StageRunning?
  }

  /** a core attempt runs only when the newest durable state has just added its running record, */
  predicate RunLogged(history: seq<seq<LedgerItem>>, r: CoreRun) {
    && 0 < r.at < |history| && r.k < |history[r.at - 1]| && r.k < |history[r.at]|
    && var attempts := history[r.at][r.k].attempts;
       |attempts| == |history[r.at - 1][r.k].attempts| + 1 &&
       attempts[|attempts| - 1].id == r.id && attempts[|attempts| - 1].state.AttemptRunning?
  }

  /** each at a durable state of its own, */
  ghost predicate RunsApart(runs: seq<CoreRun>) {
    forall a, b :: 0 <= a < b < |runs| ==> runs[a].at < runs[b].at
  }

  /** An ended attempt that allows another: not cancelled, and successful or not said to be never retried. */
  predicate Retryable(a: AttemptRecord) {
    a.state.AttemptTerminal? && !a.outcome.Cancelled? && (a.outcome.Succeeded? || !a.retry.Never?)
  }

  /** No stage of the item was set going between two durable states. */
  ghost predicate NoDrive(drives: seq<Drive>, k: nat, from: nat, to: nat) {
    forall d <- drives | d.k == k :: !(from <= d.at < to)
  }

  /**
   * In a durable state this attempt is recorded as one that allows another by the given runner: a new one, if it
   * asks for that.
   */
  predicate Allows(history: seq<seq<LedgerItem>>, r: CoreRun, at: nat, runner: nat) {
    && r.at < |history| && r.k < |history[r.at]| && at < |history| && r.k < |history[at]|
    && 0 < |history[r.at][r.k].attempts| <= |history[at][r.k].attempts|
    && var ended := history[at][r.k].attempts[|history[r.at][r.k].attempts| - 1];
       Retryable(ended) && (ended.retry.FreshRunner? ==> r.runner < runner)
  }

  /** Within one drive of a stage each attempt runs only after all earlier ones have ended and allow it, */
  ghost predicate RetriesAllowed(history: seq<seq<LedgerItem>>, drives: seq<Drive>, runs: seq<CoreRun>) {
    forall a, b | 0 <= a < b < |runs| && runs[a].k == runs[b].k && NoDrive(drives, runs[a].k, runs[a].at, runs[b].at) ::
      runs[b].at > 0 && Allows(history, runs[a], runs[b].at - 1, runs[b].runner)
  }

  /** as is demanded before it runs; */
  ghost predicate MayRun(t: Trace, k: nat, runner: nat) {
    t.history != [] &&
    forall a | 0 <= a < |t.runs| && t.runs[a].k == k && NoDrive(t.drives, k, t.runs[a].at, |t.history|) ::
      Allows(t.history, t.runs[a], |t.history| - 1, runner)
  }

  /** and an event is marked delivered only after it was reported. */
  ghost predicate Reported(items: seq<LedgerItem>, reports: seq<EventID>) {
    forall k, i :: 0 <= k < |items| && 0 <= i < |items[k].outbox| && items[k].outbox[i].delivered ==>
        items[k].outbox[i].id in reports
  }

  ghost predicate AllReported(history: seq<seq<LedgerItem>>, reports: seq<EventID>, heard: seq<nat>) {
    |heard| == |history| && forall j :: 0 <= j < |history| ==>
      heard[j] <= |reports| && Reported(history[j], reports[..heard[j]])
  }

  ghost predicate Sound(t: Trace) {
    && Stepwise(t.history) && AllGood(t.history)
    && (forall d <- t.drives :: DriveLogged(t.history, d))
    && (forall r <- t.runs :: RunLogged(t.history, r)) && RunsApart(t.runs)
    && RetriesAllowed(t.history, t.drives, t.runs)
    && AllReported(t.history, t.reports, t.heard)
    && (t.refused ==> t.mute)
  }

  function Last(t: Trace): seq<LedgerItem>
    requires t.history != []
  {
    t.history[|t.history| - 1]
  }

  function Extended(t: Trace, items: seq<LedgerItem>): Trace {
    t.(history := t.history + [items], heard := t.heard + [|t.reports|])
  }

  lemma ExtendedSound(t: Trace, items: seq<LedgerItem>)
    requires Sound(t) && Good(items) && Reported(items, t.reports)
    requires LedgerRuns.LedgerEvolves(Last(t), items) && OneStep(Last(t), items)
    ensures Sound(Extended(t, items)) && Last(Extended(t, items)) == items
  {
    hide Good, LedgerRuns.LedgerEvolves, Reported, OneStep, RetriesAllowed;
    var h, h' := t.history, t.history + [items];
    StillAllowed(t, h');
    forall i | 0 < i < |h'| ensures OneStep(h'[i - 1], h'[i]) && LedgerRuns.LedgerEvolves(h'[i - 1], h'[i]) {
      if i < |h| {
        assert OneStep(h[i - 1], h[i]);
      }
    }
    forall d | d in t.drives ensures DriveLogged(h', d) {
      assert DriveLogged(h, d);
    }
    forall r | r in t.runs ensures RunLogged(h', r) {
      assert RunLogged(h, r);
    }
    forall j | 0 <= j < |h'| ensures Reported(h'[j], t.reports[..(t.heard + [|t.reports|])[j]]) {
      if j < |h| {
        assert Reported(h[j], t.reports[..t.heard[j]]);
      } else {
        assert t.reports[..|t.reports|] == t.reports;
      }
    }
  }

  lemma StillAllowed(t: Trace, history: seq<seq<LedgerItem>>)
    requires Sound(t) && t.history <= history
    ensures RetriesAllowed(history, t.drives, t.runs)
  {
    hide Good, Reported, OneStep, LedgerRuns.LedgerEvolves, NoDrive, Retryable;
    forall a, b | 0 <= a < b < |t.runs| && t.runs[a].k == t.runs[b].k &&
                  NoDrive(t.drives, t.runs[a].k, t.runs[a].at, t.runs[b].at)
      ensures t.runs[b].at > 0 && Allows(history, t.runs[a], t.runs[b].at - 1, t.runs[b].runner)
    {
      assert RunLogged(t.history, t.runs[b]) && t.runs[b] in t.runs;
      assert Allows(t.history, t.runs[a], t.runs[b].at - 1, t.runs[b].runner);
    }
  }

  /** A stage is set going; no attempt of it has run yet. */
  lemma DrivenSound(t: Trace, k: nat)
    requires Sound(t) && k < |Last(t)| && Last(t)[k].stageState.StageRunning?
    ensures var u := t.(drives := t.drives + [Drive(k, Last(t)[k].stage, |t.history| - 1)]);
            Sound(u) && forall runner: nat :: MayRun(u, k, runner)
  {
    hide Good, Reported, OneStep, LedgerRuns.LedgerEvolves, Allows;
    var d := Drive(k, Last(t)[k].stage, |t.history| - 1);
    var drives := t.drives + [d];
    assert DriveLogged(t.history, d);
    assert forall r | r in t.runs :: RunLogged(t.history, r);
    forall a, b | 0 <= a < b < |t.runs| && t.runs[a].k == t.runs[b].k &&
                  NoDrive(drives, t.runs[a].k, t.runs[a].at, t.runs[b].at)
      ensures NoDrive(t.drives, t.runs[a].k, t.runs[a].at, t.runs[b].at)
    {
      assert forall e | e in t.drives :: e in drives;
    }
    forall a | 0 <= a < |t.runs| && t.runs[a].k == k ensures !NoDrive(drives, k, t.runs[a].at, |t.history|) {
      assert t.runs[a] in t.runs && d in drives;
    }
  }

  lemma GoodValid(items: seq<LedgerItem>, k: nat)
    requires Good(items) && k < |items|
    ensures ValidItem(items[k]) && Orderly(items[k])
  {
  }

  lemma RanSound(t: Trace, k: nat, id: AttemptID, runner: nat)
    requires Sound(t) && RunLogged(t.history, CoreRun(k, id, |t.history| - 1, runner))
    requires forall r <- t.runs :: r.at < |t.history| - 1
    requires forall r <- t.runs | r.k == k && NoDrive(t.drives, k, r.at, |t.history| - 1) ::
               Allows(t.history, r, |t.history| - 2, runner)
    ensures Sound(t.(runs := t.runs + [CoreRun(k, id, |t.history| - 1, runner)]))
  {
    hide Good, Reported, RunLogged, OneStep, LedgerRuns.LedgerEvolves, Allows, NoDrive;
  }

  lemma ReportSound(t: Trace, id: EventID)
    requires Sound(t)
    ensures Sound(t.(reports := t.reports + [id]))
  {
    hide Good, Reported, DriveLogged, RunLogged, OneStep, LedgerRuns.LedgerEvolves, RetriesAllowed;
    forall j | 0 <= j < |t.history| ensures Reported(t.history[j], (t.reports + [id])[..t.heard[j]]) {
      assert Reported(t.history[j], t.reports[..t.heard[j]]);
      assert (t.reports + [id])[..t.heard[j]] == t.reports[..t.heard[j]];
    }
  }

  // What a sound record says.

  lemma AdjacentForward(t: Trace, j: nat)
    requires Sound(t) && 0 < j < |t.history|
    ensures Forward(t.history[j - 1], t.history[j])
  {
    hide LedgerRuns.LedgerEvolves, ValidItems, Edge, Reached, DriveLogged, RunLogged, Reported;
    var a, b := t.history[j - 1], t.history[j];
    assert OneStep(a, b) && LedgerRuns.LedgerEvolves(a, b) && Good(a);
    forall k | 0 <= k < |a| ensures Reached(a[k]) <= Reached(b[k]) {
      NoStageUnverified(a[k]);
      EdgeForward(a[k], b[k]);
    }
  }

  /** Neither the stage nor its state of any item ever goes back between durable states, and all of them evolve. */
  lemma {:induction false} NeverBack(t: Trace, i: nat, j: nat)
    requires Sound(t) && i <= j < |t.history|
    ensures Forward(t.history[i], t.history[j])
    decreases j
  {
    hide Forward, Good, Reported, DriveLogged, RunLogged, OneStep;
    if i == j {
      ForwardReflexive(t.history[i]);
    } else {
      NeverBack(t, i, j - 1);
      AdjacentForward(t, j);
      ForwardTransitive(t.history[i], t.history[j - 1], t.history[j]);
    }
  }

  lemma ForwardReflexive(items: seq<LedgerItem>)
    ensures Forward(items, items)
  {
    LedgerRuns.EvolvesReflexive(items);
  }

  ghost predicate NothingGoesBack(t: Trace) {
    forall i, j, k | 0 <= i <= j < |t.history| && 0 <= k < |t.history[i]| ::
      k < |t.history[j]| && Reached(t.history[i][k]) <= Reached(t.history[j][k]) &&
      LedgerRuns.Evolves(t.history[i][k], t.history[j][k])
  }

  /** Once the file says a stage is verified, no stage up to it is driven again, whatever happens. */
  lemma VerifiedNeverDrivenAgain(t: Trace, i: nat, k: nat, d: Drive)
    requires Sound(t) && i < |t.history| && k < |t.history[i]| && t.history[i][k].stageState.StageVerified?
    requires d in t.drives && d.k == k && d.at >= i
    ensures Rank(d.stage) > Rank(t.history[i][k].stage)
  {
    hide Good, OneStep, LedgerRuns.LedgerEvolves, RunLogged, Reported;
    assert DriveLogged(t.history, d);
    NeverBack(t, i, d.at);
  }

  ghost predicate NothingDrivenAgain(t: Trace) {
    forall i, k, d | 0 <= i < |t.history| && 0 <= k < |t.history[i]| && t.history[i][k].stageState.StageVerified? &&
                     d in t.drives && d.k == k && d.at >= i ::
      Rank(d.stage) > Rank(t.history[i][k].stage)
  }

  /**
   * A core attempt has a durable running record from before it starts, with an ordinal no earlier attempt
   * of the item had.
   */
  lemma AttemptRecordedFirst(t: Trace, r: CoreRun)
    requires Sound(t) && r in t.runs
    ensures RecordedFirst(t.history, r)
  {
    hide Reported, OneStep, LedgerRuns.LedgerEvolves, ValidShape, ValidIdentity, ValidOutbox, ValidWorkflow, ByteLength;
    assert RunLogged(t.history, r);
    GoodValid(t.history[r.at], r.k);
  }

  predicate RecordedFirst(history: seq<seq<LedgerItem>>, r: CoreRun) {
    && r.at < |history| && r.k < |history[r.at]|
    && var attempts := history[r.at][r.k].attempts;
       attempts != [] && attempts[|attempts| - 1].id == r.id && attempts[|attempts| - 1].state.AttemptRunning? &&
       forall i :: 0 <= i < |attempts| - 1 ==> attempts[i].ordinal < attempts[|attempts| - 1].ordinal
  }

  ghost predicate AttemptsRecordedFirst(t: Trace) {
    forall r <- t.runs :: RecordedFirst(t.history, r)
  }

  lemma EarlierOrdinal(older: LedgerItem, newer: LedgerItem, p: nat)
    requires LedgerRuns.AttemptsEvolve(older, newer) && p < |older.attempts| && p < |newer.attempts| - 1
    requires ValidItem(newer)
    ensures var id, last := older.attempts[p].id, newer.attempts[|newer.attempts| - 1].id;
            id.CoreID? && last.CoreID? && id.ordinal < last.ordinal
  {
    hide ValidShape, ValidIdentity, ValidOutbox, ValidWorkflow, ByteLength;
    assert newer.attempts[p].id == older.attempts[p].id;
    assert ValidAttempt(newer.itemID, newer.attempts[p]) &&
           ValidAttempt(newer.itemID, newer.attempts[|newer.attempts| - 1]);
  }

  lemma EvolvedAttempts(a: seq<LedgerItem>, b: seq<LedgerItem>, k: nat)
    requires Forward(a, b) && k < |a|
    ensures k < |b| && |a[k].attempts| <= |b[k].attempts| && LedgerRuns.AttemptsEvolve(a[k], b[k])
  {
    assert LedgerRuns.Evolves(a[k], b[k]);
  }

  /** The ordinals of an item's attempts grow in the order they ran, over retries, stages and restarts. */
  lemma OrdinalsGrow(t: Trace, a: nat, b: nat)
    requires Sound(t) && a < b < |t.runs| && t.runs[a].k == t.runs[b].k
    ensures t.runs[a].id.CoreID? && t.runs[b].id.CoreID? && t.runs[a].id.ordinal < t.runs[b].id.ordinal
  {
    hide Forward, Good, Reported, OneStep, LedgerRuns.LedgerEvolves, LedgerRuns.AttemptsEvolve, ValidItem;
    var h, r, s, k := t.history, t.runs[a], t.runs[b], t.runs[a].k;
    assert r in t.runs && s in t.runs && RunLogged(h, r) && RunLogged(h, s) && r.at <= s.at - 1;
    NeverBack(t, r.at, s.at - 1);
    EvolvedAttempts(h[r.at], h[s.at - 1], k);
    NeverBack(t, r.at, s.at);
    EvolvedAttempts(h[r.at], h[s.at], k);
    GoodValid(h[s.at], k);
    EarlierOrdinal(h[r.at][k], h[s.at][k], |h[r.at][k].attempts| - 1);
  }

  /** Whatever ran before in the same drive of a stage had ended and allowed another attempt. */
  lemma RetriedAsAllowed(t: Trace)
    requires Sound(t)
    ensures RetriesAllowed(t.history, t.drives, t.runs)
  {
    hide RetriesAllowed;
  }

  ghost predicate OrdinalsOfRunsGrow(t: Trace) {
    forall a, b | 0 <= a < b < |t.runs| && t.runs[a].k == t.runs[b].k ::
      t.runs[a].id.CoreID? && t.runs[b].id.CoreID? && t.runs[a].id.ordinal < t.runs[b].id.ordinal
  }

  /**
   * Every event of an item whose durable stage is the pull request, or later, was delivered, and reported
   * before that state.
   */
  lemma DeliveredBeforePR(t: Trace, j: nat, k: nat, i: nat)
    requires Sound(t) && j < |t.history| && k < |t.history[j]| && i < |t.history[j][k].outbox|
    requires Rank(t.history[j][k].stage) >= Rank(PRStage)
    ensures j < |t.heard| && t.heard[j] <= |t.reports|
    ensures t.history[j][k].outbox[i].delivered && t.history[j][k].outbox[i].id in t.reports[..t.heard[j]]
  {
    hide OneStep, LedgerRuns.LedgerEvolves, DriveLogged, RunLogged, ValidItems;
    GoodValid(t.history[j], k);
    assert Reported(t.history[j], t.reports[..t.heard[j]]);
  }

  ghost predicate EventsBeforePR(t: Trace) {
    |t.heard| == |t.history| &&
    forall j, k, i | 0 <= j < |t.history| && 0 <= k < |t.history[j]| && 0 <= i < |t.history[j][k].outbox| &&
                     Rank(t.history[j][k].stage) >= Rank(PRStage) ::
      t.heard[j] <= |t.reports| && t.history[j][k].outbox[i].delivered &&
        t.history[j][k].outbox[i].id in t.reports[..t.heard[j]]
  }

  /** The stages every item passes, whatever the toggles. */
  predicate Mandatory(stage: PipelineStage) {
    IsExecutable(stage) && !stage.Publish? && !stage.IssueStage? && !stage.PRStage?
  }

  lemma PassedBefore(a: LedgerItem, b: LedgerItem, stage: PipelineStage)
    requires Edge(a, b) && Mandatory(stage) && Reached(b) > 2 * Rank(stage) && !(Verified(b, stage))
    ensures Reached(a) > 2 * Rank(stage)
  {
  }

  /**
   * No stage is skipped: an item past a pipeline stage, or past staging, committing or pushing, was
   * durably recorded as having it verified at some earlier time. So an item recorded done has been
   * through them all.
   */
  lemma {:induction false} NoStageSkipped(t: Trace, j: nat, k: nat, stage: PipelineStage) returns (i: nat)
    requires Sound(t) && j < |t.history| && k < |t.history[j]| && Mandatory(stage)
    requires Reached(t.history[j][k]) > 2 * Rank(stage)
    ensures i <= j && k < |t.history[i]| && Verified(t.history[i][k], stage)
  {
    hide Good, Reported, DriveLogged, RunLogged, Edge, LedgerRuns.LedgerEvolves;
    if Verified(t.history[j][k], stage) {
      i := j;
    } else {
      assert OneStep(t.history[j - 1], t.history[j]);
      NewUnreached(t, j, k, stage);
      PassedBefore(t.history[j - 1][k], t.history[j][k], stage);
      i := NoStageSkipped(t, j - 1, k, stage);
    }
  }

  lemma NewUnreached(t: Trace, j: nat, k: nat, stage: PipelineStage)
    requires Sound(t) && 0 < j < |t.history| && k < |t.history[j]| && Mandatory(stage)
    requires Reached(t.history[j][k]) > 2 * Rank(stage)
    ensures k < |t.history[j - 1]|
  {
    hide Reported, DriveLogged, RunLogged, Edge, LedgerRuns.LedgerEvolves;
    assert OneStep(t.history[j - 1], t.history[j]);
    assert Good(t.history[j]) && Orderly(t.history[j][k]);
  }

  lemma DonePassedAll(t: Trace, j: nat, k: nat, stage: PipelineStage)
    requires Sound(t) && j < |t.history| && k < |t.history[j]| && t.history[j][k].status.Done? && Mandatory(stage)
    ensures exists i :: 0 <= i <= j && k < |t.history[i]| && Verified(t.history[i][k], stage)
  {
    hide Reported, DriveLogged, RunLogged, Edge, LedgerRuns.LedgerEvolves;
    assert Good(t.history[j]) && ValidItem(t.history[j][k]);
    var i := NoStageSkipped(t, j, k, stage);
  }

  ghost predicate NothingSkipped(t: Trace) {
    forall j, k, stage | 0 <= j < |t.history| && 0 <= k < |t.history[j]| && Mandatory(stage) &&
                         (Reached(t.history[j][k]) > 2 * Rank(stage) || t.history[j][k].status.Done?) ::
      exists i :: 0 <= i <= j && k < |t.history[i]| && Verified(t.history[i][k], stage)
  }

  /** In every durable state at most one item is in progress. */
  ghost predicate OneAtATime(t: Trace) {
    forall j | 0 <= j < |t.history| :: OneInProgress(t.history[j])
  }

  lemma AlwaysOne(t: Trace)
    requires Sound(t)
    ensures OneAtATime(t)
  {
    hide OneStep, LedgerRuns.LedgerEvolves, DriveLogged, RunLogged, Reported, ValidItems;
    forall j | 0 <= j < |t.history| ensures OneInProgress(t.history[j]) {
      assert Good(t.history[j]);
    }
  }

  /** Every item was begun in its turn. */
  ghost predicate BegunInTurn(t: Trace) {
    forall i, j | 0 <= i < j < |t.history| && j == i + 1 :: OnlyInTurn(t.history[i], t.history[j])
  }

  lemma AlwaysInTurn(t: Trace)
    requires Sound(t)
    ensures BegunInTurn(t)
  {
    hide LedgerRuns.LedgerEvolves, DriveLogged, RunLogged, Reported, Good, Edge, OnlyInTurn, RetriesAllowed;
    forall i, j | 0 <= i < j < |t.history| && j == i + 1 ensures OnlyInTurn(t.history[i], t.history[j]) {
      assert OneStep(t.history[j - 1], t.history[j]);
    }
  }

  /** All of it, for every item, durable state, stage driven, attempt run and event. */
  lemma SoundHistory(t: Trace)
    requires Sound(t)
    ensures OneAtATime(t) && NothingGoesBack(t) && NothingDrivenAgain(t) && NothingSkipped(t)
    ensures AttemptsRecordedFirst(t) && OrdinalsOfRunsGrow(t) && EventsBeforePR(t)
    ensures RetriesAllowed(t.history, t.drives, t.runs) && BegunInTurn(t)
  {
    hide *;
    RetriedAsAllowed(t);
    AlwaysInTurn(t);
    AlwaysOne(t);
    AlwaysForward(t);
    DrivenOnce(t);
    PassedInOrder(t);
    AllRecordedFirst(t);
    AllOrdinalsGrow(t);
    EventsHeard(t);
  }

  lemma AlwaysForward(t: Trace)
    requires Sound(t)
    ensures NothingGoesBack(t)
  {
    hide Sound, Reached, LedgerRuns.Evolves;
    forall i, j, k | 0 <= i <= j < |t.history| && 0 <= k < |t.history[i]|
      ensures k < |t.history[j]| && Reached(t.history[i][k]) <= Reached(t.history[j][k])
      ensures LedgerRuns.Evolves(t.history[i][k], t.history[j][k])
    {
      NeverBack(t, i, j);
    }
  }

  lemma DrivenOnce(t: Trace)
    requires Sound(t)
    ensures NothingDrivenAgain(t)
  {
    hide Sound, Rank;
    forall i, k, d | 0 <= i < |t.history| && 0 <= k < |t.history[i]| && t.history[i][k].stageState.StageVerified? &&
                     d in t.drives && d.k == k && d.at >= i
      ensures Rank(d.stage) > Rank(t.history[i][k].stage)
    {
      VerifiedNeverDrivenAgain(t, i, k, d);
    }
  }

  lemma AllRecordedFirst(t: Trace)
    requires Sound(t)
    ensures AttemptsRecordedFirst(t)
  {
    hide Sound, RecordedFirst;
    forall r | r in t.runs ensures RecordedFirst(t.history, r) {
      AttemptRecordedFirst(t, r);
    }
  }

  lemma AllOrdinalsGrow(t: Trace)
    requires Sound(t)
    ensures OrdinalsOfRunsGrow(t)
  {
    hide Sound;
    forall a, b | 0 <= a < b < |t.runs| && t.runs[a].k == t.runs[b].k
      ensures t.runs[a].id.CoreID? && t.runs[b].id.CoreID? && t.runs[a].id.ordinal < t.runs[b].id.ordinal
    {
      OrdinalsGrow(t, a, b);
    }
  }

  lemma PassedInOrder(t: Trace)
    requires Sound(t)
    ensures NothingSkipped(t)
  {
    hide Sound, Reached, Rank, Verified, Mandatory;
    forall j, k, stage | 0 <= j < |t.history| && 0 <= k < |t.history[j]| && Mandatory(stage) &&
                         (Reached(t.history[j][k]) > 2 * Rank(stage) || t.history[j][k].status.Done?)
      ensures exists i :: 0 <= i <= j && k < |t.history[i]| && Verified(t.history[i][k], stage)
    {
      if t.history[j][k].status.Done? {
        DonePassedAll(t, j, k, stage);
      } else {
        var i := NoStageSkipped(t, j, k, stage);
      }
    }
  }

  lemma EventsHeard(t: Trace)
    requires Sound(t)
    ensures EventsBeforePR(t)
  {
    HeardAll(t);
    hide Sound, Rank;
    forall j, k, i | 0 <= j < |t.history| && 0 <= k < |t.history[j]| && 0 <= i < |t.history[j][k].outbox| &&
                     Rank(t.history[j][k].stage) >= Rank(PRStage)
      ensures t.heard[j] <= |t.reports| && t.history[j][k].outbox[i].delivered &&
              t.history[j][k].outbox[i].id in t.reports[..t.heard[j]]
    {
      DeliveredBeforePR(t, j, k, i);
    }
  }

  lemma HeardAll(t: Trace)
    requires Sound(t)
    ensures |t.heard| == |t.history|
  {
  }
}
