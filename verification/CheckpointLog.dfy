/**
 * Rebuilding from the snapshot log: exactly the histories in which every opened snapshot had an id
 * that no retained snapshot carried are rebuilt to the state that was in memory.
 */
module CheckpointLog {
  import opened Common
  import opened Checkpoint
  import opened CheckpointRewind

  function Ids(snapshots: seq<Snapshot>): (r: set<string>)
    ensures forall id :: id in r <==> exists i :: 0 <= i < |snapshots| && snapshots[i].id == id
  {
    set i | 0 <= i < |snapshots| :: snapshots[i].id
  }

  /** The id of the snapshot an event opens, if it opens one. */
  function Opening(s: State, e: Event): Option<string> {
    match e
    case Snap(id) => if s.disabled || IsLatest(s, id) then None else Some(id)
    case Track(_, id) => if s.disabled then None else OpeningId(s, id)
    case _ => None
  }

  /** A caller can check this before the call: the id to be opened is not already retained. */
  predicate FreshId(s: State, e: Event) {
    Opening(s, e).Some? ==> Opening(s, e).value !in Ids(s.snapshots)
  }

  predicate FreshRun(h: History, events: seq<Event>) {
    events == [] || (FreshRun(h, events[..|events| - 1]) &&
                     FreshId(Run(h, events[..|events| - 1]).session.state, events[|events| - 1]))
  }

  /** A fresh checkpointer with an empty log. */
  predicate Empty(h: History) {
    Initial(h) && h.session.disk.log == [] && h.session.state.sequence == 0 && h.session.state.recordSeq == 0
  }

  function Rebuilt(ss: Session): State {
    Replay(Blank(ss.state), ss.disk.log)
  }

  // ---- Replay, one record at a time ----

  lemma ReplaySnoc(s: State, log: seq<Record>, r: Record)
    ensures Replay(s, log + [r]) == ReplayOne(Replay(s, log), r)
  {
    assert (log + [r])[..|log|] == log;
  }

  lemma {:induction false} ReplayFrame(s: State, log: seq<Record>)
    ensures Replay(s, log).maxSnapshots == s.maxSnapshots && Replay(s, log).disabled == s.disabled &&
            Replay(s, log).tracked == s.tracked
  {
    if log != [] {
      ReplayFrame(s, log[..|log| - 1]);
    }
  }

  lemma {:induction false} ReplayDisabled(s: State, log: seq<Record>, disabled: bool)
    ensures Replay(s.(disabled := disabled), log) == Replay(s, log).(disabled := disabled)
  {
    if log != [] {
      ReplayDisabled(s, log[..|log| - 1], disabled);
    }
  }

  predicate Distinct(snapshots: seq<Snapshot>) {
    forall i, j :: 0 <= i < j < |snapshots| ==> snapshots[i].id != snapshots[j].id
  }

  // ---- The log invariant: what the log rebuilds, compared with what is in memory ----

  /** The rebuilt state never counts more snapshots, and still knows the id of the latest one. */
  ghost predicate LogInv(ss: Session) {
    var r, s := Rebuilt(ss), ss.state;
    && r.recordSeq == s.recordSeq
    && r.sequence <= s.sequence
    && (s.snapshots != [] ==> s.snapshots[|s.snapshots| - 1].id in Ids(r.snapshots))
  }

  ghost predicate Exact(ss: Session) {
    var r, s := Rebuilt(ss), ss.state;
    r.snapshots == s.snapshots && r.sequence == s.sequence && Distinct(s.snapshots)
  }

  /** How one record changes what the log rebuilds. */
  lemma LoggedRecord(ss: Session, ss': Session, snapshot: Snapshot, update: bool)
    requires LogInv(ss) && ss.state.maxSnapshots == ss'.state.maxSnapshots && ss.state.maxSnapshots > 0
    requires ss.state.disabled == ss'.state.disabled
    requires ss'.disk.log == ss.disk.log + [Record(ss.state.recordSeq, update, snapshot)]
    requires ss'.state.recordSeq == ss.state.recordSeq + 1
    ensures var r, r' := Rebuilt(ss), Rebuilt(ss');
            && r'.recordSeq == ss'.state.recordSeq
            && snapshot.id in Ids(r'.snapshots)
            && (if snapshot.id in Ids(r.snapshots) then
                  r'.snapshots == ReplaceFirst(r.snapshots, snapshot) && r'.sequence == r.sequence
                else
                  r'.snapshots == Suffix(r.snapshots + [snapshot], ss.state.maxSnapshots) &&
                    r'.sequence == r.sequence + 1)
  {
    var r, r' := Rebuilt(ss), Rebuilt(ss');
    var record := Record(ss.state.recordSeq, update, snapshot);
    ReplaySnoc(Blank(ss.state), ss.disk.log, record);
    assert Blank(ss'.state) == Blank(ss.state);
    ReplayFrame(Blank(ss.state), ss.disk.log);
    if snapshot.id in Ids(r.snapshots) {
      var i :| 0 <= i < |r.snapshots| && r.snapshots[i].id == snapshot.id;
      assert r'.snapshots[i].id == snapshot.id;
    } else {
      assert r'.snapshots[|r'.snapshots| - 1] == snapshot;
    }
  }

  /** Opening a snapshot: the rebuilt counter follows exactly when the id was unknown to the rebuilt state. */
  lemma OpenLogged(ss: Session, ss': Session, snapshot: Snapshot, update: bool)
    requires LogInv(ss) && ss.state.maxSnapshots > 0
    requires ss.state.disabled == ss'.state.disabled
    requires ss'.state.snapshots == Suffix(ss.state.snapshots + [snapshot], ss.state.maxSnapshots)
    requires ss'.state.maxSnapshots == ss.state.maxSnapshots && ss'.state.sequence == ss.state.sequence + 1
    requires ss'.disk.log == ss.disk.log + [Record(ss.state.recordSeq, update, snapshot)]
    requires ss'.state.recordSeq == ss.state.recordSeq + 1
    ensures LogInv(ss')
    ensures Rebuilt(ss).sequence < ss.state.sequence ==> Rebuilt(ss').sequence < ss'.state.sequence
    ensures Exact(ss) && snapshot.id !in Ids(ss.state.snapshots) ==> Exact(ss')
    ensures Exact(ss) && snapshot.id in Ids(ss.state.snapshots) ==> Rebuilt(ss').sequence < ss'.state.sequence
  {
    LoggedRecord(ss, ss', snapshot, update);
    assert ss'.state.snapshots[|ss'.state.snapshots| - 1] == snapshot;
  }

  /** Adding a backup to the latest snapshot: the rebuilt state replaces that snapshot in place. */
  lemma UpdateLogged(ss: Session, p: Path)
    requires LogInv(ss) && ss.state.maxSnapshots > 0 && ss.state.snapshots != []
    ensures var ss' := TrackOnLatest(ss, p);
            && LogInv(ss')
            && (Rebuilt(ss).sequence < ss.state.sequence ==> Rebuilt(ss').sequence < ss'.state.sequence)
            && (Exact(ss) ==> Exact(ss'))
  {
    var last := |ss.state.snapshots| - 1;
    if p !in ss.state.snapshots[last].backups {
      var ss' := TrackOnLatest(ss, p);
      LoggedRecord(ss, ss', ss'.state.snapshots[last], true);
      if Exact(ss) {
        ReplaceFirstUnique(ss.state.snapshots, ss'.state.snapshots[last], last);
      }
    }
  }

  /** A TrackEdit that opens a snapshot logs it once, already with its backup. */
  lemma TrackOpenLogged(ss: Session, p: Path, id: string)
    requires LogInv(ss) && ss.state.maxSnapshots > 0 && OpeningId(ss.state, id).Some?
    ensures var ss' := TrackOnLatest(ss.(state := EnsureLatest(ss.state, id)), p);
            && LogInv(ss')
            && (Rebuilt(ss).sequence < ss.state.sequence ==> Rebuilt(ss').sequence < ss'.state.sequence)
            && (Exact(ss) && OpeningId(ss.state, id).value !in Ids(ss.state.snapshots) ==> Exact(ss'))
            && (Exact(ss) && OpeningId(ss.state, id).value in Ids(ss.state.snapshots) ==>
                Rebuilt(ss').sequence < ss'.state.sequence)
  {
    var s1 := EnsureLatest(ss.state, id);
    var last := |s1.snapshots| - 1;
    assert s1.snapshots[last] == Snapshot(OpeningId(ss.state, id).value, map[]);
    var ss' := TrackOnLatest(ss.(state := s1), p);
    var snapshot := Snapshot(OpeningId(ss.state, id).value, map[p := NewBackup(ss.disk, p, 1)]);
    assert ss'.state.snapshots == Suffix(ss.state.snapshots + [snapshot], ss.state.maxSnapshots);
    OpenLogged(ss, ss', snapshot, true);
  }

  /** What every call does to the comparison, from whether it opens a snapshot under a fresh id. */
  ghost predicate Logged(ss: Session, ss': Session, newId: bool) {
    && LogInv(ss') && ss'.state.maxSnapshots > 0
    && (Rebuilt(ss).sequence < ss.state.sequence ==> Rebuilt(ss').sequence < ss'.state.sequence)
    && (Exact(ss) && newId ==> Exact(ss'))
    && (Exact(ss) && !newId ==> Rebuilt(ss').sequence < ss'.state.sequence)
  }

  lemma SnapLogged(h: History, id: string)
    requires LogInv(h.session) && h.session.state.maxSnapshots > 0
    ensures Logged(h.session, MakeSnapshot(h.session, id), FreshId(h.session.state, Snap(id)))
  {
    var ss := h.session;
    if !ss.state.disabled && !IsLatest(ss.state, id) {
      var snapshot := Snapshot(id, map p | p in ss.state.tracked :: SnapshotBackup(ss.state, ss.disk, p));
      OpenLogged(ss, MakeSnapshot(ss, id), snapshot, false);
    }
  }

  lemma TrackLogged(h: History, p: Path, id: string)
    requires LogInv(h.session) && h.session.state.maxSnapshots > 0
    ensures Logged(h.session, TrackEdit(h.session, p, id), FreshId(h.session.state, Track(p, id)))
  {
    var ss := h.session;
    if !ss.state.disabled {
      if OpeningId(ss.state, id).Some? {
        TrackOpenLogged(ss, p, id);
      } else if ss.state.snapshots != [] {
        UpdateLogged(ss, p);
      }
    }
  }

  lemma ToggleLogged(ss: Session, disabled: bool)
    requires LogInv(ss) && ss.state.maxSnapshots > 0
    ensures Logged(ss, ss.(state := ss.state.(disabled := disabled)), true)
  {
    ReplayDisabled(Blank(ss.state), ss.disk.log, disabled);
    assert Blank(ss.state.(disabled := disabled)) == Blank(ss.state).(disabled := disabled);
  }

  lemma FilesLogged(ss: Session, ss': Session)
    requires LogInv(ss) && ss.state.maxSnapshots > 0
    requires ss'.state == ss.state && ss'.disk.log == ss.disk.log
    ensures Logged(ss, ss', true)
  {
  }

  lemma StepLogged(h: History, e: Event)
    requires LogInv(h.session) && h.session.state.maxSnapshots > 0 && Admissible(h, e)
    ensures Logged(h.session, Step(h, e).session, FreshId(h.session.state, e))
  {
    match e
    case Snap(id) => SnapLogged(h, id);
    case Track(p, id) => TrackLogged(h, p, id);
    case Toggle(disabled) => ToggleLogged(h.session, disabled);
    case _ => FilesLogged(h.session, Step(h, e).session);
  }

  lemma {:induction false} RunLogged(h: History, events: seq<Event>)
    requires Empty(h) && AdmissibleRun(h, events)
    ensures var ss := Run(h, events).session;
            && LogInv(ss) && ss.state.maxSnapshots > 0
            && (if FreshRun(h, events) then Exact(ss) else Rebuilt(ss).sequence < ss.state.sequence)
  {
    if events != [] {
      RunLogged(h, events[..|events| - 1]);
      StepLogged(Run(h, events[..|events| - 1]), events[|events| - 1]);
    }
  }

  /**
   * RestoreStateFromLog rebuilds exactly the state in memory - snapshots, tracked files, both counters -
   * if and only if every snapshot was opened under an id that no retained snapshot carried.
   */
  lemma RestoreIsExactIffIdsFresh(h: History, events: seq<Event>)
    requires Empty(h) && AdmissibleRun(h, events)
    ensures RestoreState(Run(h, events).session) == Run(h, events).session <==> FreshRun(h, events)
  {
    var end := Run(h, events);
    RunLogged(h, events);
    RunKeepsInv(h, events);
    KnownIsTracked(end.session.state);
    TrackedIsBackedUp(end.session.state);
    ReplayFrame(Blank(end.session.state), end.session.disk.log);
  }

  lemma TrackedIsBackedUp(s: State)
    requires Shape(s) && Nested(s.snapshots)
    ensures BackedUp(s.snapshots) == s.tracked
  {
    KnownIsTracked(s);
    if s.snapshots != [] {
      assert forall p | p in s.tracked :: p in s.snapshots[|s.snapshots| - 1].backups;
    }
  }

  /** The retained snapshot ids stay distinct, so a rewind by id names one snapshot. */
  lemma FreshRunDistinct(h: History, events: seq<Event>)
    requires Empty(h) && AdmissibleRun(h, events) && FreshRun(h, events)
    ensures Distinct(Run(h, events).session.state.snapshots)
  {
    RunLogged(h, events);
  }

  // ---- Runs whose restarts are not told what they find ----

  predicate OwedRun(h: History, events: seq<Event>) {
    events == [] || (OwedRun(h, events[..|events| - 1]) &&
                     Owed(Run(h, events[..|events| - 1]).session.state, events[|events| - 1]))
  }

  /** Up to the last restart no snapshot was opened under a retained id. */
  predicate FreshUpToRestarts(h: History, events: seq<Event>) {
    events == [] ||
    (FreshUpToRestarts(h, events[..|events| - 1]) &&
     (events[|events| - 1] == Restart ==> FreshRun(h, events[..|events| - 1])))
  }

  /**
   * In a run that does what it owes, every restart finds a log that replays exactly if and only if ids
   * were fresh up to it.
   */
  lemma {:induction false} RestartsExactIffFresh(h: History, events: seq<Event>)
    requires Empty(h) && OwedRun(h, events)
    ensures AdmissibleRun(h, events) <==> FreshUpToRestarts(h, events)
  {
    if events != [] {
      var before := events[..|events| - 1];
      RestartsExactIffFresh(h, before);
      if AdmissibleRun(h, before) {
        RestoreIsExactIffIdsFresh(h, before);
      }
    }
  }

  lemma {:induction false} FreshRunRestarts(h: History, events: seq<Event>)
    requires FreshRun(h, events)
    ensures FreshUpToRestarts(h, events)
  {
    if events != [] {
      FreshRunRestarts(h, events[..|events| - 1]);
    }
  }

  /**
   * Edits, snapshots, rewinds and restarts in any order: all restarts, and one more at the end, give back
   * exactly what was in memory if and only if no snapshot was ever opened under a retained id.
   */
  lemma AllRestartsExactIffFresh(h: History, events: seq<Event>)
    requires Empty(h) && OwedRun(h, events)
    ensures FreshRun(h, events) <==>
            AdmissibleRun(h, events) && RestoreState(Run(h, events).session) == Run(h, events).session
  {
    RestartsExactIffFresh(h, events);
    if FreshRun(h, events) {
      FreshRunRestarts(h, events);
    }
    if AdmissibleRun(h, events) {
      RestoreIsExactIffIdsFresh(h, events);
    }
  }

  /**
   * The rewind theorem with nothing assumed of what a restart finds: edits follow a TrackEdit, ids are
   * snapshotted before they are tracked under, and up to the last restart they are fresh.
   */
  lemma RewindAfterRestarts(h: History, events: seq<Event>, id: string)
    requires Empty(h) && OwedRun(h, events) && FreshUpToRestarts(h, events)
    ensures RewindExact(Run(h, events), id)
  {
    RestartsExactIffFresh(h, events);
    RewindAfterAnyRun(h, events, id);
  }

  // ---- A run whose restart loses a snapshot ----

  lemma SnapSnoc(h: History, events: seq<Event>, id: string)
    ensures Run(h, events + [Snap(id)]) == Step(Run(h, events), Snap(id))
    ensures OwedRun(h, events + [Snap(id)]) <==> OwedRun(h, events)
    ensures FreshRun(h, events + [Snap(id)]) <==> FreshRun(h, events) && FreshId(Run(h, events).session.state, Snap(id))
  {
    hide Step, FreshId;
    assert (events + [Snap(id)])[..|events|] == events;
  }

  lemma SnapOpens(h: History, id: string)
    requires !h.session.state.disabled && !IsLatest(h.session.state, id)
    requires |h.session.state.snapshots| < h.session.state.maxSnapshots
    ensures var s, s' := h.session.state, Step(h, Snap(id)).session.state;
            && |s'.snapshots| == |s.snapshots| + 1 && s'.snapshots[|s.snapshots|].id == id
            && (forall i | 0 <= i < |s.snapshots| :: s'.snapshots[i] == s.snapshots[i])
            && !s'.disabled && s'.maxSnapshots == s.maxSnapshots
  {
  }

  function Reused(): seq<Event> {
    [Snap("1"), Snap("2"), Snap("1")]
  }

  lemma ReusedRun(h: History)
    ensures OwedRun(h, Reused()) && FreshUpToRestarts(h, Reused())
    ensures FreshRun(h, Reused()) ==> FreshId(Step(Step(h, Snap("1")), Snap("2")).session.state, Snap("1"))
  {
    hide Step, FreshId;
    var none: seq<Event> := [];
    var one := none + [Snap("1")];
    var two := one + [Snap("2")];
    assert Reused() == two + [Snap("1")];
    SnapSnoc(h, none, "1");
    SnapSnoc(h, one, "2");
    SnapSnoc(h, two, "1");
    SnapsNoRestart(h, Reused());
  }

  lemma ReusedNotFresh(h: History)
    requires !h.session.state.disabled && h.session.state.snapshots == [] && h.session.state.maxSnapshots >= 2
    ensures !FreshId(Step(Step(h, Snap("1")), Snap("2")).session.state, Snap("1"))
  {
    hide Step;
    SnapOpens(h, "1");
    SnapOpens(Step(h, Snap("1")), "2");
    var s := Step(Step(h, Snap("1")), Snap("2")).session.state;
    assert s.snapshots[0].id == "1" && s.snapshots[1].id == "2" && "1" != "2";
  }

  /** The first id is used again while its snapshot is retained: the log replaces that one instead of adding another. */
  lemma ReusedIdLost(h: History)
    requires Empty(h) && !h.session.state.disabled && h.session.state.maxSnapshots >= 2
    ensures OwedRun(h, Reused()) && RestoreState(Run(h, Reused()).session) != Run(h, Reused()).session
  {
    hide Run, OwedRun, FreshRun, FreshUpToRestarts, AdmissibleRun, Step, FreshId, RestoreState, Reused;
    ReusedRun(h);
    ReusedNotFresh(h);
    RestartsExactIffFresh(h, Reused());
    AllRestartsExactIffFresh(h, Reused());
  }

  lemma {:induction false} SnapsNoRestart(h: History, events: seq<Event>)
    requires Restart !in events
    ensures FreshUpToRestarts(h, events)
  {
    if events != [] {
      SnapsNoRestart(h, events[..|events| - 1]);
    }
  }
}
