/**
 * A TrackEdit under an id that was not snapshotted opens an empty snapshot of its own, as happens when
 * MakeSnapshot failed and its caller went on. When rewinds stay exact all the same, and how they stop being so.
 */
module CheckpointOrder {
  import opened Common
  import opened Checkpoint
  import opened CheckpointRewind
  import opened CheckpointLog

  /** Rewinding to the id brings p back to what it was when the snapshot of that id was opened. */
  predicate RewindsTo(h: History, id: string, p: Path) {
    match Find(h.session.state.snapshots, id)
    case None => true
    case Some(i) => i < |h.trees| && View(Rewind(h.session, id).value.0.disk.files, p) == View(h.trees[i], p)
  }

  ghost predicate RewindsExactly(h: History) {
    forall id, p :: RewindsTo(h, id, p)
  }

  predicate OpensItself(s: State, id: string) {
    !s.disabled && OpeningId(s, id).Some?
  }

  /** The snapshots that opening one more leaves. */
  function Left(s: State): seq<Snapshot> {
    if s.maxSnapshots == 0 then [] else s.snapshots[Excess(|s.snapshots| + 1, s.maxSnapshots)..]
  }

  /** Snapshot k of those left can still be asked for by its id once `name` is opened. */
  predicate Findable(left: seq<Snapshot>, k: nat, name: string) {
    k < |left| && left[k].id != name && Find(left, left[k].id) == Some(k)
  }

  /** The backup stands for what the path holds now. */
  predicate Current(d: Disk, p: Path, b: Backup) {
    (b.name == NoFile || b.name in d.store) && BackupContent(d.store, b) == View(d.files, p)
  }

  /** What a rewind to snapshot k would use for p is not a first copy that p has since departed from. */
  predicate CopyCurrent(s: State, d: Disk, p: Path, k: nat)
    requires k < |Left(s)|
  {
    var b := BackupFor(s.(snapshots := Left(s)), k, p);
    p in d.files && b.Some? && b.value.name == Versioned(p, 1) ==> Current(d, p, b.value)
  }

  /** What the oldest backup left says of q is what q holds. */
  predicate OldestCurrent(s: State, d: Disk, q: Path) {
    var b := Earliest(Left(s), q);
    b.Some? ==> Current(d, q, b.value)
  }

  /** What a caller can check before a call that opens a snapshot called `name`. */
  predicate Harmless(s: State, d: Disk, p: Path, name: string) {
    && (forall k | 0 <= k < |Left(s)| && Findable(Left(s), k, name) :: CopyCurrent(s, d, p, k))
    && (forall q | q in s.tracked && q != p :: OldestCurrent(s, d, q))
  }

  // ---- What such a call leaves behind ----

  lemma Lengths(h: History)
    requires Inv(h)
    ensures |h.trees| == |h.session.state.snapshots| && h.session.state.maxSnapshots > 0
  {
    hide Nested, BackupsTrue, VersionsRise, UnbackedStill, UntrackedStill, ClockSound;
  }

  lemma Opened(h: History, p: Path, id: string)
    requires Inv(h) && OpensItself(h.session.state, id)
    ensures var s, d := h.session.state, h.session.disk;
            var h' := Step(h, Track(p, id));
            var s', d' := h'.session.state, h'.session.disk;
            && |h.trees| == |s.snapshots| && s.maxSnapshots > 0
            && s'.snapshots == Left(s) + [Snapshot(OpeningId(s, id).value, map[p := NewBackup(d, p, 1)])]
            && s'.tracked == s.tracked + {p}
            && d'.files == d.files && d'.store == StoreCopy(d, p, 1)
            && h'.trees == h.trees[Excess(|h.trees| + 1, s.maxSnapshots)..] + [d.files]
  {
    hide Inv;
    Lengths(h);
    var s := h.session.state;
    var s1 := EnsureLatest(s, id);
    assert s1.snapshots == Left(s) + [Snapshot(OpeningId(s, id).value, map[])];
  }

  lemma LeftTracks(h: History, q: Path)
    requires Inv(h)
    ensures q in h.session.state.tracked && Left(h.session.state) != [] ==>
            q in Left(h.session.state)[|Left(h.session.state)| - 1].backups
    ensures q !in h.session.state.tracked ==>
            forall k | 0 <= k < |Left(h.session.state)| :: q !in Left(h.session.state)[k].backups
  {
    var s := h.session.state;
    assert forall i | 0 <= i < |s.snapshots| && q in s.snapshots[i].backups ::
           q in s.snapshots[|s.snapshots| - 1].backups;
  }

  lemma {:induction false} EarliestExtended(left: seq<Snapshot>, last: Snapshot, q: Path)
    ensures Earliest(left + [last], q) ==
            if Earliest(left, q).Some? then Earliest(left, q)
            else if q in last.backups then Some(last.backups[q])
            else None
  {
    if left == [] {
      assert left + [last] == [last];
    } else {
      assert (left + [last])[1..] == left[1..] + [last];
      EarliestExtended(left[1..], last, q);
    }
  }

  lemma {:induction false} EarliestNone(snapshots: seq<Snapshot>, q: Path)
    ensures Earliest(snapshots, q).None? <==> forall k | 0 <= k < |snapshots| :: q !in snapshots[k].backups
  {
    if snapshots != [] {
      EarliestNone(snapshots[1..], q);
      assert forall k | 1 <= k < |snapshots| :: snapshots[k] == snapshots[1..][k - 1];
    }
  }

  /** What a rewind makes of one path, by the backup it picks. */
  lemma RestoredView(s: State, d: Disk, i: nat, q: Path)
    requires i < |s.snapshots|
    ensures var b := BackupFor(s, i, q);
            && (b.None? ==> View(Restored(s, d, i, Known(s)), q) == View(d.files, q))
            && (b.Some? && q in Known(s) && (b.value.name == NoFile || b.value.name in d.store) ==>
                  View(Restored(s, d, i, Known(s)), q) == BackupContent(d.store, b.value))
            && (q !in Known(s) ==> View(Restored(s, d, i, Known(s)), q) == View(d.files, q))
  {
  }

  lemma LeftInv(h: History)
    requires Inv(h) && Left(h.session.state) != []
    ensures var s := h.session.state;
            |h.trees| == |s.snapshots| &&
            Inv(History(h.session.(state := s.(snapshots := Left(s))),
                        h.trees[Excess(|h.trees| + 1, s.maxSnapshots)..]))
  {
    hide PastTrue, FreshOrEqual;
    var s, d := h.session.state, h.session.disk;
    Lengths(h);
    EvictKeeps(s.snapshots, s.tracked, d.files, d.store, h.trees, Excess(|s.snapshots| + 1, s.maxSnapshots));
  }

  /** What is known of the copies of the snapshots left: they stand for what was there when those were opened. */
  lemma LeftTrue(h: History, k: nat, q: Path)
    requires Inv(h) && k < |Left(h.session.state)| && |h.trees| == |h.session.state.snapshots|
    ensures var s, d := h.session.state, h.session.disk;
            var tree := h.trees[Excess(|h.trees| + 1, s.maxSnapshots)..][k];
            var b := BackupFor(s.(snapshots := Left(s)), k, q);
            && (q in s.tracked ==>
                  b.Some? && (b.value.name == NoFile || (b.value.name in d.store && b.value.name.path == q)) &&
                  BackupContent(d.store, b.value) == View(tree, q))
            && (q !in s.tracked ==> b.None? && View(tree, q) == View(d.files, q))
  {
    LeftInv(h);
    var s := h.session.state;
    var left := History(h.session.(state := s.(snapshots := Left(s))),
                        h.trees[Excess(|h.trees| + 1, s.maxSnapshots)..]);
    LeftTracks(h, q);
    if q in s.tracked {
      hide FreshOrEqual;
      BackupForIsTrue(left, k, q);
      NameOfPath(left, k, q);
    } else {
      hide FreshOrEqual, BackupTrue;
      EarliestNone(Left(s), q);
    }
  }

  lemma NameOfPath(h: History, k: nat, q: Path)
    requires Inv(h) && k < |h.session.state.snapshots| && q in h.session.state.tracked
    ensures var b := BackupFor(h.session.state, k, q);
            b.Some? && (b.value.name == NoFile || b.value.name.path == q)
  {
    var s := h.session.state;
    var e: nat := k;
    if q !in s.snapshots[k].backups {
      e := EarliestIndex(s.snapshots, q, |s.snapshots| - 1);
    }
    assert BackupTrue(h.session.disk.store, q, s.snapshots[e].backups[q], h.trees[e]);
  }

  /** The rewind to a snapshot left over from before. */
  lemma OldSnapshot(h: History, p: Path, id: string, k: nat, q: Path)
    requires Inv(h) && OpensItself(h.session.state, id)
    requires Findable(Left(h.session.state), k, OpeningId(h.session.state, id).value)
    ensures RewindsTo(Step(h, Track(p, id)), Left(h.session.state)[k].id, q) <==>
            (q == p ==> CopyCurrent(h.session.state, h.session.disk, p, k))
  {
    hide Inv, TrackEdit;
    var s, d := h.session.state, h.session.disk;
    var h' := Step(h, Track(p, id));
    var s' := h'.session.state;
    Opened(h, p, id);
    LeftTrue(h, k, q);
    RestoredView(s', h'.session.disk, k, q);
    EarliestExtended(Left(s), s'.snapshots[|Left(s)|], q);
    assert Find(s'.snapshots, Left(s)[k].id) == Some(k);
    var b, b' := BackupFor(s.(snapshots := Left(s)), k, q), BackupFor(s', k, q);
    assert s'.snapshots[k] == Left(s)[k];
    assert h'.trees[k] == h.trees[Excess(|h.trees| + 1, s.maxSnapshots)..][k];
    if q in s.tracked {
      assert b' == b;
    } else if q == p {
      assert b' == Some(NewBackup(d, p, 1));
    } else {
      assert b'.None?;
    }
  }

  /** The rewind to the snapshot the call opened. */
  lemma NewSnapshot(h: History, p: Path, id: string, q: Path)
    requires Inv(h) && OpensItself(h.session.state, id)
    ensures RewindsTo(Step(h, Track(p, id)), OpeningId(h.session.state, id).value, q) <==>
            (q in h.session.state.tracked && q != p ==> OldestCurrent(h.session.state, h.session.disk, q))
  {
    hide Inv, TrackEdit, EnsureLatest;
    var s, d := h.session.state, h.session.disk;
    var h' := Step(h, Track(p, id));
    var s' := h'.session.state;
    var last := |Left(s)|;
    Opened(h, p, id);
    assert s'.snapshots[last].id == OpeningId(s, id).value;
    assert h'.trees[last] == d.files;
    RestoredView(s', h'.session.disk, last, q);
    EarliestExtended(Left(s), s'.snapshots[last], q);
    if last > 0 {
      LeftTrue(h, 0, q);
      EarliestIsFirst(s.(snapshots := Left(s)), q);
    }
  }

  lemma EarliestIsFirst(s: State, q: Path)
    requires s.snapshots != []
    ensures BackupFor(s, 0, q) == Earliest(s.snapshots, q)
  {
  }

  lemma ExactUnderInv(h: History)
    requires Inv(h)
    ensures RewindsExactly(h)
  {
    forall id, p ensures RewindsTo(h, id, p) {
      if Find(h.session.state.snapshots, id).Some? {
        RewindRestores(h, id, p);
      }
    }
  }

  /**
   * A TrackEdit keeps every rewind exact if and only if it opens no snapshot of its own, or its path has not
   * departed from a first copy still in use and no other path has departed from its oldest backup.
   */
  lemma TrackExactIff(h: History, p: Path, id: string)
    requires Inv(h)
    ensures RewindsExactly(Step(h, Track(p, id))) <==>
            (OpensItself(h.session.state, id) ==>
               Harmless(h.session.state, h.session.disk, p, OpeningId(h.session.state, id).value))
  {
    var s, d := h.session.state, h.session.disk;
    var h' := Step(h, Track(p, id));
    if !OpensItself(s, id) {
      TrackKeepsInv(h, p, id);
      ExactUnderInv(h');
    } else if RewindsExactly(h') {
      hide Inv, Step, RewindsTo, CopyCurrent, OldestCurrent;
      var name := OpeningId(s, id).value;
      forall k | 0 <= k < |Left(s)| && Findable(Left(s), k, name) ensures CopyCurrent(s, d, p, k) {
        OldSnapshot(h, p, id, k, p);
        assert RewindsTo(h', Left(s)[k].id, p);
      }
      forall q | q in s.tracked && q != p ensures OldestCurrent(s, d, q) {
        NewSnapshot(h, p, id, q);
        assert RewindsTo(h', name, q);
      }
    } else if Harmless(s, d, p, OpeningId(s, id).value) {
      hide Inv, Step, CopyCurrent, OldestCurrent;
      forall x, q ensures RewindsTo(h', x, q) {
        HarmlessExact(h, p, id, x, q);
      }
    }
  }

  lemma HarmlessExact(h: History, p: Path, id: string, x: string, q: Path)
    requires Inv(h) && OpensItself(h.session.state, id)
    requires Harmless(h.session.state, h.session.disk, p, OpeningId(h.session.state, id).value)
    ensures RewindsTo(Step(h, Track(p, id)), x, q)
  {
    hide Inv, TrackEdit, CopyCurrent, OldestCurrent;
    var s := h.session.state;
    var s' := Step(h, Track(p, id)).session.state;
    Opened(h, p, id);
    match Find(s'.snapshots, x)
    case None =>
    case Some(k) =>
      if k == |Left(s)| {
        NewSnapshot(h, p, id, q);
      } else {
        assert s'.snapshots[|Left(s)|].id != x;
        assert forall i | k < i < |Left(s)| :: s'.snapshots[i] == Left(s)[i];
        assert s'.snapshots[k] == Left(s)[k];
        OldSnapshot(h, p, id, k, q);
      }
  }

  // ---- Two runs of a fresh checkpointer that lose the guarantee ----

  lemma RunSnoc(h: History, events: seq<Event>, e: Event)
    ensures Run(h, events + [e]) == Step(Run(h, events), e)
    ensures OwedRun(h, events + [e]) <==> OwedRun(h, events) && Owed(Run(h, events).session.state, e)
  {
    hide Step, Owed;
    assert (events + [e])[..|events|] == events;
  }

  /** The first message: its snapshot, one file tracked and rewritten. */
  function FirstMessage(p: Path, data: string, mode: nat): seq<Event> {
    [Snap("1"), Track(p, "1"), Write(p, data, mode)]
  }

  lemma FirstSnapshot(h: History)
    requires Empty(h) && !h.session.state.disabled
    ensures var h1 := Step(h, Snap("1"));
            var s, d := h1.session.state, h.session.disk;
            && s.snapshots == [Snapshot("1", map[])] && s.tracked == {} && !s.disabled &&
               s.maxSnapshots == h.session.state.maxSnapshots
            && h1.trees == [d.files] && h1.session.disk == d.(log := h1.session.disk.log)
  {
    var h1 := Step(h, Snap("1"));
    assert h1.session.disk.store == h.session.disk.store;
    assert h.trees + [h.session.disk.files] == [h.session.disk.files];
  }

  lemma FirstTrack(h: History, p: Path)
    requires !h.session.state.disabled && p in h.session.disk.files
    requires h.session.state.snapshots == [Snapshot("1", map[])] && h.session.state.tracked == {}
    ensures var h2 := Step(h, Track(p, "1"));
            var s, d := h2.session.state, h.session.disk;
            && s.snapshots == [Snapshot("1", map[p := Backup(Versioned(p, 1), 1, d.now)])] && h2.trees == h.trees
            && s.tracked == {p} && !s.disabled && s.maxSnapshots == h.session.state.maxSnapshots
            && h2.session.disk.now == d.now && h2.session.disk.files == d.files
            && h2.session.disk.store == d.store[Versioned(p, 1) := d.files[p].(mtime := d.now)]
  {
  }

  lemma AfterFirstMessage(h: History, p: Path, data: string, mode: nat)
    requires Empty(h) && !h.session.state.disabled && p in h.session.disk.files
    ensures var h3 := Run(h, FirstMessage(p, data, mode));
            var s, d, b := h3.session.state, h.session.disk, Backup(Versioned(p, 1), 1, h.session.disk.now);
            && OwedRun(h, FirstMessage(p, data, mode))
            && s.snapshots == [Snapshot("1", map[p := b])] && h3.trees == [d.files]
            && s.tracked == {p} && !s.disabled && s.maxSnapshots == h.session.state.maxSnapshots
            && h3.session.disk.now == d.now && h3.session.disk.files == d.files[p := File(data, mode, d.now)]
            && h3.session.disk.store == d.store[Versioned(p, 1) := d.files[p].(mtime := d.now)]
  {
    var none: seq<Event> := [];
    RunSnoc(h, none, Snap("1"));
    RunSnoc(h, none + [Snap("1")], Track(p, "1"));
    RunSnoc(h, none + [Snap("1")] + [Track(p, "1")], Write(p, data, mode));
    assert FirstMessage(p, data, mode) == none + [Snap("1")] + [Track(p, "1")] + [Write(p, data, mode)];
    assert Run(h, none) == h && OwedRun(h, none);
    FirstSnapshot(h);
    FirstTrack(Step(h, Snap("1")), p);
    hide Run, OwedRun, FirstMessage, MakeSnapshot, TrackEdit, Call;
  }

  lemma TwoSnapshots(s: State, p: Path, q: Path, b: Backup, c: Backup)
    requires s.snapshots == [Snapshot("1", map[q := b]), Snapshot("2", map[p := c])]
    ensures BackupFor(s, 0, q) == Some(b) && (p != q ==> BackupFor(s, 1, q) == Some(b))
    ensures Find(s.snapshots, "1") == Some(0) && Find(s.snapshots, "2") == Some(1)
    ensures q in Known(s)
  {
    assert s.snapshots[0].id == "1" && s.snapshots[1].id == "2" && "1" != "2";
    assert q in s.snapshots[0].backups;
  }

  /** The second message tracks a file under an id that was not snapshotted. */
  lemma AfterSecondTrack(h: History, p: Path, q: Path, data: string, mode: nat)
    requires Empty(h) && !h.session.state.disabled && h.session.state.maxSnapshots >= 2 && q in h.session.disk.files
    ensures var d3 := Run(h, FirstMessage(q, data, mode)).session.disk;
            var h4 := Run(h, FirstMessage(q, data, mode) + [Track(p, "2")]);
            var s, d := h4.session.state, h4.session.disk;
            && s.snapshots == [Snapshot("1", map[q := Backup(Versioned(q, 1), 1, h.session.disk.now)]),
                               Snapshot("2", map[p := NewBackup(d3, p, 1)])]
            && h4.trees == [h.session.disk.files, d3.files]
            && d.files == d3.files && d.store == StoreCopy(d3, p, 1)
  {
    var events := FirstMessage(q, data, mode);
    RunSnoc(h, events, Track(p, "2"));
    AfterFirstMessage(h, q, data, mode);
    hide Run, OwedRun, FirstMessage, Known, Find, Latest, Earliest;
    var h3 := Run(h, events);
    assert EnsureLatest(h3.session.state, "2").snapshots == h3.session.state.snapshots + [Snapshot("2", map[])];
  }

  /**
   * Tracking the same file again under the new id copies its new content over the old: "1" no longer brings that back.
   */
  lemma FirstCopyOverwritten(h: History, p: Path, data: string, mode: nat)
    requires Empty(h) && !h.session.state.disabled && h.session.state.maxSnapshots >= 2 && p in h.session.disk.files
    ensures var events := FirstMessage(p, data, mode);
            var end := Run(h, events + [Track(p, "2")]);
            && OwedRun(h, events) && Find(end.session.state.snapshots, "1") == Some(0) && |end.trees| == 2
            && View(end.trees[0], p) == View(h.session.disk.files, p)
            && View(Rewind(end.session, "1").value.0.disk.files, p) == Present(data, mode)
  {
    AfterFirstMessage(h, p, data, mode);
    AfterSecondTrack(h, p, p, data, mode);
    hide Run, OwedRun, FirstMessage, BackupFor, Find, Known, Restored, Step, Owed;
    var d3 := Run(h, FirstMessage(p, data, mode)).session.disk;
    var end := Run(h, FirstMessage(p, data, mode) + [Track(p, "2")]);
    TwoSnapshots(end.session.state, p, p, Backup(Versioned(p, 1), 1, h.session.disk.now), NewBackup(d3, p, 1));
    RestoredView(end.session.state, end.session.disk, 0, p);
  }

  /** Tracking another file under the new id leaves the first out of its snapshot: "2" takes it back to "1". */
  lemma OtherPathFallsBack(h: History, p: Path, q: Path, data: string, mode: nat)
    requires Empty(h) && !h.session.state.disabled && h.session.state.maxSnapshots >= 2 && q in h.session.disk.files
    requires p != q
    ensures var events := FirstMessage(q, data, mode);
            var end := Run(h, events + [Track(p, "2")]);
            && OwedRun(h, events) && Find(end.session.state.snapshots, "2") == Some(1) && |end.trees| == 2
            && View(end.trees[1], q) == Present(data, mode)
            && View(Rewind(end.session, "2").value.0.disk.files, q) == View(h.session.disk.files, q)
  {
    AfterFirstMessage(h, q, data, mode);
    AfterSecondTrack(h, p, q, data, mode);
    hide Run, OwedRun, FirstMessage, BackupFor, Find, Known, Restored, Step, Owed;
    var d3 := Run(h, FirstMessage(q, data, mode)).session.disk;
    var end := Run(h, FirstMessage(q, data, mode) + [Track(p, "2")]);
    assert Versioned(q, 1) in d3.store &&
           d3.store[Versioned(q, 1)] == h.session.disk.files[q].(mtime := h.session.disk.now);
    assert Versioned(q, 1) in end.session.disk.store &&
           end.session.disk.store[Versioned(q, 1)] == d3.store[Versioned(q, 1)];
    hide StoreCopy, NewBackup;
    TwoSnapshots(end.session.state, p, q, Backup(Versioned(q, 1), 1, h.session.disk.now), NewBackup(d3, p, 1));
    RestoredView(end.session.state, end.session.disk, 1, q);
  }
}
