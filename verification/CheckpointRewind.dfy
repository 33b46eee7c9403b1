/**
 * Rewinding restores: over every run of edits, snapshots, evictions, rewinds and restarts,
 * a rewind to a retained snapshot brings every tracked file back to what it was when that
 * snapshot was opened. A ghost full copy of the workspace is kept per retained snapshot.
 */
module CheckpointRewind {
  import opened Common
  import opened Checkpoint

  /** `trees[i]` is the whole workspace at the moment snapshot i was opened. */
  datatype History = History(session: Session, trees: seq<map<Path, File>>)

  datatype Event =
    | Snap(id: string)
    | Track(path: Path, id: string)
    | Write(path: Path, data: string, mode: nat)
    | Delete(path: Path)
    | Chmod(path: Path, mode: nat)
    | Tick(ticks: nat)
    | Rewound(id: string)
    | Toggle(disabled: bool)
    | Restart

  predicate Opens(ss: Session, ss': Session) {
    ss'.state.sequence != ss.state.sequence
  }

  function SetFiles(h: History, files: map<Path, File>): History {
    h.(session := h.session.(disk := h.session.disk.(files := files)))
  }

  function Call(h: History, ss': Session): History {
    var d := h.session.disk;
    History(ss', if Opens(h.session, ss') then Suffix(h.trees + [d.files], ss'.state.maxSnapshots) else h.trees)
  }

  function Step(h: History, e: Event): History {
    var ss := h.session;
    var s, d := ss.state, ss.disk;
    match e
    case Snap(id) => Call(h, MakeSnapshot(ss, id))
    case Track(p, id) => Call(h, TrackEdit(ss, p, id))
    case Write(p, data, mode) => SetFiles(h, d.files[p := File(data, mode, d.now)])
    case Delete(p) => SetFiles(h, d.files - {p})
    case Chmod(p, mode) => if p in d.files then SetFiles(h, d.files[p := d.files[p].(mode := mode)]) else h
    case Tick(ticks) => h.(session := ss.(disk := d.(now := d.now + ticks)))
    case Rewound(id) => (match Rewind(ss, id) case None => h case Some(r) => h.(session := r.0))
    case Toggle(disabled) => h.(session := ss.(state := s.(disabled := disabled)))
    case Restart => h.(session := RestoreState(ss))
  }

  /** The call opens no snapshot behind the back of files that are already tracked. */
  predicate TrackOrdered(s: State, id: string) {
    s.disabled || s.tracked == {} || OpeningId(s, id).None?
  }

  /** What the environment owes: edits follow a TrackEdit that had effect, under an id that was snapshotted. */
  predicate Owed(s: State, e: Event) {
    match e
    case Track(p, id) => TrackOrdered(s, id)
    case Write(p, _, _) => p in s.tracked
    case Delete(p) => p in s.tracked
    case Chmod(p, _) => p in s.tracked
    case _ => true
  }

  /** And a restart finds a log that replays exactly; `CheckpointLog` says when it does. */
  predicate Admissible(h: History, e: Event) {
    Owed(h.session.state, e) && (e == Restart ==> RestoreState(h.session) == h.session)
  }

  function Run(h: History, events: seq<Event>): History {
    if events == [] then h else Step(Run(h, events[..|events| - 1]), events[|events| - 1])
  }

  predicate AdmissibleRun(h: History, events: seq<Event>) {
    events == [] || (AdmissibleRun(h, events[..|events| - 1]) &&
                     Admissible(Run(h, events[..|events| - 1]), events[|events| - 1]))
  }

  /** A fresh checkpointer over any workspace. */
  predicate Initial(h: History) {
    var s := h.session.state;
    s.maxSnapshots > 0 && s.snapshots == [] && s.tracked == {} && h.trees == []
  }

  // ---- The invariant ----

  ghost predicate Nested(snapshots: seq<Snapshot>) {
    forall i, j, p {:trigger p in snapshots[i].backups, p in snapshots[j].backups} |
      0 <= i <= j < |snapshots| && p in snapshots[i].backups :: p in snapshots[j].backups
  }

  /** Once a path is backed up, every later snapshot backs it up; the tracked paths are those of the latest. */
  ghost predicate Shape(s: State) {
    && s.maxSnapshots > 0
    && |s.snapshots| <= s.maxSnapshots
    && s.tracked == if s.snapshots == [] then {} else s.snapshots[|s.snapshots| - 1].backups.Keys
  }

  ghost predicate BackupTrue(store: map<BackupName, File>, p: Path, b: Backup, tree: map<Path, File>) {
    && (b.name == NoFile || (b.name == Versioned(p, b.version) && b.name in store))
    && BackupContent(store, b) == View(tree, p)
  }

  /** Every retained backup holds what its path held when the snapshot was opened. */
  ghost predicate BackupsTrue(snapshots: seq<Snapshot>, store: map<BackupName, File>, trees: seq<map<Path, File>>)
    requires |snapshots| == |trees|
  {
    forall i, p | 0 <= i < |snapshots| && p in snapshots[i].backups ::
      BackupTrue(store, p, snapshots[i].backups[p], trees[i])
  }

  /** Versions never fall, so the next version is the name of no retained backup. */
  ghost predicate VersionsRise(snapshots: seq<Snapshot>) {
    forall i, j, p | 0 <= i <= j < |snapshots| && p in snapshots[i].backups && p in snapshots[j].backups ::
      snapshots[i].backups[p].version <= snapshots[j].backups[p].version
  }

  /** A path not yet backed up in snapshot j - 1 did not change up to the opening of snapshot j. */
  ghost predicate UnbackedStill(snapshots: seq<Snapshot>, trees: seq<map<Path, File>>)
    requires |snapshots| == |trees|
  {
    forall i, j, p | 0 <= i < j < |snapshots| && p !in snapshots[j - 1].backups ::
        View(trees[i], p) == View(trees[j], p)
  }

  ghost predicate UntrackedStill(tracked: set<Path>, files: map<Path, File>, trees: seq<map<Path, File>>) {
    forall i, p | 0 <= i < |trees| && p !in tracked :: View(trees[i], p) == View(files, p)
  }

  /** What the modification-time shortcut relies on. */
  ghost predicate ClockSound(s: State, d: Disk) {
    s.snapshots != [] ==>
      var last := s.snapshots[|s.snapshots| - 1].backups;
      forall p | p in last :: FreshOrEqual(d, p, last[p])
  }

  ghost predicate FreshOrEqual(d: Disk, p: Path, b: Backup) {
    && b.time <= d.now
    && (b.name != NoFile && b.name in d.store && p in d.files && d.files[p].mtime < b.time ==>
          d.files[p].data == d.store[b.name].data)
  }

  /** All that the invariant says about the past: it survives eviction of the oldest snapshots. */
  ghost predicate PastTrue(snapshots: seq<Snapshot>, tracked: set<Path>, files: map<Path, File>,
                           store: map<BackupName, File>, trees: seq<map<Path, File>>)
  {
    && |snapshots| == |trees|
    && Nested(snapshots)
    && BackupsTrue(snapshots, store, trees)
    && VersionsRise(snapshots)
    && UnbackedStill(snapshots, trees)
    && UntrackedStill(tracked, files, trees)
  }

  ghost predicate Inv(h: History) {
    var s, d := h.session.state, h.session.disk;
    && Shape(s)
    && PastTrue(s.snapshots, s.tracked, d.files, d.store, h.trees)
    && ClockSound(s, d)
  }

  // ---- Lookups under the invariant ----

  lemma LatestIsLast(s: State, p: Path)
    requires Shape(s) && p in s.tracked
    ensures Latest(s.snapshots, p) == Some(s.snapshots[|s.snapshots| - 1].backups[p])
  {
  }

  lemma {:induction false} EarliestIndex(snapshots: seq<Snapshot>, p: Path, i: nat) returns (e: nat)
    requires i < |snapshots| && p in snapshots[i].backups
    ensures e <= i && p in snapshots[e].backups
    ensures forall k :: 0 <= k < e ==> p !in snapshots[k].backups
    ensures Earliest(snapshots, p) == Some(snapshots[e].backups[p])
  {
    if p in snapshots[0].backups {
      e := 0;
    } else {
      var e' := EarliestIndex(snapshots[1..], p, i - 1);
      e := e' + 1;
      forall k | 0 <= k < e ensures p !in snapshots[k].backups {
        if k > 0 {
          assert snapshots[k] == snapshots[1..][k - 1];
        }
      }
    }
  }

  /** A backup that is kept still equals the file: the shortcut never keeps a stale one. */
  lemma UnchangedIsTrue(d: Disk, p: Path, b: Backup)
    requires b.name == NoFile || b.name in d.store
    requires FreshOrEqual(d, p, b)
    requires !FileChanged(d, p, b)
    ensures BackupContent(d.store, b) == View(d.files, p)
  {
  }

  /** And a file that still equals its backup is not taken for a changed one, */
  lemma ChangedIsTrue(d: Disk, p: Path, b: Backup)
    requires b.name == NoFile || b.name in d.store
    requires FileChanged(d, p, b)
    ensures BackupContent(d.store, b) != View(d.files, p)
  {
  }

  /** so a snapshot reuses the latest backup of a tracked path, unless its content changed, and copies no other file. */
  lemma CopiesOnlyChanged(h: History, id: string, p: Path)
    requires Inv(h) && p in h.session.state.tracked && !h.session.state.disabled && !IsLatest(h.session.state, id)
    ensures var s, d, s' := h.session.state, h.session.disk, MakeSnapshot(h.session, id).state;
            var last := |s.snapshots| - 1;
            && last >= 0 && p in s.snapshots[last].backups && s'.snapshots != []
            && p in s'.snapshots[|s'.snapshots| - 1].backups
            && var was, b := s.snapshots[last].backups[p], s'.snapshots[|s'.snapshots| - 1].backups[p];
               (was.name == NoFile || was.name in d.store) &&
               if BackupContent(d.store, was) == View(d.files, p) then b == was
               else b.version == was.version + 1 && b.time == d.now &&
                    b.name == if p in d.files then Versioned(p, was.version + 1) else NoFile
  {
    hide FreshOrEqual, FileChanged, CopyChanged;
    var s, d := h.session.state, h.session.disk;
    var last := |s.snapshots| - 1;
    LatestIsLast(s, p);
    var was := s.snapshots[last].backups[p];
    assert BackupTrue(d.store, p, was, h.trees[last]);
    assert FreshOrEqual(d, p, was);
    if FileChanged(d, p, was) {
      ChangedIsTrue(d, p, was);
    } else {
      UnchangedIsTrue(d, p, was);
    }
    var snapshot := Snapshot(id, map q | q in s.tracked :: SnapshotBackup(s, d, q));
    var s' := MakeSnapshot(h.session, id).state;
    assert s'.snapshots[|s'.snapshots| - 1] == snapshot;
  }

  /** The content a new snapshot records for a tracked path is the path's content now. */
  lemma SnapshotBackupTrue(h: History, p: Path)
    requires Inv(h) && p in h.session.state.tracked
    ensures var s, d := h.session.state, h.session.disk;
            var store := CopyChanged(s, d, s.tracked);
            BackupTrue(store, p, SnapshotBackup(s, d, p), d.files)
    ensures var s, d := h.session.state, h.session.disk;
            FreshOrEqual(d.(store := CopyChanged(s, d, s.tracked)), p, SnapshotBackup(s, d, p))
    ensures var s := h.session.state;
            forall i | 0 <= i < |s.snapshots| && p in s.snapshots[i].backups ::
              s.snapshots[i].backups[p].version <= SnapshotBackup(s, h.session.disk, p).version
  {
    var s, d := h.session.state, h.session.disk;
    var last := |s.snapshots| - 1;
    LatestIsLast(s, p);
    var b := s.snapshots[last].backups[p];
    assert BackupTrue(d.store, p, b, h.trees[last]);
    var store := CopyChanged(s, d, s.tracked);
    if FileChanged(d, p, b) {
      if p in d.files {
        assert Copies(s, d, p);
        CopyTaken(s, d, s.tracked, p);
      }
    } else {
      UnchangedIsTrue(d, p, b);
      CopiesElsewhere(h, p, b);
    }
  }

  lemma CopyTaken(s: State, d: Disk, paths: set<Path>, p: Path)
    requires p in paths && Copies(s, d, p)
    ensures var name := SnapshotBackup(s, d, p).name;
            name in CopyChanged(s, d, paths) && CopyChanged(s, d, paths)[name] == d.files[p].(mtime := d.now)
  {
    assert CopiedTo(s, d, paths, SnapshotBackup(s, d, p).name);
  }

  /** Taking new copies overwrites no retained backup. */
  lemma CopiesElsewhere(h: History, p: Path, b: Backup)
    requires Inv(h)
    requires exists i :: 0 <= i < |h.session.state.snapshots| && p in h.session.state.snapshots[i].backups &&
                         h.session.state.snapshots[i].backups[p] == b
    ensures var s, d := h.session.state, h.session.disk;
            b.name != NoFile ==>
              b.name in CopyChanged(s, d, s.tracked) && CopyChanged(s, d, s.tracked)[b.name] == d.store[b.name]
  {
    hide FreshOrEqual, FileChanged, Nested, UnbackedStill, UntrackedStill;
    var s, d := h.session.state, h.session.disk;
    var i :| 0 <= i < |s.snapshots| && p in s.snapshots[i].backups && s.snapshots[i].backups[p] == b;
    assert BackupTrue(d.store, p, b, h.trees[i]);
    forall q | q in s.tracked && Copies(s, d, q) ensures SnapshotBackup(s, d, q).name != b.name {
      LatestIsLast(s, q);
      if q == p {
        assert b.version <= s.snapshots[|s.snapshots| - 1].backups[p].version;
      }
    }
  }

  // ---- Every event keeps the invariant ----

  lemma EvictKeeps(all: seq<Snapshot>, tracked: set<Path>, files: map<Path, File>,
                   store: map<BackupName, File>, trees: seq<map<Path, File>>, n: nat)
    requires PastTrue(all, tracked, files, store, trees) && n <= |all|
    ensures PastTrue(all[n..], tracked, files, store, trees[n..])
  {
    forall i, j, p | 0 <= i < j < |all[n..]| && p !in all[n..][j - 1].backups
      ensures View(trees[n..][i], p) == View(trees[n..][j], p)
    {
      assert all[n..][j - 1] == all[j + n - 1];
      assert View(trees[i + n], p) == View(trees[j + n], p);
    }
  }

  lemma SuffixKeeps(all: seq<Snapshot>, tracked: set<Path>, files: map<Path, File>,
                    store: map<BackupName, File>, trees: seq<map<Path, File>>, max: nat)
    requires PastTrue(all, tracked, files, store, trees)
    ensures PastTrue(Suffix(all, max), tracked, files, store, Suffix(trees, max))
  {
    EvictKeeps(all, tracked, files, store, trees, Excess(|all|, max));
  }

  lemma AppendKeeps(snapshots: seq<Snapshot>, tracked: set<Path>, files: map<Path, File>,
                    store: map<BackupName, File>, trees: seq<map<Path, File>>, snapshot: Snapshot)
    requires PastTrue(snapshots, tracked, files, store, trees)
    requires tracked == if snapshots == [] then {} else snapshots[|snapshots| - 1].backups.Keys
    requires snapshot.backups.Keys == tracked
    requires forall p | p in snapshot.backups :: BackupTrue(store, p, snapshot.backups[p], files)
    requires forall i, p | 0 <= i < |snapshots| && p in snapshots[i].backups && p in snapshot.backups ::
               snapshots[i].backups[p].version <= snapshot.backups[p].version
    ensures PastTrue(snapshots + [snapshot], tracked, files, store, trees + [files])
  {
    var all, allTrees := snapshots + [snapshot], trees + [files];
    var n := |snapshots|;
    forall i, j, p | 0 <= i <= j < |all| && p in all[i].backups ensures p in all[j].backups {
      if i < n == j {
        assert p in snapshots[i].backups && p in snapshots[n - 1].backups;
      }
    }
    forall i, p | 0 <= i < |all| && p in all[i].backups ensures BackupTrue(store, p, all[i].backups[p], allTrees[i]) {
      if i < n {
        assert p in snapshots[i].backups;
      }
    }
    forall i, j, p | 0 <= i < j < |all| && p !in all[j - 1].backups
      ensures View(allTrees[i], p) == View(allTrees[j], p)
    {
      assert all[j - 1] == snapshots[j - 1];
      if j == n {
        assert p !in tracked;
      }
    }
  }

  /** Opening a snapshot of the present, with eviction, keeps the invariant. */
  lemma OpenKeepsInv(h: History, store: map<BackupName, File>, snapshot: Snapshot, log: seq<Record>, recordSeq: nat)
    requires Inv(h)
    requires var s, d := h.session.state, h.session.disk;
             && snapshot.backups.Keys == s.tracked
             && PastTrue(s.snapshots, s.tracked, d.files, store, h.trees)
             && (forall p | p in snapshot.backups :: BackupTrue(store, p, snapshot.backups[p], d.files))
             && (forall p | p in snapshot.backups :: FreshOrEqual(d.(store := store), p, snapshot.backups[p]))
             && (forall i, p | 0 <= i < |s.snapshots| && p in s.snapshots[i].backups && p in snapshot.backups ::
                   s.snapshots[i].backups[p].version <= snapshot.backups[p].version)
    ensures var s, d := h.session.state, h.session.disk;
            Inv(History(Session(Append(s, snapshot).(recordSeq := recordSeq), d.(store := store, log := log)),
                        Suffix(h.trees + [d.files], s.maxSnapshots)))
  {
    hide PastTrue;
    var s, d := h.session.state, h.session.disk;
    AppendKeeps(s.snapshots, s.tracked, d.files, store, h.trees, snapshot);
    SuffixKeeps(s.snapshots + [snapshot], s.tracked, d.files, store, h.trees + [d.files], s.maxSnapshots);
    var kept := Suffix(s.snapshots + [snapshot], s.maxSnapshots);
    assert kept[|kept| - 1] == snapshot;
  }

  lemma SnapKeepsInv(h: History, id: string)
    requires Inv(h)
    ensures Inv(Step(h, Snap(id)))
  {
    var s, d := h.session.state, h.session.disk;
    if !s.disabled && !IsLatest(s, id) {
      var snapshot := Snapshot(id, map p | p in s.tracked :: SnapshotBackup(s, d, p));
      var store := CopyChanged(s, d, s.tracked);
      forall p | p in s.tracked
        ensures BackupTrue(store, p, snapshot.backups[p], d.files)
        ensures FreshOrEqual(d.(store := store), p, snapshot.backups[p])
        ensures forall i | 0 <= i < |s.snapshots| && p in s.snapshots[i].backups ::
                  s.snapshots[i].backups[p].version <= snapshot.backups[p].version
      {
        SnapshotBackupTrue(h, p);
      }
      forall i, p | 0 <= i < |s.snapshots| && p in s.snapshots[i].backups
        ensures BackupTrue(store, p, s.snapshots[i].backups[p], h.trees[i])
      {
        assert BackupTrue(d.store, p, s.snapshots[i].backups[p], h.trees[i]);
        CopiesElsewhere(h, p, s.snapshots[i].backups[p]);
      }
      OpenKeepsInv(h, store, snapshot, d.log + [Record(s.recordSeq, false, snapshot)], s.recordSeq + 1);
    }
  }

  /** Tracking a new path adds its present content to the latest snapshot, which is what it held there already. */
  lemma TrackKeepsBackup(h: History, p: Path, i: nat, q: Path)
    requires Inv(h) && h.session.state.snapshots != [] && p !in h.session.state.tracked
    requires i < |h.session.state.snapshots| && q in TrackOnLatest(h.session, p).state.snapshots[i].backups
    ensures i < |h.trees|
    ensures BackupTrue(TrackOnLatest(h.session, p).disk.store, q,
                       TrackOnLatest(h.session, p).state.snapshots[i].backups[q], h.trees[i])
  {
    hide FreshOrEqual, VersionsRise, UnbackedStill;
    var s, d := h.session.state, h.session.disk;
    BackedUpAreTracked(s);
    if q == p {
      assert View(h.trees[|s.snapshots| - 1], p) == View(d.files, p);
    } else {
      assert BackupTrue(d.store, q, s.snapshots[i].backups[q], h.trees[i]);
    }
  }

  lemma BackedUpAreTracked(s: State)
    requires Shape(s) && Nested(s.snapshots)
    ensures forall i, p | 0 <= i < |s.snapshots| && p in s.snapshots[i].backups :: p in s.tracked
  {
    forall i, p | 0 <= i < |s.snapshots| && p in s.snapshots[i].backups ensures p in s.tracked {
      assert p in s.snapshots[|s.snapshots| - 1].backups;
    }
  }

  lemma TrackKeepsPast(h: History, p: Path)
    requires Inv(h) && h.session.state.snapshots != [] && p !in h.session.state.tracked
    ensures var s', d' := TrackOnLatest(h.session, p).state, TrackOnLatest(h.session, p).disk;
            PastTrue(s'.snapshots, s'.tracked, d'.files, d'.store, h.trees)
  {
    hide FreshOrEqual, BackupTrue, NewBackup, StoreCopy;
    var s, d := h.session.state, h.session.disk;
    var ss' := TrackOnLatest(h.session, p);
    var snapshots' := ss'.state.snapshots;
    BackedUpAreTracked(s);
    forall i, q | 0 <= i < |snapshots'| && q in snapshots'[i].backups
      ensures BackupTrue(ss'.disk.store, q, snapshots'[i].backups[q], h.trees[i])
    {
      TrackKeepsBackup(h, p, i, q);
    }
    forall i, j, q | 0 <= i < j < |snapshots'| && q !in snapshots'[j - 1].backups
      ensures View(h.trees[i], q) == View(h.trees[j], q)
    {
      assert snapshots'[j - 1] == s.snapshots[j - 1];
    }
  }

  lemma TrackLatestKeepsInv(h: History, p: Path)
    requires Inv(h) && h.session.state.snapshots != []
    ensures Inv(h.(session := TrackOnLatest(h.session, p)))
  {
    var s, d := h.session.state, h.session.disk;
    if p !in s.tracked {
      TrackKeepsPast(h, p);
      var ss' := TrackOnLatest(h.session, p);
      var last := |s.snapshots| - 1;
      var backups, backups' := s.snapshots[last].backups, ss'.state.snapshots[last].backups;
      forall q | q in backups' ensures FreshOrEqual(ss'.disk, q, backups'[q]) {
        if q != p {
          assert FreshOrEqual(d, q, backups[q]);
          assert BackupTrue(d.store, q, backups[q], h.trees[last]);
        }
      }
    }
  }

  /** TrackEdit first opens an empty snapshot, which is a snapshot of the present while nothing is tracked. */
  lemma EmptyOpenKeepsInv(h: History, name: string)
    requires Inv(h) && h.session.state.tracked == {}
    ensures var s, d := h.session.state, h.session.disk;
            Inv(History(Session(Append(s, Snapshot(name, map[])), d), Suffix(h.trees + [d.files], s.maxSnapshots)))
  {
    var s, d := h.session.state, h.session.disk;
    OpenKeepsInv(h, d.store, Snapshot(name, map[]), d.log, s.recordSeq);
  }

  lemma TrackKeepsInv(h: History, p: Path, id: string)
    requires Inv(h) && TrackOrdered(h.session.state, id)
    ensures Inv(Step(h, Track(p, id)))
  {
    var s, d := h.session.state, h.session.disk;
    if !s.disabled {
      if OpeningId(s, id).None? {
        if s.snapshots != [] {
          TrackLatestKeepsInv(h, p);
        }
      } else {
        EmptyOpenKeepsInv(h, OpeningId(s, id).value);
        var h1 := History(Session(EnsureLatest(s, id), d), Suffix(h.trees + [d.files], s.maxSnapshots));
        TrackLatestKeepsInv(h1, p);
      }
    }
  }

  /** Outside the touched paths nothing changed; a touched file is stamped now, gone, or has its old data and time. */
  ghost predicate Touches(d: Disk, files: map<Path, File>, touched: set<Path>) {
    && (forall p | p !in touched ::
          (p in files <==> p in d.files) && (p in files ==> files[p] == d.files[p]))
    && (forall p | p in touched && p in files ::
          files[p].mtime >= d.now ||
          (p in d.files && files[p].mtime == d.files[p].mtime && files[p].data == d.files[p].data))
  }

  lemma TouchedFresh(d: Disk, files: map<Path, File>, touched: set<Path>, p: Path, b: Backup)
    requires Touches(d, files, touched) && FreshOrEqual(d, p, b)
    ensures FreshOrEqual(d.(files := files), p, b)
  {
  }

  lemma TouchedStill(d: Disk, files: map<Path, File>, touched: set<Path>, tracked: set<Path>,
                     trees: seq<map<Path, File>>)
    requires Touches(d, files, touched) && touched <= tracked && UntrackedStill(tracked, d.files, trees)
    ensures UntrackedStill(tracked, files, trees)
  {
    forall i, p | 0 <= i < |trees| && p !in tracked ensures View(trees[i], p) == View(files, p) {
      assert View(trees[i], p) == View(d.files, p);
    }
  }

  /** Any change to one tracked file that stamps the clock, removes the file or leaves its data alone. */
  lemma FileChangeKeepsInv(h: History, files: map<Path, File>, touched: set<Path>)
    requires Inv(h) && touched <= h.session.state.tracked && Touches(h.session.disk, files, touched)
    ensures Inv(SetFiles(h, files))
  {
    hide FreshOrEqual, Touches, UntrackedStill, Nested, BackupsTrue, VersionsRise, UnbackedStill;
    var s, d := h.session.state, h.session.disk;
    TouchedStill(d, files, touched, s.tracked, h.trees);
    if s.snapshots != [] {
      var last := s.snapshots[|s.snapshots| - 1].backups;
      forall p | p in last ensures FreshOrEqual(d.(files := files), p, last[p]) {
        TouchedFresh(d, files, touched, p, last[p]);
      }
    }
  }

  lemma KnownIsTracked(s: State)
    requires Shape(s) && Nested(s.snapshots)
    ensures Known(s) == s.tracked
  {
    forall p ensures p in Known(s) <==> p in s.tracked {
      if i :| 0 <= i < |s.snapshots| && p in s.snapshots[i].backups {
        assert p in s.snapshots[|s.snapshots| - 1].backups;
      }
    }
  }

  lemma TickKeepsInv(h: History, ticks: nat)
    requires Inv(h)
    ensures Inv(Step(h, Tick(ticks)))
  {
    hide PastTrue;
    var s, d := h.session.state, h.session.disk;
    if s.snapshots != [] {
      var last := s.snapshots[|s.snapshots| - 1].backups;
      forall p | p in last ensures FreshOrEqual(d.(now := d.now + ticks), p, last[p]) {
        assert FreshOrEqual(d, p, last[p]);
      }
    }
  }

  lemma RestoredTouches(s: State, d: Disk, i: nat, paths: set<Path>)
    requires i < |s.snapshots|
    ensures Touches(d, Restored(s, d, i, paths), paths)
  {
    hide BackupFor, Earliest, Restores;
  }

  lemma RewoundKeepsInv(h: History, id: string)
    requires Inv(h)
    ensures Inv(Step(h, Rewound(id)))
  {
    var s, d := h.session.state, h.session.disk;
    hide Touches, Restored, ClockSound, BackupsTrue, VersionsRise, UnbackedStill, UntrackedStill;
    if Find(s.snapshots, id).Some? {
      KnownIsTracked(s);
      RestoredTouches(s, d, Find(s.snapshots, id).value, Known(s));
      FileChangeKeepsInv(h, Restored(s, d, Find(s.snapshots, id).value, Known(s)), s.tracked);
    }
  }

  lemma StepKeepsInv(h: History, e: Event)
    requires Inv(h) && Admissible(h, e)
    ensures Inv(Step(h, e))
  {
    hide RestoreState, MakeSnapshot, TrackEdit;
    var s, d := h.session.state, h.session.disk;
    match e
    case Snap(id) => SnapKeepsInv(h, id);
    case Track(p, id) => TrackKeepsInv(h, p, id);
    case Write(p, data, mode) => FileChangeKeepsInv(h, d.files[p := File(data, mode, d.now)], {p});
    case Delete(p) => FileChangeKeepsInv(h, d.files - {p}, {p});
    case Chmod(p, mode) =>
      if p in d.files {
        FileChangeKeepsInv(h, d.files[p := d.files[p].(mode := mode)], {p});
      }
    case Tick(ticks) => TickKeepsInv(h, ticks);
    case Rewound(id) => RewoundKeepsInv(h, id);
    case Toggle(disabled) =>
    case Restart =>
  }

  lemma {:induction false} RunKeepsInv(h: History, events: seq<Event>)
    requires Initial(h) && AdmissibleRun(h, events)
    ensures Inv(Run(h, events))
  {
    if events != [] {
      RunKeepsInv(h, events[..|events| - 1]);
      StepKeepsInv(Run(h, events[..|events| - 1]), events[|events| - 1]);
    }
  }

  // ---- The theorems ----

  /** The backup a rewind picks stands for the path's content when the snapshot was opened, evictions included. */
  lemma BackupForIsTrue(h: History, i: nat, p: Path)
    requires Inv(h) && i < |h.trees| && p in h.session.state.tracked
    ensures var s, d := h.session.state, h.session.disk;
            var b := BackupFor(s, i, p);
            && b.Some? && (b.value.name == NoFile || b.value.name in d.store)
            && BackupContent(d.store, b.value) == View(h.trees[i], p)
  {
    var s, d := h.session.state, h.session.disk;
    if p in s.snapshots[i].backups {
      assert BackupTrue(d.store, p, s.snapshots[i].backups[p], h.trees[i]);
    } else {
      var e := EarliestIndex(s.snapshots, p, |s.snapshots| - 1);
      assert BackupTrue(d.store, p, s.snapshots[e].backups[p], h.trees[e]);
      assert i < e;
      assert p !in s.snapshots[e - 1].backups;
    }
  }

  /** After a rewind to a retained id, every tracked path holds what it held when that snapshot was opened. */
  lemma RewindRestores(h: History, id: string, p: Path)
    requires Inv(h) && Find(h.session.state.snapshots, id).Some?
    ensures var i := Find(h.session.state.snapshots, id).value;
            var files := Rewind(h.session, id).value.0.disk.files;
            && (p in h.session.state.tracked ==> View(files, p) == View(h.trees[i], p))
            && (p !in h.session.state.tracked ==>
                View(files, p) == View(h.session.disk.files, p) == View(h.trees[i], p))
  {
    KnownIsTracked(h.session.state);
    if p in h.session.state.tracked {
      BackupForIsTrue(h, Find(h.session.state.snapshots, id).value, p);
    }
  }

  /** A rewind succeeds for a retained id, makes the workspace its tree and leaves the checkpointer's state alone. */
  ghost predicate RewindExact(h: History, id: string) {
    match Find(h.session.state.snapshots, id)
    case None => Rewind(h.session, id) == None
    case Some(i) =>
      i < |h.trees| && Rewind(h.session, id).Some? &&
      (forall p: Path :: View(Rewind(h.session, id).value.0.disk.files, p) == View(h.trees[i], p)) &&
      Rewind(h.session, id).value.0.state == h.session.state
  }

  /** Through any admissible run, every retained snapshot can be rewound to, the whole workspace exactly. */
  lemma RewindAfterAnyRun(h: History, events: seq<Event>, id: string)
    requires Initial(h) && AdmissibleRun(h, events)
    ensures RewindExact(Run(h, events), id)
  {
    RunKeepsInv(h, events);
    var end := Run(h, events);
    if Find(end.session.state.snapshots, id).Some? {
      var tree := end.trees[Find(end.session.state.snapshots, id).value];
      forall p: Path ensures View(Rewind(end.session, id).value.0.disk.files, p) == View(tree, p) {
        RewindRestores(end, id, p);
      }
    }
  }

  /** The reported paths are exactly those whose content the rewind changed. */
  lemma RewindReportsChanges(h: History, id: string, p: Path)
    requires Inv(h) && Find(h.session.state.snapshots, id).Some?
    ensures var (ss', changed) := Rewind(h.session, id).value;
            p in changed <==> View(ss'.disk.files, p) != View(h.session.disk.files, p)
  {
    KnownIsTracked(h.session.state);
    if p in h.session.state.tracked {
      BackupForIsTrue(h, Find(h.session.state.snapshots, id).value, p);
    }
  }

  /** The change check answers whether a rewind would change anything. */
  lemma HasAnyChangesForeseesRewind(h: History, id: string)
    requires Inv(h) && Find(h.session.state.snapshots, id).Some?
    ensures HasAnyChanges(h.session, id) ==
            Some(exists p: Path :: View(h.session.disk.files, p) != View(Rewind(h.session, id).value.0.disk.files, p))
  {
    var d, files := h.session.disk, Rewind(h.session, id).value.0.disk.files;
    var changed := Rewind(h.session, id).value.1;
    forall p: Path ensures p in changed <==> View(files, p) != View(d.files, p) {
      RewindReportsChanges(h, id, p);
    }
    if p: Path :| View(d.files, p) != View(files, p) {
      assert p in changed;
    }
    if changed != {} {
      var p :| p in changed;
      assert View(d.files, p) != View(files, p);
    }
  }

  /** A second rewind to the same id finds nothing to change. */
  lemma RewindTwice(h: History, id: string)
    requires Inv(h) && Find(h.session.state.snapshots, id).Some?
    ensures var ss' := Rewind(h.session, id).value.0;
            HasAnyChanges(ss', id) == Some(false) && Rewind(ss', id) == Some((ss', {}))
  {
    var s, ss' := h.session.state, Rewind(h.session, id).value.0;
    var i := Find(s.snapshots, id).value;
    KnownIsTracked(s);
    forall p | p in Known(s) ensures !Restores(s, ss'.disk, i, p) {
      BackupForIsTrue(h, i, p);
    }
    assert RewindChanged(s, ss'.disk, i) == {};
    assert Restored(s, ss'.disk, i, Known(s)) == ss'.disk.files;
  }
}
