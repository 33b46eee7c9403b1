/**
 * The checkpointer as it runs: index loops over its snapshots, files copied one at a time,
 * state changed in place. Every operation is proved equal to its function in `Checkpoint`.
 */
module CheckpointClass {
  import opened Common
  import opened Checkpoint

  /** Names in a snapshot are derived from the paths they back up. */
  predicate WellNamed(snapshot: Snapshot) {
    forall p | p in snapshot.backups ::
      snapshot.backups[p].name == NoFile || snapshot.backups[p].name.path == p
  }

  predicate AllWellNamed(snapshots: seq<Snapshot>) {
    forall i | 0 <= i < |snapshots| :: WellNamed(snapshots[i])
  }

  predicate LogWellNamed(log: seq<Record>) {
    forall i | 0 <= i < |log| :: WellNamed(log[i].snapshot)
  }

  class FileSystem {
    var files: map<Path, File>
    var store: map<BackupName, File>
    var log: seq<Record>
    var now: nat

    function Contents(): Disk
      reads this
    {
      Disk(files, store, log, now)
    }

    constructor (files: map<Path, File>, now: nat)
      ensures Contents() == Disk(files, map[], [], now)
    {
      this.files, this.store, this.log, this.now := files, map[], [], now;
    }
  }

  class FileCheckpointer {
    const maxSnapshots: nat
    const fs: FileSystem
    var snapshots: seq<Snapshot>
    var tracked: set<Path>
    var sequence: nat
    var recordSeq: nat
    var disabled: bool

    function History(): State
      reads this
    {
      State(maxSnapshots, snapshots, tracked, sequence, recordSeq, disabled)
    }

    function Whole(): Session
      reads this, fs
    {
      Session(History(), fs.Contents())
    }

    predicate Valid()
      reads this, fs
    {
      maxSnapshots > 0 && AllWellNamed(snapshots) && LogWellNamed(fs.log)
    }

    constructor (maxSnapshots: int, fs: FileSystem)
      requires LogWellNamed(fs.log)
      ensures Valid() && this.fs == fs
      ensures History() == State(if maxSnapshots <= 0 then 100 else maxSnapshots, [], {}, 0, 0, false)
    {
      this.maxSnapshots := if maxSnapshots <= 0 then 100 else maxSnapshots;
      this.fs := fs;
      snapshots, tracked, sequence, recordSeq, disabled := [], {}, 0, 0, false;
    }

    // ---- Lookups ----

    method LatestBackupForFile(p: Path) returns (r: Option<Backup>)
      ensures r == Latest(snapshots, p)
    {
      var i := |snapshots|;
      assert snapshots[..i] == snapshots;
      while i > 0
        invariant 0 <= i <= |snapshots|
        invariant Latest(snapshots, p) == Latest(snapshots[..i], p)
      {
        assert snapshots[..i][..i - 1] == snapshots[..i - 1];
        i := i - 1;
        if p in snapshots[i].backups {
          return Some(snapshots[i].backups[p]);
        }
      }
      return None;
    }

    method EarliestBackupForFile(p: Path) returns (r: Option<Backup>)
      ensures r == Earliest(snapshots, p)
    {
      var i := 0;
      while i < |snapshots|
        invariant 0 <= i <= |snapshots|
        invariant Earliest(snapshots, p) == Earliest(snapshots[i..], p)
      {
        assert snapshots[i..][1..] == snapshots[i + 1..];
        if p in snapshots[i].backups {
          return Some(snapshots[i].backups[p]);
        }
        i := i + 1;
      }
      return None;
    }

    method FindSnapshot(id: string) returns (r: Option<nat>)
      ensures r == Find(snapshots, id)
    {
      var i := |snapshots|;
      assert snapshots[..i] == snapshots;
      while i > 0
        invariant 0 <= i <= |snapshots|
        invariant Find(snapshots, id) == Find(snapshots[..i], id)
      {
        assert snapshots[..i][..i - 1] == snapshots[..i - 1];
        i := i - 1;
        if snapshots[i].id == id {
          return Some(i);
        }
      }
      return None;
    }

    // ---- Snapshots ----

    /** `failed` reports an unreadable backup, which the caller treats as a change. */
    method FileChanged(p: Path, b: Backup) returns (changed: bool, failed: bool)
      ensures (changed || failed) == Checkpoint.FileChanged(fs.Contents(), p, b)
    {
      failed := false;
      var missing := p !in fs.files;
      if b.name == NoFile {
        return !missing, failed;
      }
      if missing {
        return true, failed;
      }
      if b.name !in fs.store {
        return true, true;
      }
      if fs.files[p].mode != fs.store[b.name].mode || |fs.files[p].data| != |fs.store[b.name].data| {
        return true, failed;
      }
      if fs.files[p].mtime < b.time {
        return false, failed;
      }
      changed := fs.files[p].data != fs.store[b.name].data;
    }

    method CreateBackup(p: Path, version: nat) returns (b: Backup)
      modifies fs`store
      ensures b == NewBackup(old(fs.Contents()), p, version)
      ensures fs.store == StoreCopy(old(fs.Contents()), p, version)
    {
      if p !in fs.files {
        return Backup(NoFile, version, fs.now);
      }
      var name := Versioned(p, version);
      fs.store := fs.store[name := fs.files[p].(mtime := fs.now)];
      b := Backup(name, version, fs.now);
    }

    method AppendSnapshot(snapshot: Snapshot)
      modifies this
      ensures old(AllWellNamed(snapshots)) && WellNamed(snapshot) ==> AllWellNamed(snapshots)
      ensures History() == Append(old(History()), snapshot)
      ensures |snapshots| == if |old(snapshots)| < maxSnapshots then |old(snapshots)| + 1 else maxSnapshots
      ensures forall i :: 0 <= i < |snapshots| ==>
                snapshots[i] == (old(snapshots) + [snapshot])[|old(snapshots)| + 1 - |snapshots| + i]
      ensures sequence == old(sequence) + 1 && tracked == old(tracked) && recordSeq == old(recordSeq)
    {
      snapshots := snapshots + [snapshot];
      if |snapshots| > maxSnapshots {
        snapshots := snapshots[|snapshots| - maxSnapshots..];
      }
      sequence := sequence + 1;
    }

    method RecordSnapshot(snapshot: Snapshot, update: bool)
      requires !disabled
      modifies this`recordSeq, fs`log
      ensures Whole() == Log(old(Whole()), snapshot, update)
      ensures old(LogWellNamed(fs.log)) && WellNamed(snapshot) ==> LogWellNamed(fs.log)
    {
      fs.log := fs.log + [Record(recordSeq, update, snapshot)];
      recordSeq := recordSeq + 1;
    }

    method MakeSnapshot(id: string)
      requires Valid()
      modifies this, fs
      ensures Valid()
      ensures Whole() == Checkpoint.MakeSnapshot(old(Whole()), id)
      ensures if disabled || (old(snapshots) != [] && old(snapshots[|snapshots| - 1]).id == id)
              then Whole() == old(Whole())
              else
                && snapshots != [] && snapshots[|snapshots| - 1].id == id
                && snapshots[|snapshots| - 1].backups.Keys == tracked == old(tracked)
    {
      hide CopyChanged, SnapshotBackup;
      if disabled || (|snapshots| > 0 && snapshots[|snapshots| - 1].id == id) {
        return;
      }
      ghost var s, d := History(), fs.Contents();
      NoCopies(s, d);
      var backups: map<Path, Backup> := map[];
      var paths := tracked;
      assert tracked - paths == {};
      while paths != {}
        invariant paths <= tracked && History() == s
        invariant fs.Contents() == d.(store := CopyChanged(s, d, tracked - paths))
        invariant backups == map p | p in tracked - paths :: SnapshotBackup(s, d, p)
        decreases paths
      {
        var p :| p in paths;
        ghost var done := tracked - paths;
        var backup := SnapshotFile(p, d, done);
        backups := backups[p := backup];
        paths := paths - {p};
        assert tracked - paths == done + {p};
      }
      assert tracked - paths == tracked;
      LatestWellNamed(s, d);
      var snapshot := Snapshot(id, backups);
      assert WellNamed(snapshot);
      AppendSnapshot(snapshot);
      assert Whole() == Session(Append(s, snapshot), d.(store := CopyChanged(s, d, s.tracked)));
      RecordSnapshot(snapshot, false);
    }

    /** One turn of the snapshot loop: the previous backup again, or a new copy under the next version. */
    method SnapshotFile(p: Path, ghost d: Disk, ghost done: set<Path>) returns (backup: Backup)
      requires AllWellNamed(snapshots) && p !in done
      requires fs.Contents() == d.(store := CopyChanged(History(), d, done))
      modifies fs`store
      ensures backup == SnapshotBackup(History(), d, p)
      ensures fs.store == CopyChanged(History(), d, done + {p})
    {
      OneMoreCopy(History(), d, done, p);
      var previous := LatestBackupForFile(p);
      if previous.None? {
        backup := CreateBackup(p, 1);
        return;
      }
      OtherCopies(History(), d, done, p, previous.value);
      var changed, failed := FileChanged(p, previous.value);
      if !changed && !failed {
        return previous.value;
      }
      backup := CreateBackup(p, previous.value.version + 1);
    }

    // ---- Edits ----

    method EnsureLatestSnapshot(id: string)
      requires Valid()
      modifies this
      ensures Valid() && History() == EnsureLatest(old(History()), id) && snapshots != []
      ensures var name := if id == "" then Itoa(old(sequence)) else id;
              if old(snapshots) != [] && (id == "" || old(snapshots[|snapshots| - 1]).id == name)
              then History() == old(History())
              else snapshots[|snapshots| - 1] == Snapshot(name, map[]) && sequence == old(sequence) + 1
    {
      var name := id;
      if name == "" {
        if |snapshots| > 0 {
          return;
        }
        name := Itoa(sequence);
      }
      if |snapshots| > 0 && snapshots[|snapshots| - 1].id == name {
        return;
      }
      var snapshot := Snapshot(name, map[]);
      assert WellNamed(snapshot) && EnsureLatest(History(), id) == Append(History(), snapshot);
      AppendSnapshot(snapshot);
    }

    method TrackEdit(p: Path, id: string)
      requires Valid()
      modifies this, fs
      ensures Valid()
      ensures Whole() == Checkpoint.TrackEdit(old(Whole()), p, id)
    {
      if disabled {
        return;
      }
      EnsureLatestSnapshot(id);
      var last := |snapshots| - 1;
      if p in snapshots[last].backups {
        return;
      }
      ghost var ss := Whole();
      var backup := CreateBackup(p, 1);
      var snapshot := snapshots[last].(backups := snapshots[last].backups[p := backup]);
      assert WellNamed(snapshots[last]) && WellNamed(snapshot);
      tracked := tracked + {p};
      snapshots := snapshots[last := snapshot];
      RecordSnapshot(snapshot, true);
      assert Whole() == TrackOnLatest(ss, p);
    }

    // ---- Rewind ----

    method BackupForSnapshot(i: nat, p: Path) returns (r: Option<Backup>)
      requires i < |snapshots|
      ensures r == BackupFor(History(), i, p)
    {
      if p in snapshots[i].backups {
        return Some(snapshots[i].backups[p]);
      }
      r := EarliestBackupForFile(p);
    }

    method FileDiffersFromBackup(p: Path, b: Backup) returns (r: Option<bool>)
      ensures r == Differs(fs.Contents(), p, b)
    {
      if b.name == NoFile {
        return Some(p in fs.files);
      }
      if b.name !in fs.store {
        return None;
      }
      if p !in fs.files {
        return Some(true);
      }
      if fs.files[p].mode != fs.store[b.name].mode || |fs.files[p].data| != |fs.store[b.name].data| {
        return Some(true);
      }
      r := Some(fs.files[p].data != fs.store[b.name].data);
    }

    /** None when the backup cannot be read; otherwise whether the file was rewritten or removed. */
    method RestoreFile(p: Path, b: Backup) returns (r: Option<bool>)
      modifies fs`files
      ensures r == Differs(old(fs.Contents()), p, b)
      ensures fs.files == if r != Some(true) then old(fs.files)
                          else if b.name == NoFile then old(fs.files) - {p}
                          else old(fs.files)[p := old(fs.store)[b.name].(mtime := fs.now)]
    {
      r := FileDiffersFromBackup(p, b);
      if r != Some(true) {
        return;
      }
      if b.name == NoFile {
        fs.files := fs.files - {p};
      } else {
        fs.files := fs.files[p := fs.store[b.name].(mtime := fs.now)];
      }
    }

    method Rewind(id: string) returns (found: bool, changed: set<Path>)
      modifies fs`files
      ensures found == Checkpoint.Rewind(old(Whole()), id).Some?
      ensures found ==> (Whole(), changed) == Checkpoint.Rewind(old(Whole()), id).value
      ensures !found ==> Whole() == old(Whole()) && changed == {}
    {
      hide Restored, Restores;
      changed := {};
      var i := FindSnapshot(id);
      if i.None? {
        return false, {};
      }
      ghost var s, d := History(), fs.Contents();
      var paths := Known(History());
      NothingRestored(s, d, i.value);
      assert Known(s) - paths == {};
      while paths != {}
        invariant paths <= Known(s) && History() == s
        invariant fs.Contents() == d.(files := Restored(s, d, i.value, Known(s) - paths))
        invariant changed == set p | p in Known(s) - paths && Restores(s, d, i.value, p)
        decreases paths
      {
        var p :| p in paths;
        ghost var done := Known(s) - paths;
        var rewritten := RewindFile(i.value, p, d, done);
        if rewritten {
          changed := changed + {p};
        }
        paths := paths - {p};
        assert Known(s) - paths == done + {p};
      }
      assert Known(s) - paths == Known(s);
      found := true;
    }

    /** One turn of the rewind loop; a path whose backup cannot be read is skipped. */
    method RewindFile(i: nat, p: Path, ghost d: Disk, ghost done: set<Path>) returns (rewritten: bool)
      requires i < |snapshots| && p !in done
      requires fs.Contents() == d.(files := Restored(History(), d, i, done))
      modifies fs`files
      ensures rewritten == Restores(History(), d, i, p)
      ensures fs.files == Restored(History(), d, i, done + {p})
    {
      OneMoreRestored(History(), d, i, done, p);
      var backup := BackupForSnapshot(i, p);
      if backup.None? {
        return false;
      }
      assert Differs(fs.Contents(), p, backup.value) == Differs(d, p, backup.value);
      var restored := RestoreFile(p, backup.value);
      rewritten := restored == Some(true);
    }

    method HasAnyChanges(id: string) returns (r: Option<bool>)
      ensures r == Checkpoint.HasAnyChanges(Whole(), id)
    {
      var i := FindSnapshot(id);
      if i.None? {
        return None;
      }
      ghost var s, d := History(), fs.Contents();
      var paths := Known(History());
      while paths != {}
        invariant paths <= Known(s)
        invariant forall p | p in Known(s) - paths :: !Restores(s, d, i.value, p)
        decreases paths
      {
        var p :| p in paths;
        var backup := BackupForSnapshot(i.value, p);
        if backup.Some? {
          var differs := FileDiffersFromBackup(p, backup.value);
          if differs == Some(true) {
            assert p in RewindChanged(s, d, i.value);
            return Some(true);
          }
        }
        paths := paths - {p};
      }
      r := Some(false);
    }

    // ---- The snapshot log ----

    method ReplayRecord(record: Record)
      modifies this
      ensures History() == Checkpoint.ReplayRecord(old(History()), record)
      ensures forall i :: 0 <= i < |old(snapshots)| && old(snapshots)[i].id == record.snapshot.id &&
                          (forall k :: 0 <= k < i ==> old(snapshots)[k].id != record.snapshot.id) ==>
                snapshots == old(snapshots)[i := record.snapshot]
    {
      var i := 0;
      while i < |snapshots|
        invariant 0 <= i <= |snapshots| && History() == old(History())
        invariant forall k :: 0 <= k < i ==> snapshots[k].id != record.snapshot.id
      {
        if snapshots[i].id == record.snapshot.id {
          ReplaceFirstUnique(snapshots, record.snapshot, i);
          snapshots := snapshots[i := record.snapshot];
          return;
        }
        i := i + 1;
      }
      AppendSnapshot(record.snapshot);
    }

    method RebuildTrackedFiles()
      modifies this`tracked
      ensures tracked == BackedUp(snapshots)
    {
      tracked := {};
      var i := 0;
      while i < |snapshots|
        invariant 0 <= i <= |snapshots|
        invariant tracked == BackedUp(snapshots[..i])
      {
        tracked := tracked + snapshots[i].backups.Keys;
        i := i + 1;
        assert forall k :: 0 <= k < i - 1 ==> snapshots[..i][k] == snapshots[..i - 1][k];
      }
      assert snapshots[..i] == snapshots;
    }

    method RestoreStateFromLog()
      requires Valid()
      modifies this
      ensures Valid()
      ensures Whole() == RestoreState(old(Whole()))
    {
      hide Replay;
      snapshots, tracked, sequence, recordSeq := [], {}, 0, 0;
      ghost var blank := Blank(old(History()));
      ReplayNone(blank, fs.log);
      var i := 0;
      while i < |fs.log|
        invariant 0 <= i <= |fs.log| && AllWellNamed(snapshots)
        invariant History() == Replay(blank, fs.log[..i])
      {
        ReplayNext(blank, fs.log, i);
        ReplayWellNamed(History(), fs.log[i]);
        ReplayRecord(fs.log[i]);
        if fs.log[i].seqno >= recordSeq {
          recordSeq := fs.log[i].seqno + 1;
        }
        i := i + 1;
      }
      assert fs.log[..i] == fs.log;
      RebuildTrackedFiles();
    }
  }

  lemma ReplayNone(blank: State, log: seq<Record>)
    ensures Replay(blank, log[..0]) == blank
  {
  }

  lemma ReplayNext(blank: State, log: seq<Record>, i: nat)
    requires i < |log|
    ensures Replay(blank, log[..i + 1]) == ReplayOne(Replay(blank, log[..i]), log[i])
  {
    assert log[..i + 1][..i] == log[..i];
  }

  /** Copies made for other paths leave the backup that p's change check reads alone. */
  lemma OtherCopies(s: State, d: Disk, done: set<Path>, p: Path, b: Backup)
    requires AllWellNamed(s.snapshots) && p !in done && Latest(s.snapshots, p) == Some(b)
    ensures Checkpoint.FileChanged(d.(store := CopyChanged(s, d, done)), p, b) == Checkpoint.FileChanged(d, p, b)
  {
    LatestNamed(s.snapshots, p);
    forall q | q in done && Copies(s, d, q) ensures SnapshotBackup(s, d, q).name.path == q {
    }
  }

  lemma {:induction false} LatestNamed(snapshots: seq<Snapshot>, p: Path)
    requires AllWellNamed(snapshots) && Latest(snapshots, p).Some?
    ensures var b := Latest(snapshots, p).value; b.name == NoFile || b.name.path == p
  {
    if p !in snapshots[|snapshots| - 1].backups {
      LatestNamed(snapshots[..|snapshots| - 1], p);
    } else {
      assert WellNamed(snapshots[|snapshots| - 1]);
    }
  }

  lemma LatestWellNamed(s: State, d: Disk)
    requires AllWellNamed(s.snapshots)
    ensures forall p | p in s.tracked :: var b := SnapshotBackup(s, d, p); b.name == NoFile || b.name.path == p
  {
    forall p | p in s.tracked ensures var b := SnapshotBackup(s, d, p); b.name == NoFile || b.name.path == p {
      if Latest(s.snapshots, p).Some? {
        LatestNamed(s.snapshots, p);
      }
    }
  }

  lemma NoCopies(s: State, d: Disk)
    ensures CopyChanged(s, d, {}) == d.store
  {
  }

  lemma NothingRestored(s: State, d: Disk, i: nat)
    requires i < |s.snapshots|
    ensures Restored(s, d, i, {}) == d.files
  {
  }

  lemma OneMoreCopied(s: State, d: Disk, done: set<Path>, p: Path, name: BackupName)
    ensures CopiedTo(s, d, done + {p}, name) <==>
            CopiedTo(s, d, done, name) || (Copies(s, d, p) && name == SnapshotBackup(s, d, p).name)
  {
  }

  /** One path's copy, added to the copies already made. */
  lemma OneMoreCopy(s: State, d: Disk, done: set<Path>, p: Path)
    ensures CopyChanged(s, d, done + {p}) ==
            if Copies(s, d, p) then CopyChanged(s, d, done)[SnapshotBackup(s, d, p).name := d.files[p].(mtime := d.now)]
            else CopyChanged(s, d, done)
  {
    var one, more := CopyChanged(s, d, done), CopyChanged(s, d, done + {p});
    forall name ensures CopiedTo(s, d, done + {p}, name) <==>
                        CopiedTo(s, d, done, name) || (Copies(s, d, p) && name == SnapshotBackup(s, d, p).name)
    {
      OneMoreCopied(s, d, done, p, name);
    }
    assert more == if Copies(s, d, p) then one[SnapshotBackup(s, d, p).name := d.files[p].(mtime := d.now)] else one;
  }

  /** One path restored, added to the paths already restored. */
  lemma OneMoreRestored(s: State, d: Disk, i: nat, done: set<Path>, p: Path)
    requires i < |s.snapshots| && p !in done
    ensures var files := Restored(s, d, i, done);
            var b := BackupFor(s, i, p);
            Restored(s, d, i, done + {p}) ==
            if !Restores(s, d, i, p) then files
            else if b.value.name == NoFile then files - {p}
            else files[p := d.store[b.value.name].(mtime := d.now)]
    ensures View(Restored(s, d, i, done), p) == View(d.files, p)
  {
  }

  lemma ReplayWellNamed(s: State, r: Record)
    requires AllWellNamed(s.snapshots) && WellNamed(r.snapshot)
    ensures AllWellNamed(Checkpoint.ReplayRecord(s, r).snapshots)
  {
    ReplaceWellNamed(s.snapshots, r.snapshot);
  }

  lemma {:induction false} ReplaceWellNamed(snapshots: seq<Snapshot>, snapshot: Snapshot)
    requires AllWellNamed(snapshots) && WellNamed(snapshot)
    ensures AllWellNamed(ReplaceFirst(snapshots, snapshot))
  {
    if snapshots != [] {
      assert WellNamed(snapshots[0]);
      ReplaceWellNamed(snapshots[1..], snapshot);
    }
  }
}
