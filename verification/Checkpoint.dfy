/**
 * File checkpointing on values: the state of one checkpointer, the disk it works on,
 * and what each of its operations does to both (internal/checkpoint).
 * `CheckpointClass.dfy` holds the imperative operations, proved equal to these functions.
 */
module Checkpoint {
  import opened Common

  datatype Path = Path(name: string)

  datatype File = File(data: string, mode: nat, mtime: nat)

  /** What can be observed of a path, its modification time left aside. */
  datatype Content = Missing | Present(data: string, mode: nat)

  /** `Versioned(p, v)` stands for the name derived from the hash of p and v; `NoFile` is the empty name. */
  datatype BackupName = NoFile | Versioned(path: Path, version: nat)

  datatype Backup = Backup(name: BackupName, version: nat, time: nat)

  datatype Snapshot = Snapshot(id: string, backups: map<Path, Backup>)

  datatype Record = Record(seqno: nat, update: bool, snapshot: Snapshot)

  datatype State = State(
    maxSnapshots: nat, snapshots: seq<Snapshot>, tracked: set<Path>, sequence: nat,
    recordSeq: nat, disabled: bool)

  /** The workspace, the checkpoints directory, the snapshot log and the clock. */
  datatype Disk = Disk(files: map<Path, File>, store: map<BackupName, File>, log: seq<Record>, now: nat)

  datatype Session = Session(state: State, disk: Disk)

  function View(files: map<Path, File>, p: Path): Content {
    if p in files then Present(files[p].data, files[p].mode) else Missing
  }

  /** The content a backup stands for. */
  function BackupContent(store: map<BackupName, File>, b: Backup): Content
    requires b.name == NoFile || b.name in store
  {
    if b.name == NoFile then Missing else Present(store[b.name].data, store[b.name].mode)
  }

  // ---- Lookups ----

  function Latest(snapshots: seq<Snapshot>, p: Path): Option<Backup> {
    if snapshots == [] then None
    else
      var last := snapshots[|snapshots| - 1];
      if p in last.backups then Some(last.backups[p]) else Latest(snapshots[..|snapshots| - 1], p)
  }

  function Earliest(snapshots: seq<Snapshot>, p: Path): Option<Backup> {
    if snapshots == [] then None
    else if p in snapshots[0].backups then Some(snapshots[0].backups[p])
    else Earliest(snapshots[1..], p)
  }

  /** The newest retained snapshot with the given id. */
  function Find(snapshots: seq<Snapshot>, id: string): (r: Option<nat>)
    ensures r.Some? ==> r.value < |snapshots| && snapshots[r.value].id == id
    ensures r.Some? ==> forall i :: r.value < i < |snapshots| ==> snapshots[i].id != id
    ensures r.None? ==> forall i :: 0 <= i < |snapshots| ==> snapshots[i].id != id
  {
    if snapshots == [] then None
    else if snapshots[|snapshots| - 1].id == id then Some(|snapshots| - 1)
    else Find(snapshots[..|snapshots| - 1], id)
  }

  function Known(s: State): (r: set<Path>)
    ensures forall p :: p in r <==> p in s.tracked || exists i :: 0 <= i < |s.snapshots| && p in s.snapshots[i].backups
  {
    s.tracked + BackedUp(s.snapshots)
  }

  function BackedUp(snapshots: seq<Snapshot>): (r: set<Path>)
    ensures forall p :: p in r <==> exists i :: 0 <= i < |snapshots| && p in snapshots[i].backups
  {
    set i, p | 0 <= i < |snapshots| && p in snapshots[i].backups :: p
  }

  // ---- Snapshots ----

  /** Whether a tracked file must be copied again; an unreadable backup counts as changed. */
  predicate FileChanged(d: Disk, p: Path, b: Backup) {
    if b.name == NoFile then p in d.files
    else if p !in d.files then true
    else if b.name !in d.store then true
    else if d.files[p].mode != d.store[b.name].mode || |d.files[p].data| != |d.store[b.name].data| then true
    else if d.files[p].mtime < b.time then false
    else d.files[p].data != d.store[b.name].data
  }

  function NewBackup(d: Disk, p: Path, version: nat): Backup {
    Backup(if p in d.files then Versioned(p, version) else NoFile, version, d.now)
  }

  /** The backup a new snapshot holds for a tracked path. */
  function SnapshotBackup(s: State, d: Disk, p: Path): Backup {
    match Latest(s.snapshots, p)
    case None => NewBackup(d, p, 1)
    case Some(previous) => if FileChanged(d, p, previous) then NewBackup(d, p, previous.version + 1) else previous
  }

  predicate Copies(s: State, d: Disk, p: Path) {
    p in d.files &&
    match Latest(s.snapshots, p)
    case None => true
    case Some(previous) => FileChanged(d, p, previous)
  }

  function StoreCopy(d: Disk, p: Path, version: nat): map<BackupName, File> {
    if p in d.files then d.store[Versioned(p, version) := d.files[p].(mtime := d.now)] else d.store
  }

  function Append(s: State, snapshot: Snapshot): State {
    s.(snapshots := Suffix(s.snapshots + [snapshot], s.maxSnapshots), sequence := s.sequence + 1)
  }

  function Log(ss: Session, snapshot: Snapshot, update: bool): Session {
    Session(
      ss.state.(recordSeq := ss.state.recordSeq + 1),
      ss.disk.(log := ss.disk.log + [Record(ss.state.recordSeq, update, snapshot)]))
  }

  predicate IsLatest(s: State, id: string) {
    |s.snapshots| > 0 && s.snapshots[|s.snapshots| - 1].id == id
  }

  /** Whether snapshotting the given paths writes a copy under this name. */
  predicate CopiedTo(s: State, d: Disk, paths: set<Path>, name: BackupName) {
    name.Versioned? && name.path in paths && Copies(s, d, name.path) && SnapshotBackup(s, d, name.path).name == name
  }

  /** The store after every given path that needs a copy got one. */
  function CopyChanged(s: State, d: Disk, paths: set<Path>): map<BackupName, File> {
    map name | name in d.store.Keys + (set p | p in paths && Copies(s, d, p) :: SnapshotBackup(s, d, p).name)
      :: if CopiedTo(s, d, paths, name) then d.files[name.path].(mtime := d.now) else d.store[name]
  }

  function MakeSnapshot(ss: Session, id: string): Session {
    var s, d := ss.state, ss.disk;
    if s.disabled || IsLatest(s, id) then ss
    else
      var snapshot := Snapshot(id, map p | p in s.tracked :: SnapshotBackup(s, d, p));
      Log(Session(Append(s, snapshot), d.(store := CopyChanged(s, d, s.tracked))), snapshot, false)
  }

  // ---- Edits ----

  /** The id TrackEdit works under, or None when it simply uses the latest snapshot. */
  function OpeningId(s: State, id: string): Option<string> {
    if id == "" && |s.snapshots| > 0 then None
    else
      var name := if id == "" then Itoa(s.sequence) else id;
      if IsLatest(s, name) then None else Some(name)
  }

  function EnsureLatest(s: State, id: string): State {
    match OpeningId(s, id)
    case None => s
    case Some(name) => Append(s, Snapshot(name, map[]))
  }

  /** Backs p up in the latest snapshot, unless it already is. */
  function TrackOnLatest(ss: Session, p: Path): Session
    requires ss.state.snapshots != []
  {
    var s, d := ss.state, ss.disk;
    var last := |s.snapshots| - 1;
    if p in s.snapshots[last].backups then ss
    else
      var snapshot := s.snapshots[last].(backups := s.snapshots[last].backups[p := NewBackup(d, p, 1)]);
      Log(Session(
        s.(tracked := s.tracked + {p}, snapshots := s.snapshots[last := snapshot]),
        d.(store := StoreCopy(d, p, 1))), snapshot, true)
  }

  function TrackEdit(ss: Session, p: Path, id: string): Session {
    var s1 := EnsureLatest(ss.state, id);
    if ss.state.disabled || s1.snapshots == [] then ss else TrackOnLatest(ss.(state := s1), p)
  }

  // ---- Rewind ----

  function BackupFor(s: State, i: nat, p: Path): Option<Backup>
    requires i < |s.snapshots|
  {
    if p in s.snapshots[i].backups then Some(s.snapshots[i].backups[p]) else Earliest(s.snapshots, p)
  }

  /** Whether a file differs from a backup; None when the backup file is unreadable. */
  function Differs(d: Disk, p: Path, b: Backup): Option<bool> {
    if b.name == NoFile then Some(p in d.files)
    else if b.name !in d.store then None
    else if p !in d.files then Some(true)
    else Some(d.files[p].mode != d.store[b.name].mode || d.files[p].data != d.store[b.name].data)
  }

  predicate Restores(s: State, d: Disk, i: nat, p: Path)
    requires i < |s.snapshots|
  {
    var b := BackupFor(s, i, p);
    b.Some? && Differs(d, p, b.value) == Some(true)
  }

  /** The paths a rewind to snapshot i rewrites or removes. */
  function RewindChanged(s: State, d: Disk, i: nat): set<Path>
    requires i < |s.snapshots|
  {
    set p | p in Known(s) && Restores(s, d, i, p)
  }

  /** The workspace after restoring the given paths from snapshot i. */
  function Restored(s: State, d: Disk, i: nat, paths: set<Path>): map<Path, File>
    requires i < |s.snapshots|
  {
    var rewritten := set p | p in paths && Restores(s, d, i, p);
    map p | p in d.files.Keys + rewritten &&
            (p in rewritten ==> BackupFor(s, i, p).value.name != NoFile)
      :: if p in rewritten then d.store[BackupFor(s, i, p).value.name].(mtime := d.now) else d.files[p]
  }

  /** None when no retained snapshot has the id; otherwise the new session and the changed paths. */
  function Rewind(ss: Session, id: string): Option<(Session, set<Path>)> {
    match Find(ss.state.snapshots, id)
    case None => None
    case Some(i) =>
      var files := Restored(ss.state, ss.disk, i, Known(ss.state));
      Some((ss.(disk := ss.disk.(files := files)), RewindChanged(ss.state, ss.disk, i)))
  }

  function HasAnyChanges(ss: Session, id: string): Option<bool> {
    match Find(ss.state.snapshots, id)
    case None => None
    case Some(i) => Some(RewindChanged(ss.state, ss.disk, i) != {})
  }

  // ---- The snapshot log ----

  function ReplayRecord(s: State, r: Record): State {
    if exists i :: 0 <= i < |s.snapshots| && s.snapshots[i].id == r.snapshot.id
    then s.(snapshots := ReplaceFirst(s.snapshots, r.snapshot))
    else Append(s, r.snapshot)
  }

  function ReplaceFirst(snapshots: seq<Snapshot>, snapshot: Snapshot): (r: seq<Snapshot>)
    ensures |r| == |snapshots|
    ensures forall i :: 0 <= i < |r| ==> r[i].id == snapshots[i].id
  {
    if snapshots == [] then []
    else if snapshots[0].id == snapshot.id then [snapshot] + snapshots[1..]
    else [snapshots[0]] + ReplaceFirst(snapshots[1..], snapshot)
  }

  lemma {:induction false} ReplaceFirstUnique(snapshots: seq<Snapshot>, snapshot: Snapshot, k: nat)
    requires k < |snapshots| && snapshots[k].id == snapshot.id
    requires forall i :: 0 <= i < k ==> snapshots[i].id != snapshot.id
    ensures ReplaceFirst(snapshots, snapshot) == snapshots[k := snapshot]
  {
    if k > 0 {
      ReplaceFirstUnique(snapshots[1..], snapshot, k - 1);
      assert snapshots[k := snapshot] == [snapshots[0]] + snapshots[1..][k - 1 := snapshot];
    }
  }

  function ReplayOne(s: State, r: Record): State {
    var s' := ReplayRecord(s, r);
    if r.seqno >= s.recordSeq then s'.(recordSeq := r.seqno + 1) else s'
  }

  function Replay(s: State, log: seq<Record>): State {
    if log == [] then s else ReplayOne(Replay(s, log[..|log| - 1]), log[|log| - 1])
  }

  function Blank(s: State): State {
    s.(snapshots := [], tracked := {}, sequence := 0, recordSeq := 0)
  }

  function RestoreState(ss: Session): Session {
    var s := Replay(Blank(ss.state), ss.disk.log);
    ss.(state := s.(tracked := BackedUp(s.snapshots)))
  }
}
