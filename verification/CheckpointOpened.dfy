/**
 * Which snapshots survive: whatever happens, the retained ones are the last that were opened, as many as the
 * limit allows, and each of them can be rewound to.
 */
module CheckpointOpened {
  import opened Common
  import opened Checkpoint
  import opened CheckpointRewind
  import opened CheckpointLog

  /** A snapshot that was opened: its id and the whole workspace at that moment. */
  datatype Opened = Opened(id: string, tree: map<Path, File>)

  /** Every snapshot a run opened, retained or not, in order. */
  function AllOpened(h: History, events: seq<Event>): seq<Opened> {
    if events == [] then []
    else
      var before := AllOpened(h, events[..|events| - 1]);
      var ss := Run(h, events[..|events| - 1]).session;
      match Opening(ss.state, events[|events| - 1])
      case None => before
      case Some(id) => before + [Opened(id, ss.disk.files)]
  }

  /**
   * Snapshots are opened by asking for another id than the latest, and by an edit without an id only when there
   * is none, under the number of those opened so far.
   */
  lemma OpensWhen(s: State, e: Event)
    ensures Opening(s, e).Some? <==>
            !s.disabled &&
              match e
              case Snap(id) => s.snapshots == [] || s.snapshots[|s.snapshots| - 1].id != id
              case Track(_, id) =>
                s.snapshots == [] || (id != "" && s.snapshots[|s.snapshots| - 1].id != id)
              case _ => false
    ensures Opening(s, e).Some? ==>
              match e
              case Snap(id) => Opening(s, e).value == id
              case Track(_, id) => Opening(s, e).value == if id == "" then Itoa(s.sequence) else id
              case _ => false
  {
  }

  /** An edit of a path leaves it backed up in the latest snapshot, and a tracked path is never forgotten by it. */
  lemma EditBacksUp(ss: Session, p: Path, id: string)
    requires ss.state.maxSnapshots > 0
    ensures var s, r := ss.state, TrackEdit(ss, p, id).state;
            if s.disabled then TrackEdit(ss, p, id) == ss
            else
              && r.snapshots != [] && p in r.snapshots[|r.snapshots| - 1].backups
              && s.tracked <= r.tracked <= s.tracked + {p}
              && (id != "" ==> r.snapshots[|r.snapshots| - 1].id == id)
              && (id == "" && s.snapshots != [] ==> |r.snapshots| == |s.snapshots| && r.sequence == s.sequence)
              && TrackEdit(ss, p, id).disk.files == ss.disk.files
  {
    hide Suffix;
    SuffixLast(ss.state.snapshots, ss.state.maxSnapshots, if id == "" then Itoa(ss.state.sequence) else id);
  }

  lemma SuffixLast(snapshots: seq<Snapshot>, max: nat, name: string)
    requires max > 0
    ensures var r := Suffix(snapshots + [Snapshot(name, map[])], max);
            r != [] && r[|r| - 1] == Snapshot(name, map[])
  {
  }

  /** The retained snapshots and their trees, counted from the newest, are the last opened ones. */
  ghost predicate RetainsLast(h: History, made: seq<Opened>) {
    var snapshots, trees, max := h.session.state.snapshots, h.trees, h.session.state.maxSnapshots;
    && |snapshots| == |trees| == (if |made| < max then |made| else max)
    && forall i | 0 <= i < |snapshots| ::
         var o := made[|made| - |snapshots| + i];
         snapshots[i].id == o.id && trees[i] == o.tree
  }

  /** A step that opens nothing keeps ids and trees; one that opens appends, and evicts only beyond the limit. */
  lemma StepRetains(h: History, e: Event, made: seq<Opened>)
    requires RetainsLast(h, made) && h.session.state.maxSnapshots > 0 && Admissible(h, e)
    ensures Step(h, e).session.state.maxSnapshots == h.session.state.maxSnapshots
    ensures RetainsLast(Step(h, e),
                        match Opening(h.session.state, e)
                        case None => made
                        case Some(id) => made + [Opened(id, h.session.disk.files)])
  {
    hide Step, Admissible;
    match e
    case Snap(id) => SnapRetains(h, id, made);
    case Track(p, id) => TrackRetains(h, p, id, made);
    case _ => OthersOpenNothing(h, e);
  }

  lemma OthersOpenNothing(h: History, e: Event)
    requires Admissible(h, e) && !e.Snap? && !e.Track?
    ensures Step(h, e).trees == h.trees && Opening(h.session.state, e).None?
    ensures Step(h, e).session.state.snapshots == h.session.state.snapshots
    ensures Step(h, e).session.state.maxSnapshots == h.session.state.maxSnapshots
  {
    hide MakeSnapshot, TrackEdit, RestoreState, Restored, Known, RewindChanged;
  }

  /** Appending one snapshot of the present, with its tree. */
  lemma AppendRetains(h: History, h': History, made: seq<Opened>, snapshot: Snapshot)
    requires RetainsLast(h, made) && h.session.state.maxSnapshots > 0
    requires h'.session.state.maxSnapshots == h.session.state.maxSnapshots
    requires |h'.session.state.snapshots| == |Append(h.session.state, snapshot).snapshots|
    requires forall i | 0 <= i < |h'.session.state.snapshots| ::
               h'.session.state.snapshots[i].id == Append(h.session.state, snapshot).snapshots[i].id
    requires h'.trees == Suffix(h.trees + [h.session.disk.files], h.session.state.maxSnapshots)
    ensures RetainsLast(h', made + [Opened(snapshot.id, h.session.disk.files)])
  {
  }

  lemma SnapRetains(h: History, id: string, made: seq<Opened>)
    requires RetainsLast(h, made) && h.session.state.maxSnapshots > 0
    ensures var s, s' := h.session.state, Step(h, Snap(id)).session.state;
            && s'.maxSnapshots == s.maxSnapshots
            && RetainsLast(Step(h, Snap(id)),
                           if Opening(s, Snap(id)).None? then made else made + [Opened(id, h.session.disk.files)])
  {
    var s, d := h.session.state, h.session.disk;
    if Opening(s, Snap(id)).Some? {
      AppendRetains(h, Step(h, Snap(id)), made, Snapshot(id, map p | p in s.tracked :: SnapshotBackup(s, d, p)));
    }
  }

  lemma TrackRetains(h: History, p: Path, id: string, made: seq<Opened>)
    requires RetainsLast(h, made) && h.session.state.maxSnapshots > 0
    ensures var s, s' := h.session.state, Step(h, Track(p, id)).session.state;
            && s'.maxSnapshots == s.maxSnapshots
            && RetainsLast(Step(h, Track(p, id)),
                           match Opening(s, Track(p, id))
                           case None => made
                           case Some(name) => made + [Opened(name, h.session.disk.files)])
  {
    hide CopyChanged, NewBackup, StoreCopy, Itoa;
    var s := h.session.state;
    if Opening(s, Track(p, id)).Some? {
      AppendRetains(h, Step(h, Track(p, id)), made, Snapshot(OpeningId(s, id).value, map[]));
    }
  }

  /** After any run the retained snapshots are the last min(opened, limit) that were opened. */
  lemma {:induction false} RetainedAreLastOpened(h: History, events: seq<Event>)
    requires Initial(h) && AdmissibleRun(h, events)
    ensures RetainsLast(Run(h, events), AllOpened(h, events))
    ensures Run(h, events).session.state.maxSnapshots == h.session.state.maxSnapshots
  {
    if events != [] {
      RetainedAreLastOpened(h, events[..|events| - 1]);
      StepRetains(Run(h, events[..|events| - 1]), events[|events| - 1], AllOpened(h, events[..|events| - 1]));
    }
  }

  /** The j-th snapshot opened is among the last that the limit allows, and none of those after it has its id. */
  predicate StillThere(made: seq<Opened>, max: nat, j: nat) {
    j < |made| && |made| - j <= max && forall i :: j < i < |made| ==> made[i].id != made[j].id
  }

  /** Each retained snapshot was the one opened as many places before the last. */
  lemma SameIDs(end: History, made: seq<Opened>)
    requires RetainsLast(end, made)
    ensures |end.session.state.snapshots| <= |made|
    ensures |end.session.state.snapshots| == if |made| < end.session.state.maxSnapshots then |made|
                                             else end.session.state.maxSnapshots
    ensures forall i :: 0 <= i < |end.session.state.snapshots| ==>
            end.session.state.snapshots[i].id == made[|made| - |end.session.state.snapshots| + i].id
  {
  }

  lemma OpenedFound(end: History, made: seq<Opened>, j: nat)
    requires RetainsLast(end, made) && StillThere(made, end.session.state.maxSnapshots, j)
    ensures |made| - |end.session.state.snapshots| <= j
    ensures Find(end.session.state.snapshots, made[j].id) == Some(j - (|made| - |end.session.state.snapshots|))
  {
    hide RetainsLast, Find;
    SameIDs(end, made);
    var snapshots := end.session.state.snapshots;
    var evicted := |made| - |snapshots|;
    assert snapshots[j - evicted].id == made[j].id;
    var found := Find(snapshots, made[j].id);
    assert found.Some? && found.value >= j - evicted;
    assert snapshots[found.value].id == made[evicted + found.value].id;
  }

  lemma FoundOpened(end: History, made: seq<Opened>, id: string)
    requires RetainsLast(end, made) && Find(end.session.state.snapshots, id).Some?
    ensures var j := Find(end.session.state.snapshots, id).value + |made| - |end.session.state.snapshots|;
            j >= 0 && StillThere(made, end.session.state.maxSnapshots, j) && made[j].id == id
  {
    hide RetainsLast, Find;
    SameIDs(end, made);
    var snapshots := end.session.state.snapshots;
    var i, evicted := Find(snapshots, id).value, |made| - |snapshots|;
    assert snapshots[i].id == made[evicted + i].id;
    forall k | i + evicted < k < |made| ensures made[k].id != made[i + evicted].id {
      assert snapshots[k - evicted].id == made[evicted + (k - evicted)].id;
    }
    Limit(end, made);
  }

  lemma Limit(end: History, made: seq<Opened>)
    requires RetainsLast(end, made)
    ensures |end.session.state.snapshots| <= end.session.state.maxSnapshots
  {
  }

  /**
   * From a fresh checkpointer, through edits, snapshots, evictions, rewinds and restarts: each of the last
   * opened snapshots, up to the limit, can be rewound to by its id, and the whole workspace is then what it was
   * when that snapshot was opened. No other id can be rewound to.
   */
  lemma RewindToLastOpened(h: History, events: seq<Event>, id: string)
    requires Empty(h) && OwedRun(h, events) && FreshUpToRestarts(h, events)
    ensures forall j: nat | StillThere(AllOpened(h, events), h.session.state.maxSnapshots, j) &&
                            AllOpened(h, events)[j].id == id ::
              RewindGives(Run(h, events).session, id, AllOpened(h, events)[j].tree)
    ensures Rewind(Run(h, events).session, id).Some? ==>
            exists j: nat :: StillThere(AllOpened(h, events), h.session.state.maxSnapshots, j) &&
              AllOpened(h, events)[j].id == id
  {
    RestartsExactIffFresh(h, events);
    RetainedAreLastOpened(h, events);
    hide Run, AllOpened, OwedRun, AdmissibleRun, FreshUpToRestarts, StillThere, RetainsLast, RewindExact, RewindGives;
    var end, made := Run(h, events), AllOpened(h, events);
    forall j: nat | StillThere(made, h.session.state.maxSnapshots, j) && made[j].id == id
      ensures RewindGives(end.session, id, made[j].tree)
    {
      RewindAfterRestarts(h, events, id);
      LastOpenedBack(end, made, j);
    }
    if Find(end.session.state.snapshots, id).Some? {
      FoundOpened(end, made, id);
    }
  }

  lemma LastOpenedBack(end: History, made: seq<Opened>, j: nat)
    requires RetainsLast(end, made) && StillThere(made, end.session.state.maxSnapshots, j)
    requires RewindExact(end, made[j].id)
    ensures RewindGives(end.session, made[j].id, made[j].tree)
  {
    hide StillThere, Rewind, View, Find, RetainsLast;
    OpenedFound(end, made, j);
    TreeOf(end, made, j - (|made| - |end.session.state.snapshots|));
  }

  lemma TreeOf(end: History, made: seq<Opened>, i: nat)
    requires RetainsLast(end, made) && i < |end.session.state.snapshots|
    ensures |made| >= |end.session.state.snapshots| == |end.trees|
    ensures end.trees[i] == made[|made| - |end.session.state.snapshots| + i].tree
  {
  }

  /** A rewind to the id succeeds and makes the workspace this tree. */
  ghost predicate RewindGives(ss: Session, id: string, tree: map<Path, File>) {
    Rewind(ss, id).Some? && forall p: Path :: View(Rewind(ss, id).value.0.disk.files, p) == View(tree, p)
  }
}
