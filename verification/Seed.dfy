/** Reconciling the ledger with a backlog (Seed in internal/autodev/ledger.go), as a function. */
module Seed {
  import opened Common
  import opened LedgerItems
  import Slug

  /** A backlog item, by what reconciliation reads of it. */
  datatype Item = Item(sourceID: Text, title: Text, description: Text, priority: Priority)

  function Normalized(sources: seq<Item>): (r: seq<Item>)
    ensures |r| == |sources|
  {
    seq(|sources|, i requires 0 <= i < |sources| => sources[i].(sourceID := Text(Trim(sources[i].sourceID.chars))))
  }

  /** Explicit ids are unique, and so are the titles of items without one. */
  ghost predicate ValidSources(sources: seq<Item>) {
    && (forall i, j :: 0 <= i < j < |sources| && sources[i].sourceID != EMPTY ==>
        sources[i].sourceID != sources[j].sourceID)
    && (forall i, j :: 0 <= i < j < |sources| && sources[i].sourceID == EMPTY && sources[j].sourceID == EMPTY ==>
          sources[i].title != sources[j].title)
  }

  /** What a record is looked up by. */
  datatype Key = BySource(id: Text) | ByTitle(title: Text)

  function KeyOf(it: LedgerItem): Key {
    if it.sourceID != EMPTY then BySource(it.sourceID) else ByTitle(it.revision.title)
  }

  /** Which record each source matched, in source order. */
  type Matching = seq<Option<nat>>

  predicate Used(m: Matching, k: nat) {
    Some(k) in m
  }

  /** The records still to be matched that a key finds, in order. */
  function Candidates(items: seq<LedgerItem>, m: Matching, key: Key, n: nat): (r: seq<nat>)
    requires n <= |items|
    ensures forall k <- r :: k < n && KeyOf(items[k]) == key && Some(k) !in m
    ensures forall k :: 0 <= k < n && KeyOf(items[k]) == key && Some(k) !in m ==> k in r
    ensures forall i, j :: 0 <= i < j < |r| ==> r[i] != r[j]
  {
    if n == 0 then []
    else
      var init := Candidates(items, m, key, n - 1);
      if KeyOf(items[n - 1]) == key && Some(n - 1) !in m then init + [n - 1] else init
  }

  /** By explicit id if that finds anything, else by title among records without one. */
  function Choices(items: seq<LedgerItem>, m: Matching, source: Item): (r: seq<nat>)
    ensures forall k <- r :: k < |items| && Some(k) !in m
  {
    var found := if source.sourceID != EMPTY then Candidates(items, m, BySource(source.sourceID), |items|) else [];
    if found == [] then Candidates(items, m, ByTitle(source.title), |items|) else found
  }

  /** None if some source finds more than one record. */
  function Match(items: seq<LedgerItem>, sources: seq<Item>, n: nat): (r: Option<Matching>)
    requires n <= |sources|
    ensures r.Some? ==> |r.value| == n && forall i :: 0 <= i < n && r.value[i].Some? ==> r.value[i].value < |items|
  {
    if n == 0 then Some([])
    else
      var before := Match(items, sources, n - 1);
      if before.None? then None
      else
        var choices := Choices(items, before.value, sources[n - 1]);
        if |choices| > 1 then None
        else Some(before.value + [if choices == [] then None else Some(choices[0])])
  }

  /** An unmatched source that some unmatched record could be the former self of. */
  ghost predicate Confusing(items: seq<LedgerItem>, sources: seq<Item>, m: Matching)
    requires |m| == |sources|
  {
    exists i, k ::
      0 <= i < |m| && m[i].None? && 0 <= k < |items| && !Used(m, k) &&
      (items[k].sourceID == EMPTY || items[k].revision.title == sources[i].title)
  }

  /** A matched record; the flag tells of a frozen requirement that changed in the backlog. */
  function Reconciled(it: LedgerItem, source: Item, order: int): (LedgerItem, bool) {
    var placed := it.(sourceOrder := order);
    var revision := MakeRevision(source.title, source.description);
    if it.legacyPending then
      (placed.(sourceID := source.sourceID, revision := revision, priority := source.priority,
               frozen := !it.status.Pending?, legacyPending := false, sourceState := Current), false)
    else if it.status.InProgress? &&
      (it.revision.title != source.title || it.revision.description != source.description) then
      (placed.(sourceState := Blocked), true)
    else
      var bound := placed.(sourceID := if it.sourceID == EMPTY then source.sourceID else it.sourceID,
                           sourceState := Current);
      (if it.status.Pending? then bound.(revision := revision, priority := source.priority) else bound, false)
  }

  /** A record whose source is gone. */
  function Absent(it: LedgerItem): LedgerItem {
    if it.status.OtherStatus? then it else it.(sourceState := AbsentState(it.status))
  }

  function NewID(source: Item): ItemID {
    if source.sourceID != EMPTY then FromSource(source.sourceID) else FromTitle(source.title)
  }

  function SlugSet(items: seq<LedgerItem>): (r: set<string>)
    ensures forall i :: 0 <= i < |items| ==> items[i].slug.chars in r
    ensures forall s <- r :: exists i :: 0 <= i < |items| && items[i].slug.chars == s
  {
    set i | 0 <= i < |items| :: items[i].slug.chars
  }

  function Fresh(source: Item, order: int, slug: Text): LedgerItem {
    LedgerItem(NewID(source), source.sourceID, slug, MakeRevision(source.title, source.description), false, false,
               Current, order, source.priority, Pending, EMPTY, StageNone, StagePending, 0, 0, [], [], EMPTY)
  }

  /** The source that matched a record, if any. */
  function SourceOf(m: Matching, k: nat, n: nat): (r: Option<nat>)
    requires n <= |m|
    ensures r.Some? ==> r.value < n && m[r.value] == Some(k)
    ensures r.None? ==> forall i :: 0 <= i < n ==> m[i] != Some(k)
  {
    if n == 0 then None else if m[n - 1] == Some(k) then Some(n - 1) else SourceOf(m, k, n - 1)
  }

  function ReconciledAt(items: seq<LedgerItem>, sources: seq<Item>, m: Matching, k: nat): LedgerItem
    requires k < |items| && |m| == |sources|
  {
    var i := SourceOf(m, k, |m|);
    if i.Some? then Reconciled(items[k], sources[i.value], i.value).0 else Absent(items[k])
  }

  /** Every existing record, reconciled with its source or without one. */
  function Existing(items: seq<LedgerItem>, sources: seq<Item>, m: Matching): (r: seq<LedgerItem>)
    requires |m| == |sources|
    ensures |r| == |items|
    ensures forall k :: 0 <= k < |items| ==> r[k] == ReconciledAt(items, sources, m, k)
  {
    seq(|items|, k requires 0 <= k < |items| => ReconciledAt(items, sources, m, k))
  }

  /** How many of the first n sources matched no record. */
  function NewBefore(m: Matching, n: nat): nat
    requires n <= |m|
  {
    if n == 0 then 0 else NewBefore(m, n - 1) + (if m[n - 1].Some? then 0 else 1)
  }

  function NewSlug(before: seq<LedgerItem>, source: Item): Text {
    Text(Slug.SlugOf(Slug.Lower(source.title.chars), SlugSet(before)))
  }

  /** The existing records, and a new one for each of the first n sources that matched none. */
  function Appended(existing: seq<LedgerItem>, sources: seq<Item>, m: Matching, n: nat): (r: seq<LedgerItem>)
    requires n <= |m| == |sources|
    ensures |r| == |existing| + NewBefore(m, n)
    ensures forall k :: 0 <= k < |existing| ==> r[k] == existing[k]
  {
    if n == 0 then existing
    else
      var before := Appended(existing, sources, m, n - 1);
      if m[n - 1].Some? then before
      else before + [Fresh(sources[n - 1], n - 1, NewSlug(before, sources[n - 1]))]
  }

  /** Some in-progress record changed in the backlog or is missing from it. */
  ghost predicate Stuck(items: seq<LedgerItem>, sources: seq<Item>, m: Matching)
    requires |m| == |sources|
  {
    || (exists i ::
          0 <= i < |m| && m[i].Some? && m[i].value < |items| && Reconciled(items[m[i].value], sources[i], i).1)
    || (exists k :: 0 <= k < |items| && items[k].status.InProgress? && !Used(m, k))
  }

  /** Sources that reconciliation refuses without touching the ledger. */
  ghost predicate Refused(items: seq<LedgerItem>, sources: seq<Item>) {
    !ValidSources(sources) || Match(items, sources, |sources|).None? ||
    Confusing(items, sources, Match(items, sources, |sources|).value)
  }

  /** The ledger after reconciliation with normalized sources. */
  ghost function Seeded(items: seq<LedgerItem>, sources: seq<Item>): seq<LedgerItem> {
    if Refused(items, sources) then items
    else
      var m := Match(items, sources, |sources|).value;
      Appended(Existing(items, sources, m), sources, m, |m|)
  }

  ghost predicate SeedFails(items: seq<LedgerItem>, sources: seq<Item>) {
    Refused(items, sources) || Stuck(items, sources, Match(items, sources, |sources|).value)
  }
}
