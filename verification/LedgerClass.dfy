/** The ledger object: items in memory, their file, and the operations on both (internal/autodev/ledger.go). */
module LedgerClass {
  import opened Common
  import opened LedgerItems
  import opened Seed
  import SeedProofs
  import Slug

  /** How a commit went: refused before any write, not written, or renamed into place with or without a later error. */
  datatype Commit = NotFound | Rejected | Unwritten | Written(failed: bool)

  /** What a commit of this mutation makes of the items; None if a validator refuses it. */
  ghost function Candidate(items: seq<LedgerItem>, i: nat, after: LedgerItem): (r: Option<seq<LedgerItem>>)
    requires i < |items|
  {
    var frozen := Freeze(items[i], after);
    if ValidMutation(items[i], frozen) && ValidItems(items[i := frozen]) then Some(items[i := frozen]) else None
  }

  class Ledger {
    var items: seq<LedgerItem>
    var file: seq<LedgerItem>

    constructor (file: seq<LedgerItem>)
      ensures items == [] && this.file == file
    {
      items, this.file := [], file;
    }

    /** Reads the file; one that does not pass the validator is refused. A missing file is an empty one. */
    method Load() returns (failed: bool)
      modifies this`items
      ensures failed <==> !ValidItems(file)
      ensures items == if failed then old(items) else file
    {
      var valid := Validate(file);
      failed := !valid;
      if valid {
        items := file;
      }
    }

    /** validateLedgerItems: record by record, with the ids and source ids seen so far. */
    static method Validate(items: seq<LedgerItem>) returns (valid: bool)
      ensures valid <==> ValidItems(items)
    {
      hide ValidItem, ValidItems, Seen;
      var ids: set<ItemID>, sources: set<Text> := {}, {};
      SeenNothing();
      var i := 0;
      while i < |items|
        invariant 0 <= i <= |items|
        invariant ValidItems(items[..i]) && Seen(items[..i], ids, sources)
      {
        var it := items[i];
        assert items[..i + 1] == items[..i] + [it];
        SeenMore(items[..i], it, ids, sources);
        if !ValidItem(it) || it.itemID in ids || (it.sourceID != EMPTY && it.sourceID in sources) {
          if ValidItems(items) {
            ValidPrefix(items, i + 1);
          }
          return false;
        }
        ids := ids + {it.itemID};
        if it.sourceID != EMPTY {
          sources := sources + {it.sourceID};
        }
        i := i + 1;
      }
      assert items[..i] == items;
      valid := true;
    }

    /** Writes a validated snapshot to a temporary file and renames it; only the rename commits. */
    method Persist(candidate: seq<LedgerItem>) returns (committed: bool, failed: bool)
      modifies this`file
      ensures committed ==> ValidItems(candidate) && file == candidate
      ensures !committed ==> failed && file == old(file)
    {
      var valid := Validate(candidate);
      if !valid {
        return false, true;
      }
      var written: bool := *;
      if !written {
        return false, true;
      }
      file := candidate;
      failed := *;
      committed := true;
    }

    method Save() returns (failed: bool)
      modifies this`file
      ensures !failed ==> ValidItems(items) && file == items
      ensures file == old(file) || (ValidItems(items) && file == items)
    {
      var committed;
      committed, failed := Persist(items);
    }

    /** Applies a mutation to the record with this slug; memory follows the file and never runs ahead of it. */
    method Commit(slug: Text, mut: LedgerItem -> LedgerItem) returns (r: Commit)
      modifies this
      ensures r.NotFound? <==> Find(old(items), slug).None?
      ensures r.NotFound? || r.Rejected? || r.Unwritten? ==> items == old(items) && file == old(file)
      ensures Find(old(items), slug).Some? ==>
                var i := Find(old(items), slug).value;
                var candidate := Candidate(old(items), i, mut(old(items)[i]));
                && (r.Rejected? <==> candidate.None?)
                && (r.Written? ==> candidate == Some(items) && file == items)
      ensures r.Written? ==>
                var i := Find(old(items), slug).value;
                && |items| == |old(items)| && items == old(items)[i := items[i]] && SameSource(old(items)[i], items[i])
                && items[i].frozen ==
                   (old(items)[i].frozen || (old(items)[i].status.Pending? && !items[i].status.Pending?))
                && (old(items)[i].issue > 0 ==> items[i].issue == old(items)[i].issue)
    {
      hide ValidItems, ValidMutation, SameSource;
      var found := Find(items, slug);
      if found.None? {
        return NotFound;
      }
      var i := found.value;
      var after := Freeze(items[i], mut(items[i]));
      if !ValidMutation(items[i], after) {
        return Rejected;
      }
      MutationKeeps(items[i], after);
      var candidate := items[i := after];
      var valid := Validate(candidate);
      if !valid {
        return Rejected;
      }
      var committed, failed := Persist(candidate);
      if committed {
        items := candidate;
        return Written(failed);
      }
      r := Unwritten;
    }

    /** The in-memory form of a mutation; a refused one leaves the record as it was. */
    method Mark(slug: Text, mut: LedgerItem -> LedgerItem) returns (failed: bool)
      modifies this`items
      ensures Find(old(items), slug).None? ==> items == old(items) && !failed
      ensures Find(old(items), slug).Some? ==>
                var i := Find(old(items), slug).value;
                var after := Freeze(old(items)[i], mut(old(items)[i]));
                (failed <==> !ValidMutation(old(items)[i], after)) &&
                items == if failed then old(items) else old(items)[i := after]
    {
      var found := Find(items, slug);
      if found.None? {
        return false;
      }
      var i := found.value;
      var after := Freeze(items[i], mut(items[i]));
      if !ValidMutation(items[i], after) {
        return true;
      }
      items := items[i := after];
      failed := false;
    }

    /** Reconciles with a backlog, in memory only. */
    method Seed(backlog: seq<Item>) returns (failed: bool)
      modifies this`items
      ensures items == Seeded(old(items), Normalized(backlog))
      ensures failed <==> SeedFails(old(items), Normalized(backlog))
    {
      hide Match, Appended, Existing, Confusing, Stuck, ValidSources;
      var sources := Normalized(backlog);
      var ok := ValidateSources(sources);
      if !ok {
        return true;
      }
      var matched := MatchSources(items, sources);
      if matched.None? {
        return true;
      }
      var m := matched.value;
      var confusing := FindConfusing(items, sources, m);
      if confusing {
        return true;
      }
      var candidate, stuck := Reconcile(items, sources, m);
      candidate := Append(candidate, sources, m);
      items := candidate;
      failed := stuck;
    }

    static method ValidateSources(sources: seq<Item>) returns (ok: bool)
      ensures ok <==> ValidSources(sources)
    {
      var ids: set<Text>, titles: set<Text> := {}, {};
      var i := 0;
      while i < |sources|
        invariant 0 <= i <= |sources|
        invariant ids == set k | 0 <= k < i && sources[k].sourceID != EMPTY :: sources[k].sourceID
        invariant titles == set k | 0 <= k < i && sources[k].sourceID == EMPTY :: sources[k].title
        invariant ValidSources(sources[..i])
      {
        var source := sources[i];
        assert sources[..i + 1] == sources[..i] + [source];
        if source.sourceID != EMPTY {
          if source.sourceID in ids {
            return false;
          }
          ids := ids + {source.sourceID};
        } else {
          if source.title in titles {
            return false;
          }
          titles := titles + {source.title};
        }
        i := i + 1;
      }
      assert sources[..i] == sources;
      ok := true;
    }

    static method Unmatched(items: seq<LedgerItem>, m: Matching, key: Key) returns (choices: seq<nat>)
      ensures choices == Candidates(items, m, key, |items|)
    {
      choices := [];
      var i := 0;
      while i < |items|
        invariant 0 <= i <= |items| && choices == Candidates(items, m, key, i)
      {
        if KeyOf(items[i]) == key && !Used(m, i) {
          choices := choices + [i];
        }
        i := i + 1;
      }
    }

    static method FindChoices(items: seq<LedgerItem>, m: Matching, source: Item) returns (choices: seq<nat>)
      ensures choices == Choices(items, m, source)
    {
      hide Candidates;
      choices := [];
      if source.sourceID != EMPTY {
        choices := Unmatched(items, m, BySource(source.sourceID));
      }
      if choices == [] {
        choices := Unmatched(items, m, ByTitle(source.title));
      }
    }

    static method MatchSources(items: seq<LedgerItem>, sources: seq<Item>) returns (matched: Option<Matching>)
      ensures matched == Match(items, sources, |sources|)
    {
      hide Match, Choices;
      var m: Matching := [];
      SeedProofs.MatchNone(items, sources);
      var i := 0;
      while i < |sources|
        invariant 0 <= i <= |sources| && Match(items, sources, i) == Some(m)
      {
        var choices := FindChoices(items, m, sources[i]);
        if |choices| > 1 {
          SeedProofs.MatchStops(items, sources, i, m);
          AmbiguousStays(items, sources, i + 1, |sources|);
          return None;
        }
        SeedProofs.MatchNext(items, sources, i, m);
        m := m + [if choices == [] then None else Some(choices[0])];
        i := i + 1;
      }
      matched := Some(m);
    }

    static method FindConfusing(items: seq<LedgerItem>, sources: seq<Item>, m: Matching) returns (confusing: bool)
      requires |m| == |sources|
      ensures confusing <==> Confusing(items, sources, m)
    {
      var i := 0;
      while i < |m|
        invariant 0 <= i <= |m|
        invariant forall a, k :: 0 <= a < i && m[a].None? && 0 <= k < |items| && !Used(m, k) ==>
                    items[k].sourceID != EMPTY && items[k].revision.title != sources[a].title
      {
        if m[i].None? {
          var k := 0;
          while k < |items|
            invariant 0 <= k <= |items|
            invariant forall b :: 0 <= b < k && !Used(m, b) ==>
                        items[b].sourceID != EMPTY && items[b].revision.title != sources[i].title
          {
            if !Used(m, k) && (items[k].sourceID == EMPTY || items[k].revision.title == sources[i].title) {
              return true;
            }
            k := k + 1;
          }
        }
        i := i + 1;
      }
      confusing := false;
    }

    /** Reconciles the matched records in source order; tells whether one changed in the backlog. */
    static method ReconcileMatched(items: seq<LedgerItem>, sources: seq<Item>, m: Matching)
      returns (candidate: seq<LedgerItem>, stuck: bool)
      requires Match(items, sources, |sources|) == Some(m) && |m| == |sources|
      ensures |candidate| == |items| && forall k :: 0 <= k < |items| ==>
              candidate[k] == SoFar(items, sources, m, k, |m|)
      ensures stuck <==>
              exists a ::
                0 <= a < |m| && m[a].Some? && m[a].value < |items| && Reconciled(items[m[a].value], sources[a], a).1
    {
      hide Match, Reconciled;
      candidate, stuck := items, false;
      var i := 0;
      while i < |m|
        invariant 0 <= i <= |m| && |candidate| == |items|
        invariant forall k :: 0 <= k < |items| ==> candidate[k] == SoFar(items, sources, m, k, i)
        invariant stuck <==>
                  exists a ::
                    0 <= a < i && m[a].Some? && m[a].value < |items| && Reconciled(items[m[a].value], sources[a], a).1
      {
        if m[i].Some? {
          var k := m[i].value;
          NotBefore(items, sources, m, i);
          var (reconciled, changed) := Reconciled(candidate[k], sources[i], i);
          candidate := candidate[k := reconciled];
          stuck := stuck || changed;
        }
        i := i + 1;
      }
    }

    /** Marks the records without a source; tells whether one of them is in progress. */
    static method MarkAbsent(items: seq<LedgerItem>, m: Matching) returns (candidate: seq<LedgerItem>, missing: bool)
      ensures |candidate| == |items|
      ensures forall k :: 0 <= k < |items| ==> candidate[k] == if Used(m, k) then items[k] else Absent(items[k])
      ensures missing <==> exists k :: 0 <= k < |items| && items[k].status.InProgress? && !Used(m, k)
    {
      hide Absent;
      candidate, missing := items, false;
      var k := 0;
      while k < |items|
        invariant 0 <= k <= |items| && |candidate| == |items|
        invariant forall b :: 0 <= b < k ==> candidate[b] == if Used(m, b) then items[b] else Absent(items[b])
        invariant forall b :: k <= b < |items| ==> candidate[b] == items[b]
        invariant missing <==> exists b :: 0 <= b < k && items[b].status.InProgress? && !Used(m, b)
      {
        if !Used(m, k) {
          missing := missing || items[k].status.InProgress?;
          candidate := candidate[k := Absent(items[k])];
        }
        k := k + 1;
      }
    }

    static method Reconcile(items: seq<LedgerItem>, sources: seq<Item>, m: Matching)
      returns (candidate: seq<LedgerItem>, stuck: bool)
      requires Match(items, sources, |sources|) == Some(m) && |m| == |sources|
      ensures candidate == Existing(items, sources, m)
      ensures stuck <==> Stuck(items, sources, m)
    {
      hide Match, Reconciled, Absent;
      var reached, changed := ReconcileMatched(items, sources, m);
      var missing;
      candidate, missing := MarkAbsent(reached, m);
      stuck := changed || missing;
      forall k | 0 <= k < |items| ensures candidate[k] == ReconciledAt(items, sources, m, k) {
        UsedBySource(m, k);
      }
      forall k | 0 <= k < |items| && !Used(m, k) ensures reached[k] == items[k] {
        UsedBySource(m, k);
      }
    }

    static method Append(existing: seq<LedgerItem>, sources: seq<Item>, m: Matching)
      returns (candidate: seq<LedgerItem>)
      requires |m| == |sources|
      ensures candidate == Appended(existing, sources, m, |m|)
    {
      hide Fresh, Slug.SlugOf;
      candidate := existing;
      var taken := SlugSet(existing);
      var i := 0;
      while i < |m|
        invariant 0 <= i <= |m| && candidate == Appended(existing, sources, m, i)
        invariant taken == SlugSet(candidate)
      {
        if m[i].None? {
          var slug := Slug.Slug(sources[i].title.chars, taken);
          var added := Fresh(sources[i], i, Text(slug));
          FreshSlug(sources[i], i, Text(slug));
          SlugSetAdd(candidate, added);
          taken := taken + {slug};
          candidate := candidate + [added];
        }
        i := i + 1;
      }
    }
  }

  /** The ids and source ids of a list of records. */
  ghost predicate Seen(items: seq<LedgerItem>, ids: set<ItemID>, sources: set<Text>) {
    && (forall k :: 0 <= k < |items| ==>
        items[k].itemID in ids && (items[k].sourceID != EMPTY ==> items[k].sourceID in sources))
    && (forall id <- ids :: exists k :: 0 <= k < |items| && items[k].itemID == id)
    && (forall source <- sources :: exists k :: 0 <= k < |items| && items[k].sourceID == source != EMPTY)
  }

  lemma SeenNothing()
    ensures ValidItems([]) && Seen([], {}, {})
  {
  }

  lemma SeenMore(items: seq<LedgerItem>, it: LedgerItem, ids: set<ItemID>, sources: set<Text>)
    requires Seen(items, ids, sources) && ValidItems(items)
    ensures ValidItems(items + [it]) <==>
            ValidItem(it) && it.itemID !in ids && (it.sourceID != EMPTY ==> it.sourceID !in sources)
    ensures Seen(items + [it], ids + {it.itemID}, if it.sourceID != EMPTY then sources + {it.sourceID} else sources)
  {
    hide ValidItem;
    var all := items + [it];
    assert all[|items|] == it && forall k :: 0 <= k < |items| ==> all[k] == items[k];
  }

  lemma ValidPrefix(items: seq<LedgerItem>, i: nat)
    requires i <= |items| && ValidItems(items)
    ensures ValidItems(items[..i])
  {
    hide ValidItem;
  }

  /** A record once the first n sources are dealt with. */
  function SoFar(items: seq<LedgerItem>, sources: seq<Item>, m: Matching, k: nat, n: nat): LedgerItem
    requires k < |items| && n <= |m| && |m| == |sources|
  {
    var i := SourceOf(m, k, n);
    if i.Some? then Reconciled(items[k], sources[i.value], i.value).0 else items[k]
  }

  lemma UsedBySource(m: Matching, k: nat)
    ensures Used(m, k) <==> SourceOf(m, k, |m|).Some?
  {
  }

  lemma FreshSlug(source: Item, order: int, slug: Text)
    ensures Fresh(source, order, slug).slug == slug
  {
  }

  lemma SlugSetAdd(items: seq<LedgerItem>, it: LedgerItem)
    ensures SlugSet(items + [it]) == SlugSet(items) + {it.slug.chars}
  {
    var all := items + [it];
    assert forall i :: 0 <= i < |items| ==> all[i] == items[i];
    assert all[|items|] == it;
  }

  lemma {:induction false} AmbiguousStays(items: seq<LedgerItem>, sources: seq<Item>, i: nat, n: nat)
    requires i <= n <= |sources| && Match(items, sources, i).None?
    ensures Match(items, sources, n).None?
  {
    if i < n {
      AmbiguousStays(items, sources, i, n - 1);
    }
  }

  lemma NotBefore(items: seq<LedgerItem>, sources: seq<Item>, m: Matching, i: nat)
    requires Match(items, sources, |sources|) == Some(m) && i < |m| && m[i].Some? && |m| == |sources|
    ensures m[i].value < |items| && SourceOf(m, m[i].value, i).None?
    ensures SourceOf(m, m[i].value, i + 1) == Some(i)
    ensures forall k :: k != m[i].value ==> SourceOf(m, k, i + 1) == SourceOf(m, k, i)
  {
    var before := SourceOf(m, m[i].value, i);
    if before.Some? {
      SeedProofs.MatchInjective(items, sources, |sources|, before.value, i);
    }
  }
}
