/** What becomes of every record and every source of a reconciliation, by what the sources say and nothing else. */
module SeedFates {
  import opened Common
  import opened LedgerItems
  import opened Seed
  import opened SeedProofs

  /**
   * A source is for a record if it carries the record's id; for a record without one, if it has its title and
   * carries no id, or one that no record has yet.
   */
  ghost predicate IsFor(items: seq<LedgerItem>, it: LedgerItem, source: Item) {
    if it.sourceID != EMPTY then source.sourceID == it.sourceID
    else
      && source.title == it.revision.title
      && (source.sourceID == EMPTY || forall j :: 0 <= j < |items| ==> items[j].sourceID != source.sourceID)
  }

  ghost predicate Named(items: seq<LedgerItem>, sources: seq<Item>, k: nat)
    requires k < |items|
  {
    exists i :: 0 <= i < |sources| && IsFor(items, items[k], sources[i])
  }

  /** The record of a source from a reconciliation on: by id or, the source having none, by title. */
  predicate Is(it: LedgerItem, source: Item) {
    it.sourceID == source.sourceID && (source.sourceID == EMPTY ==> it.revision.title == source.title)
  }

  ghost predicate Listed(it: LedgerItem, sources: seq<Item>) {
    exists i :: 0 <= i < |sources| && Is(it, sources[i])
  }

  /** Nothing of the workflow differs, nor what identifies the record. */
  predicate SameWorkflow(a: LedgerItem, b: LedgerItem) {
    && a.itemID == b.itemID && a.slug == b.slug && a.status == b.status && a.branch == b.branch && a.stage == b.stage
    && a.stageState == b.stageState && a.issue == b.issue && a.pr == b.pr && a.outbox == b.outbox
    && a.attempts == b.attempts && a.featureDir == b.featureDir
  }

  /**
   * What its source makes of a record. A requirement being built must not change: the record is blocked. One
   * not yet begun, or never bound to a source, takes all the source says; any other keeps what it was built from.
   */
  predicate Bound(it: LedgerItem, source: Item, order: nat, r: LedgerItem) {
    && SameWorkflow(it, r) && r.sourceOrder == order
    && (r.sourceState.Current? || r.sourceState.Blocked?)
    && (r.sourceState.Blocked? <==>
        !it.legacyPending && it.status.InProgress? &&
          (it.revision.title != source.title || it.revision.description != source.description))
    && (if r.sourceState.Blocked? then r == it.(sourceOrder := order, sourceState := Blocked)
        else
          && Is(r, source) && !r.legacyPending
          && (if it.status.Pending? || it.legacyPending then
                && r.revision == MakeRevision(source.title, source.description) && r.priority == source.priority
                && r.frozen == !it.status.Pending?
              else r.revision == it.revision && r.priority == it.priority && r.frozen == it.frozen))
  }

  /** A record no source is for: orphaned if it was waiting, blocked if begun, historical if done. */
  predicate Gone(it: LedgerItem, r: LedgerItem) {
    match it.status
    case Pending => r == it.(sourceState := Orphaned)
    case InProgress => r == it.(sourceState := Blocked)
    case Done => r == it.(sourceState := Historical)
    case _ => false
  }

  /** A record just made for a source. */
  predicate Made(source: Item, order: nat, r: LedgerItem) {
    && r.itemID == (if source.sourceID != EMPTY then FromSource(source.sourceID) else FromTitle(source.title))
    && Is(r, source) && r.revision == MakeRevision(source.title, source.description) && r.priority == source.priority
    && r.sourceOrder == order && r.sourceState.Current? && r.status.Pending? && r.stage.StageNone?
    && r.stageState.StagePending? && !r.frozen && !r.legacyPending && r.issue == 0 && r.pr == 0
    && r.branch == EMPTY && r.featureDir == EMPTY && r.outbox == [] && r.attempts == []
  }

  lemma ReconciledBound(it: LedgerItem, source: Item, order: nat)
    requires ValidItem(it) && Fits(it, source)
    ensures Bound(it, source, order, Reconciled(it, source, order).0)
  {
    hide ValidShape, ValidOutbox, ValidAttempts, ByteLength;
  }

  lemma AbsentGone(it: LedgerItem)
    requires ValidItem(it)
    ensures Gone(it, Absent(it))
  {
    hide ValidShape, ValidOutbox, ValidAttempts, ByteLength;
  }

  /** A record is matched exactly when a source is for it. */
  lemma MatchedIff(items: seq<LedgerItem>, sources: seq<Item>, m: Matching, k: nat)
    requires Match(items, sources, |sources|) == Some(m) && Sound(items, sources, m) && k < |items|
    ensures Some(k) in m <==> Named(items, sources, k)
  {
    hide Match;
    if Some(k) in m {
      var i :| 0 <= i < |m| && m[i] == Some(k);
      assert IsFor(items, items[k], sources[i]);
    }
    if Named(items, sources, k) {
      var i: nat :| i < |sources| && IsFor(items, items[k], sources[i]);
      if items[k].sourceID == EMPTY {
        TitleFinds(items, sources, m, k, i);
      } else {
        assert m[i] == Some(k);
      }
    }
  }

  // When reconciliation is refused.

  /** A source is for two records. */
  ghost predicate Ambiguous(items: seq<LedgerItem>, sources: seq<Item>) {
    exists i, j, k :: 0 <= i < |sources| && 0 <= j < k < |items| &&
      IsFor(items, items[j], sources[i]) && IsFor(items, items[k], sources[i])
  }

  /** A source that gets no old record: what it is for, an earlier source is for too. */
  ghost predicate IsNew(items: seq<LedgerItem>, sources: seq<Item>, i: nat)
    requires i < |sources|
  {
    forall k | 0 <= k < |items| && IsFor(items, items[k], sources[i]) ::
      exists j :: 0 <= j < i && IsFor(items, items[k], sources[j])
  }

  /** A new source and a record without source that could be the same: it has no id to tell, or the same title. */
  ghost predicate Indistinct(items: seq<LedgerItem>, sources: seq<Item>) {
    exists i, k :: 0 <= i < |sources| && 0 <= k < |items| && IsNew(items, sources, i) && !Named(items, sources, k) &&
      (items[k].sourceID == EMPTY || items[k].revision.title == sources[i].title)
  }

  lemma TwoChoices(items: seq<LedgerItem>, sources: seq<Item>, i: nat)
    requires SourcesDistinct(items) && ValidSources(sources) && i < |sources| && Match(items, sources, i).Some?
    requires |Choices(items, Match(items, sources, i).value, sources[i])| > 1
    ensures Ambiguous(items, sources)
  {
    hide Match;
    var before := Match(items, sources, i).value;
    var choices := Choices(items, before, sources[i]);
    var j, k := if choices[0] < choices[1] then choices[0] else choices[1],
                if choices[0] < choices[1] then choices[1] else choices[0];
    assert choices[0] in choices && choices[1] in choices;
    if sources[i].sourceID != EMPTY {
      DistinctAt(items, j, k);
      assert Candidates(items, before, BySource(sources[i].sourceID), |items|) == [];
      forall n | 0 <= n < |items| ensures items[n].sourceID != sources[i].sourceID {
        if items[n].sourceID == sources[i].sourceID {
          var a :| 0 <= a < i && before[a] == Some(n);
          MatchFits(items, sources, i, a);
        }
      }
    }
    assert IsFor(items, items[j], sources[i]) && IsFor(items, items[k], sources[i]);
  }

  lemma DistinctAt(items: seq<LedgerItem>, j: nat, k: nat)
    requires SourcesDistinct(items) && j < k < |items|
    ensures items[j].sourceID != EMPTY ==> items[k].sourceID != items[j].sourceID
  {
  }

  lemma {:induction false} UnmatchedAmbiguous(items: seq<LedgerItem>, sources: seq<Item>, n: nat)
    requires SourcesDistinct(items) && ValidSources(sources) && n <= |sources| && Match(items, sources, n).None?
    ensures Ambiguous(items, sources)
  {
    if n > 0 {
      if Match(items, sources, n - 1).None? {
        UnmatchedAmbiguous(items, sources, n - 1);
      } else {
        TwoChoices(items, sources, n - 1);
      }
    }
  }

  lemma MatchedFor(items: seq<LedgerItem>, sources: seq<Item>, m: Matching, i: nat, k: nat)
    requires Sound(items, sources, m) && i < |m| && k < |items| && m[i] == Some(k)
    ensures IsFor(items, items[k], sources[i])
  {
  }

  /** Of two records with one title the first source for them finds both. */
  lemma {:induction false} AmbiguousUnmatched(items: seq<LedgerItem>, sources: seq<Item>, m: Matching, i: nat, j: nat,
                                              k: nat)
    requires SourcesDistinct(items) && Sound(items, sources, m) && i < |sources| && j < k < |items|
    requires IsFor(items, items[j], sources[i]) && IsFor(items, items[k], sources[i])
    ensures Match(items, sources, |sources|) != Some(m)
    decreases i
  {
    hide Match, Sound;
    if Match(items, sources, |sources|) == Some(m) {
      assert |m| == |sources| by {
        MatchLength(items, sources, m);
      }
      TitleFinds(items, sources, m, j, i);
      TitleFinds(items, sources, m, k, i);
      var n := if m[i] == Some(j) then k else j;
      assert m[i] != Some(n);
      var a: nat :| a < i && m[a] == Some(n);
      MatchedFor(items, sources, m, a, n);
      AmbiguousUnmatched(items, sources, m, a, j, k);
    }
  }

  lemma MatchLength(items: seq<LedgerItem>, sources: seq<Item>, m: Matching)
    requires Match(items, sources, |sources|) == Some(m)
    ensures |m| == |sources|
  {
  }

  lemma NewIffUnmatched(items: seq<LedgerItem>, sources: seq<Item>, m: Matching, i: nat)
    requires Match(items, sources, |sources|) == Some(m) && Sound(items, sources, m) && ValidSources(sources)
    requires i < |sources|
    ensures m[i].None? <==> IsNew(items, sources, i)
  {
    hide Match;
    if m[i].None? {
      forall k | 0 <= k < |items| && IsFor(items, items[k], sources[i])
        ensures exists j :: 0 <= j < i && IsFor(items, items[k], sources[j])
      {
        assert items[k].sourceID == EMPTY;
        TitleFinds(items, sources, m, k, i);
        var j: nat :| j < i && m[j] == Some(k);
        MatchedFor(items, sources, m, j, k);
      }
    } else {
      var k := m[i].value;
      MatchedFor(items, sources, m, i, k);
      if IsNew(items, sources, i) {
        var j: nat :| j < i && IsFor(items, items[k], sources[j]);
        assert items[k].sourceID == EMPTY;
        TitleFinds(items, sources, m, k, j);
        assert false;
      }
    }
  }

  /**
   * Reconciliation is refused exactly when the sources repeat an id or a title without ids, a source is for two
   * records, or a new source and a record gone from the backlog could be the same.
   */
  lemma RefusedIff(items: seq<LedgerItem>, sources: seq<Item>)
    requires SourcesDistinct(items)
    ensures Refused(items, sources) <==>
            !ValidSources(sources) || Ambiguous(items, sources) || Indistinct(items, sources)
  {
    hide Match, Sound, IsNew, Named, IsFor, ValidSources;
    if ValidSources(sources) {
      if Match(items, sources, |sources|).None? {
        UnmatchedAmbiguous(items, sources, |sources|);
      } else {
        var m := Match(items, sources, |sources|).value;
        MatchSound(items, sources);
        if Ambiguous(items, sources) {
          var i: nat, j: nat, k: nat :| i < |sources| && j < k < |items| &&
                                        IsFor(items, items[j], sources[i]) && IsFor(items, items[k], sources[i]);
          AmbiguousUnmatched(items, sources, m, i, j, k);
        }
        forall i: nat | i < |sources| ensures m[i].None? <==> IsNew(items, sources, i) {
          NewIffUnmatched(items, sources, m, i);
        }
        forall k: nat | k < |items| ensures Used(m, k) <==> Named(items, sources, k) {
          MatchedIff(items, sources, m, k);
        }
      }
    }
  }

  // What becomes of the records and the sources.

  lemma TitleFinds(items: seq<LedgerItem>, sources: seq<Item>, m: Matching, k: nat, i: nat)
    requires Match(items, sources, |sources|) == Some(m) && |m| == |sources| && k < |items| && i < |sources|
    requires items[k].sourceID == EMPTY && IsFor(items, items[k], sources[i])
    ensures m[i] == Some(k) || exists j :: 0 <= j < i && m[j] == Some(k)
  {
    hide Match;
    MatchStep(items, sources, |sources|, i);
    MatchPrefix(items, sources, i, |sources|);
    var before := Match(items, sources, i).value;
    if Some(k) in before {
      var j :| 0 <= j < i && before[j] == Some(k);
      assert m[j] == Some(k);
    } else {
      var choices := Choices(items, before, sources[i]);
      assert k in Candidates(items, before, ByTitle(sources[i].title), |items|);
      assert choices == Candidates(items, before, ByTitle(sources[i].title), |items|);
      assert m[i] == Some(k);
    }
  }

  /** The matching of a reconciliation that goes ahead. */
  lemma GoesAhead(items: seq<LedgerItem>, sources: seq<Item>) returns (m: Matching)
    requires SourcesDistinct(items) && !Refused(items, sources)
    ensures Match(items, sources, |sources|) == Some(m) && Sound(items, sources, m)
    ensures Seeded(items, sources) == Appended(Existing(items, sources, m), sources, m, |m|)
    ensures |items| <= |Seeded(items, sources)|
  {
    hide Match, Sound;
    m := Match(items, sources, |sources|).value;
    MatchSound(items, sources);
  }

  /** An old record has been bound to a source that is for it; without one it is gone from the backlog. */
  lemma OldFate(items: seq<LedgerItem>, sources: seq<Item>, k: nat)
    requires ValidItems(items) && !Refused(items, sources) && k < |items|
    ensures |items| <= |Seeded(items, sources)|
    ensures var r := Seeded(items, sources)[k];
            if Named(items, sources, k) then
              exists i: nat :: i < |sources| && IsFor(items, items[k], sources[i]) && Bound(items[k], sources[i], i, r)
            else Gone(items[k], r)
  {
    hide Match, Appended, Reconciled, Absent, Bound, Gone, ValidItem, Seeded, Refused;
    var m := GoesAhead(items, sources);
    MatchedIff(items, sources, m, k);
    var i := SourceOf(m, k, |m|);
    if i.Some? {
      assert IsFor(items, items[k], sources[i.value]);
      ReconciledBound(items[k], sources[i.value], i.value);
    } else {
      AbsentGone(items[k]);
    }
  }

  /** A new record was made for a source, in backlog order. */
  lemma NewFate(items: seq<LedgerItem>, sources: seq<Item>, k: nat)
    requires ValidItems(items) && !Refused(items, sources) && |items| <= k < |Seeded(items, sources)|
    ensures exists i: nat :: i < |sources| && Made(sources[i], i, Seeded(items, sources)[k])
  {
    hide Match, Appended, ValidItems, NewSlug, Seeded, Refused;
    assert SourcesDistinct(items) by {
      DistinctSources(items);
    }
    var m := GoesAhead(items, sources);
    var existing := Existing(items, sources, m);
    var i := NewSource(m, |m|, k - |items|);
    AppendedAt(existing, sources, m, i, |m|);
    assert Made(sources[i], i, Seeded(items, sources)[k]);
  }

  lemma DistinctSources(items: seq<LedgerItem>)
    requires ValidItems(items)
    ensures SourcesDistinct(items)
  {
  }

  /** Every source has its record: an old one it is for, or one made for it. */
  lemma SourceFate(items: seq<LedgerItem>, sources: seq<Item>, i: nat) returns (k: nat)
    requires ValidItems(items) && !Refused(items, sources) && i < |sources|
    ensures k < |Seeded(items, sources)|
    ensures if k < |items| then
              IsFor(items, items[k], sources[i]) && Bound(items[k], sources[i], i, Seeded(items, sources)[k])
            else Made(sources[i], i, Seeded(items, sources)[k])
  {
    hide Match, Appended, Reconciled, Bound, ValidItem, NewSlug, Seeded, Refused;
    var m := GoesAhead(items, sources);
    var existing := Existing(items, sources, m);
    k := IndexOf(items, m, i);
    if m[i].Some? {
      SourceOfMatched(m, i, k);
      ReconciledBound(items[k], sources[i], i);
    } else {
      AppendedAt(existing, sources, m, i, |m|);
    }
  }

  /** After a reconciliation exactly the listed records can be current. */
  lemma CurrentListed(items: seq<LedgerItem>, sources: seq<Item>, k: nat)
    requires ValidItems(items) && !Refused(items, sources) && k < |Seeded(items, sources)|
    requires Seeded(items, sources)[k].sourceState.Current?
    ensures Listed(Seeded(items, sources)[k], sources)
  {
    hide Seeded, Refused, ValidItems, SameWorkflow;
    if k < |items| {
      OldFate(items, sources, k);
    } else {
      NewFate(items, sources, k);
    }
  }

  lemma ChangedBlocks(it: LedgerItem, source: Item, order: nat)
    ensures Reconciled(it, source, order).1 <==>
            it.status.InProgress? && Reconciled(it, source, order).0.sourceState.Blocked?
    ensures it.status.InProgress? ==> Absent(it).sourceState.Blocked?
  {
    hide ByteLength;
  }

  /** A reconciliation that goes ahead reports an error exactly when it leaves a record in progress blocked. */
  lemma FailsIff(items: seq<LedgerItem>, sources: seq<Item>)
    requires ValidItems(items) && !Refused(items, sources)
    ensures |items| <= |Seeded(items, sources)|
    ensures SeedFails(items, sources) <==>
            exists k :: 0 <= k < |items| && items[k].status.InProgress? &&
              Seeded(items, sources)[k].sourceState.Blocked?
  {
    hide Match, Appended, Reconciled, Absent, ValidItem, Refused, Sound, Seeded;
    var m := GoesAhead(items, sources);
    var r := Seeded(items, sources);
    assert |m| == |sources| by {
      MatchLength(items, sources, m);
    }
    forall k: nat | k < |items|
      ensures items[k].status.InProgress? && r[k].sourceState.Blocked? <==>
              items[k].status.InProgress? && (!Used(m, k) || MatchedChanged(items, sources, m, k))
    {
      var i := SourceOf(m, k, |m|);
      if i.Some? {
        ChangedBlocks(items[k], sources[i.value], i.value);
        assert Used(m, k) && m[i.value] == Some(k);
      } else {
        ChangedBlocks(items[k], Item(EMPTY, EMPTY, EMPTY, Low), 0);
      }
    }
    StuckIff(items, sources, m);
  }

  /** The source that matched a record in progress changed it. */
  ghost predicate MatchedChanged(items: seq<LedgerItem>, sources: seq<Item>, m: Matching, k: nat)
    requires k < |items| && |m| == |sources|
  {
    var i := SourceOf(m, k, |m|);
    i.Some? && Reconciled(items[k], sources[i.value], i.value).1
  }

  lemma StuckIff(items: seq<LedgerItem>, sources: seq<Item>, m: Matching)
    requires Sound(items, sources, m)
    ensures Stuck(items, sources, m) <==>
            exists k :: 0 <= k < |items| && items[k].status.InProgress? &&
              (!Used(m, k) || MatchedChanged(items, sources, m, k))
  {
    hide Reconciled;
    forall i: nat | i < |m| && m[i].Some?
      ensures MatchedChanged(items, sources, m, m[i].value) <==> Reconciled(items[m[i].value], sources[i], i).1
    {
      SourceOfMatched(m, i, m[i].value);
    }
    forall k: nat | k < |items| && MatchedChanged(items, sources, m, k) ensures items[k].status.InProgress? {
      var i := SourceOf(m, k, |m|).value;
      ChangedBlocks(items[k], sources[i], i);
      assert m[i] == Some(k);
    }
  }
}
