/** Reconciling twice with one backlog is reconciling once. */
module SeedAgain {
  import opened Common
  import opened LedgerItems
  import opened Seed
  import opened SeedProofs
  import opened SeedTheorems

  /** A first reconciliation that reported no error, on a healthy ledger. */
  ghost predicate Succeeded(items: seq<LedgerItem>, sources: seq<Item>, m: Matching) {
    Healthy(items) && Proceeds(items, sources, m) && !Stuck(items, sources, m)
  }

  lemma ReconciledTwice(it: LedgerItem, source: Item, order: int)
    requires Fits(it, source) && !Reconciled(it, source, order).1
    ensures Reconciled(Reconciled(it, source, order).0, source, order) == (Reconciled(it, source, order).0, false)
    ensures Reconciled(it, source, order).0.status == it.status
  {
    hide ByteLength;
  }

  lemma FreshReconciled(source: Item, order: int, slug: Text)
    ensures Reconciled(Fresh(source, order, slug), source, order) == (Fresh(source, order, slug), false)
  {
    hide ByteLength;
  }

  lemma IndexInjective(items: seq<LedgerItem>, sources: seq<Item>, m: Matching, i: nat, j: nat)
    requires Proceeds(items, sources, m) && i < j < |m|
    ensures IndexOf(items, m, i) != IndexOf(items, m, j)
  {
    NewBeforeGrows(m, i, j);
    assert m[i].Some? && m[j].Some? ==> m[i] != m[j];
  }

  lemma IndexBound(items: seq<LedgerItem>, sources: seq<Item>, m: Matching, i: nat)
    requires Proceeds(items, sources, m) && i < |m|
    ensures IndexOf(items, m, i) < |Result(items, sources, m)|
  {
    hide Match, Appended;
    NewBeforeGrows(m, i, |m|);
  }

  /** The record of a source is left alone by a second reconciliation, and is found by the source's key. */
  lemma RecordOfSource(items: seq<LedgerItem>, sources: seq<Item>, m: Matching, i: nat)
    requires Succeeded(items, sources, m) && i < |m|
    ensures IndexOf(items, m, i) < |Result(items, sources, m)|
    ensures var r := Result(items, sources, m)[IndexOf(items, m, i)];
            && Reconciled(r, sources[i], i) == (r, false)
            && r.sourceID == sources[i].sourceID
            && (r.sourceID == EMPTY ==> r.revision.title == sources[i].title)
  {
    hide Match, Appended, ValidItem, ByteLength, NewSlug;
    IndexBound(items, sources, m, i);
    if m[i].Some? {
      var k := m[i].value;
      SourceOfMatched(m, i, k);
      ResultOld(items, sources, m, k);
      assert Fits(items[k], sources[i]);
      assert !Reconciled(items[k], sources[i], i).1;
      ReconciledTwice(items[k], sources[i], i);
    } else {
      AppendedAt(Existing(items, sources, m), sources, m, i, |m|);
      FreshReconciled(sources[i], i, NewSlug(Appended(Existing(items, sources, m), sources, m, i), sources[i]));
    }
  }

  /** Without an explicit id, a source's title finds its own record only. */
  lemma TitleFindsOwn(items: seq<LedgerItem>, sources: seq<Item>, m: Matching, i: nat, k: nat)
    requires Succeeded(items, sources, m) && i < |m| && k < |Result(items, sources, m)|
    requires sources[i].sourceID == EMPTY
    requires KeyOf(Result(items, sources, m)[k]) == ByTitle(sources[i].title)
    ensures k == IndexOf(items, m, i)
  {
    hide Match, Appended, ValidItem, ByteLength, NewSlug, Result;
    if k >= |items| {
      var j := ResultNew(items, sources, m, k);
      RecordOfSource(items, sources, m, j);
    } else {
      var j := SourceOf(m, k, |m|);
      if j.Some? {
        RecordOfSource(items, sources, m, j.value);
      } else {
        ResultOld(items, sources, m, k);
        UnusedBefore(items, sources, m, i, k);
        OnlyChoiceByTitle(items, sources, m, i, k);
      }
    }
  }

  lemma UnusedBefore(items: seq<LedgerItem>, sources: seq<Item>, m: Matching, i: nat, k: nat)
    requires Proceeds(items, sources, m) && i < |m| && SourceOf(m, k, |m|).None?
    ensures Match(items, sources, i).Some? && Some(k) !in Match(items, sources, i).value
  {
    hide Choices;
    MatchPrefix(items, sources, i, |m|);
  }

  /** A source without explicit id takes the record of its title that is left. */
  lemma OnlyChoiceByTitle(items: seq<LedgerItem>, sources: seq<Item>, m: Matching, i: nat, k: nat)
    requires Proceeds(items, sources, m) && i < |m| && k < |items| && sources[i].sourceID == EMPTY
    requires KeyOf(items[k]) == ByTitle(sources[i].title)
    requires Match(items, sources, i).Some? && Some(k) !in Match(items, sources, i).value
    ensures m[i] == Some(k)
  {
    hide Match, Candidates, Confusing;
    MatchStep(items, sources, |m|, i);
    assert k in Choices(items, Match(items, sources, i).value, sources[i]);
  }

  /** The matching a second reconciliation finds. */
  function Again(items: seq<LedgerItem>, m: Matching, n: nat): (r: Matching)
    requires n <= |m|
    ensures |r| == n && forall i :: 0 <= i < n ==> r[i] == Some(IndexOf(items, m, i))
  {
    seq(n, i requires 0 <= i < n => Some(IndexOf(items, m, i)))
  }

  lemma OnlyElement(r: seq<nat>, x: nat)
    requires x in r && forall k <- r :: k == x
    requires forall i, j :: 0 <= i < j < |r| ==> r[i] != r[j]
    ensures r == [x]
  {
    assert |r| > 1 ==> r[0] != r[1];
    forall i | 0 <= i < |r| ensures r[i] == x {
      assert r[i] in r;
    }
  }

  lemma NotYet(items: seq<LedgerItem>, sources: seq<Item>, m: Matching, n: nat)
    requires Proceeds(items, sources, m) && n < |m|
    ensures Some(IndexOf(items, m, n)) !in Again(items, m, n)
  {
    hide *;
    var again := Again(items, m, n);
    forall i | 0 <= i < n ensures again[i] != Some(IndexOf(items, m, n)) {
      assert i < |m| by { NeedsLength(items, sources, m, n); }
      IndexInjective(items, sources, m, i, n);
    }
  }

  lemma NeedsLength(items: seq<LedgerItem>, sources: seq<Item>, m: Matching, n: nat)
    requires Proceeds(items, sources, m) && n < |m|
    ensures |m| == |sources|
  {
  }

  lemma ChoiceAgain(items: seq<LedgerItem>, sources: seq<Item>, m: Matching, n: nat)
    requires Succeeded(items, sources, m) && n < |m|
    requires SourcesDistinct(Result(items, sources, m))
    ensures Choices(Result(items, sources, m), Again(items, m, n), sources[n]) == [IndexOf(items, m, n)]
  {
    hide Match, Appended, ValidItem, ByteLength, NewSlug, Result;
    var r := Result(items, sources, m);
    var again, x := Again(items, m, n), IndexOf(items, m, n);
    RecordOfSource(items, sources, m, n);
    NotYet(items, sources, m, n);
    if sources[n].sourceID != EMPTY {
      var found := Candidates(r, again, BySource(sources[n].sourceID), |r|);
      forall k | k in found ensures k == x {
        assert r[k].sourceID == r[x].sourceID;
      }
      OnlyElement(found, x);
    } else {
      var found := Candidates(r, again, ByTitle(sources[n].title), |r|);
      forall k | k in found ensures k == x {
        TitleFindsOwn(items, sources, m, n, k);
      }
      OnlyElement(found, x);
    }
  }

  lemma {:induction false} MatchAgain(items: seq<LedgerItem>, sources: seq<Item>, m: Matching, n: nat)
    requires Succeeded(items, sources, m) && n <= |m| && |m| == |sources|
    requires SourcesDistinct(Result(items, sources, m))
    ensures Match(Result(items, sources, m), sources, n) == Some(Again(items, m, n))
  {
    hide Appended, ValidItem, ByteLength, NewSlug, Result, Choices, IndexOf;
    if n > 0 {
      MatchAgain(items, sources, m, n - 1);
      ChoiceAgain(items, sources, m, n - 1);
      assert Again(items, m, n) == Again(items, m, n - 1) + [Some(IndexOf(items, m, n - 1))];
    } else {
      assert Again(items, m, 0) == [];
    }
  }

  lemma AbsentTwice(it: LedgerItem)
    ensures Absent(Absent(it)) == Absent(it) && Absent(it).status == it.status
  {
  }

  /** The records with a source the second time are the matched and the new ones of the first. */
  lemma MatchedAgain(items: seq<LedgerItem>, sources: seq<Item>, m: Matching, k: nat)
    requires Succeeded(items, sources, m) && k < |Result(items, sources, m)|
    ensures SourceOf(Again(items, m, |m|), k, |m|).Some? <==> k >= |items| || SourceOf(m, k, |m|).Some?
  {
    hide Match, Appended, ValidItem, ByteLength, NewSlug, Result, Reconciled;
    var again := Again(items, m, |m|);
    if k >= |items| {
      var j := ResultNew(items, sources, m, k);
      assert again[j] == Some(k);
    } else if SourceOf(m, k, |m|).Some? {
      assert again[SourceOf(m, k, |m|).value] == Some(k);
    }
  }

  lemma AbsentAgain(items: seq<LedgerItem>, sources: seq<Item>, m: Matching, k: nat)
    requires Succeeded(items, sources, m) && k < |items| && SourceOf(m, k, |m|).None?
    ensures Absent(Result(items, sources, m)[k]) == Result(items, sources, m)[k]
    ensures !Result(items, sources, m)[k].status.InProgress?
  {
    hide Match, Appended, ValidItem, ByteLength, NewSlug, Result, Reconciled;
    ResultOld(items, sources, m, k);
    AbsentTwice(items[k]);
    assert !Used(m, k);
  }

  /** Whatever happened to a record the first time, nothing more happens the second time. */
  lemma UntouchedAt(items: seq<LedgerItem>, sources: seq<Item>, m: Matching, k: nat)
    requires Succeeded(items, sources, m) && k < |Result(items, sources, m)| && |m| == |sources|
    ensures ReconciledAt(Result(items, sources, m), sources, Again(items, m, |m|), k) == Result(items, sources, m)[k]
    ensures Result(items, sources, m)[k].status.InProgress? ==> Used(Again(items, m, |m|), k)
  {
    hide Match, Appended, ValidItem, ByteLength, NewSlug, Result, Reconciled, Absent, Healthy, Proceeds, Stuck;
    var again := Again(items, m, |m|);
    var i := SourceOf(again, k, |m|);
    MatchedAgain(items, sources, m, k);
    if i.Some? {
      RecordOfSource(items, sources, m, i.value);
      assert again[i.value] in again;
    } else {
      AbsentAgain(items, sources, m, k);
    }
  }

  lemma {:induction false} NothingNew(existing: seq<LedgerItem>, sources: seq<Item>, m: Matching, n: nat)
    requires n <= |m| && |m| == |sources| && forall i :: 0 <= i < |m| ==> m[i].Some?
    ensures Appended(existing, sources, m, n) == existing
  {
    hide NewSlug, Fresh;
    if n > 0 {
      NothingNew(existing, sources, m, n - 1);
    }
  }

  lemma NotStuckAgain(items: seq<LedgerItem>, sources: seq<Item>, m: Matching)
    requires Succeeded(items, sources, m) && |m| == |sources|
    ensures !Stuck(Result(items, sources, m), sources, Again(items, m, |m|))
  {
    hide Match, Appended, ValidItem, ByteLength, NewSlug, Result, Reconciled;
    var r, again := Result(items, sources, m), Again(items, m, |m|);
    forall i | 0 <= i < |again| ensures again[i].value < |r| && !Reconciled(r[again[i].value], sources[i], i).1 {
      RecordOfSource(items, sources, m, i);
    }
    forall k | 0 <= k < |r| && r[k].status.InProgress? ensures Used(again, k) {
      UntouchedAt(items, sources, m, k);
    }
  }

  lemma TrimmedAgain(items: seq<LedgerItem>, sources: seq<Item>)
    requires Healthy(items) && SourcesTrimmed(sources) && !SeedFails(items, sources)
    ensures !SeedFails(Seeded(items, sources), sources)
    ensures var m := Match(items, sources, |sources|).value;
            Match(Seeded(items, sources), sources, |sources|) == Some(Again(items, m, |m|))
    ensures Seeded(Seeded(items, sources), sources) == Seeded(items, sources)
  {
    hide ValidItem, ByteLength, NewSlug, Appended, Reconciled, Choices, Candidates, Again, SourceOf, IndexOf;
    MatchSound(items, sources);
    var m := Match(items, sources, |sources|).value;
    var r, again := Result(items, sources, m), Again(items, m, |m|);
    assert Seeded(items, sources) == r;
    ResultRegular(items, sources, m);
    MatchAgain(items, sources, m, |m|);
    NotStuckAgain(items, sources, m);
    forall k | 0 <= k < |r| ensures ReconciledAt(r, sources, again, k) == r[k] {
      UntouchedAt(items, sources, m, k);
    }
    assert Existing(r, sources, again) == r;
    NothingNew(r, sources, again, |again|);
  }

  /**
   * After a reconciliation with a backlog without error, the same backlog again is accepted, every source finds
   * the record it found or got, no record is added and none changes.
   */
  lemma SeedIdempotent(items: seq<LedgerItem>, backlog: seq<Item>)
    requires Healthy(items) && !SeedFails(items, Normalized(backlog))
    ensures var sources := Normalized(backlog);
            var m, r := Match(items, sources, |sources|).value, Seeded(items, sources);
            && !SeedFails(r, sources) && Seeded(r, sources) == r
            && Match(r, sources, |sources|) == Some(Again(items, m, |m|))
  {
    hide *;
    NormalizedTrimmed(backlog);
    TrimmedAgain(items, Normalized(backlog));
  }
}
