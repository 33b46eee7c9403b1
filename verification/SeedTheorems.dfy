/** When reconciliation yields a valid ledger, and that it is idempotent. */
module SeedTheorems {
  import opened Common
  import opened LedgerItems
  import opened LedgerPaths
  import opened Seed
  import opened SeedProofs
  import Slug

  predicate Trimmed(id: Text) {
    Trim(id.chars) == id.chars
  }

  ghost predicate SourcesTrimmed(sources: seq<Item>) {
    forall i :: 0 <= i < |sources| ==> Trimmed(sources[i].sourceID)
  }

  lemma NormalizedTrimmed(sources: seq<Item>)
    ensures SourcesTrimmed(Normalized(sources))
  {
    forall i | 0 <= i < |sources| ensures Trimmed(Normalized(sources)[i].sourceID) {
      TrimIdempotent(sources[i].sourceID.chars);
    }
  }

  /** A record whose id was derived from an explicit source id still carries that source id. */
  predicate Owned(it: LedgerItem) {
    it.itemID.FromSource? ==> it.sourceID == it.itemID.source && it.sourceID != EMPTY
  }

  ghost predicate AllOwned(items: seq<LedgerItem>) {
    forall k :: 0 <= k < |items| ==> Owned(items[k])
  }

  /** What reconciliation keeps whether or not the validator accepts its result. */
  ghost predicate Regular(items: seq<LedgerItem>) {
    && (forall k :: 0 <= k < |items| ==> ValidItem(items[k]))
    && SourcesDistinct(items) && SlugsDistinct(items) && AllOwned(items)
  }

  /** What reconciliation starts from: a ledger that passed the validator, with distinct slugs. */
  ghost predicate Healthy(items: seq<LedgerItem>) {
    ValidItems(items) && SlugsDistinct(items) && AllOwned(items)
  }

  lemma ReconciledValid(it: LedgerItem, source: Item, order: int)
    requires ValidItem(it) && Fits(it, source) && Trimmed(source.sourceID) && Owned(it)
    ensures var r := Reconciled(it, source, order).0;
            && ValidItem(r) && Owned(r)
            && r.itemID == it.itemID && r.slug == it.slug
            && r.sourceID in {it.sourceID, source.sourceID} && (it.sourceID != EMPTY ==> r.sourceID == it.sourceID)
  {
    hide ValidShape, ValidAttempts, ValidOutbox, Trim, ByteLength;
    var r := Reconciled(it, source, order).0;
    assert ValidShape(r) && ValidOutbox(r) by {
      OtherPartsKept(it, r);
    }
  }

  lemma OtherPartsKept(it: LedgerItem, r: LedgerItem)
    requires r.slug == it.slug && r.branch == it.branch && r.featureDir == it.featureDir && r.outbox == it.outbox &&
             r.itemID == it.itemID
    ensures ValidShape(it) ==> ValidShape(r)
    ensures ValidOutbox(it) ==> ValidOutbox(r)
  {
  }

  lemma AbsentValid(it: LedgerItem)
    requires ValidItem(it) && Owned(it)
    ensures ValidItem(Absent(it)) && Owned(Absent(it))
    ensures Absent(it).itemID == it.itemID && Absent(it).slug == it.slug && Absent(it).sourceID == it.sourceID
  {
    hide ValidShape, ValidAttempts, ValidOutbox, Trim, ByteLength;
    OtherPartsKept(it, Absent(it));
  }

  lemma FreshValid(source: Item, order: int, before: seq<LedgerItem>)
    requires Trimmed(source.sourceID)
    ensures ValidItem(Fresh(source, order, NewSlug(before, source))) &&
            Owned(Fresh(source, order, NewSlug(before, source)))
  {
    var lowered := Slug.Lower(source.title.chars);
    Slug.SlugShape(lowered, SlugSet(before));
    KebabIsComponent(Slug.SlugOf(lowered, SlugSet(before)));
  }

  /** The matching of sources that reconciliation goes ahead with. */
  ghost predicate Proceeds(items: seq<LedgerItem>, sources: seq<Item>, m: Matching) {
    && ValidSources(sources) && SourcesTrimmed(sources)
    && Match(items, sources, |sources|) == Some(m)
    && |m| == |sources|
    && Sound(items, sources, m)
    && !Confusing(items, sources, m)
  }

  ghost function Result(items: seq<LedgerItem>, sources: seq<Item>, m: Matching): (r: seq<LedgerItem>)
    requires |m| == |sources|
    ensures |r| == |items| + NewBefore(m, |m|)
  {
    Appended(Existing(items, sources, m), sources, m, |m|)
  }

  /** The records of the result: each old one reconciled, */
  lemma ResultOld(items: seq<LedgerItem>, sources: seq<Item>, m: Matching, k: nat)
    requires Regular(items) && Proceeds(items, sources, m) && k < |items|
    ensures Result(items, sources, m)[k] == ReconciledAt(items, sources, m, k)
    ensures var r := Result(items, sources, m)[k];
            && ValidItem(r) && Owned(r) && r.itemID == items[k].itemID && r.slug == items[k].slug
            && (items[k].sourceID != EMPTY ==> r.sourceID == items[k].sourceID)
    ensures var i := SourceOf(m, k, |m|);
            Result(items, sources, m)[k].sourceID != items[k].sourceID ==>
              i.Some? && items[k].sourceID == EMPTY &&
                Result(items, sources, m)[k].sourceID == sources[i.value].sourceID
  {
    hide ValidItem, Reconciled, Match, Appended, Trimmed;
    var i := SourceOf(m, k, |m|);
    if i.Some? {
      assert Fits(items[k], sources[i.value]);
      ReconciledValid(items[k], sources[i.value], i.value);
    } else {
      AbsentValid(items[k]);
    }
  }

  /** and a valid new one for each unmatched source. */
  lemma ResultNew(items: seq<LedgerItem>, sources: seq<Item>, m: Matching, k: nat) returns (i: nat)
    requires Proceeds(items, sources, m) && |items| <= k < |Result(items, sources, m)|
    ensures i < |m| && m[i].None? && k == |items| + NewBefore(m, i)
    ensures var r := Result(items, sources, m)[k];
            && ValidItem(r) && Owned(r) && r.itemID == NewID(sources[i]) && r.sourceID == sources[i].sourceID
            && exists slug :: r == Fresh(sources[i], i, slug)
  {
    hide ValidItem, Match, Appended, NewSlug;
    i := NewSource(m, |m|, k - |items|);
    var existing := Existing(items, sources, m);
    AppendedAt(existing, sources, m, i, |m|);
    FreshValid(sources[i], i, Appended(existing, sources, m, i));
  }

  /** The id of a new record without explicit id is already some record's. */
  ghost predicate TitleTaken(items: seq<LedgerItem>, sources: seq<Item>, m: Matching)
    requires |m| == |sources|
  {
    exists i, k ::
      0 <= i < |m| && m[i].None? && sources[i].sourceID == EMPTY && 0 <= k < |items| &&
        items[k].itemID == FromTitle(sources[i].title)
  }

  lemma ResultSourcesApart(items: seq<LedgerItem>, sources: seq<Item>, m: Matching, k: nat, l: nat)
    requires Regular(items) && Proceeds(items, sources, m)
    requires k < l < |Result(items, sources, m)| && Result(items, sources, m)[k].sourceID != EMPTY
    ensures Result(items, sources, m)[k].sourceID != Result(items, sources, m)[l].sourceID
  {
    hide ValidItem, Match, Appended, NewSlug, ReconciledAt, Result, Fresh;
    if k < |items| {
      ResultOld(items, sources, m, k);
    }
    if l < |items| {
      ResultOld(items, sources, m, l);
    }
    if l >= |items| {
      var j := ResultNew(items, sources, m, l);
      if k >= |items| {
        var i := ResultNew(items, sources, m, k);
      }
    }
  }

  lemma ResultIDsApart(items: seq<LedgerItem>, sources: seq<Item>, m: Matching, k: nat, l: nat)
    requires Healthy(items) && Proceeds(items, sources, m) && !TitleTaken(items, sources, m)
    requires k < l < |Result(items, sources, m)|
    ensures Result(items, sources, m)[k].itemID != Result(items, sources, m)[l].itemID
  {
    hide ValidItem, Match, Appended, NewSlug, ReconciledAt, Result, Fresh;
    if k < |items| {
      ResultOld(items, sources, m, k);
      if l < |items| {
        ResultOld(items, sources, m, l);
      } else {
        var j := ResultNew(items, sources, m, l);
        assert Owned(items[k]);
      }
    } else {
      var i := ResultNew(items, sources, m, k);
      var j := ResultNew(items, sources, m, l);
    }
  }

  lemma ResultFor(items: seq<LedgerItem>, sources: seq<Item>, m: Matching, i: nat)
    requires i < |m| && |m| == |sources| && m[i].None?
    ensures NewBefore(m, i) < NewBefore(m, |m|)
    ensures Result(items, sources, m)[|items| + NewBefore(m, i)].itemID == NewID(sources[i])
  {
    hide Match, Appended, NewSlug, Existing;
    AppendedAt(Existing(items, sources, m), sources, m, i, |m|);
  }

  lemma ResultTaken(items: seq<LedgerItem>, sources: seq<Item>, m: Matching)
    requires Healthy(items) && Proceeds(items, sources, m) && TitleTaken(items, sources, m)
    ensures !IDsDistinct(Result(items, sources, m))
  {
    hide ValidItem, Match, Appended, NewSlug, ReconciledAt, Result;
    var i, k :| 0 <= i < |m| && m[i].None? && sources[i].sourceID == EMPTY && 0 <= k < |items| &&
                items[k].itemID == FromTitle(sources[i].title);
    ResultOld(items, sources, m, k);
    ResultFor(items, sources, m, i);
    var r := Result(items, sources, m);
    assert r[k].itemID == r[|items| + NewBefore(m, i)].itemID;
  }

  lemma ResultSlugs(items: seq<LedgerItem>, sources: seq<Item>, m: Matching)
    requires Regular(items) && Proceeds(items, sources, m)
    ensures SlugsDistinct(Result(items, sources, m))
  {
    hide ValidItem, Match, Appended, NewSlug;
    var existing := Existing(items, sources, m);
    forall i, j | 0 <= i < j < |existing| ensures existing[i].slug != existing[j].slug {
      ResultOld(items, sources, m, i);
      ResultOld(items, sources, m, j);
    }
    AppendedSlugs(existing, sources, m, |m|);
  }

  /** Reconciliation that goes ahead keeps slugs distinct, source ids unique and every record valid. */
  lemma ResultRegular(items: seq<LedgerItem>, sources: seq<Item>, m: Matching)
    requires Regular(items) && Proceeds(items, sources, m)
    ensures Regular(Result(items, sources, m))
  {
    hide ValidItem, Match, Result, Owned;
    var r := Result(items, sources, m);
    ResultSlugs(items, sources, m);
    forall k | 0 <= k < |r| ensures ValidItem(r[k]) && Owned(r[k]) {
      if k < |items| {
        ResultOld(items, sources, m, k);
      } else {
        var i := ResultNew(items, sources, m, k);
      }
    }
    forall k, l | 0 <= k < l < |r| && r[k].sourceID != EMPTY ensures r[k].sourceID != r[l].sourceID {
      ResultSourcesApart(items, sources, m, k, l);
    }
  }

  lemma ResultValidIff(items: seq<LedgerItem>, sources: seq<Item>, m: Matching)
    requires Healthy(items) && Proceeds(items, sources, m)
    ensures ValidItems(Result(items, sources, m)) <==> !TitleTaken(items, sources, m)
  {
    hide ValidItem, Match, Result, Owned;
    var r := Result(items, sources, m);
    ResultRegular(items, sources, m);
    if TitleTaken(items, sources, m) {
      ResultTaken(items, sources, m);
    } else {
      forall k, l | 0 <= k < l < |r| ensures r[k].itemID != r[l].itemID {
        ResultIDsApart(items, sources, m, k, l);
      }
    }
  }

  /**
   * From a healthy ledger and any backlog, reconciliation that goes ahead keeps slugs distinct, source ids unique
   * and every record valid; the result passes the persist-time validator exactly when no new record without
   * explicit id has a title whose derived id some record already has.
   */
  lemma SeededValidIff(items: seq<LedgerItem>, backlog: seq<Item>)
    requires Healthy(items) && !Refused(items, Normalized(backlog))
    ensures var sources := Normalized(backlog);
            var m := Match(items, sources, |sources|).value;
            && Regular(Seeded(items, sources))
            && (ValidItems(Seeded(items, sources)) <==> !TitleTaken(items, sources, m))
  {
    hide ValidItem, Match, Result, Owned, Trimmed, Confusing, TitleTaken;
    var sources := Normalized(backlog);
    var m := Match(items, sources, |sources|).value;
    NormalizedTrimmed(backlog);
    MatchSound(items, sources);
    SeededIs(items, sources, m);
    ResultRegular(items, sources, m);
    ResultValidIff(items, sources, m);
  }

  // A title's id can be taken although the title is not: a record made from a title keeps its id when
  // an explicit source id is given to it later, and another item may then use the old title.

  const TITLE := Text("Feature")

  function Plain(sourceID: Text): Item {
    Item(sourceID, TITLE, EMPTY, Low)
  }

  lemma TitleTakenReachable()
    ensures var unnamed, named, both := [Plain(EMPTY)], [Plain(Text("A1"))], [Plain(Text("A1")), Plain(EMPTY)];
            var one := Seeded([], Normalized(unnamed));
            var two := Seeded(one, Normalized(named));
            && !SeedFails([], Normalized(unnamed)) && !SeedFails(one, Normalized(named))
            && !SeedFails(two, Normalized(both))
            && Healthy(two) && !ValidItems(Seeded(two, Normalized(both)))
  {
    var named := Text("A1");
    AlreadyTrimmed(named);
    assert Normalized([Plain(EMPTY)]) == [Plain(EMPTY)] && Normalized([Plain(named)]) == [Plain(named)];
    assert Normalized([Plain(named), Plain(EMPTY)]) == [Plain(named), Plain(EMPTY)];
    hide *;
    var slug, one := FirstSeed();
    var two := SecondSeed(one, named, slug);
    ThirdSeed(two, named);
  }

  lemma AlreadyTrimmed(id: Text)
    requires id.chars != [] && !IsSpace(id.chars[0]) && !IsSpace(id.chars[|id.chars| - 1])
    ensures Text(Trim(id.chars)) == id
  {
  }

  lemma SeededIs(items: seq<LedgerItem>, sources: seq<Item>, m: Matching)
    requires ValidSources(sources) && Match(items, sources, |sources|) == Some(m) && |m| == |sources| &&
             !Confusing(items, sources, m)
    ensures Seeded(items, sources) == Result(items, sources, m)
    ensures SeedFails(items, sources) <==> Stuck(items, sources, m)
  {
    hide Match, Appended, Existing, Stuck;
  }

  lemma FirstSeed() returns (slug: Text, one: seq<LedgerItem>)
    ensures one == Seeded([], [Plain(EMPTY)]) && one == [Fresh(Plain(EMPTY), 0, slug)] && ValidItem(one[0])
    ensures !SeedFails([], [Plain(EMPTY)])
  {
    hide ValidItem, NewSlug, ByteLength, Match, Seeded, SeedFails;
    var sources, m: Matching := [Plain(EMPTY)], [None];
    var none: Matching := [];
    MatchNone([], sources);
    MatchNext([], sources, 0, none);
    assert none + [None] == m;
    SeededIs([], sources, m);
    slug := NewSlug([], sources[0]);
    one := [Fresh(sources[0], 0, slug)];
    assert Existing([], sources, m) == [];
    assert Appended([], sources, m, 0) == [];
    assert Appended([], sources, m, 1) == one;
    FreshValid(sources[0], 0, []);
  }

  lemma TitleLeft(one: seq<LedgerItem>, named: Text, sources: seq<Item>, m: Matching)
    requires |one| == 1 && KeyOf(one[0]) == ByTitle(TITLE) && named != EMPTY
    requires sources == [Plain(named)] && m == [Some(0)]
    ensures Match(one, sources, 1) == Some(m)
  {
    hide Match;
    var none: Matching := [];
    assert Candidates(one, none, ByTitle(TITLE), 1) == [0];
    assert Candidates(one, none, BySource(named), 1) == [];
    MatchNone(one, sources);
    MatchNext(one, sources, 0, none);
    assert none + [Some(0)] == m;
  }

  lemma SecondSeed(one: seq<LedgerItem>, named: Text, slug: Text) returns (two: seq<LedgerItem>)
    requires one == [Fresh(Plain(EMPTY), 0, slug)] && ValidItem(one[0]) && named == Text("A1")
    ensures two == Seeded(one, [Plain(named)]) && !SeedFails(one, [Plain(named)])
    ensures two == [one[0].(sourceID := named)] && Healthy(two)
  {
    hide ValidItem, NewSlug, ByteLength, Match, Seeded, SeedFails, Candidates;
    var sources, m: Matching := [Plain(named)], [Some(0)];
    TitleLeft(one, named, sources, m);
    SeededIs(one, sources, m);
    two := [one[0].(sourceID := named)];
    assert SourceOf(m, 0, 1) == Some(0);
    assert Existing(one, sources, m) == two;
    assert Appended(two, sources, m, 0) == two && Appended(two, sources, m, 1) == two;
    TrimmedEnds(named.chars);
    ReconciledValid(one[0], sources[0], 0);
  }

  lemma ThirdSeed(two: seq<LedgerItem>, named: Text)
    requires |two| == 1 && Healthy(two) && named == Text("A1") && two[0].sourceID == named && two[0].status.Pending?
    requires two[0].itemID == FromTitle(TITLE)
    ensures !SeedFails(two, [Plain(named), Plain(EMPTY)])
    ensures !ValidItems(Seeded(two, [Plain(named), Plain(EMPTY)]))
  {
    hide ValidItem, NewSlug, ByteLength, Appended, Match, Healthy, Existing, Seeded, SeedFails;
    var sources, m := [Plain(named), Plain(EMPTY)], [Some(0), None];
    NamedFirst(two, named, sources);
    NoneLeft(two, named, sources, [Some(0)]);
    TrimmedEnds(named.chars);
    Distinct(two);
    MatchSound(two, sources);
    assert !Confusing(two, sources, m);
    assert !Stuck(two, sources, m);
    SeededIs(two, sources, m);
    assert m[1].None? && two[0].itemID == FromTitle(sources[1].title);
    ResultValidIff(two, sources, m);
  }

  lemma Distinct(items: seq<LedgerItem>)
    requires Healthy(items)
    ensures SourcesDistinct(items)
  {
  }

  lemma NamedFirst(two: seq<LedgerItem>, named: Text, sources: seq<Item>)
    requires |two| == 1 && named != EMPTY && two[0].sourceID == named && sources == [Plain(named), Plain(EMPTY)]
    ensures Match(two, sources, 1) == Some([Some(0)])
  {
    var none: Matching := [];
    assert Candidates(two, none, BySource(named), 1) == [0];
    MatchNone(two, sources);
    MatchNext(two, sources, 0, none);
    assert none + [Some(0)] == [Some(0)];
  }

  lemma NoneLeft(two: seq<LedgerItem>, named: Text, sources: seq<Item>, first: Matching)
    requires |two| == 1 && named != EMPTY && two[0].sourceID == named && sources == [Plain(named), Plain(EMPTY)]
    requires first == [Some(0)] && Match(two, sources, 1) == Some(first)
    ensures Match(two, sources, 2) == Some([Some(0), None])
  {
    assert Candidates(two, first, ByTitle(TITLE), 1) == [];
    assert Choices(two, first, sources[1]) == [];
    MatchNext(two, sources, 1, first);
    assert first + [None] == [Some(0), None];
  }
}
