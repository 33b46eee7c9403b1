/** What reconciliation keeps, and that doing it again changes nothing. */
module SeedProofs {
  import opened Common
  import opened LedgerItems
  import opened Seed

  // How sources and records were matched.

  /** The source names the record's id, or the record has none and the title is the same. */
  predicate Fits(it: LedgerItem, source: Item) {
    || (source.sourceID != EMPTY && it.sourceID == source.sourceID)
    || (it.sourceID == EMPTY && it.revision.title == source.title)
  }

  lemma {:induction false} MatchPrefix(items: seq<LedgerItem>, sources: seq<Item>, i: nat, n: nat)
    requires i <= n <= |sources| && Match(items, sources, n).Some?
    ensures Match(items, sources, i).Some?
    ensures forall k :: 0 <= k < i ==> Match(items, sources, i).value[k] == Match(items, sources, n).value[k]
  {
    if i < n {
      MatchPrefix(items, sources, i, n - 1);
    }
  }

  lemma MatchLast(items: seq<LedgerItem>, sources: seq<Item>, i: nat)
    requires i < |sources| && Match(items, sources, i + 1).Some?
    ensures Match(items, sources, i).Some?
    ensures var choices := Choices(items, Match(items, sources, i).value, sources[i]);
            |choices| <= 1 && Match(items, sources, i + 1).value[i] == if choices == [] then None else Some(choices[0])
  {
  }

  /** Each source took its only choice among what earlier sources left. */
  lemma MatchStep(items: seq<LedgerItem>, sources: seq<Item>, n: nat, i: nat)
    requires i < n <= |sources| && Match(items, sources, n).Some?
    ensures Match(items, sources, i).Some?
    ensures var choices := Choices(items, Match(items, sources, i).value, sources[i]);
            |choices| <= 1 && Match(items, sources, n).value[i] == if choices == [] then None else Some(choices[0])
  {
    MatchPrefix(items, sources, i + 1, n);
    MatchLast(items, sources, i);
  }

  lemma MatchNext(items: seq<LedgerItem>, sources: seq<Item>, i: nat, before: Matching)
    requires i < |sources| && Match(items, sources, i) == Some(before) && |Choices(items, before, sources[i])| <= 1
    ensures var choices := Choices(items, before, sources[i]);
            Match(items, sources, i + 1) == Some(before + [if choices == [] then None else Some(choices[0])])
  {
  }

  lemma MatchStops(items: seq<LedgerItem>, sources: seq<Item>, i: nat, before: Matching)
    requires i < |sources| && Match(items, sources, i) == Some(before) && |Choices(items, before, sources[i])| > 1
    ensures Match(items, sources, i + 1).None?
  {
  }

  lemma MatchNone(items: seq<LedgerItem>, sources: seq<Item>)
    ensures Match(items, sources, 0) == Some([])
  {
  }

  lemma MatchFits(items: seq<LedgerItem>, sources: seq<Item>, n: nat, i: nat)
    requires i < n <= |sources| && Match(items, sources, n).Some? && Match(items, sources, n).value[i].Some?
    ensures Fits(items[Match(items, sources, n).value[i].value], sources[i])
  {
    MatchStep(items, sources, n, i);
  }

  lemma MatchInjective(items: seq<LedgerItem>, sources: seq<Item>, n: nat, i: nat, j: nat)
    requires i < j < n <= |sources| && Match(items, sources, n).Some? && Match(items, sources, n).value[j].Some?
    ensures Match(items, sources, n).value[i] != Match(items, sources, n).value[j]
  {
    MatchStep(items, sources, n, j);
    MatchPrefix(items, sources, j, n);
    assert Match(items, sources, j).value[i] in Match(items, sources, j).value;
  }

  /** A source that did not take a record by its id left no record with that id. */
  lemma NoRecordOfSource(items: seq<LedgerItem>, sources: seq<Item>, n: nat, i: nat, k: nat)
    requires i < n <= |sources| && Match(items, sources, n).Some? && ValidSources(sources)
    requires sources[i].sourceID != EMPTY && k < |items| && Match(items, sources, n).value[i] != Some(k)
    requires SourcesDistinct(items)
    ensures items[k].sourceID != sources[i].sourceID
  {
    if items[k].sourceID == sources[i].sourceID {
      MatchStep(items, sources, n, i);
      var before := Match(items, sources, i).value;
      var found := Candidates(items, before, BySource(sources[i].sourceID), |items|);
      if Some(k) in before {
        var j :| 0 <= j < i && before[j] == Some(k);
        MatchFits(items, sources, i, j);
      }
    }
  }

  lemma SourceOfMatched(m: Matching, i: nat, k: nat)
    requires i < |m| && m[i] == Some(k)
    requires forall a, b :: 0 <= a < b < |m| && m[b].Some? ==> m[a] != m[b]
    ensures SourceOf(m, k, |m|) == Some(i)
  {
  }

  /** Everything later lemmas need to know of a matching that was not refused. */
  ghost predicate Sound(items: seq<LedgerItem>, sources: seq<Item>, m: Matching) {
    && |m| == |sources|
    && (forall i :: 0 <= i < |m| && m[i].Some? ==> m[i].value < |items| && Fits(items[m[i].value], sources[i]))
    && (forall a, b :: 0 <= a < b < |m| && m[b].Some? ==> m[a] != m[b])
    && (forall i, k :: 0 <= i < |m| && sources[i].sourceID != EMPTY && 0 <= k < |items| && m[i] != Some(k) ==>
          items[k].sourceID != sources[i].sourceID)
  }

  lemma MatchSound(items: seq<LedgerItem>, sources: seq<Item>)
    requires SourcesDistinct(items) && ValidSources(sources) && Match(items, sources, |sources|).Some?
    ensures Sound(items, sources, Match(items, sources, |sources|).value)
  {
    var m := Match(items, sources, |sources|).value;
    forall i | 0 <= i < |m| && m[i].Some? ensures Fits(items[m[i].value], sources[i]) {
      MatchFits(items, sources, |sources|, i);
    }
    forall a, b | 0 <= a < b < |m| && m[b].Some? ensures m[a] != m[b] {
      MatchInjective(items, sources, |sources|, a, b);
    }
    forall i, k | 0 <= i < |m| && sources[i].sourceID != EMPTY && 0 <= k < |items| && m[i] != Some(k)
      ensures items[k].sourceID != sources[i].sourceID
    {
      NoRecordOfSource(items, sources, |sources|, i, k);
    }
  }

  // Where the records of the result come from.

  /** The record of the source at i: the one it matched, or the one made for it. */
  function IndexOf(items: seq<LedgerItem>, m: Matching, i: nat): nat
    requires i < |m|
  {
    if m[i].Some? then m[i].value else |items| + NewBefore(m, i)
  }

  lemma {:induction false} NewBeforeGrows(m: Matching, i: nat, n: nat)
    requires i < n <= |m|
    ensures NewBefore(m, i) + (if m[i].Some? then 0 else 1) <= NewBefore(m, n)
  {
    if i < n - 1 {
      NewBeforeGrows(m, i, n - 1);
    }
  }

  /** The k-th new record was made for this source. */
  function NewSource(m: Matching, n: nat, k: nat): (i: nat)
    requires n <= |m| && k < NewBefore(m, n)
    ensures i < n && m[i].None? && NewBefore(m, i) == k
  {
    if k < NewBefore(m, n - 1) then NewSource(m, n - 1, k) else n - 1
  }

  lemma {:induction false} AppendedPrefix(existing: seq<LedgerItem>, sources: seq<Item>, m: Matching, i: nat, n: nat)
    requires i <= n <= |m| && |m| == |sources|
    ensures NewBefore(m, i) <= NewBefore(m, n)
    ensures forall k :: 0 <= k < |Appended(existing, sources, m, i)| ==>
              Appended(existing, sources, m, i)[k] == Appended(existing, sources, m, n)[k]
  {
    if i < n {
      AppendedPrefix(existing, sources, m, i, n - 1);
    }
  }

  /** The record made for an unmatched source. */
  lemma AppendedAt(existing: seq<LedgerItem>, sources: seq<Item>, m: Matching, i: nat, n: nat)
    requires i < n <= |m| && |m| == |sources| && m[i].None?
    ensures NewBefore(m, i) < NewBefore(m, n)
    ensures Appended(existing, sources, m, n)[|existing| + NewBefore(m, i)] ==
            Fresh(sources[i], i, NewSlug(Appended(existing, sources, m, i), sources[i]))
  {
    hide *;
    NewBeforeGrows(m, i, n);
    AppendedLast(existing, sources, m, i);
    AppendedPrefix(existing, sources, m, i + 1, n);
  }

  lemma AppendedLast(existing: seq<LedgerItem>, sources: seq<Item>, m: Matching, i: nat)
    requires i < |m| && |m| == |sources| && m[i].None?
    ensures NewBefore(m, i + 1) == NewBefore(m, i) + 1
    ensures Appended(existing, sources, m, i + 1) ==
            Appended(existing, sources, m, i) +
              [Fresh(sources[i], i, NewSlug(Appended(existing, sources, m, i), sources[i]))]
  {
  }

  lemma FreshKeepsSlugs(before: seq<LedgerItem>, source: Item, order: int)
    requires SlugsDistinct(before)
    ensures SlugsDistinct(before + [Fresh(source, order, NewSlug(before, source))])
  {
    var slug := NewSlug(before, source);
    assert slug.chars !in SlugSet(before);
  }

  lemma {:induction false} AppendedSlugs(existing: seq<LedgerItem>, sources: seq<Item>, m: Matching, n: nat)
    requires n <= |m| && |m| == |sources| && SlugsDistinct(existing)
    ensures SlugsDistinct(Appended(existing, sources, m, n))
  {
    hide NewSlug;
    if n > 0 {
      AppendedSlugs(existing, sources, m, n - 1);
      FreshKeepsSlugs(Appended(existing, sources, m, n - 1), sources[n - 1], n - 1);
    }
  }
}
