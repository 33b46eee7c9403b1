/**
 * Context compaction and the pairing of tool calls with their results
 * (internal/compaction/compactor.go). A history is paired when every message that carries tool calls
 * is followed by exactly its results, in call order, and no result stands anywhere else.
 */
module Compaction {
  import opened Common

  datatype Role = System | User | Assistant

  /** `calls` are the ids of the requested tool calls; a non-empty `callId` marks a tool result. */
  datatype Message = Message(role: Role, content: string, calls: seq<string>, callId: string)

  predicate Plain(m: Message) {
    m.calls == [] && m.callId == ""
  }

  predicate Answers(calls: seq<string>, results: seq<Message>) {
    |calls| == |results| && forall i :: 0 <= i < |calls| ==> results[i].calls == [] && results[i].callId == calls[i]
  }

  predicate Paired(ms: seq<Message>) {
    ms == [] ||
    var n := |ms[0].calls|;
    && ms[0].callId == ""
    && n < |ms|
    && Answers(ms[0].calls, ms[1..n + 1])
    && Paired(ms[n + 1..])
  }

  // ---- The split and the compacted history ----

  /** Moves the split left over tool results. */
  function MoveSplit(ms: seq<Message>, split: nat, min: nat): (r: nat)
    requires split <= |ms|
    ensures r <= split && (r <= min || r == |ms| || ms[r].callId == "")
    ensures min <= split ==> min <= r
    ensures forall i :: r < i <= split && i < |ms| ==> ms[i].callId != ""
    decreases split
  {
    if split == |ms| then split
    else if split > min && ms[split].callId != "" then MoveSplit(ms, split - 1, min)
    else split
  }

  /** The method as written: the loop moves the split itself. */
  method MoveSplitToProtocolBoundary(ms: seq<Message>, split: nat, min: nat) returns (r: nat)
    requires split <= |ms|
    ensures r == MoveSplit(ms, split, min)
  {
    r := split;
    if r >= |ms| {
      return;
    }
    while r > min && ms[r].callId != ""
      invariant r < |ms| && MoveSplit(ms, split, min) == MoveSplit(ms, r, min)
    {
      r := r - 1;
    }
  }

  predicate HasAnchor(ms: seq<Message>) {
    |ms| > 1 && ms[1].role == User && ms[1].callId == ""
  }

  function KeepStart(ms: seq<Message>): nat {
    if HasAnchor(ms) then 2 else 1
  }

  /** Where the history is cut, or None when it is too short to be. */
  function Split(ms: seq<Message>, recentKeep: nat): (r: Option<nat>)
    ensures r.Some? ==> KeepStart(ms) < r.value <= |ms| - recentKeep
    ensures r.Some? ==> r.value == |ms| || ms[r.value].callId == ""
    ensures r.Some? ==> forall i :: r.value < i <= |ms| - recentKeep && i < |ms| ==> ms[i].callId != ""
    ensures r.None? && |ms| > recentKeep + 2 ==>
              forall i :: KeepStart(ms) < i <= |ms| - recentKeep && i < |ms| ==> ms[i].callId != ""
  {
    if |ms| <= recentKeep + 2 || |ms| - recentKeep < KeepStart(ms) then None
    else
      var split := MoveSplit(ms, |ms| - recentKeep, KeepStart(ms));
      if split <= KeepStart(ms) then None else Some(split)
  }

  function DoCompact(ms: seq<Message>, recentKeep: nat, boundary: Message, summary: Message): Option<seq<Message>> {
    match Split(ms, recentKeep)
    case None => None
    case Some(split) => Some(ms[..KeepStart(ms)] + [boundary, summary] + ms[split..])
  }

  // ---- Pairing under cuts and concatenation ----

  lemma {:induction false} PlainPrefix(prefix: seq<Message>, ms: seq<Message>)
    requires forall i :: 0 <= i < |prefix| ==> Plain(prefix[i])
    ensures Paired(prefix + ms) <==> Paired(ms)
  {
    if prefix == [] {
      assert prefix + ms == ms;
    } else {
      PlainPrefix(prefix[1..], ms);
      assert (prefix + ms)[1..] == prefix[1..] + ms;
      assert (prefix + ms)[1..1] == [];
    }
  }

  lemma {:induction false} PairedConcat(a: seq<Message>, b: seq<Message>)
    requires Paired(a) && Paired(b)
    ensures Paired(a + b)
  {
    if a == [] {
      assert a + b == b;
    } else {
      var n := |a[0].calls|;
      PairedConcat(a[n + 1..], b);
      assert (a + b)[n + 1..] == a[n + 1..] + b;
      assert (a + b)[1..n + 1] == a[1..n + 1];
    }
  }

  lemma {:induction false} PlainPaired(ms: seq<Message>)
    requires forall i :: 0 <= i < |ms| ==> Plain(ms[i])
    ensures Paired(ms)
  {
    PlainPrefix(ms, []);
    assert ms + [] == ms;
  }

  /** A result that follows neither a call nor another recognizable result: its round has a blank id before it. */
  predicate StrayResult(ms: seq<Message>, i: nat) {
    i + 1 < |ms| && Plain(ms[i]) && ms[i + 1].callId != ""
  }

  /** Results that begin with a blank id and hold no stray result are blank throughout. */
  lemma {:induction false} BlankResults(results: seq<Message>)
    requires results != [] ==> results[0].callId == ""
    requires forall i :: 0 <= i < |results| ==> results[i].calls == [] && !StrayResult(results, i)
    ensures forall i :: 0 <= i < |results| ==> Plain(results[i])
  {
    if |results| > 1 {
      assert !StrayResult(results, 0);
      forall i | 0 <= i < |results[1..]| ensures !StrayResult(results[1..], i) {
        assert !StrayResult(results, i + 1);
      }
      BlankResults(results[1..]);
      assert forall i :: 1 <= i < |results| ==> results[i] == results[1..][i - 1];
    }
  }

  lemma StrayShift(ms: seq<Message>, d: nat, i: nat)
    requires d <= |ms|
    ensures StrayResult(ms[d..], i) == StrayResult(ms, i + d)
  {
  }

  /** A cut inside a round, at a blank-id result: what is left of the round is blank. */
  lemma CutInsideRound(calls: seq<string>, results: seq<Message>, rest: seq<Message>, s: nat)
    requires Answers(calls, results) && Paired(rest) && s < |results| && results[s].callId == ""
    requires forall i: nat :: !StrayResult(results[s..] + rest, i)
    ensures Paired(results[s..] + rest)
  {
    var left := results[s..];
    forall i | 0 <= i < |left| ensures left[i].calls == [] && !StrayResult(left, i) {
      assert !StrayResult(left + rest, i);
    }
    BlankResults(left);
    PlainPrefix(left, rest);
  }

  /** Cutting a paired history at a message that is not a recognizable result leaves a paired suffix. */
  lemma {:induction false} SuffixPaired(ms: seq<Message>, s: nat)
    requires Paired(ms) && s <= |ms| && (s < |ms| ==> ms[s].callId == "")
    requires forall i: nat :: s <= i ==> !StrayResult(ms, i)
    ensures Paired(ms[s..])
    decreases |ms|
  {
    if s == 0 {
      assert ms[s..] == ms;
    } else if s <= |ms[0].calls| {
      var n := |ms[0].calls|;
      assert ms[s..] == ms[1..n + 1][s - 1..] + ms[n + 1..];
      forall i: nat ensures !StrayResult(ms[s..], i) {
        StrayShift(ms, s, i);
      }
      CutInsideRound(ms[0].calls, ms[1..n + 1], ms[n + 1..], s - 1);
    } else {
      var d := |ms[0].calls| + 1;
      forall i: nat | s - d <= i ensures !StrayResult(ms[d..], i) {
        StrayShift(ms, d, i);
      }
      SuffixPaired(ms[d..], s - d);
      assert ms[d..][s - d..] == ms[s..];
    }
  }

  /** The histories the compactor is given: paired, opened by a system message, calls only from the assistant. */
  predicate History(ms: seq<Message>) {
    && Paired(ms)
    && (ms != [] ==> Plain(ms[0]))
    && forall i :: 0 <= i < |ms| ==> (ms[i].role == User ==> ms[i].calls == [])
  }

  lemma CompactedPairedIffSuffix(ms: seq<Message>, recentKeep: nat, boundary: Message, summary: Message)
    requires History(ms) && Plain(boundary) && Plain(summary) && Split(ms, recentKeep).Some?
    ensures Paired(DoCompact(ms, recentKeep, boundary, summary).value) <==> Paired(ms[Split(ms, recentKeep).value..])
  {
    var prefix := ms[..KeepStart(ms)] + [boundary, summary];
    PlainPrefix(prefix, ms[Split(ms, recentKeep).value..]);
  }

  /**
   * Compaction keeps the system message, the anchor and at least the recent messages, all verbatim, and puts
   * just the boundary and the summary between them.
   */
  lemma CompactionKeeps(ms: seq<Message>, recentKeep: nat, boundary: Message, summary: Message)
    requires History(ms) && DoCompact(ms, recentKeep, boundary, summary).Some?
    ensures var c, split := DoCompact(ms, recentKeep, boundary, summary).value, Split(ms, recentKeep).value;
            && |c| >= recentKeep + 3 && c[0] == ms[0]
            && (HasAnchor(ms) ==> c[1] == ms[1])
            && |c| == KeepStart(ms) + 2 + |ms| - split
            && c[KeepStart(ms)] == boundary && c[KeepStart(ms) + 1] == summary
            && c[|c| - (|ms| - split)..] == ms[split..]
            && c[|c| - recentKeep..] == ms[|ms| - recentKeep..]
  {
    var c, split := DoCompact(ms, recentKeep, boundary, summary).value, Split(ms, recentKeep).value;
    assert c == (ms[..KeepStart(ms)] + [boundary, summary]) + ms[split..];
  }

  /**
   * Compaction with every window keeps the pairing if and only if no result follows a plain message -
   * which, in a paired history, can only be a result whose round has a blank id before it.
   */
  lemma CompactionPairsIffNoStray(ms: seq<Message>, boundary: Message, summary: Message)
    requires History(ms) && Plain(boundary) && Plain(summary)
    ensures (forall k: nat :: DoCompact(ms, k, boundary, summary).Some? ==>
             Paired(DoCompact(ms, k, boundary, summary).value))
            <==> (forall i: nat :: !StrayResult(ms, i))
  {
    if forall i: nat :: !StrayResult(ms, i) {
      forall k: nat | DoCompact(ms, k, boundary, summary).Some?
        ensures Paired(DoCompact(ms, k, boundary, summary).value)
      {
        CutIsPaired(ms, k, boundary, summary);
      }
    } else {
      var i: nat :| StrayResult(ms, i);
      StrayIsLate(ms, i);
      var k := |ms| - (i + 1);
      assert MoveSplit(ms, i + 1, KeepStart(ms)) == i;
      assert Split(ms, k) == Some(i);
      CompactedPairedIffSuffix(ms, k, boundary, summary);
      assert !Paired(ms[i..][1..]);
      assert !Paired(DoCompact(ms, k, boundary, summary).value);
    }
  }

  lemma {:induction false} PlainOpening(ms: seq<Message>, i: nat)
    requires Paired(ms) && i + 1 < |ms|
    ensures (forall j :: 0 <= j <= i ==> Plain(ms[j])) ==> ms[i + 1].callId == ""
    decreases |ms|
  {
    if ms[0].calls == [] {
      var rest := ms[1..];
      assert forall j :: 0 <= j < |rest| ==> rest[j] == ms[j + 1];
      if i > 0 {
        PlainOpening(rest, i - 1);
      }
    }
  }

  /** In a paired history the system message and the anchor cannot be followed by a stray result. */
  lemma StrayIsLate(ms: seq<Message>, i: nat)
    requires History(ms) && StrayResult(ms, i)
    ensures i >= 2 && i > KeepStart(ms)
  {
    PlainOpening(ms, i);
  }

  lemma CutIsPaired(ms: seq<Message>, k: nat, boundary: Message, summary: Message)
    requires History(ms) && Plain(boundary) && Plain(summary) && DoCompact(ms, k, boundary, summary).Some?
    requires forall i: nat :: !StrayResult(ms, i)
    ensures Paired(DoCompact(ms, k, boundary, summary).value)
  {
    CompactedPairedIffSuffix(ms, k, boundary, summary);
    SuffixPaired(ms, Split(ms, k).value);
  }

  // ---- The durable cut that opens a run: the records before the newest one, up to a boundary, become a summary ----

  /** How many of the records still shown in full are summarized, or None. */
  function DurableSplit(records: seq<Message>, recentKeep: nat): (r: Option<nat>)
    ensures r.Some? ==> 0 < r.value < |records| && |records| - r.value > recentKeep
    ensures r.Some? ==> r.value == |records| - 1 || records[r.value].callId == ""
    ensures r.Some? ==> forall i :: r.value < i < |records| - recentKeep && i < |records| - 1 ==>
            records[i].callId != ""
    ensures r.None? ==> forall i :: 0 < i < |records| - recentKeep && i < |records| - 1 ==> records[i].callId != ""
  {
    if |records| <= recentKeep + 1 then None
    else
      var split := MoveSplit(records[..|records| - 1], |records| - 1 - recentKeep, 0);
      if split == 0 then None else Some(split)
  }

  lemma DurableCutIsPaired(records: seq<Message>, recentKeep: nat)
    requires Paired(records) && records != [] && records[|records| - 1].callId == ""
    requires forall i: nat :: !StrayResult(records, i)
    requires DurableSplit(records, recentKeep).Some?
    ensures Paired(records[DurableSplit(records, recentKeep).value..])
  {
    SuffixPaired(records, DurableSplit(records, recentKeep).value);
  }

  lemma StrayUnpaired(ms: seq<Message>, i: nat)
    requires StrayResult(ms, i)
    ensures !Paired(ms[i..])
  {
    assert ms[i..][0] == ms[i] && ms[i..][1..][0] == ms[i + 1];
  }

  lemma StrayDurable(records: seq<Message>, i: nat)
    requires StrayResult(records, i) && i > 0 && records[|records| - 1].callId == ""
    ensures |records| >= i + 2 && DurableSplit(records, |records| - 1 - (i + 1)) == Some(i)
  {
    var active := records[..|records| - 1];
    assert active[i] == records[i] && active[i + 1] == records[i + 1];
    assert MoveSplit(active, i, 0) == i;
  }

  /** This cut, too, keeps the pairing for every window if and only if no result follows a plain message. */
  lemma DurableCutPairsIffNoStray(records: seq<Message>)
    requires Paired(records) && records != [] && records[|records| - 1].callId == ""
    ensures (forall k: nat | DurableSplit(records, k).Some? :: Paired(records[DurableSplit(records, k).value..]))
            <==> (forall i: nat :: !StrayResult(records, i))
  {
    if forall i: nat :: !StrayResult(records, i) {
      forall k: nat | DurableSplit(records, k).Some? ensures Paired(records[DurableSplit(records, k).value..]) {
        DurableCutIsPaired(records, k);
      }
    } else {
      var i: nat :| StrayResult(records, i);
      PlainOpening(records, i);
      assert i > 0;
      hide Paired;
      StrayUnpaired(records, i);
      StrayDurable(records, i);
    }
  }

  predicate NamedCalls(ms: seq<Message>) {
    forall i :: 0 <= i < |ms| ==> "" !in ms[i].calls
  }

  /** While every call has an id, a result never follows a plain message. */
  lemma {:induction false} NamedCallsNoStray(ms: seq<Message>, i: nat)
    requires Paired(ms) && NamedCalls(ms)
    ensures !StrayResult(ms, i)
    decreases |ms|
  {
    if ms != [] && i + 1 < |ms| {
      var n := |ms[0].calls|;
      var rest := ms[n + 1..];
      if i > n {
        assert forall k :: 0 <= k < |rest| ==> rest[k] == ms[k + n + 1];
        NamedCallsNoStray(rest, i - n - 1);
        assert StrayResult(ms, i) <==> StrayResult(rest, i - n - 1);
      } else if i == n {
        assert rest[0] == ms[n + 1];
      } else {
        assert ms[i + 1] == ms[1..n + 1][i];
        if i > 0 {
          assert ms[i] == ms[1..n + 1][i - 1];
          assert ms[0].calls[i - 1] != "";
        }
      }
    }
  }

  /** Every compaction of a paired history whose calls carry ids is paired again. */
  lemma CompactionKeepsPairing(ms: seq<Message>, recentKeep: nat, boundary: Message, summary: Message)
    requires History(ms) && NamedCalls(ms) && Plain(boundary) && Plain(summary)
    requires DoCompact(ms, recentKeep, boundary, summary).Some?
    ensures Paired(DoCompact(ms, recentKeep, boundary, summary).value)
  {
    forall i: nat ensures !StrayResult(ms, i) {
      NamedCallsNoStray(ms, i);
    }
    CutIsPaired(ms, recentKeep, boundary, summary);
  }

  /** A history the cut breaks: two calls, the first without an id. */
  lemma BlankIdBreaks()
    ensures var ms := [Message(System, "", [], ""), Message(User, "", [], ""),
                       Message(Assistant, "", ["", "b"], ""), Message(User, "", [], ""), Message(User, "", [], "b")];
            var note := Message(User, "", [], "");
            History(ms) && DoCompact(ms, 2, note, note).Some? && !Paired(DoCompact(ms, 2, note, note).value)
  {
    var ms := [Message(System, "", [], ""), Message(User, "", [], ""),
               Message(Assistant, "", ["", "b"], ""), Message(User, "", [], ""), Message(User, "", [], "b")];
    var note := Message(User, "", [], "");
    assert ms[2..][1..3] == [Message(User, "", [], ""), Message(User, "", [], "b")];
    assert Paired(ms[2..]);
    PlainPrefix(ms[..2], ms[2..]);
    assert ms[..2] + ms[2..] == ms;
    assert Split(ms, 2) == Some(3);
    CompactedPairedIffSuffix(ms, 2, note, note);
    assert !Paired(ms[3..][1..]);
  }
}
