/** Whole runs of the file-backed delivery store, beside the memory store it stands in for. */
module DeliveryRuns {
  import opened Common
  import opened Delivery

  /** The store that keeps accepted ids in memory and never forgets one by itself. */
  class MemoryDeliveryStore {
    var accepted: set<MessageID>

    constructor ()
      ensures accepted == {}
    {
      accepted := {};
    }

    method ReserveContext(cancelled: bool, messageID: string) returns (reserved: bool, failed: bool)
      modifies this
      ensures failed <==> cancelled || Trim(messageID) == ""
      ensures reserved <==> !failed && MessageID(Trim(messageID)) !in old(accepted)
      ensures accepted == if failed then old(accepted) else old(accepted) + {MessageID(Trim(messageID))}
    {
      if cancelled {
        return false, true;
      }
      if Trim(messageID) == "" {
        return false, true;
      }
      if Key(messageID) in accepted {
        return false, false;
      }
      accepted := accepted + {Key(messageID)};
      return true, false;
    }

    method ReleaseContext(cancelled: bool, messageID: string) returns (failed: bool)
      modifies this
      ensures failed <==> cancelled
      ensures accepted == if cancelled then old(accepted) else old(accepted) - {MessageID(Trim(messageID))}
    {
      if cancelled {
        return true;
      }
      accepted := accepted - {Key(messageID)};
      failed := false;
    }
  }

  /** A call against both stores; `gap` is the time between its two clock readings. */
  datatype Call = Reserving(id: MessageID, gap: nat) | Releasing(id: MessageID) | Waiting(time: nat)

  datatype Entry = Accepting(id: MessageID, at: int) | Dropping(id: MessageID)

  datatype Stores = Stores(file: Accepted, memory: set<MessageID>, clock: int, journal: seq<Entry>)

  function Initial(): Stores {
    Stores(map[], {}, 0, [])
  }

  function Step(s: Stores, call: Call): Stores {
    match call
    case Reserving(id, gap) =>
      var at := s.clock + gap;
      Stores(Reserve(s.file, s.clock, at, id), s.memory + {id}, at,
             if Refuses(s.file, s.clock, id) then s.journal else s.journal + [Accepting(id, at)])
    case Releasing(id) =>
      Stores(Release(s.file, id), s.memory - {id}, s.clock, s.journal + [Dropping(id)])
    case Waiting(time) => s.(clock := s.clock + time)
  }

  function Run(calls: seq<Call>): Stores {
    if calls == [] then Initial() else Step(Run(calls[..|calls| - 1]), calls[|calls| - 1])
  }

  /** When the reservation of an id that was not dropped since was last accepted. */
  function LastAccept(journal: seq<Entry>, id: MessageID): Option<int> {
    if journal == [] then None
    else
      var last := journal[|journal| - 1];
      if last.id != id then LastAccept(journal[..|journal| - 1], id)
      else if last.Accepting? then Some(last.at) else None
  }

  lemma LastAcceptSnoc(journal: seq<Entry>, entry: Entry, id: MessageID)
    ensures LastAccept(journal + [entry], id) ==
            if entry.id != id then LastAccept(journal, id) else if entry.Accepting? then Some(entry.at) else None
  {
    assert (journal + [entry])[..|journal|] == journal;
  }

  ghost predicate Agrees(s: Stores, id: MessageID) {
    var last := LastAccept(s.journal, id);
    && (id in s.memory <==> last.Some?)
    && (Refuses(s.file, s.clock, id) <==> last.Some? && !Expired(last.value, s.clock))
    && (Refuses(s.file, s.clock, id) ==> s.file[id] == last.value)
  }

  lemma AgreesStep(s: Stores, call: Call, id: MessageID)
    requires Agrees(s, id)
    ensures Agrees(Step(s, call), id)
  {
    match call
    case Reserving(other, gap) =>
      LastAcceptSnoc(s.journal, Accepting(other, s.clock + gap), id);
    case Releasing(other) =>
      LastAcceptSnoc(s.journal, Dropping(other), id);
    case Waiting(_) =>
  }

  /**
   * After any run the file store refuses exactly the ids that memory refuses and whose last accepted
   * reservation is within the retention: forgetting by age is all that separates the two.
   */
  lemma {:induction false} FileRefinesMemory(calls: seq<Call>, id: MessageID)
    ensures Agrees(Run(calls), id)
    ensures Refuses(Run(calls).file, Run(calls).clock, id) <==>
            id in Run(calls).memory && !Expired(LastAccept(Run(calls).journal, id).value, Run(calls).clock)
  {
    if calls != [] {
      FileRefinesMemory(calls[..|calls| - 1], id);
      AgreesStep(Run(calls[..|calls| - 1]), calls[|calls| - 1], id);
    }
  }

  ghost predicate Timed(s: Stores) {
    && (forall i :: 0 <= i < |s.journal| && s.journal[i].Accepting? ==> 0 <= s.journal[i].at <= s.clock)
    && (forall i, j :: 0 <= i < j < |s.journal| && s.journal[i].Accepting? && s.journal[j].Accepting? ==>
          s.journal[i].at <= s.journal[j].at)
  }

  lemma StepTimed(s: Stores, call: Call)
    requires Timed(s) && s.clock >= 0
    ensures Timed(Step(s, call)) && Step(s, call).clock >= 0
  {
    var t := Step(s, call);
    assert forall k :: 0 <= k < |s.journal| ==> t.journal[k] == s.journal[k];
  }

  lemma {:induction false} RunTimed(calls: seq<Call>)
    ensures Timed(Run(calls)) && Run(calls).clock >= 0
  {
    if calls != [] {
      RunTimed(calls[..|calls| - 1]);
      StepTimed(Run(calls[..|calls| - 1]), calls[|calls| - 1]);
    }
  }

  lemma {:induction false} LastAcceptBounds(s: Stores, n: nat, i: nat, id: MessageID)
    requires Timed(s) && i < n <= |s.journal|
    requires s.journal[i].Accepting? && s.journal[i].id == id
    requires forall k :: i < k < n ==> s.journal[k] != Dropping(id)
    ensures LastAccept(s.journal[..n], id).Some? && LastAccept(s.journal[..n], id).value >= s.journal[i].at
  {
    assert s.journal[..n][..n - 1] == s.journal[..n - 1];
    if s.journal[n - 1].id != id {
      LastAcceptBounds(s, n - 1, i, id);
    }
  }

  lemma LastAcceptTimed(s: Stores, id: MessageID)
    requires Timed(s)
    ensures LastAccept(s.journal, id).Some? ==> 0 <= LastAccept(s.journal, id).value <= s.clock
    decreases |s.journal|
  {
    if s.journal != [] && s.journal[|s.journal| - 1].id != id {
      LastAcceptTimed(s.(journal := s.journal[..|s.journal| - 1]), id);
    }
  }

  /** Until one retention has passed, the two stores take every decision alike. */
  lemma AlikeWithinRetention(calls: seq<Call>, id: MessageID)
    requires Run(calls).clock <= RETENTION
    ensures Refuses(Run(calls).file, Run(calls).clock, id) <==> id in Run(calls).memory
  {
    FileRefinesMemory(calls, id);
    RunTimed(calls);
    LastAcceptTimed(Run(calls), id);
  }

  /** Two acceptances of one id that no release separates are more than the retention apart. */
  lemma {:induction false} AcceptancesApart(calls: seq<Call>, i: nat, j: nat, id: MessageID)
    requires i < j < |Run(calls).journal|
    requires Run(calls).journal[i].Accepting? && Run(calls).journal[i].id == id
    requires Run(calls).journal[j].Accepting? && Run(calls).journal[j].id == id
    requires forall k :: i < k < j ==> Run(calls).journal[k] != Dropping(id)
    ensures Run(calls).journal[j].at > Run(calls).journal[i].at + RETENTION
    decreases |calls|
  {
    if calls != [] {
      var before := Run(calls[..|calls| - 1]);
      assert forall k :: 0 <= k < |before.journal| ==> before.journal[k] == Run(calls).journal[k];
      if j < |before.journal| {
        AcceptancesApart(calls[..|calls| - 1], i, j, id);
      } else {
        FileRefinesMemory(calls[..|calls| - 1], id);
        RunTimed(calls[..|calls| - 1]);
        assert before.journal[..j] == before.journal;
        LastAcceptBounds(before, j, i, id);
      }
    }
  }

  /** A release frees an id whoever reserved it, so acceptances it separates may be close together. */
  lemma ReleaseAllowsAnother(id: MessageID)
    ensures Run([Reserving(id, 0), Releasing(id), Reserving(id, 0)]).journal ==
            [Accepting(id, 0), Dropping(id), Accepting(id, 0)]
  {
    var calls := [Reserving(id, 0), Releasing(id), Reserving(id, 0)];
    assert calls[..2] == [Reserving(id, 0), Releasing(id)] && calls[..2][..1] == [Reserving(id, 0)] &&
           calls[..2][..1][..0] == [];
    var one := Step(Initial(), Reserving(id, 0));
    assert Run(calls[..2][..1]) == one;
    assert Run(calls[..2]) == Step(one, Releasing(id));
  }
}
