/**
 * The authority on accepted message ids (internal/feishu/delivery_store.go): a file of reservations
 * that expire, and the simpler store that keeps ids in memory for good.
 */
module Delivery {
  import opened Common

  /** 24 hours in nanoseconds. */
  const RETENTION: nat := 86_400_000_000_000

  /** A trimmed message id. */
  datatype MessageID = MessageID(text: string)

  /** When each accepted message was reserved. */
  type Accepted = map<MessageID, int>

  datatype Record = Record(id: string, reservedAt: int)

  datatype StoreFile = Absent | Legacy(ids: seq<string>) | Current(records: seq<Record>) | Unreadable

  function Key(text: string): MessageID {
    MessageID(Trim(text))
  }

  predicate Named(id: MessageID) {
    id.text != "" && Trim(id.text) == id.text
  }

  predicate AllNamed(accepted: Accepted) {
    forall id <- accepted :: Named(id)
  }

  /** Later records win; a record without an id makes the file unusable. */
  function LoadRecords(records: seq<Record>): (r: Option<Accepted>)
    ensures r.Some? ==> AllNamed(r.value)
  {
    if records == [] then Some(map[])
    else
      var last := records[|records| - 1];
      var init := LoadRecords(records[..|records| - 1]);
      TrimIdempotent(last.id);
      if init.None? || Trim(last.id) == "" then None else Some(init.value[Key(last.id) := last.reservedAt])
  }

  /** Of the records of one id the last counts, whatever white space is around it. */
  lemma {:induction false} LastRecordCounts(records: seq<Record>, i: nat)
    requires LoadRecords(records).Some? && i < |records|
    requires forall j :: i < j < |records| ==> Trim(records[j].id) != Trim(records[i].id)
    ensures var id := MessageID(Trim(records[i].id));
            id in LoadRecords(records).value && LoadRecords(records).value[id] == records[i].reservedAt
  {
    var n := |records| - 1;
    if i < n {
      LastRecordCounts(records[..n], i);
    }
  }

  /** Nothing else is loaded, and nothing at all if some record has no id. */
  lemma {:induction false} LoadedFromRecords(records: seq<Record>)
    ensures LoadRecords(records).Some? <==> forall i :: 0 <= i < |records| ==> Trim(records[i].id) != ""
    ensures LoadRecords(records).Some? ==> forall id <- LoadRecords(records).value ::
              exists i :: 0 <= i < |records| && Trim(records[i].id) == id.text
  {
    hide Trim;
    if records != [] {
      var before, last := records[..|records| - 1], records[|records| - 1];
      LoadedFromRecords(before);
      assert forall i :: 0 <= i < |before| ==> before[i] == records[i];
      if LoadRecords(records).Some? {
        forall id | id in LoadRecords(records).value
          ensures exists i :: 0 <= i < |records| && Trim(records[i].id) == id.text
        {
          if id == Key(last.id) {
            assert Trim(records[|records| - 1].id) == id.text;
          } else {
            var i :| 0 <= i < |before| && Trim(before[i].id) == id.text;
            assert Trim(records[i].id) == id.text;
          }
        }
      }
    }
  }

  /** Reservations without a time count from the moment they are read. */
  function Dated(ids: seq<string>, now: int): (records: seq<Record>)
    ensures |records| == |ids|
  {
    seq(|ids|, i requires 0 <= i < |ids| => Record(ids[i], now))
  }

  function Loaded(file: StoreFile, now: int): (r: Option<Accepted>)
    ensures r.Some? ==> AllNamed(r.value)
  {
    match file
    case Absent => Some(map[])
    case Legacy(ids) => LoadRecords(Dated(ids, now))
    case Current(records) => LoadRecords(records)
    case Unreadable => None
  }

  /** A file of the first version holds each of its ids, reserved just now. */
  lemma LegacyLoads(ids: seq<string>, now: int)
    requires forall i :: 0 <= i < |ids| ==> Trim(ids[i]) != ""
    ensures Loaded(Legacy(ids), now).Some?
    ensures forall id: MessageID ::
              id in Loaded(Legacy(ids), now).value <==> exists i :: 0 <= i < |ids| && Trim(ids[i]) == id.text
    ensures forall id <- Loaded(Legacy(ids), now).value :: Loaded(Legacy(ids), now).value[id] == now
  {
    var records := Dated(ids, now);
    LoadedFromRecords(records);
    forall i: nat | i < |ids|
      ensures MessageID(Trim(ids[i])) in LoadRecords(records).value &&
              LoadRecords(records).value[MessageID(Trim(ids[i]))] == now
    {
      LegacyRecord(ids, now, i);
    }
    forall id: MessageID | id in LoadRecords(records).value ensures LoadRecords(records).value[id] == now {
      var i :| 0 <= i < |records| && Trim(records[i].id) == id.text;
      assert id == MessageID(Trim(ids[i]));
    }
  }

  lemma LegacyRecord(ids: seq<string>, now: int, i: nat)
    requires LoadRecords(Dated(ids, now)).Some? && i < |ids|
    ensures var id := MessageID(Trim(ids[i]));
            id in LoadRecords(Dated(ids, now)).value && LoadRecords(Dated(ids, now)).value[id] == now
    decreases |ids| - i
  {
    var records := Dated(ids, now);
    if j: nat :| i < j < |ids| && Trim(records[j].id) == Trim(records[i].id) {
      LegacyRecord(ids, now, j);
    } else {
      LastRecordCounts(records, i);
    }
  }

  predicate Expired(reservedAt: int, now: int) {
    reservedAt + RETENTION < now
  }

  function Prune(accepted: Accepted, now: int): Accepted {
    map id | id in accepted && !Expired(accepted[id], now) :: accepted[id]
  }

  /** Ids in `accepted` that a reservation at this time still finds taken. */
  predicate Refuses(accepted: Accepted, now: int, id: MessageID) {
    id in accepted && !Expired(accepted[id], now)
  }

  function Reserve(accepted: Accepted, now: int, at: int, id: MessageID): Accepted {
    if Refuses(accepted, now, id) then accepted else Prune(accepted, now)[id := at]
  }

  function Release(accepted: Accepted, id: MessageID): Accepted {
    accepted - {id}
  }

  /** Whether a save replaced the file, and whether it reported an error. */
  datatype Saved = Saved(committed: bool, failed: bool)

  /** The store, read between two moments, still held the id. */
  ghost predicate Duplicate(before: StoreFile, from: int, id: MessageID, until: int) {
    exists read, now ::
      && from <= read <= now <= until
      && Loaded(before, read).Some?
      && Refuses(Loaded(before, read).value, now, id)
  }

  /** Between two moments the id was found free and added; expired reservations went at the same time. */
  ghost predicate Admitted(before: StoreFile, from: int, id: MessageID, after: StoreFile, until: int) {
    exists read, now, at ::
      && from <= read <= now <= at <= until
      && Loaded(before, read).Some?
      && !Refuses(Loaded(before, read).value, now, id)
      && Holds(after, Reserve(Loaded(before, read).value, now, at, id))
  }

  /** Between two moments the id was taken out, if it was there. */
  ghost predicate Released(before: StoreFile, from: int, id: MessageID, after: StoreFile, until: int) {
    exists read ::
      && from <= read <= until
      && Loaded(before, read).Some?
      && if id in Loaded(before, read).value then Holds(after, Release(Loaded(before, read).value, id))
         else after == before
  }

  /** The file loads as these reservations, whenever it is read. */
  ghost predicate Holds(file: StoreFile, accepted: Accepted) {
    forall now :: Loaded(file, now) == Some(accepted)
  }

  /** The file-backed store, with the clock it reads. */
  class FileDeliveryStore {
    var file: StoreFile
    var clock: int

    constructor (file: StoreFile, clock: int)
      ensures this.file == file && this.clock == clock
    {
      this.file, this.clock := file, clock;
    }

    /** Reads the clock, which never runs backwards. */
    method Now() returns (now: int)
      modifies this`clock
      ensures old(clock) <= now == clock
    {
      var passed: int := *;
      if passed > 0 {
        clock := clock + passed;
      }
      now := clock;
    }

    method Load() returns (accepted: Option<Accepted>, now: int)
      modifies this`clock
      ensures old(clock) <= now <= clock
      ensures file == old(file) && accepted == Loaded(file, now)
    {
      now := Now();
      match file
      case Absent => accepted := Some(map[]);
      case Legacy(ids) => accepted := Collect(Dated(ids, now));
      case Current(records) => accepted := Collect(records);
      case Unreadable => accepted := None;
    }

    static method Collect(records: seq<Record>) returns (accepted: Option<Accepted>)
      ensures accepted == LoadRecords(records)
    {
      var found: Accepted := map[];
      var i := 0;
      while i < |records|
        invariant 0 <= i <= |records| && LoadRecords(records[..i]) == Some(found)
      {
        assert records[..i + 1][..i] == records[..i];
        if Trim(records[i].id) == "" {
          NoneBeyond(records, i + 1);
          return None;
        }
        found := found[Key(records[i].id) := records[i].reservedAt];
        i := i + 1;
      }
      assert records[..i] == records;
      accepted := Some(found);
    }

    static method PruneExpired(accepted: Accepted, now: int) returns (kept: Accepted)
      ensures kept == Prune(accepted, now)
    {
      kept := accepted;
      var rest := accepted.Keys;
      while rest != {}
        invariant rest <= accepted.Keys
        invariant kept == map id | id in accepted && (id in rest || !Expired(accepted[id], now)) :: accepted[id]
        decreases |rest|
      {
        var id :| id in rest;
        if Expired(accepted[id], now) {
          kept := kept - {id};
        }
        rest := rest - {id};
      }
    }

    /** Writes the reservations out one by one. */
    static method Encode(accepted: Accepted) returns (records: seq<Record>)
      requires AllNamed(accepted)
      ensures LoadRecords(records) == Some(accepted)
    {
      records := [];
      assert accepted - accepted.Keys == map[];
      var rest := accepted.Keys;
      while rest != {}
        invariant rest <= accepted.Keys
        invariant LoadRecords(records) == Some(accepted - rest)
        decreases |rest|
      {
        var id :| id in rest;
        RecordAdded(records, accepted, rest, id);
        records := records + [Record(id.text, accepted[id])];
        rest := rest - {id};
      }
      assert accepted - rest == accepted;
    }

    /** Replaces the file by one that loads as `accepted`, or leaves it alone. */
    method Save(accepted: Accepted) returns (saved: Saved)
      requires AllNamed(accepted)
      modifies this`file
      ensures saved.committed ==> file.Current? && Holds(file, accepted)
      ensures !saved.committed ==> saved.failed && file == old(file)
    {
      var records := Encode(accepted);
      var written: bool := *;
      if !written {
        return Saved(false, true);
      }
      file := Current(records);
      var failed: bool := *;
      saved := Saved(true, failed);
    }

    /** Accepts an id that no unexpired reservation holds; true is the only leave to deliver. */
    method ReserveContext(cancelled: bool, messageID: string) returns (reserved: bool, failed: bool)
      modifies this
      ensures old(clock) <= clock
      ensures cancelled || Trim(messageID) == "" ==> failed
      ensures !reserved ==> file == old(file)
      ensures !reserved && !failed ==> Duplicate(old(file), old(clock), MessageID(Trim(messageID)), clock)
      ensures reserved ==>
                !cancelled && Trim(messageID) != "" &&
                Admitted(old(file), old(clock), MessageID(Trim(messageID)), file, clock)
    {
      if cancelled || Trim(messageID) == "" {
        return false, true;
      }
      var id := Key(messageID);
      TrimIdempotent(messageID);
      var unlocked: bool := *;
      if unlocked {
        return false, true;
      }
      var loaded, read := Load();
      if loaded.None? {
        return false, true;
      }
      var now := Now();
      var accepted := PruneExpired(loaded.value, now);
      if id in accepted {
        assert Refuses(loaded.value, now, id);
        failed := *;
        return false, failed;
      }
      var at := Now();
      accepted := accepted[id := at];
      assert accepted == Reserve(loaded.value, now, at, id);
      ghost var before := file;
      var saved := Save(accepted);
      assert saved.committed ==> Admitted(before, old(clock), id, file, clock);
      var closeFailed: bool := *;
      return saved.committed, saved.failed || closeFailed;
    }

    /** Forgets a reservation. */
    method ReleaseContext(cancelled: bool, messageID: string) returns (failed: bool)
      modifies this
      ensures old(clock) <= clock
      ensures cancelled ==> failed
      ensures file == old(file) || Released(old(file), old(clock), MessageID(Trim(messageID)), file, clock)
      ensures !failed && Trim(messageID) != "" ==>
                Released(old(file), old(clock), MessageID(Trim(messageID)), file, clock)
    {
      if cancelled {
        return true;
      }
      if Trim(messageID) == "" {
        return false;
      }
      var id := Key(messageID);
      var unlocked: bool := *;
      if unlocked {
        return true;
      }
      var loaded, read := Load();
      if loaded.None? {
        return true;
      }
      var closeFailed: bool := *;
      if id !in loaded.value {
        return closeFailed;
      }
      var saved := Save(loaded.value - {id});
      failed := saved.failed || closeFailed;
    }
  }

  lemma RecordAdded(records: seq<Record>, accepted: Accepted, rest: set<MessageID>, id: MessageID)
    requires id in rest && rest <= accepted.Keys && Named(id)
    requires LoadRecords(records) == Some(accepted - rest)
    ensures LoadRecords(records + [Record(id.text, accepted[id])]) == Some(accepted - (rest - {id}))
  {
    assert (records + [Record(id.text, accepted[id])])[..|records|] == records;
    assert accepted - (rest - {id}) == (accepted - rest)[id := accepted[id]];
  }

  lemma {:induction false} NoneBeyond(records: seq<Record>, n: nat)
    requires n <= |records| && LoadRecords(records[..n]).None?
    ensures LoadRecords(records).None?
    decreases |records| - n
  {
    if n < |records| {
      assert records[..n + 1][..n] == records[..n];
      NoneBeyond(records, n + 1);
    } else {
      assert records[..n] == records;
    }
  }
}
