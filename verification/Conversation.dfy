/**
 * The conversation of one session (internal/runtime/context_controller.go): its stored records, the summary
 * that stands for the oldest of them, and the context shown to the model, which may be compacted before any call.
 */
module Conversations {
  import opened Common
  import opened Compaction
  import opened SessionLog

  /** The compaction state of one session (internal/compaction/compactor.go). */
  class Compactor {
    const recentKeep: nat
    var disabled: bool
    var autoDisabled: bool
    var compacting: bool
    var consecutiveFailures: nat

    /** Every summary obtained, with the messages it is of. */
    ghost var asked: seq<Asked>

    predicate Ready()
      reads this
    {
      !compacting && consecutiveFailures <= 3
    }

    constructor (recentKeep: nat, disabled: bool, autoDisabled: bool)
      ensures Ready() && this.recentKeep == recentKeep
    {
      this.recentKeep, this.disabled, this.autoDisabled := recentKeep, disabled, disabled || autoDisabled;
      compacting, consecutiveFailures, asked := false, 0, [];
    }

    /** The summary call: it may fail; otherwise what it was asked about and its text are noted. */
    method Summarize(cut: seq<Message>) returns (text: Option<string>)
      modifies this`asked
      ensures asked == if text.Some? then old(asked) + [Asked(cut, text.value)] else old(asked)
    {
      var failed: bool, answer: string := *, *;
      if failed {
        return None;
      }
      asked := asked + [Asked(cut, answer)];
      text := Some(answer);
    }

    /** The compacted messages, or None when there is nothing to cut. */
    method Compact(ms: seq<Message>, keep: nat) returns (r: Option<seq<Message>>, failed: bool)
      modifies this`asked
      ensures failed ==> r.None?
      ensures r.None? ==> asked == old(asked)
      ensures !failed ==> (r.None? <==> Split(ms, keep).None?)
      ensures r.Some? ==> |asked| == |old(asked)| + 1 && asked[..|old(asked)|] == old(asked) &&
                          Compacted(ms, keep, r.value, asked[|old(asked)|])
    {
      hide MoveSplit;
      if |ms| <= keep + 2 {
        return None, false;
      }
      var keepStart := 1;
      if |ms| > 1 && ms[1].role == User && ms[1].callId == "" {
        keepStart := 2;
      }
      if |ms| - keep < keepStart {
        return None, false;
      }
      var split := MoveSplitToProtocolBoundary(ms, |ms| - keep, keepStart);
      if split <= keepStart {
        return None, false;
      }
      var text := Summarize(ms[keepStart..split]);
      if text.None? {
        return None, true;
      }
      var note: string := *;
      var compacted := ms[..keepStart];
      compacted := compacted + [Message(System, note, [], "")];
      compacted := compacted + [Message(User, text.value, [], "")];
      compacted := compacted + ms[split..];
      assert Split(ms, keep) == Some(split) && asked[|old(asked)|] == Asked(ms[keepStart..split], text.value);
      assert compacted ==
             ms[..keepStart] + [Message(System, note, [], ""), Message(User, text.value, [], "")] + ms[split..];
      CompactedAs(ms, keep, compacted, asked[|old(asked)|], note);
      r, failed := Some(compacted), false;
    }

    /** Three compactions in a row that cut nothing trip the breaker: from then on nothing is attempted. */
    method MaybeCompact(ms: seq<Message>) returns (out: seq<Message>, failed: bool)
      requires Ready()
      modifies this
      ensures Ready() && disabled == old(disabled) && autoDisabled == old(autoDisabled)
      ensures old(disabled || autoDisabled || consecutiveFailures >= 3) ==>
        out == ms && !failed && consecutiveFailures == old(consecutiveFailures)
      ensures out == ms || (asked != [] && Compacted(ms, recentKeep, out, asked[|asked| - 1]))
      ensures out != ms ==> |asked| == |old(asked)| + 1
      ensures out != ms ==> consecutiveFailures == 0
      ensures out == ms ==> consecutiveFailures == old(consecutiveFailures) ||
                            (Split(ms, recentKeep).None? && consecutiveFailures == old(consecutiveFailures) + 1) ||
                            (Split(ms, recentKeep).Some? && consecutiveFailures == 0)
    {
      if compacting || disabled || autoDisabled || consecutiveFailures >= 3 {
        return ms, false;
      }
      compacting := true;
      var used, threshold: int := *, *;
      if used < threshold {
        compacting := false;
        return ms, false;
      }
      var r;
      r, failed := Compact(ms, recentKeep);
      if failed {
        compacting := false;
        return ms, true;
      }
      if r.None? {
        consecutiveFailures := consecutiveFailures + 1;
        compacting := false;
        return ms, false;
      }
      consecutiveFailures := 0;
      compacting := false;
      out := r.value;
    }

    method ForceCompact(ms: seq<Message>) returns (out: seq<Message>, failed: bool)
      requires Ready()
      modifies this
      ensures Ready()
      ensures old(disabled) ==> out == ms && !failed
      ensures out == ms ||
              (asked != [] && Compacted(ms, if recentKeep / 2 < 4 then 4 else recentKeep / 2, out, asked[|asked| - 1]))
      ensures out != ms ==> |asked| == |old(asked)| + 1
      ensures consecutiveFailures == 0 || consecutiveFailures == old(consecutiveFailures)
    {
      if compacting || disabled {
        return ms, false;
      }
      compacting := true;
      var keep := recentKeep / 2;
      if keep < 4 {
        keep := 4;
      }
      var r;
      r, failed := Compact(ms, keep);
      if failed || r.None? {
        compacting := false;
        return ms, failed;
      }
      consecutiveFailures := 0;
      compacting := false;
      out := r.value;
    }

    method ResetCircuitBreaker()
      requires Ready()
      modifies this`consecutiveFailures
      ensures Ready() && consecutiveFailures == 0
    {
      consecutiveFailures := 0;
    }
  }

  /** The messages a summary was made of, and its text. */
  datatype Asked = Asked(cut: seq<Message>, text: string)

  /**
   * `out` is `ms` with the messages between the kept start and the split replaced by a boundary note and a
   * message with the text of the summary of just those.
   */
  ghost predicate CompactedWith(ms: seq<Message>, keep: nat, out: seq<Message>, asked: Asked, note: string) {
    && Split(ms, keep).Some?
    && var start := if |ms| > 1 && ms[1].role == User && ms[1].callId == "" then 2 else 1;
       var split := Split(ms, keep).value;
       start < split <= |ms| &&
       asked.cut == ms[start..split] &&
       out == ms[..start] + [Message(System, note, [], ""), Message(User, asked.text, [], "")] + ms[split..]
  }

  lemma CompactedAs(ms: seq<Message>, keep: nat, out: seq<Message>, asked: Asked, note: string)
    requires CompactedWith(ms, keep, out, asked, note)
    ensures Compacted(ms, keep, out, asked)
  {
  }

  ghost predicate Compacted(ms: seq<Message>, keep: nat, out: seq<Message>, asked: Asked) {
    exists note: string :: CompactedWith(ms, keep, out, asked, note)
  }

  /** Calls come from others than the user and carry ids. */
  predicate Usual(m: Message) {
    (m.role == User ==> m.calls == []) && "" !in m.calls
  }

  predicate AllUsual(ms: seq<Message>) {
    forall i | 0 <= i < |ms| :: Usual(ms[i])
  }

  /** A paired model-visible context whose calls all carry ids. */
  ghost predicate Lawful(ms: seq<Message>) {
    Paired(ms) && AllUsual(ms) && ms != [] && Plain(ms[0])
  }

  lemma UsualConcat(a: seq<Message>, b: seq<Message>)
    requires AllUsual(a) && AllUsual(b)
    ensures AllUsual(a + b)
  {
    hide Usual;
  }

  lemma PlainUsual(ms: seq<Message>)
    requires forall i :: 0 <= i < |ms| ==> Plain(ms[i])
    ensures AllUsual(ms)
  {
  }

  lemma LawfulIsHistory(ms: seq<Message>)
    requires Lawful(ms)
    ensures History(ms) && NamedCalls(ms)
  {
    hide Paired;
    assert forall i | 0 <= i < |ms| :: Usual(ms[i]);
  }

  lemma CompactedLawful(ms: seq<Message>, keep: nat, out: seq<Message>, asked: Asked)
    requires Lawful(ms) && Compacted(ms, keep, out, asked)
    ensures Lawful(out)
  {
    hide Usual, Paired, Split;
    var note: string :| CompactedWith(ms, keep, out, asked, note);
    var boundary, summary := Message(System, note, [], ""), Message(User, asked.text, [], "");
    LawfulIsHistory(ms);
    assert DoCompact(ms, keep, boundary, summary) == Some(out);
    CompactionKeepsPairing(ms, keep, boundary, summary);
    var split := Split(ms, keep).value;
    PlainUsual([boundary, summary]);
    UsualConcat(ms[..KeepStart(ms)], [boundary, summary]);
    UsualConcat(ms[..KeepStart(ms)] + [boundary, summary], ms[split..]);
  }

  lemma Extended(ms: seq<Message>, more: seq<Message>)
    requires Lawful(ms) && Paired(more) && AllUsual(more)
    ensures Lawful(ms + more)
  {
    hide Paired, Usual;
    PairedConcat(ms, more);
    UsualConcat(ms, more);
  }

  lemma RoundPaired(reply: Message, results: seq<Message>)
    requires reply.callId == "" && Answers(reply.calls, results)
    ensures Paired([reply] + results)
  {
    var round := [reply] + results;
    assert round[1..|reply.calls| + 1] == results && round[|reply.calls| + 1..] == [];
  }

  lemma NoticesExtend(base: seq<Message>, notices: seq<Message>)
    requires Lawful(base) && forall i :: 0 <= i < |notices| ==> Plain(notices[i])
    ensures Lawful(base + notices) && Paired(base + notices)
  {
    PlainPaired(notices);
    PlainUsual(notices);
    Extended(base, notices);
  }

  // ---- What the session's log says of the context shown ----

  /** No round was cut and every call has an id. */
  predicate Orderly(log: seq<Entry>) {
    forall i | 0 <= i < |log| :: !Cut(log[i]) && (log[i].Reply? ==> "" !in log[i].calls)
  }

  /** The thinking replies of the run now going on carried no calls. */
  predicate Calm(log: seq<Entry>) {
    log == [] ||
    match log[|log| - 1] {
      case Prompt(_) => true
      case Thought(message) => Plain(message) && Calm(log[..|log| - 1])
      case _ => Calm(log[..|log| - 1])
    }
  }

  /** While the log is orderly and calm, every context shown to the model was paired. */
  predicate ShownPaired(log: seq<Entry>) {
    forall k | 0 <= k < |log| && log[k].Called? :: Orderly(log[..k]) && Calm(log[..k]) ==> Paired(log[k].visible)
  }

  lemma OrderlySnoc(log: seq<Entry>, e: Entry)
    ensures Orderly(log + [e]) <==> Orderly(log) && !Cut(e) && (e.Reply? ==> "" !in e.calls)
    ensures Calm(log + [e]) <==> e.Prompt? || (Calm(log) && (e.Thought? ==> Plain(e.message)))
  {
    hide Cut;
    var all := log + [e];
    assert all[..|log|] == log && all[|log|] == e;
    assert Orderly(all) ==> Orderly(log) by {
      if Orderly(all) {
        assert forall i | 0 <= i < |log| :: log[i] == all[i];
      }
    }
  }

  lemma FollowsSnoc(log: seq<Entry>, e: Entry)
    requires Follows(log)
    requires e.Reply? || e.Thought? ==> log != [] && log[|log| - 1].Called?
    requires e.Called? && log != [] ==> !Cut(log[|log| - 1])
    ensures Follows(log + [e])
  {
    hide Cut;
    forall k: nat | k < |log + [e]| ensures InOrder(log + [e], k) {
      if k < |log| {
        assert InOrder(log, k);
      }
    }
  }

  lemma ShownSnoc(log: seq<Entry>, e: Entry)
    requires ShownPaired(log)
    requires e.Called? && Orderly(log) && Calm(log) ==> Paired(e.visible)
    ensures ShownPaired(log + [e])
  {
    hide Orderly, Calm, Paired;
    forall k | 0 <= k < |log + [e]| && (log + [e])[k].Called?
      ensures Orderly((log + [e])[..k]) && Calm((log + [e])[..k]) ==> Paired((log + [e])[k].visible)
    {
      if k < |log| {
        assert (log + [e])[..k] == log[..k];
      } else {
        assert (log + [e])[..k] == log;
      }
    }
  }

  lemma {:induction false} StoredUsual(log: seq<Entry>)
    requires Orderly(log)
    ensures AllUsual(Stored(log))
  {
    if log != [] {
      var e, before := log[|log| - 1], log[..|log| - 1];
      assert log == before + [e];
      OrderlySnoc(before, e);
      StoredUsual(before);
      MessagesLaw(e);
      UsualConcat(Stored(before), Messages(e));
    }
  }

  lemma StoredSnoc(log: seq<Entry>, e: Entry)
    ensures Stored(log + [e]) == Stored(log) + Messages(e)
  {
    assert (log + [e])[..|log|] == log;
  }

  lemma ReplyPaired(e: Entry)
    requires e.Reply? && !Cut(e)
    ensures Paired(Messages(e))
  {
    hide Paired;
    if e.calls == [] {
      assert Messages(e) == [Message(Assistant, e.text, [], "")];
      PlainPaired(Messages(e));
    } else {
      assert Kept(e) == Checked(e.calls, e.tools.results);
      RoundPaired(Message(Assistant, e.text, e.calls, ""), Kept(e));
    }
  }

  lemma MessagesLaw(e: Entry)
    ensures (e.Reply? ==> "" !in e.calls) ==> AllUsual(Messages(e))
    ensures !Cut(e) ==> Paired(Messages(e))
  {
    hide Paired, Cut;
    if e.Reply? {
      var reply := Message(Assistant, e.text, e.calls, "");
      PlainOrCalls(Kept(e));
      if "" !in e.calls {
        UsualConcat([reply], Kept(e));
      }
      if !Cut(e) {
        ReplyPaired(e);
      }
    } else {
      PlainPaired(Messages(e));
      PlainUsual(Messages(e));
    }
  }

  lemma PlainOrCalls(results: seq<Message>)
    requires forall i :: 0 <= i < |results| ==> results[i].calls == []
    ensures AllUsual(results)
  {
  }

  /** The log accounts for the stored records, and those not summarized are paired as long as it is orderly. */
  ghost predicate Stands(log: seq<Entry>, persisted: seq<Message>, from: nat) {
    && from <= |persisted| && persisted == Stored(log)
    && Follows(log) && ShownPaired(log)
    && (Orderly(log) ==> Paired(persisted[from..]))
  }

  ghost predicate Showing(log: seq<Entry>, base: seq<Message>, notices: seq<Message>) {
    Orderly(log) && Calm(log) ==> Lawful(base) && forall i :: 0 <= i < |notices| ==> Plain(notices[i])
  }

  predicate MayCall(log: seq<Entry>) {
    log != [] && !Cut(log[|log| - 1])
  }

  lemma StandsSnoc(log: seq<Entry>, persisted: seq<Message>, from: nat, e: Entry)
    requires Stands(log, persisted, from)
    requires e.Reply? || e.Thought? ==> log != [] && log[|log| - 1].Called?
    requires e.Called? ==> MayCall(log)
    requires e.Called? && Orderly(log) && Calm(log) ==> Paired(e.visible)
    ensures Stands(log + [e], persisted + Messages(e), from)
  {
    hide Orderly, Calm, Cut, Messages, Paired, Follows, ShownPaired;
    FollowsSnoc(log, e);
    ShownSnoc(log, e);
    StoredSnoc(log, e);
    OrderlySnoc(log, e);
    MessagesLaw(e);
    assert (persisted + Messages(e))[from..] == persisted[from..] + Messages(e);
    if Orderly(log + [e]) {
      PairedConcat(persisted[from..], Messages(e));
    }
  }

  /** What a run is first shown: the system message, the summary if there is one, and the records it leaves out. */
  function Project(system: Message, summary: string, records: seq<Message>): seq<Message> {
    [system] + (if summary == "" then [] else [Message(User, summary, [], "")]) + records
  }

  lemma ProjectIs(system: Message, summary: string, records: seq<Message>)
    ensures Project(system, summary, records) ==
            [system] + (if summary == "" then [] else [Message(User, summary, [], "")]) + records
  {
  }

  lemma ProjectPaired(system: Message, summary: string, records: seq<Message>)
    requires Plain(system)
    ensures Paired(Project(system, summary, records)) <==> Paired(records)
  {
    PlainPrefix([system] + (if summary == "" then [] else [Message(User, summary, [], "")]), records);
  }

  /** The records not summarized, while the log is orderly. */
  lemma ActiveLaw(log: seq<Entry>, persisted: seq<Message>, from: nat)
    requires Stands(log, persisted, from) && Orderly(log)
    ensures Paired(persisted[from..]) && AllUsual(persisted[from..])
  {
    hide Usual, Orderly, Stored, Paired, ShownPaired, Follows;
    StoredUsual(log);
  }

  lemma ProjectLawful(system: Message, summary: string, records: seq<Message>)
    requires Plain(system) && Paired(records) && AllUsual(records)
    ensures Lawful(Project(system, summary, records))
  {
    hide Paired, Usual;
    ProjectPaired(system, summary, records);
    var head := [system] + (if summary == "" then [] else [Message(User, summary, [], "")]);
    PlainUsual(head);
    UsualConcat(head, records);
  }

  lemma ProjectShows(log: seq<Entry>, persisted: seq<Message>, from: nat, system: Message, summary: string)
    requires Stands(log, persisted, from) && Plain(system)
    ensures from <= |persisted| && Showing(log, Project(system, summary, persisted[from..]), [])
  {
    hide Orderly, Lawful, Project, Stored, Paired, ShownPaired, Follows;
    if Orderly(log) {
      ActiveLaw(log, persisted, from);
      ProjectLawful(system, summary, persisted[from..]);
    }
  }

  lemma ReplyShows(log: seq<Entry>, base: seq<Message>, notices: seq<Message>, e: Entry)
    requires Showing(log, base, notices) && e.Reply?
    ensures Showing(log + [e], base + notices + Messages(e), [])
  {
    hide Orderly, Calm, Cut, Messages, Lawful;
    OrderlySnoc(log, e);
    if Orderly(log + [e]) && Calm(log + [e]) {
      MessagesLaw(e);
      NoticesExtend(base, notices);
      Extended(base + notices, Messages(e));
    }
  }

  lemma UsualNamed(ms: seq<Message>)
    requires AllUsual(ms)
    ensures NamedCalls(ms)
  {
    assert forall i | 0 <= i < |ms| :: Usual(ms[i]);
  }

  lemma CutStands(log: seq<Entry>, persisted: seq<Message>, from: nat, recentKeep: nat)
    requires Stands(log, persisted, from) && from < |persisted| && persisted[|persisted| - 1].callId == ""
    requires DurableSplit(persisted[from..], recentKeep).Some?
    ensures Stands(log, persisted, from + DurableSplit(persisted[from..], recentKeep).value)
  {
    hide Orderly, Stored, Paired, ShownPaired, Follows, DurableSplit, StrayResult, Usual;
    var records := persisted[from..];
    if Orderly(log) {
      ActiveLaw(log, persisted, from);
      UsualNamed(records);
      forall i: nat ensures !StrayResult(records, i) {
        NamedCallsNoStray(records, i);
      }
      DurableCutIsPaired(records, recentKeep);
    }
    assert records[DurableSplit(records, recentKeep).value..] ==
           persisted[from + DurableSplit(records, recentKeep).value..];
  }

  /** Where the durable cut falls; 0 means nowhere. */
  method ChooseSplit(records: seq<Message>, recentKeep: nat) returns (split: nat)
    ensures DurableSplit(records, recentKeep) == if split == 0 then None else Some(split)
  {
    hide MoveSplit;
    var active := if records == [] then [] else records[..|records| - 1];
    if |active| <= recentKeep {
      return 0;
    }
    split := MoveSplitToProtocolBoundary(active, |active| - recentKeep, 0);
  }

  class Conversation {
    const compactor: Compactor
    var persisted: seq<Message>

    /** The text that stands for the first `covered` records, if it is not empty. */
    var summary: string
    var covered: nat

    /** The context of the run going on, and the transient messages of its current turn. */
    var system: Message
    var base: seq<Message>
    var notices: seq<Message>

    ghost var log: seq<Entry>

    function From(): nat
      reads this
    {
      if summary == "" then 0 else covered
    }

    ghost predicate Valid()
      reads this, compactor
    {
      && compactor.Ready() && Plain(system) && system.role == System
      && Stands(log, persisted, From())
      && Showing(log, base, notices)
    }

    constructor (compactor: Compactor)
      requires compactor.Ready()
      ensures Valid() && log == [] && persisted == [] && this.compactor == compactor
    {
      this.compactor, persisted, summary, covered := compactor, [], "", 0;
      system, base, notices := Message(System, "", [], ""), [Message(System, "", [], "")], [];
      log := [];
      new;
      PlainPaired(base);
    }

    /**
     * Begins a run: stores its user message and projects the stored records, so that a round cut
     * earlier and not summarized since is shown as it is.
     */
    method StartRun(prompt: string) returns (ok: bool)
      requires Valid()
      modifies this`persisted, this`system, this`base, this`notices, this`log
      ensures Valid()
      ensures !ok ==> persisted == old(persisted) && log == old(log)
      ensures ok ==> log == old(log) + [Prompt(prompt)] && persisted == old(persisted) + [Message(User, prompt, [], "")]
      ensures ok ==> notices == [] && system.role == System && Plain(system)
      ensures ok ==>
                base == [system] + Told() + persisted[From()..]
      ensures ok && Paired(persisted[..From()]) ==> (Paired(base) <==> Paired(persisted))
    {
      hide Stands, Showing, Stored, Project, Paired;
      ok := *;
      if !ok {
        return;
      }
      assert From() <= |persisted| by {
        StandsFrom(log, persisted, From());
      }
      StandsSnoc(log, persisted, From(), Prompt(prompt));
      persisted := persisted + [Message(User, prompt, [], "")];
      log := log + [Prompt(prompt)];
      var text: string := *;
      system, notices := Message(System, text, [], ""), [];
      base := Project(system, summary, persisted[From()..]);
      ProjectIs(system, summary, persisted[From()..]);
      ProjectShows(log, persisted, From(), system, summary);
      ProjectPaired(system, summary, persisted[From()..]);
      if Paired(persisted[..From()]) {
        PairedBehind(persisted[..From()], persisted[From()..]);
        assert persisted == persisted[..From()] + persisted[From()..];
      }
    }

    /**
     * The durable cut of a run's first preparation: what is shown in full but the recent records, up to a
     * boundary, is summarized together with the summary so far.
     */
    method CompactHistory() returns (ok: bool)
      requires Valid() && persisted != [] && persisted[|persisted| - 1].callId == ""
      modifies this`summary, this`covered, this`base, compactor`asked
      ensures Valid()
      ensures (summary == old(summary) && covered == old(covered) && base == old(base)) ||
              (ok && DurableSplit(persisted[old(From())..], compactor.recentKeep).Some? &&
               covered == old(From()) + DurableSplit(persisted[old(From())..], compactor.recentKeep).value &&
               compactor.asked ==
               old(compactor.asked) + [Asked(old(Told()) + persisted[old(From())..covered], summary)] &&
               From() <= |persisted| && base == [system] + Told() + persisted[From()..])
    {
      hide Stands, Showing, Stored, Project, DurableSplit, MoveSplit;
      ok := true;
      var used, threshold: int := *, *;
      if used < threshold {
        return;
      }
      StandsFrom(log, persisted, From());
      var split := ChooseSplit(persisted[From()..], compactor.recentKeep);
      if split == 0 {
        return;
      }
      CutStands(log, persisted, From(), compactor.recentKeep);
      StandsAll(log, persisted, From());
      var text := compactor.Summarize(Told() + persisted[From()..From() + split]);
      if text.None? {
        ok := false;
        return;
      }
      summary, covered := text.value, From() + split;
      StandsFrom(log, persisted, From());
      base := Project(system, summary, persisted[From()..]);
      ProjectIs(system, summary, persisted[From()..]);
      ProjectShows(log, persisted, From(), system, summary);
      ShowingAgain(log, old(base), notices, base);
    }

    /** The summary so far as a message, if there is one. */
    function Told(): seq<Message>
      reads this
    {
      if summary == "" then [] else [Message(User, summary, [], "")]
    }

    /** An explicit compaction between runs summarizes everything stored. */
    method CompactManual() returns (ok: bool)
      requires Valid()
      modifies this`summary, this`covered, compactor`asked
      ensures Valid()
      ensures (summary == old(summary) && covered == old(covered)) ||
              (covered == |persisted| &&
               compactor.asked == old(compactor.asked) + [Asked(old(Told()) + persisted[old(From())..], summary)])
    {
      hide Stands, Showing, Stored, Project;
      StandsFrom(log, persisted, From());
      ok := true;
      if persisted == [] {
        return;
      }
      var text := compactor.Summarize(Told() + persisted[From()..]);
      if text.None? {
        ok := false;
        return;
      }
      StandsAll(log, persisted, From());
      summary, covered := text.value, |persisted|;
    }

    /** Appends transient messages of the current turn. */
    method AppendContext(messages: seq<Message>)
      requires Valid() && forall i :: 0 <= i < |messages| ==> Plain(messages[i])
      modifies this`notices
      ensures Valid() && notices == old(notices) + messages
    {
      notices := notices + messages;
    }

    /** The thinking reply joins the current turn's messages. */
    method AppendThought(message: Message)
      requires Valid() && log != [] && log[|log| - 1].Called?
      modifies this`notices, this`log
      ensures Valid() && notices == old(notices) + [message] && log == old(log) + [Thought(message)]
    {
      hide Stands, Stored, Cut;
      StandsSnoc(log, persisted, From(), Thought(message));
      OrderlySnoc(log, Thought(message));
      assert persisted + Messages(Thought(message)) == persisted;
      notices := notices + [message];
      log := log + [Thought(message)];
    }

    /** At the start of a turn the earlier turns' messages are ordinary context. */
    method BeginTurn()
      requires Valid()
      modifies this`base, this`notices
      ensures Valid() && notices == [] && base == old(base + notices)
    {
      hide Stands, Orderly, Calm, Lawful;
      if Orderly(log) && Calm(log) {
        NoticesExtend(base, notices);
      }
      base, notices := base + notices, [];
    }

    /** The context shown is this one, compacted with the newest summary. */
    ghost predicate CompactedNow(was: seq<Message>, keep: nat)
      reads this, compactor
    {
      compactor.asked != [] && Compacted(was, keep, base, compactor.asked[|compactor.asked| - 1])
    }

    /** The compaction before a turn works on all but the turn's own messages; a failure leaves the context alone. */
    method CompactTurn()
      requires Valid()
      modifies this`base, compactor
      ensures Valid() && (base == old(base) || CompactedNow(old(base), compactor.recentKeep))
    {
      hide Stands, Orderly, Calm;
      var failed;
      base, failed := compactor.MaybeCompact(base);
      if Orderly(log) && Calm(log) {
        if base != old(base) {
          CompactedLawful(old(base), compactor.recentKeep, base, compactor.asked[|compactor.asked| - 1]);
        }
      }
    }

    /** The context of one model call, compacted first when the call is its run's or its turn's first. */
    method Prepare(initial: bool, turnStart: bool) returns (ok: bool)
      requires Valid() && MayCall(log) && (initial ==> log[|log| - 1].Prompt?)
      modifies this`summary, this`covered, this`base, this`log, compactor
      ensures Valid()
      ensures log == if ok then old(log) + [Called(base + notices)] else old(log)
      ensures var shown := [system] + Told() + persisted[if From() <= |persisted| then From() else 0..];
              || base == old(base)
              || (initial && base == shown)
              || (turnStart && CompactedNow(old(base), compactor.recentKeep))
              || (initial && turnStart && CompactedNow(shown, compactor.recentKeep))
    {
      hide Stands, Showing, DurableSplit, CompactedWith;
      if initial {
        LastPrompt(log, persisted, From());
        ok := CompactHistory();
        if !ok {
          return;
        }
      }
      if turnStart {
        CompactTurn();
      }
      // The budget check may block the call.
      ok := *;
      if ok {
        Call();
      }
    }

    ghost method Call()
      requires Valid() && MayCall(log)
      modifies this`log
      ensures Valid() && log == old(log) + [Called(base + notices)]
    {
      hide Stands, Stored, Cut, Orderly, Calm, Lawful;
      if Orderly(log) && Calm(log) {
        NoticesExtend(base, notices);
      }
      StandsSnoc(log, persisted, From(), Called(base + notices));
      OrderlySnoc(log, Called(base + notices));
      assert persisted + Messages(Called(base + notices)) == persisted;
      log := log + [Called(base + notices)];
    }

    /**
     * When the model finds the prompt too long everything is compacted; only if that cut something it is called again.
     */
    method PrepareAgain() returns (ok: bool)
      requires Valid() && MayCall(log)
      modifies this`base, this`notices, this`log, compactor
      ensures Valid()
      ensures log == if ok then old(log) + [Called(base)] else old(log)
      ensures ok ==> notices == [] &&
                     CompactedNow(old(base + notices),
                                  if compactor.recentKeep / 2 < 4 then 4 else compactor.recentKeep / 2)
    {
      var keep := if compactor.recentKeep / 2 < 4 then 4 else compactor.recentKeep / 2;
      var shown, failed := compactor.ForceCompact(base + notices);
      ok := shown != base + notices;
      if ok {
        ForcedShows(log, base, notices, shown, keep, compactor.asked[|compactor.asked| - 1]);
        base, notices := shown, [];
        assert base + notices == base;
        Call();
      }
    }

    /** Persists one assistant reply. */
    method AppendReply(reply: Message) returns (ok: bool)
      modifies this`persisted, this`base, this`notices
      ensures !ok ==> persisted == old(persisted) && base == old(base) && notices == old(notices)
      ensures ok ==> persisted == old(persisted) + [reply] && notices == []
      ensures ok ==> base == old(base) + old(notices) + [reply]
    {
      ok := *;
      if ok {
        persisted := persisted + [reply];
        base, notices := base + notices + [reply], [];
      }
    }

    /** Persists the results one by one, up to the first append that fails. */
    method AppendResults(results: seq<Message>) returns (written: nat)
      modifies this`persisted, this`base
      ensures written <= |results|
      ensures persisted == old(persisted) + results[..written] && base == old(base) + results[..written]
    {
      written := 0;
      while written < |results|
        invariant written <= |results|
        invariant persisted == old(persisted) + results[..written] && base == old(base) + results[..written]
      {
        var ok: bool := *;
        if !ok {
          return;
        }
        persisted, base := persisted + [results[written]], base + [results[written]];
        written := written + 1;
      }
    }
  }

  lemma StandsFrom(log: seq<Entry>, persisted: seq<Message>, from: nat)
    requires Stands(log, persisted, from)
    ensures from <= |persisted| && persisted == Stored(log)
  {
  }

  /** Nothing summarized or everything: either way what is left is paired. */
  lemma StandsAll(log: seq<Entry>, persisted: seq<Message>, from: nat)
    requires Stands(log, persisted, from)
    ensures Stands(log, persisted, 0) && Stands(log, persisted, |persisted|)
  {
    if Orderly(log) {
      NoCutOwesNothing(log);
      AfterUnpaired(log);
      assert persisted[0..] == persisted && persisted[|persisted|..] == [];
    }
  }

  lemma LastPrompt(log: seq<Entry>, persisted: seq<Message>, from: nat)
    requires Stands(log, persisted, from) && log != [] && log[|log| - 1].Prompt?
    ensures persisted != [] && persisted[|persisted| - 1].callId == ""
  {
    hide Follows, ShownPaired, Orderly;
  }

  lemma ShowingAgain(log: seq<Entry>, was: seq<Message>, notices: seq<Message>, base: seq<Message>)
    requires Showing(log, was, notices) && Showing(log, base, [])
    ensures Showing(log, base, notices)
  {
  }

  lemma ForcedShows(log: seq<Entry>, base: seq<Message>, notices: seq<Message>, shown: seq<Message>, keep: nat,
                    asked: Asked)
    requires Showing(log, base, notices) && Compacted(base + notices, keep, shown, asked)
    ensures Showing(log, shown, [])
  {
    if Orderly(log) && Calm(log) {
      NoticesExtend(base, notices);
      CompactedLawful(base + notices, keep, shown, asked);
    }
  }
}
