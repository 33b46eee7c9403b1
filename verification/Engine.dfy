/**
 * The turn loop (internal/engine/target.go), over all the runs of a session. Model, tools, store and
 * policy are free, within what is said below; a run may stop wherever the source returns an error.
 */
module Engine {
  import opened Common
  import opened Compaction
  import opened SessionLog
  import opened Conversations

  /** How a run ended, or that it is still going on; the kind of a failure is the source's error kind. */
  datatype Outcome = Completed | Failed(kind: string) | Unfinished

  /** How many turns got their reply. */
  function Replies(log: seq<Entry>): nat {
    if log == [] then 0 else Replies(log[..|log| - 1]) + (if log[|log| - 1].Reply? then 1 else 0)
  }

  lemma RepliesSnoc(log: seq<Entry>, e: Entry)
    ensures Replies(log + [e]) == Replies(log) + (if e.Reply? then 1 else 0)
  {
    assert (log + [e])[..|log|] == log;
  }

  /** What a run appends: its user message first if anything, and no other; only its last round may be cut. */
  predicate OneRun(log: seq<Entry>, log': seq<Entry>) {
    && log <= log'
    && (forall k | |log| <= k < |log'| :: log'[k].Prompt? <==> k == |log|)
    && (forall k | |log| <= k < |log'| - 1 :: !Cut(log'[k]))
  }

  /**
   * Checks a batch of results against its calls: the count must match, a blank result id takes its
   * call's, any other id must equal it. None is the error that ends the run.
   */
  method ExecuteTools(calls: seq<string>, batch: seq<Message>) returns (results: Option<seq<Message>>)
    ensures results.Some? <==> |batch| == |calls| && forall i :: 0 <= i < |calls| ==> batch[i].callId in {"", calls[i]}
    ensures results.Some? ==> Answers(calls, results.value) && results.value == Checked(calls, batch)
    ensures results.Some? ==> forall i :: 0 <= i < |calls| ==>
            results.value[i].content == batch[i].content && results.value[i].role == User
  {
    if |batch| != |calls| {
      return None;
    }
    var checked: seq<Message> := [];
    var i := 0;
    while i < |batch|
      invariant 0 <= i <= |batch| && |checked| == i
      invariant forall k :: 0 <= k < i ==> batch[k].callId in {"", calls[k]}
      invariant forall k :: 0 <= k < i ==> checked[k] == Message(User, batch[k].content, [], calls[k])
    {
      var id := batch[i].callId;
      if id == "" {
        id := calls[i];
      }
      if id != calls[i] {
        return None;
      }
      checked := checked + [Message(User, batch[i].content, [], calls[i])];
      i := i + 1;
    }
    results := Some(checked);
  }

  /** Any notices a policy adds: ordinary messages, never calls or results. */
  method PolicyNotices() returns (notices: seq<Message>)
    ensures forall i :: 0 <= i < |notices| ==> Plain(notices[i])
  {
    var texts: seq<string> := *;
    notices := seq(|texts|, i requires 0 <= i < |texts| => Message(User, texts[i], [], ""));
  }

  /**
   * Any number of runs and explicit compactions of one session, whatever the environment does. Unless a cut
   * round lacks the result of a call without an id first, each model call sees a paired stored history if and
   * only if no round before it was cut; in general all do if and only if every cut was repaid. While no round
   * was cut and calls have ids, the context shown to the model, compacted or not, was paired too.
   */
  method Session(c: Conversation, runs: nat)
    requires c.Valid()
    modifies c, c.compactor
    ensures c.Valid() && old(c.log) <= c.log && c.persisted == Stored(c.log)
    ensures CutsNamed(c.log) ==>
      forall k | 0 <= k < |c.log| && c.log[k].Called? ::
        Paired(Stored(c.log[..k])) <==> forall i | 0 <= i < k :: !Cut(c.log[i])
    ensures (forall k | 0 <= k < |c.log| && c.log[k].Called? :: Paired(Stored(c.log[..k]))) <==> AllRepaid(c.log)
    ensures forall k | 0 <= k < |c.log| && c.log[k].Called? ::
      Orderly(c.log[..k]) && Calm(c.log[..k]) ==> Paired(c.log[k].visible)
  {
    for run := 0 to runs
      invariant c.Valid() && old(c.log) <= c.log
    {
      var manual: bool := *;
      if manual {
        var _ := c.CompactManual();
      } else {
        var prompt: string, thinking: bool, maxTurns: nat := *, *, *;
        var _ := Run(c, prompt, thinking, maxTurns);
      }
    }
    hide Stored, Paired, Cut, Follows, Orderly, Calm, AllRepaid, CutsNamed;
    AllCallsPairedIff(c.log);
    if CutsNamed(c.log) {
      forall k: nat | k < |c.log| && c.log[k].Called?
        ensures Paired(Stored(c.log[..k])) <==> forall i | 0 <= i < k :: !Cut(c.log[i])
      {
        CallsSeePairedIffNoCut(c.log, k);
      }
    }
  }

  /** What the rest of a run appends. */
  predicate Continues(log: seq<Entry>, log': seq<Entry>) {
    && log <= log'
    && (forall k | |log| <= k < |log'| :: !log'[k].Prompt?)
    && (forall k | |log| <= k < |log'| - 1 :: !Cut(log'[k]))
    && Replies(log) <= Replies(log') <= Replies(log) + 1
  }

  lemma RunContinues(log: seq<Entry>, mid: seq<Entry>, log': seq<Entry>)
    requires OneRun(log, mid) && |log| < |mid| && MayCall(mid) && Continues(mid, log')
    ensures OneRun(log, log') && log'[|log|] == mid[|log|]
  {
    hide Cut;
  }

  lemma ContinuesOn(log: seq<Entry>, mid: seq<Entry>, log': seq<Entry>)
    requires Continues(log, mid) && (mid == log || MayCall(mid)) && Continues(mid, log') && Replies(mid) == Replies(log)
    ensures Continues(log, log')
  {
    hide Cut;
  }

  /**
   * One run, up to its end, a failure anywhere (the tools' snapshot and the policy come first in a turn), or
   * any turn's end. A limit on the turns is one on the replies; a run fails for it only at that many, and stops there.
   */
  method Run(c: Conversation, prompt: string, thinking: bool, maxTurns: nat) returns (outcome: Outcome)
    requires c.Valid()
    modifies c, c.compactor
    ensures c.Valid() && OneRun(old(c.log), c.log)
    ensures |c.log| > |old(c.log)| ==> c.log[|old(c.log)|] == Prompt(prompt)
    ensures outcome.Completed? ==> |c.log| > |old(c.log)| && c.log[|c.log| - 1].Reply? && c.log[|c.log| - 1].calls == []
    ensures |c.log| > |old(c.log)| && Cut(c.log[|c.log| - 1]) ==> outcome == Failed("tool")
    ensures maxTurns > 0 ==> Replies(c.log) <= Replies(old(c.log)) + maxTurns
    ensures outcome == Failed("turn_limit") ==> maxTurns > 0 && Replies(c.log) == Replies(old(c.log)) + maxTurns
    ensures outcome.Unfinished? && maxTurns > 0 ==> Replies(c.log) < Replies(old(c.log)) + maxTurns
  {
    hide Stands, Showing, Cut, Replies;
    var notices := PolicyNotices();
    var failed, tools: bool := *, *;
    if failed {
      return Failed(if tools then "tool" else "policy");
    }
    var ok := c.StartRun(prompt);
    if !ok {
      return Failed("conversation");
    }
    PromptIsWhole(prompt);
    RepliesSnoc(old(c.log), Prompt(prompt));
    var turn, turns: nat := 1, *;
    while turn <= turns
      invariant c.Valid() && |c.log| > |old(c.log)| && MayCall(c.log) && OneRun(old(c.log), c.log)
      invariant c.log[|old(c.log)|] == Prompt(prompt) && turn >= 1 && (turn == 1 ==> c.log[|c.log| - 1].Prompt?)
      invariant Replies(c.log) == Replies(old(c.log)) + turn - 1 && (maxTurns > 0 ==> turn <= maxTurns)
      invariant forall i :: 0 <= i < |notices| ==> Plain(notices[i])
    {
      c.AppendContext(notices);
      ghost var before := c.log;
      var ended := Turn(c, thinking, turn == 1);
      RunContinues(old(c.log), before, c.log);
      if ended.Some? {
        return ended.value;
      }
      if maxTurns > 0 && turn >= maxTurns {
        return Failed("turn_limit");
      }
      turn := turn + 1;
      c.BeginTurn();
      notices := PolicyNotices();
      failed, tools := *, *;
      if failed {
        return Failed(if tools then "tool" else "policy");
      }
    }
    outcome := Unfinished;
  }

  lemma PromptIsWhole(text: string)
    ensures !Cut(Prompt(text))
  {
  }

  lemma CalledIsWhole(visible: seq<Message>)
    ensures !Cut(Called(visible))
  {
  }

  /** One turn: an optional thinking call, the model call with one retry, the reply and its results. */
  method Turn(c: Conversation, thinking: bool, first: bool) returns (ended: Option<Outcome>)
    requires c.Valid() && MayCall(c.log) && (first ==> c.log[|c.log| - 1].Prompt?)
    modifies c, c.compactor
    ensures c.Valid() && Continues(old(c.log), c.log)
    ensures ended.None? ==> MayCall(c.log) && |c.log| > |old(c.log)| && Replies(c.log) == Replies(old(c.log)) + 1
    ensures ended.None? || ended == Some(Completed) || (ended.value.Failed? && ended.value.kind != "turn_limit")
    ensures ended == Some(Completed) ==> c.log[|c.log| - 1].Reply? && c.log[|c.log| - 1].calls == []
    ensures Cut(c.log[|c.log| - 1]) ==> ended == Some(Failed("tool"))
  {
    hide Stands, Showing, Cut, Replies;
    if thinking {
      var ok, _ := Think(c, first);
      if !ok {
        return Some(Failed("provider"));
      }
    }
    ghost var thought := c.log;
    var ok := CallModel(c, first && !thinking, !thinking);
    ContinuesOn(old(c.log), thought, c.log);
    if !ok {
      return Some(Failed("provider"));
    }
    ghost var called := c.log;
    ended := HandleReply(c);
    ContinuesOn(old(c.log), called, c.log);
  }

  /** The thinking call; its reply, if it says anything, becomes a message of the turn. */
  method Think(c: Conversation, first: bool) returns (ok: bool, ghost thought: Message)
    requires c.Valid() && MayCall(c.log) && (first ==> c.log[|c.log| - 1].Prompt?)
    modifies c, c.compactor
    ensures c.Valid() && Continues(old(c.log), c.log) && MayCall(c.log) && Replies(c.log) == Replies(old(c.log))
    ensures ok ==> if thought.content == "" then c.log[|c.log| - 1].Called? else c.log[|c.log| - 1] == Thought(thought)
    ensures ok ==> c.notices == old(c.notices) + (if thought.content == "" then [] else [thought])
  {
    hide Stands, Showing, Cut, Replies, Compacted, Conversation.CompactedNow;
    thought := Message(Assistant, "", [], "");
    ok := c.Prepare(first, true);
    if !ok {
      return;
    }
    RepliesSnoc(old(c.log), c.log[|c.log| - 1]);
    CalledIsWhole(c.log[|c.log| - 1].visible);
    ok := *;
    if !ok {
      return;
    }
    c.compactor.ResetCircuitBreaker();
    var message: Message := *;
    thought := message;
    if message.content != "" {
      RepliesSnoc(c.log, Thought(message));
      c.AppendThought(message);
      ThoughtIsWhole(message);
    }
  }

  lemma ThoughtIsWhole(message: Message)
    ensures !Cut(Thought(message))
  {
  }

  /** The action call, made once more if the model finds the prompt too long and compacting helped. */
  method CallModel(c: Conversation, initial: bool, turnStart: bool) returns (ok: bool)
    requires c.Valid() && MayCall(c.log) && (initial ==> c.log[|c.log| - 1].Prompt?)
    modifies c, c.compactor
    ensures c.Valid() && Continues(old(c.log), c.log) && MayCall(c.log) && Replies(c.log) == Replies(old(c.log))
    ensures ok ==> c.log[|c.log| - 1].Called?
  {
    hide Stands, Showing, Cut, Replies, Compacted, Conversation.CompactedNow;
    ok := c.Prepare(initial, turnStart);
    if !ok {
      return;
    }
    RepliesSnoc(old(c.log), c.log[|c.log| - 1]);
    CalledIsWhole(c.log[|c.log| - 1].visible);
    var tooLong: bool := *;
    if tooLong {
      ghost var prepared := c.log;
      ok := c.PrepareAgain();
      if !ok {
        return;
      }
      RepliesSnoc(prepared, c.log[|c.log| - 1]);
      CalledIsWhole(c.log[|c.log| - 1].visible);
    }
    ok := *;
    if ok {
      c.compactor.ResetCircuitBreaker();
    }
  }

  /** Persists the reply and executes its calls; without calls the policy decides how to go on. */
  method HandleReply(c: Conversation) returns (ended: Option<Outcome>)
    requires c.Valid() && MayCall(c.log) && c.log[|c.log| - 1].Called?
    modifies c
    ensures c.Valid() && Continues(old(c.log), c.log)
    ensures ended.None? ==> MayCall(c.log) && |c.log| > |old(c.log)| && Replies(c.log) == Replies(old(c.log)) + 1
    ensures ended.None? || ended == Some(Completed) || (ended.value.Failed? && ended.value.kind != "turn_limit")
    ensures ended == Some(Completed) ==> c.log[|c.log| - 1].Reply? && c.log[|c.log| - 1].calls == []
    ensures Cut(c.log[|c.log| - 1]) ==> ended == Some(Failed("tool"))
  {
    hide Stands, Showing, Kept, Accepted, Replies;
    var text: string := *;
    var calls: seq<string> := *;
    var stored := c.AppendReply(Message(Assistant, text, calls, ""));
    if !stored {
      return Some(Failed("conversation"));
    }
    if calls == [] {
      NoResults(text, ToolsFailed);
      hide Messages;
      Settle(c, old(c.persisted), old(c.base), old(c.notices), Reply(text, [], ToolsFailed));
      RepliesSnoc(old(c.log), Reply(text, [], ToolsFailed));
      ended := Complete(c);
      return;
    }
    hide Cut, Messages;
    // The turn policy adds nothing between a reply with calls and its results.
    var ok := RunTools(c, text, calls, old(c.persisted), old(c.base), old(c.notices));
    assert c.log == old(c.log) + [c.log[|old(c.log)|]];
    RepliesSnoc(old(c.log), c.log[|old(c.log)|]);
    if !ok {
      return Some(Failed("tool"));
    }
    var failed: bool := *;
    if failed {
      return Some(Failed("policy"));
    }
    var notices := PolicyNotices();
    c.AppendContext(notices);
    ended := None;
  }

  lemma NoResults(text: string, tools: Tools)
    ensures Messages(Reply(text, [], tools)) == [Message(Assistant, text, [], "")]
  {
  }

  /**
   * Executes the calls of a stored reply and persists their results one by one; the ghosts are what was
   * there before the reply.
   */
  method RunTools(c: Conversation, text: string, calls: seq<string>,
                  ghost persisted: seq<Message>, ghost base: seq<Message>, ghost notices: seq<Message>)
    returns (ok: bool)
    requires c.compactor.Ready() && Plain(c.system) && c.system.role == System
    requires MayCall(c.log) && c.log[|c.log| - 1].Called?
    requires Stands(c.log, persisted, c.From()) && Showing(c.log, base, notices) && c.notices == []
    requires c.persisted == persisted + [Message(Assistant, text, calls, "")]
    requires c.base == base + notices + [Message(Assistant, text, calls, "")]
    modifies c`persisted, c`base, c`log
    ensures c.Valid() && |c.log| == |old(c.log)| + 1 && c.log[..|old(c.log)|] == old(c.log)
    ensures c.log[|old(c.log)|].Reply? && (Cut(c.log[|old(c.log)|]) <==> calls != [] && !ok)
  {
    hide Stands, Showing, MayCall, Messages, Cut, Kept;
    ok := false;
    var failed: bool := *;
    if failed {
      FailedRound(text, calls, ToolsFailed);
      Settle(c, persisted, base, notices, Reply(text, calls, ToolsFailed));
      return;
    }
    var batch: seq<Message> := *;
    var results := ExecuteTools(calls, batch);
    if results.None? {
      FailedRound(text, calls, Batch(batch, 0));
      Settle(c, persisted, base, notices, Reply(text, calls, Batch(batch, 0)));
      return;
    }
    var written := c.AppendResults(results.value);
    WrittenResults(text, calls, batch, written);
    ghost var e := Reply(text, calls, Batch(batch, written));
    assert c.persisted == persisted + Messages(e) && c.base == base + notices + Messages(e);
    Settle(c, persisted, base, notices, e);
    ok := written == |calls|;
  }

  lemma FailedRound(text: string, calls: seq<string>, tools: Tools)
    requires tools.ToolsFailed? || !Accepted(calls, tools.results)
    ensures Messages(Reply(text, calls, tools)) == [Message(Assistant, text, calls, "")]
    ensures Cut(Reply(text, calls, tools)) <==> calls != []
  {
  }

  lemma WrittenResults(text: string, calls: seq<string>, batch: seq<Message>, written: nat)
    requires Accepted(calls, batch) && written <= |calls|
    ensures Cut(Reply(text, calls, Batch(batch, written))) <==> written < |calls|
    ensures Messages(Reply(text, calls, Batch(batch, written))) ==
            [Message(Assistant, text, calls, "")] + Checked(calls, batch)[..written]
  {
  }

  /** Enters the round in the log, from what it appended to the records and to the context. */
  ghost method Settle(c: Conversation, persisted: seq<Message>, base: seq<Message>, notices: seq<Message>, e: Entry)
    requires c.compactor.Ready() && Plain(c.system) && c.system.role == System
    requires e.Reply? && MayCall(c.log) && c.log[|c.log| - 1].Called?
    requires Stands(c.log, persisted, c.From()) && Showing(c.log, base, notices)
    requires c.persisted == persisted + Messages(e) && c.base == base + notices + Messages(e) && c.notices == []
    modifies c`log
    ensures c.Valid() && c.log == old(c.log) + [e]
  {
    hide Stands, Showing, Messages, Cut;
    StandsSnoc(c.log, persisted, c.From(), e);
    ReplyShows(c.log, base, notices, e);
    c.log := c.log + [e];
  }

  /** A reply without calls: the policy may end the run, complete it, or add notices and go on. */
  method Complete(c: Conversation) returns (ended: Option<Outcome>)
    requires c.Valid()
    modifies c`notices
    ensures c.Valid() && ended in {None, Some(Completed), Some(Failed("policy"))}
  {
    var terminal: bool := *;
    if terminal {
      return Some(Failed("policy"));
    }
    var complete: bool := *;
    if complete {
      return Some(Completed);
    }
    var notices := PolicyNotices();
    c.AppendContext(notices);
    ended := None;
  }
}
