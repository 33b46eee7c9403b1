/**
 * What the runs of one session leave in its stored history, and when a model call sees it paired.
 * A run may stop between a reply with calls and the last of their results; the next run then starts
 * with its user message all the same.
 */
module SessionLog {
  import opened Compaction

  /**
   * What came of a reply's calls: the executor's answer, and how many results the store took before an append failed.
   */
  datatype Tools = ToolsFailed | Batch(results: seq<Message>, written: nat)

  /** `Called` is a model call and the context it was shown, `Thought` a thinking reply; neither is stored. */
  datatype Entry =
    | Prompt(text: string)
    | Called(visible: seq<Message>)
    | Thought(message: Message)
    | Reply(text: string, calls: seq<string>, tools: Tools)

  /** A batch is accepted if it has one result per call, in order, under the call's id or none. */
  predicate Accepted(calls: seq<string>, batch: seq<Message>) {
    |batch| == |calls| && forall i :: 0 <= i < |calls| ==> batch[i].callId in {"", calls[i]}
  }

  function Checked(calls: seq<string>, batch: seq<Message>): (r: seq<Message>)
    requires Accepted(calls, batch)
    ensures Answers(calls, r)
  {
    seq(|calls|, i requires 0 <= i < |calls| => Message(User, batch[i].content, [], calls[i]))
  }

  /** The results that reached the store. */
  function Kept(e: Entry): (r: seq<Message>)
    requires e.Reply?
    ensures |r| <= |e.calls|
  {
    if e.tools.Batch? && Accepted(e.calls, e.tools.results) then
      Checked(e.calls, e.tools.results)[..if e.tools.written < |e.calls| then e.tools.written else |e.calls|]
    else []
  }

  function Owing(e: Entry): seq<string>
    requires e.Reply?
  {
    e.calls[|Kept(e)|..]
  }

  /** The round was cut: the executor failed, its batch was refused, or a result could not be appended. */
  predicate Cut(e: Entry) {
    e.Reply? && e.calls != [] &&
    (e.tools.ToolsFailed? || !Accepted(e.calls, e.tools.results) || e.tools.written < |e.calls|)
  }

  function Messages(e: Entry): seq<Message> {
    match e
    case Prompt(text) => [Message(User, text, [], "")]
    case Reply(text, calls, _) => [Message(Assistant, text, calls, "")] + Kept(e)
    case _ => []
  }

  function Stored(log: seq<Entry>): seq<Message> {
    if log == [] then [] else Stored(log[..|log| - 1]) + Messages(log[|log| - 1])
  }

  /** The order of a session: a reply answers the call before it, and a run is over once a round of it is cut. */
  predicate InOrder(log: seq<Entry>, k: nat)
    requires k < |log|
  {
    && (log[k].Reply? || log[k].Thought? ==> k > 0 && log[k - 1].Called?)
    && (log[k].Called? && k > 0 ==> !Cut(log[k - 1]))
  }

  predicate Follows(log: seq<Entry>) {
    forall k | 0 <= k < |log| :: InOrder(log, k)
  }

  // ---- Pairing, read from the front with the calls still owed ----

  datatype Scan = Broken | Owes(calls: seq<string>)

  function Read(st: Scan, m: Message): Scan {
    if st == Broken then Broken
    else if st.calls == [] then if m.callId == "" then Owes(m.calls) else Broken
    else if m.calls == [] && m.callId == st.calls[0] then Owes(st.calls[1..])
    else Broken
  }

  function ReadAll(st: Scan, ms: seq<Message>): Scan
    decreases |ms|
  {
    if ms == [] then st else ReadAll(Read(st, ms[0]), ms[1..])
  }

  lemma {:induction false} ReadConcat(st: Scan, a: seq<Message>, b: seq<Message>)
    ensures ReadAll(st, a + b) == ReadAll(ReadAll(st, a), b)
    decreases |a|
  {
    if a == [] {
      assert a + b == b;
    } else {
      assert (a + b)[1..] == a[1..] + b;
      ReadConcat(Read(st, a[0]), a[1..], b);
    }
  }

  lemma {:induction false} BrokenStays(ms: seq<Message>)
    ensures ReadAll(Broken, ms) == Broken
  {
    if ms != [] {
      BrokenStays(ms[1..]);
    }
  }

  lemma {:induction false} ReadOwed(calls: seq<string>, ms: seq<Message>)
    ensures |calls| <= |ms| && Answers(calls, ms[..|calls|]) ==>
              ReadAll(Owes(calls), ms) == ReadAll(Owes([]), ms[|calls|..])
    ensures !(|calls| <= |ms| && Answers(calls, ms[..|calls|])) ==> ReadAll(Owes(calls), ms) != Owes([])
    decreases |calls|
  {
    if calls == [] {
      assert ms[0..] == ms;
    } else if ms != [] {
      if ms[0].calls == [] && ms[0].callId == calls[0] {
        ReadOwed(calls[1..], ms[1..]);
        if |calls| <= |ms| {
          assert ms[1..][..|calls| - 1] == ms[..|calls|][1..];
          assert ms[1..][|calls| - 1..] == ms[|calls|..];
          assert Answers(calls, ms[..|calls|]) <==> Answers(calls[1..], ms[..|calls|][1..]) by {
            AnswersTail(calls, ms[..|calls|]);
          }
        }
      } else {
        BrokenStays(ms[1..]);
        if |calls| <= |ms| {
          assert ms[..|calls|][0] == ms[0];
        }
      }
    }
  }

  lemma AnswersTail(calls: seq<string>, results: seq<Message>)
    requires calls != [] && results != []
    ensures Answers(calls, results) <==>
            results[0].calls == [] && results[0].callId == calls[0] && Answers(calls[1..], results[1..])
  {
    if Answers(calls[1..], results[1..]) && results[0].calls == [] && results[0].callId == calls[0] {
      forall i | 0 <= i < |calls| ensures results[i].calls == [] && results[i].callId == calls[i] {
        if i > 0 {
          assert results[1..][i - 1].callId == calls[1..][i - 1];
        }
      }
    }
  }

  /** A history is paired exactly when reading it leaves no call owed. */
  lemma {:induction false} PairedIsRead(ms: seq<Message>)
    ensures Paired(ms) <==> ReadAll(Owes([]), ms) == Owes([])
    decreases |ms|
  {
    if ms != [] {
      var n := |ms[0].calls|;
      if ms[0].callId != "" {
        BrokenStays(ms[1..]);
      } else {
        ReadOwed(ms[0].calls, ms[1..]);
        if n < |ms| {
          assert ms[1..][..n] == ms[1..n + 1] && ms[1..][n..] == ms[n + 1..];
          PairedIsRead(ms[n + 1..]);
        }
      }
    }
  }

  /** Behind a paired history, more is paired exactly when it is paired by itself. */
  lemma PairedBehind(a: seq<Message>, b: seq<Message>)
    requires Paired(a)
    ensures Paired(a + b) <==> Paired(b)
  {
    ReadConcat(Owes([]), a, b);
    PairedIsRead(a);
    PairedIsRead(b);
    PairedIsRead(a + b);
  }

  // ---- One entry at a time ----

  function After(log: seq<Entry>): Scan {
    ReadAll(Owes([]), Stored(log))
  }

  lemma AfterSnoc(log: seq<Entry>, e: Entry)
    ensures After(log + [e]) == ReadAll(After(log), Messages(e))
  {
    assert (log + [e])[..|log|] == log;
    ReadConcat(Owes([]), Stored(log), Messages(e));
  }

  lemma AfterStep(log: seq<Entry>, k: nat)
    requires k < |log|
    ensures After(log[..k + 1]) == ReadAll(After(log[..k]), Messages(log[k]))
  {
    assert log[..k + 1] == log[..k] + [log[k]];
    AfterSnoc(log[..k], log[k]);
  }

  lemma CutOwes(e: Entry)
    requires e.Reply?
    ensures Cut(e) <==> Owing(e) != []
  {
  }

  lemma {:induction false} ReadSome(calls: seq<string>, results: seq<Message>)
    requires |results| <= |calls| && forall i :: 0 <= i < |results| ==>
             results[i].calls == [] && results[i].callId == calls[i]
    ensures ReadAll(Owes(calls), results) == Owes(calls[|results|..])
    decreases |results|
  {
    if results == [] {
      assert calls[0..] == calls;
    } else {
      forall i | 0 <= i < |results[1..]|
        ensures results[1..][i].calls == [] && results[1..][i].callId == calls[1..][i]
      {
        assert results[1..][i] == results[i + 1];
      }
      ReadSome(calls[1..], results[1..]);
      assert calls[1..][|results[1..]|..] == calls[|results|..];
    }
  }

  lemma ReadReply(e: Entry)
    requires e.Reply?
    ensures ReadAll(Owes([]), Messages(e)) == Owes(Owing(e))
  {
    assert Messages(e)[1..] == Kept(e);
    ReadSome(e.calls, Kept(e));
  }

  lemma ReadPrompt(st: Scan, text: string)
    ensures ReadAll(st, Messages(Prompt(text))) == Read(st, Message(User, text, [], ""))
  {
    assert ReadAll(Read(st, Message(User, text, [], "")), []) == Read(st, Message(User, text, [], ""));
    assert Messages(Prompt(text))[1..] == [];
  }

  // ---- A cut round whose first missing result was for a call with an id ----

  predicate NoCut(log: seq<Entry>) {
    forall i | 0 <= i < |log| :: !Cut(log[i])
  }

  /** A cut round whose first missing result is of a call with an id. */
  predicate NamedCut(e: Entry) {
    Cut(e) && Owing(e) != [] && Owing(e)[0] != ""
  }

  predicate CutsNamed(log: seq<Entry>) {
    forall i | 0 <= i < |log| :: Cut(log[i]) ==> NamedCut(log[i])
  }

  /** After a cut round calls are owed, or the history was broken before. */
  lemma CutLeaves(log: seq<Entry>)
    requires log != [] && Cut(log[|log| - 1])
    ensures After(log) in {Broken, Owes(Owing(log[|log| - 1]))}
  {
    hide After, Kept, Stored;
    var e, before := log[|log| - 1], log[..|log| - 1];
    AfterSnoc(before, e);
    assert log == before + [e];
    ReadReply(e);
    if After(before) != Owes([]) {
      assert Read(After(before), Messages(e)[0]) == Broken;
      BrokenStays(Messages(e)[1..]);
    }
  }

  lemma {:induction false} BrokenForever(log: seq<Entry>, more: seq<Entry>)
    requires After(log) == Broken
    ensures After(log + more) == Broken
  {
    hide After, Stored, Messages, Read, ReadAll;
    if more == [] {
      assert log + more == log;
    } else {
      var last := |more| - 1;
      BrokenForever(log, more[..last]);
      assert log + more == log + more[..last] + [more[last]];
      AfterSnoc(log + more[..last], more[last]);
      BrokenStays(Messages(more[last]));
    }
  }

  /** Such a round spoils the stored history for good: nothing a later run appends pairs it again. */
  lemma CutForever(log: seq<Entry>, more: seq<Entry>)
    requires log != [] && NamedCut(log[|log| - 1]) && (more == [] || more[0].Prompt?)
    ensures !Paired(Stored(log + more))
  {
    hide After, Read, Stored, Messages, Kept, Accepted;
    CutLeaves(log);
    if more == [] {
      assert log + more == log;
    } else {
      CutThenPrompt(log, more[0].text);
      assert log + more == log + [more[0]] + more[1..];
      BrokenForever(log + [more[0]], more[1..]);
    }
    AfterUnpaired(log + more);
  }

  lemma CutThenPrompt(log: seq<Entry>, text: string)
    requires After(log) == Broken || (After(log).calls != [] && After(log).calls[0] != "")
    ensures After(log + [Prompt(text)]) == Broken
  {
    AfterSnoc(log, Prompt(text));
    ReadPrompt(After(log), text);
  }

  lemma AfterUnpaired(log: seq<Entry>)
    ensures Paired(Stored(log)) <==> After(log) == Owes([])
  {
    PairedIsRead(Stored(log));
  }

  lemma {:induction false} NoCutOwesNothing(log: seq<Entry>)
    requires Follows(log) && NoCut(log)
    ensures After(log) == Owes([])
  {
    if log != [] {
      var e := log[|log| - 1];
      FollowsPrefix(log, |log| - 1);
      NoCutOwesNothing(log[..|log| - 1]);
      AfterStep(log, |log| - 1);
      assert log[..|log|] == log;
      match e {
        case Prompt(text) => ReadPrompt(Owes([]), text);
        case Reply(_, _, _) =>
          ReadReply(e);
          CutOwes(e);
        case _ =>
      }
    }
  }

  lemma FollowsPrefix(log: seq<Entry>, k: nat)
    requires k <= |log| && Follows(log)
    ensures Follows(log[..k])
  {
    hide Cut;
    forall j: nat | j < k ensures InOrder(log[..k], j) {
      assert InOrder(log, j);
    }
  }

  lemma CutUnpaired(log: seq<Entry>, i: nat)
    requires Follows(log) && i < |log| && NamedCut(log[i])
    ensures !Paired(Stored(log))
  {
    hide Stored, NamedCut, After, Paired;
    var upto, more := log[..i + 1], log[i + 1..];
    assert upto[|upto| - 1] == log[i] && log == upto + more;
    if more != [] {
      NextIsPrompt(log, i);
    }
    CutForever(upto, more);
  }

  lemma NextIsPrompt(log: seq<Entry>, i: nat)
    requires Follows(log) && i + 1 < |log| && NamedCut(log[i])
    ensures log[i + 1].Prompt?
  {
    assert InOrder(log, i + 1);
  }

  /** Over any number of runs, the stored history is paired if and only if no round was cut. */
  lemma PairedIffNoCut(log: seq<Entry>)
    requires Follows(log) && CutsNamed(log)
    ensures Paired(Stored(log)) <==> NoCut(log)
  {
    hide Stored, NamedCut, Cut, After, Paired;
    AfterUnpaired(log);
    if NoCut(log) {
      NoCutOwesNothing(log);
    } else {
      var i :| 0 <= i < |log| && Cut(log[i]);
      CutUnpaired(log, i);
    }
  }

  /** Whenever the model is called, the stored history is paired if and only if no earlier round was cut. */
  lemma CallsSeePairedIffNoCut(log: seq<Entry>, k: nat)
    requires Follows(log) && CutsNamed(log) && k < |log| && log[k].Called?
    ensures Paired(Stored(log[..k])) <==> forall i | 0 <= i < k :: !Cut(log[i])
  {
    hide Cut, NamedCut, Paired, Stored;
    FollowsPrefix(log, k);
    PairedIffNoCut(log[..k]);
    assert NoCut(log[..k]) <==> forall i | 0 <= i < k :: !Cut(log[..k][i]);
    assert forall i | 0 <= i < k :: log[..k][i] == log[i];
  }

  // ---- Calls without an id: a user message is taken for their result ----

  /** k is the first model call after entry i. */
  predicate NextCall(log: seq<Entry>, i: nat, k: nat) {
    i < k < |log| && log[k].Called? && forall j | i < j < k :: !log[j].Called?
  }

  /** The missing results were all of calls without an id, and as many runs began before the next call. */
  predicate Repaid(log: seq<Entry>, i: nat, k: nat)
    requires i < k && i < |log|
  {
    log[i].Reply? && |Owing(log[i])| <= k - i - 1 && Blank(Owing(log[i]))
  }

  function AfterPrompts(st: Scan, prompts: nat): Scan
    decreases prompts
  {
    if prompts == 0 then st else AfterPrompts(Read(st, Message(User, "", [], "")), prompts - 1)
  }

  predicate Blank(calls: seq<string>) {
    forall c | c in calls :: c == ""
  }

  lemma BlankTail(calls: seq<string>)
    requires calls != []
    ensures Blank(calls) <==> calls[0] == "" && Blank(calls[1..])
  {
    assert calls[0] in calls;
    if calls[0] == "" && Blank(calls[1..]) {
      forall c | c in calls ensures c == "" {
        var i :| 0 <= i < |calls| && calls[i] == c;
        if i > 0 {
          assert calls[1..][i - 1] == c && c in calls[1..];
        }
      }
    }
    forall c | c in calls[1..] && Blank(calls) ensures c == "" {
      assert c in calls;
    }
  }

  lemma {:induction false} RepaidIff(calls: seq<string>, prompts: nat)
    ensures AfterPrompts(Owes(calls), prompts) == Owes([]) <==> |calls| <= prompts && Blank(calls)
    decreases prompts
  {
    if prompts > 0 {
      if calls == [] {
        RepaidIff([], prompts - 1);
      } else if calls[0] == "" {
        RepaidIff(calls[1..], prompts - 1);
        BlankTail(calls);
      } else {
        PromptsBroken(prompts - 1);
        assert calls[0] in calls;
      }
    }
  }

  lemma {:induction false} PromptsBroken(prompts: nat)
    ensures AfterPrompts(Broken, prompts) == Broken
  {
    if prompts > 0 {
      PromptsBroken(prompts - 1);
    }
  }

  lemma {:induction false} PromptsState(log: seq<Entry>, a: nat, b: nat)
    requires a <= b <= |log| && forall j | a <= j < b :: log[j].Prompt?
    ensures After(log[..b]) == AfterPrompts(After(log[..a]), b - a)
    decreases b - a
  {
    hide After;
    if a < b {
      AfterStep(log, a);
      ReadPrompt(After(log[..a]), log[a].text);
      PromptsState(log, a + 1, b);
    }
  }

  lemma PromptsRepay(log: seq<Entry>, a: nat, k: nat, calls: seq<string>)
    requires a <= k <= |log| && After(log[..a]) == Owes(calls) && forall j | a <= j < k :: log[j].Prompt?
    ensures After(log[..k]) == Owes([]) <==> |calls| <= k - a && Blank(calls)
  {
    hide After, Blank;
    PromptsState(log, a, k);
    RepaidIff(calls, k - a);
  }

  /** From one call that saw a paired history to the next. */
  lemma Segment(log: seq<Entry>, c: nat, k: nat)
    requires Follows(log) && NextCall(log, c, k) && log[c].Called? && After(log[..c]) == Owes([])
    ensures After(log[..k]) == Owes([]) <==> (Cut(log[c + 1]) ==> Repaid(log, c + 1, k))
  {
    hide After, Cut, Owing, Blank, Read, Kept;
    AfterStep(log, c);
    assert InOrder(log, c + 1);
    CutIsReply(log[c + 1]);
    forall j | c + 2 <= j < k ensures log[j].Prompt? {
      assert InOrder(log, j);
    }
    if log[c + 1].Reply? {
      AfterStep(log, c + 1);
      ReadReply(log[c + 1]);
      CutOwes(log[c + 1]);
      PromptsRepay(log, c + 2, k, Owing(log[c + 1]));
      BlankNothing();
    } else if log[c + 1].Thought? {
      AfterStep(log, c + 1);
      PromptsRepay(log, c + 2, k, []);
      BlankNothing();
    } else if log[c + 1].Prompt? {
      PromptsRepay(log, c + 1, k, []);
      BlankNothing();
    }
  }

  lemma BlankNothing()
    ensures Blank([])
  {
  }

  ghost predicate AllRepaid(log: seq<Entry>) {
    forall i: nat, k: nat | NextCall(log, i, k) && Cut(log[i]) :: Repaid(log, i, k)
  }

  lemma {:induction false} CallOwesNothing(log: seq<Entry>, k: nat)
    requires Follows(log) && AllRepaid(log) && k < |log| && log[k].Called?
    ensures After(log[..k]) == Owes([])
    decreases k
  {
    hide After, Cut, Owing;
    if c: nat :| NextCall(log, c, k) && log[c].Called? {
      CallOwesNothing(log, c);
      Segment(log, c, k);
      CutIsReply(log[c + 1]);
      if Cut(log[c + 1]) {
        assert NextCall(log, c + 1, k);
      }
    } else {
      NoEarlierCall(log, k);
      forall j | 0 <= j < k ensures log[j].Prompt? {
        assert InOrder(log, j);
      }
      PromptsState(log, 0, k);
      AfterNothing();
      assert log[..0] == [];
      RepaidIff([], k);
    }
  }

  lemma AfterNothing()
    ensures After([]) == Owes([])
  {
  }

  lemma {:induction false} LastCall(log: seq<Entry>, k: nat, j: nat) returns (c: nat)
    requires k < |log| && log[k].Called? && j < k && log[j].Called?
    ensures NextCall(log, c, k) && log[c].Called?
    decreases k - j
  {
    if i :| j < i < k && log[i].Called? {
      c := LastCall(log, k, i);
    } else {
      c := j;
    }
  }

  lemma NoEarlierCall(log: seq<Entry>, k: nat)
    requires k < |log| && log[k].Called? && forall c: nat :: !(NextCall(log, c, k) && log[c].Called?)
    ensures forall j | 0 <= j < k :: !log[j].Called?
  {
    if j :| 0 <= j < k && log[j].Called? {
      var c := LastCall(log, k, j);
      assert false;
    }
  }

  /**
   * Whatever ids the model gives: every call saw a paired history if and only if each cut round that was
   * followed by a call at all lacked only results of calls without an id, no more than runs had begun since.
   */
  lemma AllCallsPairedIff(log: seq<Entry>)
    requires Follows(log)
    ensures (forall k | 0 <= k < |log| && log[k].Called? :: Paired(Stored(log[..k]))) <==> AllRepaid(log)
  {
    hide After, Cut, Owing, Paired, Stored;
    if AllRepaid(log) {
      forall k: nat | k < |log| && log[k].Called? ensures Paired(Stored(log[..k])) {
        CallOwesNothing(log, k);
        AfterUnpaired(log[..k]);
      }
    }
    if forall k | 0 <= k < |log| && log[k].Called? :: Paired(Stored(log[..k])) {
      forall i: nat, k: nat | NextCall(log, i, k) && Cut(log[i]) ensures Repaid(log, i, k) {
        CutIsReply(log[i]);
        assert InOrder(log, i);
        AfterUnpaired(log[..i - 1]);
        AfterUnpaired(log[..k]);
        assert NextCall(log, i - 1, k);
        Segment(log, i - 1, k);
      }
    }
  }

  lemma CutIsReply(e: Entry)
    ensures Cut(e) ==> e.Reply?
  {
  }

  // ---- Two sessions of two runs ----

  /** The executor fails; the next run's first call sees a request without its result. */
  lemma OrphanedRun(id: string, text: string)
    requires id != ""
    ensures var log := [Prompt(text), Called([]), Reply(text, [id], ToolsFailed), Prompt(text), Called([])];
            Follows(log) && Stored(log[..4]) ==
              [Message(User, text, [], ""), Message(Assistant, text, [id], ""), Message(User, text, [], "")] &&
            !Paired(Stored(log[..4]))
  {
    var log := [Prompt(text), Called([]), Reply(text, [id], ToolsFailed), Prompt(text), Called([])];
    CallsSeePairedIffNoCut(log, 4);
    assert Cut(log[2]);
    StoredFour(log[0], log[1], log[2], log[3]);
    assert log[..4] == [log[0], log[1], log[2], log[3]];
  }

  lemma StoredFour(a: Entry, b: Entry, c: Entry, d: Entry)
    ensures Stored([a, b, c, d]) == Messages(a) + Messages(b) + Messages(c) + Messages(d)
  {
    assert [a, b, c, d][..3] == [a, b, c] && [a, b, c][..2] == [a, b] && [a, b][..1] == [a];
    assert Stored([a]) == Messages(a);
    assert Stored([a, b]) == Messages(a) + Messages(b);
  }

  /** The store takes the first of two results only; what is left is unpaired in the same way. */
  lemma PartlyAnsweredRun(first: string, second: string, text: string)
    requires second != ""
    ensures var results := [Message(User, text, [], first), Message(User, text, [], second)];
            var log := [Prompt(text), Called([]), Reply(text, [first, second], Batch(results, 1)),
                        Prompt(text), Called([])];
            Follows(log) && Stored(log[..4]) ==
              [Message(User, text, [], ""), Message(Assistant, text, [first, second], ""),
                                                 Message(User, text, [], first), Message(User, text, [], "")] &&
            !Paired(Stored(log[..4]))
  {
    var results := [Message(User, text, [], first), Message(User, text, [], second)];
    var log := [Prompt(text), Called([]), Reply(text, [first, second], Batch(results, 1)), Prompt(text), Called([])];
    assert Kept(log[2]) == [Message(User, text, [], first)];
    assert NamedCut(log[2]);
    CallsSeePairedIffNoCut(log, 4);
    StoredFour(log[0], log[1], log[2], log[3]);
    assert log[..4] == [log[0], log[1], log[2], log[3]];
  }
}
