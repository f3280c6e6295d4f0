// What a turn and a resumption put on the log, field by field and position by position.
module TurnMeaning {
  import opened Options
  import opened Conversation
  import opened Compaction
  import opened CompactionKeeps
  import opened ContextLog
  import opened Turns
  import opened Sessions
  import Text

  // Entries by their fields.

  predicate IsWords(e: Entry, source: Source, text: string) {
    e == Entry(source, text, false, [], None, 0, None, false, [], [])
  }

  predicate IsIssue(e: Entry, text: string, calls: seq<Invocation>) {
    e == Entry(Assistant, text, false, calls, None, 0, None, false, [], [])
  }

  predicate IsResultOf(e: Entry, call: Invocation, text: string) {
    e == Entry(Tool, text, false, [], Some(call.id), 0, None, false, [], [])
  }

  // At least two calls, all of read-only tools and none the end of the work.
  predicate AllReads(calls: seq<Invocation>, tools: Tools) {
    |calls| >= 2
    && forall k | 0 <= k < |calls| :: tools.readOnly(calls[k].name) && !(calls[k].name == "agent_done")
  }

  lemma BatchableMeans(calls: seq<Invocation>, tools: Tools)
    ensures Batchable(calls, tools) <==> AllReads(calls, tools)
  {
    if AllReads(calls, tools) {
      forall c | c in calls ensures c.name != "agent_done" && tools.readOnly(c.name) {
        var k :| 0 <= k < |calls| && c == calls[k];
      }
    }
  }

  // What became of the k-th call of a batch: its own outcome while all before it ran.
  ghost predicate AllRanBefore(outcomes: nat -> ToolOutcome, from: nat, k: nat) {
    forall j: nat | from <= j < k :: outcomes(j).Ran?
  }

  ghost function Fate(outcomes: nat -> ToolOutcome, k: nat): ToolOutcome {
    if AllRanBefore(outcomes, 0, k) then outcomes(k)
    else Failed("not executed: a prior tool in the batch failed")
  }

  lemma {:induction false} NotExecutedAt(calls: seq<Invocation>, tools: Tools, k: nat)
    ensures |NotExecuted(calls, tools)| == |calls|
    ensures k < |calls| ==> IsResultOf(NotExecuted(calls, tools)[k], calls[k], tools.observe(calls[k], NOT_EXECUTED))
  {
    if calls != [] {
      NotExecutedAt(calls[1..], tools, if k > 0 then k - 1 else 0);
    }
  }

  lemma {:induction false} BatchResultsAt(calls: seq<Invocation>, outcomes: nat -> ToolOutcome, i: nat, tools: Tools, k: nat)
    requires i <= |calls|
    ensures |BatchResults(calls, outcomes, i, tools)| == |calls| - i
    ensures i <= k < |calls| ==>
      IsResultOf(BatchResults(calls, outcomes, i, tools)[k - i], calls[k],
                 tools.observe(calls[k], if AllRanBefore(outcomes, i, k) then outcomes(k) else NOT_EXECUTED))
    decreases |calls| - i
  {
    if i < |calls| {
      if outcomes(i).Ran? {
        BatchResultsAt(calls, outcomes, i + 1, tools, k);
        if k > i {
          assert AllRanBefore(outcomes, i, k) <==> AllRanBefore(outcomes, i + 1, k);
        }
      } else {
        NotExecutedAt(calls[i + 1..], tools, if k > i then k - i - 1 else 0);
        if k > i {
          assert !AllRanBefore(outcomes, i, k);
        }
      }
    }
  }

  // What a turn appends once the model has answered. A reply is kept if it says anything.
  // A batch of reads is recorded whole, and each call answered with what became of it. Of
  // other calls only the first is recorded, and answered unless it waits for approval.
  lemma TurnTailMeans(c: Completion, outcomes: nat -> ToolOutcome, tools: Tools)
    ensures var tail, calls := TurnTail(c, outcomes, tools), c.toolCalls;
            && (|calls| == 0 ==> if Text.AllWhitespace(c.text) then tail == []
                                 else |tail| == 1 && IsWords(tail[0], Assistant, c.text))
            && (AllReads(calls, tools) ==>
                  |tail| == 1 + |calls| && IsIssue(tail[0], c.text, calls)
                  && forall k | 0 <= k < |calls| ::
                       IsResultOf(tail[1 + k], calls[k], tools.observe(calls[k], Fate(outcomes, k))))
            && (|calls| > 0 && !AllReads(calls, tools) ==>
                  |tail| == (if outcomes(0).NeedsApproval? then 1 else 2) && IsIssue(tail[0], c.text, [calls[0]])
                  && (|tail| == 2 ==> IsResultOf(tail[1], calls[0], tools.observe(calls[0], outcomes(0)))))
  {
    var calls := c.toolCalls;
    Text.BlankMeans(c.text);
    BatchableMeans(calls, tools);
    if AllReads(calls, tools) {
      var results := BatchResults(calls, outcomes, 0, tools);
      BatchResultsAt(calls, outcomes, 0, tools, 0);
      forall k | 0 <= k < |calls|
        ensures IsResultOf(results[k], calls[k], tools.observe(calls[k], Fate(outcomes, k)))
      {
        BatchResultsAt(calls, outcomes, 0, tools, k);
      }
    }
  }

  // A resumption appends one entry: the observation as the result of a call, or the reminder.
  lemma ResumeTailMeans(es: seq<Entry>, observation: string, reminder: string)
    ensures var tail := ResumeTail(es, observation, reminder);
            |tail| == 1
            && match UnansweredFrom(es, {})
               case Some(id) => IsResultOf(tail[0], Invocation(id, "", ""), observation)
               case None => IsWords(tail[0], PlanReminder, reminder)
  {
  }

  // The operator's words on a log, in order.

  function UserTexts(es: seq<Entry>): seq<string> {
    if es == [] then []
    else if es[|es| - 1].source == User then UserTexts(es[..|es| - 1]) + [es[|es| - 1].content]
    else UserTexts(es[..|es| - 1])
  }

  lemma {:induction false} UserTextsConcat(a: seq<Entry>, b: seq<Entry>)
    ensures UserTexts(a + b) == UserTexts(a) + UserTexts(b)
    decreases |b|
  {
    if b == [] {
      assert a + b == a;
    } else {
      assert (a + b)[..|a + b| - 1] == a + b[..|b| - 1];
      UserTextsConcat(a, b[..|b| - 1]);
    }
  }

  predicate NoneOfUser(es: seq<Entry>) {
    forall e | e in es :: e.source != User
  }

  lemma {:induction false} NoUserTexts(es: seq<Entry>)
    requires NoneOfUser(es)
    ensures UserTexts(es) == []
  {
    if es != [] {
      assert es[|es| - 1] in es;
      NoUserTexts(es[..|es| - 1]);
    }
  }

  // after is before with entries that are not the user's behind it.
  predicate OnlyNotes(before: seq<Entry>, after: seq<Entry>) {
    before <= after && UserTexts(after) == UserTexts(before)
  }

  lemma NotesAdded(before: seq<Entry>, notes: seq<Entry>)
    requires NoneOfUser(notes)
    ensures OnlyNotes(before, before + notes)
  {
    UserTextsConcat(before, notes);
    NoUserTexts(notes);
    assert UserTexts(before) + [] == UserTexts(before);
  }

  lemma StampedNoneOfUser(es: seq<Entry>, turnId: nat, from: Option<nat>)
    requires NoneOfUser(es)
    ensures NoneOfUser(StampedAll(es, turnId, from))
  {
    forall i | 0 <= i < |es| ensures StampedAll(es, turnId, from)[i].source != User { assert es[i] in es; }
  }

  lemma TurnTailNoneOfUser(c: Completion, outcomes: nat -> ToolOutcome, tools: Tools)
    ensures NoneOfUser(TurnTail(c, outcomes, tools))
  {
    TurnTailMeans(c, outcomes, tools);
    var tail := TurnTail(c, outcomes, tools);
    forall e | e in tail ensures e.source != User {
      var i :| 0 <= i < |tail| && e == tail[i];
      if AllReads(c.toolCalls, tools) && i > 0 {
        assert IsResultOf(tail[1 + (i - 1)], c.toolCalls[i - 1], tools.observe(c.toolCalls[i - 1], Fate(outcomes, i - 1)));
      }
    }
  }

  // A whole turn, by its parts.

  // The answer that ends the work: a reply without calls, or the call that says so, run by
  // itself and with success.
  predicate EndsDone(c: Completion, outcomes: nat -> ToolOutcome, tools: Tools) {
    |c.toolCalls| == 0
    || (!AllReads(c.toolCalls, tools) && c.toolCalls[0].name == "agent_done"
        && outcomes(0).Ran? && outcomes(0).success)
  }

  // The log with what the user said, and the plan with it.
  predicate AskedMeans(es: seq<Entry>, asked: seq<Entry>, input: TurnInput, turnId: nat, from: Option<nat>) {
    match input.userInput
    case None => asked == es
    case Some(text) =>
      asked == es + [Stamped(Trusted(User, text), turnId, from)]
        + match input.plan case None => [] case Some(plan) => [Stamped(Trusted(PlanReminder, plan), turnId, from)]
  }

  // A log longer than the kept tail is compacted when it is over the threshold, or when a
  // recap was asked for and came.
  predicate CompactionDue(es: seq<Entry>, input: TurnInput, threshold: nat) {
    |es| > 6 && (TotalTokens(es) > threshold || (input.forced && input.recap.Some?))
  }

  ghost predicate ReadyMeans(asked: seq<Entry>, ready: seq<Entry>, input: TurnInput, threshold: nat,
                             substantive: string -> bool)
  {
    if CompactionDue(asked, input, threshold) then
      CompactedMeans(asked, KeepFrom(asked, RequestedStart(asked)), ready,
                     if input.recap.Some? then input.recap.value else input.summary, substantive)
    else ready == asked
  }

  // From the log as asked over the log as sent to the log after the turn.
  ghost predicate TurnMeans(asked: seq<Entry>, ready: seq<Entry>, after: seq<Entry>, input: TurnInput,
                            threshold: nat, substantive: string -> bool, tools: Tools, turnId: nat, from: Option<nat>)
  {
    && ReadyMeans(asked, ready, input, threshold, substantive)
    && after == ready + if input.completion.Some? && (CompactionDue(asked, input, threshold) ==> input.hookOk)
                        then StampedAll(TurnTail(input.completion.value, input.outcomes, tools), turnId, from)
                        else []
  }

  lemma CompactsMeans(es: seq<Entry>, input: TurnInput, threshold: nat, substantive: string -> bool)
    ensures Compacts(es, input, threshold) <==> CompactionDue(es, input, threshold)
    ensures ReadyMeans(es, AfterCompaction(es, input, threshold, substantive), input, threshold, substantive)
  {
    CompactedByPosition(es, input.summary, substantive);
    if input.recap.Some? {
      CompactedByPosition(es, input.recap.value, substantive);
    }
  }

  lemma TurnLogMeans(es: seq<Entry>, input: TurnInput, threshold: nat, substantive: string -> bool, tools: Tools,
                     turnId: nat, from: Option<nat>)
    ensures var asked := Asked(es, input, turnId, from);
            var ready := ReadyLog(es, input, threshold, substantive, turnId, from);
            && AskedMeans(es, asked, input, turnId, from)
            && TurnMeans(asked, ready, TurnLog(es, input, threshold, substantive, tools, turnId, from),
                         input, threshold, substantive, tools, turnId, from)
            && (Proceeds(es, input, threshold, turnId, from) <==> CompactionDue(asked, input, threshold) ==> input.hookOk)
  {
    CompactsMeans(Asked(es, input, turnId, from), input, threshold, substantive);
    AskedByParts(es, input, turnId, from);
    var ready := ReadyLog(es, input, threshold, substantive, turnId, from);
    assert ready + [] == ready;
  }

  lemma AskedByParts(es: seq<Entry>, input: TurnInput, turnId: nat, from: Option<nat>)
    ensures AskedMeans(es, Asked(es, input, turnId, from), input, turnId, from)
  {
    var asked := Asked(es, input, turnId, from);
    if input.userInput.None? {
      assert asked == es;
    } else if input.plan.None? {
      assert asked == es + [Stamped(Trusted(User, input.userInput.value), turnId, from)] + [];
    } else {
      assert asked == es + [Stamped(Trusted(User, input.userInput.value), turnId, from)]
                    + [Stamped(Trusted(PlanReminder, input.plan.value), turnId, from)];
    }
  }

  // What an iteration puts on the log before compaction: the task, behind nothing else, in
  // the first one, with no more words of the user; nothing in the others.
  ghost predicate OpensWith(before: seq<Entry>, asked: seq<Entry>, i: nat, task: string, turnId: nat, from: Option<nat>) {
    if i > 0 then asked == before
    else exists notes: seq<Entry> ::
      NoneOfUser(notes) && asked == before + [Stamped(Trusted(User, task), turnId, from)] + notes
  }

  // The request that goes out: the log as sent, unless the hook of a compaction fails.
  predicate Sends(asked: seq<Entry>, ready: seq<Entry>, sent: seq<seq<Message>>, input: TurnInput, threshold: nat,
                  limit: nat, show: Entry -> string)
  {
    sent == if CompactionDue(asked, input, threshold) && !input.hookOk then [] else [Prepared(ready, limit, show)]
  }

  ghost predicate TookTurn(before: seq<Entry>, after: seq<Entry>, sent: seq<seq<Message>>, i: nat, task: string,
                           input: TurnInput, threshold: nat, substantive: string -> bool, tools: Tools,
                           turnId: nat, from: Option<nat>, limit: nat, show: Entry -> string)
  {
    exists asked: seq<Entry>, ready: seq<Entry> ::
      OpensWith(before, asked, i, task, turnId, from) && Sends(asked, ready, sent, input, threshold, limit, show)
      && TurnMeans(asked, ready, after, input, threshold, substantive, tools, turnId, from)
  }

  lemma AskedOpens(es: seq<Entry>, asked: seq<Entry>, i: nat, task: string, input: TurnInput, turnId: nat, from: Option<nat>)
    requires AskedMeans(es, asked, input, turnId, from)
    requires input.userInput == if i == 0 then Some(task) else None
    ensures OpensWith(es, asked, i, task, turnId, from)
  {
    if i == 0 {
      var notes := match input.plan case None => [] case Some(plan) => [Stamped(Trusted(PlanReminder, plan), turnId, from)];
      assert NoneOfUser(notes);
      assert asked == es + [Stamped(Trusted(User, task), turnId, from)] + notes;
    }
  }

  // Without a compaction, a turn adds the task to the user's words, in the first iteration.
  lemma TurnAddsTask(before: seq<Entry>, asked: seq<Entry>, after: seq<Entry>, i: nat, task: string, input: TurnInput,
                     threshold: nat, substantive: string -> bool, tools: Tools, turnId: nat, from: Option<nat>)
    requires OpensWith(before, asked, i, task, turnId, from) && !CompactionDue(asked, input, threshold)
    requires TurnMeans(asked, asked, after, input, threshold, substantive, tools, turnId, from)
    ensures UserTexts(after) == UserTexts(before) + if i == 0 then [task] else []
  {
    if i == 0 {
      var notes: seq<Entry> :| NoneOfUser(notes) && asked == before + [Stamped(Trusted(User, task), turnId, from)] + notes;
      var said := [Stamped(Trusted(User, task), turnId, from)];
      assert said[..0] == [] && UserTexts(said) == [task];
      UserTextsConcat(before, said);
      NotesAdded(before + said, notes);
    }
    if input.completion.Some? {
      TurnTailNoneOfUser(input.completion.value, input.outcomes, tools);
      var tail := StampedAll(TurnTail(input.completion.value, input.outcomes, tools), turnId, from);
      StampedNoneOfUser(TurnTail(input.completion.value, input.outcomes, tools), turnId, from);
      NotesAdded(asked, tail);
    } else {
      assert after == asked;
    }
    assert UserTexts(before) + [] == UserTexts(before);
  }
}
