// What one agent turn, and the resumption of a halted one, append to the log.
module Turns {
  import opened Options
  import opened Protocol
  import opened Conversation
  import opened UniqueCalls
  import opened Compaction
  import Text

  // What running a tool gives: a result, successful or not, or an error, which may
  // be the demand for the operator's approval.
  datatype ToolOutcome =
    | Ran(success: bool, output: string)
    | NeedsApproval(reason: string)
    | Failed(reason: string)

  datatype Completion = Completion(text: string, toolCalls: seq<Invocation>)

  // The tools and texts around a turn, left open: which tools are read-only, and the
  // observation recorded for a call.
  datatype Tools = Tools(readOnly: string -> bool, observe: (Invocation, ToolOutcome) -> string)

  const NOT_EXECUTED := Failed("not executed: a prior tool in the batch failed")

  predicate Batchable(calls: seq<Invocation>, tools: Tools) {
    |calls| > 1 && forall c | c in calls :: c.name != "agent_done" && tools.readOnly(c.name)
  }

  function NotExecuted(calls: seq<Invocation>, tools: Tools): seq<Entry> {
    if calls == [] then []
    else [ToolResult(calls[0].id, tools.observe(calls[0], NOT_EXECUTED))] + NotExecuted(calls[1..], tools)
  }

  // The results of a batch; the i-th of outcomes belongs to its i-th call. A call that
  // fails ends the batch, and the calls after it are answered as not executed.
  function BatchResults(calls: seq<Invocation>, outcomes: nat -> ToolOutcome, i: nat, tools: Tools): seq<Entry>
    requires i <= |calls|
    decreases |calls| - i
  {
    if i == |calls| then []
    else
      var result := ToolResult(calls[i].id, tools.observe(calls[i], outcomes(i)));
      [result]
      + if outcomes(i).Ran? then BatchResults(calls, outcomes, i + 1, tools)
        else NotExecuted(calls[i + 1..], tools)
  }

  // Everything a turn appends after the model has answered.
  function TurnTail(c: Completion, outcomes: nat -> ToolOutcome, tools: Tools): seq<Entry> {
    if Batchable(c.toolCalls, tools) then
      [AssistantWithToolCalls(c.text, c.toolCalls)] + BatchResults(c.toolCalls, outcomes, 0, tools)
    else if c.toolCalls == [] then
      if Text.Trim(c.text) == "" then [] else [Trusted(Assistant, c.text)]
    else
      var call := c.toolCalls[0];
      [AssistantWithToolCalls(c.text, [call])]
      + if outcomes(0).NeedsApproval? then [] else [ToolResult(call.id, tools.observe(call, outcomes(0)))]
  }

  // The turn stops for approval and leaves its call without a result.
  predicate Halts(c: Completion, outcomes: nat -> ToolOutcome, tools: Tools) {
    c.toolCalls != [] && !Batchable(c.toolCalls, tools) && outcomes(0).NeedsApproval?
  }

  function LeftOpen(c: Completion, outcomes: nat -> ToolOutcome, tools: Tools): set<CallId> {
    if Halts(c, outcomes, tools) then {c.toolCalls[0].id} else {}
  }

  lemma ConsEvents(e: Entry, es: seq<Entry>)
    ensures EntryEvents([e] + es) == [EntryEvent(e)] + EntryEvents(es)
  {
  }

  // Answering exactly the calls of a list, in order.
  lemma {:induction false} NotExecutedAnswers(calls: seq<Invocation>, tools: Tools, open: set<CallId>)
    requires Distinct(Ids(calls)) && IdSet(Ids(calls)) <= open
    ensures Run(EntryEvents(NotExecuted(calls, tools)), open) == Some(open - IdSet(Ids(calls)))
    ensures LogShaped(NotExecuted(calls, tools)) && IssuedIn(EntryEvents(NotExecuted(calls, tools))) == {}
  {
    if calls == [] {
      assert IdSet(Ids(calls)) == {} && open - {} == open;
    } else {
      var c, cs := calls[0], calls[1..];
      assert calls == [c] + cs;
      IdsCons(c, cs);
      assert c.id in Ids(calls) && IdSet(Ids(calls)) == {c.id} + IdSet(Ids(cs));
      NotExecutedAnswers(cs, tools, open - {c.id});
      var e := ToolResult(c.id, tools.observe(c, NOT_EXECUTED));
      ConsEvents(e, NotExecuted(cs, tools));
      RunCons(Answer(c.id), EntryEvents(NotExecuted(cs, tools)), open);
      assert open - {c.id} - IdSet(Ids(cs)) == open - IdSet(Ids(calls));
    }
  }

  lemma {:induction false} BatchAnswers(
      calls: seq<Invocation>, outcomes: nat -> ToolOutcome, i: nat, tools: Tools, open: set<CallId>)
    requires i <= |calls| && Distinct(Ids(calls[i..])) && IdSet(Ids(calls[i..])) <= open
    ensures Run(EntryEvents(BatchResults(calls, outcomes, i, tools)), open)
         == Some(open - IdSet(Ids(calls[i..])))
    ensures LogShaped(BatchResults(calls, outcomes, i, tools))
    ensures IssuedIn(EntryEvents(BatchResults(calls, outcomes, i, tools))) == {}
    decreases |calls| - i
  {
    if i == |calls| {
      assert IdSet(Ids(calls[i..])) == {} && open - {} == open;
    } else {
      var c, cs := calls[i], calls[i + 1..];
      assert calls[i..] == [c] + cs;
      IdsCons(c, cs);
      assert c.id in Ids(calls[i..]) && IdSet(Ids(calls[i..])) == {c.id} + IdSet(Ids(cs));
      var rest := if outcomes(i).Ran? then BatchResults(calls, outcomes, i + 1, tools) else NotExecuted(cs, tools);
      if outcomes(i).Ran? {
        BatchAnswers(calls, outcomes, i + 1, tools, open - {c.id});
      } else {
        NotExecutedAnswers(cs, tools, open - {c.id});
      }
      ConsEvents(ToolResult(c.id, tools.observe(c, outcomes(i))), rest);
      RunCons(Answer(c.id), EntryEvents(rest), open);
      assert open - {c.id} - IdSet(Ids(cs)) == open - IdSet(Ids(calls[i..]));
    }
  }

  // An assistant entry with fresh calls opens exactly these.
  lemma IssueRuns(text: string, calls: seq<Invocation>, rest: seq<Entry>, open: set<CallId>)
    requires calls != [] && Distinct(Ids(calls)) && IdSet(Ids(calls)) !! open && LogShaped(rest)
    requires IssuedIn(EntryEvents(rest)) == {}
    ensures var tail := [AssistantWithToolCalls(text, calls)] + rest;
            Run(EntryEvents(tail), open) == Run(EntryEvents(rest), open + IdSet(Ids(calls)))
            && IssuedIn(EntryEvents(tail)) == IdSet(Ids(calls)) && UniqueIds(EntryEvents(tail)) && LogShaped(tail)
  {
    var e := AssistantWithToolCalls(text, calls);
    ConsEvents(e, rest);
    RunCons(Calls(Ids(calls)), EntryEvents(rest), open);
    assert ([EntryEvent(e)] + EntryEvents(rest))[1..] == EntryEvents(rest);
    NothingIssuedIsUnique(EntryEvents(rest));
  }

  lemma {:induction false} NothingIssuedIsUnique(es: seq<Event>)
    requires IssuedIn(es) == {}
    ensures UniqueIds(es)
  {
    if es != [] {
      NothingIssuedIsUnique(es[1..]);
    }
  }

  // Whichever way the turn goes (chat reply, one tool, a batch that fails at any
  // point), it answers every call it records, but for the one it halts on.
  lemma TurnTailKeepsProtocol(
      c: Completion, outcomes: nat -> ToolOutcome, tools: Tools, open: set<CallId>)
    requires Distinct(Ids(c.toolCalls)) && IdSet(Ids(c.toolCalls)) !! open
    ensures var tail := TurnTail(c, outcomes, tools);
            Run(EntryEvents(tail), open) == Some(open + LeftOpen(c, outcomes, tools))
            && LogShaped(tail) && UniqueIds(EntryEvents(tail))
            && IssuedIn(EntryEvents(tail)) <= IdSet(Ids(c.toolCalls))
  {
    var tail := TurnTail(c, outcomes, tools);
    assert open + {} == open;
    if Batchable(c.toolCalls, tools) {
      var ids := IdSet(Ids(c.toolCalls));
      assert c.toolCalls[0..] == c.toolCalls;
      BatchAnswers(c.toolCalls, outcomes, 0, tools, open + ids);
      IssueRuns(c.text, c.toolCalls, BatchResults(c.toolCalls, outcomes, 0, tools), open);
      assert open + ids - ids == open;
    } else if c.toolCalls == [] {
      assert tail != [] ==> EntryEvents(tail) == [Chat] && [Chat][1..] == [];
    } else {
      assert Ids(c.toolCalls)[0] == c.toolCalls[0].id;
      assert c.toolCalls[0].id in IdSet(Ids(c.toolCalls));
      SingleCallKeepsProtocol(c, outcomes, tools, open);
    }
  }

  lemma SingleCallKeepsProtocol(
      c: Completion, outcomes: nat -> ToolOutcome, tools: Tools, open: set<CallId>)
    requires c.toolCalls != [] && !Batchable(c.toolCalls, tools) && c.toolCalls[0].id !in open
    requires c.toolCalls[0].id in IdSet(Ids(c.toolCalls))
    ensures var tail := TurnTail(c, outcomes, tools);
            Run(EntryEvents(tail), open) == Some(open + LeftOpen(c, outcomes, tools))
            && LogShaped(tail) && UniqueIds(EntryEvents(tail))
            && IssuedIn(EntryEvents(tail)) <= IdSet(Ids(c.toolCalls))
  {
    var call := c.toolCalls[0];
    assert Ids([call]) == [call.id] && IdSet([call.id]) == {call.id} && open + {} == open;
    if outcomes(0).NeedsApproval? {
      IssueRuns(c.text, [call], [], open);
    } else {
      var result := ToolResult(call.id, tools.observe(call, outcomes(0)));
      assert EntryEvents([result]) == [Answer(call.id)] && [Answer(call.id)][1..] == [];
      IssueRuns(c.text, [call], [result], open);
      RunCons(Answer(call.id), [], open + {call.id});
      assert open + {call.id} - {call.id} == open;
    }
  }

  // Resuming.

  // The ids of the latest entry that issues calls.
  function LastCalls(es: seq<Entry>): seq<CallId> {
    if es == [] then []
    else
      match EntryEvent(es[|es| - 1])
      case Calls(ids) => ids
      case _ => LastCalls(es[..|es| - 1])
  }

  function FirstIn(ids: seq<CallId>, among: set<CallId>): Option<CallId> {
    if ids == [] then None else if ids[0] in among then Some(ids[0]) else FirstIn(ids[1..], among)
  }

  function FirstNotIn(calls: seq<Invocation>, answered: set<CallId>): Option<CallId> {
    if calls == [] then None
    else if calls[0].id !in answered then Some(calls[0].id)
    else FirstNotIn(calls[1..], answered)
  }

  // Searching from the end for the first call without a result.
  function UnansweredFrom(es: seq<Entry>, answered: set<CallId>): Option<CallId> {
    if es == [] then None
    else
      var e, init := es[|es| - 1], es[..|es| - 1];
      if e.toolCallId.Some? then UnansweredFrom(init, answered + {e.toolCallId.value})
      else if e.source == Assistant && e.toolCalls != [] then FirstNotIn(e.toolCalls, answered)
      else UnansweredFrom(init, answered)
  }

  method LatestUnansweredToolCallId(entries: seq<Entry>) returns (id: Option<CallId>)
    ensures id == UnansweredFrom(entries, {})
  {
    var answered: set<CallId> := {};
    var i: nat := |entries|;
    assert entries[..i] == entries;
    while i > 0
      invariant 0 <= i <= |entries|
      invariant UnansweredFrom(entries[..i], answered) == UnansweredFrom(entries, {})
    {
      assert entries[..i][..i - 1] == entries[..i - 1];
      i := i - 1;
      var entry := entries[i];
      if entry.toolCallId.Some? {
        answered := answered + {entry.toolCallId.value};
      } else if entry.source == Assistant && entry.toolCalls != [] {
        return FirstNotIn(entry.toolCalls, answered);
      }
    }
    return None;
  }

  lemma {:induction false} FirstNotInIsFirstOpen(
      calls: seq<Invocation>, answered: set<CallId>, open: set<CallId>)
    requires IdSet(Ids(calls)) <= open
    ensures FirstNotIn(calls, answered) == FirstIn(Ids(calls), open - answered)
  {
    if calls != [] {
      assert Ids(calls)[0] == calls[0].id && calls[0].id in IdSet(Ids(calls));
      assert Ids(calls)[1..] == Ids(calls[1..]);
      FirstNotInIsFirstOpen(calls[1..], answered, open);
    }
  }

  lemma EntrySnoc(es: seq<Entry>)
    requires es != []
    ensures var init, e := es[..|es| - 1], es[|es| - 1];
            EntryEvents(es) == EntryEvents(init) + [EntryEvent(e)]
  {
  }

  // The search finds the first call of the latest calling entry that is still open.
  lemma {:induction false} UnansweredIsOpen(es: seq<Entry>, answered: set<CallId>)
    requires LogShaped(es) && Run(EntryEvents(es), {}).Some?
    ensures UnansweredFrom(es, answered)
         == FirstIn(LastCalls(es), Run(EntryEvents(es), {}).value - answered)
  {
    if es != [] {
      var init, e := es[..|es| - 1], es[|es| - 1];
      var event := EntryEvent(e);
      assert e in es && EntryShaped(e) && LogShaped(init);
      EntrySnoc(es);
      RunConcat(EntryEvents(init), [event], {});
      RunSnoc(EntryEvents(init), event, {});
      var before, open := Run(EntryEvents(init), {}).value, Run(EntryEvents(es), {}).value;
      match event {
        case Calls(ids) => FirstNotInIsFirstOpen(e.toolCalls, answered, open);
        case Answer(id) =>
          UnansweredIsOpen(init, answered + {id});
          assert before - (answered + {id}) == open - answered;
        case Chat => UnansweredIsOpen(init, answered);
      }
    }
  }

  lemma FirstInIsIn(ids: seq<CallId>, among: set<CallId>)
    ensures FirstIn(ids, among).Some? ==> FirstIn(ids, among).value in among && FirstIn(ids, among).value in ids
    ensures FirstIn(ids, among).None? ==> IdSet(ids) !! among
  {
    if ids != [] {
      FirstInIsIn(ids[1..], among);
    }
  }

  // append_pending_resume_observation
  function ResumeTail(es: seq<Entry>, observation: string, reminder: string): seq<Entry> {
    match UnansweredFrom(es, {})
    case Some(id) => [ToolResult(id, observation)]
    case None => [Trusted(PlanReminder, reminder)]
  }

  // Resuming closes the first open call of the latest calling entry and no other; when
  // none of its calls is open it leaves the protocol alone.
  lemma ResumeCloses(es: seq<Entry>, observation: string, reminder: string)
    requires LogShaped(es) && Run(EntryEvents(es), {}).Some?
    ensures var open := Run(EntryEvents(es), {}).value;
            var tail := ResumeTail(es, observation, reminder);
            LogShaped(tail) && IssuedIn(EntryEvents(tail)) == {}
            && match FirstIn(LastCalls(es), open)
               case Some(id) => id in open && Run(EntryEvents(tail), open) == Some(open - {id})
               case None => Run(EntryEvents(tail), open) == Some(open)
  {
    var open := Run(EntryEvents(es), {}).value;
    UnansweredIsOpen(es, {});
    assert open - {} == open;
    FirstInIsIn(LastCalls(es), open);
    var tail := ResumeTail(es, observation, reminder);
    var event := EntryEvent(tail[0]);
    assert EntryEvents(tail) == [event] && [event][1..] == [];
    RunCons(event, [], open);
  }
}
