// The harness agent: one turn, the resumption of a halted turn, and the run loop.
module Agent {
  import opened Options
  import opened Protocol
  import opened Conversation
  import opened Trim
  import opened ContextLog
  import opened Turns
  import opened Sessions
  import opened RunEvents
  import opened TurnMeaning
  import Text

  // What the run loop accumulates. requests are the message lists sent to the provider.
  datatype RunState = RunState(
    turns: seq<TurnOutcome>, cost: real, trace: seq<RunEvent>, requests: seq<seq<Message>>)

  function Emit(run: RunState, e: RunEvent): RunState {
    run.(trace := run.trace + [e])
  }

  // The run so far is in order: all its turns below bound, its phase changes linked,
  // and every request balanced and within the limit.
  predicate Sound(run: RunState, bound: nat, from: Phase, to: Phase, limit: nat) {
    Orderly(run.trace, bound) && Chained(from, run.trace, to)
    && Wellformed(run.requests, limit)
  }

  lemma EmitSound(run: RunState, e: RunEvent, bound: nat, from: Phase, to: Phase, limit: nat)
    requires Sound(run, bound, from, to, limit)
    ensures match e
            case TurnStarted(i) => i >= bound ==> Sound(Emit(run, e), i + 1, from, to, limit)
            case PhaseChanged(a, b) => a == to && a != b ==> Sound(Emit(run, e), bound, from, b, limit)
            case TurnEnded(i, _) => LastStarted(run.trace) == Some(i) ==> Sound(Emit(run, e), bound, from, to, limit)
            case Finished(_) => true
            case _ => Sound(Emit(run, e), bound, from, to, limit)
  {
    Snoc(run.trace, e);
    if e.TurnStarted? && e.turnIndex >= bound {
      OrderlyMono(run.trace, bound, e.turnIndex);
    }
  }

  // What an event adds to the turns that the stream shows.
  lemma EmitTurns(run: RunState, e: RunEvent)
    ensures LastStarted(Emit(run, e).trace) == if e.TurnStarted? then Some(e.turnIndex) else LastStarted(run.trace)
    ensures Endings(Emit(run, e).trace)
         == if e.TurnEnded? then Endings(run.trace) + [e.success] else Endings(run.trace)
    ensures Resumed(Emit(run, e).trace) == (e.ResumeStarted? || Resumed(run.trace))
    ensures Shrunk(Emit(run, e).trace) == (e.CompactionReported? || Shrunk(run.trace))
  {
    Snoc(run.trace, e);
  }

  datatype TurnResult = TurnOk(outcome: TurnOutcome) | TurnErr(approval: bool)

  // A tool call as the sidecar keeps it: without its id.
  datatype ToolCall = ToolCall(name: string, arguments: string)

  function BatchResult(calls: seq<Invocation>, outcomes: nat -> ToolOutcome, i: nat, success: bool, cost: real): TurnResult
    requires i <= |calls|
    decreases |calls| - i
  {
    if i == |calls| then TurnOk(TurnOutcome("multi_tool", success, false, cost))
    else if outcomes(i).Ran? then BatchResult(calls, outcomes, i + 1, success && outcomes(i).success, cost)
    else TurnErr(outcomes(i).NeedsApproval?)
  }

  // What a turn returns once the model has answered.
  function AnswerResult(c: Completion, outcomes: nat -> ToolOutcome, tools: Tools, cost: real): TurnResult {
    if Batchable(c.toolCalls, tools) then BatchResult(c.toolCalls, outcomes, 0, true, cost)
    else if !outcomes(0).Ran? then TurnErr(outcomes(0).NeedsApproval?)
    else if c.toolCalls == [] then TurnOk(TurnOutcome("agent_done", outcomes(0).success, true, cost))
    else
      var name := c.toolCalls[0].name;
      TurnOk(TurnOutcome(name, outcomes(0).success, name == "agent_done" && outcomes(0).success, cost))
  }

  // The calls of a batch before the k-th ran, and it did not, for want of approval or not.
  ghost predicate StoppedAt(outcomes: nat -> ToolOutcome, from: nat, k: nat, approval: bool) {
    AllRanBefore(outcomes, from, k) && !outcomes(k).Ran? && (approval <==> outcomes(k).NeedsApproval?)
  }

  // The result of an answered turn: whether it is done, the tool it names, the call or the
  // calls it was successful with, or the call that failed it.
  ghost predicate AnswerMeans(result: TurnResult, c: Completion, outcomes: nat -> ToolOutcome, tools: Tools, cost: real) {
    var calls := c.toolCalls;
    match result
    case TurnOk(outcome) =>
      && (outcome.done <==> EndsDone(c, outcomes, tools)) && outcome.cost == cost
      && if AllReads(calls, tools) then
           outcome.toolName == "multi_tool" && AllRanBefore(outcomes, 0, |calls|)
           && (outcome.success <==> forall k: nat | k < |calls| :: outcomes(k).Ran? && outcomes(k).success)
         else
           (|calls| == 0 ==> outcome.toolName == "agent_done") && (|calls| > 0 ==> outcome.toolName == calls[0].name)
           && outcomes(0).Ran? && outcome.success == outcomes(0).success
    case TurnErr(approval) =>
      if AllReads(calls, tools) then exists k: nat | k < |calls| :: StoppedAt(outcomes, 0, k, approval)
      else !outcomes(0).Ran? && (approval <==> outcomes(0).NeedsApproval?)
  }

  // The same for the calls of a batch from the i-th on.
  ghost predicate BatchMeans(result: TurnResult, calls: seq<Invocation>, outcomes: nat -> ToolOutcome, i: nat,
                             success: bool, cost: real)
  {
    match result
    case TurnOk(outcome) =>
      outcome.toolName == "multi_tool" && !outcome.done && outcome.cost == cost && AllRanBefore(outcomes, i, |calls|)
      && (outcome.success <==> success && forall k: nat | i <= k < |calls| :: outcomes(k).Ran? && outcomes(k).success)
    case TurnErr(approval) => exists k: nat | i <= k < |calls| :: StoppedAt(outcomes, i, k, approval)
  }

  lemma BatchMeansStep(result: TurnResult, calls: seq<Invocation>, outcomes: nat -> ToolOutcome, i: nat,
                       success: bool, cost: real)
    requires i < |calls| && outcomes(i).Ran?
    requires BatchMeans(result, calls, outcomes, i + 1, success && outcomes(i).success, cost)
    ensures BatchMeans(result, calls, outcomes, i, success, cost)
  {
    if result.TurnErr? {
      var k: nat :| i + 1 <= k < |calls| && StoppedAt(outcomes, i + 1, k, result.approval);
      assert StoppedAt(outcomes, i, k, result.approval);
    }
  }

  lemma {:induction false} BatchResultMeans(calls: seq<Invocation>, outcomes: nat -> ToolOutcome, i: nat,
                                            success: bool, cost: real)
    requires i <= |calls|
    ensures BatchMeans(BatchResult(calls, outcomes, i, success, cost), calls, outcomes, i, success, cost)
    decreases |calls| - i
  {
    if i < |calls| {
      if outcomes(i).Ran? {
        BatchResultMeans(calls, outcomes, i + 1, success && outcomes(i).success, cost);
        BatchMeansStep(BatchResult(calls, outcomes, i, success, cost), calls, outcomes, i, success, cost);
      } else {
        assert StoppedAt(outcomes, i, i, outcomes(i).NeedsApproval?);
      }
    }
  }

  // The outcome of a turn with this input.
  ghost predicate OutcomeMeans(outcome: TurnOutcome, input: TurnInput, tools: Tools) {
    input.completion.Some?
    && AnswerMeans(TurnOk(outcome), input.completion.value, input.outcomes, tools, input.cost)
  }

  // Something that the turn ran asked for approval.
  predicate SeeksApproval(input: TurnInput) {
    input.completion.Some?
    && (input.outcomes(0).NeedsApproval?
        || exists k: nat | k < |input.completion.value.toolCalls| :: input.outcomes(k).NeedsApproval?)
  }

  lemma ApprovalWasSought(input: TurnInput, result: TurnResult, tools: Tools)
    requires input.completion.Some? ==>
      AnswerMeans(result, input.completion.value, input.outcomes, tools, input.cost) || result == TurnErr(false)
    requires input.completion.None? ==> result == TurnErr(false)
    ensures result == TurnErr(true) ==> SeeksApproval(input)
  {
    if result == TurnErr(true) {
      var calls := input.completion.value.toolCalls;
      if AllReads(calls, tools) {
        var k: nat :| k < |calls| && StoppedAt(input.outcomes, 0, k, true);
        assert input.outcomes(k).NeedsApproval?;
      } else {
        assert input.outcomes(0).NeedsApproval?;
      }
    }
  }

  lemma AnswerResultMeans(c: Completion, outcomes: nat -> ToolOutcome, tools: Tools, cost: real)
    ensures AnswerMeans(AnswerResult(c, outcomes, tools, cost), c, outcomes, tools, cost)
  {
    BatchableMeans(c.toolCalls, tools);
    BatchResultMeans(c.toolCalls, outcomes, 0, true, cost);
  }

  lemma StampedCons(e: Entry, es: seq<Entry>, turnId: nat, from: Option<nat>)
    ensures StampedAll([e] + es, turnId, from) == [Stamped(e, turnId, from)] + StampedAll(es, turnId, from)
  {
  }

  lemma MoveHead<T>(a: seq<T>, b: seq<T>)
    requires b != []
    ensures a + [b[0]] + b[1..] == a + b
  {
  }

  // The stamped results from the i-th call on, and those of the calls not executed.
  function Results(calls: seq<Invocation>, outcomes: nat -> ToolOutcome, i: nat, tools: Tools,
                   turnId: nat, from: Option<nat>): seq<Entry>
    requires i <= |calls|
  {
    StampedAll(BatchResults(calls, outcomes, i, tools), turnId, from)
  }

  function Skipped(calls: seq<Invocation>, tools: Tools, turnId: nat, from: Option<nat>): seq<Entry> {
    StampedAll(NotExecuted(calls, tools), turnId, from)
  }

  lemma ResultsStep(calls: seq<Invocation>, outcomes: nat -> ToolOutcome, i: nat, tools: Tools,
                    turnId: nat, from: Option<nat>)
    requires i < |calls|
    ensures Results(calls, outcomes, i, tools, turnId, from)
         == [Stamped(ToolResult(calls[i].id, tools.observe(calls[i], outcomes(i))), turnId, from)]
          + if outcomes(i).Ran? then Results(calls, outcomes, i + 1, tools, turnId, from)
            else Skipped(calls[i + 1..], tools, turnId, from)
  {
    var rest := if outcomes(i).Ran? then BatchResults(calls, outcomes, i + 1, tools)
                else NotExecuted(calls[i + 1..], tools);
    StampedCons(ToolResult(calls[i].id, tools.observe(calls[i], outcomes(i))), rest, turnId, from);
  }

  lemma BatchTail(c: Completion, outcomes: nat -> ToolOutcome, tools: Tools, turnId: nat, from: Option<nat>)
    requires Batchable(c.toolCalls, tools)
    ensures var tail := StampedAll(TurnTail(c, outcomes, tools), turnId, from);
            tail != [] && tail[0] == Stamped(AssistantWithToolCalls(c.text, c.toolCalls), turnId, from)
            && tail[1..] == Results(c.toolCalls, outcomes, 0, tools, turnId, from)
  {
    StampedCons(AssistantWithToolCalls(c.text, c.toolCalls),
                BatchResults(c.toolCalls, outcomes, 0, tools), turnId, from);
  }

  lemma SkippedStep(calls: seq<Invocation>, k: nat, tools: Tools, turnId: nat, from: Option<nat>)
    requires k < |calls|
    ensures Skipped(calls[k..], tools, turnId, from)
         == [Stamped(ToolResult(calls[k].id, tools.observe(calls[k], NOT_EXECUTED)), turnId, from)]
          + Skipped(calls[k + 1..], tools, turnId, from)
  {
    assert calls[k..][1..] == calls[k + 1..];
    StampedCons(ToolResult(calls[k].id, tools.observe(calls[k], NOT_EXECUTED)),
                NotExecuted(calls[k + 1..], tools), turnId, from);
  }

  function TurnReturn(es: seq<Entry>, input: TurnInput, threshold: nat, tools: Tools,
                      turnId: nat, from: Option<nat>): TurnResult
  {
    if Answered(es, input, threshold, turnId, from) then
      AnswerResult(input.completion.value, input.outcomes, tools, input.cost)
    else TurnErr(false)
  }

  // The request that a turn sends, unless the hook of a compaction fails, and its report.

  function TurnRequests(es: seq<Entry>, input: TurnInput, threshold: nat, substantive: string -> bool,
                        turnId: nat, from: Option<nat>, limit: nat, show: Entry -> string): seq<seq<Message>>
  {
    if Proceeds(es, input, threshold, turnId, from)
    then [Prepared(ReadyLog(es, input, threshold, substantive, turnId, from), limit, show)]
    else []
  }

  function TurnReport(es: seq<Entry>, input: TurnInput, threshold: nat, substantive: string -> bool,
                      turnId: nat, from: Option<nat>): seq<RunEvent>
  {
    var asked := Asked(es, input, turnId, from);
    if CompactionDue(asked, input, threshold) && input.hookOk
    then [CompactionReported(TotalTokens(asked), TotalTokens(ReadyLog(es, input, threshold, substantive, turnId, from)))]
    else []
  }

  // A turn gets an answer unless the hook of a compaction or the provider fails, and then
  // returns what the answer means. It sends one request, of its log as it was sent.
  lemma TurnReturnMeans(es: seq<Entry>, input: TurnInput, threshold: nat, substantive: string -> bool, tools: Tools,
                        turnId: nat, from: Option<nat>, limit: nat, show: Entry -> string)
    ensures var asked := Asked(es, input, turnId, from);
            var ready := ReadyLog(es, input, threshold, substantive, turnId, from);
            var sent := TurnRequests(es, input, threshold, substantive, turnId, from, limit, show);
            var result := TurnReturn(es, input, threshold, tools, turnId, from);
            && Sends(asked, ready, sent, input, threshold, limit, show)
            && if |sent| > 0 && input.completion.Some?
               then AnswerMeans(result, input.completion.value, input.outcomes, tools, input.cost)
               else result == TurnErr(false)
  {
    CompactsMeans(Asked(es, input, turnId, from), input, threshold, substantive);
    if input.completion.Some? {
      AnswerResultMeans(input.completion.value, input.outcomes, tools, input.cost);
    }
  }

  // The first call is run by itself.
  predicate SingleCall(input: TurnInput, tools: Tools) {
    input.completion.Some? && |input.completion.value.toolCalls| > 0
    && !AllReads(input.completion.value.toolCalls, tools)
  }

  // A turn that returns the approval error halts, and so leaves a call to be resumed,
  // exactly when that call was run by itself, and not in a batch or as the chat reply.
  lemma ApprovalHaltsIff(es: seq<Entry>, input: TurnInput, threshold: nat, tools: Tools,
                         turnId: nat, from: Option<nat>)
    ensures TurnHalts(es, input, threshold, tools, turnId, from)
       ==> TurnReturn(es, input, threshold, tools, turnId, from) == TurnErr(true)
    ensures TurnReturn(es, input, threshold, tools, turnId, from) == TurnErr(true)
       ==> (TurnHalts(es, input, threshold, tools, turnId, from) <==> SingleCall(input, tools))
  {
    if input.completion.Some? {
      BatchableMeans(input.completion.value.toolCalls, tools);
    }
    if Answered(es, input, threshold, turnId, from) && !Batchable(input.completion.value.toolCalls, tools) {
      assert TurnReturn(es, input, threshold, tools, turnId, from)
          == AnswerResult(input.completion.value, input.outcomes, tools, input.cost);
    }
  }

  // Two reads, the first of which is refused for want of approval: the turn returns the
  // approval error, both calls are answered, and nothing is left to be resumed.
  lemma BatchApprovalHaltsNothing(tools: Tools, outcomes: nat -> ToolOutcome, cost: real, open: set<CallId>)
    requires tools.readOnly("file_read") && outcomes(0).NeedsApproval? && open !! {"a", "b"}
    ensures var c := Completion("", [Invocation("a", "file_read", "{}"), Invocation("b", "file_read", "{}")]);
            AnswerResult(c, outcomes, tools, cost) == TurnErr(true)
            && !Halts(c, outcomes, tools)
            && Run(EntryEvents(TurnTail(c, outcomes, tools)), open) == Some(open)
  {
    var calls := [Invocation("a", "file_read", "{}"), Invocation("b", "file_read", "{}")];
    var c := Completion("", calls);
    assert Ids(calls) == ["a", "b"] && IdSet(Ids(calls)) == {"a", "b"};
    assert Batchable(calls, tools);
    TurnTailKeepsProtocol(c, outcomes, tools, open);
    assert open + {} == open;
  }

  // Every request is balanced and fits the limit.
  predicate Wellformed(requests: seq<seq<Message>>, limit: nat) {
    forall r | r in requests :: Balanced(MessageEvents(r)) && Fits(r, limit)
  }

  // With a sidecar path, a call is open only while the sidecar holds it.
  predicate Accounted(es: seq<Entry>, sidecar: Option<ToolCall>, resumable: bool) {
    if resumable then OpenCalls(es) == {} || (sidecar.Some? && Paused(es)) else sidecar.None?
  }

  lemma TurnAccounts(es: seq<Entry>, input: TurnInput, threshold: nat, substantive: string -> bool, tools: Tools,
                     turnId: nat, from: Option<nat>, issued: set<CallId>, sidecar: Option<ToolCall>,
                     resumable: bool)
    requires Kept(es, issued) && DistinctIds(input) && FreshIds(input) !! issued
    requires Accounted(es, None, resumable)
    requires sidecar.Some? <==> resumable && TurnHalts(es, input, threshold, tools, turnId, from)
    ensures Accounted(TurnLog(es, input, threshold, substantive, tools, turnId, from), sidecar, resumable)
  {
    TurnKeepsLog(es, input, threshold, substantive, tools, turnId, from, issued);
    if resumable && sidecar.Some? {
      var after := TurnLog(es, input, threshold, substantive, tools, turnId, from);
      assert OpenCalls(after) == {LastCalls(after)[0]};
    }
  }

  function FailedResume(name: string): string {
    "[resume] Tried to resume " + name + " after approval but failed"
  }

  // What resuming the sidecar's call appends: the result of the call it was halted on, or
  // a reminder when the log holds no such call; and a note if it failed.

  function ResumeEntry(es: seq<Entry>, held: ToolCall, outcome: ToolOutcome, tools: Tools): Entry {
    var call := Invocation("", held.name, held.arguments);
    ResumeTail(es, tools.observe(call, outcome), "[resume] Operator approved " + call.name)[0]
  }

  function ResumedEntries(es: seq<Entry>, held: ToolCall, outcome: ToolOutcome, tools: Tools): seq<Entry> {
    [ResumeEntry(es, held, outcome, tools)]
    + if outcome.Ran? then [] else [Trusted(PlanReminder, FailedResume(held.name))]
  }

  // By fields: the observation as the result of the call found, under its own id, or the
  // reminder that the operator approved; and the note of the failure.
  lemma ResumedMeans(es: seq<Entry>, held: ToolCall, outcome: ToolOutcome, tools: Tools)
    ensures var added := ResumedEntries(es, held, outcome, tools);
            var observation := tools.observe(Invocation("", held.name, held.arguments), outcome);
            && |added| == (if outcome.Ran? then 1 else 2)
            && (match UnansweredFrom(es, {})
                case Some(id) => IsResultOf(added[0], Invocation(id, held.name, held.arguments), observation)
                case None => IsWords(added[0], PlanReminder, "[resume] Operator approved " + held.name))
            && (!outcome.Ran? ==>
                  IsWords(added[1], PlanReminder,
                          "[resume] Tried to resume " + held.name + " after approval but failed"))
  {
    var call := Invocation("", held.name, held.arguments);
    ResumeTailMeans(es, tools.observe(call, outcome), "[resume] Operator approved " + call.name);
  }

  lemma ResumedStamps(es: seq<Entry>, held: ToolCall, outcome: ToolOutcome, tools: Tools,
                      turnId: nat, from: Option<nat>)
    ensures StampedAll(ResumedEntries(es, held, outcome, tools), turnId, from)
         == [Stamped(ResumeEntry(es, held, outcome, tools), turnId, from)]
          + if outcome.Ran? then []
            else [Stamped(Trusted(PlanReminder, FailedResume(held.name)), turnId, from)]
  {
  }

  class HarnessAgent {
    const context: ContextManager
    const tools: Tools
    const substantive: string -> bool
    const show: Entry -> string
    // Whether a path for the pending call is configured.
    const resumable: bool
    var phase: Phase
    var sidecar: Option<ToolCall>
    ghost var issued: set<CallId>

    // The log keeps the protocol. With a sidecar path, a call is open only between an
    // approval halt and its resumption, and then it is the one call of the latest
    // calling entry.
    ghost predicate Valid()
      reads this, context
    {
      Kept(context.entries, issued) && Accounted(context.entries, sidecar, resumable)
    }

    ghost predicate Ready()
      reads this, context
    {
      Valid() && sidecar.None?
    }

    // An agent over a new or restored context. The sidecar is what an earlier run left.
    constructor (context: ContextManager, tools: Tools, substantive: string -> bool,
                 show: Entry -> string, resumable: bool, sidecar: Option<ToolCall>, ghost issued: set<CallId>)
      requires Kept(context.entries, issued) && Accounted(context.entries, sidecar, resumable)
      ensures Valid() && this.context == context && this.tools == tools && this.resumable == resumable
      ensures this.sidecar == sidecar && this.issued == issued && phase == Planning
    {
      this.context, this.tools, this.substantive, this.show := context, tools, substantive, show;
      this.resumable, phase, this.sidecar, this.issued := resumable, Planning, sidecar, issued;
    }

    method TransitionPhase(run: RunState, next: Phase, ghost bound: nat, ghost from: Phase)
      returns (after: RunState)
      requires Sound(run, bound, from, phase, context.limits.hardLimitTokens)
      modifies this`phase
      ensures phase == next
      ensures after == if old(phase) == next then run else Emit(run, PhaseChanged(old(phase), next))
      ensures Sound(after, bound, from, phase, context.limits.hardLimitTokens)
      ensures SameTurns(run.trace, after.trace)
    {
      if phase == next {
        return run;
      }
      after := Emit(run, PhaseChanged(phase, next));
      EmitSound(run, PhaseChanged(phase, next), bound, from, phase, context.limits.hardLimitTokens);
      EmitTurns(run, PhaseChanged(phase, next));
      phase := next;
    }

    method AppendNoteEntry(source: Source, text: string)
      requires Kept(context.entries, issued)
      modifies context`entries
      ensures Kept(context.entries, issued)
      ensures OpenCalls(context.entries) == OpenCalls(old(context.entries))
      ensures LastCalls(context.entries) == LastCalls(old(context.entries))
      ensures context.entries
           == old(context.entries) + [Stamped(Trusted(source, text), context.currentTurnId, context.branchedFrom)]
    {
      AppendNote(context.entries,
                 Stamped(Trusted(source, text), context.currentTurnId, context.branchedFrom), issued);
      context.Append(Trusted(source, text));
    }

    function Tail(c: Completion, outcomes: nat -> ToolOutcome): seq<Entry>
      reads context
    {
      StampedAll(TurnTail(c, outcomes, tools), context.currentTurnId, context.branchedFrom)
    }

    method RecordBatch(c: Completion, outcomes: nat -> ToolOutcome, cost: real) returns (result: TurnResult)
      requires Batchable(c.toolCalls, tools)
      modifies context`entries
      ensures context.entries == old(context.entries) + Tail(c, outcomes)
      ensures result == AnswerResult(c, outcomes, tools, cost)
    {
      ghost var before, tail := context.entries, Tail(c, outcomes);
      BatchTail(c, outcomes, tools, context.currentTurnId, context.branchedFrom);
      context.Append(AssistantWithToolCalls(c.text, c.toolCalls));
      result := RunBatch(c.toolCalls, outcomes, cost);
      MoveHead(before, tail);
    }

    // Runs the calls of a batch. A failing call is answered with its failure, the calls
    // after it as not executed, and the error is passed on.
    method RunBatch(calls: seq<Invocation>, outcomes: nat -> ToolOutcome, cost: real) returns (result: TurnResult)
      modifies context`entries
      ensures context.entries == old(context.entries)
           + Results(calls, outcomes, 0, tools, context.currentTurnId, context.branchedFrom)
      ensures result == BatchResult(calls, outcomes, 0, true, cost)
    {
      var allSuccess := true;
      ghost var turnId, from := context.currentTurnId, context.branchedFrom;
      ghost var rest := Results(calls, outcomes, 0, tools, turnId, from);
      ghost var goal := context.entries + rest;
      for i := 0 to |calls|
        invariant rest == Results(calls, outcomes, i, tools, turnId, from) && context.entries + rest == goal
        invariant BatchResult(calls, outcomes, i, allSuccess, cost) == BatchResult(calls, outcomes, 0, true, cost)
      {
        ghost var before, after := context.entries, rest[1..];
        ResultsStep(calls, outcomes, i, tools, turnId, from);
        context.Append(ToolResult(calls[i].id, tools.observe(calls[i], outcomes(i))));
        MoveHead(before, rest);
        rest := after;
        if !outcomes(i).Ran? {
          AppendNotExecuted(calls[i + 1..]);
          return TurnErr(outcomes(i).NeedsApproval?);
        }
        allSuccess := allSuccess && outcomes(i).success;
      }
      result := TurnOk(TurnOutcome("multi_tool", allSuccess, false, cost));
    }

    method AppendNotExecuted(calls: seq<Invocation>)
      modifies context`entries
      ensures context.entries
           == old(context.entries) + Skipped(calls, tools, context.currentTurnId, context.branchedFrom)
    {
      ghost var turnId, from := context.currentTurnId, context.branchedFrom;
      assert calls[0..] == calls;
      for k := 0 to |calls|
        invariant context.entries + Skipped(calls[k..], tools, turnId, from)
               == old(context.entries) + Skipped(calls, tools, turnId, from)
      {
        SkippedStep(calls, k, tools, turnId, from);
        context.Append(ToolResult(calls[k].id, tools.observe(calls[k], NOT_EXECUTED)));
      }
    }

    // Records a chat reply or the first call and its result. A call that needs approval
    // gets no result: it goes to the sidecar instead.
    method RecordSingle(c: Completion, outcomes: nat -> ToolOutcome, cost: real) returns (result: TurnResult)
      requires !Batchable(c.toolCalls, tools)
      modifies context`entries, this`sidecar
      ensures context.entries == old(context.entries) + Tail(c, outcomes)
      ensures result == AnswerResult(c, outcomes, tools, cost)
      ensures AnswerMeans(result, c, outcomes, tools, cost)
      ensures sidecar == if Halts(c, outcomes, tools) && resumable
                         then Some(ToolCall(c.toolCalls[0].name, c.toolCalls[0].arguments))
                         else old(sidecar)
    {
      AnswerResultMeans(c, outcomes, tools, cost);
      if c.toolCalls == [] {
        if Text.Trim(c.text) != "" {
          context.Append(Trusted(Assistant, c.text));
        }
        if !outcomes(0).Ran? {
          return TurnErr(outcomes(0).NeedsApproval?);
        }
        return TurnOk(TurnOutcome("agent_done", outcomes(0).success, true, cost));
      }
      var call := c.toolCalls[0];
      context.Append(AssistantWithToolCalls(c.text, [call]));
      if outcomes(0).NeedsApproval? {
        if resumable {
          sidecar := Some(ToolCall(call.name, call.arguments));
        }
        return TurnErr(true);
      }
      context.Append(ToolResult(call.id, tools.observe(call, outcomes(0))));
      if outcomes(0).Failed? {
        return TurnErr(false);
      }
      var done := call.name == "agent_done" && outcomes(0).success;
      result := TurnOk(TurnOutcome(call.name, outcomes(0).success, done, cost));
    }

    // Opens a turn: a new turn id, the user's words, and compaction if it is due, which is
    // reported. False when the hook that follows a compaction fails.
    method PrepareTurn(input: TurnInput) returns (ready: bool, report: seq<RunEvent>)
      modifies context`entries, context`currentTurnId
      ensures context.currentTurnId == old(NextTurnId())
      ensures context.entries == old(ReadyLog(context.entries, input, ContextThreshold(), substantive,
                                              NextTurnId(), context.branchedFrom))
      ensures ready == old(Proceeds(context.entries, input, ContextThreshold(),
                                    NextTurnId(), context.branchedFrom))
      ensures report == old(TurnReport(context.entries, input, ContextThreshold(), substantive, NextTurnId(),
                                       context.branchedFrom))
    {
      var turnId := context.BumpTurnId();
      AppendUserEntries(input);
      CompactsMeans(context.entries, input, ContextThreshold(), substantive);
      var tokensBefore := context.EstimatedTokens();
      var compacted := CompactForTurn(input);
      ready, report := !compacted || input.hookOk, [];
      if compacted && input.hookOk {
        var tokensAfter := context.EstimatedTokens();
        report := [CompactionReported(tokensBefore, tokensAfter)];
      }
    }

    // The model's recap first, the deterministic summary when there is none.
    method CompactForTurn(input: TurnInput) returns (compacted: bool)
      modifies context`entries
      ensures context.entries == old(AfterCompaction(context.entries, input, ContextThreshold(), substantive))
      ensures ReadyMeans(old(context.entries), context.entries, input, ContextThreshold(), substantive)
      ensures compacted <==> old(CompactionDue(context.entries, input, ContextThreshold()))
    {
      CompactsMeans(context.entries, input, ContextThreshold(), substantive);
      compacted := context.CompactWithLlm(input.forced, input.recap, substantive);
      if !compacted {
        compacted := context.CompactIfNeeded(input.summary, substantive);
      }
    }

    function NextTurnId(): nat
      reads context`currentTurnId
    {
      if context.currentTurnId < U64_MAX then context.currentTurnId + 1 else U64_MAX
    }

    function ContextThreshold(): nat
      reads context`modelWindowTokens
    {
      Threshold(context.limits, context.modelWindowTokens)
    }

    method AppendUserEntries(input: TurnInput)
      modifies context`entries
      ensures context.entries
           == old(context.entries) + StampedAll(UserEntries(input), context.currentTurnId, context.branchedFrom)
    {
      if input.userInput.Some? {
        context.Append(Trusted(User, input.userInput.value));
        if input.plan.Some? {
          context.Append(Trusted(PlanReminder, input.plan.value));
        }
      }
    }

    // Builds and sends the request of a turn.
    method SendRequest() returns (requests: seq<seq<Message>>)
      requires Kept(context.entries, issued)
      ensures Wellformed(requests, context.limits.hardLimitTokens)
      ensures requests == [Prepared(context.entries, context.limits.hardLimitTokens, show)]
    {
      var request := context.ToMessages(show);
      ghost var k := RequestIsBalanced(context.entries, context.limits.hardLimitTokens, show);
      RequestFits(context.entries, context.limits.hardLimitTokens, show);
      requests := [request];
    }

    method RecordAnswer(c: Completion, outcomes: nat -> ToolOutcome, cost: real) returns (result: TurnResult)
      modifies context`entries, this`sidecar
      ensures context.entries == old(context.entries) + Tail(c, outcomes)
      ensures result == AnswerResult(c, outcomes, tools, cost) && AnswerMeans(result, c, outcomes, tools, cost)
      ensures sidecar == if Halts(c, outcomes, tools) && resumable
                         then Some(ToolCall(c.toolCalls[0].name, c.toolCalls[0].arguments))
                         else old(sidecar)
    {
      AnswerResultMeans(c, outcomes, tools, cost);
      if Batchable(c.toolCalls, tools) {
        result := RecordBatch(c, outcomes, cost);
      } else {
        result := RecordSingle(c, outcomes, cost);
      }
    }

    // What a turn does to the log: prepare it, send a request, record what the model answered.
    method RecordTurn(input: TurnInput)
      returns (result: TurnResult, requests: seq<seq<Message>>, answered: bool, report: seq<RunEvent>)
      requires Kept(context.entries, issued) && DistinctIds(input) && FreshIds(input) !! issued
      modifies this`sidecar, this`issued, context`entries, context`currentTurnId
      ensures context.currentTurnId == old(NextTurnId())
      ensures context.entries == TurnLog(old(context.entries), input, ContextThreshold(), substantive, tools,
                                         context.currentTurnId, context.branchedFrom)
      ensures result == TurnReturn(old(context.entries), input, ContextThreshold(), tools,
                                   context.currentTurnId, context.branchedFrom)
      ensures answered == Answered(old(context.entries), input, ContextThreshold(),
                                   context.currentTurnId, context.branchedFrom)
      ensures sidecar == if resumable && TurnHalts(old(context.entries), input, ContextThreshold(), tools,
                                                   context.currentTurnId, context.branchedFrom)
                         then Some(ToolCall(input.completion.value.toolCalls[0].name,
                                            input.completion.value.toolCalls[0].arguments))
                         else old(sidecar)
      ensures Kept(context.entries, issued) && issued == old(issued) + FreshIds(input)
      ensures old(Ready()) ==> Valid()
      ensures Wellformed(requests, context.limits.hardLimitTokens)
      ensures requests == TurnRequests(old(context.entries), input, ContextThreshold(), substantive,
                                       context.currentTurnId, context.branchedFrom, context.limits.hardLimitTokens, show)
      ensures report == TurnReport(old(context.entries), input, ContextThreshold(), substantive,
                                   context.currentTurnId, context.branchedFrom)
    {
      ghost var es, threshold, turnId, from :=
        context.entries, ContextThreshold(), NextTurnId(), context.branchedFrom;
      ReadyLogKept(es, input, threshold, substantive, turnId, from, issued);
      TurnKeepsLog(es, input, threshold, substantive, tools, turnId, from, issued);
      ghost var halts, seen := TurnHalts(es, input, threshold, tools, turnId, from), issued;
      requests, result, answered := [], TurnErr(false), false;
      var ready;
      ready, report := PrepareTurn(input);
      if ready {
        requests := SendRequest();
        if input.completion.Some? {
          answered := true;
          result := RecordAnswer(input.completion.value, input.outcomes, input.cost);
        }
      }
      issued := issued + FreshIds(input);
      assert context.entries == TurnLog(es, input, threshold, substantive, tools, turnId, from);
      if old(Ready()) {
        TurnAccounts(es, input, threshold, substantive, tools, turnId, from, seen, sidecar, resumable);
      }
    }

    // One turn. A turn that gets an answer passes through Executing; it ends in the done
    // phase exactly when its outcome is done, and in Verifying otherwise. asked and ready
    // are its log with the user's words, and as it was sent.
    method RunTurn(input: TurnInput, run: RunState, ghost bound: nat, ghost from: Phase)
      returns (result: TurnResult, after: RunState, ghost asked: seq<Entry>, ghost ready: seq<Entry>,
               ghost sent: seq<seq<Message>>)
      requires Ready() && DistinctIds(input) && FreshIds(input) !! issued
      requires Sound(run, bound, from, phase, context.limits.hardLimitTokens)
      modifies this`phase, this`sidecar, this`issued, context`entries, context`currentTurnId
      ensures Valid() && issued == old(issued) + FreshIds(input)
      ensures context.currentTurnId == old(NextTurnId())
      ensures context.entries == TurnLog(old(context.entries), input, ContextThreshold(), substantive, tools,
                                         context.currentTurnId, context.branchedFrom)
      ensures AskedMeans(old(context.entries), asked, input, context.currentTurnId, context.branchedFrom)
      ensures TurnMeans(asked, ready, context.entries, input, ContextThreshold(), substantive, tools,
                        context.currentTurnId, context.branchedFrom)
      ensures Sends(asked, ready, sent, input, ContextThreshold(), context.limits.hardLimitTokens, show)
      ensures after.requests == run.requests + sent
      ensures if |sent| > 0 && input.completion.Some?
              then AnswerMeans(result, input.completion.value, input.outcomes, tools, input.cost)
              else result == TurnErr(false)
      ensures sidecar.Some? ==>
        result == TurnErr(true) && SingleCall(input, tools)
        && sidecar.value.name == input.completion.value.toolCalls[0].name
        && sidecar.value.arguments == input.completion.value.toolCalls[0].arguments
      ensures result == TurnErr(true) ==> (sidecar.Some? <==> resumable && SingleCall(input, tools))
      ensures result.TurnOk? ==> (result.outcome.done <==> phase == PhaseDone)
      ensures Sound(after, bound, from, phase, context.limits.hardLimitTokens)
      ensures after.turns == run.turns && after.cost == run.cost
      ensures LastStarted(after.trace) == LastStarted(run.trace) && Endings(after.trace) == Endings(run.trace)
      ensures Resumed(after.trace) == Resumed(run.trace)
      ensures Shrunk(after.trace)
           == (Shrunk(run.trace) || (CompactionDue(asked, input, ContextThreshold()) && input.hookOk))
    {
      ghost var es, threshold, turnId, branch :=
        context.entries, ContextThreshold(), NextTurnId(), context.branchedFrom;
      asked, ready := Asked(es, input, turnId, branch), ReadyLog(es, input, threshold, substantive, turnId, branch);
      ApprovalHaltsIff(es, input, threshold, tools, turnId, branch);
      TurnLogMeans(es, input, threshold, substantive, tools, turnId, branch);
      TurnReturnMeans(es, input, threshold, substantive, tools, turnId, branch, context.limits.hardLimitTokens, show);
      var requests, answered, report;
      result, requests, answered, report := RecordTurn(input);
      sent := requests;
      after := ShowTurn(run, requests, report, answered, result, bound, from);
    }

    // The events of a turn: the report of a compaction and the phases it passes through.
    method ShowTurn(run: RunState, requests: seq<seq<Message>>, report: seq<RunEvent>, answered: bool,
                    result: TurnResult, ghost bound: nat, ghost from: Phase)
      returns (after: RunState)
      requires Sound(run, bound, from, phase, context.limits.hardLimitTokens)
      requires Wellformed(requests, context.limits.hardLimitTokens)
      requires |report| <= 1 && (report != [] ==> report[0].CompactionReported?)
      modifies this`phase
      ensures result.TurnOk? ==> phase == if result.outcome.done then PhaseDone else Verifying
      ensures Sound(after, bound, from, phase, context.limits.hardLimitTokens)
      ensures after.turns == run.turns && after.cost == run.cost && after.requests == run.requests + requests
      ensures LastStarted(after.trace) == LastStarted(run.trace) && Endings(after.trace) == Endings(run.trace)
      ensures Resumed(after.trace) == Resumed(run.trace)
      ensures Shrunk(after.trace) == (Shrunk(run.trace) || report != [])
    {
      after := run.(requests := run.requests + requests);
      if report != [] {
        EmitSound(after, report[0], bound, from, phase, context.limits.hardLimitTokens);
        EmitTurns(after, report[0]);
        after := Emit(after, report[0]);
      }
      if answered {
        after := TransitionPhase(after, Executing, bound, from);
      }
      if result.TurnOk? {
        after := TransitionPhase(after, if result.outcome.done then PhaseDone else Verifying, bound, from);
      }
    }

    // PendingResumePolicy::pre_turn: takes the pending call from the sidecar and runs it.
    method ResumePending(outcome: ToolOutcome)
      requires Valid()
      modifies this`sidecar, context`entries
      ensures Ready()
      ensures old(sidecar).Some? && resumable ==> OpenCalls(context.entries) == {}
      ensures context.entries == old(context.entries)
           + if old(sidecar).None? then []
             else StampedAll(old(ResumedEntries(context.entries, sidecar.value, outcome, tools)),
                             context.currentTurnId, context.branchedFrom)
    {
      if sidecar.None? {
        return;
      }
      var held := sidecar.value;
      sidecar := None;
      ghost var before, turnId, from := context.entries, context.currentTurnId, context.branchedFrom;
      ResumedStamps(before, held, outcome, tools, turnId, from);
      CloseHeld(held, outcome);
      if !outcome.Ran? {
        AppendNoteEntry(PlanReminder, FailedResume(held.name));
      }
    }

    // append_pending_resume_observation
    method CloseHeld(held: ToolCall, outcome: ToolOutcome)
      requires Kept(context.entries, issued)
      modifies context`entries
      ensures Kept(context.entries, issued)
      ensures OpenCalls(context.entries) <= OpenCalls(old(context.entries))
      ensures Paused(old(context.entries)) ==> OpenCalls(context.entries) == {}
      ensures context.entries == old(context.entries)
           + [Stamped(old(ResumeEntry(context.entries, held, outcome, tools)), context.currentTurnId, context.branchedFrom)]
    {
      var call := Invocation("", held.name, held.arguments);
      var observation, reminder := tools.observe(call, outcome), "[resume] Operator approved " + call.name;
      ResumeKeepsLog(context.entries, observation, reminder, context.currentTurnId, context.branchedFrom, issued);
      var id := LatestUnansweredToolCallId(context.entries);
      var e := match id case Some(x) => ToolResult(x, observation) case None => Trusted(PlanReminder, reminder);
      assert StampedAll(ResumeTail(context.entries, observation, reminder),
                        context.currentTurnId, context.branchedFrom)
          == [Stamped(e, context.currentTurnId, context.branchedFrom)];
      context.Append(e);
    }
  }
}
