// The run loop over an agent, against arbitrary providers, tools and policies.
module Driver {
  import opened Options
  import opened Protocol
  import opened Conversation
  import opened Turns
  import opened ContextLog
  import opened Sessions
  import opened RunEvents
  import opened TurnMeaning
  import opened Agent

  // The verdict of a policy chain, or the error it failed with.
  datatype Verdict = Errs | Continue | SkipTurn | Retry | Stop(reason: StopReason, message: Option<string>)

  // One dispatch of the policy chain: the reminders it appends, the phase it moves to,
  // the cost it adds, and its verdict.
  datatype Dispatch = Dispatch(reminders: seq<string>, phase: Option<Phase>, cost: real, verdict: Verdict)

  // Everything the world answers during one iteration of the loop.
  datatype Oracle = Oracle(
    peers: seq<string>, cancelled: bool, agentsMd: Option<string>, resume: ToolOutcome, pre: Dispatch,
    turn: TurnInput, cancelledOnError: bool, onError: Dispatch, abortHookOk: bool,
    post: Dispatch, onDone: Dispatch)

  datatype Flow = Proceed | NextTurn | Exit(reason: StopReason) | Fail

  predicate Interrupts(d: Dispatch) {
    d.verdict.Stop? ==> d.verdict.reason == Interrupted
  }

  // The policies of the repository stop a run in one way only.
  predicate PoliciesInterrupt(o: Oracle) {
    Interrupts(o.pre) && Interrupts(o.onError) && Interrupts(o.post) && Interrupts(o.onDone)
  }

  // No id is issued twice, neither within a response nor across responses.
  ghost predicate FreshFrom(oracle: nat -> Oracle, i: nat, issued: set<CallId>) {
    && (forall j: nat | i <= j :: DistinctIds(oracle(j).turn) && FreshIds(oracle(j).turn) !! issued)
    && (forall j: nat, k: nat | i <= j < k :: FreshIds(oracle(j).turn) !! FreshIds(oracle(k).turn))
  }

  predicate RunSound(run: RunState, bound: nat, from: Phase, agent: HarnessAgent)
    reads agent
  {
    Sound(run, bound, from, agent.phase, agent.context.limits.hardLimitTokens)
  }

  method Say(agent: HarnessAgent, run: RunState, e: RunEvent, ghost bound: nat, ghost from: Phase)
    returns (after: RunState)
    requires RunSound(run, bound, from, agent)
    requires !e.TurnStarted? && !e.PhaseChanged? && !e.Finished?
    requires e.TurnEnded? ==> LastStarted(run.trace) == Some(e.turnIndex)
    ensures after == Emit(run, e) && RunSound(after, bound, from, agent)
    ensures LastStarted(after.trace) == LastStarted(run.trace)
    ensures Endings(after.trace) == if e.TurnEnded? then Endings(run.trace) + [e.success] else Endings(run.trace)
    ensures Resumed(after.trace) == (e.ResumeStarted? || Resumed(run.trace))
    ensures Shrunk(after.trace) == (e.CompactionReported? || Shrunk(run.trace))
  {
    EmitSound(run, e, bound, from, agent.phase, agent.context.limits.hardLimitTokens);
    EmitTurns(run, e);
    after := Emit(run, e);
  }

  function Reminders(texts: seq<string>): (notes: seq<Entry>)
    ensures |notes| == |texts|
  {
    seq(|texts|, i requires 0 <= i < |texts| => Trusted(PlanReminder, texts[i]))
  }

  method Remind(agent: HarnessAgent, texts: seq<string>)
    requires agent.Valid()
    modifies agent.context`entries
    ensures agent.Valid()
    ensures agent.context.entries == old(agent.context.entries)
         + StampedAll(Reminders(texts), agent.context.currentTurnId, agent.context.branchedFrom)
  {
    ghost var turnId, from := agent.context.currentTurnId, agent.context.branchedFrom;
    ghost var notes := [];
    for i := 0 to |texts|
      invariant agent.Valid() && notes == StampedAll(Reminders(texts[..i]), turnId, from)
      invariant agent.context.entries == old(agent.context.entries) + notes
    {
      RemindersStep(texts, i, turnId, from);
      agent.AppendNoteEntry(PlanReminder, texts[i]);
      notes := notes + [Stamped(Trusted(PlanReminder, texts[i]), turnId, from)];
    }
    assert texts[..|texts|] == texts;
  }

  lemma RemindersStep(texts: seq<string>, i: nat, turnId: nat, from: Option<nat>)
    requires i < |texts|
    ensures StampedAll(Reminders(texts[..i + 1]), turnId, from)
         == StampedAll(Reminders(texts[..i]), turnId, from) + [Stamped(Trusted(PlanReminder, texts[i]), turnId, from)]
  {
  }

  lemma RemindersOnly(es: seq<Entry>, texts: seq<string>, turnId: nat, from: Option<nat>)
    ensures OnlyNotes(es, es + StampedAll(Reminders(texts), turnId, from))
  {
    StampedNoneOfUser(Reminders(texts), turnId, from);
    NotesAdded(es, StampedAll(Reminders(texts), turnId, from));
  }

  // Runs one dispatch of the policy chain.
  method Consult(agent: HarnessAgent, d: Dispatch, run: RunState, ghost bound: nat, ghost from: Phase)
    returns (after: RunState)
    requires agent.Valid() && RunSound(run, bound, from, agent)
    modifies agent`phase, agent.context`entries
    ensures agent.Valid() && RunSound(after, bound, from, agent)
    ensures agent.context.entries == old(agent.context.entries)
         + StampedAll(Reminders(d.reminders), agent.context.currentTurnId, agent.context.branchedFrom)
    ensures agent.phase == (match d.phase case Some(p) => p case None => old(agent.phase))
    ensures after.turns == run.turns && after.requests == run.requests && after.cost == run.cost + d.cost
    ensures SameTurns(run.trace, after.trace)
  {
    Remind(agent, d.reminders);
    after := run;
    if d.phase.Some? {
      after := agent.TransitionPhase(run, d.phase.value, bound, from);
    }
    after := after.(cost := run.cost + d.cost);
  }

  // The message of a stop is shown as a recovery event.
  method Announce(agent: HarnessAgent, message: Option<string>, run: RunState, ghost bound: nat, ghost from: Phase)
    returns (after: RunState)
    requires RunSound(run, bound, from, agent)
    ensures RunSound(after, bound, from, agent) && after.turns == run.turns
    ensures after.requests == run.requests && after.cost == run.cost
    ensures SameTurns(run.trace, after.trace)
    ensures after.trace == run.trace + match message case Some(text) => [Recovery(text)] case None => []
  {
    after := run;
    if message.Some? {
      after := Say(agent, run, Recovery(message.value), bound, from);
    }
  }

  // The log of an iteration up to its turn: messages of peers, then AGENTS.md when it has
  // changed, then in the first iteration the resumption of a held call, then reminders.
  function Opening(es: seq<Entry>, i: nat, o: Oracle, held: Option<ToolCall>, tools: Tools,
                   turnId: nat, from: Option<nat>): seq<Entry>
  {
    var told := es + StampedAll(Reminders(o.peers), turnId, from);
    if o.cancelled then told
    else
      var noted := told + StampedAll(AgentsMdNotes(o), turnId, from);
      AfterHeld(noted, i, o, held, tools, turnId, from) + StampedAll(Reminders(o.pre.reminders), turnId, from)
  }

  function AgentsMdNotes(o: Oracle): seq<Entry> {
    match o.agentsMd case None => [] case Some(text) => [Trusted(PlanReminder, text)]
  }

  function AfterHeld(es: seq<Entry>, i: nat, o: Oracle, held: Option<ToolCall>, tools: Tools,
                     turnId: nat, from: Option<nat>): seq<Entry>
  {
    if i == 0 && held.Some? then es + StampedAll(ResumedEntries(es, held.value, o.resume, tools), turnId, from) else es
  }

  // Reminders with these texts, in order.
  predicate AreReminders(notes: seq<Entry>, texts: seq<string>) {
    |notes| == |texts| && forall i | 0 <= i < |texts| :: IsWords(notes[i], PlanReminder, texts[i])
  }

  function MdTexts(o: Oracle): seq<string> {
    match o.agentsMd case None => [] case Some(text) => [text]
  }

  // What an iteration puts on the log before its turn, by texts: the messages of peers,
  // and unless it is cancelled AGENTS.md when it has changed, in the first iteration the
  // resumption of a held call, and the reminders of the policies.
  lemma OpeningMeans(es: seq<Entry>, i: nat, o: Oracle, held: Option<ToolCall>, tools: Tools,
                     turnId: nat, from: Option<nat>)
    returns (first: seq<Entry>, resumed: seq<Entry>, last: seq<Entry>)
    ensures Opening(es, i, o, held, tools, turnId, from)
         == es + StampedAll(first, turnId, from) + StampedAll(resumed, turnId, from) + StampedAll(last, turnId, from)
    ensures AreReminders(first, if o.cancelled then o.peers else o.peers + MdTexts(o))
    ensures AreReminders(last, if o.cancelled then [] else o.pre.reminders)
    ensures resumed == if !o.cancelled && i == 0 && held.Some?
                       then ResumedEntries(es + StampedAll(first, turnId, from), held.value, o.resume, tools)
                       else []
  {
    first, resumed, last := Reminders(o.peers), [], [];
    if o.cancelled {
      assert StampedAll([], turnId, from) == [];
      assert Opening(es, i, o, held, tools, turnId, from) == es + StampedAll(first, turnId, from);
      return;
    }
    first := Reminders(o.peers) + AgentsMdNotes(o);
    StampedConcat(Reminders(o.peers), AgentsMdNotes(o), turnId, from);
    var noted := es + StampedAll(Reminders(o.peers), turnId, from) + StampedAll(AgentsMdNotes(o), turnId, from);
    assert noted == es + StampedAll(first, turnId, from);
    if i == 0 && held.Some? {
      resumed := ResumedEntries(noted, held.value, o.resume, tools);
    } else {
      assert noted + StampedAll([], turnId, from) == noted;
    }
    last := Reminders(o.pre.reminders);
  }

  lemma StampedConcat(a: seq<Entry>, b: seq<Entry>, turnId: nat, from: Option<nat>)
    ensures StampedAll(a + b, turnId, from) == StampedAll(a, turnId, from) + StampedAll(b, turnId, from)
  {
  }

  lemma ResumedOnly(es: seq<Entry>, held: ToolCall, outcome: ToolOutcome, tools: Tools, turnId: nat, from: Option<nat>)
    ensures OnlyNotes(es, es + StampedAll(ResumedEntries(es, held, outcome, tools), turnId, from))
  {
    var resumed := ResumedEntries(es, held, outcome, tools);
    StampedNoneOfUser(resumed, turnId, from);
    NotesAdded(es, StampedAll(resumed, turnId, from));
  }

  // What an iteration puts on the log before its turn is no words of the user's.
  lemma OpeningOnly(es: seq<Entry>, i: nat, o: Oracle, held: Option<ToolCall>, tools: Tools,
                    turnId: nat, from: Option<nat>)
    ensures OnlyNotes(es, Opening(es, i, o, held, tools, turnId, from))
  {
    var told := es + StampedAll(Reminders(o.peers), turnId, from);
    RemindersOnly(es, o.peers, turnId, from);
    if !o.cancelled {
      var noted := told + StampedAll(AgentsMdNotes(o), turnId, from);
      NotesAdded(told, StampedAll(AgentsMdNotes(o), turnId, from));
      if i == 0 && held.Some? {
        ResumedOnly(noted, held.value, o.resume, tools, turnId, from);
      }
      RemindersOnly(AfterHeld(noted, i, o, held, tools, turnId, from), o.pre.reminders, turnId, from);
    }
  }

  // What comes before the policies of an iteration that is not cancelled.
  method OpenIteration(agent: HarnessAgent, i: nat, o: Oracle, run: RunState, ghost from: Phase)
    returns (after: RunState)
    requires agent.Valid() && RunSound(run, i, from, agent)
    requires i > 0 ==> agent.Ready()
    modifies agent`sidecar, agent.context`entries
    ensures agent.Ready() && RunSound(after, i, from, agent) && Shrunk(after.trace) == Shrunk(run.trace)
    ensures agent.context.entries
         == AfterHeld(old(agent.context.entries) + StampedAll(AgentsMdNotes(o), agent.context.currentTurnId,
                                                              agent.context.branchedFrom),
                      i, o, old(agent.sidecar), agent.tools, agent.context.currentTurnId, agent.context.branchedFrom)
    ensures after.turns == run.turns && after.requests == run.requests
    ensures after.cost == run.cost && LastStarted(after.trace) == LastStarted(run.trace)
    ensures Endings(after.trace) == Endings(run.trace)
    ensures Resumed(after.trace) == (Resumed(run.trace) || (i == 0 && old(agent.sidecar).Some?))
  {
    after := run;
    if o.agentsMd.Some? {
      agent.AppendNoteEntry(PlanReminder, o.agentsMd.value);
    }
    ghost var notes := StampedAll(AgentsMdNotes(o), agent.context.currentTurnId, agent.context.branchedFrom);
    assert agent.context.entries == old(agent.context.entries) + notes;
    if i == 0 {
      if agent.sidecar.Some? {
        after := Say(agent, run, ResumeStarted(agent.sidecar.value.name), i, from);
      }
      agent.ResumePending(o.resume);
    }
  }

  // What an iteration does before its turn: the messages of peers, and unless it is
  // cancelled then, the rest of the opening and the policies.
  method MeetIteration(agent: HarnessAgent, i: nat, o: Oracle, run: RunState, ghost from: Phase)
    returns (after: RunState)
    requires agent.Valid() && RunSound(run, i, from, agent)
    requires i > 0 ==> agent.Ready()
    modifies agent`phase, agent`sidecar, agent.context`entries
    ensures agent.Valid() && RunSound(after, i, from, agent) && Shrunk(after.trace) == Shrunk(run.trace)
    ensures agent.sidecar == if o.cancelled then old(agent.sidecar) else None
    ensures agent.context.entries
         == Opening(old(agent.context.entries), i, o, old(agent.sidecar), agent.tools,
                    agent.context.currentTurnId, agent.context.branchedFrom)
    ensures after.turns == run.turns && after.requests == run.requests && LastStarted(after.trace) == LastStarted(run.trace)
    ensures after.cost == run.cost + if o.cancelled then 0.0 else o.pre.cost
    ensures Endings(after.trace) == Endings(run.trace)
    ensures Resumed(after.trace)
         == (Resumed(run.trace) || (i == 0 && !o.cancelled && old(agent.sidecar).Some?))
    ensures o.cancelled ==> after.trace == run.trace + [InterruptedAt("turn_start")]
  {
    after := run;
    Remind(agent, o.peers);
    if o.cancelled {
      after := Say(agent, run, InterruptedAt("turn_start"), i, from);
      return;
    }
    after := OpenIteration(agent, i, o, after, from);
    after := Consult(agent, o.pre, after, i, from);
  }

  // The start of an iteration. Its turn is run exactly when nothing cancels it and the
  // policies let it go on. It is left out when they skip it or ask for a retry, which goes
  // on to the next one.
  method BeginIteration(agent: HarnessAgent, i: nat, o: Oracle, run: RunState, ghost from: Phase)
    returns (flow: Flow, after: RunState)
    requires agent.Valid() && RunSound(run, i, from, agent)
    requires i > 0 ==> agent.Ready()
    modifies agent`phase, agent`sidecar, agent.context`entries
    ensures agent.Valid() && RunSound(after, if flow.Proceed? then i else i + 1, from, agent)
    ensures Shrunk(after.trace) == Shrunk(run.trace)
    ensures flow == Proceed <==> !o.cancelled && o.pre.verdict == Continue
    ensures flow == NextTurn <==> !o.cancelled && (o.pre.verdict == SkipTurn || o.pre.verdict == Retry)
    ensures flow == Fail <==> !o.cancelled && o.pre.verdict == Errs
    ensures o.cancelled ==> flow == Exit(Interrupted)
    ensures !o.cancelled && o.pre.verdict.Stop? ==> flow == Exit(o.pre.verdict.reason)
    ensures agent.sidecar == if o.cancelled then old(agent.sidecar) else None
    ensures OnlyNotes(old(agent.context.entries), agent.context.entries)
    ensures after.turns == run.turns && after.requests == run.requests && LastStarted(after.trace) == LastStarted(run.trace)
    ensures after.cost == run.cost + if o.cancelled then 0.0 else o.pre.cost
    ensures Endings(after.trace) == Endings(run.trace)
    ensures Resumed(after.trace)
         == (Resumed(run.trace) || (i == 0 && !o.cancelled && old(agent.sidecar).Some?))
  {
    OpeningOnly(agent.context.entries, i, o, agent.sidecar, agent.tools,
                agent.context.currentTurnId, agent.context.branchedFrom);
    after := MeetIteration(agent, i, o, run, from);
    if o.cancelled {
      OrderlyMono(after.trace, i, i + 1);
      return Exit(Interrupted), after;
    }
    match o.pre.verdict {
      case Errs => flow := Fail;
      case Continue => flow := Proceed;
      case SkipTurn => flow := NextTurn;
      case Retry => flow := NextTurn;
      case Stop(reason, message) =>
        after := Announce(agent, message, after, i, from);
        flow := Exit(reason);
    }
    if !flow.Proceed? {
      OrderlyMono(after.trace, i, i + 1);
    }
  }

  // A turn that returned an error.
  method HandleError(agent: HarnessAgent, i: nat, o: Oracle, approval: bool, run: RunState, ghost from: Phase)
    returns (flow: Flow, after: RunState)
    requires agent.Valid() && RunSound(run, i + 1, from, agent)
    modifies agent`phase, agent.context`entries
    ensures agent.Valid() && RunSound(after, i + 1, from, agent)
    ensures after.turns == run.turns && after.requests == run.requests && SameTurns(run.trace, after.trace)
    ensures OnlyNotes(old(agent.context.entries), agent.context.entries)
    ensures approval ==> flow == Exit(ApprovalRequired) && after == run
    ensures !approval && o.cancelledOnError ==>
      flow == Exit(Interrupted) && after == Emit(run, InterruptedAt("turn_error"))
    ensures approval || o.cancelledOnError ==>
      agent.phase == old(agent.phase) && agent.context.entries == old(agent.context.entries)
    ensures !approval && !o.cancelledOnError ==>
      && flow == (match o.onError.verdict
                  case Errs => Fail
                  case Stop(reason, message) => if message.Some? && !o.abortHookOk then Fail else Exit(reason)
                  case _ => NextTurn)
      && after.cost == run.cost + o.onError.cost
      && agent.context.entries == old(agent.context.entries)
           + StampedAll(Reminders(o.onError.reminders), agent.context.currentTurnId, agent.context.branchedFrom)
  {
    after := run;
    RemindersOnly(agent.context.entries, o.onError.reminders, agent.context.currentTurnId, agent.context.branchedFrom);
    if approval {
      return Exit(ApprovalRequired), after;
    }
    if o.cancelledOnError {
      after := Say(agent, run, InterruptedAt("turn_error"), i + 1, from);
      return Exit(Interrupted), after;
    }
    after := Consult(agent, o.onError, after, i + 1, from);
    match o.onError.verdict {
      case Errs => flow := Fail;
      case Stop(reason, message) =>
        if message.Some? && !o.abortHookOk {
          return Fail, after;
        }
        after := Announce(agent, message, after, i + 1, from);
        flow := Exit(reason);
      case _ => flow := NextTurn;
    }
  }

  // A turn that said it is done: final unless a policy vetoes it.
  method HandleDone(agent: HarnessAgent, i: nat, o: Oracle, run: RunState, ghost from: Phase)
    returns (flow: Flow, after: RunState)
    requires agent.Ready() && RunSound(run, i + 1, from, agent)
    modifies agent`phase, agent.context`entries
    ensures agent.Ready() && RunSound(after, i + 1, from, agent)
    ensures after.turns == run.turns && after.requests == run.requests && SameTurns(run.trace, after.trace)
    ensures after.cost == run.cost + o.onDone.cost
    ensures agent.context.entries == old(agent.context.entries)
         + StampedAll(Reminders(o.onDone.reminders), agent.context.currentTurnId, agent.context.branchedFrom)
    ensures OnlyNotes(old(agent.context.entries), agent.context.entries)
    ensures flow == match o.onDone.verdict
                    case Errs => Fail
                    case Continue => Exit(Done)
                    case Stop(reason, _) => Exit(reason)
                    case _ => NextTurn
  {
    RemindersOnly(agent.context.entries, o.onDone.reminders, agent.context.currentTurnId, agent.context.branchedFrom);
    after := Consult(agent, o.onDone, run, i + 1, from);
    match o.onDone.verdict {
      case Errs => flow := Fail;
      case Continue => flow := Exit(Done);
      case SkipTurn => flow := NextTurn;
      case Retry => flow := NextTurn;
      case Stop(reason, message) =>
        after := Announce(agent, message, after, i + 1, from);
        flow := Exit(reason);
    }
  }

  // The verdicts after a turn that let the loop go on to look at its outcome.
  predicate Passes(v: Verdict) {
    v.Continue? || v.Retry?
  }

  predicate AnsweredDone(input: TurnInput, tools: Tools) {
    input.completion.Some? && EndsDone(input.completion.value, input.outcomes, tools)
  }

  // What justifies the way the run left iteration i.
  predicate Justified(flow: Flow, o: Oracle, run: RunState, budget: real, tools: Tools) {
    flow.Exit? ==>
      match flow.reason
      case Done =>
        run.turns != [] && run.turns[|run.turns| - 1].done && AnsweredDone(o.turn, tools) && o.onDone.verdict == Continue
      case Budget => budget > 0.0 && run.cost >= budget
      case MaxTurns => false
      case Interrupted => AsksToStop(o)
      case ApprovalRequired => SeeksApproval(o.turn)
  }

  // Shows how a turn ended and runs the policies that follow it.
  method ReportTurn(agent: HarnessAgent, i: nat, o: Oracle, outcome: TurnOutcome, run: RunState, ghost from: Phase)
    returns (after: RunState)
    requires agent.Ready() && RunSound(run, i + 1, from, agent) && LastStarted(run.trace) == Some(i)
    modifies agent`phase, agent.context`entries
    ensures agent.Ready() && RunSound(after, i + 1, from, agent)
    ensures after.turns == run.turns && after.requests == run.requests && after.cost == run.cost + outcome.cost + o.post.cost
    ensures agent.context.entries == old(agent.context.entries)
         + StampedAll(Reminders(o.post.reminders), agent.context.currentTurnId, agent.context.branchedFrom)
    ensures OnlyNotes(old(agent.context.entries), agent.context.entries)
    ensures LastStarted(after.trace) == LastStarted(run.trace)
    ensures Endings(after.trace) == Endings(run.trace) + [outcome.success] && Resumed(after.trace) == Resumed(run.trace)
    ensures Shrunk(after.trace) == Shrunk(run.trace)
  {
    RemindersOnly(agent.context.entries, o.post.reminders, agent.context.currentTurnId, agent.context.branchedFrom);
    after := run.(cost := run.cost + outcome.cost);
    after := Say(agent, after, UsageUpdated(after.cost), i + 1, from);
    after := Say(agent, after, TurnEnded(i, outcome.success), i + 1, from);
    after := Consult(agent, o.post, after, i + 1, from);
  }

  // A turn that is not done: the budget decides.
  method HandleUndone(agent: HarnessAgent, i: nat, budget: real, run: RunState, ghost from: Phase)
    returns (flow: Flow, after: RunState)
    requires agent.Ready() && RunSound(run, i + 1, from, agent)
    modifies agent`phase, agent.context`entries
    ensures agent.Ready() && RunSound(after, i + 1, from, agent)
    ensures after.turns == run.turns && after.requests == run.requests
    ensures after.cost == run.cost && SameTurns(run.trace, after.trace)
    ensures flow == if budget > 0.0 && after.cost >= budget then Exit(Budget) else NextTurn
    ensures flow == Exit(Budget) ==> agent.phase == Recovering
    ensures agent.context.entries == old(agent.context.entries)
         + if flow == Exit(Budget)
           then [Stamped(Trusted(PlanReminder, "budget exceeded"), agent.context.currentTurnId, agent.context.branchedFrom)]
           else []
    ensures OnlyNotes(old(agent.context.entries), agent.context.entries)
  {
    after := run;
    if budget > 0.0 && run.cost >= budget {
      after := agent.TransitionPhase(run, Recovering, i + 1, from);
      NotesAdded(agent.context.entries, [Stamped(Trusted(PlanReminder, "budget exceeded"),
                                                 agent.context.currentTurnId, agent.context.branchedFrom)]);
      agent.AppendNoteEntry(PlanReminder, "budget exceeded");
      return Exit(Budget), after;
    }
    flow := NextTurn;
  }

  // What the outcome of a turn decides when the policies let it stand.
  method ConcludeTurn(agent: HarnessAgent, i: nat, o: Oracle, outcome: TurnOutcome, budget: real,
                      run: RunState, ghost from: Phase)
    returns (flow: Flow, after: RunState)
    requires agent.Ready() && RunSound(run, i + 1, from, agent)
    modifies agent`phase, agent.context`entries
    ensures agent.Ready() && RunSound(after, i + 1, from, agent)
    ensures after.turns == run.turns && after.requests == run.requests
    ensures after.cost == run.cost + if outcome.done then o.onDone.cost else 0.0
    ensures SameTurns(run.trace, after.trace) && OnlyNotes(old(agent.context.entries), agent.context.entries)
    ensures flow == if outcome.done then
                      match o.onDone.verdict
                      case Errs => Fail
                      case Continue => Exit(Done)
                      case Stop(reason, _) => Exit(reason)
                      case _ => NextTurn
                    else if budget > 0.0 && after.cost >= budget then Exit(Budget)
                    else NextTurn
  {
    if outcome.done {
      flow, after := HandleDone(agent, i, o, run, from);
    } else {
      flow, after := HandleUndone(agent, i, budget, run, from);
    }
  }

  // A turn that produced an outcome. The run is done when the turn is, unless a policy
  // vetoes it; an undone turn ends it when the budget, a positive one, is used up.
  method HandleOutcome(agent: HarnessAgent, i: nat, o: Oracle, outcome: TurnOutcome, budget: real,
                       run: RunState, ghost from: Phase)
    returns (flow: Flow, after: RunState)
    requires agent.Ready() && RunSound(run, i + 1, from, agent) && LastStarted(run.trace) == Some(i)
    modifies agent`phase, agent.context`entries
    ensures agent.Ready() && RunSound(after, i + 1, from, agent)
    ensures after.turns == if o.post.verdict.Errs? then run.turns else run.turns + [outcome]
    ensures after.requests == run.requests
    ensures after.cost == run.cost + outcome.cost + o.post.cost
                        + if Passes(o.post.verdict) && outcome.done then o.onDone.cost else 0.0
    ensures LastStarted(after.trace) == LastStarted(run.trace) && Shrunk(after.trace) == Shrunk(run.trace)
    ensures Endings(after.trace) == Endings(run.trace) + [outcome.success] && Resumed(after.trace) == Resumed(run.trace)
    ensures OnlyNotes(old(agent.context.entries), agent.context.entries)
    ensures flow == match o.post.verdict
                    case Errs => Fail
                    case SkipTurn => NextTurn
                    case Stop(reason, _) => Exit(reason)
                    case _ =>
                      if outcome.done then
                        match o.onDone.verdict
                        case Errs => Fail
                        case Continue => Exit(Done)
                        case Stop(reason, _) => Exit(reason)
                        case _ => NextTurn
                      else if budget > 0.0 && after.cost >= budget then Exit(Budget)
                      else NextTurn
  {
    after := ReportTurn(agent, i, o, outcome, run, from);
    if o.post.verdict.Errs? {
      return Fail, after;
    }
    after := after.(turns := after.turns + [outcome]);
    if o.post.verdict.SkipTurn? {
      return NextTurn, after;
    }
    if o.post.verdict.Stop? {
      after := Announce(agent, o.post.verdict.message, after, i + 1, from);
      return Exit(o.post.verdict.reason), after;
    }
    flow, after := ConcludeTurn(agent, i, o, outcome, budget, after, from);
  }

  lemma FreshNext(oracle: nat -> Oracle, i: nat, issued: set<CallId>)
    requires FreshFrom(oracle, i, issued)
    ensures FreshFrom(oracle, i + 1, issued + FreshIds(oracle(i).turn))
  {
    forall j: nat | i + 1 <= j ensures FreshIds(oracle(j).turn) !! issued + FreshIds(oracle(i).turn) {
      assert FreshIds(oracle(i).turn) !! FreshIds(oracle(j).turn);
    }
  }

  // A turn that has the task as the user's words in the first iteration, and none in others.
  method AskTurn(agent: HarnessAgent, i: nat, given: TurnInput, task: string, run: RunState, ghost from: Phase)
    returns (result: TurnResult, after: RunState, ghost sent: seq<seq<Message>>)
    requires agent.Ready() && DistinctIds(given) && FreshIds(given) !! agent.issued
    requires RunSound(run, i + 1, from, agent)
    modifies agent, agent.context`entries, agent.context`currentTurnId
    ensures agent.Valid() && agent.issued == old(agent.issued) + FreshIds(given) && RunSound(after, i + 1, from, agent)
    ensures Took(old(agent.context.entries), agent.context.entries, sent, i, task, given, agent)
    ensures !Shrunk(after.trace) && given.hookOk ==>
      UserTexts(agent.context.entries) == old(UserTexts(agent.context.entries)) + if i == 0 then [task] else []
    ensures result.TurnOk? ==> OutcomeMeans(result.outcome, given, agent.tools)
    ensures result == TurnErr(true) ==> SeeksApproval(given)
    ensures agent.sidecar.Some? ==> result == TurnErr(true)
    ensures result == TurnErr(true) ==>
      (agent.sidecar.Some? <==> agent.resumable && SingleCall(given, agent.tools))
    ensures after.turns == run.turns && after.cost == run.cost && after.requests == run.requests + sent
    ensures LastStarted(after.trace) == LastStarted(run.trace) && Endings(after.trace) == Endings(run.trace)
    ensures Resumed(after.trace) == Resumed(run.trace) && (Shrunk(run.trace) ==> Shrunk(after.trace))
  {
    ghost var before, threshold := agent.context.entries, agent.ContextThreshold();
    var input := given.(userInput := if i == 0 then Some(task) else None);
    assert DistinctIds(input) && FreshIds(input) == FreshIds(given);
    assert SingleCall(input, agent.tools) == SingleCall(given, agent.tools);
    ghost var asked, ready;
    result, after, asked, ready, sent := agent.RunTurn(input, run, i + 1, from);
    TurnTaken(before, asked, ready, agent.context.entries, sent, i, task, given, input, result, threshold,
              agent.substantive, agent.tools, agent.context.currentTurnId, agent.context.branchedFrom,
              agent.context.limits.hardLimitTokens, agent.show);
  }

  // The turn of iteration i. Only an approval halt leaves a call in the sidecar.
  method TakeTurn(agent: HarnessAgent, i: nat, oracle: nat -> Oracle, task: string,
                  run: RunState, ghost from: Phase)
    returns (result: TurnResult, after: RunState, ghost sent: seq<seq<Message>>)
    requires agent.Ready() && FreshFrom(oracle, i, agent.issued) && RunSound(run, i + 1, from, agent)
    modifies agent, agent.context`entries, agent.context`currentTurnId
    ensures agent.Valid() && FreshFrom(oracle, i + 1, agent.issued) && RunSound(after, i + 1, from, agent)
    ensures Took(old(agent.context.entries), agent.context.entries, sent, i, task, oracle(i).turn, agent)
    ensures !Shrunk(after.trace) && oracle(i).turn.hookOk ==>
      UserTexts(agent.context.entries) == old(UserTexts(agent.context.entries)) + if i == 0 then [task] else []
    ensures result.TurnOk? ==> OutcomeMeans(result.outcome, oracle(i).turn, agent.tools)
    ensures result == TurnErr(true) ==> SeeksApproval(oracle(i).turn)
    ensures agent.sidecar.Some? ==> result == TurnErr(true)
    ensures result == TurnErr(true) ==>
      (agent.sidecar.Some? <==> agent.resumable && SingleCall(oracle(i).turn, agent.tools))
    ensures after.turns == run.turns && after.cost == run.cost && after.requests == run.requests + sent
    ensures LastStarted(after.trace) == LastStarted(run.trace) && Endings(after.trace) == Endings(run.trace)
    ensures Resumed(after.trace) == Resumed(run.trace) && (Shrunk(run.trace) ==> Shrunk(after.trace))
  {
    FreshNext(oracle, i, agent.issued);
    result, after, sent := AskTurn(agent, i, oracle(i).turn, task, run, from);
  }

  // What a turn means for its iteration: what it put on the log, and what its result says
  // of the answer.
  lemma TurnTaken(before: seq<Entry>, asked: seq<Entry>, ready: seq<Entry>, after: seq<Entry>,
                  sent: seq<seq<Message>>, i: nat, task: string,
                  given: TurnInput, input: TurnInput, result: TurnResult, threshold: nat,
                  substantive: string -> bool, tools: Tools, turnId: nat, from: Option<nat>,
                  limit: nat, show: Entry -> string)
    requires Sends(asked, ready, sent, input, threshold, limit, show)
    requires input == given.(userInput := if i == 0 then Some(task) else None)
    requires AskedMeans(before, asked, input, turnId, from)
    requires TurnMeans(asked, ready, after, input, threshold, substantive, tools, turnId, from)
    requires if |sent| > 0 && input.completion.Some?
             then AnswerMeans(result, input.completion.value, input.outcomes, tools, input.cost)
             else result == TurnErr(false)
    ensures TookTurn(before, after, sent, i, task, given, threshold, substantive, tools, turnId, from, limit, show)
    ensures !CompactionDue(asked, input, threshold) ==>
      UserTexts(after) == UserTexts(before) + if i == 0 then [task] else []
    ensures result.TurnOk? ==> OutcomeMeans(result.outcome, given, tools)
    ensures result == TurnErr(true) ==> SeeksApproval(given)
  {
    AskedOpens(before, asked, i, task, input, turnId, from);
    SameButForInput(asked, ready, after, given, input, threshold, substantive, tools, turnId, from);
    assert Sends(asked, ready, sent, given, threshold, limit, show);
    ApprovalWasSought(input, result, tools);
    if !CompactionDue(asked, input, threshold) {
      TurnAddsTask(before, asked, after, i, task, input, threshold, substantive, tools, turnId, from);
    }
  }

  // The turn of iteration i took the log from before to after.
  ghost predicate Took(before: seq<Entry>, after: seq<Entry>, sent: seq<seq<Message>>, i: nat, task: string,
                       input: TurnInput, agent: HarnessAgent)
    reads agent.context
  {
    TookTurn(before, after, sent, i, task, input, agent.ContextThreshold(), agent.substantive, agent.tools,
             agent.context.currentTurnId, agent.context.branchedFrom, agent.context.limits.hardLimitTokens, agent.show)
  }

  lemma SameButForInput(asked: seq<Entry>, ready: seq<Entry>, after: seq<Entry>, given: TurnInput, input: TurnInput,
                        threshold: nat, substantive: string -> bool, tools: Tools, turnId: nat, from: Option<nat>)
    requires given == input.(userInput := given.userInput)
    requires TurnMeans(asked, ready, after, input, threshold, substantive, tools, turnId, from)
    ensures TurnMeans(asked, ready, after, given, threshold, substantive, tools, turnId, from)
  {
  }

  method StartTurn(agent: HarnessAgent, i: nat, run: RunState, ghost from: Phase) returns (after: RunState)
    requires RunSound(run, i, from, agent)
    ensures RunSound(after, i + 1, from, agent) && after.turns == run.turns && after.requests == run.requests
    ensures after == Emit(run, TurnStarted(i)) && Shrunk(after.trace) == Shrunk(run.trace)
    ensures LastStarted(after.trace) == Some(i) && Endings(after.trace) == Endings(run.trace)
    ensures Resumed(after.trace) == Resumed(run.trace)
  {
    EmitSound(run, TurnStarted(i), i, from, agent.phase, agent.context.limits.hardLimitTokens);
    EmitTurns(run, TurnStarted(i));
    after := Emit(run, TurnStarted(i));
  }

  // The turns kept for the summary are those whose end was shown, in order.
  predicate Told(run: RunState) {
    Endings(run.trace) == Successes(run.turns)
  }

  // The turn of an iteration and what follows from it.
  method RunOneTurn(agent: HarnessAgent, i: nat, oracle: nat -> Oracle, task: string, budget: real,
                    run: RunState, ghost from: Phase)
    returns (flow: Flow, after: RunState, ghost sent: seq<seq<Message>>, ghost ending: Ending)
    requires agent.Ready() && RunSound(run, i, from, agent) && FreshFrom(oracle, i, agent.issued)
    requires Told(run)
    modifies agent, agent.context`entries, agent.context`currentTurnId
    ensures agent.Valid() && RunSound(after, i + 1, from, agent) && FreshFrom(oracle, i + 1, agent.issued)
    ensures !flow.Fail? ==> Told(after)
    ensures !flow.Proceed? && (flow.NextTurn? ==> agent.Ready())
    ensures agent.sidecar.Some? ==> flow == Exit(ApprovalRequired)
    ensures |after.turns| <= |run.turns| + 1
    ensures PoliciesInterrupt(oracle(i)) ==> Justified(flow, oracle(i), after, budget, agent.tools)
    ensures Runs(oracle(i)) ==> EndingMeans(ending, oracle(i), agent.tools)
    ensures after.cost == run.cost + TurnCost(ending, oracle(i))
    ensures after.turns == run.turns + TurnKept(ending, oracle(i))
    ensures after.requests == run.requests + sent
    // What the turn does to the log, and behind it notes of the policies.
    ensures exists taken :: Took(old(agent.context.entries), taken, sent, i, task, oracle(i).turn, agent)
                            && OnlyNotes(taken, agent.context.entries)
    ensures !Shrunk(after.trace) && oracle(i).turn.hookOk ==>
      UserTexts(agent.context.entries) == old(UserTexts(agent.context.entries)) + if i == 0 then [task] else []
    ensures PoliciesInterrupt(oracle(i)) && flow == Exit(ApprovalRequired) ==>
      (agent.sidecar.Some? <==> agent.resumable && SingleCall(oracle(i).turn, agent.tools))
    ensures LastStarted(after.trace) == Some(i) && Resumed(after.trace) == Resumed(run.trace)
    ensures Shrunk(run.trace) ==> Shrunk(after.trace)
  {
    after := StartTurn(agent, i, run, from);
    var result;
    result, after, sent := TakeTurn(agent, i, oracle, task, after, from);
    ghost var taken := agent.context.entries;
    ending := EndingOf(result);
    flow, after := FollowTurn(agent, i, oracle(i), result, budget, after, from);
    assert Took(old(agent.context.entries), taken, sent, i, task, oracle(i).turn, agent)
        && OnlyNotes(taken, agent.context.entries);
  }

  // How an iteration went: without a turn, or with one that had an outcome or an error.
  datatype Ending = NoTurn | Answered(outcome: TurnOutcome) | Failing(approval: bool)

  ghost predicate EndingMeans(e: Ending, o: Oracle, tools: Tools) {
    match e
    case NoTurn => !Runs(o)
    case Answered(outcome) => Runs(o) && OutcomeMeans(outcome, o.turn, tools)
    case Failing(approval) => Runs(o) && (approval ==> SeeksApproval(o.turn))
  }

  // What a turn that ended like this cost, with the policies that were asked about it.
  function TurnCost(e: Ending, o: Oracle): real {
    match e
    case NoTurn => 0.0
    case Answered(outcome) =>
      outcome.cost + o.post.cost + if Passes(o.post.verdict) && outcome.done then o.onDone.cost else 0.0
    case Failing(approval) => if approval || o.cancelledOnError then 0.0 else o.onError.cost
  }

  // The outcome that is kept of it.
  function TurnKept(e: Ending, o: Oracle): seq<TurnOutcome> {
    if e.Answered? && o.post.verdict != Errs then [e.outcome] else []
  }

  function EndingOf(result: TurnResult): Ending {
    match result case TurnOk(outcome) => Answered(outcome) case TurnErr(approval) => Failing(approval)
  }

  // What follows from the result of a turn.
  method FollowTurn(agent: HarnessAgent, i: nat, o: Oracle, result: TurnResult, budget: real, run: RunState, ghost from: Phase)
    returns (flow: Flow, after: RunState)
    requires agent.Valid() && RunSound(run, i + 1, from, agent) && Told(run) && LastStarted(run.trace) == Some(i)
    requires agent.sidecar.Some? ==> result == TurnErr(true)
    requires result.TurnOk? ==> OutcomeMeans(result.outcome, o.turn, agent.tools)
    requires result == TurnErr(true) ==> SeeksApproval(o.turn)
    modifies agent`phase, agent.context`entries
    ensures agent.Valid() && RunSound(after, i + 1, from, agent)
    ensures !flow.Fail? ==> Told(after)
    ensures !flow.Proceed? && (result == TurnErr(true) ==> flow == Exit(ApprovalRequired))
    ensures PoliciesInterrupt(o) && flow == Exit(ApprovalRequired) ==> result == TurnErr(true)
    ensures PoliciesInterrupt(o) ==> Justified(flow, o, after, budget, agent.tools)
    ensures |after.turns| <= |run.turns| + 1 && OnlyNotes(old(agent.context.entries), agent.context.entries)
    ensures after.cost == run.cost + TurnCost(EndingOf(result), o)
    ensures after.turns == run.turns + TurnKept(EndingOf(result), o)
    ensures after.requests == run.requests
    ensures LastStarted(after.trace) == LastStarted(run.trace) && Resumed(after.trace) == Resumed(run.trace)
    ensures Shrunk(after.trace) == Shrunk(run.trace)
  {
    match result {
      case TurnErr(approval) =>
        flow, after := HandleError(agent, i, o, approval, run, from);
      case TurnOk(outcome) =>
        SuccessesSnoc(run.turns, outcome);
        flow, after := HandleOutcome(agent, i, o, outcome, budget, run, from);
    }
  }

  lemma SuccessesSnoc(turns: seq<TurnOutcome>, outcome: TurnOutcome)
    ensures Successes(turns + [outcome]) == Successes(turns) + [outcome.success]
  {
  }

  // After an approval stop: a call is held exactly when the last turn ran it by itself.
  predicate HeldIff(agent: HarnessAgent, oracle: nat -> Oracle, run: RunState)
    reads agent
  {
    LastStarted(run.trace).Some?
    && (agent.sidecar.Some?
        <==> agent.resumable && SingleCall(oracle(LastStarted(run.trace).value).turn, agent.tools))
  }

  predicate Runs(o: Oracle) {
    !o.cancelled && o.pre.verdict == Continue
  }

  // The iteration is neither cancelled nor stopped before its turn.
  predicate Enters(o: Oracle) {
    !o.cancelled && (o.pre.verdict == Continue || o.pre.verdict == SkipTurn || o.pre.verdict == Retry)
  }

  // Something in the iteration asks for the run to be interrupted.
  predicate AsksToStop(o: Oracle) {
    o.cancelled || o.cancelledOnError || o.pre.verdict.Stop? || o.onError.verdict.Stop? || o.post.verdict.Stop?
    || o.onDone.verdict.Stop?
  }

  // One iteration of the loop.
  method RunIteration(agent: HarnessAgent, i: nat, oracle: nat -> Oracle, task: string, budget: real,
                      run: RunState, ghost from: Phase)
    returns (flow: Flow, after: RunState, ghost sent: seq<seq<Message>>, ghost ending: Ending)
    requires agent.Valid() && RunSound(run, i, from, agent) && FreshFrom(oracle, i, agent.issued)
    requires (i > 0 ==> agent.Ready()) && Told(run)
    modifies agent, agent.context`entries, agent.context`currentTurnId
    ensures agent.Valid() && RunSound(after, i + 1, from, agent)
    ensures !flow.Fail? ==> Told(after)
    ensures flow.NextTurn? ==> FreshFrom(oracle, i + 1, agent.issued)
    ensures !flow.Proceed? && (flow.NextTurn? ==> agent.Ready() && Enters(oracle(i)))
    ensures oracle(i).cancelled ==> flow == Exit(Interrupted) && agent.sidecar == old(agent.sidecar)
    ensures !oracle(i).cancelled && agent.sidecar.Some? ==> flow == Exit(ApprovalRequired)
    ensures Resumed(after.trace)
         == (Resumed(run.trace) || (i == 0 && !oracle(i).cancelled && old(agent.sidecar).Some?))
    ensures PoliciesInterrupt(oracle(i)) && flow == Exit(ApprovalRequired) ==> HeldIff(agent, oracle, after)
    ensures |after.turns| <= |run.turns| + 1
    ensures PoliciesInterrupt(oracle(i)) ==> Justified(flow, oracle(i), after, budget, agent.tools)
    // A turn is started exactly when nothing cancels it and the policies let it go on.
    ensures LastStarted(after.trace) == Some(i) <==> Runs(oracle(i))
    ensures Runs(oracle(i)) ==> exists met, taken ::
      OnlyNotes(old(agent.context.entries), met) && Took(met, taken, sent, i, task, oracle(i).turn, agent)
      && OnlyNotes(taken, agent.context.entries)
    ensures !Runs(oracle(i)) ==> OnlyNotes(old(agent.context.entries), agent.context.entries) && sent == []
    ensures after.requests == run.requests + sent
    ensures EndingMeans(ending, oracle(i), agent.tools)
    ensures after.cost == run.cost + IterationCost(ending, oracle(i))
    ensures after.turns == run.turns + TurnKept(ending, oracle(i))
    ensures !Shrunk(after.trace) && oracle(i).turn.hookOk ==>
      UserTexts(agent.context.entries)
      == old(UserTexts(agent.context.entries)) + if i == 0 && Runs(oracle(i)) then [task] else []
    ensures Shrunk(run.trace) ==> Shrunk(after.trace)
    ensures (flow == Exit(Done) || flow == Exit(ApprovalRequired)) && PoliciesInterrupt(oracle(i)) ==>
      LastStarted(after.trace) == Some(i)
  {
    StartedBelow(run.trace, i);
    flow, after := BeginIteration(agent, i, oracle(i), run, from);
    if flow.Proceed? {
      flow, after, sent, ending := RunOneTurn(agent, i, oracle, task, budget, after, from);
    } else {
      sent, ending := [], NoTurn;
      assert run.requests + [] == run.requests && run.turns + [] == run.turns;
      FreshSkip(oracle, i, agent.issued);
    }
  }

  lemma FreshSkip(oracle: nat -> Oracle, i: nat, issued: set<CallId>)
    requires FreshFrom(oracle, i, issued)
    ensures FreshFrom(oracle, i + 1, issued)
  {
  }

  predicate AllInterrupt(oracle: nat -> Oracle, maxTurns: nat) {
    forall i: nat | i < maxTurns :: PoliciesInterrupt(oracle(i))
  }

  // Why a finished run stopped: a done run ends with a done turn, one whose answer ends the
  // work, that no policy vetoed; a budget stop has used up a positive budget; an interrupted
  // run was asked to stop; one out of turns has entered all its iterations; one that waits
  // for approval had a call in its last turn that asked for it.
  predicate StopJustified(summary: Summary, run: RunState, oracle: nat -> Oracle, maxTurns: nat, budget: real,
                          tools: Tools)
  {
    match summary.stoppedReason
    case Done =>
      run.turns != [] && run.turns[|run.turns| - 1].done
      && LastStarted(run.trace).Some?
      && AnsweredDone(oracle(LastStarted(run.trace).value).turn, tools)
      && oracle(LastStarted(run.trace).value).onDone.verdict == Continue
    case Budget => budget > 0.0 && summary.cost >= budget
    case Interrupted => exists i: nat | i < maxTurns :: AsksToStop(oracle(i))
    case MaxTurns => forall i: nat | i < maxTurns :: Enters(oracle(i))
    case ApprovalRequired =>
      LastStarted(run.trace).Some? && SeeksApproval(oracle(LastStarted(run.trace).value).turn)
  }

  lemma StopIsJustified(flow: Flow, i: nat, run: RunState, oracle: nat -> Oracle, maxTurns: nat, budget: real,
                        tools: Tools)
    requires flow.Exit? && i < maxTurns
    ensures Justified(flow, oracle(i), run, budget, tools)
       && (flow == Exit(Done) || flow == Exit(ApprovalRequired) ==> LastStarted(run.trace) == Some(i))
       ==> StopJustified(Summary(run.turns, run.cost, flow.reason), run, oracle, maxTurns, budget, tools)
  {
  }

  predicate HooksPass(oracle: nat -> Oracle, n: nat) {
    forall i: nat | i < n :: oracle(i).turn.hookOk
  }

  // If no compaction ran, the user's words on the log are those before the run and, once
  // the first turn has started, the task.
  predicate Heard(es: seq<Entry>, run: RunState, oracle: nat -> Oracle, maxTurns: nat, said: seq<string>, task: string,
                  begun: bool)
  {
    !Shrunk(run.trace) && HooksPass(oracle, maxTurns) ==>
      UserTexts(es) == said + if begun && Runs(oracle(0)) then [task] else []
  }

  // What the loop keeps. held and said are the pending call and the user's words before it.
  ghost predicate Looping(agent: HarnessAgent, i: nat, run: RunState, oracle: nat -> Oracle, maxTurns: nat,
                          held: Option<ToolCall>, said: seq<string>, task: string, from: Phase)
    reads agent, agent.context
  {
    && agent.Valid() && RunSound(run, i, from, agent) && FreshFrom(oracle, i, agent.issued)
    && (i > 0 ==> agent.Ready() && !oracle(0).cancelled) && (i == 0 ==> agent.sidecar == held)
    && Resumed(run.trace) == (i > 0 && held.Some?)
    && |run.turns| <= i && Told(run) && Heard(agent.context.entries, run, oracle, maxTurns, said, task, i > 0)
  }

  function IterationCost(e: Ending, o: Oracle): real {
    (if o.cancelled then 0.0 else o.pre.cost) + TurnCost(e, o)
  }

  // What the iterations cost that ended like this, and the outcomes that are kept of them.

  function CostOf(endings: seq<Ending>, oracle: nat -> Oracle): real {
    if endings == [] then 0.0
    else CostOf(endings[..|endings| - 1], oracle) + IterationCost(endings[|endings| - 1], oracle(|endings| - 1))
  }

  function TurnsOf(endings: seq<Ending>, oracle: nat -> Oracle): seq<TurnOutcome> {
    if endings == [] then []
    else TurnsOf(endings[..|endings| - 1], oracle) + TurnKept(endings[|endings| - 1], oracle(|endings| - 1))
  }

  // The outcomes and the cost of a run are those of iterations that went like this.
  ghost predicate Accounts(run: RunState, endings: seq<Ending>, oracle: nat -> Oracle, tools: Tools) {
    && (forall k: nat | k < |endings| :: EndingMeans(endings[k], oracle(k), tools))
    && run.cost == CostOf(endings, oracle) && run.turns == TurnsOf(endings, oracle)
  }

  lemma AccountsSnoc(run: RunState, endings: seq<Ending>, oracle: nat -> Oracle, tools: Tools, e: Ending, after: RunState)
    requires Accounts(run, endings, oracle, tools) && EndingMeans(e, oracle(|endings|), tools)
    requires after.cost == run.cost + IterationCost(e, oracle(|endings|))
    requires after.turns == run.turns + TurnKept(e, oracle(|endings|))
    ensures Accounts(after, endings + [e], oracle, tools)
  {
    var all := endings + [e];
    assert all[..|all| - 1] == endings;
  }

  // What the loop needs of an iteration.
  method Iterate(agent: HarnessAgent, i: nat, oracle: nat -> Oracle, task: string, budget: real, run: RunState,
                 ghost maxTurns: nat, ghost held: Option<ToolCall>, ghost said: seq<string>, ghost from: Phase,
                 ghost endings: seq<Ending>)
    returns (flow: Flow, after: RunState, ghost more: seq<Ending>)
    requires Looping(agent, i, run, oracle, maxTurns, held, said, task, from) && i < maxTurns
    requires |endings| == i && Accounts(run, endings, oracle, agent.tools)
    modifies agent, agent.context`entries, agent.context`currentTurnId
    ensures flow.NextTurn? ==> Looping(agent, i + 1, after, oracle, maxTurns, held, said, task, from) && Enters(oracle(i))
    ensures agent.Valid() && RunSound(after, i + 1, from, agent) && |after.turns| <= i + 1
    ensures !flow.Proceed? && (!flow.Fail? ==> Told(after))
    ensures Heard(agent.context.entries, after, oracle, maxTurns, said, task, true)
    ensures |more| == i + 1 && Accounts(after, more, oracle, agent.tools)
    ensures Resumed(after.trace) == (held.Some? && !oracle(0).cancelled)
    ensures oracle(0).cancelled ==> agent.sidecar == held
    ensures !oracle(0).cancelled && agent.sidecar.Some? ==> flow == Exit(ApprovalRequired)
    ensures PoliciesInterrupt(oracle(i)) && flow == Exit(ApprovalRequired) ==> HeldIff(agent, oracle, after)
    ensures PoliciesInterrupt(oracle(i)) ==> Justified(flow, oracle(i), after, budget, agent.tools)
    ensures PoliciesInterrupt(oracle(i)) && (flow == Exit(Done) || flow == Exit(ApprovalRequired)) ==>
      LastStarted(after.trace) == Some(i)
  {
    ghost var es, sent, ending := agent.context.entries, [], NoTurn;
    flow, after, sent, ending := RunIteration(agent, i, oracle, task, budget, run, from);
    AccountsSnoc(run, endings, oracle, agent.tools, ending, after);
    more := endings + [ending];
    HeardNext(es, run, agent.context.entries, after, oracle, i, maxTurns, said, task);
  }

  lemma HeardNext(before: seq<Entry>, run: RunState, es: seq<Entry>, after: RunState, oracle: nat -> Oracle, i: nat,
                  maxTurns: nat, said: seq<string>, task: string)
    requires Heard(before, run, oracle, maxTurns, said, task, i > 0) && i < maxTurns
    requires Shrunk(run.trace) ==> Shrunk(after.trace)
    requires !Shrunk(after.trace) && oracle(i).turn.hookOk ==>
      UserTexts(es) == UserTexts(before) + if i == 0 && Runs(oracle(i)) then [task] else []
    ensures Heard(es, after, oracle, maxTurns, said, task, true)
  {
    assert HooksPass(oracle, maxTurns) ==> oracle(i).turn.hookOk;
    assert said + [] == said;
  }

  // The iterations, up to the one that the run does not come out of.
  method RunIterations(agent: HarnessAgent, task: string, maxTurns: nat, budget: real, oracle: nat -> Oracle,
                       start: RunState, ghost held: Option<ToolCall>, ghost said: seq<string>, ghost from: Phase)
    returns (stop: Flow, run: RunState, ghost endings: seq<Ending>)
    requires Looping(agent, 0, start, oracle, maxTurns, held, said, task, from)
    requires start.turns == [] && start.cost == 0.0
    modifies agent, agent.context`entries, agent.context`currentTurnId
    ensures stop.Exit? || stop.Fail?
    ensures agent.Valid() && RunSound(run, |endings|, from, agent) && |run.turns| <= maxTurns
    ensures stop.Exit? ==> Told(run)
    ensures Heard(agent.context.entries, run, oracle, maxTurns, said, task, maxTurns > 0)
    ensures |endings| <= maxTurns && Accounts(run, endings, oracle, agent.tools)
    ensures Resumed(run.trace) == (held.Some? && maxTurns > 0 && !oracle(0).cancelled)
    ensures maxTurns == 0 || oracle(0).cancelled ==> agent.sidecar == held
    ensures maxTurns > 0 && !oracle(0).cancelled && agent.sidecar.Some? ==> stop == Exit(ApprovalRequired)
    ensures AllInterrupt(oracle, maxTurns) && stop == Exit(ApprovalRequired) ==> HeldIff(agent, oracle, run)
    ensures AllInterrupt(oracle, maxTurns) && stop.Exit? ==>
      StopJustified(Summary(run.turns, run.cost, stop.reason), run, oracle, maxTurns, budget, agent.tools)
  {
    run, endings := start, [];
    for i := 0 to maxTurns
      invariant Looping(agent, i, run, oracle, maxTurns, held, said, task, from)
      invariant forall j: nat | j < i :: Enters(oracle(j))
      invariant |endings| == i && Accounts(run, endings, oracle, agent.tools)
    {
      stop, run, endings := Iterate(agent, i, oracle, task, budget, run, maxTurns, held, said, from, endings);
      if !stop.NextTurn? {
        if stop.Exit? {
          StopIsJustified(stop, i, run, oracle, maxTurns, budget, agent.tools);
        }
        return;
      }
    }
    stop := Exit(MaxTurns);
  }

  method FinalizeRun(run: RunState, reason: StopReason) returns (result: Option<Summary>, trace: seq<RunEvent>)
    ensures result == Some(Summary(run.turns, run.cost, reason))
    ensures trace == run.trace + [Finished(result.value)]
  {
    result := Some(Summary(run.turns, run.cost, reason));
    trace := run.trace + [Finished(result.value)];
  }

  // run is the run up to its end; trace adds the event that a successful return ends with.
  method RunUntilDone(agent: HarnessAgent, task: string, maxTurns: nat, budget: real, oracle: nat -> Oracle)
    returns (result: Option<Summary>, run: RunState, trace: seq<RunEvent>)
    requires agent.Valid() && FreshFrom(oracle, 0, agent.issued)
    modifies agent, agent.context`entries, agent.context`currentTurnId
    // The log keeps the protocol, and every request sent was balanced and within the limit.
    ensures agent.Valid() && Wellformed(run.requests, agent.context.limits.hardLimitTokens)
    // A call held before the run is taken up unless the run is allowed no turn or is
    // cancelled before the first; otherwise it is held as before.
    ensures Resumed(run.trace) <==> old(agent.sidecar).Some? && maxTurns > 0 && !oracle(0).cancelled
    ensures maxTurns == 0 || oracle(0).cancelled ==> agent.sidecar == old(agent.sidecar)
    // In all other runs a call is held only after an approval stop, and then exactly when
    // the last turn ran it by itself.
    ensures maxTurns > 0 && !oracle(0).cancelled && agent.sidecar.Some? ==>
      result.Some? && result.value.stoppedReason == ApprovalRequired
    ensures result.Some? && result.value.stoppedReason == ApprovalRequired && AllInterrupt(oracle, maxTurns) ==>
      HeldIff(agent, oracle, run)
    // Turns start in increasing order below maxTurns, phase changes link up, and a
    // successful return shows Finished exactly once, at the end.
    ensures Orderly(run.trace, maxTurns) && |run.turns| <= maxTurns
    ensures trace == run.trace + match result case Some(summary) => [Finished(summary)] case None => []
    ensures Chained(old(agent.phase), run.trace, agent.phase)
    // The summary holds the turns whose end was shown, in order, and the cost of the run.
    ensures result.Some? ==> result.value.turns == run.turns && result.value.cost == run.cost && Told(run)
    // These are the outcomes of the turns that ended, and all that its iterations cost.
    ensures exists endings :: |endings| <= maxTurns && Accounts(run, endings, oracle, agent.tools)
    // If no compaction ran, the user's words on the log are those before the run and, once
    // the first turn has started, the task.
    ensures !Shrunk(run.trace) && (forall i: nat | i < maxTurns :: oracle(i).turn.hookOk) ==>
      UserTexts(agent.context.entries)
      == old(UserTexts(agent.context.entries)) + if maxTurns > 0 && Runs(oracle(0)) then [task] else []
    ensures result.Some? && AllInterrupt(oracle, maxTurns) ==>
      StopJustified(result.value, run, oracle, maxTurns, budget, agent.tools)
  {
    ghost var from, held, said := agent.phase, agent.sidecar, UserTexts(agent.context.entries);
    run := Say(agent, RunState([], 0.0, [], []), RunStarted, 0, from);
    var stop;
    ghost var endings;
    stop, run, endings := RunIterations(agent, task, maxTurns, budget, oracle, run, held, said, from);
    OrderlyMono(run.trace, |endings|, maxTurns);
    if stop.Fail? {
      return None, run, run.trace;
    }
    result, trace := FinalizeRun(run, stop.reason);
  }
}
