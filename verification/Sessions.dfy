// What the steps of a session do to its log, and the invariant they keep.
module Sessions {
  import opened Options
  import opened Protocol
  import opened Conversation
  import opened UniqueCalls
  import opened Compaction
  import opened ContextLog
  import opened Turns

  // The calls of the log that have no result yet.
  function OpenCalls(es: seq<Entry>): set<CallId> {
    match Run(EntryEvents(es), {})
    case None => {}
    case Some(open) => open
  }

  // The log keeps the protocol, and its call ids are unique among all issued so far.
  predicate Kept(es: seq<Entry>, issued: set<CallId>) {
    LogShaped(es) && UniqueIds(EntryEvents(es)) && Run(EntryEvents(es), {}).Some?
    && IssuedIn(EntryEvents(es)) <= issued
  }

  // Halted for approval: the latest calling entry issued one call, the only open one.
  predicate Paused(es: seq<Entry>) {
    |LastCalls(es)| == 1 && OpenCalls(es) == {LastCalls(es)[0]}
  }

  predicate Note(e: Entry) {
    e.toolCalls == [] && e.toolCallId.None?
  }

  lemma AppendNote(es: seq<Entry>, e: Entry, issued: set<CallId>)
    requires Kept(es, issued) && Note(e)
    ensures Kept(es + [e], issued) && OpenCalls(es + [e]) == OpenCalls(es)
    ensures LastCalls(es + [e]) == LastCalls(es)
  {
    EntryEventsConcat(es, [e]);
    assert EntryEvents([e]) == [Chat] && [Chat][1..] == [];
    RunSnoc(EntryEvents(es), Chat, {});
    UniqueConcat(EntryEvents(es), [Chat]);
    IssuedConcat(EntryEvents(es), [Chat]);
    assert (es + [e])[..|es|] == es;
  }

  lemma {:induction false} AppendNotes(es: seq<Entry>, notes: seq<Entry>, issued: set<CallId>)
    requires Kept(es, issued) && forall e | e in notes :: Note(e)
    ensures Kept(es + notes, issued) && OpenCalls(es + notes) == OpenCalls(es)
    ensures LastCalls(es + notes) == LastCalls(es)
    decreases |notes|
  {
    if notes == [] {
      assert es + notes == es;
    } else {
      AppendNote(es, notes[0], issued);
      AppendNotes(es + [notes[0]], notes[1..], issued);
      assert es + [notes[0]] + notes[1..] == es + notes;
    }
  }

  lemma AppendTail(es: seq<Entry>, tail: seq<Entry>, issued: set<CallId>, ids: set<CallId>)
    requires Kept(es, issued) && ids !! issued && LogShaped(tail)
    requires UniqueIds(EntryEvents(tail)) && IssuedIn(EntryEvents(tail)) <= ids
    requires Run(EntryEvents(tail), OpenCalls(es)).Some?
    ensures Kept(es + tail, issued + ids)
    ensures Some(OpenCalls(es + tail)) == Run(EntryEvents(tail), OpenCalls(es))
  {
    EntryEventsConcat(es, tail);
    RunConcat(EntryEvents(es), EntryEvents(tail), {});
    UniqueConcat(EntryEvents(es), EntryEvents(tail));
    IssuedConcat(EntryEvents(es), EntryEvents(tail));
  }

  // One turn.

  datatype TurnInput = TurnInput(
    userInput: Option<string>, plan: Option<string>,
    forced: bool, recap: Option<string>, summary: string, hookOk: bool,
    completion: Option<Completion>, outcomes: nat -> ToolOutcome, cost: real)

  function UserEntries(input: TurnInput): seq<Entry> {
    match input.userInput
    case None => []
    case Some(text) =>
      [Trusted(User, text)]
      + match input.plan case None => [] case Some(plan) => [Trusted(PlanReminder, plan)]
  }

  predicate LlmCompacts(es: seq<Entry>, input: TurnInput, threshold: nat) {
    input.recap.Some? && |es| > KEEP_TAIL && (input.forced || TotalTokens(es) > threshold)
  }

  predicate Compacts(es: seq<Entry>, input: TurnInput, threshold: nat) {
    LlmCompacts(es, input, threshold) || (TotalTokens(es) > threshold && |es| > KEEP_TAIL)
  }

  function AfterCompaction(
      es: seq<Entry>, input: TurnInput, threshold: nat, substantive: string -> bool): seq<Entry>
  {
    if LlmCompacts(es, input, threshold) then Compacted(es, input.recap.value, substantive)
    else if Compacts(es, input, threshold) then Compacted(es, input.summary, substantive)
    else es
  }

  function FreshIds(input: TurnInput): set<CallId> {
    match input.completion case None => {} case Some(c) => IdSet(Ids(c.toolCalls))
  }

  // The provider gives the calls of one response distinct ids.
  predicate DistinctIds(input: TurnInput) {
    input.completion.Some? ==> Distinct(Ids(input.completion.value.toolCalls))
  }

  lemma CompactionKept(
      es: seq<Entry>, input: TurnInput, threshold: nat, substantive: string -> bool, issued: set<CallId>)
    requires Kept(es, issued)
    ensures var after := AfterCompaction(es, input, threshold, substantive);
            Kept(after, issued) && OpenCalls(after) <= OpenCalls(es)
  {
    CompactionKeepsProtocol(es, input.summary, substantive);
    if input.recap.Some? {
      CompactionKeepsProtocol(es, input.recap.value, substantive);
    }
  }

  // The model's answer on top of a kept log, stamped with whatever turn.
  lemma AnswerKept(
      es: seq<Entry>, c: Completion, outcomes: nat -> ToolOutcome, tools: Tools,
      turnId: nat, branchedFrom: Option<nat>, issued: set<CallId>)
    requires Kept(es, issued) && Distinct(Ids(c.toolCalls)) && IdSet(Ids(c.toolCalls)) !! issued
    ensures var after := es + StampedAll(TurnTail(c, outcomes, tools), turnId, branchedFrom);
            Kept(after, issued + IdSet(Ids(c.toolCalls)))
            && OpenCalls(after) == OpenCalls(es) + LeftOpen(c, outcomes, tools)
            && (Halts(c, outcomes, tools) ==> LastCalls(after) == [c.toolCalls[0].id])
  {
    var tail := TurnTail(c, outcomes, tools);
    var stamped := StampedAll(tail, turnId, branchedFrom);
    OpenWasIssued(es, issued);
    TurnTailKeepsProtocol(c, outcomes, tools, OpenCalls(es));
    StampKeepsEvents(tail, turnId, branchedFrom);
    AppendTail(es, stamped, issued, IdSet(Ids(c.toolCalls)));
    if Halts(c, outcomes, tools) {
      var issue := AssistantWithToolCalls(c.text, [c.toolCalls[0]]);
      assert tail == [issue] && |stamped| == 1;
      assert es + stamped == es + [stamped[0]] && (es + [stamped[0]])[..|es|] == es;
      assert EntryEvent(stamped[0]) == EntryEvent(issue) == Calls([c.toolCalls[0].id]);
    }
  }

  lemma OpenWasIssued(es: seq<Entry>, issued: set<CallId>)
    requires Kept(es, issued)
    ensures OpenCalls(es) <= issued
  {
    var events := EntryEvents(es);
    forall x | x in OpenCalls(es) ensures x in issued {
      var i := LastIssue(events, {}, x);
      IssuedAt(events, i);
    }
  }

  lemma UserEntriesAreNotes(input: TurnInput, turnId: nat, branchedFrom: Option<nat>)
    ensures forall e | e in StampedAll(UserEntries(input), turnId, branchedFrom) :: Note(e)
  {
  }

  // The log with the user's words, and then after compaction.
  function Asked(es: seq<Entry>, input: TurnInput, turnId: nat, branchedFrom: Option<nat>): seq<Entry> {
    es + StampedAll(UserEntries(input), turnId, branchedFrom)
  }

  function ReadyLog(es: seq<Entry>, input: TurnInput, threshold: nat, substantive: string -> bool,
                    turnId: nat, branchedFrom: Option<nat>): seq<Entry>
  {
    AfterCompaction(Asked(es, input, turnId, branchedFrom), input, threshold, substantive)
  }

  predicate Proceeds(es: seq<Entry>, input: TurnInput, threshold: nat, turnId: nat, branchedFrom: Option<nat>) {
    Compacts(Asked(es, input, turnId, branchedFrom), input, threshold) ==> input.hookOk
  }

  // The turn gets as far as appending what the model answered.
  predicate Answered(es: seq<Entry>, input: TurnInput, threshold: nat, turnId: nat, branchedFrom: Option<nat>) {
    Proceeds(es, input, threshold, turnId, branchedFrom) && input.completion.Some?
  }

  // The log after a turn.
  function TurnLog(
      es: seq<Entry>, input: TurnInput, threshold: nat, substantive: string -> bool, tools: Tools,
      turnId: nat, branchedFrom: Option<nat>): seq<Entry>
  {
    var ready := ReadyLog(es, input, threshold, substantive, turnId, branchedFrom);
    if Answered(es, input, threshold, turnId, branchedFrom) then
      ready + StampedAll(TurnTail(input.completion.value, input.outcomes, tools), turnId, branchedFrom)
    else ready
  }

  predicate TurnHalts(es: seq<Entry>, input: TurnInput, threshold: nat, tools: Tools,
                      turnId: nat, branchedFrom: Option<nat>)
  {
    Answered(es, input, threshold, turnId, branchedFrom)
    && Halts(input.completion.value, input.outcomes, tools)
  }

  lemma ReadyLogKept(es: seq<Entry>, input: TurnInput, threshold: nat, substantive: string -> bool,
                     turnId: nat, branchedFrom: Option<nat>, issued: set<CallId>)
    requires Kept(es, issued)
    ensures var ready := ReadyLog(es, input, threshold, substantive, turnId, branchedFrom);
            Kept(ready, issued) && OpenCalls(ready) <= OpenCalls(es)
  {
    var notes := StampedAll(UserEntries(input), turnId, branchedFrom);
    UserEntriesAreNotes(input, turnId, branchedFrom);
    AppendNotes(es, notes, issued);
    CompactionKept(es + notes, input, threshold, substantive, issued);
  }

  // A turn keeps the invariant. It leaves one more call open when it halts for
  // approval, and then that is the one call of the latest calling entry.
  lemma TurnKeepsLog(
      es: seq<Entry>, input: TurnInput, threshold: nat, substantive: string -> bool, tools: Tools,
      turnId: nat, branchedFrom: Option<nat>, issued: set<CallId>)
    requires Kept(es, issued) && DistinctIds(input) && FreshIds(input) !! issued
    ensures var after := TurnLog(es, input, threshold, substantive, tools, turnId, branchedFrom);
            Kept(after, issued + FreshIds(input))
            && if TurnHalts(es, input, threshold, tools, turnId, branchedFrom) then
                 OpenCalls(after) <= OpenCalls(es) + {input.completion.value.toolCalls[0].id}
                 && input.completion.value.toolCalls[0].id in OpenCalls(after)
                 && LastCalls(after) == [input.completion.value.toolCalls[0].id]
               else OpenCalls(after) <= OpenCalls(es)
  {
    ReadyLogKept(es, input, threshold, substantive, turnId, branchedFrom, issued);
    var ready := ReadyLog(es, input, threshold, substantive, turnId, branchedFrom);
    if Answered(es, input, threshold, turnId, branchedFrom) {
      AnswerKept(ready, input.completion.value, input.outcomes, tools, turnId, branchedFrom, issued);
    }
  }

  // Resuming a halted turn.
  lemma ResumeKeepsLog(
      es: seq<Entry>, observation: string, reminder: string,
      turnId: nat, branchedFrom: Option<nat>, issued: set<CallId>)
    requires Kept(es, issued)
    ensures var after := es + StampedAll(ResumeTail(es, observation, reminder), turnId, branchedFrom);
            Kept(after, issued) && OpenCalls(after) <= OpenCalls(es)
            && (Paused(es) ==> OpenCalls(after) == {})
  {
    var tail := ResumeTail(es, observation, reminder);
    ResumeCloses(es, observation, reminder);
    StampKeepsEvents(tail, turnId, branchedFrom);
    NothingIssuedIsUnique(EntryEvents(tail));
    AppendTail(es, StampedAll(tail, turnId, branchedFrom), issued, {});
    assert issued + {} == issued;
    if Paused(es) {
      assert FirstIn(LastCalls(es), OpenCalls(es)) == Some(LastCalls(es)[0]);
    }
  }
}
