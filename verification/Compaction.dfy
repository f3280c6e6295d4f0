// Folding the older part of the log into a summary without separating a tool
// result from its call.
module Compaction {
  import opened Options
  import opened Protocol
  import opened Conversation
  import opened UniqueCalls

  const KEEP_TAIL: nat := 6

  function CallsOf(e: Entry): set<CallId> {
    if e.source == Assistant then IdSet(Ids(e.toolCalls)) else {}
  }

  predicate Called(es: seq<Entry>, lo: nat, hi: nat, x: CallId)
    requires hi <= |es|
  {
    exists k | lo <= k < hi :: x in CallsOf(es[k])
  }

  // Keeping from start on keeps the result at j, but leaves its call behind.
  predicate Orphan(es: seq<Entry>, start: nat, j: nat)
    requires start <= |es|
  {
    start <= j < |es| && es[j].toolCallId.Some?
    && !Called(es, start, |es|, es[j].toolCallId.value)
    && Called(es, 0, start, es[j].toolCallId.value)
  }

  predicate Safe(es: seq<Entry>, start: nat)
    requires start <= |es|
  {
    forall j: nat | start <= j < |es| :: !Orphan(es, start, j)
  }

  predicate GreatestSafe(es: seq<Entry>, bound: nat, start: nat)
    requires bound <= |es|
  {
    start <= bound && Safe(es, start) && forall t | start < t <= bound :: !Safe(es, t)
  }

  function KeepFrom(es: seq<Entry>, bound: nat): (start: nat)
    requires bound <= |es|
    ensures GreatestSafe(es, bound, start)
  {
    if Safe(es, bound) then bound
    else
      assert bound > 0;
      KeepFrom(es, bound - 1)
  }

  lemma GreatestSafeIsUnique(es: seq<Entry>, bound: nat, a: nat, b: nat)
    requires bound <= |es| && GreatestSafe(es, bound, a) && GreatestSafe(es, bound, b)
    ensures a == b
  {
  }

  function RequestedStart(es: seq<Entry>): (start: nat)
    ensures start <= |es|
  {
    if |es| >= KEEP_TAIL then |es| - KEEP_TAIL else 0
  }

  // The last call of id before `before`, if any.
  method LastCallBefore(entries: seq<Entry>, before: nat, id: CallId) returns (index: Option<nat>)
    requires before <= |entries|
    ensures index.None? ==> !Called(entries, 0, before, id)
    ensures index.Some? ==>
      index.value < before && id in CallsOf(entries[index.value])
      && !Called(entries, index.value + 1, before, id)
  {
    var i: nat := before;
    while i > 0
      invariant 0 <= i <= before && !Called(entries, i, before, id)
    {
      i := i - 1;
      if id in CallsOf(entries[i]) {
        return Some(i);
      }
    }
    return None;
  }

  // No safe start lies between the last call of an orphaned result and the start.
  lemma OrphanBound(es: seq<Entry>, start: nat, j: nat, call: nat, t: nat)
    requires start <= |es| && Orphan(es, start, j) && call < start
    requires es[j].toolCallId.value in CallsOf(es[call])
    requires !Called(es, call + 1, start, es[j].toolCallId.value)
    requires call < t <= start
    ensures !Safe(es, t)
  {
    var x := es[j].toolCallId.value;
    forall k | t <= k < |es| ensures x !in CallsOf(es[k]) {
      assert k < start ==> call + 1 <= k < start;
    }
    assert Orphan(es, t, j);
  }

  // One pass over the kept entries: how far the orphans pull the start back.
  method EarliestOrphanCall(entries: seq<Entry>, start: nat) returns (earliest: nat)
    requires start <= |entries|
    ensures earliest <= start && (earliest == start ==> Safe(entries, start))
    ensures forall t | earliest < t <= start :: earliest < start && !Safe(entries, t)
  {
    var available: set<CallId> := {};
    for i := start to |entries|
      invariant forall x :: x in available <==> Called(entries, start, i, x)
    {
      available := available + CallsOf(entries[i]);
    }
    earliest := start;
    for i := start to |entries|
      invariant earliest <= start
      invariant earliest == start ==> forall j: nat | start <= j < i :: !Orphan(entries, start, j)
      invariant forall t | earliest < t <= start :: !Safe(entries, t)
    {
      if entries[i].toolCallId.Some? && entries[i].toolCallId.value !in available {
        var call := LastCallBefore(entries, start, entries[i].toolCallId.value);
        if call.Some? && call.value < earliest {
          forall t | call.value < t <= start ensures !Safe(entries, t) {
            OrphanBound(entries, start, i, call.value, t);
          }
          earliest := call.value;
        }
      }
    }
  }

  // Pulling the start back can bring in results whose calls lie further back
  // still, so it is repeated until nothing moves.
  method ProtocolSafeKeepFrom(entries: seq<Entry>, requestedStart: nat) returns (start: nat)
    ensures GreatestSafe(entries, if requestedStart <= |entries| then requestedStart else |entries|, start)
  {
    start := if requestedStart <= |entries| then requestedStart else |entries|;
    ghost var bound := start;
    while true
      invariant start <= bound && forall t | start < t <= bound :: !Safe(entries, t)
      decreases start
    {
      var earliest := EarliestOrphanCall(entries, start);
      if earliest == start {
        return;
      }
      start := earliest;
    }
  }

  // What compaction makes of the log.

  function Pinned(es: seq<Entry>): seq<Entry> {
    if es == [] then [] else Pinned(es[..|es| - 1]) + if es[|es| - 1].pinned then [es[|es| - 1]] else []
  }

  function LastUser(es: seq<Entry>, accept: string -> bool): Option<Entry> {
    if es == [] then None
    else
      var e := es[|es| - 1];
      if e.source == User && accept(e.content) then Some(e) else LastUser(es[..|es| - 1], accept)
  }

  // The latest user entry with a substantive task, else the latest user entry.
  function Anchor(es: seq<Entry>, substantive: string -> bool): seq<Entry> {
    match LastUser(es, substantive)
    case Some(e) => [e]
    case None => match LastUser(es, _ => true) case Some(e) => [e] case None => []
  }

  function Head(es: seq<Entry>, summary: string, substantive: string -> bool): seq<Entry> {
    Pinned(es) + Anchor(es, substantive) + [Trusted(PlanReminder, summary)]
  }

  function Compacted(es: seq<Entry>, summary: string, substantive: string -> bool): seq<Entry> {
    var cut := KeepFrom(es, RequestedStart(es));
    Head(es[..cut], summary, substantive) + es[cut..]
  }

  // Log entries as the harness writes them: only assistant turns carry calls, only
  // tool entries answer one, and neither is pinned.
  predicate EntryShaped(e: Entry) {
    && (e.toolCalls != [] ==> e.source == Assistant && e.toolCallId.None? && !e.pinned)
    && (e.toolCallId.Some? ==> e.source == Tool && !e.pinned)
  }

  predicate LogShaped(es: seq<Entry>) {
    forall e | e in es :: EntryShaped(e)
  }

  predicate AllChat(es: seq<Event>) {
    forall i | 0 <= i < |es| :: es[i].Chat?
  }

  lemma {:induction false} ChatRuns(a: seq<Event>, b: seq<Event>, open: set<CallId>)
    requires AllChat(a)
    ensures Run(a + b, open) == Run(b, open) && IssuedIn(a + b) == IssuedIn(b)
    ensures UniqueIds(a + b) == UniqueIds(b)
  {
    if a == [] {
      assert a + b == b;
    } else {
      assert (a + b)[0] == a[0] && (a + b)[1..] == a[1..] + b;
      ChatRuns(a[1..], b, open);
    }
  }

  lemma {:induction false} PinnedAreChat(es: seq<Entry>)
    requires LogShaped(es)
    ensures LogShaped(Pinned(es)) && AllChat(EntryEvents(Pinned(es)))
  {
    if es != [] {
      var init, e := es[..|es| - 1], es[|es| - 1];
      assert LogShaped(init) && e in es;
      PinnedAreChat(init);
      if e.pinned {
        EntryEventsConcat(Pinned(init), [e]);
        assert EntryEvents([e]) == [Chat];
      } else {
        assert Pinned(es) == Pinned(init);
      }
    }
  }

  lemma {:induction false} LastUserIsChat(es: seq<Entry>, accept: string -> bool)
    requires LogShaped(es) && LastUser(es, accept).Some?
    ensures var e := LastUser(es, accept).value; e in es && e.source == User && EntryEvent(e).Chat?
  {
    var e := es[|es| - 1];
    assert e in es;
    if !(e.source == User && accept(e.content)) {
      assert LogShaped(es[..|es| - 1]);
      LastUserIsChat(es[..|es| - 1], accept);
    }
  }

  lemma HeadIsChat(es: seq<Entry>, summary: string, substantive: string -> bool)
    requires LogShaped(es)
    ensures var head := Head(es, summary, substantive); LogShaped(head) && AllChat(EntryEvents(head))
  {
    PinnedAreChat(es);
    if LastUser(es, substantive).Some? {
      LastUserIsChat(es, substantive);
    } else if LastUser(es, _ => true).Some? {
      LastUserIsChat(es, _ => true);
    }
    EntryEventsConcat(Pinned(es), Anchor(es, substantive));
    EntryEventsConcat(Pinned(es) + Anchor(es, substantive), [Trusted(PlanReminder, summary)]);
  }

  predicate NeverAnswered(es: seq<Event>, ids: set<CallId>) {
    forall e | e in es && e.Answer? :: e.id !in ids
  }

  // Calls that stay unanswered can be forgotten.
  lemma {:induction false} ForgetOpen(es: seq<Event>, open: set<CallId>, gone: set<CallId>)
    requires Run(es, open).Some? && gone <= open && NeverAnswered(es, gone)
    ensures Run(es, open - gone) == Some(Run(es, open).value - gone)
    ensures gone <= Run(es, open).value
  {
    if es != [] {
      assert es[0] in es && NeverAnswered(es[1..], gone);
      var next := Step(es[0], open).value;
      ForgetOpen(es[1..], next, gone);
      match es[0] {
        case Calls(ids) => assert (open - gone) + IdSet(ids) == next - gone;
        case Answer(id) => assert (open - gone) - {id} == next - gone;
        case Chat =>
      }
    }
  }

  // At a safe cut, no call left open by the older part is answered by the kept part.
  lemma SafeCutSeparates(es: seq<Entry>, cut: nat)
    requires LogShaped(es) && cut <= |es| && Safe(es, cut) && UniqueIds(EntryEvents(es))
    requires Run(EntryEvents(es[..cut]), {}).Some?
    ensures NeverAnswered(EntryEvents(es[cut..]), Run(EntryEvents(es[..cut]), {}).value)
  {
    var folded, kept := EntryEvents(es[..cut]), EntryEvents(es[cut..]);
    var open := Run(folded, {}).value;
    forall j, x | 0 <= j < |kept| && kept[j] == Answer(x) ensures x !in open {
      if x in open {
        var i := LastIssue(folded, {}, x);
        assert EntryEvent(es[i]) == folded[i] && x in CallsOf(es[i]);
        assert es[cut + j].toolCallId == Some(x);
        forall k | cut <= k < |es| ensures x !in CallsOf(es[k]) {
          assert es[i] in es && es[k] in es;
          NotIssuedTwice(EntryEvents(es), i, k, x);
        }
        assert Orphan(es, cut, cut + j);
      }
    }
  }

  lemma {:induction false} NotIssuedTwice(es: seq<Event>, i: nat, k: nat, x: CallId)
    requires UniqueIds(es) && i < k < |es| && x in IssuedBy(es[i])
    ensures x !in IssuedBy(es[k])
  {
    if i == 0 {
      IssuedAt(es[1..], k - 1);
    } else {
      NotIssuedTwice(es[1..], i - 1, k - 1, x);
    }
  }

  // Compaction keeps the protocol, whatever the summary says: a log with unique ids
  // stays well formed, and of its open calls only some are forgotten.
  lemma CompactionKeepsProtocol(es: seq<Entry>, summary: string, substantive: string -> bool)
    requires LogShaped(es) && UniqueIds(EntryEvents(es)) && Run(EntryEvents(es), {}).Some?
    ensures var after := Compacted(es, summary, substantive);
            LogShaped(after) && UniqueIds(EntryEvents(after))
            && IssuedIn(EntryEvents(after)) <= IssuedIn(EntryEvents(es))
            && Run(EntryEvents(after), {}).Some?
            && Run(EntryEvents(after), {}).value <= Run(EntryEvents(es), {}).value
  {
    var cut := KeepFrom(es, RequestedStart(es));
    var folded, kept := EntryEvents(es[..cut]), EntryEvents(es[cut..]);
    var head := Head(es[..cut], summary, substantive);
    assert LogShaped(es[..cut]) && LogShaped(es[cut..]);
    assert es == es[..cut] + es[cut..];
    EntryEventsConcat(es[..cut], es[cut..]);
    RunConcat(folded, kept, {});
    SafeCutSeparates(es, cut);
    var open := Run(folded, {}).value;
    ForgetOpen(kept, open, open);
    assert open - open == {};
    HeadIsChat(es[..cut], summary, substantive);
    EntryEventsConcat(head, es[cut..]);
    ChatRuns(EntryEvents(head), kept, {});
    UniqueConcat(folded, kept);
    IssuedConcat(folded, kept);
  }

  lemma CompactionKeepsBalance(es: seq<Entry>, summary: string, substantive: string -> bool)
    requires LogShaped(es) && UniqueIds(EntryEvents(es)) && Balanced(EntryEvents(es))
    ensures Balanced(EntryEvents(Compacted(es, summary, substantive)))
  {
    CompactionKeepsProtocol(es, summary, substantive);
    assert Run(EntryEvents(Compacted(es, summary, substantive)), {}).value == {};
  }

  // Everything from the cut on is kept verbatim, and so at least the last six entries.
  lemma CompactionKeepsTail(es: seq<Entry>, cut: nat, summary: string, substantive: string -> bool)
    requires |es| >= 6 && cut == KeepFrom(es, RequestedStart(es))
    ensures var after, kept := Compacted(es, summary, substantive), |es| - cut;
            6 <= kept < |after| && after[|after| - kept..] == es[cut..]
            && after[|after| - 6..] == es[|es| - 6..]
  {
    var head := Head(es[..cut], summary, substantive);
    assert (head + es[cut..])[|head|..] == es[cut..];
    assert (head + es[cut..])[|head| + |es| - cut - KEEP_TAIL..] == es[cut..][|es| - cut - KEEP_TAIL..];
  }

  lemma {:induction false} PinnedConcat(a: seq<Entry>, b: seq<Entry>)
    ensures Pinned(a + b) == Pinned(a) + Pinned(b)
  {
    if b == [] {
      assert a + b == a;
    } else {
      assert (a + b)[..|a + b| - 1] == a + b[..|b| - 1];
      PinnedConcat(a, b[..|b| - 1]);
    }
  }

  lemma {:induction false} PinnedTwice(es: seq<Entry>)
    ensures Pinned(Pinned(es)) == Pinned(es)
  {
    if es != [] {
      PinnedTwice(es[..|es| - 1]);
      var last := if es[|es| - 1].pinned then [es[|es| - 1]] else [];
      PinnedConcat(Pinned(es[..|es| - 1]), last);
    }
  }

  lemma PinnedOfHead(es: seq<Entry>, summary: string, substantive: string -> bool)
    ensures Pinned(Head(es, summary, substantive)) == Pinned(es) + Pinned(Anchor(es, substantive))
  {
    var anchor, reminder := Anchor(es, substantive), [Trusted(PlanReminder, summary)];
    PinnedConcat(Pinned(es) + anchor, reminder);
    PinnedConcat(Pinned(es), anchor);
    PinnedTwice(es);
    assert reminder[..0] == [] && Pinned(reminder) == [];
  }

  lemma PinnedAnchor(es: seq<Entry>, substantive: string -> bool)
    ensures Pinned(Anchor(es, substantive)) == [] <==> forall e | e in Anchor(es, substantive) :: !e.pinned
  {
    var anchor := Anchor(es, substantive);
    assert anchor != [] ==> anchor[..0] == [] && anchor[0] in anchor;
  }

  // The pinned entries come through in order, and unchanged exactly when the chosen
  // anchor is not itself pinned: a pinned anchor is duplicated.
  lemma CompactionKeepsPinned(es: seq<Entry>, cut: nat, summary: string, substantive: string -> bool)
    requires cut == KeepFrom(es, RequestedStart(es))
    ensures Pinned(Compacted(es, summary, substantive))
         == Pinned(es[..cut]) + Pinned(Anchor(es[..cut], substantive)) + Pinned(es[cut..])
    ensures Pinned(Compacted(es, summary, substantive)) == Pinned(es)
       <==> forall e | e in Anchor(es[..cut], substantive) :: !e.pinned
  {
    PinnedConcat(Head(es[..cut], summary, substantive), es[cut..]);
    PinnedOfHead(es[..cut], summary, substantive);
    PinnedAnchor(es[..cut], substantive);
    assert es == es[..cut] + es[cut..];
    PinnedConcat(es[..cut], es[cut..]);
    var anchor := Pinned(Anchor(es[..cut], substantive));
    if anchor == [] {
      assert Pinned(es[..cut]) + anchor == Pinned(es[..cut]);
    }
  }

  // Without unique ids, balance survives exactly when no call is open at the cut.
  lemma CompactionBalanceIff(es: seq<Entry>, cut: nat, summary: string, substantive: string -> bool)
    requires LogShaped(es) && Balanced(EntryEvents(es)) && cut == KeepFrom(es, RequestedStart(es))
    ensures Balanced(EntryEvents(Compacted(es, summary, substantive)))
       <==> Balanced(EntryEvents(es[..cut]))
  {
    var folded, kept := EntryEvents(es[..cut]), EntryEvents(es[cut..]);
    var head := Head(es[..cut], summary, substantive);
    assert LogShaped(es[..cut]) && es == es[..cut] + es[cut..];
    EntryEventsConcat(es[..cut], es[cut..]);
    RunConcat(folded, kept, {});
    HeadIsChat(es[..cut], summary, substantive);
    EntryEventsConcat(head, es[cut..]);
    ChatRuns(EntryEvents(head), kept, {});
    var open := Run(folded, {}).value;
    if x :| x in open {
      LateAnswerBreaks(kept, open, x);
    } else {
      assert open == {};
    }
  }

  // A list that answers a call issued before it cannot stand on its own.
  lemma LateAnswerBreaks(es: seq<Event>, open: set<CallId>, x: CallId)
    requires Run(es, open).Some? && x in open && x !in Run(es, open).value
    ensures !Run(es, {}).Some?
  {
    var j := NextAnswer(es, open, x);
    if Run(es, {}).Some? {
      CallStep(es, j);
      var i := LastIssue(es[..j], {}, x);
    }
  }

  // A reused id can hide an orphan: the kept part issues the id again later, so the
  // first result is kept without its call.
  lemma ReusedIdBreaksCompaction(call: Entry, result: Entry, note: Entry, id: CallId,
                                 summary: string, substantive: string -> bool)
    requires call == AssistantWithToolCalls("", [Invocation(id, "file_read", "{}")])
    requires result == ToolResult(id, "ok") && note == Trusted(PlanReminder, "note")
    ensures var es := [call, result, call, result, note, note, note];
            LogShaped(es) && Balanced(EntryEvents(es))
            && !Balanced(EntryEvents(Compacted(es, summary, substantive)))
  {
    var es := [call, result, call, result, note, note, note];
    var calls := Calls([id]);
    assert Ids(call.toolCalls) == [id];
    assert EntryEvents(es) == [calls, Answer(id), calls, Answer(id), Chat, Chat, Chat];
    assert IdSet([id]) == {id};
    TwoRounds(id);
    assert id in CallsOf(es[2]);
    assert Called(es, 1, |es|, id);
    assert Safe(es, 1);
    assert KeepFrom(es, 1) == 1;
    CompactionBalanceIff(es, 1, summary, substantive);
    assert es[..1] == [call] && EntryEvents([call]) == [calls];
    RunCons(calls, [], {});
    assert id in Run([calls], {}).value;
  }

  lemma TwoRounds(id: CallId)
    ensures Balanced([Calls([id]), Answer(id), Calls([id]), Answer(id), Chat, Chat, Chat])
  {
    var round := [Calls([id]), Answer(id)];
    assert IdSet([id]) == {id};
    RunCons(Calls([id]), [Answer(id)], {});
    RunCons(Answer(id), [], {id});
    assert [Calls([id])] + [Answer(id)] == round && [Answer(id)] + [] == [Answer(id)];
    assert Run(round, {}) == Some({});
    ChatRuns([Chat, Chat, Chat], [], {});
    assert [Chat, Chat, Chat] + [] == [Chat, Chat, Chat];
    RunConcat(round, [Chat, Chat, Chat], {});
    RunConcat(round, round + [Chat, Chat, Chat], {});
    assert round + (round + [Chat, Chat, Chat])
        == [Calls([id]), Answer(id), Calls([id]), Answer(id), Chat, Chat, Chat];
  }
}
