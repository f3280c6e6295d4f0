// Turn ids against the tool-call protocol: where a log may be forked.
module Alignment {
  import opened Options
  import opened Protocol
  import opened Conversation
  import opened UniqueCalls
  import opened Compaction
  import opened ContextLog
  import opened Turns
  import opened Sessions

  // Everything from k on is of a later turn than the entry before k.
  predicate Rise(es: seq<Entry>, k: nat) {
    0 < k < |es| && forall j | k <= j < |es| :: es[j].turnId > es[k - 1].turnId
  }

  // No call waits for its result where the turn ids rise for good.
  ghost predicate Aligned(es: seq<Entry>) {
    forall k: nat | Rise(es, k) :: OpenCalls(es[..k]) == {}
  }

  predicate KeepsProtocol(es: seq<Entry>) {
    Run(EntryEvents(es), {}).Some?
  }

  predicate IsBalanced(es: seq<Entry>) {
    Balanced(EntryEvents(es))
  }

  // Forks.

  function ForkPoint(es: seq<Entry>, t: nat): (k: nat)
    ensures k <= |es|
  {
    LastAtOrBefore(es, t) + 1
  }

  predicate ForkSplitsNoPair(es: seq<Entry>, t: nat) {
    IsBalanced(es[..ForkPoint(es, t)]) && IsBalanced(es[ForkPoint(es, t)..])
  }

  lemma SplitRun(es: seq<Entry>, k: nat)
    requires KeepsProtocol(es) && k <= |es|
    ensures KeepsProtocol(es[..k])
    ensures Run(EntryEvents(es[k..]), OpenCalls(es[..k])) == Run(EntryEvents(es), {})
  {
    assert es == es[..k] + es[k..];
    EntryEventsConcat(es[..k], es[k..]);
    RunConcat(EntryEvents(es[..k]), EntryEvents(es[k..]), {});
  }

  // A fork that drops something cuts at a rise, and every rise is cut by a fork.
  lemma ForkIsRise(es: seq<Entry>, t: nat)
    ensures 0 < ForkPoint(es, t) < |es| ==> Rise(es, ForkPoint(es, t))
  {
  }

  lemma RiseIsFork(es: seq<Entry>, k: nat)
    requires Rise(es, k)
    ensures ForkPoint(es, es[k - 1].turnId) == k
  {
  }

  lemma AlignedForkSplitsNoPair(es: seq<Entry>, t: nat)
    requires IsBalanced(es) && Aligned(es)
    ensures ForkSplitsNoPair(es, t)
  {
    var k := ForkPoint(es, t);
    ForkIsRise(es, t);
    SplitRun(es, k);
    if k == |es| {
      assert es[..k] == es;
    } else if k == 0 {
      assert es[..k] == [] && EntryEvents([]) == [];
    }
  }

  // A balanced log can be forked at every turn without parting a call from its result
  // exactly when it is aligned.
  lemma ForksAreSafeIff(es: seq<Entry>)
    requires IsBalanced(es)
    ensures (forall t: nat :: ForkSplitsNoPair(es, t)) <==> Aligned(es)
  {
    if Aligned(es) {
      forall t: nat ensures ForkSplitsNoPair(es, t) {
        AlignedForkSplitsNoPair(es, t);
      }
    }
    if forall t: nat :: ForkSplitsNoPair(es, t) {
      forall k: nat | Rise(es, k) ensures OpenCalls(es[..k]) == {} {
        RiseIsFork(es, k);
        assert ForkSplitsNoPair(es, es[k - 1].turnId);
      }
    }
  }

  // What keeps a log aligned.

  lemma AlignedPrefix(es: seq<Entry>, k: nat)
    requires Aligned(es) && (k == |es| || Rise(es, k))
    ensures Aligned(es[..k])
  {
    forall i: nat | Rise(es[..k], i) ensures OpenCalls(es[..k][..i]) == {} {
      assert es[..k][..i] == es[..i];
      assert Rise(es, i) by {
        assert es[k - 1] == es[..k][k - 1];
        forall j | i <= j < |es| ensures es[j].turnId > es[i - 1].turnId {
          if j < k { assert es[j] == es[..k][j]; }
        }
      }
    }
  }

  lemma OpenAfter(a: seq<Entry>, b: seq<Entry>)
    requires IsBalanced(a)
    ensures Run(EntryEvents(a + b), {}) == Run(EntryEvents(b), {})
    ensures OpenCalls(a + b) == OpenCalls(b)
  {
    EntryEventsConcat(a, b);
    RunConcat(EntryEvents(a), EntryEvents(b), {});
  }

  lemma AlignedSuffix(es: seq<Entry>, k: nat)
    requires Aligned(es) && k <= |es| && IsBalanced(es[..k])
    ensures Aligned(es[k..])
  {
    forall i: nat | Rise(es[k..], i) ensures OpenCalls(es[k..][..i]) == {} {
      assert Rise(es, k + i) by {
        forall j | k + i <= j < |es| ensures es[j].turnId > es[k + i - 1].turnId {
          assert es[j] == es[k..][j - k];
        }
      }
      assert es[..k + i] == es[..k] + es[k..][..i];
      OpenAfter(es[..k], es[k..][..i]);
    }
  }

  lemma RiseOfConcat(a: seq<Entry>, b: seq<Entry>, k: nat)
    requires Rise(a + b, k)
    ensures k < |a| ==> Rise(a, k) && (a + b)[..k] == a[..k]
    ensures k == |a| ==> b[0].turnId > a[|a| - 1].turnId && (a + b)[..k] == a
    ensures k > |a| ==> Rise(b, k - |a|) && (a + b)[..k] == a + b[..k - |a|]
  {
    var all := a + b;
    if k < |a| {
      forall j | k <= j < |a| ensures a[j].turnId > a[k - 1].turnId { assert a[j] == all[j]; }
    } else if k > |a| {
      forall j | k - |a| <= j < |b| ensures b[j].turnId > b[k - |a| - 1].turnId { assert b[j] == all[|a| + j]; }
    } else {
      assert all[k] == b[0];
    }
  }

  lemma AlignedConcat(a: seq<Entry>, b: seq<Entry>)
    requires Aligned(a) && Aligned(b) && IsBalanced(a)
    ensures Aligned(a + b)
  {
    forall k: nat | Rise(a + b, k) ensures OpenCalls((a + b)[..k]) == {} {
      RiseOfConcat(a, b, k);
      if k > |a| {
        OpenAfter(a, b[..k - |a|]);
      }
    }
  }

  // Entries of one turn go on top of an aligned log when no call waits there, or when
  // the turn is not later than that of the last entry.
  predicate OfTurn(es: seq<Entry>, t: nat) {
    forall e | e in es :: e.turnId == t
  }

  predicate MayGoOn(es: seq<Entry>, t: nat) {
    OpenCalls(es) == {} || (es != [] && es[|es| - 1].turnId >= t)
  }

  lemma OneTurnNeverRises(es: seq<Entry>, t: nat, k: nat)
    requires OfTurn(es, t)
    ensures !Rise(es, k)
  {
    if 0 < k < |es| {
      assert es[k] in es && es[k - 1] in es;
    }
  }

  lemma AlignedAppend(a: seq<Entry>, b: seq<Entry>, t: nat)
    requires Aligned(a) && OfTurn(b, t) && MayGoOn(a, t)
    ensures Aligned(a + b)
  {
    forall k: nat | Rise(a + b, k) ensures OpenCalls((a + b)[..k]) == {} {
      RiseOfConcat(a, b, k);
      if k > |a| {
        OneTurnNeverRises(b, t, k - |a|);
      } else if k == |a| {
        assert b[0] in b;
      }
    }
  }

  lemma StampedOfTurn(es: seq<Entry>, t: nat, from: Option<nat>)
    requires OfTurn(es, 0)
    ensures OfTurn(StampedAll(es, t, from), t)
  {
    forall i | 0 <= i < |es| ensures StampedAll(es, t, from)[i].turnId == t { assert es[i] in es; }
  }

  // Compaction.

  lemma ChatIsAligned(es: seq<Entry>)
    requires AllChat(EntryEvents(es))
    ensures Aligned(es) && IsBalanced(es)
  {
    forall k: nat | k <= |es| ensures Run(EntryEvents(es[..k]), {}) == Some({}) {
      var events := EntryEvents(es[..k]);
      assert forall i | 0 <= i < k :: events[i] == EntryEvents(es)[i];
      ChatRuns(events, [], {});
      assert events + [] == events;
    }
    assert es[..|es|] == es;
  }

  lemma CutIsBalanced(es: seq<Entry>, cut: nat)
    requires LogShaped(es) && UniqueIds(EntryEvents(es)) && IsBalanced(es)
    requires cut <= |es| && Safe(es, cut)
    ensures IsBalanced(es[..cut])
  {
    SplitRun(es, cut);
    SafeCutSeparates(es, cut);
    var open := OpenCalls(es[..cut]);
    ForgetOpen(EntryEvents(es[cut..]), open, open);
    assert open <= {} && open == {};
  }

  lemma CompactionKeepsAligned(es: seq<Entry>, summary: string, substantive: string -> bool)
    requires LogShaped(es) && UniqueIds(EntryEvents(es)) && IsBalanced(es) && Aligned(es)
    ensures Aligned(Compacted(es, summary, substantive))
  {
    var cut := KeepFrom(es, RequestedStart(es));
    CutIsBalanced(es, cut);
    AlignedSuffix(es, cut);
    assert LogShaped(es[..cut]);
    HeadIsChat(es[..cut], summary, substantive);
    ChatIsAligned(Head(es[..cut], summary, substantive));
    AlignedConcat(Head(es[..cut], summary, substantive), es[cut..]);
  }

  // A turn.

  lemma TailOfTurn(c: Completion, outcomes: nat -> ToolOutcome, tools: Tools)
    ensures OfTurn(TurnTail(c, outcomes, tools), 0)
    ensures Halts(c, outcomes, tools) ==> TurnTail(c, outcomes, tools) != []
  {
    if Batchable(c.toolCalls, tools) {
      BatchOfTurn(c.toolCalls, outcomes, 0, tools);
    }
  }

  lemma OfTurnCons(e: Entry, es: seq<Entry>, t: nat)
    requires e.turnId == t && OfTurn(es, t)
    ensures OfTurn([e] + es, t)
  {
  }

  lemma {:induction false} BatchOfTurn(calls: seq<Invocation>, outcomes: nat -> ToolOutcome, i: nat, tools: Tools)
    requires i <= |calls|
    ensures OfTurn(BatchResults(calls, outcomes, i, tools), 0)
    decreases |calls| - i
  {
    if i < |calls| {
      var result := ToolResult(calls[i].id, tools.observe(calls[i], outcomes(i)));
      if outcomes(i).Ran? {
        BatchOfTurn(calls, outcomes, i + 1, tools);
        OfTurnCons(result, BatchResults(calls, outcomes, i + 1, tools), 0);
      } else {
        NotExecutedOfTurn(calls[i + 1..], tools);
        OfTurnCons(result, NotExecuted(calls[i + 1..], tools), 0);
      }
    }
  }

  lemma {:induction false} NotExecutedOfTurn(calls: seq<Invocation>, tools: Tools)
    ensures OfTurn(NotExecuted(calls, tools), 0)
  {
    if calls != [] {
      NotExecutedOfTurn(calls[1..], tools);
      OfTurnCons(ToolResult(calls[0].id, tools.observe(calls[0], NOT_EXECUTED)), NotExecuted(calls[1..], tools), 0);
    }
  }

  lemma AskedIsAligned(es: seq<Entry>, input: TurnInput, turnId: nat, from: Option<nat>, issued: set<CallId>)
    requires Kept(es, issued) && IsBalanced(es) && Aligned(es)
    ensures var asked := Asked(es, input, turnId, from);
            Kept(asked, issued) && IsBalanced(asked) && Aligned(asked)
  {
    var notes := StampedAll(UserEntries(input), turnId, from);
    UserEntriesAreNotes(input, turnId, from);
    AppendNotes(es, notes, issued);
    StampedOfTurn(UserEntries(input), turnId, from);
    AlignedAppend(es, notes, turnId);
  }

  lemma ReadyLogIsAligned(es: seq<Entry>, input: TurnInput, threshold: nat, substantive: string -> bool,
                          turnId: nat, from: Option<nat>, issued: set<CallId>)
    requires Kept(es, issued) && IsBalanced(es) && Aligned(es)
    ensures var ready := ReadyLog(es, input, threshold, substantive, turnId, from);
            IsBalanced(ready) && Aligned(ready)
  {
    var asked := Asked(es, input, turnId, from);
    AskedIsAligned(es, input, turnId, from, issued);
    CompactionKeepsAligned(asked, input.summary, substantive);
    CompactionKeepsBalance(asked, input.summary, substantive);
    if input.recap.Some? {
      CompactionKeepsAligned(asked, input.recap.value, substantive);
      CompactionKeepsBalance(asked, input.recap.value, substantive);
    }
  }

  // A turn on a balanced, aligned log leaves it aligned; and when it halts, the call left
  // open is of the current turn.
  lemma TurnKeepsAligned(es: seq<Entry>, input: TurnInput, threshold: nat, substantive: string -> bool,
                         tools: Tools, turnId: nat, from: Option<nat>, issued: set<CallId>)
    requires Kept(es, issued) && IsBalanced(es) && Aligned(es)
    ensures var after := TurnLog(es, input, threshold, substantive, tools, turnId, from);
            Aligned(after)
            && (TurnHalts(es, input, threshold, tools, turnId, from)
                ==> after != [] && after[|after| - 1].turnId == turnId)
  {
    ReadyLogIsAligned(es, input, threshold, substantive, turnId, from, issued);
    if Answered(es, input, threshold, turnId, from) {
      var c := input.completion.value;
      var tail := TurnTail(c, input.outcomes, tools);
      TailOfTurn(c, input.outcomes, tools);
      StampedOfTurn(tail, turnId, from);
      AlignedAppend(ReadyLog(es, input, threshold, substantive, turnId, from),
                    StampedAll(tail, turnId, from), turnId);
      if tail != [] {
        assert StampedAll(tail, turnId, from)[|tail| - 1] in StampedAll(tail, turnId, from);
      }
    }
  }
}
