// The context manager: the log of a session and the requests built from it.
module ContextLog {
  import opened Options
  import opened Protocol
  import opened Conversation
  import opened Repair
  import opened UniqueCalls
  import opened Merge
  import opened Trim
  import opened Compaction
  import opened CompactionKeeps
  import Text
  import Tokens

  const U64_MAX: nat := 0xFFFF_FFFF_FFFF_FFFF

  // The messages of one request.
  function Prepared(es: seq<Entry>, limit: nat, show: Entry -> string): seq<Message> {
    Repaired(Trimmed(Merged(RenderAll(es, show)), limit))
  }

  // Whatever the log, the request fits the hard limit or is a single message.
  lemma RequestFits(es: seq<Entry>, limit: nat, show: Entry -> string)
    ensures Fits(Prepared(es, limit, show), limit)
  {
    TrimmedFits(Merged(RenderAll(es, show)), limit);
    RepairShrinks(Trimmed(Merged(RenderAll(es, show)), limit));
  }

  lemma {:induction false} TrimmedFits(ms: seq<Message>, limit: nat)
    ensures Fits(Trimmed(ms, limit), limit)
    decreases |ms|
  {
    if !Fits(ms, limit) {
      RepairShrinks(ms[1..]);
      TrimmedFits(Repaired(ms[1..]), limit);
    }
  }

  lemma MergedIsUnique(es: seq<Entry>, show: Entry -> string)
    requires UniqueIds(EntryEvents(es)) && Run(EntryEvents(es), {}).Some?
    ensures var ms := Merged(RenderAll(es, show));
            UniqueOrdered(MessageEvents(ms)) && AllWireShaped(ms)
  {
    var rendered := RenderAll(es, show);
    RunIsOrdered(EntryEvents(es), {});
    RenderKeepsEvents(es, show);
    MergeKeepsToolEvents(rendered);
    MergeKeepsShape(rendered);
    OnlyToolEventsMatter(MessageEvents(rendered));
    OnlyToolEventsMatter(MessageEvents(Merged(rendered)));
  }

  // A log with unique ids that keeps the protocol, even with calls still open, yields
  // a request in which every call is answered: one repair of a suffix of the merged log.
  lemma RequestIsBalanced(es: seq<Entry>, limit: nat, show: Entry -> string) returns (k: nat)
    requires UniqueIds(EntryEvents(es)) && Run(EntryEvents(es), {}).Some?
    ensures k <= |Merged(RenderAll(es, show))|
    ensures Prepared(es, limit, show) == Repaired(Merged(RenderAll(es, show))[k..])
    ensures Balanced(MessageEvents(Prepared(es, limit, show)))
  {
    var ms := Merged(RenderAll(es, show));
    MergedIsUnique(es, show);
    UniqueIsOrdered(ms);
    k := TrimIsOneShot(ms, limit);
    UniqueOrderedSuffix(MessageEvents(ms), k);
    assert MessageEvents(ms)[k..] == MessageEvents(ms[k..]);
    WireShapedTail(ms, k);
    UniqueIsInTime(ms[k..]);
  }

  // A balanced log that fits is sent whole, but for blank assistant turns.
  lemma BalancedLogIsSentWhole(es: seq<Entry>, limit: nat, show: Entry -> string)
    requires Balanced(EntryEvents(es)) && Fits(Merged(RenderAll(es, show)), limit)
    ensures Prepared(es, limit, show) == DropBlank(Merged(RenderAll(es, show)))
  {
    var rendered := RenderAll(es, show);
    RenderKeepsEvents(es, show);
    MergeKeepsToolEvents(rendered);
    OnlyToolEventsRun(MessageEvents(rendered), {});
    OnlyToolEventsRun(MessageEvents(Merged(rendered)), {});
    RepairKeepsBalanced(Merged(rendered));
  }

  predicate IssuesCalls(e: Entry) {
    e.source == Assistant && |e.toolCalls| > 0
  }

  // The text of an entry as it is sent, and what the texts of a log cost.
  function SentText(e: Entry, show: Entry -> string): string {
    if IssuesCalls(e) then e.content else show(e)
  }

  function SentTokens(es: seq<Entry>, show: Entry -> string): nat {
    if es == [] then 0 else Text.DivCeil(Text.Utf8Len(SentText(es[0], show)), 4) + SentTokens(es[1..], show)
  }

  // An entry that goes out as text alone.
  predicate SentAsText(e: Entry) {
    !IssuesCalls(e) && e.toolCallId == None && (e.source == Assistant || e.images == [])
  }

  predicate SentAsIs(es: seq<Entry>, limit: nat, show: Entry -> string) {
    && Balanced(EntryEvents(es))
    && (SentTokens(es, show) <= limit || |es| <= 1)
    && (forall i | 0 < i < |es| ::
          !(SentAsText(es[i - 1]) && SentAsText(es[i]) && (es[i - 1].source == Assistant <==> es[i].source == Assistant)))
    && (forall i | 0 <= i < |es| ::
          es[i].source == Assistant && !IssuesCalls(es[i]) && es[i].toolCallId == None ==>
          !Text.AllWhitespace(show(es[i])))
  }

  lemma {:induction false} SentTokensAre(es: seq<Entry>, show: Entry -> string)
    ensures MessageTokens(RenderAll(es, show)) == SentTokens(es, show)
  {
    if es != [] {
      assert RenderAll(es, show)[1..] == RenderAll(es[1..], show);
      SentTokensAre(es[1..], show);
      RenderRepresents(es, show, 0);
    }
  }

  lemma PreparedRepresents(es: seq<Entry>, limit: nat, show: Entry -> string)
    requires SentAsIs(es, limit, show)
    ensures var messages := Prepared(es, limit, show);
            |messages| == |es| && forall i | 0 <= i < |es| :: Represents(messages[i], es[i], show)
  {
    var rendered := RenderAll(es, show);
    forall i | 0 <= i < |es| ensures Represents(rendered[i], es[i], show) {
      RenderRepresents(es, show, i);
    }
    NothingToMerge(es, limit, show);
    MergeIsIdentity(rendered);
    SentTokensAre(es, show);
    BalancedLogIsSentWhole(es, limit, show);
    NothingBlank(es, limit, show);
    NoBlankDropsNothing(rendered);
  }

  lemma NothingToMerge(es: seq<Entry>, limit: nat, show: Entry -> string)
    requires SentAsIs(es, limit, show)
    ensures NothingJoins(RenderAll(es, show))
  {
    var rendered := RenderAll(es, show);
    forall i | 0 < i < |es|
      ensures !(TextOnly(rendered[i - 1]) && TextOnly(rendered[i]) && rendered[i - 1].role == rendered[i].role)
    {
      RenderRepresents(es, show, i - 1);
      RenderRepresents(es, show, i);
    }
  }

  lemma NothingBlank(es: seq<Entry>, limit: nat, show: Entry -> string)
    requires SentAsIs(es, limit, show)
    ensures forall m | m in RenderAll(es, show) :: !Blank(m)
  {
    forall m | m in RenderAll(es, show) ensures !Blank(m) {
      var i :| 0 <= i < |es| && m == RenderAll(es, show)[i];
      RenderRepresents(es, show, i);
      Text.BlankMeans(m.content);
    }
  }

  function Stamped(e: Entry, turnId: nat, branchedFrom: Option<nat>): Entry {
    e.(turnId := if e.turnId == 0 then turnId else e.turnId,
       parentTurnId := if e.parentTurnId.None? then branchedFrom else e.parentTurnId)
  }

  function StampedAll(es: seq<Entry>, turnId: nat, branchedFrom: Option<nat>): (r: seq<Entry>)
    ensures |r| == |es|
  {
    seq(|es|, i requires 0 <= i < |es| => Stamped(es[i], turnId, branchedFrom))
  }

  lemma StampKeepsEvents(es: seq<Entry>, turnId: nat, branchedFrom: Option<nat>)
    ensures EntryEvents(StampedAll(es, turnId, branchedFrom)) == EntryEvents(es)
    ensures LogShaped(StampedAll(es, turnId, branchedFrom)) <==> LogShaped(es)
  {
    var stamped := StampedAll(es, turnId, branchedFrom);
    assert forall i | 0 <= i < |es| :: EntryShaped(stamped[i]) <==> EntryShaped(es[i]);
    if LogShaped(es) {
      assert forall i | 0 <= i < |es| :: EntryShaped(es[i]);
    }
    if LogShaped(stamped) {
      assert forall i | 0 <= i < |es| :: EntryShaped(stamped[i]);
    }
  }

  // What stamping does: a turn id and a branch of the entry's own stay, missing ones are
  // filled in, and nothing else changes.
  lemma StampMeans(e: Entry, turnId: nat, branchedFrom: Option<nat>)
    ensures var r := Stamped(e, turnId, branchedFrom);
            && (e.turnId > 0 ==> r.turnId == e.turnId) && (e.turnId == 0 ==> r.turnId == turnId)
            && (e.parentTurnId != None ==> r.parentTurnId == e.parentTurnId)
            && (e.parentTurnId == None ==> r.parentTurnId == branchedFrom)
            && r.(turnId := e.turnId, parentTurnId := e.parentTurnId) == e
  {
  }

  function TotalTokens(es: seq<Entry>): nat {
    if es == [] then 0 else TotalTokens(es[..|es| - 1]) + Tokens.Estimate(es[|es| - 1].content)
  }

  // The log costs what its entries cost.
  lemma {:induction false} TotalTokensMeans(a: seq<Entry>, e: Entry, b: seq<Entry>)
    ensures TotalTokens(a + [e] + b) == TotalTokens(a) + Tokens.Estimate(e.content) + TotalTokens(b)
    decreases |b|
  {
    var all := a + [e] + b;
    if b == [] {
      assert all == a + [e] && all[..|a|] == a;
    } else {
      assert all[..|all| - 1] == a + [e] + b[..|b| - 1];
      TotalTokensMeans(a, e, b[..|b| - 1]);
    }
  }

  datatype Limits =
    Limits(hardLimitTokens: nat, llmCompactionThresholdTokens: nat, autoCompactionPct: real)

  function Clamp(pct: real): (r: real)
    ensures 0.1 <= r <= 0.99
  {
    if pct < 0.1 then 0.1 else if pct > 0.99 then 0.99 else pct
  }

  // llm_compaction_threshold: a share of the model window when one is installed.
  function Threshold(limits: Limits, window: Option<nat>): nat {
    match window
    case None => limits.llmCompactionThresholdTokens
    case Some(tokens) =>
      assert tokens as real * Clamp(limits.autoCompactionPct) >= 0.0;
      (tokens as real * Clamp(limits.autoCompactionPct)).Floor
  }

  // Without a window the configured threshold holds; with one, the share of it that is
  // configured, but at least a tenth and at most ninety-nine hundredths, rounded down.
  lemma ThresholdMeans(limits: Limits, window: Option<nat>)
    ensures window == None ==> Threshold(limits, window) == limits.llmCompactionThresholdTokens
    ensures window.Some? ==>
      var t, w, pct := Threshold(limits, window) as real, window.value as real, limits.autoCompactionPct;
      && (pct < 0.1 ==> t <= w * 0.1 < t + 1.0)
      && (0.1 <= pct <= 0.99 ==> t <= w * pct < t + 1.0)
      && (pct > 0.99 ==> t <= w * 0.99 < t + 1.0)
  {
  }

  class ContextManager {
    const limits: Limits
    var entries: seq<Entry>
    var currentTurnId: nat
    var branchedFrom: Option<nat>
    var modelWindowTokens: Option<nat>

    constructor (limits: Limits)
      ensures entries == [] && currentTurnId == 0 && branchedFrom == None && modelWindowTokens == None
      ensures this.limits == limits
    {
      this.limits := limits;
      entries, currentTurnId, branchedFrom, modelWindowTokens := [], 0, None, None;
    }

    method BumpTurnId() returns (turnId: nat)
      modifies this`currentTurnId
      ensures turnId == currentTurnId
      ensures currentTurnId == if old(currentTurnId) < U64_MAX then old(currentTurnId) + 1 else U64_MAX
    {
      currentTurnId := if currentTurnId < U64_MAX then currentTurnId + 1 else U64_MAX;
      turnId := currentTurnId;
    }

    method Append(entry: Entry)
      modifies this`entries
      ensures entries == old(entries) + [Stamped(entry, currentTurnId, branchedFrom)]
    {
      var stamped := entry;
      if stamped.turnId == 0 {
        stamped := stamped.(turnId := currentTurnId);
      }
      if stamped.parentTurnId.None? {
        stamped := stamped.(parentTurnId := branchedFrom);
      }
      entries := entries + [stamped];
    }

    // Replaces the log and nothing else: neither the turn counter nor the branch
    // marker is taken from the restored entries.
    method RestoreEntries(restored: seq<Entry>)
      modifies this`entries
      ensures entries == restored
    {
      entries := restored;
    }

    // Cuts the log after the last entry of a turn up to turnId. None, and no change,
    // when no entry carries turnId.
    method BranchFrom(turnId: nat) returns (dropped: Option<seq<Entry>>)
      modifies this`entries, this`currentTurnId, this`branchedFrom
      ensures dropped.None? <==> forall e | e in old(entries) :: e.turnId != turnId
      ensures dropped.None? ==>
        entries == old(entries) && currentTurnId == old(currentTurnId) && branchedFrom == old(branchedFrom)
      ensures dropped.Some? ==>
        entries + dropped.value == old(entries) && currentTurnId == turnId && branchedFrom == Some(turnId)
        && entries != [] && entries[|entries| - 1].turnId <= turnId
        && forall e | e in dropped.value :: e.turnId > turnId
    {
      if forall e | e in entries :: e.turnId != turnId {
        return None;
      }
      var lastKeep := FindLastAtOrBefore(entries, turnId);
      if lastKeep < 0 {
        return None;
      }
      dropped := Some(entries[lastKeep + 1..]);
      entries := entries[..lastKeep + 1];
      branchedFrom := Some(turnId);
      currentTurnId := turnId;
    }

    method EstimatedTokens() returns (total: nat)
      ensures total == TotalTokens(entries)
    {
      total := 0;
      for i := 0 to |entries|
        invariant total == TotalTokens(entries[..i])
      {
        assert entries[..i + 1][..i] == entries[..i];
        var tokens := Tokens.EstimateTokensForText(entries[i].content);
        total := total + tokens;
      }
      assert entries[..|entries|] == entries;
    }

    // compact_tier1 and the end of compact_with_llm_inner: they differ only in the summary.
    method Compact(summary: string, substantive: string -> bool)
      modifies this`entries
      ensures entries == Compacted(old(entries), summary, substantive)
      ensures CompactedMeans(old(entries), KeepFrom(old(entries), RequestedStart(old(entries))), entries, summary, substantive)
    {
      CompactedByPosition(entries, summary, substantive);
      var requested := if |entries| >= KEEP_TAIL then |entries| - KEEP_TAIL else 0;
      var keepFrom := ProtocolSafeKeepFrom(entries, requested);
      GreatestSafeIsUnique(entries, requested, keepFrom, KeepFrom(entries, requested));
      var compacted := Pinned(entries[..keepFrom]);
      compacted := compacted + Anchor(entries[..keepFrom], substantive);
      compacted := compacted + [Trusted(PlanReminder, summary)];
      compacted := compacted + entries[keepFrom..];
      entries := compacted;
    }

    method CompactIfNeeded(summary: string, substantive: string -> bool) returns (did: bool)
      modifies this`entries
      ensures did <==> TotalTokens(old(entries)) > Threshold(limits, modelWindowTokens) && |old(entries)| > KEEP_TAIL
      ensures entries == if did then Compacted(old(entries), summary, substantive) else old(entries)
    {
      var tokens := EstimatedTokens();
      if tokens <= Threshold(limits, modelWindowTokens) || |entries| <= KEEP_TAIL {
        return false;
      }
      Compact(summary, substantive);
      did := true;
    }

    // compact_with_llm, and force_compact_with_llm when forced. recap is the summary
    // text, or None when the provider call fails; a failed call compacts nothing.
    method CompactWithLlm(forced: bool, recap: Option<string>, substantive: string -> bool)
      returns (did: bool)
      modifies this`entries
      ensures did <==>
        recap.Some? && |old(entries)| > KEEP_TAIL
        && (forced || TotalTokens(old(entries)) > Threshold(limits, modelWindowTokens))
      ensures entries == if did then Compacted(old(entries), recap.value, substantive) else old(entries)
    {
      var tokens := EstimatedTokens();
      if |entries| <= KEEP_TAIL || (!forced && tokens <= Threshold(limits, modelWindowTokens)) || recap.None? {
        return false;
      }
      Compact(recap.value, substantive);
      did := true;
    }

    // Render, merge, trim and repair. A log that is balanced and fits, with nothing to merge
    // and no blank assistant turn, is sent entry by entry.
    method ToMessages(show: Entry -> string) returns (messages: seq<Message>)
      ensures messages == Prepared(entries, limits.hardLimitTokens, show)
      ensures SentAsIs(entries, limits.hardLimitTokens, show) ==>
        |messages| == |entries| && forall i | 0 <= i < |entries| :: Represents(messages[i], entries[i], show)
    {
      if SentAsIs(entries, limits.hardLimitTokens, show) {
        PreparedRepresents(entries, limits.hardLimitTokens, show);
      }
      messages := RenderAll(entries, show);
      messages := MergeConsecutiveRoles(messages);
      messages := TrimToHardLimit(messages, limits.hardLimitTokens);
      messages := RepairToolCallPairs(messages);
    }
  }
}
