// Where compaction falls short: ids that are used again, and a pinned anchor.
module CompactionLimits {
  import opened Options
  import opened Protocol
  import opened Conversation
  import opened Compaction

  // A call of x at i is answered at j, on the other side of the cut, and x is called again at k.
  predicate ReusedAcross(es: seq<Entry>, cut: nat, x: CallId, i: nat, j: nat, k: nat) {
    i < cut <= j < k < |es| && Matches(EntryEvents(es), i, j, x) && Issues(EntryEvents(es)[k], x)
  }

  lemma OpenAtCut(es: seq<Entry>, cut: nat, x: CallId)
    requires Balanced(EntryEvents(es)) && cut <= |es|
    ensures Run(EntryEvents(es[..cut]), {}).Some?
    ensures x in Run(EntryEvents(es[..cut]), {}).value
       <==> exists i: nat, j: nat :: i < cut <= j && Matches(EntryEvents(es), i, j, x)
  {
    var events := EntryEvents(es);
    assert EntryEvents(es[..cut]) == events[..cut];
    BalancedMeansPaired(events);
    var open := PairedRuns(events, cut);
    if x in open {
      var i: nat :| i < cut && Issues(events[i], x) && Untouched(events, i + 1, cut, x);
      var j: nat :| Matches(events, i, j, x);
      assert j >= cut by { assert Touches(events[j], x); }
    }
    if i: nat, j: nat :| i < cut <= j && Matches(events, i, j, x) {
      assert Untouched(events, i + 1, cut, x);
      assert Pending(events, cut, x);
    }
  }

  lemma CallIsEvent(es: seq<Entry>, k: nat, x: CallId)
    requires LogShaped(es) && k < |es|
    ensures x in CallsOf(es[k]) <==> Issues(EntryEvents(es)[k], x)
  {
    assert es[k] in es && EntryShaped(es[k]);
  }

  // At a safe cut, a call answered across the cut is one whose id is called again.
  lemma AcrossIsReused(es: seq<Entry>, cut: nat, x: CallId, i: nat, j: nat) returns (k: nat)
    requires LogShaped(es) && cut <= |es| && Safe(es, cut)
    requires i < cut <= j && Matches(EntryEvents(es), i, j, x)
    ensures ReusedAcross(es, cut, x, i, j, k)
  {
    var events := EntryEvents(es);
    CallIsEvent(es, i, x);
    assert Called(es, 0, cut, x);
    assert es[j].toolCallId == Some(x) by { assert EntryEvent(es[j]) == Answer(x); }
    assert !Orphan(es, cut, j);
    k :| cut <= k < |es| && x in CallsOf(es[k]);
    CallIsEvent(es, k, x);
    assert k >= j by { assert Touches(events[k], x); }
  }

  // Compaction leaves a balanced log unbalanced exactly when, across the cut, a call is
  // answered whose id is called again after that.
  lemma CompactionBreaksIff(es: seq<Entry>, cut: nat, summary: string, substantive: string -> bool)
    requires LogShaped(es) && Balanced(EntryEvents(es)) && cut == KeepFrom(es, RequestedStart(es))
    ensures !Balanced(EntryEvents(Compacted(es, summary, substantive)))
       <==> exists x, i: nat, j: nat, k: nat :: ReusedAcross(es, cut, x, i, j, k)
  {
    CompactionBalanceIff(es, cut, summary, substantive);
    OpenAtCut(es, cut, "");
    var open := Run(EntryEvents(es[..cut]), {}).value;
    if x :| x in open {
      OpenAtCut(es, cut, x);
      var i: nat, j: nat :| i < cut <= j && Matches(EntryEvents(es), i, j, x);
      var k := AcrossIsReused(es, cut, x, i, j);
    } else {
      assert open == {};
    }
    if x, i: nat, j: nat, k: nat :| ReusedAcross(es, cut, x, i, j, k) {
      OpenAtCut(es, cut, x);
    }
  }

  // A pinned anchor.

  function Copies(e: Entry, n: nat): seq<Entry> {
    seq(n, _ => e)
  }

  // Entries that are neither pinned nor the user's, and take no part in the protocol.
  predicate Idle(es: seq<Entry>) {
    forall e | e in es :: e.toolCalls == [] && e.toolCallId.None? && !e.pinned && e.source != User
  }

  lemma ToolFreeCut(es: seq<Entry>, bound: nat)
    requires bound <= |es| && forall e | e in es :: e.toolCallId.None?
    ensures KeepFrom(es, bound) == bound
  {
  }

  lemma CopiesSnoc(e: Entry, n: nat)
    ensures Copies(e, n + 1) == Copies(e, n) + [e]
  {
  }

  lemma PinnedSnoc(es: seq<Entry>, e: Entry)
    ensures Pinned(es + [e]) == Pinned(es) + if e.pinned then [e] else []
  {
    assert (es + [e])[..|es|] == es;
  }

  lemma {:induction false} PinnedCopies(e: Entry, n: nat)
    requires e.pinned
    ensures Pinned(Copies(e, n)) == Copies(e, n)
  {
    if n > 0 {
      PinnedCopies(e, n - 1);
      CopiesSnoc(e, n - 1);
      PinnedSnoc(Copies(e, n - 1), e);
    }
  }

  lemma {:induction false} IdleTail(es: seq<Entry>, idle: seq<Entry>, accept: string -> bool)
    requires Idle(idle)
    ensures Pinned(es + idle) == Pinned(es) && LastUser(es + idle, accept) == LastUser(es, accept)
    decreases |idle|
  {
    if idle == [] {
      assert es + idle == es;
    } else {
      var init, last := idle[..|idle| - 1], idle[|idle| - 1];
      assert last in idle && (es + idle)[..|es + idle| - 1] == es + init;
      IdleTail(es, init, accept);
      assert Pinned(es + init) + [] == Pinned(es + init);
    }
  }

  lemma CopiesAnchor(e: Entry, n: nat, idle: seq<Entry>, substantive: string -> bool)
    requires n > 0 && e.source == User && Idle(idle)
    ensures Anchor(Copies(e, n) + idle, substantive) == [e]
  {
    IdleTail(Copies(e, n), idle, substantive);
    IdleTail(Copies(e, n), idle, _ => true);
    assert Copies(e, n)[n - 1] == e;
    if !substantive(e.content) {
      NeverAccepted(e, n, substantive);
    }
  }

  lemma {:induction false} NeverAccepted(e: Entry, n: nat, accept: string -> bool)
    requires !accept(e.content)
    ensures LastUser(Copies(e, n), accept).None?
  {
    if n > 0 {
      assert Copies(e, n)[..n - 1] == Copies(e, n - 1);
      NeverAccepted(e, n - 1, accept);
    }
  }

  // A log whose older part is a pinned user entry, some number of times, and idle entries:
  // compaction adds one copy of the pinned entry, whatever their number.
  lemma PinnedAnchorGrows(e: Entry, n: nat, older: seq<Entry>, tail: seq<Entry>,
                          summary: string, substantive: string -> bool)
    requires n > 0 && e.source == User && e.pinned && e.toolCalls == [] && e.toolCallId.None?
    requires Idle(older) && Idle(tail) && |tail| == KEEP_TAIL
    ensures Compacted(Copies(e, n) + older + tail, summary, substantive)
         == Copies(e, n + 1) + [Trusted(PlanReminder, summary)] + tail
  {
    ToolFreeCompacted(Copies(e, n) + older, tail, summary, substantive);
    IdleTail(Copies(e, n), older, substantive);
    PinnedCopies(e, n);
    CopiesAnchor(e, n, older, substantive);
    CopiesSnoc(e, n);
  }

  lemma ToolFreeCompacted(folded: seq<Entry>, tail: seq<Entry>, summary: string, substantive: string -> bool)
    requires |tail| == KEEP_TAIL && forall e | e in folded || e in tail :: e.toolCallId.None?
    ensures Compacted(folded + tail, summary, substantive) == Head(folded, summary, substantive) + tail
  {
    var es := folded + tail;
    ToolFreeCut(es, |folded|);
    assert es[..|folded|] == folded && es[|folded|..] == tail;
  }

  // A log of one pinned task and six idle entries has one pinned entry; after one
  // compaction two, after the next three.
  lemma PinnedTwiceAndThrice(e: Entry, tail: seq<Entry>, summary: string, substantive: string -> bool)
    requires e == Trusted(User, "task").(pinned := true)
    requires Idle(tail) && |tail| == KEEP_TAIL
    ensures var es := [e] + tail;
            var once := Compacted(es, summary, substantive);
            var twice := Compacted(once, summary, substantive);
            Pinned(es) == Copies(e, 1) && Pinned(once) == Copies(e, 2) && Pinned(twice) == Copies(e, 3)
  {
    var note := [Trusted(PlanReminder, summary)];
    assert [e] + tail == Copies(e, 1) + [] + tail;
    PinnedAnchorGrows(e, 1, [], tail, summary, substantive);
    PinnedOfCopies(e, 1, [], tail);
    PinnedOfCopies(e, 2, note, tail);
    GrowsAgain(e, note, tail, summary, substantive);
  }

  lemma GrowsAgain(e: Entry, note: seq<Entry>, tail: seq<Entry>, summary: string, substantive: string -> bool)
    requires e.source == User && e.pinned && e.toolCalls == [] && e.toolCallId.None?
    requires note == [Trusted(PlanReminder, summary)] && Idle(tail) && |tail| == KEEP_TAIL
    ensures Pinned(Compacted(Copies(e, 2) + note + tail, summary, substantive)) == Copies(e, 3)
  {
    PinnedAnchorGrows(e, 2, note, tail, summary, substantive);
    PinnedOfCopies(e, 3, note, tail);
  }

  lemma PinnedOfCopies(e: Entry, n: nat, older: seq<Entry>, tail: seq<Entry>)
    requires e.pinned && Idle(older) && Idle(tail)
    ensures Pinned(Copies(e, n) + older + tail) == Copies(e, n)
  {
    IdleTail(Copies(e, n) + older, tail, _ => true);
    IdleTail(Copies(e, n), older, _ => true);
    PinnedCopies(e, n);
  }
}
