// What a compaction keeps of the log, said by positions.
module CompactionKeeps {
  import opened Options
  import opened Conversation
  import opened Compaction

  predicate Increasing(idx: seq<nat>, bound: nat) {
    && (forall k | 0 <= k < |idx| :: idx[k] < bound)
    && (forall k, l | 0 <= k < l < |idx| :: idx[k] < idx[l])
  }

  // kept are the entries at idx, in order.
  predicate TakenAt(es: seq<Entry>, idx: seq<nat>, kept: seq<Entry>) {
    Increasing(idx, |es|) && |kept| == |idx| && forall k | 0 <= k < |idx| :: kept[k] == es[idx[k]]
  }

  lemma TakenLonger(es: seq<Entry>, idx: seq<nat>, kept: seq<Entry>, e: Entry)
    requires TakenAt(es, idx, kept)
    ensures TakenAt(es + [e], idx, kept)
  {
    forall k | 0 <= k < |idx| ensures kept[k] == (es + [e])[idx[k]] {
      assert idx[k] < |es|;
    }
  }

  lemma TakenSnoc(es: seq<Entry>, idx: seq<nat>, kept: seq<Entry>, e: Entry)
    requires TakenAt(es, idx, kept)
    ensures TakenAt(es + [e], idx + [|es|], kept + [e])
  {
    TakenLonger(es, idx, kept, e);
  }

  // The pinned entries are those that are pinned, each once, in order.
  lemma {:induction false} PinnedByPosition(es: seq<Entry>) returns (idx: seq<nat>)
    ensures TakenAt(es, idx, Pinned(es))
    ensures forall i | 0 <= i < |es| :: es[i].pinned <==> i in idx
  {
    if es == [] {
      idx := [];
    } else {
      var init, last := es[..|es| - 1], es[|es| - 1];
      var before := PinnedByPosition(init);
      idx := before;
      if last.pinned {
        idx := before + [|init|];
        TakenSnoc(init, before, Pinned(init), last);
        assert init + [last] == es;
      } else {
        TakenLonger(init, before, Pinned(init), last);
        assert init + [last] == es && Pinned(init) + [] == Pinned(init);
      }
      forall i | 0 <= i < |es| ensures es[i].pinned <==> i in idx {
        if i < |init| { assert init[i] == es[i]; }
      }
    }
  }

  predicate UserAt(es: seq<Entry>, i: nat)
    requires i < |es|
  {
    es[i].source == User
  }

  predicate TaskAt(es: seq<Entry>, i: nat, substantive: string -> bool)
    requires i < |es|
  {
    es[i].source == User && substantive(es[i].content)
  }

  // The user entry to be kept of the entries below cut: the last with a substantive task,
  // and if none has one, the last.
  predicate KeptUser(es: seq<Entry>, cut: nat, i: nat, substantive: string -> bool)
    requires cut <= |es|
  {
    i < cut && UserAt(es, i)
    && (if TaskAt(es, i, substantive) then forall j | i < j < cut :: !TaskAt(es, j, substantive)
        else (forall j | 0 <= j < cut :: !TaskAt(es, j, substantive)) && forall j | i < j < cut :: !UserAt(es, j))
  }

  lemma {:induction false} LastUserAt(es: seq<Entry>, accept: string -> bool) returns (i: int)
    ensures -1 <= i < |es|
    ensures forall j | i < j < |es| :: !(es[j].source == User && accept(es[j].content))
    ensures i >= 0 ==> es[i].source == User && accept(es[i].content) && LastUser(es, accept) == Some(es[i])
    ensures i < 0 ==> LastUser(es, accept) == None
  {
    if es == [] {
      i := -1;
    } else if es[|es| - 1].source == User && accept(es[|es| - 1].content) {
      i := |es| - 1;
    } else {
      i := LastUserAt(es[..|es| - 1], accept);
    }
  }

  // What stands in the compacted log: the pinned entries of the older part, the kept user
  // entry, the summary, and the newer part. There is no user entry there exactly when the
  // older part has none.
  ghost predicate CompactedMeans(es: seq<Entry>, cut: nat, after: seq<Entry>, summary: string, substantive: string -> bool)
    requires cut <= |es|
  {
    exists pinned: seq<Entry>, idx: seq<nat> ::
      && TakenAt(es[..cut], idx, pinned) && (forall i | 0 <= i < cut :: es[i].pinned <==> i in idx)
      && if forall i | 0 <= i < cut :: es[i].source != User
         then after == pinned + [Trusted(PlanReminder, summary)] + es[cut..]
         else exists i: nat :: KeptUser(es, cut, i, substantive)
                && after == pinned + [es[i]] + [Trusted(PlanReminder, summary)] + es[cut..]
  }

  lemma AnchorAt(es: seq<Entry>, substantive: string -> bool)
    ensures if forall i | 0 <= i < |es| :: es[i].source != User then Anchor(es, substantive) == []
            else exists i: nat :: KeptUser(es, |es|, i, substantive) && Anchor(es, substantive) == [es[i]]
  {
    var task := LastUserAt(es, substantive);
    var user := LastUserAt(es, _ => true);
    if task >= 0 {
      assert KeptUser(es, |es|, task, substantive);
    } else if user >= 0 {
      assert KeptUser(es, |es|, user, substantive);
    }
  }

  lemma KeptUserBelow(es: seq<Entry>, cut: nat, i: nat, substantive: string -> bool)
    requires cut <= |es| && KeptUser(es[..cut], cut, i, substantive)
    ensures KeptUser(es, cut, i, substantive)
  {
    forall j | 0 <= j < cut
      ensures TaskAt(es[..cut], j, substantive) == TaskAt(es, j, substantive) && UserAt(es[..cut], j) == UserAt(es, j)
    {
      assert es[..cut][j] == es[j];
    }
  }

  lemma CompactedByPosition(es: seq<Entry>, summary: string, substantive: string -> bool)
    ensures CompactedMeans(es, KeepFrom(es, RequestedStart(es)), Compacted(es, summary, substantive), summary, substantive)
  {
    var cut := KeepFrom(es, RequestedStart(es));
    var older, tail, note := es[..cut], es[cut..], [Trusted(PlanReminder, summary)];
    var idx := PinnedByPosition(older);
    var pinned := Pinned(older);
    assert forall i | 0 <= i < cut :: older[i] == es[i];
    AnchorAt(older, substantive);
    if forall i | 0 <= i < cut :: es[i].source != User {
      assert pinned + [] == pinned;
      assert Compacted(es, summary, substantive) == pinned + note + tail;
    } else {
      var i: nat :| KeptUser(older, cut, i, substantive) && Anchor(older, substantive) == [older[i]];
      KeptUserBelow(es, cut, i, substantive);
      assert Compacted(es, summary, substantive) == pinned + [es[i]] + note + tail;
    }
  }
}
