// Exactly when a second repair changes nothing.
module IdempotentRepair {
  import opened Protocol
  import opened Conversation
  import opened Repair
  import opened RepairLaws
  import opened OrderedRepair
  import opened UniqueCalls

  function CallSet(ms: seq<Message>): set<CallId> {
    if ms == [] then {} else IdSet(CallIds(ms[0])) + CallSet(ms[1..])
  }

  // Some result for x comes after some call of x.
  predicate LaterResult(ms: seq<Message>, x: CallId) {
    ms != [] && ((x in CallIds(ms[0]) && x in OutputIds(ms[1..])) || LaterResult(ms[1..], x))
  }

  lemma {:induction false} CallSetAt(ms: seq<Message>, m: Message)
    requires m in ms
    ensures IdSet(CallIds(m)) <= CallSet(ms)
  {
    if ms[0] != m {
      CallSetAt(ms[1..], m);
    }
  }

  lemma RetainedCons(ms: seq<Message>, ids: set<CallId>)
    requires ms != []
    ensures RetainAll(ms, ids) == [RetainCalls(ms[0], ids)] + RetainAll(ms[1..], ids)
  {
  }

  lemma {:induction false} RetainedCallSet(ms: seq<Message>, ids: set<CallId>)
    ensures CallSet(RetainAll(ms, ids)) == CallSet(ms) * ids
  {
    if ms != [] {
      RetainedCallSet(ms[1..], ids);
      RetainedCons(ms, ids);
      assert RetainAll(ms, ids)[1..] == RetainAll(ms[1..], ids);
      HeadCallSet(ms[0], ids);
    }
  }

  lemma {:induction false} RetainedOutputs(ms: seq<Message>, ids: set<CallId>)
    ensures OutputIds(RetainAll(ms, ids)) == OutputIds(ms)
  {
    if ms != [] {
      RetainedOutputs(ms[1..], ids);
      RetainedCons(ms, ids);
      assert ms == [ms[0]] + ms[1..];
      OutputIdsCons(ms[0], ms[1..]);
      OutputIdsCons(RetainCalls(ms[0], ids), RetainAll(ms[1..], ids));
    }
  }

  lemma {:induction false} RetainedShape(ms: seq<Message>, ids: set<CallId>)
    requires AllWireShaped(ms)
    ensures AllWireShaped(RetainAll(ms, ids)) && AllWireShaped(DropBlank(RetainAll(ms, ids)))
  {
    if ms != [] {
      WireShapedTail(ms, 1);
      RetainedShape(ms[1..], ids);
      var head, rest := RetainCalls(ms[0], ids), RetainAll(ms[1..], ids);
      assert RetainAll(ms, ids) == [head] + rest && ([head] + rest)[1..] == rest;
      WireShapedCons(head, rest);
      WireShapedCons(head, DropBlank(rest));
      assert DropBlank([head] + rest) == if Blank(head) then DropBlank(rest) else [head] + DropBlank(rest);
    }
  }

  lemma HeadCallSet(m: Message, ids: set<CallId>)
    ensures IdSet(CallIds(RetainCalls(m, ids))) == IdSet(CallIds(m)) * ids
  {
    if m.role == AssistantRole {
      KeptIds(m.toolCalls, ids);
      forall x | x in CallIds(m) && x in ids ensures x in CallIds(RetainCalls(m, ids)) {
        var i :| 0 <= i < |m.toolCalls| && CallIds(m)[i] == x;
        assert m.toolCalls[i] in m.toolCalls;
        CallIdOf(RetainCalls(m, ids), m.toolCalls[i]);
      }
    }
  }

  lemma {:induction false} RetainedLaterResult(ms: seq<Message>, ids: set<CallId>, x: CallId)
    requires x in ids
    ensures LaterResult(RetainAll(ms, ids), x) == LaterResult(ms, x)
  {
    if ms != [] {
      var rest := RetainAll(ms[1..], ids);
      RetainedLaterResult(ms[1..], ids, x);
      RetainedCons(ms, ids);
      assert RetainAll(ms, ids)[1..] == rest;
      RetainedOutputs(ms[1..], ids);
      HeadCallSet(ms[0], ids);
      assert x in CallIds(RetainCalls(ms[0], ids)) <==> x in IdSet(CallIds(RetainCalls(ms[0], ids)));
      assert x in CallIds(ms[0]) <==> x in IdSet(CallIds(ms[0]));
    }
  }

  lemma DropBlankCons(m: Message, ms: seq<Message>)
    ensures DropBlank([m] + ms) == if Blank(m) then DropBlank(ms) else [m] + DropBlank(ms)
  {
    assert ([m] + ms)[1..] == ms;
    assert [] + DropBlank(ms) == DropBlank(ms);
  }

  lemma CallSetCons(m: Message, ms: seq<Message>)
    ensures CallSet([m] + ms) == IdSet(CallIds(m)) + CallSet(ms)
  {
    assert ([m] + ms)[1..] == ms;
  }

  lemma LaterResultCons(m: Message, ms: seq<Message>, x: CallId)
    ensures LaterResult([m] + ms, x) == (LaterResult(ms, x) || (x in CallIds(m) && x in OutputIds(ms)))
  {
    assert ([m] + ms)[1..] == ms;
  }

  lemma {:induction false} BlanksKeepCalls(ms: seq<Message>)
    ensures CallSet(DropBlank(ms)) == CallSet(ms)
  {
    if ms != [] {
      var m, rest := ms[0], ms[1..];
      assert ms == [m] + rest;
      BlanksKeepCalls(rest);
      DropBlankCons(m, rest);
      CallSetCons(m, rest);
      CallSetCons(m, DropBlank(rest));
      assert Blank(m) ==> CallIds(m) == [] && IdSet(CallIds(m)) == {};
    }
  }

  lemma {:induction false} BlanksKeepOutputs(ms: seq<Message>)
    requires AllWireShaped(ms)
    ensures OutputIds(DropBlank(ms)) == OutputIds(ms)
  {
    if ms != [] {
      var m, rest := ms[0], ms[1..];
      assert ms == [m] + rest;
      WireShapedTail(ms, 1);
      BlanksKeepOutputs(rest);
      DropBlankCons(m, rest);
      OutputIdsCons(m, rest);
      OutputIdsCons(m, DropBlank(rest));
    }
  }

  lemma {:induction false} BlanksCarryNothing(ms: seq<Message>, x: CallId)
    requires AllWireShaped(ms)
    ensures CallSet(DropBlank(ms)) == CallSet(ms) && OutputIds(DropBlank(ms)) == OutputIds(ms)
    ensures LaterResult(DropBlank(ms), x) == LaterResult(ms, x)
  {
    BlanksKeepCalls(ms);
    BlanksKeepOutputs(ms);
    if ms != [] {
      var m, rest := ms[0], ms[1..];
      assert ms == [m] + rest;
      WireShapedTail(ms, 1);
      BlanksCarryNothing(rest, x);
      DropBlankCons(m, rest);
      LaterResultCons(m, rest, x);
      LaterResultCons(m, DropBlank(rest), x);
      assert Blank(m) ==> CallIds(m) == [];
    }
  }

  lemma {:induction false} NoBlankLeft(ms: seq<Message>, seen: set<CallId>)
    ensures forall m | m in DropBlank(ms) :: !Blank(m)
    ensures forall m | m in ClaimResults(ms, seen) :: m in ms
  {
    if ms != [] {
      NoBlankLeft(ms[1..], SeenNext(ms[0], seen));
    }
  }

  lemma {:induction false} ClaimedCallSet(ms: seq<Message>, seen: set<CallId>)
    requires AllWireShaped(ms)
    ensures CallSet(ClaimResults(ms, seen)) == CallSet(ms) && AllWireShaped(ClaimResults(ms, seen))
  {
    if ms != [] {
      var m, next := ms[0], SeenNext(ms[0], seen);
      var rest := ClaimResults(ms[1..], next);
      WireShapedTail(ms, 1);
      ClaimedCallSet(ms[1..], next);
      ClaimStep(m, seen);
      WireShapedCons(m, rest);
      assert ClaimResults(ms, seen) == if Claims(m, seen) then [m] + rest else rest;
      assert ([m] + rest)[1..] == rest;
    }
  }

  // The results that the claiming pass lets through.
  lemma {:induction false} ClaimedOutputs(ms: seq<Message>, seen: set<CallId>, x: CallId)
    requires AllWireShaped(ms)
    ensures x in OutputIds(ClaimResults(ms, seen))
       <==> (x in seen && x in OutputIds(ms)) || LaterResult(ms, x)
  {
    if ms != [] {
      var m, next := ms[0], SeenNext(ms[0], seen);
      var rest := ClaimResults(ms[1..], next);
      WireShapedTail(ms, 1);
      ClaimedOutputs(ms[1..], next, x);
      assert ms == [m] + ms[1..];
      OutputIdsCons(m, ms[1..]);
      OutputIdsCons(m, rest);
      ClaimStep(m, seen);
      assert x in IdSet(CallIds(m)) <==> x in CallIds(m);
      if LaterResult(ms[1..], x) {
        LaterNeedsOutput(ms[1..], x);
      }
      assert ClaimResults(ms, seen) == if Claims(m, seen) then [m] + rest else rest;
    }
  }

  lemma {:induction false} LaterNeedsOutput(ms: seq<Message>, x: CallId)
    requires LaterResult(ms, x)
    ensures x in OutputIds(ms)
  {
    OutputIdsMono(ms, 1);
    if !(x in CallIds(ms[0]) && x in OutputIds(ms[1..])) {
      LaterNeedsOutput(ms[1..], x);
    }
  }

  // The calls and results left after one repair.
  lemma RepairedSets(ms: seq<Message>, x: CallId)
    requires AllWireShaped(ms)
    ensures x in CallSet(Repaired(ms)) <==> x in CallSet(ms) && x in OutputIds(ms)
    ensures x in OutputIds(ms) ==> (x in OutputIds(Repaired(ms)) <==> LaterResult(ms, x))
    ensures forall m | m in Repaired(ms) :: !Blank(m)
  {
    var ids := OutputIds(ms);
    var retained := RetainAll(ms, ids);
    RetainedCallSet(ms, ids);
    RetainedOutputs(ms, ids);
    RetainedShape(ms, ids);
    BlanksCarryNothing(retained, x);
    NoBlankLeft(retained, {});
    NoBlankLeft(DropBlank(retained), {});
    ClaimedCallSet(DropBlank(retained), {});
    ClaimedOutputs(DropBlank(retained), {}, x);
    if x in ids {
      RetainedLaterResult(ms, ids, x);
    }
  }

  // A repaired list is a fixpoint exactly when each of its calls has a result in it.
  lemma FixpointIff(ms: seq<Message>)
    requires AllWireShaped(ms)
    ensures var r := Repaired(ms);
            Repaired(r) == r <==> CallSet(r) <= OutputIds(r)
  {
    var r := Repaired(ms);
    var ids := OutputIds(r);
    if CallSet(r) <= ids {
      forall i | 0 <= i < |r| ensures RetainCalls(r[i], ids) == r[i] {
        CallSetAt(r, r[i]);
        if r[i].role == AssistantRole {
          forall c | c in r[i].toolCalls ensures c.id in ids {
            CallIdOf(r[i], c);
            assert c.id in IdSet(CallIds(r[i]));
          }
          KeepCallsAll(r[i].toolCalls, ids);
        }
      }
      assert RetainAll(r, ids) == r;
      RepairedSets(ms, "");
      NoBlankDropsNothing(r);
      ClaimTwice(DropBlank(RetainAll(ms, OutputIds(ms))), {});
    }
    if Repaired(r) == r {
      WireShapedRepair(ms);
      forall x | x in CallSet(r) ensures x in ids {
        RepairedSets(r, x);
      }
    }
  }

  lemma WireShapedRepair(ms: seq<Message>)
    requires AllWireShaped(ms)
    ensures AllWireShaped(Repaired(ms))
  {
    RetainedShape(ms, OutputIds(ms));
    ClaimedCallSet(DropBlank(RetainAll(ms, OutputIds(ms))), {});
  }

  // Repair is idempotent on a list exactly when every id that is both issued and
  // answered in it has a result after one of its calls.
  lemma RepairIdempotentIff(ms: seq<Message>)
    requires AllWireShaped(ms)
    ensures Repaired(Repaired(ms)) == Repaired(ms)
       <==> forall x | x in CallSet(ms) && x in OutputIds(ms) :: LaterResult(ms, x)
  {
    FixpointIff(ms);
    forall x ensures x in CallSet(Repaired(ms)) <==> x in CallSet(ms) && x in OutputIds(ms) {
      RepairedSets(ms, x);
    }
    forall x | x in OutputIds(ms)
      ensures x in OutputIds(Repaired(ms)) <==> LaterResult(ms, x)
    {
      RepairedSets(ms, x);
    }
  }
}
