// Repair of lists in which no answered call is left without a later result.
// There repair can be read off in one pass from the front, which is what makes
// repeated trimming and repairing collapse into one repair.
module OrderedRepair {
  import opened Protocol
  import opened Conversation
  import opened Repair

  // Every call that has a result anywhere has one after it.
  predicate Ordered(ms: seq<Message>) {
    forall i | 0 <= i < |ms| ::
      forall x | x in CallIds(ms[i]) && x in OutputIds(ms) :: x in OutputIds(ms[i + 1..])
  }

  // One pass: calls keep their place if a result is still to come, results if
  // their call was kept.
  function Scan(ms: seq<Message>, seen: set<CallId>): seq<Message> {
    if ms == [] then []
    else
      var head := RetainCalls(ms[0], OutputIds(ms[1..]));
      var rest := Scan(ms[1..], SeenNext(head, seen));
      if Blank(head) || !Claims(head, seen) then rest else [head] + rest
  }

  lemma {:induction false} KeepCallsAgree(calls: seq<Invocation>, a: set<CallId>, b: set<CallId>)
    requires forall c | c in calls :: c.id in a <==> c.id in b
    ensures KeepCalls(calls, a) == KeepCalls(calls, b)
  {
    if calls != [] {
      KeepCallsAgree(calls[1..], a, b);
    }
  }

  lemma {:induction false} KeepCallsAll(calls: seq<Invocation>, ids: set<CallId>)
    requires forall c | c in calls :: c.id in ids
    ensures KeepCalls(calls, ids) == calls
  {
    if calls != [] {
      KeepCallsAll(calls[1..], ids);
    }
  }

  lemma CallIdOf(m: Message, c: Invocation)
    requires m.role == AssistantRole && c in m.toolCalls
    ensures c.id in CallIds(m)
  {
    var i :| 0 <= i < |m.toolCalls| && m.toolCalls[i] == c;
    assert Ids(m.toolCalls)[i] == c.id;
  }

  lemma OutputIdsMono(ms: seq<Message>, k: nat)
    requires k <= |ms|
    ensures OutputIds(ms[k..]) <= OutputIds(ms)
  {
  }

  lemma {:induction false} OrderedSuffixScans(ms: seq<Message>, k: nat, seen: set<CallId>)
    requires Ordered(ms) && k <= |ms|
    ensures ClaimResults(DropBlank(RetainAll(ms[k..], OutputIds(ms))), seen) == Scan(ms[k..], seen)
    decreases |ms| - k
  {
    if k < |ms| {
      var m, ids, later := ms[k], OutputIds(ms), OutputIds(ms[k + 1..]);
      assert ms[k..][1..] == ms[k + 1..];
      OutputIdsMono(ms, k + 1);
      if m.role == AssistantRole {
        forall c | c in m.toolCalls ensures c.id in ids <==> c.id in later {
          CallIdOf(m, c);
        }
        KeepCallsAgree(m.toolCalls, ids, later);
      }
      var head := RetainCalls(m, ids);
      assert RetainAll(ms[k..], ids)[1..] == RetainAll(ms[k + 1..], ids);
      OrderedSuffixScans(ms, k + 1, SeenNext(head, seen));
      if Blank(head) {
        assert CallIds(head) == [] && IdSet(CallIds(head)) == {} && SeenNext(head, seen) == seen;
        assert DropBlank(RetainAll(ms[k..], ids)) == DropBlank(RetainAll(ms[k + 1..], ids));
      } else {
        assert DropBlank(RetainAll(ms[k..], ids))[1..] == DropBlank(RetainAll(ms[k + 1..], ids));
        assert !Claims(head, seen) ==> SeenNext(head, seen) == seen;
      }
    }
  }

  lemma OrderedScans(ms: seq<Message>)
    requires Ordered(ms)
    ensures Repaired(ms) == Scan(ms, {})
  {
    assert ms[0..] == ms;
    OrderedSuffixScans(ms, 0, {});
  }

  // A result whose call is known survives the scan; the scan invents none.
  // One step of the scan.
  lemma ScanStep(ms: seq<Message>, seen: set<CallId>)
    requires AllWireShaped(ms) && ms != []
    ensures var head := RetainCalls(ms[0], OutputIds(ms[1..]));
            var rest := Scan(ms[1..], SeenNext(head, seen));
            WireShaped(ms[0]) && WireShaped(head) && AllWireShaped(ms[1..])
            && (Scan(ms, seen) == if Blank(head) || !Claims(head, seen) then rest else [head] + rest)
            && (Blank(head) || !Claims(head, seen) ==> CallIds(head) == [] && IdSet(CallIds(head)) == {})
  {
    WireShapedTail(ms, 1);
  }

  lemma {:induction false} ScanShape(ms: seq<Message>, seen: set<CallId>)
    requires AllWireShaped(ms)
    ensures AllWireShaped(Scan(ms, seen))
  {
    if ms != [] {
      var head := RetainCalls(ms[0], OutputIds(ms[1..]));
      ScanStep(ms, seen);
      ScanShape(ms[1..], SeenNext(head, seen));
      WireShapedCons(head, Scan(ms[1..], SeenNext(head, seen)));
    }
  }

  lemma {:induction false} ScanOutputs(ms: seq<Message>, seen: set<CallId>)
    requires AllWireShaped(ms)
    ensures AllWireShaped(Scan(ms, seen))
    ensures OutputIds(Scan(ms, seen)) <= OutputIds(ms)
    ensures seen * OutputIds(ms) <= OutputIds(Scan(ms, seen))
  {
    ScanShape(ms, seen);
    if ms != [] {
      var head := RetainCalls(ms[0], OutputIds(ms[1..]));
      var next := SeenNext(head, seen);
      ScanStep(ms, seen);
      ScanOutputs(ms[1..], next);
      assert ms == [ms[0]] + ms[1..];
      OutputIdsCons(ms[0], ms[1..]);
      OutputIdsCons(head, Scan(ms[1..], next));
    }
  }

  lemma OutputIdsCons(m: Message, ms: seq<Message>)
    ensures OutputIds([m] + ms)
         == OutputIds(ms) + if m.toolCallId.Some? then {m.toolCallId.value} else {}
  {
    assert forall x | x in ms :: x in [m] + ms;
    assert m in [m] + ms;
  }

  // Every call of the list has a result after it.
  predicate AllAnswered(ms: seq<Message>) {
    ms == [] || (IdSet(CallIds(ms[0])) <= OutputIds(ms[1..]) && AllAnswered(ms[1..]))
  }

  lemma {:induction false} AllAnsweredIsOrdered(ms: seq<Message>)
    requires AllAnswered(ms)
    ensures Ordered(ms)
  {
    if ms != [] {
      AllAnsweredIsOrdered(ms[1..]);
      forall i, x | 0 <= i < |ms| && x in CallIds(ms[i]) ensures x in OutputIds(ms[i + 1..]) {
        AllAnsweredAt(ms, i, x);
      }
    }
  }

  lemma {:induction false} AllAnsweredAt(ms: seq<Message>, i: nat, x: CallId)
    requires AllAnswered(ms) && i < |ms| && x in CallIds(ms[i])
    ensures x in OutputIds(ms[i + 1..])
  {
    if i > 0 {
      AllAnsweredAt(ms[1..], i - 1, x);
      assert ms[1..][i..] == ms[i + 1..];
    } else {
      assert x in IdSet(CallIds(ms[0]));
    }
  }

  // The ids of the calls that the head keeps have a result to come.
  lemma RetainedIds(m: Message, ids: set<CallId>)
    ensures IdSet(CallIds(RetainCalls(m, ids))) <= ids
  {
    var head := RetainCalls(m, ids);
    forall x | x in CallIds(head) ensures x in ids {
      var i :| 0 <= i < |CallIds(head)| && CallIds(head)[i] == x;
      assert head.toolCalls[i] in head.toolCalls;
    }
  }

  lemma {:induction false} ScanAnswersAll(ms: seq<Message>, seen: set<CallId>)
    requires AllWireShaped(ms)
    ensures AllAnswered(Scan(ms, seen))
  {
    if ms != [] {
      var later := OutputIds(ms[1..]);
      var head := RetainCalls(ms[0], later);
      var next := SeenNext(head, seen);
      assert forall m | m in ms[1..] :: m in ms;
      ScanAnswersAll(ms[1..], next);
      ScanOutputs(ms[1..], next);
      RetainedIds(ms[0], later);
      if !(Blank(head) || !Claims(head, seen)) {
        var rest := Scan(ms[1..], next);
        assert ([head] + rest)[1..] == rest;
        assert IdSet(CallIds(head)) <= next || CallIds(head) == [];
      }
    }
  }

  // Scanning the scanned list, knowing fewer calls, is scanning the list itself.
  lemma {:induction false} ScanTwice(ms: seq<Message>, seen: set<CallId>, sub: set<CallId>)
    requires AllWireShaped(ms) && sub <= seen
    ensures Scan(Scan(ms, seen), sub) == Scan(ms, sub)
  {
    if ms != [] {
      var later := OutputIds(ms[1..]);
      var head := RetainCalls(ms[0], later);
      var next, nextSub := SeenNext(head, seen), SeenNext(head, sub);
      assert forall m | m in ms[1..] :: m in ms;
      ScanTwice(ms[1..], next, nextSub);
      var rest := Scan(ms[1..], next);
      if Blank(head) {
        assert CallIds(head) == [] && IdSet(CallIds(head)) == {};
        assert next == seen && nextSub == sub;
      } else if !Claims(head, seen) {
        assert !Claims(head, sub) && nextSub == sub;
      } else {
        assert ([head] + rest)[1..] == rest;
        HeadKeepsCalls(ms, seen);
        assert RetainCalls(head, OutputIds(rest)) == head;
      }
    }
  }

  lemma HeadKeepsCalls(ms: seq<Message>, seen: set<CallId>)
    requires AllWireShaped(ms) && ms != []
    ensures var head := RetainCalls(ms[0], OutputIds(ms[1..]));
            RetainCalls(head, OutputIds(Scan(ms[1..], SeenNext(head, seen)))) == head
  {
    var later := OutputIds(ms[1..]);
    var head := RetainCalls(ms[0], later);
    var next := SeenNext(head, seen);
    assert forall m | m in ms[1..] :: m in ms;
    ScanOutputs(ms[1..], next);
    RetainedIds(ms[0], later);
    if head.role == AssistantRole {
      forall c | c in head.toolCalls ensures c.id in OutputIds(Scan(ms[1..], next)) {
        CallIdOf(head, c);
        assert c.id in IdSet(CallIds(head));
      }
      KeepCallsAll(head.toolCalls, OutputIds(Scan(ms[1..], next)));
    }
  }

  // Repairing twice is repairing once.
  lemma RepairTwice(ms: seq<Message>)
    requires Ordered(ms) && AllWireShaped(ms)
    ensures Repaired(Repaired(ms)) == Repaired(ms)
  {
    OrderedScans(ms);
    ScanAnswersAll(ms, {});
    AllAnsweredIsOrdered(Repaired(ms));
    OrderedScans(Repaired(ms));
    ScanTwice(ms, {}, {});
  }

  lemma OrderedSuffix(ms: seq<Message>, k: nat)
    requires Ordered(ms) && k <= |ms|
    ensures Ordered(ms[k..])
  {
    OutputIdsMono(ms, k);
    forall i, x | 0 <= i < |ms[k..]| && x in CallIds(ms[k..][i]) && x in OutputIds(ms[k..])
      ensures x in OutputIds(ms[k..][i + 1..])
    {
      assert ms[k..][i] == ms[k + i] && ms[k..][i + 1..] == ms[k + i + 1..];
    }
  }

  // The head of the list does not survive the scan.
  predicate HeadLost(ms: seq<Message>)
    requires ms != []
  {
    var head := RetainCalls(ms[0], OutputIds(ms[1..]));
    Blank(head) || !Claims(head, {})
  }

  // The position of the first message that survives the scan, or the length.
  function FirstKept(ms: seq<Message>): (k: nat)
    ensures k <= |ms|
  {
    if ms == [] then 0 else if HeadLost(ms) then 1 + FirstKept(ms[1..]) else 0
  }

  lemma LostHead(ms: seq<Message>)
    requires Ordered(ms) && ms != [] && HeadLost(ms)
    ensures Ordered(ms[1..]) && Repaired(ms) == Repaired(ms[1..])
  {
    OrderedScans(ms);
    OrderedSuffix(ms, 1);
    OrderedScans(ms[1..]);
    var head := RetainCalls(ms[0], OutputIds(ms[1..]));
    if Blank(head) {
      assert CallIds(head) == [] && IdSet(CallIds(head)) == {};
    }
    assert SeenNext(head, {}) == {};
  }

  lemma SurvivingHead(ms: seq<Message>)
    requires Ordered(ms) && AllWireShaped(ms) && ms != [] && !HeadLost(ms)
    ensures Repaired(ms) != [] && Repaired(Repaired(ms)[1..]) == Repaired(ms[1..])
  {
    OrderedScans(ms);
    OrderedSuffix(ms, 1);
    OrderedScans(ms[1..]);
    assert forall m | m in ms[1..] :: m in ms;
    var next := SeenNext(RetainCalls(ms[0], OutputIds(ms[1..])), {});
    var rest := Scan(ms[1..], next);
    assert Repaired(ms)[1..] == rest;
    ScanAnswersAll(ms[1..], next);
    AllAnsweredIsOrdered(rest);
    OrderedScans(rest);
    ScanTwice(ms[1..], next, {});
  }

  // Up to the first survivor any suffix repairs alike; and dropping the first
  // survivor and repairing again is repairing the suffix after it.
  lemma {:induction false} DropFirstSurvivor(ms: seq<Message>)
    requires Ordered(ms) && AllWireShaped(ms) && Repaired(ms) != []
    ensures FirstKept(ms) < |ms|
    ensures forall j: nat | j <= FirstKept(ms) :: Repaired(ms[j..]) == Repaired(ms)
    ensures Repaired(Repaired(ms)[1..]) == Repaired(ms[FirstKept(ms) + 1..])
  {
    if ms == [] {
      OrderedScans(ms);
    } else if HeadLost(ms) {
      LostHead(ms);
      assert forall m | m in ms[1..] :: m in ms;
      DropFirstSurvivor(ms[1..]);
      forall j: nat | j <= FirstKept(ms) ensures Repaired(ms[j..]) == Repaired(ms) {
        assert j == 0 ==> ms[j..] == ms;
        assert j > 0 ==> ms[1..][j - 1..] == ms[j..];
      }
      assert ms[1..][FirstKept(ms[1..]) + 1..] == ms[FirstKept(ms) + 1..];
    } else {
      assert ms[0..] == ms;
      SurvivingHead(ms);
    }
  }
}
