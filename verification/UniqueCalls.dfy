// Histories in which no call id is issued twice and no result precedes its call.
module UniqueCalls {
  import opened Options
  import opened Protocol
  import opened Conversation
  import opened Repair
  import opened RepairLaws
  import opened OrderedRepair

  function IssuedBy(e: Event): set<CallId> {
    if e.Calls? then IdSet(e.ids) else {}
  }

  function IssuedIn(es: seq<Event>): set<CallId> {
    if es == [] then {} else IssuedBy(es[0]) + IssuedIn(es[1..])
  }

  predicate UniqueIds(es: seq<Event>) {
    es == [] || (IssuedBy(es[0]) !! IssuedIn(es[1..]) && UniqueIds(es[1..]))
  }

  // Ids are unique, within a turn as well, and a result comes after its call.
  predicate UniqueOrdered(es: seq<Event>) {
    es == []
    || ((es[0].Calls? ==> Distinct(es[0].ids))
        && IssuedBy(es[0]) !! IssuedIn(es[1..])
        && (es[0].Answer? ==> es[0].id !in IssuedIn(es[1..]))
        && UniqueOrdered(es[1..]))
  }

  lemma {:induction false} IssuedConcat(a: seq<Event>, b: seq<Event>)
    ensures IssuedIn(a + b) == IssuedIn(a) + IssuedIn(b)
  {
    if a == [] {
      assert a + b == b;
    } else {
      assert (a + b)[1..] == a[1..] + b;
      IssuedConcat(a[1..], b);
    }
  }

  lemma {:induction false} UniqueConcat(a: seq<Event>, b: seq<Event>)
    ensures UniqueIds(a + b) <==> UniqueIds(a) && UniqueIds(b) && IssuedIn(a) !! IssuedIn(b)
  {
    if a == [] {
      assert a + b == b;
    } else {
      assert (a + b)[1..] == a[1..] + b;
      IssuedConcat(a[1..], b);
      UniqueConcat(a[1..], b);
    }
  }

  // A history that keeps the protocol only answers open calls; with unique ids
  // no call comes after its result.
  lemma {:induction false} RunIsOrdered(es: seq<Event>, open: set<CallId>)
    requires Run(es, open).Some? && UniqueIds(es) && open !! IssuedIn(es)
    ensures UniqueOrdered(es)
  {
    if es != [] {
      RunIsOrdered(es[1..], Step(es[0], open).value);
    }
  }

  lemma {:induction false} UniqueOrderedSuffix(es: seq<Event>, k: nat)
    requires UniqueOrdered(es) && k <= |es|
    ensures UniqueOrdered(es[k..])
  {
    if k > 0 {
      UniqueOrderedSuffix(es[1..], k - 1);
      assert es[1..][k - 1..] == es[k..];
    } else {
      assert es[k..] == es;
    }
  }

  lemma {:induction false} IssuedAt(es: seq<Event>, i: nat)
    requires i < |es|
    ensures IssuedBy(es[i]) <= IssuedIn(es)
  {
    if i > 0 {
      IssuedAt(es[1..], i - 1);
    }
  }

  // The calls issued at i are neither answered before i nor issued elsewhere.
  lemma UniqueOrderedAt(es: seq<Event>, j: nat, i: nat)
    requires UniqueOrdered(es) && j < i < |es|
    ensures es[j].Answer? ==> es[j].id !in IssuedBy(es[i])
    ensures IssuedBy(es[j]) !! IssuedBy(es[i])
  {
    UniqueOrderedSuffix(es, j);
    assert es[j..][0] == es[j] && es[j..][1..][i - j - 1] == es[i];
    IssuedAt(es[j..][1..], i - j - 1);
  }

  lemma MessageIssues(ms: seq<Message>, i: nat)
    requires i < |ms|
    ensures IssuedBy(MessageEvents(ms)[i]) == IdSet(CallIds(ms[i]))
  {
    assert CallIds(ms[i]) == [] ==> IdSet(CallIds(ms[i])) == {};
  }

  lemma UniqueIsOrdered(ms: seq<Message>)
    requires UniqueOrdered(MessageEvents(ms)) && AllWireShaped(ms)
    ensures Ordered(ms)
  {
    forall i, x | 0 <= i < |ms| && x in CallIds(ms[i]) && x in OutputIds(ms)
      ensures x in OutputIds(ms[i + 1..])
    {
      var m :| m in ms && m.toolCallId == Some(x);
      var j :| 0 <= j < |ms| && ms[j] == m;
      assert WireShaped(m);
      assert MessageEvents(ms)[j] == Answer(x);
      MessageIssues(ms, i);
      if j < i {
        UniqueOrderedAt(MessageEvents(ms), j, i);
      }
      assert j > i && ms[i + 1..][j - i - 1] == m;
    }
  }

  lemma KeptIds(calls: seq<Invocation>, ids: set<CallId>)
    ensures IdSet(Ids(KeepCalls(calls, ids))) <= IdSet(Ids(calls)) * ids
  {
    var kept := KeepCalls(calls, ids);
    forall x | x in Ids(kept) ensures x in Ids(calls) && x in ids {
      var i :| 0 <= i < |kept| && Ids(kept)[i] == x;
      var j :| 0 <= j < |calls| && calls[j] == kept[i];
      assert Ids(calls)[j] == x;
    }
  }

  lemma IdsCons(c: Invocation, cs: seq<Invocation>)
    ensures Ids([c] + cs) == [c.id] + Ids(cs)
    ensures Distinct(Ids([c] + cs)) <==> c.id !in Ids(cs) && Distinct(Ids(cs))
  {
    DistinctCons(c.id, Ids(cs));
  }

  lemma {:induction false} KeepCallsDistinct(calls: seq<Invocation>, ids: set<CallId>)
    requires Distinct(Ids(calls))
    ensures Distinct(Ids(KeepCalls(calls, ids)))
  {
    if calls != [] {
      var c, cs := calls[0], calls[1..];
      var rest := KeepCalls(cs, ids);
      assert calls == [c] + cs;
      IdsCons(c, cs);
      KeepCallsDistinct(cs, ids);
      KeptIds(cs, ids);
      assert c.id !in IdSet(Ids(rest));
      IdsCons(c, rest);
      assert KeepCalls(calls, ids) == if c.id in ids then [c] + rest else rest;
    }
  }

  // The calls that the k-th message keeps are distinct, its own, and answered after it.
  lemma UniqueHead(ms: seq<Message>, k: nat)
    requires UniqueOrdered(MessageEvents(ms)) && Ordered(ms) && k < |ms|
    ensures var ids := CallIds(RetainCalls(ms[k], OutputIds(ms)));
            Distinct(ids) && IdSet(ids) <= IdSet(CallIds(ms[k])) && IdSet(ids) <= OutputIds(ms[k + 1..])
            && (ms[k].role != AssistantRole ==> IdSet(ids) == {})
  {
    var m := ms[k];
    var head := RetainCalls(m, OutputIds(ms));
    UniqueOrderedSuffix(MessageEvents(ms), k);
    assert MessageEvents(ms)[k..][0] == MessageEvent(m);
    if m.role == AssistantRole {
      if m.toolCalls == [] { assert Distinct(Ids(m.toolCalls)); }
      KeepCallsDistinct(m.toolCalls, OutputIds(ms));
      KeptIds(m.toolCalls, OutputIds(ms));
      assert IdSet(CallIds(head)) <= OutputIds(ms[k + 1..]);
    } else {
      assert CallIds(head) == [] && IdSet(CallIds(head)) == {};
    }
  }

  lemma {:induction false} UniqueCloses(ms: seq<Message>, k: nat, seen: set<CallId>)
    requires UniqueOrdered(MessageEvents(ms)) && AllWireShaped(ms) && Ordered(ms) && k <= |ms|
    requires seen !! IssuedIn(MessageEvents(ms)[k..]) && seen <= OutputIds(ms[k..])
    ensures var retained := RetainAll(ms, OutputIds(ms))[k..];
            NoReissue(retained, seen) && SeenAfter(retained, seen) == {}
    decreases |ms| - k
  {
    if k == |ms| {
      assert OutputIds(ms[k..]) == {};
    } else {
      var head := RetainCalls(ms[k], OutputIds(ms));
      UniqueNext(ms, k, seen);
      UniqueCloses(ms, k + 1, SeenNext(head, seen));
      var retained := RetainAll(ms, OutputIds(ms))[k..];
      assert retained[0] == head && retained[1..] == RetainAll(ms, OutputIds(ms))[k + 1..];
    }
  }

  // What the k-th message does to the calls waiting for their results.
  lemma UniqueNext(ms: seq<Message>, k: nat, seen: set<CallId>)
    requires UniqueOrdered(MessageEvents(ms)) && AllWireShaped(ms) && Ordered(ms) && k < |ms|
    requires seen !! IssuedIn(MessageEvents(ms)[k..]) && seen <= OutputIds(ms[k..])
    ensures var head := RetainCalls(ms[k], OutputIds(ms));
            var next := SeenNext(head, seen);
            Distinct(CallIds(head)) && IdSet(CallIds(head)) !! seen
            && next !! IssuedIn(MessageEvents(ms)[k + 1..]) && next <= OutputIds(ms[k + 1..])
  {
    var es, m := MessageEvents(ms), ms[k];
    assert es[k..][0] == es[k] && es[k..][1..] == es[k + 1..];
    UniqueOrderedSuffix(es, k);
    MessageIssues(ms, k);
    assert ms[k..] == [m] + ms[k + 1..] && WireShaped(m);
    OutputIdsCons(m, ms[k + 1..]);
    UniqueHead(ms, k);
  }

  // Unique ids and ordered results are enough for repair to answer every kept call.
  lemma UniqueIsInTime(ms: seq<Message>)
    requires UniqueOrdered(MessageEvents(ms)) && AllWireShaped(ms)
    ensures Ordered(ms) && InTime(ms) && Balanced(MessageEvents(Repaired(ms)))
  {
    UniqueIsOrdered(ms);
    var retained := RetainAll(ms, OutputIds(ms));
    UniqueCloses(ms, 0, {});
    assert retained[0..] == retained;
    TimelyMeansClosed(retained, 0, {});
    RepairBalancesIff(ms);
  }

  // Repair of lists that need none, and exact idempotence.

  lemma {:induction false} ClaimsAllOf(ms: seq<Message>, seen: set<CallId>)
    requires Run(MessageEvents(ms), seen).Some?
    ensures ClaimResults(ms, seen) == ms
  {
    if ms != [] {
      assert ms == [ms[0]] + ms[1..];
      MessageEventsCons(ms[0], ms[1..]);
      RunCons(MessageEvent(ms[0]), MessageEvents(ms[1..]), seen);
      ClaimStep(ms[0], seen);
      assert ms[0].role == AssistantRole && ms[0].toolCalls == [] ==> IdSet(CallIds(ms[0])) == {};
      assert Step(MessageEvent(ms[0]), seen).value == SeenNext(ms[0], seen);
      ClaimsAllOf(ms[1..], SeenNext(ms[0], seen));
    }
  }

  lemma {:induction false} BlanksKeepRun(ms: seq<Message>, seen: set<CallId>)
    ensures Run(MessageEvents(DropBlank(ms)), seen) == Run(MessageEvents(ms), seen)
  {
    if ms != [] {
      var e := MessageEvent(ms[0]);
      assert ms == [ms[0]] + ms[1..];
      MessageEventsCons(ms[0], ms[1..]);
      RunCons(e, MessageEvents(ms[1..]), seen);
      if Step(e, seen).Some? {
        BlanksKeepRun(ms[1..], Step(e, seen).value);
      }
      if !Blank(ms[0]) {
        MessageEventsCons(ms[0], DropBlank(ms[1..]));
        RunCons(e, MessageEvents(DropBlank(ms[1..])), seen);
      } else {
        assert DropBlank(ms) == DropBlank(ms[1..]);
      }
    }
  }

  lemma BalancedCallsHaveOutputs(ms: seq<Message>, i: nat, x: CallId)
    requires Balanced(MessageEvents(ms)) && i < |ms| && x in CallIds(ms[i])
    ensures x in OutputIds(ms)
  {
    var es := MessageEvents(ms);
    assert es[i] == MessageEvent(ms[i]) && Issues(es[i], x);
    var j := AnswerOf(es, i, x);
    assert es[j] == MessageEvent(ms[j]);
    assert ms[j] in ms;
  }

  // On a balanced list repair only drops blank assistant messages; so it is the
  // identity when there are none.
  lemma RepairKeepsBalanced(ms: seq<Message>)
    requires Balanced(MessageEvents(ms))
    ensures Repaired(ms) == DropBlank(ms)
  {
    var ids := OutputIds(ms);
    forall i | 0 <= i < |ms| ensures RetainCalls(ms[i], ids) == ms[i] {
      if ms[i].role == AssistantRole {
        forall c | c in ms[i].toolCalls ensures c.id in ids {
          CallIdOf(ms[i], c);
          BalancedCallsHaveOutputs(ms, i, c.id);
        }
        KeepCallsAll(ms[i].toolCalls, ids);
      }
    }
    assert RetainAll(ms, ids) == ms;
    BlanksKeepRun(ms, {});
    ClaimsAllOf(DropBlank(ms), {});
  }

  lemma {:induction false} NoBlankDropsNothing(ms: seq<Message>)
    ensures DropBlank(ms) == ms <==> forall m | m in ms :: !Blank(m)
    ensures |DropBlank(ms)| <= |ms|
  {
    if ms != [] {
      NoBlankDropsNothing(ms[1..]);
      assert ms == [ms[0]] + ms[1..];
      if Blank(ms[0]) {
        assert DropBlank(ms) == DropBlank(ms[1..]);
      } else {
        assert DropBlank(ms)[1..] == DropBlank(ms[1..]);
      }
    }
  }
}
