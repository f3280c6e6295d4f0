// What call/result repair guarantees, and for which lists.
module RepairLaws {
  import opened Options
  import opened Protocol
  import opened Conversation
  import opened Repair
  import Text

  // Which results survive, on any list.

  predicate Answers(m: Message, x: CallId) {
    IsResult(m) && m.toolCallId.value == x
  }

  // Some earlier assistant turn issued the call of the result at i, and no
  // result in between used it up.
  predicate HasFreeCall(ms: seq<Message>, i: nat, x: CallId)
    requires i <= |ms|
  {
    exists j: nat :: j < i && x in CallIds(ms[j]) && (forall k | j < k < i :: !Answers(ms[k], x))
  }

  predicate Claimable(ms: seq<Message>, i: nat)
    requires i < |ms|
  {
    IsResult(ms[i]) ==> HasFreeCall(ms, i, ms[i].toolCallId.value)
  }

  // The claimable messages among the first n, in order.
  function ClaimableAmong(ms: seq<Message>, n: nat): (r: seq<Message>)
    requires n <= |ms|
    ensures |r| <= n
    ensures |r| == n ==> forall i: nat | i < n :: Claimable(ms, i)
  {
    if n == 0 then []
    else ClaimableAmong(ms, n - 1) + (if Claimable(ms, n - 1) then [ms[n - 1]] else [])
  }

  function SeenAfter(ms: seq<Message>, seen: set<CallId>): set<CallId> {
    if ms == [] then seen else SeenAfter(ms[1..], SeenNext(ms[0], seen))
  }

  lemma {:induction false} ClaimSnoc(ms: seq<Message>, m: Message, seen: set<CallId>)
    ensures SeenAfter(ms + [m], seen) == SeenNext(m, SeenAfter(ms, seen))
    ensures ClaimResults(ms + [m], seen)
         == ClaimResults(ms, seen) + if Claims(m, SeenAfter(ms, seen)) then [m] else []
  {
    if ms == [] {
      assert ms + [m] == [m] && [m][1..] == [];
    } else {
      var next := SeenNext(ms[0], seen);
      ClaimSnoc(ms[1..], m, next);
      assert (ms + [m])[0] == ms[0] && (ms + [m])[1..] == ms[1..] + [m];
      assert ClaimResults(ms + [m], seen)
          == (if Claims(ms[0], seen) then [ms[0]] else []) + ClaimResults(ms[1..] + [m], next);
    }
  }

  lemma HasFreeCallStep(ms: seq<Message>, n: nat, x: CallId)
    requires n < |ms|
    ensures HasFreeCall(ms, n + 1, x)
       <==> x in CallIds(ms[n]) || (HasFreeCall(ms, n, x) && !Answers(ms[n], x))
  {
    if HasFreeCall(ms, n, x) && !Answers(ms[n], x) {
      var j: nat :| j < n && x in CallIds(ms[j]) && (forall k | j < k < n :: !Answers(ms[k], x));
      assert forall k | j < k < n + 1 :: !Answers(ms[k], x);
    }
  }

  lemma {:induction false} SeenAreFree(ms: seq<Message>, n: nat)
    requires n <= |ms|
    ensures forall x :: x in SeenAfter(ms[..n], {}) <==> HasFreeCall(ms, n, x)
    ensures ClaimResults(ms[..n], {}) == ClaimableAmong(ms, n)
  {
    if n > 0 {
      SeenAreFree(ms, n - 1);
      assert ms[..n] == ms[..n - 1] + [ms[n - 1]];
      ClaimSnoc(ms[..n - 1], ms[n - 1], {});
      forall x ensures x in SeenAfter(ms[..n], {}) <==> HasFreeCall(ms, n, x) {
        HasFreeCallStep(ms, n - 1, x);
      }
    }
  }

  // The last pass keeps a result exactly when an earlier turn issued its call
  // and no result in between used it.
  lemma ClaimsExactly(ms: seq<Message>)
    ensures ClaimResults(ms, {}) == ClaimableAmong(ms, |ms|)
  {
    SeenAreFree(ms, |ms|);
    assert ms[..|ms|] == ms;
  }

  lemma {:induction false} ClaimTwice(ms: seq<Message>, seen: set<CallId>)
    ensures ClaimResults(ClaimResults(ms, seen), seen) == ClaimResults(ms, seen)
  {
    if ms != [] {
      var rest := ClaimResults(ms[1..], SeenNext(ms[0], seen));
      ClaimTwice(ms[1..], SeenNext(ms[0], seen));
      if Claims(ms[0], seen) {
        assert ([ms[0]] + rest)[1..] == rest;
      } else {
        assert SeenNext(ms[0], seen) == seen && ClaimResults(ms, seen) == rest;
      }
    }
  }

  // Whatever goes in, every result that comes out follows a call of its own.
  lemma RepairedResultsHaveCalls(ms: seq<Message>, i: nat)
    requires i < |Repaired(ms)| && IsResult(Repaired(ms)[i])
    ensures HasFreeCall(Repaired(ms), i, Repaired(ms)[i].toolCallId.value)
  {
    var kept := DropBlank(RetainAll(ms, OutputIds(ms)));
    ClaimTwice(kept, {});
    ClaimsExactly(Repaired(ms));
    assert Claimable(Repaired(ms), i);
  }

  // When the output is balanced.

  predicate NoReissue(ms: seq<Message>, seen: set<CallId>) {
    ms == []
    || (Distinct(CallIds(ms[0])) && IdSet(CallIds(ms[0])) !! seen
        && NoReissue(ms[1..], SeenNext(ms[0], seen)))
  }

  // What repair leaves alone: the words of the conversation.

  // A message that says something: any that is not a result, but for blank assistant turns.
  predicate Speaks(m: Message) {
    if m.role == AssistantRole then !Text.AllWhitespace(m.content) else m.toolCallId.None?
  }

  function Spoken(ms: seq<Message>): seq<(Role, string, seq<Image>)> {
    if ms == [] then []
    else if Speaks(ms[0]) then [(ms[0].role, ms[0].content, ms[0].images)] + Spoken(ms[1..])
    else Spoken(ms[1..])
  }

  lemma SpokenCons(m: Message, ms: seq<Message>)
    ensures Spoken([m] + ms)
         == if Speaks(m) then [(m.role, m.content, m.images)] + Spoken(ms) else Spoken(ms)
  {
    assert ([m] + ms)[1..] == ms;
  }

  lemma {:induction false} RetainKeepsSpoken(ms: seq<Message>, ids: set<CallId>)
    ensures Spoken(DropBlank(RetainAll(ms, ids))) == Spoken(ms)
  {
    if ms != [] {
      var all := RetainAll(ms, ids);
      assert all[1..] == RetainAll(ms[1..], ids);
      RetainKeepsSpoken(ms[1..], ids);
      Text.BlankMeans(ms[0].content);
      assert Speaks(all[0]) == Speaks(ms[0]);
      if Blank(all[0]) {
        assert DropBlank(all) == DropBlank(all[1..]);
      } else {
        SpokenCons(all[0], DropBlank(all[1..]));
      }
    }
  }

  lemma {:induction false} ClaimsKeepSpoken(ms: seq<Message>, seen: set<CallId>)
    ensures Spoken(ClaimResults(ms, seen)) == Spoken(ms)
  {
    if ms != [] {
      var rest := ClaimResults(ms[1..], SeenNext(ms[0], seen));
      ClaimsKeepSpoken(ms[1..], SeenNext(ms[0], seen));
      if Claims(ms[0], seen) {
        SpokenCons(ms[0], rest);
      } else {
        assert ClaimResults(ms, seen) == rest;
      }
    }
  }

  // Whatever the list, repair keeps every message that says something, with its role, text
  // and images, in order.
  lemma RepairKeepsSpoken(ms: seq<Message>)
    ensures Spoken(Repaired(ms)) == Spoken(ms)
  {
    RetainKeepsSpoken(ms, OutputIds(ms));
    ClaimsKeepSpoken(DropBlank(RetainAll(ms, OutputIds(ms))), {});
  }

  // One message of the claiming pass, seen as a step of the protocol.
  lemma ClaimStep(m: Message, seen: set<CallId>)
    ensures Claims(m, seen) ==>
      (Step(MessageEvent(m), seen)
       == if Distinct(CallIds(m)) && IdSet(CallIds(m)) !! seen then Some(SeenNext(m, seen)) else None)
    ensures !Claims(m, seen) ==> CallIds(m) == [] && SeenNext(m, seen) == seen
  {
    assert CallIds(m) == [] ==> IdSet(CallIds(m)) == {};
    assert MessageEvent(m).Chat? ==> CallIds(m) == [] && SeenNext(m, seen) == seen;
  }

  lemma {:induction false} ClaimRuns(ms: seq<Message>, seen: set<CallId>)
    ensures Run(MessageEvents(ClaimResults(ms, seen)), seen)
         == if NoReissue(ms, seen) then Some(SeenAfter(ms, seen)) else None
  {
    if ms != [] {
      var m, next := ms[0], SeenNext(ms[0], seen);
      var rest := ClaimResults(ms[1..], next);
      ClaimRuns(ms[1..], next);
      ClaimStep(m, seen);
      if Claims(m, seen) {
        assert ClaimResults(ms, seen) == [m] + rest;
        MessageEventsCons(m, rest);
        RunCons(MessageEvent(m), MessageEvents(rest), seen);
      } else {
        assert ClaimResults(ms, seen) == rest;
      }
    }
  }

  lemma {:induction false} BlanksDoNothing(ms: seq<Message>, seen: set<CallId>)
    ensures NoReissue(DropBlank(ms), seen) == NoReissue(ms, seen)
    ensures SeenAfter(DropBlank(ms), seen) == SeenAfter(ms, seen)
  {
    if ms != [] {
      var next := SeenNext(ms[0], seen);
      BlanksDoNothing(ms[1..], next);
      if Blank(ms[0]) {
        assert CallIds(ms[0]) == [] && IdSet(CallIds(ms[0])) == {} && next == seen;
        assert DropBlank(ms) == DropBlank(ms[1..]);
      } else {
        assert DropBlank(ms)[1..] == DropBlank(ms[1..]);
      }
    }
  }

  // x gets its result at k, and is not issued again from `from` until then.
  predicate ResolvedAt(ms: seq<Message>, from: nat, k: nat, x: CallId) {
    from <= k < |ms| && Answers(ms[k], x) && forall j | from <= j < k :: x !in CallIds(ms[j])
  }

  ghost predicate Resolved(ms: seq<Message>, from: nat, x: CallId) {
    exists k: nat :: ResolvedAt(ms, from, k, x)
  }

  ghost predicate Timely(ms: seq<Message>, from: nat) {
    forall i: nat | from <= i < |ms| ::
      Distinct(CallIds(ms[i])) && forall x | x in CallIds(ms[i]) :: Resolved(ms, i + 1, x)
  }

  // Leaving out the calls that have no result anywhere in the list, every call
  // is followed by its result before its id is issued again.
  ghost predicate InTime(ms: seq<Message>) {
    Timely(RetainAll(ms, OutputIds(ms)), 0)
  }

  lemma ResolvedStep(ms: seq<Message>, k: nat, x: CallId)
    requires k < |ms|
    ensures Resolved(ms, k, x)
       <==> Answers(ms[k], x) || (x !in CallIds(ms[k]) && Resolved(ms, k + 1, x))
  {
    if Answers(ms[k], x) {
      assert ResolvedAt(ms, k, k, x);
    } else if x !in CallIds(ms[k]) && Resolved(ms, k + 1, x) {
      var r: nat :| ResolvedAt(ms, k + 1, r, x);
      assert ResolvedAt(ms, k, r, x);
    } else if r: nat :| ResolvedAt(ms, k, r, x) {
      assert ResolvedAt(ms, k + 1, r, x);
    }
  }

  ghost predicate AllResolved(ms: seq<Message>, from: nat, ids: set<CallId>) {
    forall x | x in ids :: Resolved(ms, from, x)
  }

  lemma TimelyStep(ms: seq<Message>, k: nat)
    requires k < |ms|
    ensures Timely(ms, k)
       <==> Distinct(CallIds(ms[k])) && AllResolved(ms, k + 1, IdSet(CallIds(ms[k]))) && Timely(ms, k + 1)
  {
  }

  lemma AllResolvedStep(ms: seq<Message>, k: nat, seen: set<CallId>)
    requires k < |ms|
    ensures Distinct(CallIds(ms[k])) && AllResolved(ms, k + 1, IdSet(CallIds(ms[k]))) && AllResolved(ms, k, seen)
       <==> Distinct(CallIds(ms[k])) && IdSet(CallIds(ms[k])) !! seen && AllResolved(ms, k + 1, SeenNext(ms[k], seen))
  {
    forall x ensures Resolved(ms, k, x)
                <==> Answers(ms[k], x) || (x !in CallIds(ms[k]) && Resolved(ms, k + 1, x)) {
      ResolvedStep(ms, k, x);
    }
  }

  lemma {:induction false} TimelyMeansClosed(ms: seq<Message>, k: nat, seen: set<CallId>)
    requires k <= |ms|
    ensures Timely(ms, k) && AllResolved(ms, k, seen)
       <==> NoReissue(ms[k..], seen) && SeenAfter(ms[k..], seen) == {}
    decreases |ms| - k
  {
    if k == |ms| {
      assert forall x :: !Resolved(ms, k, x);
    } else {
      var m := ms[k];
      assert ms[k..][0] == m && ms[k..][1..] == ms[k + 1..];
      TimelyMeansClosed(ms, k + 1, SeenNext(m, seen));
      TimelyStep(ms, k);
      AllResolvedStep(ms, k, seen);
    }
  }

  // Repair yields a balanced list exactly for these inputs.
  lemma RepairBalancesIff(ms: seq<Message>)
    ensures Balanced(MessageEvents(Repaired(ms))) <==> InTime(ms)
  {
    var retained := RetainAll(ms, OutputIds(ms));
    ClaimRuns(DropBlank(retained), {});
    BlanksDoNothing(retained, {});
    assert retained[0..] == retained;
    TimelyMeansClosed(retained, 0, {});
  }

  // A result before its call defeats repair: the call stays, without a result,
  // and only the next repair takes it away.

  lemma EarlyResultDropped(issue: Message, result: Message, call: Invocation)
    requires issue == Message(AssistantRole, "", [call], None, [])
    requires IsResult(result) && result.toolCallId == Some(call.id)
    ensures Repaired([result, issue]) == [issue]
  {
    var ms := [result, issue];
    assert OutputIds(ms) == {call.id} by { assert result in ms; }
    OneCall(call, {call.id});
    assert RetainAll(ms, {call.id}) == ms;
    assert ms[1..] == [issue] && [issue][1..] == [];
    assert DropBlank([issue]) == [issue];
    assert DropBlank(ms) == ms;
    assert ClaimResults([issue], SeenNext(result, {})) == [issue];
  }

  lemma LoneCallIsOpen(issue: Message, call: Invocation)
    requires issue == Message(AssistantRole, "", [call], None, [])
    ensures !Balanced(MessageEvents([issue]))
  {
    var issued := Calls([call.id]);
    assert Ids([call]) == [call.id];
    assert MessageEvents([issue]) == [issued] == [issued] + [];
    RunCons(issued, [], {});
    assert call.id in IdSet([call.id]);
    assert Run([issued], {}) == Some({} + IdSet([call.id]));
  }

  lemma EarlyResultStaysBroken(issue: Message, result: Message, call: Invocation)
    requires issue == Message(AssistantRole, "", [call], None, [])
    requires IsResult(result) && result.toolCallId == Some(call.id)
    ensures Repaired([result, issue]) == [issue]
    ensures !Balanced(MessageEvents(Repaired([result, issue]))) && !InTime([result, issue])
  {
    EarlyResultDropped(issue, result, call);
    LoneCallIsOpen(issue, call);
    RepairBalancesIff([result, issue]);
  }

  lemma SecondRepairDropsIt(issue: Message, call: Invocation)
    requires issue == Message(AssistantRole, "", [call], None, [])
    ensures Repaired([issue]) == []
  {
    assert OutputIds([issue]) == {};
    OneCall(call, {});
    var blank := issue.(toolCalls := []);
    assert RetainAll([issue], {}) == [blank];
    assert Blank(blank) && [blank][1..] == [];
    assert DropBlank([blank]) == [];
  }

  lemma OneCall(call: Invocation, ids: set<CallId>)
    ensures KeepCalls([call], ids) == if call.id in ids then [call] else []
  {
    assert [call][1..] == [];
  }
}
