// The tool-call protocol of a conversation: what a log or a list of messages
// does to the set of calls that still wait for a result.
module Protocol {
  import opened Options

  type CallId = string

  // An assistant turn that issues calls, the result of one call, or anything else.
  datatype Event = Calls(ids: seq<CallId>) | Answer(id: CallId) | Chat

  predicate Distinct(ids: seq<CallId>) {
    forall i, j | 0 <= i < j < |ids| :: ids[i] != ids[j]
  }

  lemma DistinctCons(x: CallId, xs: seq<CallId>)
    ensures Distinct([x] + xs) <==> x !in xs && Distinct(xs)
  {
    var all := [x] + xs;
    assert forall i | 0 <= i < |xs| :: all[i + 1] == xs[i];
    if Distinct(all) {
      forall i | 0 <= i < |xs| ensures xs[i] != x { assert all[0] != all[i + 1]; }
      forall i, j | 0 <= i < j < |xs| ensures xs[i] != xs[j] { assert all[i + 1] != all[j + 1]; }
    }
  }

  function IdSet(ids: seq<CallId>): set<CallId> {
    set x | x in ids
  }

  // A call may be issued while it is not open, and a result needs its call open.
  function Step(e: Event, open: set<CallId>): Option<set<CallId>> {
    match e
    case Calls(ids) =>
      if Distinct(ids) && IdSet(ids) !! open then Some(open + IdSet(ids)) else None
    case Answer(id) => if id in open then Some(open - {id}) else None
    case Chat => Some(open)
  }

  // The calls left open after es, or None when es breaks the protocol.
  function Run(es: seq<Event>, open: set<CallId>): Option<set<CallId>> {
    if es == [] then Some(open)
    else match Step(es[0], open)
      case None => None
      case Some(next) => Run(es[1..], next)
  }

  predicate Balanced(es: seq<Event>) {
    Run(es, {}) == Some({})
  }

  lemma {:induction false} RunConcat(a: seq<Event>, b: seq<Event>, open: set<CallId>)
    ensures Run(a + b, open) == match Run(a, open) case None => None case Some(mid) => Run(b, mid)
  {
    if a == [] {
      assert a + b == b;
    } else {
      assert (a + b)[0] == a[0] && (a + b)[1..] == a[1..] + b;
      match Step(a[0], open)
      case None =>
      case Some(next) => RunConcat(a[1..], b, next);
    }
  }

  lemma RunCons(e: Event, es: seq<Event>, open: set<CallId>)
    ensures Run([e] + es, open)
         == match Step(e, open) case None => None case Some(next) => Run(es, next)
  {
    assert ([e] + es)[1..] == es;
  }

  lemma RunSnoc(a: seq<Event>, e: Event, open: set<CallId>)
    requires Run(a, open).Some?
    ensures Run(a + [e], open) == Step(e, Run(a, open).value)
  {
    RunConcat(a, [e], open);
    assert [e][1..] == [];
  }

  lemma RunPrefix(es: seq<Event>, k: nat, open: set<CallId>)
    requires k < |es| && Run(es[..k], open).Some?
    ensures Run(es[..k + 1], open) == Step(es[k], Run(es[..k], open).value)
  {
    assert es[..k + 1] == es[..k] + [es[k]];
    RunSnoc(es[..k], es[k], open);
  }

  // Balance, said by positions: every call has its result, every result its call.

  predicate Issues(e: Event, x: CallId) {
    e.Calls? && x in e.ids
  }

  predicate Touches(e: Event, x: CallId) {
    Issues(e, x) || e == Answer(x)
  }

  predicate Untouched(es: seq<Event>, from: nat, to: nat, x: CallId)
    requires to <= |es|
  {
    forall k | from <= k < to :: !Touches(es[k], x)
  }

  // The call of x at i and the result at j belong together.
  predicate Matches(es: seq<Event>, i: nat, j: nat, x: CallId) {
    i < j < |es| && Issues(es[i], x) && es[j] == Answer(x) && Untouched(es, i + 1, j, x)
  }

  ghost predicate Paired(es: seq<Event>) {
    && (forall i | 0 <= i < |es| && es[i].Calls? :: Distinct(es[i].ids))
    && (forall i: nat, x | i < |es| && Issues(es[i], x) :: exists j: nat :: Matches(es, i, j, x))
    && (forall j: nat | j < |es| && es[j].Answer? :: exists i: nat :: Matches(es, i, j, es[j].id))
  }

  // An open call that is not open at the end was answered, before it was issued again.
  lemma {:induction false} NextAnswer(es: seq<Event>, open: set<CallId>, x: CallId) returns (j: nat)
    requires Run(es, open).Some? && x in open && x !in Run(es, open).value
    ensures j < |es| && es[j] == Answer(x) && Untouched(es, 0, j, x)
  {
    if es[0] == Answer(x) {
      return 0;
    }
    var rest := NextAnswer(es[1..], Step(es[0], open).value, x);
    j := rest + 1;
    forall k | 0 <= k < j ensures !Touches(es[k], x) {
      if k > 0 { assert es[k] == es[1..][k - 1]; }
    }
  }

  // A call that is open at the end was issued, and untouched since.
  lemma {:induction false} LastIssue(es: seq<Event>, open: set<CallId>, x: CallId) returns (i: int)
    requires Run(es, open).Some? && x in Run(es, open).value
    ensures -1 <= i < |es|
    ensures i == -1 ==> x in open && Untouched(es, 0, |es|, x)
    ensures i >= 0 ==> Issues(es[i], x) && Untouched(es, i + 1, |es|, x)
  {
    if es == [] {
      return -1;
    }
    var next := Step(es[0], open).value;
    var rest := LastIssue(es[1..], next, x);
    i := rest + 1;
    if rest == -1 && !Issues(es[0], x) {
      i := -1;
    }
    forall k | i + 1 <= k < |es| ensures !Touches(es[k], x) {
      if k > 0 { assert es[k] == es[1..][k - 1]; }
    }
  }

  // x was issued before k and is untouched since.
  ghost predicate Pending(es: seq<Event>, k: nat, x: CallId)
    requires k <= |es|
  {
    exists i: nat :: i < k && Issues(es[i], x) && Untouched(es, i + 1, k, x)
  }

  // In a paired log, the next event is never refused.
  lemma PairedStep(es: seq<Event>, k: nat, open: set<CallId>)
    requires Paired(es) && k < |es|
    requires AllPending(es, k, open)
    ensures Step(es[k], open).Some?
  {
    match es[k]
    case Chat =>
    case Calls(ids) =>
      forall x | x in ids ensures x !in open {
        if Pending(es, k, x) {
          var i: nat :| i < k && Issues(es[i], x) && Untouched(es, i + 1, k, x);
          var j: nat :| Matches(es, i, j, x);
          assert Touches(es[j], x) && Touches(es[k], x);
          assert false;
        }
      }
    case Answer(id) =>
      var i: nat :| Matches(es, i, k, id);
      assert Pending(es, k, id);
  }

  ghost predicate AllPending(es: seq<Event>, k: nat, open: set<CallId>)
    requires k <= |es|
  {
    forall x :: x in open <==> Pending(es, k, x)
  }

  lemma AllPendingStep(es: seq<Event>, k: nat, open: set<CallId>)
    requires k < |es| && AllPending(es, k, open) && Step(es[k], open).Some?
    ensures AllPending(es, k + 1, Step(es[k], open).value)
  {
    forall x ensures x in Step(es[k], open).value <==> Pending(es, k + 1, x) {
      PendingStep(es, k, x);
    }
  }

  lemma {:induction false} PairedRuns(es: seq<Event>, k: nat) returns (open: set<CallId>)
    requires Paired(es) && k <= |es|
    ensures Run(es[..k], {}) == Some(open) && AllPending(es, k, open)
  {
    if k == 0 {
      return {};
    }
    var before := PairedRuns(es, k - 1);
    PairedStep(es, k - 1, before);
    AllPendingStep(es, k - 1, before);
    RunPrefix(es, k - 1, {});
    open := Step(es[k - 1], before).value;
  }

  lemma PendingStep(es: seq<Event>, k: nat, x: CallId)
    requires k < |es|
    ensures Pending(es, k + 1, x)
       <==> Issues(es[k], x) || (Pending(es, k, x) && es[k] != Answer(x))
  {
    if Issues(es[k], x) {
      assert Untouched(es, k + 1, k + 1, x);
    } else if Pending(es, k, x) && es[k] != Answer(x) {
      var i: nat :| i < k && Issues(es[i], x) && Untouched(es, i + 1, k, x);
      assert Untouched(es, i + 1, k + 1, x);
    }
  }

  lemma PrefixRun(es: seq<Event>, k: nat, open: set<CallId>)
    requires k <= |es| && Run(es, open).Some?
    ensures Run(es[..k], open).Some?
    ensures Run(es[k..], Run(es[..k], open).value) == Run(es, open)
  {
    assert es == es[..k] + es[k..];
    RunConcat(es[..k], es[k..], open);
  }

  // The automaton accepts exactly the logs in which calls and results pair up:
  // each call is answered by exactly one later result before its id is used again,
  // and each result follows the call it answers.
  lemma BalancedMeansPaired(es: seq<Event>)
    ensures Balanced(es) <==> Paired(es)
  {
    if Balanced(es) {
      forall i: nat | i < |es| && es[i].Calls? ensures Distinct(es[i].ids) {
        CallStep(es, i);
      }
      forall i: nat, x | i < |es| && Issues(es[i], x) ensures exists j: nat :: Matches(es, i, j, x) {
        CallStep(es, i);
        PrefixRun(es, i + 1, {});
        var j := NextAnswer(es[i + 1..], Run(es[..i + 1], {}).value, x);
        forall k | i + 1 <= k < i + 1 + j ensures !Touches(es[k], x) {
          assert es[k] == es[i + 1..][k - i - 1];
        }
        assert Matches(es, i, i + 1 + j, x);
      }
      forall j: nat | j < |es| && es[j].Answer? ensures exists i: nat :: Matches(es, i, j, es[j].id) {
        CallStep(es, j);
        var i := LastIssue(es[..j], {}, es[j].id);
        assert Matches(es, i, j, es[j].id);
      }
    }
    if Paired(es) {
      var open := PairedRuns(es, |es|);
      assert es[..|es|] == es;
      assert forall x :: !Pending(es, |es|, x);
      assert open == {};
    }
  }

  lemma AnswerOf(es: seq<Event>, i: nat, x: CallId) returns (j: nat)
    requires Balanced(es) && i < |es| && Issues(es[i], x)
    ensures Matches(es, i, j, x)
  {
    BalancedMeansPaired(es);
    j :| Matches(es, i, j, x);
  }

  lemma CallStep(es: seq<Event>, i: nat)
    requires i < |es| && Run(es, {}).Some?
    ensures Run(es[..i], {}).Some? && Step(es[i], Run(es[..i], {}).value).Some?
    ensures Run(es[..i + 1], {}) == Step(es[i], Run(es[..i], {}).value)
  {
    PrefixRun(es, i, {});
    PrefixRun(es, i + 1, {});
    RunPrefix(es, i, {});
  }
}
