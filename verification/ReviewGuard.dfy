// The committee's review loop and the guard that bounds how often a reviewer may ask
// for changes.
module ReviewGuard {
  import opened Options

  const U32_MAX: nat := 0xFFFF_FFFF

  datatype Verdict = Approve | RequestChanges(comments: string) | Block(reason: string)

  datatype StopReason = Done | ApprovalRequired | MaxTurns | Budget | Interrupted

  // A turn that succeeded or failed with an outcome. mutated is what a shell tool reports,
  // taken as true when it reports nothing.
  datatype Outcome = Outcome(toolName: string, success: bool, mutated: bool, cost: real)

  // What the world answers in one iteration: the turn (None when it errs), the diff after
  // it, the reviewer (None when the pass errs), and the operator asked about a block.
  datatype Oracle = Oracle(
    cancelled: bool, outcome: Option<Outcome>, diff: Option<string>, reviewer: Option<Verdict>, overridden: bool)

  datatype Event =
    | TurnStarted(turn: nat)
    | Reviewed(turn: nat, verdict: Verdict, signature: string)
    | CounterReset
    | BlockAccepted
    | Finished(reason: StopReason)

  datatype Review = Review(consecutive: nat, counts: map<string, nat>, trace: seq<Event>)

  function Bump(n: nat): nat {
    if n < U32_MAX then n + 1 else n
  }

  function Count(counts: map<string, nat>, signature: string): nat {
    if signature in counts then counts[signature] else 0
  }

  function AtLeastOne(n: nat): (limit: nat)
    ensures n == 0 ==> limit == 1
    ensures n > 0 ==> limit == n
  {
    if n < 1 then 1 else n
  }

  // One more request leaves both counts below the limit, which is one at least.
  predicate HasRoom(signature: string, maxReviewPasses: nat, consecutive: nat, counts: map<string, nat>) {
    consecutive + 1 < maxReviewPasses && (signature in counts ==> counts[signature] + 1 < maxReviewPasses)
  }

  // A request for changes goes through only while neither this diff nor the current
  // streak has used up its passes; otherwise it becomes a block. Approvals reset the streak.
  method GuardedReviewerVerdict(
      verdict: Verdict, signature: string, maxReviewPasses: nat, consecutive: nat, counts: map<string, nat>)
    returns (guarded: Verdict, nextConsecutive: nat, nextCounts: map<string, nat>)
    ensures !verdict.RequestChanges? ==> guarded == verdict && nextCounts == counts
    ensures !verdict.RequestChanges? ==> nextConsecutive == if verdict.Approve? then 0 else consecutive
    ensures verdict.RequestChanges? ==>
      nextConsecutive == Bump(consecutive) && nextCounts == counts[signature := Bump(Count(counts, signature))]
      && (if nextConsecutive < AtLeastOne(maxReviewPasses) && nextCounts[signature] < AtLeastOne(maxReviewPasses)
          then guarded == verdict else guarded.Block?)
    // The same without saturation: a request goes through while neither count is used up by it.
    ensures verdict.RequestChanges? && consecutive < U32_MAX ==> nextConsecutive == consecutive + 1
    ensures verdict.RequestChanges? && signature !in counts ==> nextCounts == counts[signature := 1]
    ensures verdict.RequestChanges? && signature in counts && counts[signature] < U32_MAX ==>
      nextCounts == counts[signature := counts[signature] + 1]
    ensures verdict.RequestChanges? && maxReviewPasses <= U32_MAX ==>
      if HasRoom(signature, maxReviewPasses, consecutive, counts) then guarded == verdict else guarded.Block?
  {
    var limit := AtLeastOne(maxReviewPasses);
    if !verdict.RequestChanges? {
      return verdict, if verdict.Approve? then 0 else consecutive, counts;
    }
    nextConsecutive := Bump(consecutive);
    nextCounts := counts[signature := Bump(Count(counts, signature))];
    if nextCounts[signature] >= limit {
      return Block("changes requested for the same diff too often"), nextConsecutive, nextCounts;
    }
    if nextConsecutive >= limit {
      return Block("changes requested too many turns in a row"), nextConsecutive, nextCounts;
    }
    guarded := verdict;
  }

  predicate ShouldConsider(o: Outcome) {
    o.toolName == "file_write" || o.toolName == "file_patch" || (o.toolName == "shell_exec" && o.mutated)
  }

  // How many requests for changes of one diff went through.
  function PassedFor(trace: seq<Event>, signature: string): nat {
    if trace == [] then 0
    else
      PassedFor(trace[..|trace| - 1], signature)
      + match trace[|trace| - 1]
        case Reviewed(_, RequestChanges(_), s) => if s == signature then 1 else 0
        case _ => 0
  }

  // How many went through since the streak was last reset.
  function PassedSinceReset(trace: seq<Event>): nat {
    if trace == [] then 0
    else
      match trace[|trace| - 1]
      case CounterReset => 0
      case Reviewed(_, Approve, _) => 0
      case Reviewed(_, RequestChanges(_), _) => 1 + PassedSinceReset(trace[..|trace| - 1])
      case _ => PassedSinceReset(trace[..|trace| - 1])
  }

  function Started(trace: seq<Event>): nat {
    if trace == [] then 0
    else Started(trace[..|trace| - 1]) + if trace[|trace| - 1].TurnStarted? then 1 else 0
  }

  // What the trace says of the turns and the world's answers, event by event.

  predicate CallsForReview(o: Outcome) {
    o.success
    && (o.toolName == "file_write" || o.toolName == "file_patch" || (o.toolName == "shell_exec" && o.mutated))
  }

  // The event at k is one that may be the last before the next turn or the end.
  predicate TurnOver(trace: seq<Event>, k: nat)
    requires k < |trace|
  {
    k + 1 < |trace| ==> trace[k + 1].TurnStarted? || trace[k + 1].Finished?
  }

  predicate NextIs(trace: seq<Event>, k: nat, e: Event) {
    k + 1 < |trace| && trace[k + 1] == e
  }

  // A turn is reviewed exactly when it calls for it, there is a diff, and the reviewer gives
  // a verdict; without the first two the streak is reset.
  predicate TurnFollowed(trace: seq<Event>, k: nat, o: Oracle, sign: string -> string)
    requires k < |trace| && trace[k].TurnStarted?
  {
    if o.outcome == None then TurnOver(trace, k)
    else if !CallsForReview(o.outcome.value) || o.diff == None then NextIs(trace, k, CounterReset)
    else if o.reviewer == None then TurnOver(trace, k)
    else k + 1 < |trace| && trace[k + 1].Reviewed? && trace[k + 1].turn == trace[k].turn
         && trace[k + 1].signature == sign(o.diff.value)
  }

  // The verdict shown is the reviewer's, but for requests for changes that became a block.
  // An approval resets the streak, and so does a block that the operator overrides; any
  // other block is accepted.
  predicate VerdictFollowed(trace: seq<Event>, k: nat, o: Oracle)
    requires k < |trace| && trace[k].Reviewed?
  {
    && k > 0 && trace[k - 1] == TurnStarted(trace[k].turn) && o.reviewer.Some?
    && (o.reviewer.value == trace[k].verdict || (o.reviewer.value.RequestChanges? && trace[k].verdict.Block?))
    && match trace[k].verdict
       case Approve => NextIs(trace, k, CounterReset)
       case RequestChanges(_) => TurnOver(trace, k)
       case Block(_) => NextIs(trace, k, if o.overridden then CounterReset else BlockAccepted)
  }

  predicate Follows(trace: seq<Event>, k: nat, oracle: nat -> Oracle, sign: string -> string)
    requires k < |trace|
  {
    match trace[k]
    case TurnStarted(turn) => TurnFollowed(trace, k, oracle(turn), sign)
    case Reviewed(turn, _, _) => VerdictFollowed(trace, k, oracle(turn))
    case BlockAccepted => k > 0 && trace[k - 1].Reviewed? && trace[k - 1].verdict.Block? && TurnOver(trace, k)
    case CounterReset => k > 0 && (trace[k - 1].TurnStarted? || trace[k - 1].Reviewed?) && TurnOver(trace, k)
    case Finished(_) => k + 1 == |trace|
  }

  predicate Faithful(trace: seq<Event>, oracle: nat -> Oracle, sign: string -> string) {
    forall k: nat | k < |trace| :: Follows(trace, k, oracle, sign)
  }

  predicate Unfinished(trace: seq<Event>) {
    trace != [] ==> !trace[|trace| - 1].Finished?
  }

  lemma FaithfulAfter(trace: seq<Event>, more: seq<Event>, oracle: nat -> Oracle, sign: string -> string)
    requires Faithful(trace, oracle, sign) && more != [] && (more[0].TurnStarted? || more[0].Finished?)
    requires Unfinished(trace)
    ensures forall k: nat | k < |trace| :: Follows(trace + more, k, oracle, sign)
  {
    forall k: nat | k < |trace| ensures Follows(trace + more, k, oracle, sign) {
      assert Follows(trace, k, oracle, sign);
      assert (trace + more)[k] == trace[k] && (k > 0 ==> (trace + more)[k - 1] == trace[k - 1]);
      assert k + 1 < |trace| ==> (trace + more)[k + 1] == trace[k + 1];
      assert k + 1 == |trace| ==> (trace + more)[k + 1] == more[0];
    }
  }

  // What one turn shows of its review. guarded is the verdict after the guard.
  predicate ReviewShown(turn: nat, o: Oracle, outcome: Outcome, sign: string -> string, guarded: Option<Verdict>,
                        shown: seq<Event>)
  {
    if !CallsForReview(outcome) || o.diff == None then guarded == None && shown == [CounterReset]
    else if o.reviewer == None then guarded == None && shown == []
    else
      guarded.Some?
      && (o.reviewer.value == guarded.value || (o.reviewer.value.RequestChanges? && guarded.value.Block?))
      && shown == [Reviewed(turn, guarded.value, sign(o.diff.value))]
           + match guarded.value
             case Approve => [CounterReset]
             case RequestChanges(_) => []
             case Block(_) => if o.overridden then [CounterReset] else [BlockAccepted]
  }

  lemma TurnFaithful(trace: seq<Event>, turn: nat, oracle: nat -> Oracle, sign: string -> string,
                     guarded: Option<Verdict>, shown: seq<Event>, all: seq<Event>)
    requires Faithful(trace, oracle, sign) && Unfinished(trace)
    requires all == if oracle(turn).cancelled then trace else trace + [TurnStarted(turn)] + shown
    requires !oracle(turn).cancelled ==>
      if oracle(turn).outcome == None then shown == []
      else ReviewShown(turn, oracle(turn), oracle(turn).outcome.value, sign, guarded, shown)
    ensures Faithful(all, oracle, sign) && Unfinished(all)
  {
    if !oracle(turn).cancelled {
      var more := [TurnStarted(turn)] + shown;
      assert all == trace + more;
      FaithfulAfter(trace, more, oracle, sign);
      var n := |trace|;
      assert all[n] == TurnStarted(turn);
      if |shown| > 0 {
        assert all[n + 1] == shown[0];
        if |shown| > 1 {
          assert all[n + 2] == shown[1];
          assert Follows(all, n + 2, oracle, sign);
        }
        assert Follows(all, n + 1, oracle, sign);
      }
      assert Follows(all, n, oracle, sign);
    }
  }

  lemma EndFaithful(trace: seq<Event>, stop: StopReason, oracle: nat -> Oracle, sign: string -> string)
    requires Faithful(trace, oracle, sign) && Unfinished(trace)
    ensures Faithful(trace + [Finished(stop)], oracle, sign)
  {
    FaithfulAfter(trace, [Finished(stop)], oracle, sign);
    assert Follows(trace + [Finished(stop)], |trace|, oracle, sign);
  }

  // The bounds at every moment of the run, and no turn after an accepted block.
  predicate Bounded(trace: seq<Event>, limit: nat) {
    trace == []
    || var init, last := trace[..|trace| - 1], trace[|trace| - 1];
       Bounded(init, limit)
       && (last.Reviewed? ==> PassedFor(trace, last.signature) < limit)
       && PassedSinceReset(trace) < limit
       && (last.TurnStarted? ==> BlockAccepted !in init)
  }

  ghost predicate Sound(r: Review, limit: nat) {
    && Bounded(r.trace, limit) && BlockAccepted !in r.trace
    && PassedSinceReset(r.trace) <= r.consecutive
    && (forall s :: PassedFor(r.trace, s) <= Count(r.counts, s))
    && (forall s | s in r.counts :: r.counts[s] <= U32_MAX) && r.consecutive <= U32_MAX
  }

  lemma Snoc(trace: seq<Event>, e: Event)
    ensures (trace + [e])[..|trace + [e]| - 1] == trace && (trace + [e])[|trace + [e]| - 1] == e
  {
  }

  method Note(r: Review, e: Event, limit: nat) returns (after: Review)
    requires Sound(r, limit) && 0 < limit && (e.TurnStarted? || e.CounterReset?)
    ensures after == Review(if e.CounterReset? then 0 else r.consecutive, r.counts, r.trace + [e])
    ensures Sound(after, limit) && Started(after.trace) == Started(r.trace) + if e.TurnStarted? then 1 else 0
  {
    Snoc(r.trace, e);
    after := Review(if e.CounterReset? then 0 else r.consecutive, r.counts, r.trace + [e]);
    assert forall s :: PassedFor(after.trace, s) == PassedFor(r.trace, s);
  }

  // What a verdict adds to the counts over the trace.
  lemma ReviewedCounts(trace: seq<Event>, e: Event, s: string)
    requires e.Reviewed?
    ensures PassedFor(trace + [e], s)
         == PassedFor(trace, s) + if e.verdict.RequestChanges? && s == e.signature then 1 else 0
    ensures PassedSinceReset(trace + [e])
         == (match e.verdict
             case Approve => 0
             case RequestChanges(_) => 1 + PassedSinceReset(trace)
             case Block(_) => PassedSinceReset(trace))
    ensures Started(trace + [e]) == Started(trace)
  {
    Snoc(trace, e);
  }

  lemma ReviewedBounded(trace: seq<Event>, e: Event, limit: nat)
    requires Bounded(trace, limit) && 0 < limit && e.Reviewed?
    requires e.verdict.RequestChanges? ==>
      PassedFor(trace, e.signature) + 1 < limit && PassedSinceReset(trace) + 1 < limit
    ensures Bounded(trace + [e], limit)
  {
    Snoc(trace, e);
    ReviewedCounts(trace, e, e.signature);
    FewRequestsPass(trace, limit, e.signature, |trace|);
    assert trace[..|trace|] == trace;
  }

  // One reviewer pass that gave a verdict.
  method Guard(r: Review, turn: nat, verdict: Verdict, signature: string, maxReviewPasses: nat)
    returns (guarded: Verdict, after: Review)
    requires Sound(r, AtLeastOne(maxReviewPasses)) && maxReviewPasses <= U32_MAX
    ensures Sound(after, AtLeastOne(maxReviewPasses))
    ensures after.trace == r.trace + [Reviewed(turn, guarded, signature)]
    ensures Started(after.trace) == Started(r.trace)
    ensures if verdict.RequestChanges? && !HasRoom(signature, maxReviewPasses, r.consecutive, r.counts)
            then guarded.Block? else guarded == verdict
  {
    var consecutive, counts;
    guarded, consecutive, counts :=
      GuardedReviewerVerdict(verdict, signature, maxReviewPasses, r.consecutive, r.counts);
    var e := Reviewed(turn, guarded, signature);
    after := Review(consecutive, counts, r.trace + [e]);
    ReviewedCounts(r.trace, e, signature);
    ReviewedBounded(r.trace, e, AtLeastOne(maxReviewPasses));
    forall s ensures PassedFor(after.trace, s) <= Count(after.counts, s) {
      ReviewedCounts(r.trace, e, s);
      assert PassedFor(r.trace, s) <= Count(r.counts, s);
    }
  }

  datatype Flow = Go | StopWith(reason: StopReason)

  // What follows from a guarded verdict: the operator is asked about a block.
  method ActOn(r: Review, verdict: Verdict, overridden: bool, limit: nat)
    returns (flow: Flow, after: Review, ghost shown: seq<Event>)
    requires Sound(r, limit) && 0 < limit
    ensures after.trace == r.trace + shown
    ensures shown == match verdict
                     case Approve => [CounterReset]
                     case RequestChanges(_) => []
                     case Block(_) => if overridden then [CounterReset] else [BlockAccepted]
    ensures flow == if verdict.Block? && !overridden then StopWith(Interrupted) else Go
    ensures flow.Go? ==> Sound(after, limit)
    ensures flow.StopWith? ==> Bounded(after.trace, limit)
    ensures Started(after.trace) == Started(r.trace)
  {
    flow, after, shown := Go, r, [];
    match verdict {
      case Approve =>
        shown := [CounterReset];
        after := Note(r, CounterReset, limit);
      case RequestChanges(_) =>
      case Block(_) =>
        if overridden {
          shown := [CounterReset];
          after := Note(r, CounterReset, limit);
        } else {
          Snoc(r.trace, BlockAccepted);
          after, shown := r.(trace := r.trace + [BlockAccepted]), [BlockAccepted];
          flow := StopWith(Interrupted);
        }
    }
  }

  // The review of a turn, if it calls for one. A block that the operator does not
  // override stops the run.
  method ReviewTurn(r: Review, turn: nat, o: Oracle, outcome: Outcome, maxReviewPasses: nat, sign: string -> string)
    returns (flow: Flow, after: Review, ghost guarded: Option<Verdict>, ghost shown: seq<Event>)
    requires Sound(r, AtLeastOne(maxReviewPasses)) && maxReviewPasses <= U32_MAX
    // It stops exactly for a block, the reviewer's own or one that the guard makes of a
    // request for changes, that the operator does not override.
    ensures flow.StopWith? <==>
      && CallsForReview(outcome) && o.diff.Some? && o.reviewer.Some? && !o.overridden
      && (o.reviewer.value.Block?
          || (o.reviewer.value.RequestChanges?
              && !HasRoom(sign(o.diff.value), maxReviewPasses, r.consecutive, r.counts)))
    ensures after.trace == r.trace + shown && ReviewShown(turn, o, outcome, sign, guarded, shown)
    ensures flow.Go? ==> Sound(after, AtLeastOne(maxReviewPasses))
    ensures flow.StopWith? ==>
      flow.reason == Interrupted && Bounded(after.trace, AtLeastOne(maxReviewPasses))
      && BlockAccepted in after.trace
    ensures Started(after.trace) == Started(r.trace)
  {
    var limit := AtLeastOne(maxReviewPasses);
    flow, guarded, shown := Go, None, [];
    if !(outcome.success && ShouldConsider(outcome)) || o.diff.None? {
      after := Note(r, CounterReset, limit);
      shown := [CounterReset];
      return;
    }
    if o.reviewer.None? {
      after := r;
      return;
    }
    var verdict;
    verdict, after := Guard(r, turn, o.reviewer.value, sign(o.diff.value), maxReviewPasses);
    guarded := Some(verdict);
    ghost var followed;
    flow, after, followed := ActOn(after, verdict, o.overridden, limit);
    shown := [Reviewed(turn, verdict, sign(o.diff.value))] + followed;
  }

  // What the first n turns cost.
  function Spent(oracle: nat -> Oracle, n: nat): real {
    if n == 0 then 0.0
    else Spent(oracle, n - 1) + CostOf(oracle(n - 1))
  }

  predicate SaysDone(o: Oracle) {
    o.outcome.Some? && o.outcome.value.toolName == "agent_done" && o.outcome.value.success
  }

  predicate UsedUp(budget: real, spent: real) {
    budget > 0.0 && spent >= budget
  }

  // The i-th turn neither errs nor is the last for being done or for its cost.
  predicate GoesOn(oracle: nat -> Oracle, i: nat, budget: real) {
    !oracle(i).cancelled && oracle(i).outcome.Some? && !SaysDone(oracle(i)) && !UsedUp(budget, Spent(oracle, i + 1))
  }

  // Why a run that started n turns stopped.
  predicate Stopped(stop: StopReason, oracle: nat -> Oracle, n: nat, maxTurns: nat, budget: real, blocked: bool) {
    match stop
    case Done => n > 0 && SaysDone(oracle(n - 1))
    case ApprovalRequired => n > 0 && oracle(n - 1).outcome.None?
    case MaxTurns => n == maxTurns && !blocked && (n > 0 ==> GoesOn(oracle, n - 1, budget))
    case Budget => n > 0 && !SaysDone(oracle(n - 1)) && UsedUp(budget, Spent(oracle, n))
    case Interrupted => blocked || (n < maxTurns && oracle(n).cancelled)
  }

  function CostOf(o: Oracle): real {
    match o.outcome case Some(outcome) => outcome.cost case None => 0.0
  }

  // One iteration of the committee loop; None goes on to the next.
  method CommitteeTurn(r: Review, turn: nat, o: Oracle, budget: real, cost: real, maxReviewPasses: nat,
                       sign: string -> string)
    returns (stop: Option<StopReason>, after: Review, spent: real, ghost guarded: Option<Verdict>, ghost shown: seq<Event>)
    requires Sound(r, AtLeastOne(maxReviewPasses)) && maxReviewPasses <= U32_MAX
    ensures after.trace == if o.cancelled then r.trace else r.trace + [TurnStarted(turn)] + shown
    ensures !o.cancelled ==>
      if o.outcome == None then shown == [] else ReviewShown(turn, o, o.outcome.value, sign, guarded, shown)
    ensures Bounded(after.trace, AtLeastOne(maxReviewPasses))
    ensures stop.None? ==> Sound(after, AtLeastOne(maxReviewPasses))
    ensures Started(after.trace) == Started(r.trace) + if o.cancelled then 0 else 1
    ensures spent == cost + if o.cancelled then 0.0 else CostOf(o)
    ensures BlockAccepted in after.trace ==> stop == Some(Interrupted)
    ensures o.cancelled ==> stop == Some(Interrupted)
    ensures !o.cancelled && !(BlockAccepted in after.trace) ==>
      stop == if o.outcome == None then Some(ApprovalRequired)
              else if o.outcome.value.success && o.outcome.value.toolName == "agent_done" then Some(Done)
              else if budget > 0.0 && spent >= budget then Some(Budget)
              else None
  {
    var limit := AtLeastOne(maxReviewPasses);
    spent, guarded, shown := cost, None, [];
    if o.cancelled {
      stop, after := Some(Interrupted), r;
      return;
    }
    after := Note(r, TurnStarted(turn), limit);
    if o.outcome.None? {
      stop := Some(ApprovalRequired);
      return;
    }
    var outcome := o.outcome.value;
    spent := cost + outcome.cost;
    var flow;
    flow, after, guarded, shown := ReviewTurn(after, turn, o, outcome, maxReviewPasses, sign);
    if flow.StopWith? {
      stop := Some(flow.reason);
      return;
    }
    if outcome.toolName == "agent_done" && outcome.success {
      stop := Some(Done);
      return;
    }
    stop := if budget > 0.0 && spent >= budget then Some(Budget) else None;
  }

  // One more iteration on top of a faithful trace.
  method NextTurn(r: Review, turn: nat, oracle: nat -> Oracle, budget: real, cost: real, maxReviewPasses: nat,
                  sign: string -> string)
    returns (stop: Option<StopReason>, after: Review, spent: real)
    requires Sound(r, AtLeastOne(maxReviewPasses)) && maxReviewPasses <= U32_MAX
    requires Faithful(r.trace, oracle, sign) && Unfinished(r.trace)
    ensures Faithful(after.trace, oracle, sign) && Unfinished(after.trace)
    ensures Bounded(after.trace, AtLeastOne(maxReviewPasses))
    ensures stop.None? ==> Sound(after, AtLeastOne(maxReviewPasses))
    ensures Started(after.trace) == Started(r.trace) + if oracle(turn).cancelled then 0 else 1
    ensures spent == cost + if oracle(turn).cancelled then 0.0 else CostOf(oracle(turn))
    ensures BlockAccepted in after.trace ==> stop == Some(Interrupted)
    ensures stop == if oracle(turn).cancelled || BlockAccepted in after.trace then Some(Interrupted)
                    else if oracle(turn).outcome == None then Some(ApprovalRequired)
                    else if SaysDone(oracle(turn)) then Some(Done)
                    else if UsedUp(budget, spent) then Some(Budget)
                    else None
  {
    ghost var guarded, shown;
    stop, after, spent, guarded, shown := CommitteeTurn(r, turn, oracle(turn), budget, cost, maxReviewPasses, sign);
    TurnFaithful(r.trace, turn, oracle, sign, guarded, shown, after.trace);
  }

  // The turns of the committee loop. It stops at the first that gives a reason to.
  method RunTurns(maxTurns: nat, maxReviewPasses: nat, budget: real, sign: string -> string, oracle: nat -> Oracle)
    returns (r: Review, stop: StopReason)
    requires maxReviewPasses <= U32_MAX
    ensures Bounded(r.trace, AtLeastOne(maxReviewPasses))
    ensures Faithful(r.trace, oracle, sign) && Unfinished(r.trace)
    ensures BlockAccepted in r.trace ==> stop == Interrupted
    ensures Started(r.trace) <= maxTurns && forall i: nat | i + 1 < Started(r.trace) :: GoesOn(oracle, i, budget)
    ensures Stopped(stop, oracle, Started(r.trace), maxTurns, budget, BlockAccepted in r.trace)
  {
    var limit := AtLeastOne(maxReviewPasses);
    r := Review(0, map[], []);
    var cost := 0.0;
    stop := MaxTurns;
    NothingYet(limit);
    for i := 0 to maxTurns
      invariant Sound(r, limit) && stop == MaxTurns
      invariant Started(r.trace) == i && cost == Spent(oracle, i)
      invariant Faithful(r.trace, oracle, sign) && Unfinished(r.trace)
      invariant forall j: nat | j < i :: GoesOn(oracle, j, budget)
    {
      var reason;
      reason, r, cost := NextTurn(r, i, oracle, budget, cost, maxReviewPasses, sign);
      if reason.Some? {
        stop := reason.value;
        break;
      }
      GoesOnWhen(oracle, i, budget, cost);
    }
  }

  // The committee loop. Requests for changes stay within the bounds at every moment, and
  // an accepted block ends the run as interrupted, without another turn.
  method RunCommittee(maxTurns: nat, maxReviewPasses: nat, budget: real, sign: string -> string, oracle: nat -> Oracle)
    returns (trace: seq<Event>, stop: StopReason)
    requires maxReviewPasses <= U32_MAX
    ensures trace != [] && trace[|trace| - 1] == Finished(stop)
    ensures Faithful(trace, oracle, sign)
    ensures Bounded(trace, AtLeastOne(maxReviewPasses))
    ensures BlockAccepted in trace ==> stop == Interrupted
    ensures Started(trace) <= maxTurns && forall i: nat | i + 1 < Started(trace) :: GoesOn(oracle, i, budget)
    ensures Stopped(stop, oracle, Started(trace), maxTurns, budget, BlockAccepted in trace)
  {
    var r;
    r, stop := RunTurns(maxTurns, maxReviewPasses, budget, sign, oracle);
    FinishedAfter(r.trace, stop, AtLeastOne(maxReviewPasses));
    EndFaithful(r.trace, stop, oracle, sign);
    trace := r.trace + [Finished(stop)];
  }

  lemma FinishedAfter(trace: seq<Event>, stop: StopReason, limit: nat)
    requires Bounded(trace, limit) && 0 < limit
    ensures var all := trace + [Finished(stop)];
            Bounded(all, limit) && Started(all) == Started(trace) && (BlockAccepted in all <==> BlockAccepted in trace)
  {
    Snoc(trace, Finished(stop));
    FewRequestsPass(trace, limit, "", |trace|);
    assert trace[..|trace|] == trace;
  }

  lemma NothingYet(limit: nat)
    requires 0 < limit
    ensures Sound(Review(0, map[], []), limit)
  {
  }

  lemma GoesOnWhen(oracle: nat -> Oracle, i: nat, budget: real, spent: real)
    requires !oracle(i).cancelled && oracle(i).outcome.Some? && !SaysDone(oracle(i)) && !UsedUp(budget, spent)
    requires spent == Spent(oracle, i) + CostOf(oracle(i))
    ensures GoesOn(oracle, i, budget)
  {
  }

  // What the bounds mean: over the whole run fewer than limit requests for changes of any
  // one diff go through, and fewer than limit in any streak, up to every moment;
  lemma {:induction false} FewRequestsPass(trace: seq<Event>, limit: nat, signature: string, k: nat)
    requires Bounded(trace, limit) && 0 < limit && k <= |trace|
    ensures PassedFor(trace[..k], signature) < limit && PassedSinceReset(trace[..k]) < limit
  {
    if k < |trace| {
      FewRequestsPass(trace[..|trace| - 1], limit, signature, k);
      assert trace[..|trace| - 1][..k] == trace[..k];
    } else if trace != [] {
      assert trace[..k] == trace;
      FewRequestsPass(trace[..|trace| - 1], limit, signature, k - 1);
      assert trace[..|trace| - 1][..k - 1] == trace[..|trace| - 1];
    }
  }

  // and no turn starts after an accepted block.
  lemma {:induction false} NoTurnAfterBlock(trace: seq<Event>, limit: nat, i: nat, j: nat)
    requires Bounded(trace, limit) && i < j < |trace| && trace[i] == BlockAccepted
    ensures !trace[j].TurnStarted?
  {
    var init := trace[..|trace| - 1];
    if j < |init| {
      NoTurnAfterBlock(init, limit, i, j);
    } else {
      assert init[i] in init;
    }
  }
}
