// The events a run shows to its observers, and what a sound stream of them is.
module RunEvents {
  import opened Options

  datatype Phase = Planning | Executing | Verifying | Recovering | Delegating | PhaseDone

  datatype StopReason = Done | ApprovalRequired | MaxTurns | Budget | Interrupted

  datatype TurnOutcome = TurnOutcome(toolName: string, success: bool, done: bool, cost: real)

  datatype Summary = Summary(turns: seq<TurnOutcome>, cost: real, stoppedReason: StopReason)

  datatype RunEvent =
    | RunStarted
    | TurnStarted(turnIndex: nat)
    | UsageUpdated(cost: real)
    | TurnEnded(turnIndex: nat, success: bool)
    | CompactionReported(tokensBefore: nat, tokensAfter: nat)
    | PhaseChanged(from: Phase, to: Phase)
    | InterruptedAt(stage: string)
    | Recovery(message: string)
    | ResumeStarted(tool: string)
    | Finished(summary: Summary)

  // Turn indices increase and stay below bound, a turn ends only while it is the last one
  // started, and the run is not finished yet.
  predicate Orderly(trace: seq<RunEvent>, bound: nat) {
    trace == []
    || var init, last := trace[..|trace| - 1], trace[|trace| - 1];
       match last
       case TurnStarted(i) => i < bound && Orderly(init, i)
       case TurnEnded(i, _) => LastStarted(init) == Some(i) && Orderly(init, bound)
       case Finished(_) => false
       case _ => Orderly(init, bound)
  }

  // The phase changes link up from one phase to another, each a real change.
  predicate Chained(from: Phase, trace: seq<RunEvent>, to: Phase) {
    if trace == [] then from == to
    else
      var init, last := trace[..|trace| - 1], trace[|trace| - 1];
      match last
      case PhaseChanged(a, b) => a != b && b == to && Chained(from, init, a)
      case _ => Chained(from, init, to)
  }

  function LastStarted(trace: seq<RunEvent>): Option<nat> {
    if trace == [] then None
    else
      match trace[|trace| - 1]
      case TurnStarted(i) => Some(i)
      case _ => LastStarted(trace[..|trace| - 1])
  }

  // How the turns that ended went, in order.
  function Endings(trace: seq<RunEvent>): seq<bool> {
    if trace == [] then []
    else
      match trace[|trace| - 1]
      case TurnEnded(_, success) => Endings(trace[..|trace| - 1]) + [success]
      case _ => Endings(trace[..|trace| - 1])
  }

  // A pending call was taken up.
  predicate Resumed(trace: seq<RunEvent>) {
    trace != [] && (trace[|trace| - 1].ResumeStarted? || Resumed(trace[..|trace| - 1]))
  }

  // A compaction was reported.
  predicate Shrunk(trace: seq<RunEvent>) {
    trace != [] && (trace[|trace| - 1].CompactionReported? || Shrunk(trace[..|trace| - 1]))
  }

  // No turn started or ended in between, no pending call was taken up, and no compaction
  // reported.
  predicate SameTurns(before: seq<RunEvent>, after: seq<RunEvent>) {
    LastStarted(before) == LastStarted(after) && Endings(before) == Endings(after)
    && Resumed(before) == Resumed(after) && Shrunk(before) == Shrunk(after)
  }

  function Successes(turns: seq<TurnOutcome>): seq<bool> {
    seq(|turns|, i requires 0 <= i < |turns| => turns[i].success)
  }

  lemma Snoc(trace: seq<RunEvent>, e: RunEvent)
    ensures (trace + [e])[..|trace + [e]| - 1] == trace
  {
  }

  lemma {:induction false} OrderlyMono(trace: seq<RunEvent>, a: nat, b: nat)
    requires Orderly(trace, a) && a <= b
    ensures Orderly(trace, b)
  {
    if trace != [] && !trace[|trace| - 1].TurnStarted? {
      OrderlyMono(trace[..|trace| - 1], a, b);
    }
  }

  lemma {:induction false} StartedBelow(trace: seq<RunEvent>, bound: nat)
    requires Orderly(trace, bound)
    ensures LastStarted(trace).Some? ==> LastStarted(trace).value < bound
  {
    if trace != [] && !trace[|trace| - 1].TurnStarted? {
      StartedBelow(trace[..|trace| - 1], bound);
    }
  }

  // A stream of a run that finished says so exactly once, at the end.
  lemma FinishedOnce(trace: seq<RunEvent>, bound: nat, summary: Summary, j: nat)
    requires Orderly(trace, bound) && j <= |trace|
    ensures (trace + [Finished(summary)])[j].Finished? <==> j == |trace|
  {
    OrderlyMeans(trace, bound);
  }

  // What it means for a turn to end: it started before, and no other has since.
  lemma {:induction false} EndsAfterStart(trace: seq<RunEvent>, bound: nat, j: nat) returns (k: nat)
    requires Orderly(trace, bound) && j < |trace| && trace[j].TurnEnded?
    ensures k < j && trace[k] == TurnStarted(trace[j].turnIndex)
    ensures forall l | k < l < j :: !trace[l].TurnStarted?
  {
    var init, last := trace[..|trace| - 1], trace[|trace| - 1];
    if j < |init| {
      k := EndsAfterStart(init, if last.TurnStarted? then last.turnIndex else bound, j);
      assert init[k] == trace[k] && init[j] == trace[j];
    } else {
      k := LastStartedAt(init);
    }
  }

  lemma {:induction false} LastStartedAt(trace: seq<RunEvent>) returns (k: nat)
    requires LastStarted(trace).Some?
    ensures k < |trace| && trace[k] == TurnStarted(LastStarted(trace).value)
    ensures forall l | k < l < |trace| :: !trace[l].TurnStarted?
  {
    if trace[|trace| - 1].TurnStarted? {
      k := |trace| - 1;
    } else {
      k := LastStartedAt(trace[..|trace| - 1]);
    }
  }

  // What Orderly means position by position.
  lemma {:induction false} OrderlyMeans(trace: seq<RunEvent>, bound: nat)
    requires Orderly(trace, bound)
    ensures forall j | 0 <= j < |trace| ::
      !trace[j].Finished? && (trace[j].TurnStarted? ==> trace[j].turnIndex < bound)
    ensures forall i, j | 0 <= i < j < |trace| && trace[i].TurnStarted? && trace[j].TurnStarted? ::
      trace[i].turnIndex < trace[j].turnIndex
  {
    if trace != [] {
      var init, last := trace[..|trace| - 1], trace[|trace| - 1];
      var inner := if last.TurnStarted? then last.turnIndex else bound;
      OrderlyMeans(init, inner);
      assert forall j | 0 <= j < |init| :: trace[j] == init[j];
    }
  }
}
