// Forking the conversation at a turn and switching between its limbs.
module Branching {
  import opened Options
  import opened Conversation

  // The entries dropped from the active path by a fork.
  datatype Limb = Limb(parentTurnId: nat, entries: seq<Entry>)

  // The session on disk: the active path and the abandoned limbs.
  datatype Tree = Tree(snapshot: seq<Entry>, limbs: seq<Limb>)

  function Remove<T>(s: seq<T>, i: nat): seq<T>
    requires i < |s|
  {
    s[..i] + s[i + 1..]
  }

  function Recorded(limbs: seq<Limb>, parent: nat, entries: seq<Entry>): seq<Limb> {
    if entries == [] then limbs else limbs + [Limb(parent, entries)]
  }

  // /branch turn: None when no entry is of a turn up to t.
  function Forked(s: Tree, t: nat): Option<Tree> {
    var keep := LastAtOrBefore(s.snapshot, t);
    if keep < 0 then None
    else Some(Tree(s.snapshot[..keep + 1], Recorded(s.limbs, t, s.snapshot[keep + 1..])))
  }

  // /branch switch: None when there is no such limb, or its fork point is gone.
  function Switched(s: Tree, index: nat): Option<Tree> {
    if index >= |s.limbs| then None
    else
      var limb := s.limbs[index];
      var keep := LastAtOrBefore(s.snapshot, limb.parentTurnId);
      if keep < 0 then None
      else Some(Tree(s.snapshot[..keep + 1] + limb.entries,
                     Recorded(Remove(s.limbs, index), limb.parentTurnId, s.snapshot[keep + 1..])))
  }

  // es is kept and then dropped: kept ends with the last entry of a turn up to t.
  predicate CutAfter(es: seq<Entry>, t: nat, kept: seq<Entry>, dropped: seq<Entry>) {
    && es == kept + dropped && |kept| > 0 && kept[|kept| - 1].turnId <= t
    && forall j | 0 <= j < |dropped| :: dropped[j].turnId > t
  }

  // Some entry is of a turn up to t.
  predicate Reaches(es: seq<Entry>, t: nat) {
    exists j | 0 <= j < |es| :: es[j].turnId <= t
  }

  // What a fork does, and a switch: the part of the path after the fork point becomes a limb,
  // unless it is empty; a switch takes another limb in its place.

  ghost predicate ForkedMeans(before: Tree, t: nat, after: Tree) {
    exists dropped: seq<Entry> ::
      CutAfter(before.snapshot, t, after.snapshot, dropped)
      && after.limbs == before.limbs + if |dropped| == 0 then [] else [Limb(t, dropped)]
  }

  ghost predicate SwitchedMeans(before: Tree, index: nat, after: Tree)
    requires index < |before.limbs|
  {
    var taken := before.limbs[index];
    exists kept: seq<Entry>, dropped: seq<Entry> ::
      CutAfter(before.snapshot, taken.parentTurnId, kept, dropped)
      && after.snapshot == kept + taken.entries
      && after.limbs == before.limbs[..index] + before.limbs[index + 1..]
           + if |dropped| == 0 then [] else [Limb(taken.parentTurnId, dropped)]
  }

  lemma CutAt(es: seq<Entry>, t: nat, i: int)
    requires -1 <= i < |es| && (i >= 0 ==> es[i].turnId <= t)
    requires forall j | i < j < |es| :: es[j].turnId > t
    ensures i < 0 <==> !Reaches(es, t)
    ensures i >= 0 ==> CutAfter(es, t, es[..i + 1], es[i + 1..])
  {
    assert i >= 0 ==> es == es[..i + 1] + es[i + 1..];
  }

  lemma CutIsAfter(es: seq<Entry>, t: nat)
    ensures LastAtOrBefore(es, t) < 0 <==> !Reaches(es, t)
    ensures var cut := LastAtOrBefore(es, t) + 1; cut > 0 ==> CutAfter(es, t, es[..cut], es[cut..])
  {
    CutAt(es, t, LastAtOrBefore(es, t));
  }

  lemma ForkMeans(s: Tree, t: nat)
    ensures Forked(s, t).Some? <==> Reaches(s.snapshot, t)
    ensures Forked(s, t).Some? ==> ForkedMeans(s, t, Forked(s, t).value)
  {
    CutIsAfter(s.snapshot, t);
    assert s.limbs + [] == s.limbs;
  }

  lemma SwitchMeans(s: Tree, index: nat)
    ensures Switched(s, index).Some?
       <==> index < |s.limbs| && Reaches(s.snapshot, s.limbs[index].parentTurnId)
    ensures Switched(s, index).Some? ==> SwitchedMeans(s, index, Switched(s, index).value)
  {
    if index < |s.limbs| {
      CutIsAfter(s.snapshot, s.limbs[index].parentTurnId);
      assert Remove(s.limbs, index) + [] == Remove(s.limbs, index);
    }
  }

  // The snapshot and journal files of a session, as the slash commands rewrite them.
  class SessionFiles {
    var snapshot: Option<seq<Entry>>
    var limbs: seq<Limb>

    constructor (entries: seq<Entry>)
      ensures snapshot == Some(entries) && limbs == []
    {
      snapshot, limbs := Some(entries), [];
    }

    function Contents(): Tree
      requires snapshot.Some?
      reads this
    {
      Tree(snapshot.value, limbs)
    }

    method Record(parent: nat, entries: seq<Entry>)
      modifies this`limbs
      ensures limbs == old(limbs) + [Limb(parent, entries)]
    {
      limbs := limbs + [Limb(parent, entries)];
    }

    method TakeLimb(index: nat) returns (limb: Option<Limb>)
      modifies this`limbs
      ensures index >= |old(limbs)| ==> limb == None && limbs == old(limbs)
      ensures index < |old(limbs)| ==> limb == Some(old(limbs)[index]) && limbs == Remove(old(limbs), index)
    {
      if index >= |limbs| {
        return None;
      }
      limb := Some(limbs[index]);
      limbs := limbs[..index] + limbs[index + 1..];
    }

    method HandleBranchTurn(t: nat) returns (ok: bool)
      modifies this
      ensures ok <==> old(snapshot).Some? && Forked(old(Contents()), t).Some?
      ensures ok ==> snapshot.Some? && Contents() == Forked(old(Contents()), t).value
      ensures ok <==> old(snapshot).Some? && Reaches(old(snapshot).value, t)
      ensures ok ==> ForkedMeans(old(Contents()), t, Contents())
      ensures !ok ==> snapshot == old(snapshot) && limbs == old(limbs)
    {
      if snapshot.None? {
        return false;
      }
      ForkMeans(Contents(), t);
      var entries := snapshot.value;
      var lastKeep := FindLastAtOrBefore(entries, t);
      if lastKeep < 0 {
        return false;
      }
      var dropped := entries[lastKeep + 1..];
      if dropped != [] {
        Record(t, dropped);
      }
      snapshot := Some(entries[..lastKeep + 1]);
      ok := true;
    }

    // A limb whose fork point is gone is put back where it was.
    method HandleBranchSwitch(index: nat) returns (ok: bool)
      modifies this
      ensures ok <==> old(snapshot).Some? && Switched(old(Contents()), index).Some?
      ensures ok ==> snapshot.Some? && Contents() == Switched(old(Contents()), index).value
      ensures ok <==> old(snapshot).Some? && index < |old(limbs)|
                      && Reaches(old(snapshot).value, old(limbs)[index].parentTurnId)
      ensures ok ==> SwitchedMeans(old(Contents()), index, Contents())
      ensures !ok ==> snapshot == old(snapshot) && limbs == old(limbs)
    {
      if snapshot.None? {
        return false;
      }
      SwitchMeans(Contents(), index);
      var limb := TakeLimb(index);
      if limb.None? {
        return false;
      }
      var current := snapshot.value;
      var forkTurn := limb.value.parentTurnId;
      var lastKeep := FindLastAtOrBefore(current, forkTurn);
      if lastKeep < 0 {
        limbs := limbs[..index] + [limb.value] + limbs[index..];
        return false;
      }
      var tail := current[lastKeep + 1..];
      if tail != [] {
        Record(forkTurn, tail);
      }
      snapshot := Some(current[..lastKeep + 1] + limb.value.entries);
      ok := true;
    }
  }

  // Nothing is ever lost or copied.

  function LimbEntries(limbs: seq<Limb>): multiset<Entry> {
    if limbs == [] then multiset{}
    else LimbEntries(limbs[..|limbs| - 1]) + multiset(limbs[|limbs| - 1].entries)
  }

  function AllEntries(s: Tree): multiset<Entry> {
    multiset(s.snapshot) + LimbEntries(s.limbs)
  }

  // Every limb has entries, and all of them come after its fork point.
  predicate LimbWellFormed(limb: Limb) {
    limb.entries != [] && forall e | e in limb.entries :: e.turnId > limb.parentTurnId
  }

  predicate LimbsWellFormed(limbs: seq<Limb>) {
    forall i | 0 <= i < |limbs| :: LimbWellFormed(limbs[i])
  }

  lemma LimbEntriesSnoc(limbs: seq<Limb>, limb: Limb)
    ensures LimbEntries(limbs + [limb]) == LimbEntries(limbs) + multiset(limb.entries)
  {
    assert (limbs + [limb])[..|limbs|] == limbs;
  }

  lemma RecordedEntries(limbs: seq<Limb>, parent: nat, entries: seq<Entry>)
    ensures LimbEntries(Recorded(limbs, parent, entries)) == LimbEntries(limbs) + multiset(entries)
  {
    if entries != [] {
      assert (limbs + [Limb(parent, entries)])[..|limbs|] == limbs;
    }
  }

  lemma {:induction false} RemovedEntries(limbs: seq<Limb>, i: nat)
    requires i < |limbs|
    ensures LimbEntries(limbs) == LimbEntries(Remove(limbs, i)) + multiset(limbs[i].entries)
  {
    var init, last := limbs[..|limbs| - 1], limbs[|limbs| - 1];
    if i == |init| {
      assert Remove(limbs, i) == init;
    } else {
      RemovedEntries(init, i);
      assert Remove(limbs, i) == Remove(init, i) + [last];
      LimbEntriesSnoc(Remove(init, i), last);
    }
  }

  lemma SplitEntries(es: seq<Entry>, k: nat)
    requires k <= |es|
    ensures multiset(es) == multiset(es[..k]) + multiset(es[k..])
  {
    assert es == es[..k] + es[k..];
  }

  lemma ForkConserves(s: Tree, t: nat)
    requires Forked(s, t).Some?
    ensures AllEntries(Forked(s, t).value) == AllEntries(s)
  {
    var cut := LastAtOrBefore(s.snapshot, t) + 1;
    SplitEntries(s.snapshot, cut);
    RecordedEntries(s.limbs, t, s.snapshot[cut..]);
  }

  lemma SwitchConserves(s: Tree, index: nat)
    requires Switched(s, index).Some?
    ensures AllEntries(Switched(s, index).value) == AllEntries(s)
  {
    var limb, rest := s.limbs[index], Remove(s.limbs, index);
    var cut := LastAtOrBefore(s.snapshot, limb.parentTurnId) + 1;
    SplitEntries(s.snapshot, cut);
    RemovedEntries(s.limbs, index);
    RecordedEntries(rest, limb.parentTurnId, s.snapshot[cut..]);
    assert multiset(s.snapshot[..cut] + limb.entries) == multiset(s.snapshot[..cut]) + multiset(limb.entries);
  }

  lemma CutIsLimb(es: seq<Entry>, t: nat)
    ensures var cut := LastAtOrBefore(es, t) + 1;
            es[cut..] != [] ==> LimbWellFormed(Limb(t, es[cut..]))
  {
  }

  lemma RecordedWellFormed(limbs: seq<Limb>, es: seq<Entry>, t: nat)
    requires LimbsWellFormed(limbs)
    ensures LimbsWellFormed(Recorded(limbs, t, es[LastAtOrBefore(es, t) + 1..]))
  {
    CutIsLimb(es, t);
  }

  lemma RemoveWellFormed(limbs: seq<Limb>, i: nat)
    requires LimbsWellFormed(limbs) && i < |limbs|
    ensures LimbsWellFormed(Remove(limbs, i))
  {
    forall k | 0 <= k < |limbs| - 1 ensures LimbWellFormed(Remove(limbs, i)[k]) {
      assert Remove(limbs, i)[k] == limbs[if k < i then k else k + 1];
    }
  }

  datatype Op = Fork(turn: nat) | Switch(index: nat) | Append(entry: Entry)

  // One command; a refused one changes nothing.
  function Apply(s: Tree, op: Op): Tree {
    match op
    case Fork(t) => (match Forked(s, t) case Some(next) => next case None => s)
    case Switch(i) => (match Switched(s, i) case Some(next) => next case None => s)
    case Append(e) => s.(snapshot := s.snapshot + [e])
  }

  function Exec(s: Tree, ops: seq<Op>): Tree {
    if ops == [] then s else Apply(Exec(s, ops[..|ops| - 1]), ops[|ops| - 1])
  }

  function AppendedBy(op: Op): multiset<Entry> {
    match op case Append(e) => multiset{e} case _ => multiset{}
  }

  function Appended(ops: seq<Op>): multiset<Entry> {
    if ops == [] then multiset{} else Appended(ops[..|ops| - 1]) + AppendedBy(ops[|ops| - 1])
  }

  lemma ApplyConserves(s: Tree, op: Op)
    ensures AllEntries(Apply(s, op)) == AllEntries(s) + AppendedBy(op)
  {
    match op
    case Fork(t) => if Forked(s, t).Some? { ForkConserves(s, t); }
    case Switch(i) => if Switched(s, i).Some? { SwitchConserves(s, i); }
    case Append(e) =>
  }

  lemma ApplyKeepsLimbs(s: Tree, op: Op)
    requires LimbsWellFormed(s.limbs)
    ensures LimbsWellFormed(Apply(s, op).limbs)
  {
    match op
    case Fork(t) => RecordedWellFormed(s.limbs, s.snapshot, t);
    case Append(e) =>
    case Switch(i) =>
      if Switched(s, i).Some? {
        RemoveWellFormed(s.limbs, i);
        RecordedWellFormed(Remove(s.limbs, i), s.snapshot, s.limbs[i].parentTurnId);
      }
  }

  // Over every sequence of commands the active path and the limbs together hold exactly
  // the initial entries and everything appended since, each as often as it was put in.
  lemma {:induction false} EveryEntryIsSomewhere(s: Tree, ops: seq<Op>)
    requires LimbsWellFormed(s.limbs)
    ensures AllEntries(Exec(s, ops)) == AllEntries(s) + Appended(ops)
    ensures LimbsWellFormed(Exec(s, ops).limbs)
  {
    if ops != [] {
      var before, op := Exec(s, ops[..|ops| - 1]), ops[|ops| - 1];
      EveryEntryIsSomewhere(s, ops[..|ops| - 1]);
      ApplyConserves(before, op);
      ApplyKeepsLimbs(before, op);
    }
  }

  // Going away and coming back.

  // The last entry up to t is the last of `kept` when everything after it is later.
  lemma {:induction false} LastKeptIs(kept: seq<Entry>, later: seq<Entry>, t: nat)
    requires kept != [] && kept[|kept| - 1].turnId <= t
    requires forall e | e in later :: e.turnId > t
    ensures LastAtOrBefore(kept + later, t) == |kept| - 1
  {
    var all := kept + later;
    var i := LastAtOrBefore(all, t);
    assert all[|kept| - 1] == kept[|kept| - 1];
  }

  // Fork at t, go on with any later entries, switch to the limb the fork recorded: the
  // original path is back, and the new entries are a limb of the same fork point.
  lemma ForkThenSwitchBack(s: Tree, t: nat, more: seq<Entry>)
    requires Forked(s, t).Some? && |Forked(s, t).value.limbs| == |s.limbs| + 1
    requires forall e | e in more :: e.turnId > t
    ensures var forked := Forked(s, t).value;
            var grown := forked.(snapshot := forked.snapshot + more);
            Switched(grown, |s.limbs|) == Some(Tree(s.snapshot, Recorded(s.limbs, t, more)))
  {
    var keep := LastAtOrBefore(s.snapshot, t);
    var kept, dropped := s.snapshot[..keep + 1], s.snapshot[keep + 1..];
    LastKeptIs(kept, more, t);
    assert kept + dropped == s.snapshot;
    assert (kept + more)[..keep + 1] == kept && (kept + more)[keep + 1..] == more;
    assert Remove(s.limbs + [Limb(t, dropped)], |s.limbs|) == s.limbs;
  }

  // A switch that records a tail is undone by switching to that tail: the path is back
  // and the limb that was taken has moved to the end of the journal.
  lemma SwitchTwice(s: Tree, index: nat)
    requires index < |s.limbs| && LimbWellFormed(s.limbs[index])
    requires Switched(s, index).Some? && |Switched(s, index).value.limbs| == |s.limbs|
    ensures Switched(Switched(s, index).value, |s.limbs| - 1)
         == Some(Tree(s.snapshot, Remove(s.limbs, index) + [s.limbs[index]]))
  {
    var limb := s.limbs[index];
    var keep := LastAtOrBefore(s.snapshot, limb.parentTurnId);
    var kept, tail := s.snapshot[..keep + 1], s.snapshot[keep + 1..];
    var rest := Remove(s.limbs, index);
    LastKeptIs(kept, limb.entries, limb.parentTurnId);
    assert kept + tail == s.snapshot;
    assert (kept + limb.entries)[..keep + 1] == kept && (kept + limb.entries)[keep + 1..] == limb.entries;
    assert Remove(rest + [Limb(limb.parentTurnId, tail)], |s.limbs| - 1) == rest;
  }

  // When the active path ends at the fork point, forking there undoes the switch.
  lemma SwitchThenFork(s: Tree, index: nat)
    requires index < |s.limbs| && LimbWellFormed(s.limbs[index])
    requires Switched(s, index).Some? && |Switched(s, index).value.limbs| < |s.limbs|
    ensures Forked(Switched(s, index).value, s.limbs[index].parentTurnId)
         == Some(Tree(s.snapshot, Remove(s.limbs, index) + [s.limbs[index]]))
  {
    var limb := s.limbs[index];
    var keep := LastAtOrBefore(s.snapshot, limb.parentTurnId);
    assert keep + 1 == |s.snapshot| by { assert s.snapshot[keep + 1..] == []; }
    assert s.snapshot[..keep + 1] == s.snapshot;
    LastKeptIs(s.snapshot, limb.entries, limb.parentTurnId);
    var grown := s.snapshot + limb.entries;
    assert grown[..|s.snapshot|] == s.snapshot && grown[|s.snapshot|..] == limb.entries;
  }
}
