// Where messages go: the edge that each send was checked against, the inbox it looked up,
// and what may have become of both when it is pushed.
module MessageEdges {
  import opened Options
  import opened MessageBus

  // Step k is the send that became operation op, over an edge that holds at that step.
  predicate Checks(actions: seq<Action>, k: nat, op: nat, to: string, mail: Mail) {
    && k < |actions| && Exec(actions[..k]).nextOp == op
    && (|| (actions[k] == SendToParent(mail.from, mail.body) && ParentEdge(Exec(actions[..k]), mail.from, to))
        || (actions[k] == SendToChild(mail.from, to, mail.body) && ChildEdge(Exec(actions[..k]), mail.from, to)))
  }

  // Step l finds the inbox of the addressed session for operation op.
  predicate LooksUp(actions: seq<Action>, l: nat, op: nat, to: string, inbox: nat) {
    && l < |actions| && actions[l] == Lookup(op)
    && to in Exec(actions[..l]).sessions && Exec(actions[..l]).sessions[to].inbox == inbox
  }

  // Step k is the request of a session for its own inbox, which became operation op.
  predicate Asks(actions: seq<Action>, k: nat, op: nat, id: string, inbox: nat) {
    && k < |actions| && actions[k] == StartDrain(id) && Exec(actions[..k]).nextOp == op
    && id in Exec(actions[..k]).sessions && Exec(actions[..k]).sessions[id].inbox == inbox
  }

  ghost predicate WasAsked(actions: seq<Action>, op: nat, inbox: nat) {
    exists k: nat, id: string :: Asks(actions, k, op, id, inbox)
  }

  // Step m pushes the message.
  predicate Delivers(actions: seq<Action>, m: nat, push: Push) {
    && m < |actions| && actions[m] == Deliver(push.op)
    && Exec(actions[..m + 1]).pushes == Exec(actions[..m]).pushes + [push]
  }

  ghost predicate WasChecked(actions: seq<Action>, op: nat, to: string, mail: Mail) {
    exists k: nat :: Checks(actions, k, op, to, mail)
  }

  ghost predicate WasLookedUp(actions: seq<Action>, op: nat, to: string, mail: Mail, inbox: nat) {
    exists k: nat, l: nat :: k < l && Checks(actions, k, op, to, mail) && LooksUp(actions, l, op, to, inbox)
  }

  ghost predicate WasPushed(actions: seq<Action>, p: Push) {
    exists k: nat, l: nat, m: nat :: k < l < m
      && Checks(actions, k, p.op, p.to, p.mail) && LooksUp(actions, l, p.op, p.to, p.inbox) && Delivers(actions, m, p)
  }

  ghost predicate ProgressBacked(actions: seq<Action>, op: nat, p: Progress) {
    match p
    case Checked(to, mail) => WasChecked(actions, op, to, mail)
    case Holding(to, mail, inbox) => WasLookedUp(actions, op, to, mail, inbox)
    case Draining(inbox) => WasAsked(actions, op, inbox)
  }

  ghost predicate Backed(actions: seq<Action>, s: State) {
    && (forall op | op in s.running :: ProgressBacked(actions, op, s.running[op]))
    && (forall i | 0 <= i < |s.pushes| :: WasPushed(actions, s.pushes[i]))
  }

  // What was is still so when the run goes on.

  lemma ChecksStays(actions: seq<Action>, a: Action, k: nat, op: nat, to: string, mail: Mail)
    requires Checks(actions, k, op, to, mail)
    ensures Checks(actions + [a], k, op, to, mail)
  {
    assert (actions + [a])[..k] == actions[..k];
  }

  lemma LooksUpStays(actions: seq<Action>, a: Action, l: nat, op: nat, to: string, inbox: nat)
    requires LooksUp(actions, l, op, to, inbox)
    ensures LooksUp(actions + [a], l, op, to, inbox)
  {
    assert (actions + [a])[..l] == actions[..l];
  }

  lemma DeliversStays(actions: seq<Action>, a: Action, m: nat, p: Push)
    requires Delivers(actions, m, p)
    ensures Delivers(actions + [a], m, p)
  {
    assert (actions + [a])[..m] == actions[..m] && (actions + [a])[..m + 1] == actions[..m + 1];
  }

  lemma ProgressStays(actions: seq<Action>, a: Action, op: nat, p: Progress)
    requires ProgressBacked(actions, op, p)
    ensures ProgressBacked(actions + [a], op, p)
  {
    match p {
      case Checked(to, mail) =>
        var k: nat :| Checks(actions, k, op, to, mail);
        ChecksStays(actions, a, k, op, to, mail);
      case Holding(to, mail, inbox) =>
        var k: nat, l: nat :| k < l && Checks(actions, k, op, to, mail) && LooksUp(actions, l, op, to, inbox);
        ChecksStays(actions, a, k, op, to, mail);
        LooksUpStays(actions, a, l, op, to, inbox);
      case Draining(inbox) =>
        var k: nat, id: string :| Asks(actions, k, op, id, inbox);
        AsksStays(actions, a, k, op, id, inbox);
    }
  }

  lemma AsksStays(actions: seq<Action>, a: Action, k: nat, op: nat, id: string, inbox: nat)
    requires Asks(actions, k, op, id, inbox)
    ensures Asks(actions + [a], k, op, id, inbox)
  {
    assert (actions + [a])[..k] == actions[..k];
  }

  lemma PushStays(actions: seq<Action>, a: Action, p: Push)
    requires WasPushed(actions, p)
    ensures WasPushed(actions + [a], p)
  {
    var k: nat, l: nat, m: nat :| k < l < m
      && Checks(actions, k, p.op, p.to, p.mail) && LooksUp(actions, l, p.op, p.to, p.inbox) && Delivers(actions, m, p);
    ChecksStays(actions, a, k, p.op, p.to, p.mail);
    LooksUpStays(actions, a, l, p.op, p.to, p.inbox);
    DeliversStays(actions, a, m, p);
  }

  lemma BackedStays(actions: seq<Action>, a: Action, s: State)
    requires Backed(actions, s)
    ensures Backed(actions + [a], s)
  {
    forall op | op in s.running ensures ProgressBacked(actions + [a], op, s.running[op]) {
      ProgressStays(actions, a, op, s.running[op]);
    }
    forall i | 0 <= i < |s.pushes| ensures WasPushed(actions + [a], s.pushes[i]) {
      PushStays(actions, a, s.pushes[i]);
    }
  }

  // One step.

  lemma ExecSnoc(actions: seq<Action>, a: Action)
    ensures (actions + [a])[..|actions|] == actions && Exec(actions + [a]) == Next(Exec(actions), a)
  {
    assert (actions + [a])[..|actions|] == actions;
  }

  lemma StartBacked(actions: seq<Action>, s: State, p: Progress)
    requires Backed(actions, s) && ProgressBacked(actions, s.nextOp, p)
    ensures Backed(actions, Start(s, p))
  {
  }

  lemma SendBacked(earlier: seq<Action>, a: Action, to: string, mail: Mail)
    requires Backed(earlier + [a], Exec(earlier))
    requires (a == SendToParent(mail.from, mail.body) && ParentEdge(Exec(earlier), mail.from, to))
             || (a == SendToChild(mail.from, to, mail.body) && ChildEdge(Exec(earlier), mail.from, to))
    ensures Backed(earlier + [a], Start(Exec(earlier), Checked(to, mail)))
  {
    ExecSnoc(earlier, a);
    assert Checks(earlier + [a], |earlier|, Exec(earlier).nextOp, to, mail);
    StartBacked(earlier + [a], Exec(earlier), Checked(to, mail));
  }

  lemma LookedUp(earlier: seq<Action>, op: nat, to: string, mail: Mail)
    requires WasChecked(earlier, op, to, mail) && to in Exec(earlier).sessions
    ensures WasLookedUp(earlier + [Lookup(op)], op, to, mail, Exec(earlier).sessions[to].inbox)
  {
    var a := Lookup(op);
    ExecSnoc(earlier, a);
    var k: nat :| Checks(earlier, k, op, to, mail);
    ChecksStays(earlier, a, k, op, to, mail);
    assert LooksUp(earlier + [a], |earlier|, op, to, Exec(earlier).sessions[to].inbox);
  }

  lemma FoundBacked(actions: seq<Action>, s: State, op: nat)
    requires Backed(actions, s) && op in s.running && s.running[op].Checked?
    requires s.running[op].to in s.sessions ==>
      WasLookedUp(actions, op, s.running[op].to, s.running[op].mail, s.sessions[s.running[op].to].inbox)
    ensures Backed(actions, Next(s, Lookup(op)))
  {
  }

  lemma LookupBacked(earlier: seq<Action>, op: nat)
    requires Backed(earlier, Exec(earlier)) && Backed(earlier + [Lookup(op)], Exec(earlier))
    ensures Backed(earlier + [Lookup(op)], Next(Exec(earlier), Lookup(op)))
  {
    var s := Exec(earlier);
    if op in s.running && s.running[op].Checked? {
      var p := s.running[op];
      assert ProgressBacked(earlier, op, p);
      if p.to in s.sessions {
        LookedUp(earlier, op, p.to, p.mail);
      }
      FoundBacked(earlier + [Lookup(op)], s, op);
    }
  }

  lemma PushBacked(earlier: seq<Action>, op: nat, p: Progress)
    requires p.Holding? && op in Exec(earlier).running && Exec(earlier).running[op] == p
    requires ProgressBacked(earlier, op, p)
    ensures WasPushed(earlier + [Deliver(op)], Push(op, p.to, p.mail, p.inbox))
  {
    var a := Deliver(op);
    ExecSnoc(earlier, a);
    var k: nat, l: nat :| k < l && Checks(earlier, k, op, p.to, p.mail) && LooksUp(earlier, l, op, p.to, p.inbox);
    ChecksStays(earlier, a, k, op, p.to, p.mail);
    LooksUpStays(earlier, a, l, op, p.to, p.inbox);
    assert (earlier + [a])[..|earlier| + 1] == earlier + [a];
    assert Delivers(earlier + [a], |earlier|, Push(op, p.to, p.mail, p.inbox));
  }

  lemma PushedBacked(actions: seq<Action>, s: State, op: nat)
    requires Backed(actions, s) && op in s.running && s.running[op].Holding?
    requires WasPushed(actions, Push(op, s.running[op].to, s.running[op].mail, s.running[op].inbox))
    ensures Backed(actions, Next(s, Deliver(op)))
  {
  }

  lemma DeliverBacked(earlier: seq<Action>, op: nat)
    requires Backed(earlier, Exec(earlier)) && Backed(earlier + [Deliver(op)], Exec(earlier))
    ensures Backed(earlier + [Deliver(op)], Next(Exec(earlier), Deliver(op)))
  {
    var s := Exec(earlier);
    if op in s.running && s.running[op].Holding? {
      assert ProgressBacked(earlier, op, s.running[op]);
      PushBacked(earlier, op, s.running[op]);
      PushedBacked(earlier + [Deliver(op)], s, op);
    }
  }

  lemma StepBacked(earlier: seq<Action>, a: Action)
    requires Backed(earlier, Exec(earlier))
    ensures Backed(earlier + [a], Next(Exec(earlier), a))
  {
    var s := Exec(earlier);
    BackedStays(earlier, a, s);
    match a {
      case SendToParent(from, body) =>
        if from in s.sessions && s.sessions[from].parentId.Some? {
          SendBacked(earlier, a, s.sessions[from].parentId.value, Mail(from, body));
        }
      case SendToChild(from, child, body) =>
        if ChildEdge(s, from, child) {
          SendBacked(earlier, a, child, Mail(from, body));
        }
      case Lookup(op) => LookupBacked(earlier, op);
      case Deliver(op) => DeliverBacked(earlier, op);
      case StartDrain(id) =>
        if id in s.sessions {
          ExecSnoc(earlier, a);
          assert Asks(earlier + [a], |earlier|, s.nextOp, id, s.sessions[id].inbox);
          StartBacked(earlier + [a], s, Draining(s.sessions[id].inbox));
        }
      case _ =>
    }
  }

  // Every message that was pushed, or is about to be, was checked by its own send against
  // an edge that held at that step, and went to the inbox that the addressed session had
  // at its own lookup, later.
  lemma {:induction false} DeliveredAcrossEdges(actions: seq<Action>)
    ensures Backed(actions, Exec(actions))
  {
    if actions != [] {
      var earlier, a := actions[..|actions| - 1], actions[|actions| - 1];
      DeliveredAcrossEdges(earlier);
      assert actions == earlier + [a];
      StepBacked(earlier, a);
    }
  }

  // What becomes of the edge, and of the inbox.

  predicate Touches(a: Action, id: string) {
    a == Close(id) || (a.Register? && a.id == id)
  }

  predicate HasParent(s: State, id: string, parent: string) {
    id in s.sessions && s.sessions[id].parentId == Some(parent)
  }

  // The last of the steps that registers or closes the session, if any does, registers it
  // with this parent.
  predicate KeepsParent(steps: seq<Action>, id: string, parent: string) {
    steps == []
    || (var last := steps[|steps| - 1];
        if Touches(last, id) then last == Register(id, Some(parent)) else KeepsParent(steps[..|steps| - 1], id, parent))
  }

  predicate LeavesAlone(steps: seq<Action>, id: string) {
    forall i | 0 <= i < |steps| :: !Touches(steps[i], id)
  }

  lemma OnlyTouchesMatter(s: State, a: Action, id: string)
    ensures Touches(a, id) ==>
      (id in Next(s, a).sessions <==> a.Register?)
      && (a.Register? ==> Next(s, a).sessions[id] == Session(a.parentId, s.nextInbox))
    ensures !Touches(a, id) ==>
      (id in Next(s, a).sessions <==> id in s.sessions)
      && (id in s.sessions ==> Next(s, a).sessions[id] == s.sessions[id])
    ensures Next(s, a).nextInbox >= s.nextInbox
  {
  }

  lemma {:induction false} ParentAfter(before: seq<Action>, steps: seq<Action>, id: string, parent: string)
    requires HasParent(Exec(before), id, parent)
    ensures HasParent(Exec(before + steps), id, parent) <==> KeepsParent(steps, id, parent)
  {
    if steps == [] {
      assert before + steps == before;
    } else {
      var init, last := steps[..|steps| - 1], steps[|steps| - 1];
      ParentAfter(before, init, id, parent);
      assert before + steps == (before + init) + [last];
      ExecSnoc(before + init, last);
      OnlyTouchesMatter(Exec(before + init), last, id);
    }
  }

  lemma {:induction false} InboxesAreOld(actions: seq<Action>, id: string)
    requires id in Exec(actions).sessions
    ensures Exec(actions).sessions[id].inbox < Exec(actions).nextInbox
  {
    var init, last := actions[..|actions| - 1], actions[|actions| - 1];
    OnlyTouchesMatter(Exec(init), last, id);
    if !Touches(last, id) {
      InboxesAreOld(init, id);
    }
  }

  // No two sessions share an inbox.
  lemma {:induction false} InboxesApart(actions: seq<Action>, a: string, b: string)
    requires a in Exec(actions).sessions && b in Exec(actions).sessions && a != b
    ensures Exec(actions).sessions[a].inbox != Exec(actions).sessions[b].inbox
  {
    var init, last := actions[..|actions| - 1], actions[|actions| - 1];
    OnlyTouchesMatter(Exec(init), last, a);
    OnlyTouchesMatter(Exec(init), last, b);
    if Touches(last, a) {
      InboxesAreOld(init, b);
    } else if Touches(last, b) {
      InboxesAreOld(init, a);
    } else {
      InboxesApart(init, a, b);
    }
  }

  lemma DrainMoves(s: State, op: nat)
    requires op in s.running && s.running[op].Draining?
    ensures var inbox, after := s.running[op].inbox, Next(s, FinishDrain(op));
            && Drained(after, inbox) == Drained(s, inbox) + Queue(s, inbox) && Queue(after, inbox) == []
            && forall other: nat | other != inbox ::
                 Drained(after, other) == Drained(s, other) && Queue(after, other) == Queue(s, other)
  {
  }

  // A drain that ends gives out the whole queue of the inbox that its session had when it
  // asked, behind what that inbox gave out before, and touches no other.
  lemma DrainTakesOwn(actions: seq<Action>, op: nat) returns (k: nat, id: string, inbox: nat)
    requires op in Exec(actions).running && Exec(actions).running[op].Draining?
    ensures Asks(actions, k, op, id, inbox)
    ensures var s, after := Exec(actions), Exec(actions + [FinishDrain(op)]);
            && Drained(after, inbox) == Drained(s, inbox) + Queue(s, inbox) && Queue(after, inbox) == []
            && forall other: nat | other != inbox ::
                 Drained(after, other) == Drained(s, other) && Queue(after, other) == Queue(s, other)
  {
    DeliveredAcrossEdges(actions);
    ExecSnoc(actions, FinishDrain(op));
    inbox := Exec(actions).running[op].inbox;
    DrainMoves(Exec(actions), op);
    assert ProgressBacked(actions, op, Exec(actions).running[op]);
    k, id :| Asks(actions, k, op, id, inbox);
  }

  lemma LeavesAloneSnoc(steps: seq<Action>, id: string)
    requires steps != []
    ensures LeavesAlone(steps, id) <==> LeavesAlone(steps[..|steps| - 1], id) && !Touches(steps[|steps| - 1], id)
  {
  }

  predicate HasInbox(s: State, id: string, inbox: nat) {
    id in s.sessions && s.sessions[id].inbox == inbox
  }

  // A registration always brings a new inbox.
  lemma InboxStep(s: State, a: Action, id: string, inbox: nat)
    requires inbox < s.nextInbox
    ensures HasInbox(Next(s, a), id, inbox) <==> HasInbox(s, id, inbox) && !Touches(a, id)
    ensures inbox < Next(s, a).nextInbox
  {
    OnlyTouchesMatter(s, a, id);
  }

  lemma {:induction false} InboxAfter(before: seq<Action>, steps: seq<Action>, id: string, inbox: nat)
    requires HasInbox(Exec(before), id, inbox)
    ensures inbox < Exec(before + steps).nextInbox
    ensures HasInbox(Exec(before + steps), id, inbox) <==> LeavesAlone(steps, id)
  {
    if steps == [] {
      assert before + steps == before;
      InboxesAreOld(before, id);
    } else {
      var init, last := steps[..|steps| - 1], steps[|steps| - 1];
      InboxAfter(before, init, id, inbox);
      assert before + steps == (before + init) + [last];
      ExecSnoc(before + init, last);
      InboxStep(Exec(before + init), last, id, inbox);
      LeavesAloneSnoc(steps, id);
    }
  }

  // The session whose registration makes the edge of a send, and its parent.
  function ChildOf(a: Action): string
    requires a.SendToParent? || a.SendToChild?
  {
    if a.SendToParent? then a.from else a.child
  }

  function ParentOf(a: Action, to: string): string
    requires a.SendToParent? || a.SendToChild?
  {
    if a.SendToParent? then to else a.from
  }

  // For every message pushed: its edge still holds at the push exactly when the steps
  // since the check leave that child with that parent; and its inbox is still that of the
  // receiver exactly when no step since the lookup registers or closes the receiver.
  lemma DeliveryIff(actions: seq<Action>, i: nat) returns (k: nat, l: nat, m: nat)
    requires i < |Exec(actions).pushes|
    ensures var p := Exec(actions).pushes[i];
            k < l < m && Checks(actions, k, p.op, p.to, p.mail) && LooksUp(actions, l, p.op, p.to, p.inbox)
            && Delivers(actions, m, p)
            && (HasParent(Exec(actions[..m]), ChildOf(actions[k]), ParentOf(actions[k], p.to))
                <==> KeepsParent(actions[k..m], ChildOf(actions[k]), ParentOf(actions[k], p.to)))
            && (HasInbox(Exec(actions[..m]), p.to, p.inbox) <==> LeavesAlone(actions[l..m], p.to))
  {
    DeliveredAcrossEdges(actions);
    var p := Exec(actions).pushes[i];
    assert WasPushed(actions, p);
    k, l, m :| k < l < m
      && Checks(actions, k, p.op, p.to, p.mail) && LooksUp(actions, l, p.op, p.to, p.inbox) && Delivers(actions, m, p);
    EdgeFrom(actions, k, m, p.op, p.to, p.mail);
    InboxFrom(actions, l, m, p.op, p.to, p.inbox);
  }

  lemma EdgeFrom(actions: seq<Action>, k: nat, m: nat, op: nat, to: string, mail: Mail)
    requires Checks(actions, k, op, to, mail) && k <= m <= |actions|
    ensures HasParent(Exec(actions[..m]), ChildOf(actions[k]), ParentOf(actions[k], to))
       <==> KeepsParent(actions[k..m], ChildOf(actions[k]), ParentOf(actions[k], to))
  {
    assert actions[..k] + actions[k..m] == actions[..m];
    ParentAfter(actions[..k], actions[k..m], ChildOf(actions[k]), ParentOf(actions[k], to));
  }

  lemma InboxFrom(actions: seq<Action>, l: nat, m: nat, op: nat, to: string, inbox: nat)
    requires LooksUp(actions, l, op, to, inbox) && l <= m <= |actions|
    ensures HasInbox(Exec(actions[..m]), to, inbox) <==> LeavesAlone(actions[l..m], to)
  {
    assert actions[..l] + actions[l..m] == actions[..m];
    InboxAfter(actions[..l], actions[l..m], to, inbox);
  }

  // Two runs for which this fails.

  function Family(): seq<Action> {
    [Register("p", None), Register("c", Some("p"))]
  }

  lemma FamilyState()
    ensures var s := Exec(Family());
            s.sessions.Keys == {"p", "c"}
            && s.sessions["p"] == Session(None, 0) && s.sessions["c"] == Session(Some("p"), 1)
            && s.nextInbox == 2 && s.nextOp == 0 && s.pushes == [] && s.running == map[]
  {
    var first: seq<Action> := [Register("p", None)];
    ExecSnoc([], Register("p", None));
    assert [] + first == first;
    var one := Exec(first);
    assert one.sessions == map["p" := Session(None, 0)] && one.nextInbox == 1;
    ExecSnoc(first, Register("c", Some("p")));
    assert first + [Register("c", Some("p"))] == Family();
  }

  // The child is closed and registered anew, without a parent, between check and lookup:
  // the edge is gone, and the new inbox gets the message.
  lemma EdgeMayBeGoneAtDelivery(body: string) returns (actions: seq<Action>)
    ensures actions
         == Family() + [SendToChild("p", "c", body)] + [Close("c")] + [Register("c", None)] + [Lookup(0)] + [Deliver(0)]
    ensures var s := Exec(actions);
            s.pushes == [Push(0, "c", Mail("p", body), 2)]
            && "c" in s.sessions && s.sessions["c"] == Session(None, 2) && !Edge(s, "p", "c")
  {
    FamilyState();
    var sent := Family() + [SendToChild("p", "c", body)];
    ExecSnoc(Family(), SendToChild("p", "c", body));
    var closed := sent + [Close("c")];
    ExecSnoc(sent, Close("c"));
    var anew := closed + [Register("c", None)];
    ExecSnoc(closed, Register("c", None));
    var found := anew + [Lookup(0)];
    ExecSnoc(anew, Lookup(0));
    actions := found + [Deliver(0)];
    ExecSnoc(found, Deliver(0));
  }

  // The child is closed and registered anew between lookup and push: the message goes to
  // an inbox that no session has.
  lemma InboxMayBeGoneAtDelivery(body: string) returns (actions: seq<Action>)
    ensures actions == Family() + [SendToChild("p", "c", body)] + [Lookup(0)] + [Close("c")]
                                + [Register("c", Some("p"))] + [Deliver(0)]
    ensures var s := Exec(actions);
            s.pushes == [Push(0, "c", Mail("p", body), 1)]
            && forall id | id in s.sessions :: s.sessions[id].inbox != 1
  {
    FamilyState();
    var sent := Family() + [SendToChild("p", "c", body)];
    ExecSnoc(Family(), SendToChild("p", "c", body));
    var found := sent + [Lookup(0)];
    ExecSnoc(sent, Lookup(0));
    var closed := found + [Close("c")];
    ExecSnoc(found, Close("c"));
    var anew := closed + [Register("c", Some("p"))];
    ExecSnoc(closed, Register("c", Some("p")));
    actions := anew + [Deliver(0)];
    ExecSnoc(anew, Deliver(0));
  }
}
