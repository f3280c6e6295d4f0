// The inter-session message bus, lock by lock: the check of the edge, the lookup of
// the inbox and the push are separate steps, and anything may happen in between.
module MessageBus {
  import opened Options

  datatype Session = Session(parentId: Option<string>, inbox: nat)

  datatype Mail = Mail(from: string, body: string)

  // Where a send or a drain stands: the edge is checked, the inbox is in hand, or a
  // drainer has its inbox in hand.
  datatype Progress =
    | Checked(to: string, mail: Mail)
    | Holding(to: string, mail: Mail, inbox: nat)
    | Draining(inbox: nat)

  // One accepted push, in the order in which the inbox locks were taken.
  datatype Push = Push(op: nat, to: string, mail: Mail, inbox: nat)

  datatype State = State(
    sessions: map<string, Session>, nextInbox: nat, nextOp: nat,
    running: map<nat, Progress>,
    queues: map<nat, seq<Mail>>, drained: map<nat, seq<Mail>>,
    pushes: seq<Push>)

  const INIT := State(map[], 0, 0, map[], map[], map[], [])

  datatype Action =
    | Register(id: string, parentId: Option<string>)
    | Close(id: string)
    | SendToParent(from: string, body: string)
    | SendToChild(from: string, child: string, body: string)
    | Lookup(op: nat)
    | Deliver(op: nat)
    | StartDrain(id: string)
    | FinishDrain(op: nat)

  function Queue(s: State, inbox: nat): seq<Mail> {
    if inbox in s.queues then s.queues[inbox] else []
  }

  function Drained(s: State, inbox: nat): seq<Mail> {
    if inbox in s.drained then s.drained[inbox] else []
  }

  predicate ParentEdge(s: State, from: string, to: string) {
    from in s.sessions && s.sessions[from].parentId == Some(to)
  }

  predicate ChildEdge(s: State, from: string, to: string) {
    to in s.sessions && s.sessions[to].parentId == Some(from)
  }

  predicate Edge(s: State, from: string, to: string) {
    ParentEdge(s, from, to) || ChildEdge(s, from, to)
  }

  function Start(s: State, p: Progress): State {
    s.(running := s.running[s.nextOp := p], nextOp := s.nextOp + 1)
  }

  // One atomic step; a refused one changes nothing.
  function Next(s: State, a: Action): State {
    match a
    case Register(id, parent) =>
      s.(sessions := s.sessions[id := Session(parent, s.nextInbox)], nextInbox := s.nextInbox + 1)
    case Close(id) => s.(sessions := s.sessions - {id})
    case SendToParent(from, body) =>
      if from in s.sessions && s.sessions[from].parentId.Some? then
        Start(s, Checked(s.sessions[from].parentId.value, Mail(from, body)))
      else s
    case SendToChild(from, child, body) =>
      if ChildEdge(s, from, child) then Start(s, Checked(child, Mail(from, body))) else s
    case Lookup(op) =>
      if op in s.running && s.running[op].Checked? then
        var p := s.running[op];
        if p.to in s.sessions then
          s.(running := s.running[op := Holding(p.to, p.mail, s.sessions[p.to].inbox)])
        else s.(running := s.running - {op})
      else s
    case Deliver(op) =>
      if op in s.running && s.running[op].Holding? then
        var p := s.running[op];
        s.(running := s.running - {op},
           queues := s.queues[p.inbox := Queue(s, p.inbox) + [p.mail]],
           pushes := s.pushes + [Push(op, p.to, p.mail, p.inbox)])
      else s
    case StartDrain(id) =>
      if id in s.sessions then Start(s, Draining(s.sessions[id].inbox)) else s
    case FinishDrain(op) =>
      if op in s.running && s.running[op].Draining? then
        var inbox := s.running[op].inbox;
        s.(running := s.running - {op},
           drained := s.drained[inbox := Drained(s, inbox) + Queue(s, inbox)],
           queues := s.queues[inbox := []])
      else s
  }

  function Exec(actions: seq<Action>): State {
    if actions == [] then INIT else Next(Exec(actions[..|actions| - 1]), actions[|actions| - 1])
  }

  // The accepted messages of one inbox, in lock order.
  function Accepted(pushes: seq<Push>, inbox: nat): seq<Mail> {
    if pushes == [] then []
    else
      var last := pushes[|pushes| - 1];
      Accepted(pushes[..|pushes| - 1], inbox) + if last.inbox == inbox then [last.mail] else []
  }

  lemma AcceptedSnoc(pushes: seq<Push>, p: Push, inbox: nat)
    ensures Accepted(pushes + [p], inbox)
         == Accepted(pushes, inbox) + if p.inbox == inbox then [p.mail] else []
  {
    assert (pushes + [p])[..|pushes|] == pushes;
  }

  // What an inbox gave out, followed by what it still holds, is what it accepted.
  predicate Conserved(s: State, inbox: nat) {
    Drained(s, inbox) + Queue(s, inbox) == Accepted(s.pushes, inbox)
  }

  lemma DeliverConserves(s: State, op: nat, inbox: nat)
    requires Conserved(s, inbox) && op in s.running && s.running[op].Holding?
    ensures Conserved(Next(s, Deliver(op)), inbox)
  {
    var p := s.running[op];
    var after := Next(s, Deliver(op));
    AcceptedSnoc(s.pushes, Push(op, p.to, p.mail, p.inbox), inbox);
    assert Drained(after, inbox) == Drained(s, inbox);
    assert Queue(after, inbox) == Queue(s, inbox) + if p.inbox == inbox then [p.mail] else [];
  }

  lemma DrainConserves(s: State, op: nat, inbox: nat)
    requires Conserved(s, inbox) && op in s.running && s.running[op].Draining?
    ensures Conserved(Next(s, FinishDrain(op)), inbox)
  {
    var after := Next(s, FinishDrain(op));
    if s.running[op].inbox == inbox {
      assert Drained(after, inbox) == Drained(s, inbox) + Queue(s, inbox) && Queue(after, inbox) == [];
    } else {
      assert Drained(after, inbox) == Drained(s, inbox) && Queue(after, inbox) == Queue(s, inbox);
    }
  }

  lemma OthersKeepQueues(s: State, a: Action)
    requires !a.Deliver? && !a.FinishDrain?
    ensures Next(s, a).queues == s.queues && Next(s, a).drained == s.drained && Next(s, a).pushes == s.pushes
  {
  }

  // Under every interleaving, what an inbox gave out, followed by what it still holds,
  // is exactly what was accepted into it, in lock order: nothing is lost, repeated or
  // reordered.
  lemma {:induction false} NothingLostOrReordered(actions: seq<Action>, inbox: nat)
    ensures Conserved(Exec(actions), inbox)
  {
    if actions != [] {
      var s, a := Exec(actions[..|actions| - 1]), actions[|actions| - 1];
      NothingLostOrReordered(actions[..|actions| - 1], inbox);
      if a.Deliver? && a.op in s.running && s.running[a.op].Holding? {
        DeliverConserves(s, a.op, inbox);
      } else if a.FinishDrain? && a.op in s.running && s.running[a.op].Draining? {
        DrainConserves(s, a.op, inbox);
      } else if !a.Deliver? && !a.FinishDrain? {
        OthersKeepQueues(s, a);
      }
    }
  }

  // Every operation has its own number, and none that has pushed is still running.
  predicate OpsFresh(s: State) {
    && (forall op | op in s.running :: op < s.nextOp)
    && (forall i | 0 <= i < |s.pushes| :: s.pushes[i].op < s.nextOp && s.pushes[i].op !in s.running)
    && (forall i, j | 0 <= i < j < |s.pushes| :: s.pushes[i].op != s.pushes[j].op)
  }

  lemma StartFresh(s: State, p: Progress)
    requires OpsFresh(s)
    ensures OpsFresh(Start(s, p))
  {
  }

  lemma NextFresh(s: State, a: Action)
    requires OpsFresh(s)
    ensures OpsFresh(Next(s, a))
  {
    match a {
      case Register(id, parent) =>
      case Close(id) =>
      case SendToParent(from, body) =>
        if from in s.sessions && s.sessions[from].parentId.Some? {
          StartFresh(s, Checked(s.sessions[from].parentId.value, Mail(from, body)));
        }
      case SendToChild(from, child, body) => StartFresh(s, Checked(child, Mail(from, body)));
      case Lookup(op) =>
      case Deliver(op) =>
      case StartDrain(id) =>
        if id in s.sessions { StartFresh(s, Draining(s.sessions[id].inbox)); }
      case FinishDrain(op) =>
    }
  }

  // So no send is delivered twice.
  lemma {:induction false} EachSendPushesOnce(actions: seq<Action>)
    ensures OpsFresh(Exec(actions))
  {
    if actions != [] {
      EachSendPushesOnce(actions[..|actions| - 1]);
      NextFresh(Exec(actions[..|actions| - 1]), actions[|actions| - 1]);
    }
  }
}
