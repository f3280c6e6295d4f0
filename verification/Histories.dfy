// Whole histories of a session: turns, notes, approval halts and resumptions, restarts
// from the snapshot, forks and switches, in any order.
module Histories {
  import opened Options
  import opened Protocol
  import opened Conversation
  import opened UniqueCalls
  import opened Compaction
  import opened ContextLog
  import opened Turns
  import opened Sessions
  import opened Agent
  import opened Branching
  import opened Alignment
  import Trim

  datatype Settings = Settings(threshold: nat, substantive: string -> bool, tools: Tools)

  // The log in memory with its turn counter, whether the sidecar holds a call, and the
  // session files.
  datatype Session = Session(log: seq<Entry>, turnId: nat, pending: bool, tree: Tree)

  // A run starts from the snapshot with a new counter; forks and switches come between runs.
  datatype Action =
    | Turn(input: TurnInput)
    | AddNote(source: Source, text: string)
    | Resume(observation: string, reminder: string, failure: Option<string>)
    | NoteOnDisk(text: string, images: seq<Image>)
    | Restart
    | ForkAt(turn: nat)
    | SwitchTo(index: nat)

  const START := Session([], 0, false, Tree([], []))

  function Next(turnId: nat): nat {
    if turnId < U64_MAX then turnId + 1 else U64_MAX
  }

  function Opened(tree: Tree, pending: bool): Session {
    Session(tree.snapshot, 0, pending, tree)
  }

  // A turn is not run while a call of the log waits for its result: the run ends with the
  // halt, and the next resumes it or starts from the snapshot. A call that the sidecar holds
  // from before does not keep a turn from being run. The snapshot is written after a turn
  // that returns an outcome, and only then.
  function AfterTurn(s: Session, input: TurnInput, settings: Settings): Session {
    if OpenCalls(s.log) != {} then s
    else
      var turnId := Next(s.turnId);
      var log := TurnLog(s.log, input, settings.threshold, settings.substantive, settings.tools, turnId, None);
      var halts := TurnHalts(s.log, input, settings.threshold, settings.tools, turnId, None);
      var result := TurnReturn(s.log, input, settings.threshold, settings.tools, turnId, None);
      Session(log, turnId, halts || s.pending, if result.TurnOk? then s.tree.(snapshot := log) else s.tree)
  }

  function NoteEntries(text: Option<string>): seq<Entry> {
    match text case None => [] case Some(t) => [Trusted(PlanReminder, t)]
  }

  function AfterResume(s: Session, observation: string, reminder: string, failure: Option<string>): Session {
    if !s.pending then s
    else
      var closed := s.log + StampedAll(ResumeTail(s.log, observation, reminder), s.turnId, None);
      s.(log := closed + StampedAll(NoteEntries(failure), s.turnId, None), pending := false)
  }

  // A reminder written straight to the snapshot, of no turn.
  function NotedOnDisk(tree: Tree, text: string, images: seq<Image>): Tree {
    tree.(snapshot := tree.snapshot + [Trusted(PlanReminder, text).(images := images)])
  }

  function Do(s: Session, action: Action, settings: Settings): Session {
    match action
    case Turn(input) => AfterTurn(s, input, settings)
    case AddNote(source, text) =>
      s.(log := s.log + StampedAll([Trusted(source, text)], s.turnId, None))
    case Resume(observation, reminder, failure) => AfterResume(s, observation, reminder, failure)
    case NoteOnDisk(text, images) => Opened(NotedOnDisk(s.tree, text, images), s.pending)
    case Restart => Opened(s.tree, s.pending)
    case ForkAt(t) =>
      (match Forked(s.tree, t) case None => s case Some(tree) => Opened(tree, s.pending))
    case SwitchTo(i) =>
      (match Switched(s.tree, i) case None => s case Some(tree) => Opened(tree, s.pending))
  }

  function History(actions: seq<Action>, settings: Settings): Session {
    if actions == [] then START
    else Do(History(actions[..|actions| - 1], settings), actions[|actions| - 1], settings)
  }

  function IdsOf(action: Action): set<CallId> {
    match action case Turn(input) => FreshIds(input) case _ => {}
  }

  function IdsIssued(actions: seq<Action>): set<CallId> {
    if actions == [] then {} else IdsIssued(actions[..|actions| - 1]) + IdsOf(actions[|actions| - 1])
  }

  // The provider never gives an id twice.
  predicate NoIdTwice(actions: seq<Action>) {
    actions == []
    || (var init, last := actions[..|actions| - 1], actions[|actions| - 1];
        NoIdTwice(init) && IdsOf(last) !! IdsIssued(init) && (last.Turn? ==> DistinctIds(last.input)))
  }

  // The invariant.

  function Flat(limbs: seq<Limb>): seq<Entry> {
    if limbs == [] then [] else Flat(limbs[..|limbs| - 1]) + limbs[|limbs| - 1].entries
  }

  function CallsIn(es: seq<Entry>): set<CallId> {
    IssuedIn(EntryEvents(es))
  }

  // A stretch of history that stands on its own: no call in it waits, and it may be
  // forked anywhere.
  ghost predicate Sealed(es: seq<Entry>) {
    LogShaped(es) && UniqueIds(EntryEvents(es)) && IsBalanced(es) && Aligned(es)
  }

  ghost predicate LimbsSealed(limbs: seq<Limb>) {
    forall i | 0 <= i < |limbs| :: LimbWellFormed(limbs[i]) && Sealed(limbs[i].entries)
  }

  ghost predicate FilesKept(tree: Tree, issued: set<CallId>) {
    && Sealed(tree.snapshot) && LimbsSealed(tree.limbs)
    && UniqueIds(EntryEvents(Flat(tree.limbs)))
    && CallsIn(tree.snapshot) !! CallsIn(Flat(tree.limbs))
    && CallsIn(tree.snapshot) + CallsIn(Flat(tree.limbs)) <= issued
  }

  // The log in memory, which the files do not hold yet.
  ghost predicate LogKept(s: Session, issued: set<CallId>) {
    && Kept(s.log, issued) && Aligned(s.log)
    && CallsIn(s.log) !! CallsIn(Flat(s.tree.limbs))
    && if OpenCalls(s.log) == {} then true
       else s.pending && Paused(s.log) && MayGoOn(s.log, s.turnId)
  }

  ghost predicate Lasting(s: Session, issued: set<CallId>) {
    FilesKept(s.tree, issued) && LogKept(s, issued)
  }

  lemma JoinedUnique(a: seq<Entry>, b: seq<Entry>)
    ensures UniqueIds(EntryEvents(a + b))
       <==> UniqueIds(EntryEvents(a)) && UniqueIds(EntryEvents(b)) && CallsIn(a) !! CallsIn(b)
    ensures CallsIn(a + b) == CallsIn(a) + CallsIn(b)
  {
    EntryEventsConcat(a, b);
    UniqueConcat(EntryEvents(a), EntryEvents(b));
    IssuedConcat(EntryEvents(a), EntryEvents(b));
  }

  lemma OpenedIsKept(tree: Tree, pending: bool, issued: set<CallId>)
    requires FilesKept(tree, issued)
    ensures Lasting(Opened(tree, pending), issued)
  {
  }

  lemma MoreIssued(s: Session, issued: set<CallId>, more: set<CallId>)
    requires Lasting(s, issued)
    ensures Lasting(s, issued + more)
  {
  }

  // Turns, notes and resumptions.

  lemma TurnLogIsKept(s: Session, input: TurnInput, settings: Settings, issued: set<CallId>)
    requires Kept(s.log, issued) && IsBalanced(s.log) && Aligned(s.log)
    requires DistinctIds(input) && FreshIds(input) !! issued
    ensures var after := AfterTurn(s, input, settings);
            && Kept(after.log, issued + FreshIds(input)) && Aligned(after.log)
            && CallsIn(after.log) <= CallsIn(s.log) + FreshIds(input)
            && if TurnHalts(s.log, input, settings.threshold, settings.tools, Next(s.turnId), None) then
                 after.pending && Paused(after.log) && MayGoOn(after.log, after.turnId)
               else after.pending == s.pending && IsBalanced(after.log)
  {
    var turnId, after := Next(s.turnId), AfterTurn(s, input, settings);
    TurnKeepsLog(s.log, input, settings.threshold, settings.substantive, settings.tools, turnId, None, issued);
    TurnKeepsAligned(s.log, input, settings.threshold, settings.substantive, settings.tools, turnId, None, issued);
    TurnCalls(s.log, input, settings, turnId, issued);
    if TurnHalts(s.log, input, settings.threshold, settings.tools, turnId, None) {
      assert OpenCalls(after.log) == {LastCalls(after.log)[0]};
    } else {
      assert OpenCalls(after.log) <= {};
      assert OpenCalls(after.log) == {};
    }
  }

  lemma TurnIsKept(s: Session, input: TurnInput, settings: Settings, issued: set<CallId>)
    requires Lasting(s, issued) && OpenCalls(s.log) == {} && DistinctIds(input) && FreshIds(input) !! issued
    ensures Lasting(AfterTurn(s, input, settings), issued + FreshIds(input))
  {
    var turnId, after := Next(s.turnId), AfterTurn(s, input, settings);
    TurnLogIsKept(s, input, settings, issued);
    ApprovalHaltsIff(s.log, input, settings.threshold, settings.tools, turnId, None);
    TurnFilesAreKept(s.tree, after.tree, after.log, issued, FreshIds(input));
  }

  // The files after a turn: the new log as the snapshot, or as they were.
  lemma TurnFilesAreKept(before: Tree, after: Tree, log: seq<Entry>, issued: set<CallId>, ids: set<CallId>)
    requires FilesKept(before, issued) && Kept(log, issued + ids)
    requires CallsIn(log) !! CallsIn(Flat(before.limbs))
    requires after == before || (after == before.(snapshot := log) && IsBalanced(log) && Aligned(log))
    ensures FilesKept(after, issued + ids)
  {
  }

  // A turn issues no call that was issued before it and is not in the log.
  lemma TurnCalls(es: seq<Entry>, input: TurnInput, settings: Settings, turnId: nat, issued: set<CallId>)
    requires Kept(es, issued) && DistinctIds(input) && FreshIds(input) !! issued
    ensures var after := TurnLog(es, input, settings.threshold, settings.substantive, settings.tools, turnId, None);
            CallsIn(after) <= CallsIn(es) + FreshIds(input)
  {
    assert Kept(es, CallsIn(es));
    TurnKeepsLog(es, input, settings.threshold, settings.substantive, settings.tools, turnId, None, CallsIn(es));
  }

  lemma NoteIsKept(s: Session, notes: seq<Entry>, issued: set<CallId>)
    requires Lasting(s, issued) && OfTurn(notes, s.turnId) && forall e | e in notes :: Note(e)
    ensures Lasting(s.(log := s.log + notes), issued)
  {
    AppendNotes(s.log, notes, issued);
    AppendNotes(s.log, notes, CallsIn(s.log));
    AlignedAppend(s.log, notes, s.turnId);
    if notes != [] {
      assert notes[|notes| - 1] in notes;
    } else {
      assert s.log + notes == s.log;
    }
  }

  lemma StampedNote(source: Source, text: string, turnId: nat)
    ensures var notes := StampedAll([Trusted(source, text)], turnId, None);
            OfTurn(notes, turnId) && forall e | e in notes :: Note(e)
  {
  }

  // The resumption closes the pending call, or appends a reminder when the log, reread
  // from the snapshot, has none.
  lemma ResumeIsKept(s: Session, observation: string, reminder: string, failure: Option<string>,
                     issued: set<CallId>)
    requires Lasting(s, issued) && s.pending
    ensures Lasting(AfterResume(s, observation, reminder, failure), issued)
    ensures IsBalanced(AfterResume(s, observation, reminder, failure).log)
  {
    var tail := ResumeTail(s.log, observation, reminder);
    var closed := s.log + StampedAll(tail, s.turnId, None);
    ResumeKeepsLog(s.log, observation, reminder, s.turnId, None, issued);
    ResumeKeepsLog(s.log, observation, reminder, s.turnId, None, CallsIn(s.log));
    StampedOfTurn(tail, s.turnId, None);
    AlignedAppend(s.log, StampedAll(tail, s.turnId, None), s.turnId);
    var resumed := s.(log := closed, pending := false);
    assert OpenCalls(closed) == {};
    assert Lasting(resumed, issued);
    if failure.Some? {
      StampedNote(PlanReminder, failure.value, s.turnId);
    }
    var notes := StampedAll(NoteEntries(failure), s.turnId, None);
    NoteIsKept(resumed, notes, issued);
    AppendNotes(closed, notes, issued);
  }

  // Forks and switches.

  lemma FlatSnoc(limbs: seq<Limb>, limb: Limb)
    ensures Flat(limbs + [limb]) == Flat(limbs) + limb.entries
  {
    assert (limbs + [limb])[..|limbs|] == limbs;
  }

  lemma SealedSplit(es: seq<Entry>, t: nat)
    requires Sealed(es)
    ensures var k := ForkPoint(es, t);
            Sealed(es[..k]) && Sealed(es[k..]) && CallsIn(es[..k]) !! CallsIn(es[k..])
            && CallsIn(es) == CallsIn(es[..k]) + CallsIn(es[k..])
  {
    var k := ForkPoint(es, t);
    AlignedForkSplitsNoPair(es, t);
    ForkIsRise(es, t);
    if k > 0 {
      AlignedPrefix(es, k);
    }
    AlignedSuffix(es, k);
    assert es == es[..k] + es[k..];
    JoinedUnique(es[..k], es[k..]);
  }

  lemma SealedConcat(a: seq<Entry>, b: seq<Entry>)
    requires Sealed(a) && Sealed(b) && CallsIn(a) !! CallsIn(b)
    ensures Sealed(a + b)
  {
    JoinedUnique(a, b);
    AlignedConcat(a, b);
    OpenAfter(a, b);
  }

  lemma LimbIsAdded(limbs: seq<Limb>, limb: Limb)
    requires LimbsSealed(limbs) && UniqueIds(EntryEvents(Flat(limbs)))
    requires LimbWellFormed(limb) && Sealed(limb.entries) && CallsIn(limb.entries) !! CallsIn(Flat(limbs))
    ensures var after := limbs + [limb];
            LimbsSealed(after) && UniqueIds(EntryEvents(Flat(after)))
            && CallsIn(Flat(after)) == CallsIn(Flat(limbs)) + CallsIn(limb.entries)
  {
    FlatSnoc(limbs, limb);
    JoinedUnique(Flat(limbs), limb.entries);
  }

  // Recording the dropped part of a path keeps the limbs apart from one another.
  lemma RecordedIsKept(limbs: seq<Limb>, t: nat, es: seq<Entry>)
    requires LimbsSealed(limbs) && UniqueIds(EntryEvents(Flat(limbs)))
    requires Sealed(es) && CallsIn(es) !! CallsIn(Flat(limbs))
    ensures var dropped := es[ForkPoint(es, t)..];
            var after := Recorded(limbs, t, dropped);
            LimbsSealed(after) && UniqueIds(EntryEvents(Flat(after)))
            && CallsIn(Flat(after)) == CallsIn(Flat(limbs)) + CallsIn(dropped)
  {
    var dropped := es[ForkPoint(es, t)..];
    SealedSplit(es, t);
    CutIsLimb(es, t);
    if dropped != [] {
      LimbIsAdded(limbs, Limb(t, dropped));
    } else {
      assert EntryEvents(dropped) == [];
    }
  }

  lemma NotedIsKept(tree: Tree, text: string, images: seq<Image>, issued: set<CallId>)
    requires FilesKept(tree, issued)
    ensures FilesKept(NotedOnDisk(tree, text, images), issued)
  {
    var e := Trusted(PlanReminder, text).(images := images);
    assert Kept(tree.snapshot, CallsIn(tree.snapshot));
    AppendNote(tree.snapshot, e, CallsIn(tree.snapshot));
    AlignedAppend(tree.snapshot, [e], 0);
  }

  lemma ForkIsKept(tree: Tree, t: nat, issued: set<CallId>)
    requires FilesKept(tree, issued) && Forked(tree, t).Some?
    ensures FilesKept(Forked(tree, t).value, issued)
  {
    SealedSplit(tree.snapshot, t);
    RecordedIsKept(tree.limbs, t, tree.snapshot);
  }

  // The calls of whole are those of part and those of rest, none in both.
  ghost predicate Parts(whole: seq<Entry>, part: seq<Entry>, rest: seq<Entry>) {
    UniqueIds(EntryEvents(rest)) && CallsIn(part) !! CallsIn(rest) && CallsIn(whole) == CallsIn(rest) + CallsIn(part)
  }

  lemma PartsConcat(whole: seq<Entry>, part: seq<Entry>, rest: seq<Entry>, more: seq<Entry>)
    requires Parts(whole, part, rest) && UniqueIds(EntryEvents(whole + more))
    ensures Parts(whole + more, part, rest + more)
  {
    JoinedUnique(whole, more);
    JoinedUnique(rest, more);
  }

  lemma FlatOfRemoved(init: seq<Limb>, last: Limb, i: nat)
    requires i < |init|
    ensures Flat(Remove(init + [last], i)) == Flat(Remove(init, i)) + last.entries
  {
    assert Remove(init + [last], i) == Remove(init, i) + [last];
    FlatSnoc(Remove(init, i), last);
  }

  lemma {:induction false} FlatRemove(limbs: seq<Limb>, i: nat)
    requires i < |limbs| && UniqueIds(EntryEvents(Flat(limbs)))
    ensures Parts(Flat(limbs), limbs[i].entries, Flat(Remove(limbs, i)))
  {
    var init, last := limbs[..|limbs| - 1], limbs[|limbs| - 1];
    assert limbs == init + [last];
    FlatSnoc(init, last);
    JoinedUnique(Flat(init), last.entries);
    if i == |init| {
      assert Remove(limbs, i) == init;
    } else {
      FlatRemove(init, i);
      var whole, part, rest := Flat(init), limbs[i].entries, Flat(Remove(init, i));
      assert Parts(whole, part, rest);
      PartsConcat(whole, part, rest, last.entries);
      FlatOfRemoved(init, last, i);
    }
  }

  lemma RemoveSealed(limbs: seq<Limb>, i: nat)
    requires LimbsSealed(limbs) && i < |limbs|
    ensures LimbsSealed(Remove(limbs, i))
  {
    forall k | 0 <= k < |limbs| - 1
      ensures LimbWellFormed(Remove(limbs, i)[k]) && Sealed(Remove(limbs, i)[k].entries)
    {
      assert Remove(limbs, i)[k] == limbs[if k < i then k else k + 1];
    }
  }

  lemma SwitchIsKept(tree: Tree, i: nat, issued: set<CallId>)
    requires FilesKept(tree, issued) && Switched(tree, i).Some?
    ensures FilesKept(Switched(tree, i).value, issued)
  {
    var limb, rest := tree.limbs[i], Remove(tree.limbs, i);
    var t := limb.parentTurnId;
    FlatRemove(tree.limbs, i);
    RemoveSealed(tree.limbs, i);
    SealedSplit(tree.snapshot, t);
    RecordedIsKept(rest, t, tree.snapshot);
    var kept := tree.snapshot[..ForkPoint(tree.snapshot, t)];
    SealedConcat(kept, limb.entries);
    JoinedUnique(kept, limb.entries);
  }

  lemma DoIsKept(s: Session, action: Action, settings: Settings, issued: set<CallId>)
    requires Lasting(s, issued)
    requires IdsOf(action) !! issued && (action.Turn? ==> DistinctIds(action.input))
    ensures Lasting(Do(s, action, settings), issued + IdsOf(action))
  {
    assert issued + {} == issued;
    match action
    case Turn(input) =>
      if OpenCalls(s.log) == {} {
        TurnIsKept(s, input, settings, issued);
      } else {
        MoreIssued(s, issued, FreshIds(input));
      }
    case AddNote(source, text) =>
      StampedNote(source, text, s.turnId);
      NoteIsKept(s, StampedAll([Trusted(source, text)], s.turnId, None), issued);
    case Resume(observation, reminder, failure) =>
      if s.pending { ResumeIsKept(s, observation, reminder, failure, issued); }
    case NoteOnDisk(text, images) =>
      NotedIsKept(s.tree, text, images, issued);
      OpenedIsKept(NotedOnDisk(s.tree, text, images), s.pending, issued);
    case Restart => OpenedIsKept(s.tree, s.pending, issued);
    case ForkAt(t) =>
      if Forked(s.tree, t).Some? {
        ForkIsKept(s.tree, t, issued);
        OpenedIsKept(Forked(s.tree, t).value, s.pending, issued);
      }
    case SwitchTo(i) =>
      if Switched(s.tree, i).Some? {
        SwitchIsKept(s.tree, i, issued);
        OpenedIsKept(Switched(s.tree, i).value, s.pending, issued);
      }
  }

  lemma {:induction false} HistoryIsKept(actions: seq<Action>, settings: Settings)
    requires NoIdTwice(actions)
    ensures Lasting(History(actions, settings), IdsIssued(actions))
  {
    if actions == [] {
      assert EntryEvents([]) == [];
      ChatIsAligned([]);
    } else {
      var init := actions[..|actions| - 1];
      HistoryIsKept(init, settings);
      DoIsKept(History(init, settings), actions[|actions| - 1], settings, IdsIssued(init));
    }
  }

  // Over every history: the log is balanced, or paused with its one open call in the
  // sidecar; the snapshot and every limb are balanced by themselves; and whatever turn the
  // snapshot is forked at, no call is parted from its result.
  lemma EveryHistoryIsBalanced(actions: seq<Action>, settings: Settings, t: nat)
    requires NoIdTwice(actions)
    ensures var s := History(actions, settings);
            && KeepsProtocol(s.log)
            && (IsBalanced(s.log) || (s.pending && Paused(s.log)))
            && IsBalanced(s.tree.snapshot)
            && ForkSplitsNoPair(s.tree.snapshot, t)
            && forall i | 0 <= i < |s.tree.limbs| :: IsBalanced(s.tree.limbs[i].entries)
  {
    HistoryIsKept(actions, settings);
    AlignedForkSplitsNoPair(History(actions, settings).tree.snapshot, t);
  }

  // The request built at any point of any history is balanced and fits.
  lemma EveryRequestIsBalanced(actions: seq<Action>, settings: Settings, limit: nat, show: Entry -> string)
    requires NoIdTwice(actions)
    ensures var request := Prepared(History(actions, settings).log, limit, show);
            Balanced(MessageEvents(request)) && Trim.Fits(request, limit)
  {
    HistoryIsKept(actions, settings);
    var log := History(actions, settings).log;
    var k := RequestIsBalanced(log, limit, show);
    RequestFits(log, limit, show);
  }

  // Whatever came before, resuming leaves the log balanced.
  lemma ResumeEndsThePause(actions: seq<Action>, settings: Settings, observation: string, reminder: string,
                           failure: Option<string>)
    requires NoIdTwice(actions)
    ensures IsBalanced(Do(History(actions, settings), Resume(observation, reminder, failure), settings).log)
  {
    HistoryIsKept(actions, settings);
    var s := History(actions, settings);
    if s.pending {
      ResumeIsKept(s, observation, reminder, failure, IdsIssued(actions));
    }
  }
}
