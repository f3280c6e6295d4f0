// Merging adjacent plain messages of one role.
module Merge {
  import opened Options
  import opened Protocol
  import opened Conversation
  import opened UniqueCalls

  const SEPARATOR := "\n\n"

  predicate Plain(m: Message) {
    m.toolCalls == [] && m.toolCallId.None? && m.images == []
  }

  predicate Joins(last: Message, m: Message) {
    Plain(last) && Plain(m) && last.role == m.role
  }

  function Join(last: Message, m: Message): Message {
    last.(content := last.content + SEPARATOR + m.content)
  }

  // One message appended to the merged list, or folded into its last block.
  function MergeInto(merged: seq<Message>, m: Message): seq<Message> {
    var n := |merged|;
    if n > 0 && Joins(merged[n - 1], m) then merged[..n - 1] + [Join(merged[n - 1], m)]
    else merged + [m]
  }

  function Merged(ms: seq<Message>): seq<Message> {
    if ms == [] then [] else MergeInto(Merged(ms[..|ms| - 1]), ms[|ms| - 1])
  }

  method MergeConsecutiveRoles(messages: seq<Message>) returns (merged: seq<Message>)
    ensures merged == Merged(messages)
  {
    merged := [];
    for i := 0 to |messages|
      invariant merged == Merged(messages[..i])
    {
      assert messages[..i + 1][..i] == messages[..i];
      var message := messages[i];
      var n := |merged|;
      if n > 0 && Plain(message) && merged[n - 1].role == message.role && Plain(merged[n - 1]) {
        merged := merged[n - 1 := Join(merged[n - 1], message)];
      } else {
        merged := merged + [message];
      }
    }
    assert messages[..|messages|] == messages;
  }

  // The reference: split the list wherever two neighbours do not join, and join
  // each piece.

  predicate IsRun(run: seq<Message>) {
    run != [] && forall j | 0 < j < |run| :: Joins(run[j - 1], run[j])
  }

  function JoinRun(run: seq<Message>): Message
    requires run != []
  {
    if |run| == 1 then run[0] else Join(JoinRun(run[..|run| - 1]), run[|run| - 1])
  }

  function Flatten(runs: seq<seq<Message>>): seq<Message> {
    if runs == [] then [] else Flatten(runs[..|runs| - 1]) + runs[|runs| - 1]
  }

  predicate Separate(a: seq<Message>, b: seq<Message>) {
    a != [] && b != [] ==> !Joins(a[|a| - 1], b[0])
  }

  predicate MaximalRuns(ms: seq<Message>, runs: seq<seq<Message>>) {
    && Flatten(runs) == ms
    && (forall i | 0 <= i < |runs| :: IsRun(runs[i]))
    && (forall i | 0 < i < |runs| :: Separate(runs[i - 1], runs[i]))
  }

  predicate JoinedRuns(runs: seq<seq<Message>>, merged: seq<Message>) {
    |merged| == |runs|
    && forall i | 0 <= i < |merged| :: IsRun(runs[i]) && merged[i] == JoinRun(runs[i])
  }

  // Joining a run keeps its role, and keeps whether it is plain.
  lemma {:induction false} JoinRunKind(run: seq<Message>)
    requires IsRun(run)
    ensures JoinRun(run).role == run[|run| - 1].role && Plain(JoinRun(run)) == Plain(run[|run| - 1])
  {
    if |run| > 1 {
      JoinRunKind(run[..|run| - 1]);
      assert Joins(run[|run| - 2], run[|run| - 1]);
    }
  }

  lemma ExtendRun(run: seq<Message>, m: Message)
    requires IsRun(run) && Joins(JoinRun(run), m)
    ensures IsRun(run + [m]) && JoinRun(run + [m]) == Join(JoinRun(run), m)
  {
    JoinRunKind(run);
    assert (run + [m])[..|run|] == run;
  }

  lemma FlattenSnoc(runs: seq<seq<Message>>, run: seq<Message>)
    ensures Flatten(runs + [run]) == Flatten(runs) + run
  {
    assert (runs + [run])[..|runs|] == runs;
  }

  // One more message either extends the last run or starts one of its own.

  lemma GrowMaximal(ms: seq<Message>, m: Message, init: seq<seq<Message>>, last: seq<Message>)
    requires MaximalRuns(ms, init + [last]) && IsRun(last + [m])
    ensures MaximalRuns(ms + [m], init + [last + [m]])
  {
    var runs, next := init + [last], init + [last + [m]];
    FlattenSnoc(init, last);
    FlattenSnoc(init, last + [m]);
    forall i | 0 <= i < |next| ensures IsRun(next[i]) {
      assert i < |init| ==> next[i] == runs[i];
    }
    forall i | 0 < i < |next| ensures Separate(next[i - 1], next[i]) {
      assert Separate(runs[i - 1], runs[i]) && IsRun(runs[i]);
    }
  }

  lemma GrowLastRun(init: seq<seq<Message>>, last: seq<Message>, merged: seq<Message>, m: Message)
    requires IsRun(last) && JoinedRuns(init + [last], merged) && Joins(JoinRun(last), m)
    ensures IsRun(last + [m]) && JoinedRuns(init + [last + [m]], MergeInto(merged, m))
  {
    var runs, next := init + [last], init + [last + [m]];
    assert runs[|init|] == last;
    ExtendRun(last, m);
    forall i | 0 <= i < |next| ensures IsRun(next[i]) && MergeInto(merged, m)[i] == JoinRun(next[i]) {
      assert i < |init| ==> next[i] == runs[i];
    }
  }

  lemma StartMaximal(ms: seq<Message>, m: Message, runs: seq<seq<Message>>)
    requires MaximalRuns(ms, runs) && (runs != [] ==> !Joins(JoinRun(runs[|runs| - 1]), m))
    ensures MaximalRuns(ms + [m], runs + [[m]])
  {
    var next := runs + [[m]];
    FlattenSnoc(runs, [m]);
    forall i | 0 <= i < |next| ensures IsRun(next[i]) {
      assert i < |runs| ==> next[i] == runs[i];
    }
    forall i | 0 < i < |next| ensures Separate(next[i - 1], next[i]) {
      if i < |runs| {
        assert Separate(runs[i - 1], runs[i]);
      } else {
        JoinRunKind(runs[i - 1]);
      }
    }
  }

  lemma StartRun(runs: seq<seq<Message>>, merged: seq<Message>, m: Message)
    requires JoinedRuns(runs, merged) && (runs != [] ==> !Joins(JoinRun(runs[|runs| - 1]), m))
    ensures JoinedRuns(runs + [[m]], MergeInto(merged, m))
  {
  }

  // The result is exactly the separator-joined maximal runs, in order.
  lemma {:induction false} MergeJoinsMaximalRuns(ms: seq<Message>) returns (runs: seq<seq<Message>>)
    ensures MaximalRuns(ms, runs) && JoinedRuns(runs, Merged(ms))
  {
    if ms == [] {
      return [];
    }
    var before := MergeJoinsMaximalRuns(ms[..|ms| - 1]);
    var init, m, n := ms[..|ms| - 1], ms[|ms| - 1], |before|;
    assert init + [m] == ms;
    if n > 0 && Joins(JoinRun(before[n - 1]), m) {
      assert before == before[..n - 1] + [before[n - 1]];
      GrowLastRun(before[..n - 1], before[n - 1], Merged(init), m);
      GrowMaximal(init, m, before[..n - 1], before[n - 1]);
      runs := before[..n - 1] + [before[n - 1] + [m]];
    } else {
      StartMaximal(init, m, before);
      StartRun(before, Merged(init), m);
      runs := before + [[m]];
    }
  }

  // A message of text alone.
  predicate TextOnly(m: Message) {
    m.toolCalls == [] && m.toolCallId.None? && m.images == []
  }

  // No two neighbours are messages of text alone and of one role.
  predicate NothingJoins(ms: seq<Message>) {
    forall i | 0 < i < |ms| :: !(TextOnly(ms[i - 1]) && TextOnly(ms[i]) && ms[i - 1].role == ms[i].role)
  }

  lemma {:induction false} MergeLeavesNothing(ms: seq<Message>)
    ensures NothingJoins(Merged(ms))
  {
    if ms != [] {
      MergeLeavesNothing(ms[..|ms| - 1]);
    }
  }

  lemma NothingJoinsSnoc(init: seq<Message>, last: Message)
    requires NothingJoins(init + [last])
    ensures NothingJoins(init) && (init != [] ==> !Joins(init[|init| - 1], last))
  {
    var ms := init + [last];
    forall i | 0 < i < |init|
      ensures !(TextOnly(init[i - 1]) && TextOnly(init[i]) && init[i - 1].role == init[i].role)
    {
      assert ms[i - 1] == init[i - 1] && ms[i] == init[i];
    }
    if init != [] {
      assert ms[|init| - 1] == init[|init| - 1] && ms[|init|] == last;
    }
  }

  lemma {:induction false} MergeIsIdentity(ms: seq<Message>)
    requires NothingJoins(ms)
    ensures Merged(ms) == ms
  {
    if ms != [] {
      var init, last := ms[..|ms| - 1], ms[|ms| - 1];
      NothingJoinsSnoc(init, last);
      assert ms == init + [last];
      MergeIsIdentity(init);
    }
  }

  lemma MergeTwice(ms: seq<Message>)
    ensures Merged(Merged(ms)) == Merged(ms)
  {
    MergeLeavesNothing(ms);
    MergeIsIdentity(Merged(ms));
  }

  // The messages that carry tool metadata or images.
  function Carriers(ms: seq<Message>): seq<Message> {
    if ms == [] then []
    else Carriers(ms[..|ms| - 1]) + if TextOnly(ms[|ms| - 1]) then [] else [ms[|ms| - 1]]
  }

  lemma CarriersSnoc(ms: seq<Message>, m: Message)
    ensures Carriers(ms + [m]) == Carriers(ms) + if TextOnly(m) then [] else [m]
  {
    assert (ms + [m])[..|ms|] == ms;
  }

  // They come through unchanged and in order.
  lemma {:induction false} MergeKeepsCarriers(ms: seq<Message>)
    ensures Carriers(Merged(ms)) == Carriers(ms)
  {
    if ms != [] {
      var before, m := Merged(ms[..|ms| - 1]), ms[|ms| - 1];
      MergeKeepsCarriers(ms[..|ms| - 1]);
      CarriersSnoc(before, m);
      var n := |before|;
      if n > 0 && Joins(before[n - 1], m) {
        assert before == before[..n - 1] + [before[n - 1]];
        CarriersSnoc(before[..n - 1], before[n - 1]);
        CarriersSnoc(before[..n - 1], Join(before[n - 1], m));
      }
    }
  }

  // What a run of texts becomes.

  function Glued(texts: seq<string>): string {
    if texts == [] then "" else if |texts| == 1 then texts[0] else texts[0] + "\n\n" + Glued(texts[1..])
  }

  function Texts(ms: seq<Message>): (texts: seq<string>)
    ensures |texts| == |ms|
  {
    seq(|ms|, i requires 0 <= i < |ms| => ms[i].content)
  }

  lemma {:induction false} GluedSnoc(texts: seq<string>, t: string)
    requires texts != []
    ensures Glued(texts + [t]) == Glued(texts) + "\n\n" + t
  {
    var all := texts + [t];
    assert all[1..] == texts[1..] + [t];
    if |texts| == 1 {
      assert all[1..] == [t];
    } else {
      GluedSnoc(texts[1..], t);
      assert texts[0] + "\n\n" + (Glued(texts[1..]) + "\n\n" + t) == Glued(texts) + "\n\n" + t;
    }
  }

  // A run of several messages becomes one of its role, with the texts in order, a blank
  // line between them, and nothing else; a single message stays as it is.
  lemma {:induction false} RunBecomes(run: seq<Message>)
    requires IsRun(run)
    ensures |run| == 1 ==> JoinRun(run) == run[0]
    ensures |run| > 1 ==>
      JoinRun(run) == Message(run[0].role, Glued(Texts(run)), [], None, [])
      && forall j | 0 <= j < |run| :: TextOnly(run[j]) && run[j].role == run[0].role
  {
    if |run| > 1 {
      var init, last := run[..|run| - 1], run[|run| - 1];
      RunBecomes(init);
      assert Texts(run) == Texts(init) + [last.content];
      GluedSnoc(Texts(init), last.content);
      assert Joins(init[|init| - 1], last);
      assert Texts(init)[0] == run[0].content;
    }
  }

  // So merging does not touch the protocol.

  function ToolEvents(es: seq<Event>): seq<Event> {
    if es == [] then []
    else (if es[0].Chat? then [] else [es[0]]) + ToolEvents(es[1..])
  }

  lemma {:induction false} ToolEventsConcat(a: seq<Event>, b: seq<Event>)
    ensures ToolEvents(a + b) == ToolEvents(a) + ToolEvents(b)
  {
    if a == [] {
      assert a + b == b;
    } else {
      assert (a + b)[1..] == a[1..] + b;
      ToolEventsConcat(a[1..], b);
    }
  }

  lemma ToolEventsCons(es: seq<Event>)
    requires es != []
    ensures es[0].Chat? ==> ToolEvents(es) == ToolEvents(es[1..])
    ensures !es[0].Chat? ==> ToolEvents(es) == [es[0]] + ToolEvents(es[1..])
    ensures !es[0].Chat? ==> ToolEvents(es)[1..] == ToolEvents(es[1..])
  {
  }

  lemma {:induction false} OnlyToolEventsRun(es: seq<Event>, open: set<CallId>)
    ensures Run(ToolEvents(es), open) == Run(es, open)
  {
    if es != [] {
      ToolEventsCons(es);
      match Step(es[0], open) {
        case None =>
        case Some(next) => OnlyToolEventsRun(es[1..], next);
      }
    }
  }

  lemma {:induction false} OnlyToolEventsMatter(es: seq<Event>)
    ensures IssuedIn(ToolEvents(es)) == IssuedIn(es)
    ensures UniqueOrdered(ToolEvents(es)) == UniqueOrdered(es)
  {
    if es != [] {
      ToolEventsCons(es);
      OnlyToolEventsMatter(es[1..]);
    }
  }

  lemma MessageEventsSnoc(ms: seq<Message>, m: Message)
    ensures MessageEvents(ms + [m]) == MessageEvents(ms) + [MessageEvent(m)]
    ensures ToolEvents(MessageEvents(ms + [m]))
         == ToolEvents(MessageEvents(ms)) + if MessageEvent(m).Chat? then [] else [MessageEvent(m)]
  {
    ToolEventsConcat(MessageEvents(ms), [MessageEvent(m)]);
    assert [MessageEvent(m)][1..] == [];
  }

  lemma MergeIntoKeeps(merged: seq<Message>, m: Message)
    ensures ToolEvents(MessageEvents(MergeInto(merged, m))) == ToolEvents(MessageEvents(merged + [m]))
  {
    var n := |merged|;
    MessageEventsSnoc(merged, m);
    if n > 0 && Joins(merged[n - 1], m) {
      var init, last := merged[..n - 1], merged[n - 1];
      assert merged == init + [last];
      MessageEventsSnoc(init, last);
      MessageEventsSnoc(init, Join(last, m));
    }
  }

  lemma {:induction false} MergeKeepsToolEvents(ms: seq<Message>)
    ensures ToolEvents(MessageEvents(Merged(ms))) == ToolEvents(MessageEvents(ms))
  {
    if ms != [] {
      var init, m := ms[..|ms| - 1], ms[|ms| - 1];
      MergeKeepsToolEvents(init);
      assert ms == init + [m];
      MessageEventsSnoc(init, m);
      MessageEventsSnoc(Merged(init), m);
      MergeIntoKeeps(Merged(init), m);
    }
  }

  lemma {:induction false} MergeKeepsShape(ms: seq<Message>)
    requires AllWireShaped(ms)
    ensures AllWireShaped(Merged(ms))
  {
    if ms != [] {
      assert AllWireShaped(ms[..|ms| - 1]);
      MergeKeepsShape(ms[..|ms| - 1]);
    }
  }
}
