// Log entries and provider messages, and what both mean to the tool-call protocol.
module Conversation {
  import opened Options
  import opened Protocol

  datatype Source =
    | User | Assistant | Tool | PlanReminder | External | ReviewerComment | SubAgentSummary

  // arguments is the serialised JSON value.
  datatype Invocation = Invocation(id: CallId, name: string, arguments: string)

  datatype Image = Image(mediaType: string, data: string)

  datatype EvidenceRef =
    EvidenceRef(id: string, kind: string, summary: string, bytes: nat, digest: string, path: string)

  datatype Entry = Entry(
    source: Source, content: string, untrusted: bool,
    toolCalls: seq<Invocation>, toolCallId: Option<CallId>,
    turnId: nat, parentTurnId: Option<nat>, pinned: bool,
    evidenceRefs: seq<EvidenceRef>, images: seq<Image>)

  function Trusted(source: Source, content: string): Entry {
    Entry(source, content, false, [], None, 0, None, false, [], [])
  }

  function AssistantWithToolCalls(content: string, calls: seq<Invocation>): Entry {
    Trusted(Assistant, content).(toolCalls := calls)
  }

  function ToolResult(id: CallId, observation: string): Entry {
    Trusted(Tool, observation).(toolCallId := Some(id))
  }

  datatype Role = UserRole | AssistantRole | ToolRole

  datatype Message = Message(
    role: Role, content: string,
    toolCalls: seq<Invocation>, toolCallId: Option<CallId>, images: seq<Image>)

  function Ids(calls: seq<Invocation>): (ids: seq<CallId>)
    ensures |ids| == |calls|
  {
    seq(|calls|, i requires 0 <= i < |calls| => calls[i].id)
  }

  // The calls an assistant turn issues; other messages issue none, whatever they carry.
  function CallIds(m: Message): seq<CallId> {
    if m.role == AssistantRole then Ids(m.toolCalls) else []
  }

  function EntryEvent(e: Entry): Event {
    if e.source == Assistant && e.toolCalls != [] then Calls(Ids(e.toolCalls))
    else if e.toolCallId.Some? then Answer(e.toolCallId.value)
    else Chat
  }

  function MessageEvent(m: Message): Event {
    if m.role == AssistantRole then
      if m.toolCalls != [] then Calls(Ids(m.toolCalls)) else Chat
    else if m.toolCallId.Some? then Answer(m.toolCallId.value)
    else Chat
  }

  function EntryEvents(es: seq<Entry>): (r: seq<Event>)
    ensures |r| == |es|
  {
    seq(|es|, i requires 0 <= i < |es| => EntryEvent(es[i]))
  }

  function MessageEvents(ms: seq<Message>): (r: seq<Event>)
    ensures |r| == |ms|
  {
    seq(|ms|, i requires 0 <= i < |ms| => MessageEvent(ms[i]))
  }

  lemma EntryEventsConcat(a: seq<Entry>, b: seq<Entry>)
    ensures EntryEvents(a + b) == EntryEvents(a) + EntryEvents(b)
  {
  }

  lemma MessageEventsCons(m: Message, ms: seq<Message>)
    ensures MessageEvents([m] + ms) == [MessageEvent(m)] + MessageEvents(ms)
  {
  }

  // What every message built from the log looks like: only assistant turns
  // carry calls, and they answer none.
  predicate WireShaped(m: Message) {
    if m.role == AssistantRole then m.toolCallId.None? else m.toolCalls == []
  }

  predicate AllWireShaped(ms: seq<Message>) {
    forall m | m in ms :: WireShaped(m)
  }

  lemma WireShapedTail(ms: seq<Message>, k: nat)
    requires AllWireShaped(ms) && k <= |ms|
    ensures AllWireShaped(ms[k..]) && (ms != [] ==> WireShaped(ms[0]))
  {
    assert forall m | m in ms[k..] :: m in ms;
  }

  lemma WireShapedCons(m: Message, ms: seq<Message>)
    ensures AllWireShaped([m] + ms) <==> WireShaped(m) && AllWireShaped(ms)
  {
    assert m in [m] + ms;
    assert forall n | n in ms :: n in [m] + ms;
  }

  // Rendering an entry as a message. show gives the text of an entry as the model
  // sees it: the wrapper around untrusted content and the evidence footer.
  function Render(e: Entry, show: Entry -> string): Message {
    if e.source == Assistant && e.toolCalls != [] then
      Message(AssistantRole, e.content, e.toolCalls, None, [])
    else if e.toolCallId.Some? then
      Message(ToolRole, show(e), [], e.toolCallId, [])
    else
      var role := if e.source == Assistant then AssistantRole else UserRole;
      if e.images != [] && role == UserRole then Message(UserRole, show(e), [], None, e.images)
      else Message(role, show(e), [], None, [])
  }

  // What the message of an entry is: a call turn with its own text and its calls, a result
  // with its id, or a plain turn; images go with plain turns of the user's side alone.
  predicate Represents(m: Message, e: Entry, show: Entry -> string) {
    && (e.source == Assistant && |e.toolCalls| > 0 ==>
          m.role == AssistantRole && m.content == e.content && m.toolCalls == e.toolCalls
          && m.toolCallId == None && m.images == [])
    && (!(e.source == Assistant && |e.toolCalls| > 0) ==> m.content == show(e) && m.toolCalls == [])
    && (!(e.source == Assistant && |e.toolCalls| > 0) && e.toolCallId != None ==>
          m.role == ToolRole && m.toolCallId == e.toolCallId && m.images == [])
    && (!(e.source == Assistant && |e.toolCalls| > 0) && e.toolCallId == None ==>
          m.toolCallId == None
          && (e.source == Assistant ==> m.role == AssistantRole && m.images == [])
          && (e.source != Assistant ==> m.role == UserRole && m.images == e.images))
  }

  // The operator's words are a user message, the model's own an assistant message.
  lemma RenderRepresents(es: seq<Entry>, show: Entry -> string, i: nat)
    requires i < |es|
    ensures Represents(RenderAll(es, show)[i], es[i], show)
  {
    assert RenderAll(es, show)[i] == Render(es[i], show);
  }

  function RenderAll(es: seq<Entry>, show: Entry -> string): (r: seq<Message>)
    ensures |r| == |es|
  {
    seq(|es|, i requires 0 <= i < |es| => Render(es[i], show))
  }

  lemma RenderEvent(e: Entry, show: Entry -> string)
    ensures MessageEvent(Render(e, show)) == EntryEvent(e) && WireShaped(Render(e, show))
  {
  }

  // Rendering neither adds nor loses a call or a result.
  lemma RenderKeepsEvents(es: seq<Entry>, show: Entry -> string)
    ensures MessageEvents(RenderAll(es, show)) == EntryEvents(es)
    ensures AllWireShaped(RenderAll(es, show))
  {
    forall i | 0 <= i < |es|
      ensures MessageEvent(RenderAll(es, show)[i]) == EntryEvent(es[i])
           && WireShaped(RenderAll(es, show)[i])
    {
      RenderEvent(es[i], show);
    }
  }

  // The index of the last entry of a turn up to t, or -1.
  function LastAtOrBefore(es: seq<Entry>, t: nat): (i: int)
    ensures -1 <= i < |es|
    ensures i >= 0 ==> es[i].turnId <= t
    ensures forall j | i < j < |es| :: es[j].turnId > t
  {
    if es == [] then -1
    else if es[|es| - 1].turnId <= t then |es| - 1
    else LastAtOrBefore(es[..|es| - 1], t)
  }

  // rposition over the entries
  method FindLastAtOrBefore(entries: seq<Entry>, t: nat) returns (i: int)
    ensures i == LastAtOrBefore(entries, t)
  {
    i := |entries| - 1;
    while i >= 0 && entries[i].turnId > t
      invariant -1 <= i < |entries|
      invariant LastAtOrBefore(entries[..i + 1], t) == LastAtOrBefore(entries, t)
    {
      assert entries[..i + 1][..i] == entries[..i];
      i := i - 1;
    }
  }
}
