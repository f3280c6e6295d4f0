// Call/result repair, run on the message list before every provider request.
module Repair {
  import opened Protocol
  import opened Conversation
  import Text

  function OutputIds(ms: seq<Message>): set<CallId> {
    set m | m in ms && m.toolCallId.Some? :: m.toolCallId.value
  }

  function KeepCalls(calls: seq<Invocation>, ids: set<CallId>): (r: seq<Invocation>)
    ensures forall c | c in r :: c in calls && c.id in ids
    ensures forall c | c in calls && c.id in ids :: c in r
  {
    if calls == [] then []
    else (if calls[0].id in ids then [calls[0]] else []) + KeepCalls(calls[1..], ids)
  }

  // An assistant turn keeps only the calls that have some result.
  function RetainCalls(m: Message, ids: set<CallId>): Message {
    if m.role == AssistantRole then m.(toolCalls := KeepCalls(m.toolCalls, ids)) else m
  }

  function RetainAll(ms: seq<Message>, ids: set<CallId>): (r: seq<Message>)
    ensures |r| == |ms|
  {
    seq(|ms|, i requires 0 <= i < |ms| => RetainCalls(ms[i], ids))
  }

  predicate Blank(m: Message) {
    m.role == AssistantRole && Text.Trim(m.content) == "" && m.toolCalls == []
  }

  function DropBlank(ms: seq<Message>): seq<Message> {
    if ms == [] then []
    else (if Blank(ms[0]) then [] else [ms[0]]) + DropBlank(ms[1..])
  }

  predicate IsResult(m: Message) {
    m.role != AssistantRole && m.toolCallId.Some?
  }

  // The calls seen after m that no result has claimed yet.
  function SeenNext(m: Message, seen: set<CallId>): set<CallId> {
    if IsResult(m) then seen - {m.toolCallId.value} else seen + IdSet(CallIds(m))
  }

  predicate Claims(m: Message, seen: set<CallId>) {
    IsResult(m) ==> m.toolCallId.value in seen
  }

  // Drops every result whose call was not seen, or was claimed by an earlier result.
  function ClaimResults(ms: seq<Message>, seen: set<CallId>): seq<Message> {
    if ms == [] then []
    else
      (if Claims(ms[0], seen) then [ms[0]] else []) + ClaimResults(ms[1..], SeenNext(ms[0], seen))
  }

  function Repaired(ms: seq<Message>): seq<Message> {
    ClaimResults(DropBlank(RetainAll(ms, OutputIds(ms))), {})
  }

  method CollectOutputIds(messages: seq<Message>) returns (ids: set<CallId>)
    ensures ids == OutputIds(messages)
  {
    ids := {};
    for i := 0 to |messages|
      invariant ids == OutputIds(messages[..i])
    {
      assert messages[..i + 1] == messages[..i] + [messages[i]];
      if messages[i].toolCallId.Some? {
        ids := ids + {messages[i].toolCallId.value};
      }
    }
    assert messages[..|messages|] == messages;
  }

  method RetainAnswered(messages: seq<Message>, ids: set<CallId>) returns (kept: seq<Message>)
    ensures kept == DropBlank(RetainAll(messages, ids))
  {
    kept := [];
    ghost var retained := RetainAll(messages, ids);
    ghost var rest := DropBlank(retained);
    assert retained[0..] == retained;
    for i := 0 to |messages|
      invariant rest == DropBlank(retained[i..]) && kept + rest == DropBlank(retained)
    {
      DropBlankStep(retained, i);
      var message := RetainCalls(messages[i], ids);
      rest := DropBlank(retained[i + 1..]);
      if !Blank(message) {
        MoveHead(kept, message, rest);
        kept := kept + [message];
      }
    }
  }

  lemma DropBlankStep(ms: seq<Message>, i: nat)
    requires i < |ms|
    ensures DropBlank(ms[i..])
         == if Blank(ms[i]) then DropBlank(ms[i + 1..]) else [ms[i]] + DropBlank(ms[i + 1..])
  {
    assert ms[i..][1..] == ms[i + 1..];
    assert [] + DropBlank(ms[i + 1..]) == DropBlank(ms[i + 1..]);
  }

  lemma MoveHead(kept: seq<Message>, m: Message, rest: seq<Message>)
    ensures kept + ([m] + rest) == (kept + [m]) + rest
  {
  }

  method RetainClaimed(messages: seq<Message>) returns (kept: seq<Message>)
    ensures kept == ClaimResults(messages, {})
  {
    kept := [];
    var seen: set<CallId> := {};
    for i := 0 to |messages|
      invariant kept + ClaimResults(messages[i..], seen) == ClaimResults(messages, {})
    {
      var message := messages[i];
      ghost var next := SeenNext(message, seen);
      assert ClaimResults(messages[i..], seen)
          == (if Claims(message, seen) then [message] else []) + ClaimResults(messages[i + 1..], next) by {
        assert messages[i..][0] == message && messages[i..][1..] == messages[i + 1..];
      }
      if message.role == AssistantRole {
        seen := seen + IdSet(CallIds(message));
        kept := kept + [message];
      } else if message.toolCallId.Some? {
        if message.toolCallId.value in seen {
          kept := kept + [message];
        }
        seen := seen - {message.toolCallId.value};
      } else {
        kept := kept + [message];
      }
      assert seen == next;
    }
  }

  method RepairToolCallPairs(messages: seq<Message>) returns (repaired: seq<Message>)
    ensures repaired == Repaired(messages)
  {
    var outputIds := CollectOutputIds(messages);
    var answered := RetainAnswered(messages, outputIds);
    repaired := RetainClaimed(answered);
  }
}
