// Trimming a message list to the hard token limit.
module Trim {
  import opened Protocol
  import opened Conversation
  import opened Repair
  import opened OrderedRepair
  import Text

  function MessageTokens(ms: seq<Message>): nat {
    if ms == [] then 0 else Text.DivCeil(Text.Utf8Len(ms[0].content), 4) + MessageTokens(ms[1..])
  }

  // A message costs a quarter of its bytes, rounded up, and a list the sum of its messages.
  lemma {:induction false} MessageTokensMeans(a: seq<Message>, m: Message, b: seq<Message>)
    ensures MessageTokens(a + [m] + b) == MessageTokens(a) + MessageTokens([m]) + MessageTokens(b)
    ensures 4 * MessageTokens([m]) - 4 < Text.Utf8Len(m.content) <= 4 * MessageTokens([m])
  {
    assert [m][1..] == [];
    if a == [] {
      assert a + [m] + b == [m] + b && ([m] + b)[1..] == b;
    } else {
      assert (a + [m] + b)[1..] == a[1..] + [m] + b;
      MessageTokensMeans(a[1..], m, b);
    }
  }

  predicate Fits(ms: seq<Message>, limit: nat) {
    MessageTokens(ms) <= limit || |ms| <= 1
  }

  lemma {:induction false} ClaimsOnlyDrop(ms: seq<Message>, seen: set<CallId>)
    ensures |ClaimResults(ms, seen)| <= |ms|
    ensures MessageTokens(ClaimResults(ms, seen)) <= MessageTokens(ms)
  {
    if ms != [] {
      var rest := ClaimResults(ms[1..], SeenNext(ms[0], seen));
      ClaimsOnlyDrop(ms[1..], SeenNext(ms[0], seen));
      assert Claims(ms[0], seen) ==> ([ms[0]] + rest)[1..] == rest;
      assert !Claims(ms[0], seen) ==> ClaimResults(ms, seen) == rest;
    }
  }

  lemma {:induction false} BlanksOnlyDrop(ms: seq<Message>, ids: set<CallId>)
    ensures |DropBlank(RetainAll(ms, ids))| <= |ms|
    ensures MessageTokens(DropBlank(RetainAll(ms, ids))) <= MessageTokens(ms)
  {
    if ms != [] {
      BlanksOnlyDrop(ms[1..], ids);
      var all := RetainAll(ms, ids);
      assert all[1..] == RetainAll(ms[1..], ids);
      assert all[0].content == ms[0].content;
      assert Blank(all[0]) ==> DropBlank(all) == DropBlank(all[1..]);
      assert !Blank(all[0]) ==> DropBlank(all)[1..] == DropBlank(all[1..]);
    }
  }

  // Repair never lengthens a list and never costs tokens.
  lemma RepairShrinks(ms: seq<Message>)
    ensures |Repaired(ms)| <= |ms| && MessageTokens(Repaired(ms)) <= MessageTokens(ms)
    ensures forall limit: nat | Fits(ms, limit) :: Fits(Repaired(ms), limit)
  {
    BlanksOnlyDrop(ms, OutputIds(ms));
    ClaimsOnlyDrop(DropBlank(RetainAll(ms, OutputIds(ms))), {});
  }

  // Drop the first message and repair, until the rest fits.
  function Trimmed(ms: seq<Message>, limit: nat): seq<Message>
    decreases |ms|
  {
    if Fits(ms, limit) then ms
    else
      RepairShrinks(ms[1..]);
      Trimmed(Repaired(ms[1..]), limit)
  }

  method TrimToHardLimit(messages: seq<Message>, limit: nat) returns (trimmed: seq<Message>)
    ensures trimmed == Trimmed(messages, limit)
    ensures (MessageTokens(trimmed) <= limit || |trimmed| <= 1) && |trimmed| <= |messages|
    ensures MessageTokens(messages) <= limit ==> trimmed == messages
  {
    trimmed := messages;
    while MessageTokens(trimmed) > limit && |trimmed| > 1
      invariant Trimmed(trimmed, limit) == Trimmed(messages, limit) && |trimmed| <= |messages|
      decreases |trimmed|
    {
      RepairShrinks(trimmed[1..]);
      trimmed := RepairToolCallPairs(trimmed[1..]);
    }
  }

  // k is the first cut, from `from` on, after which one repair of the rest fits.
  predicate FirstFit(ms: seq<Message>, from: nat, k: nat, limit: nat) {
    && from <= k <= |ms|
    && Fits(Repaired(ms[k..]), limit)
    && forall j | from <= j < k :: !Fits(Repaired(ms[j..]), limit)
  }

  // One trimming step from a repaired suffix moves the cut past its first survivor.
  lemma TrimStep(ms: seq<Message>, c: nat) returns (next: nat)
    requires Ordered(ms) && AllWireShaped(ms) && c <= |ms| && Repaired(ms[c..]) != []
    ensures c < next <= |ms|
    ensures forall j | c <= j < next :: Repaired(ms[j..]) == Repaired(ms[c..])
    ensures Repaired(Repaired(ms[c..])[1..]) == Repaired(ms[next..])
  {
    var suffix := ms[c..];
    OrderedSuffix(ms, c);
    assert forall m | m in suffix :: m in ms;
    DropFirstSurvivor(suffix);
    next := c + FirstKept(suffix) + 1;
    assert suffix[next - c..] == ms[next..];
    forall j | c <= j < next ensures Repaired(ms[j..]) == Repaired(suffix) {
      assert suffix[j - c..] == ms[j..];
    }
  }

  // From a repaired suffix on, trimming step by step is one cut and one repair.
  lemma {:induction false} TrimSuffix(ms: seq<Message>, c: nat, limit: nat) returns (k: nat)
    requires Ordered(ms) && AllWireShaped(ms) && c <= |ms|
    ensures FirstFit(ms, c, k, limit)
    ensures Trimmed(Repaired(ms[c..]), limit) == Repaired(ms[k..])
    decreases |ms| - c
  {
    if Fits(Repaired(ms[c..]), limit) {
      return c;
    }
    var next := TrimStep(ms, c);
    k := TrimSuffix(ms, next, limit);
  }

  // Incremental trimming equals one-shot repair: either the list already fits, or
  // what is sent is the repair of its longest proper suffix whose repair fits.
  lemma TrimIsOneShot(ms: seq<Message>, limit: nat) returns (k: nat)
    requires Ordered(ms) && AllWireShaped(ms)
    ensures Fits(ms, limit) ==> k == 0 && Trimmed(ms, limit) == ms
    ensures !Fits(ms, limit) ==> FirstFit(ms, 1, k, limit) && Trimmed(ms, limit) == Repaired(ms[k..])
    ensures k <= |ms| && Repaired(Trimmed(ms, limit)) == Repaired(ms[k..])
  {
    if Fits(ms, limit) {
      assert ms[0..] == ms;
      return 0;
    }
    k := TrimSuffix(ms, 1, limit);
    OrderedSuffix(ms, k);
    assert forall m | m in ms[k..] :: m in ms;
    RepairTwice(ms[k..]);
  }
}
