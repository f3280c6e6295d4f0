// The session router: live sessions in registration order and a foreground pointer.
module Router {
  import opened Options

  // inbox identifies the queue that senders and drainers share.
  datatype Handle = Handle(id: string, parentId: Option<string>, inbox: nat)

  function Without(order: seq<string>, id: string): (r: seq<string>)
    ensures forall x :: x in r <==> x in order && x != id
  {
    if order == [] then []
    else (if order[0] == id then [] else [order[0]]) + Without(order[1..], id)
  }

  predicate NoDuplicates(order: seq<string>) {
    forall i, j | 0 <= i < j < |order| :: order[i] != order[j]
  }

  lemma {:induction false} WithoutKeepsOrder(order: seq<string>, id: string)
    requires NoDuplicates(order)
    ensures NoDuplicates(Without(order, id))
    ensures |Without(order, id)| == |order| - if id in order then 1 else 0
  {
    if order != [] {
      WithoutKeepsOrder(order[1..], id);
      if order[0] == id {
        assert id !in order[1..];
      }
      assert order[0] !in Without(order[1..], id);
    }
  }

  // The others stay where they were among themselves.
  lemma {:induction false} WithoutCuts(order: seq<string>, i: nat)
    requires NoDuplicates(order) && i < |order|
    ensures Without(order, order[i]) == order[..i] + order[i + 1..]
  {
    var rest := order[1..];
    if i == 0 {
      NothingWithout(rest, order[0]);
    } else {
      WithoutCuts(rest, i - 1);
      assert rest[..i - 1] == order[1..i] && rest[i..] == order[i + 1..];
      assert order[..i] == [order[0]] + order[1..i];
    }
  }

  function IndexOf(order: seq<string>, id: string): (i: nat)
    requires id in order
    ensures i < |order| && order[i] == id && id !in order[..i]
  {
    if order[0] == id then 0 else 1 + IndexOf(order[1..], id)
  }

  // a, taken around the end of a list of n.
  function Wrap(a: nat, n: nat): nat {
    if a < n then a else a - n
  }

  lemma ModuloWraps(i: nat, n: nat)
    requires i < n
    ensures (i + 1) % n == Wrap(i + 1, n)
  {
  }

  // The session after id in registration order, around the end.
  function After(order: seq<string>, id: string): string
    requires id in order
  {
    order[Wrap(IndexOf(order, id) + 1, |order|)]
  }

  class SessionRouter {
    var sessions: map<string, Handle>
    var order: seq<string>
    var foreground: Option<string>

    // order lists exactly the sessions, each once; there is a foreground exactly when
    // there is a session, and it is one of them.
    ghost predicate Valid()
      reads this
    {
      && NoDuplicates(order)
      && (forall id :: id in order <==> id in sessions)
      && (forall id | id in sessions :: sessions[id].id == id)
      && (foreground.None? <==> order == [])
      && (foreground.Some? ==> foreground.value in sessions)
    }

    constructor ()
      ensures Valid() && sessions == map[] && order == [] && foreground == None
    {
      sessions, order, foreground := map[], [], None;
    }

    method Register(handle: Handle)
      requires Valid()
      modifies this
      ensures Valid()
      ensures sessions == old(sessions)[handle.id := handle]
      ensures order == Without(old(order), handle.id) + [handle.id]
      ensures foreground == if old(foreground).None? then Some(handle.id) else old(foreground)
    {
      WithoutKeepsOrder(order, handle.id);
      order := Without(order, handle.id) + [handle.id];
      sessions := sessions[handle.id := handle];
      if foreground.None? {
        foreground := Some(handle.id);
      }
    }

    method SwitchTo(id: string) returns (ok: bool)
      requires Valid()
      modifies this`foreground
      ensures Valid() && (ok <==> id in sessions)
      ensures foreground == if ok then Some(id) else old(foreground)
    {
      if id in sessions {
        foreground := Some(id);
        return true;
      }
      return false;
    }

    method CycleForeground() returns (id: Option<string>, ghost at: nat)
      requires Valid()
      modifies this`foreground
      ensures Valid() && foreground == id
      ensures id == if order == [] then None else Some(After(order, old(foreground).value))
      ensures order != [] ==>
        at < |order| && old(foreground) == Some(order[at]) && id == Some(order[if at + 1 < |order| then at + 1 else 0])
    {
      at := 0;
      if order == [] {
        id := None;
        return;
      }
      var next := 0;
      at := IndexOf(order, foreground.value);
      if foreground.Some? && foreground.value in order {
        ModuloWraps(IndexOf(order, foreground.value), |order|);
        next := (IndexOf(order, foreground.value) + 1) % |order|;
      }
      foreground := Some(order[next]);
      id := foreground;
    }

    method Close(id: string) returns (removed: bool)
      requires Valid()
      modifies this
      ensures Valid() && (removed <==> id in old(sessions))
      ensures sessions == old(sessions) - {id} && order == Without(old(order), id)
      ensures foreground
           == if removed && old(foreground) == Some(id) then
                (if order == [] then None else Some(order[0]))
              else old(foreground)
    {
      if id !in sessions {
        assert sessions - {id} == sessions;
        NothingWithout(order, id);
        return false;
      }
      WithoutKeepsOrder(order, id);
      sessions := sessions - {id};
      order := Without(order, id);
      if foreground == Some(id) {
        foreground := if order == [] then None else Some(order[0]);
      }
      removed := true;
    }
  }

  lemma {:induction false} NothingWithout(order: seq<string>, id: string)
    requires id !in order
    ensures Without(order, id) == order
  {
    if order != [] {
      NothingWithout(order[1..], id);
    }
  }

  // Cycling k times from id.
  function Cycled(order: seq<string>, id: string, k: nat): (r: string)
    requires id in order
    ensures r in order
  {
    if k == 0 then id else After(order, Cycled(order, id, k - 1))
  }

  lemma IndexOfAt(order: seq<string>, i: nat)
    requires NoDuplicates(order) && i < |order|
    ensures IndexOf(order, order[i]) == i
  {
    var k := IndexOf(order, order[i]);
    assert order[k] == order[i];
  }

  lemma AfterAt(order: seq<string>, id: string, i: nat)
    requires NoDuplicates(order) && i < |order| && order[i] == id
    ensures After(order, id) == order[Wrap(i + 1, |order|)]
  {
    IndexOfAt(order, i);
  }

  lemma {:induction false} CycledIndex(order: seq<string>, id: string, p: nat, k: nat)
    requires NoDuplicates(order) && p < |order| && order[p] == id && k <= |order|
    ensures Cycled(order, id, k) == order[if p + k < |order| then p + k else p + k - |order|]
  {
    if k > 0 {
      CycledIndex(order, id, p, k - 1);
      AfterAt(order, Cycled(order, id, k - 1), Wrap(p + k - 1, |order|));
    }
  }

  // Cycling as often as there are sessions comes back to the start.
  lemma CycleReturns(order: seq<string>, id: string)
    requires NoDuplicates(order) && id in order
    ensures Cycled(order, id, |order|) == id
  {
    CycledIndex(order, id, IndexOf(order, id), |order|);
  }

  // It visits every session on the way,
  lemma CycleReaches(order: seq<string>, id: string, x: string) returns (k: nat)
    requires NoDuplicates(order) && id in order && x in order
    ensures k < |order| && Cycled(order, id, k) == x
  {
    var p, i := IndexOf(order, id), IndexOf(order, x);
    k := if i >= p then i - p else i + |order| - p;
    CycledIndex(order, id, p, k);
  }

  // and none twice.
  lemma CycleVisitsOnce(order: seq<string>, id: string, j: nat, k: nat)
    requires NoDuplicates(order) && id in order && j < k < |order|
    ensures Cycled(order, id, j) != Cycled(order, id, k)
  {
    var p := IndexOf(order, id);
    CycledIndex(order, id, p, j);
    CycledIndex(order, id, p, k);
  }
}
