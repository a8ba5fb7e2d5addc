/** A worker's connection to the next hop: the linked list of requests it has forwarded
    and not yet paired with a result. Each method body is one critical section. */
module Forwarder {
  import opened WorkerChain

  datatype Entry = Entry(id: nat, telemetry: Telemetry, sendUsec: nat)

  class Node {
    const id: nat
    const telemetry: Telemetry
    var sendUsec: nat
    var next: Node?

    constructor (id: nat, telemetry: Telemetry)
      ensures this.id == id && this.telemetry == telemetry && sendUsec == 0 && next == null
    {
      this.id, this.telemetry, sendUsec, next := id, telemetry, 0, null;
    }
  }

  // ---- What the operations do to the list ----------------------------------

  /** The list without its first entry for `id`. */
  function Without(s: seq<Entry>, id: nat): seq<Entry> {
    if s == [] then [] else if s[0].id == id then s[1..] else [s[0]] + Without(s[1..], id)
  }

  function Noted(s: seq<Entry>, id: nat, usec: nat): seq<Entry> {
    if s == [] then []
    else if s[0].id == id then [s[0].(sendUsec := usec)] + s[1..]
    else [s[0]] + Noted(s[1..], id, usec)
  }

  predicate Holds(s: seq<Entry>, id: nat) {
    exists i :: 0 <= i < |s| && s[i].id == id
  }

  lemma {:induction false} WithoutAt(s: seq<Entry>, id: nat, k: nat)
    requires k < |s| && s[k].id == id && !Holds(s[..k], id)
    ensures Without(s, id) == s[..k] + s[k + 1..]
  {
    if k > 0 {
      assert s[..k][0] == s[0];
      assert s[1..][..k - 1] == s[..k][1..];
      assert s[1..][k..] == s[k + 1..];
      WithoutAt(s[1..], id, k - 1);
    }
  }

  lemma {:induction false} NotedAt(s: seq<Entry>, id: nat, usec: nat, k: nat)
    requires k < |s| && s[k].id == id && !Holds(s[..k], id)
    ensures Noted(s, id, usec) == s[k := s[k].(sendUsec := usec)]
  {
    if k > 0 {
      assert s[..k][0] == s[0];
      assert s[1..][..k - 1] == s[..k][1..];
      NotedAt(s[1..], id, usec, k - 1);
    }
  }

  lemma {:induction false} AbsentUnchanged(s: seq<Entry>, id: nat, usec: nat)
    requires !Holds(s, id)
    ensures Without(s, id) == s && Noted(s, id, usec) == s
  {
    if s != [] {
      AbsentUnchanged(s[1..], id, usec);
    }
  }

  /** A failed send takes back exactly the entry it had queued, noted or not. */
  lemma FailedSendUndone(s: seq<Entry>, id: nat, t: Telemetry, usec: nat)
    requires !Holds(s, id)
    ensures Without(Noted(s + [Entry(id, t, 0)], id, usec), id) == s
  {
    var q := s + [Entry(id, t, 0)];
    assert q[..|s|] == s;
    NotedAt(q, id, usec, |s|);
    assert Noted(q, id, usec)[..|s|] == s;
    WithoutAt(Noted(q, id, usec), id, |s|);
  }

  // ---- The list itself -----------------------------------------------------

  datatype Enqueue = Queued | Closed | MustWait

  class Queue {
    var head: Node?
    var tail: Node?
    var count: nat
    const depth: nat
    var closing: bool
    ghost var nodes: seq<Node>

    /** The list really is a list: `nodes` in link order, ended by `tail`, as long as `count`
        says, and no longer than the window (a depth of zero is no limit). */
    ghost predicate Valid()
      reads this, nodes
    {
      && (forall i, j :: 0 <= i < j < |nodes| ==> nodes[i] != nodes[j])
      && (forall i {:trigger nodes[i].next} :: 0 <= i < |nodes| ==> nodes[i].next == if i + 1 < |nodes| then nodes[i + 1] else null)
      && head == (if nodes == [] then null else nodes[0])
      && tail == (if nodes == [] then null else nodes[|nodes| - 1])
      && count == |nodes| && (depth != 0 ==> count <= depth)
    }

    ghost function View(): (s: seq<Entry>)
      reads this, nodes
      ensures |s| == |nodes|
    {
      seq(|nodes|, i requires 0 <= i < |nodes| reads this, nodes => Entry(nodes[i].id, nodes[i].telemetry, nodes[i].sendUsec))
    }

    constructor (depth: nat)
      ensures Valid() && View() == [] && !closing && this.depth == depth && nodes == []
    {
      head, tail, count, closing, nodes := null, null, 0, false, [];
      this.depth := depth;
    }

    /** One pass of the wait loop: it queues the request, gives up, or sleeps. */
    method TryEnqueue(id: nat, telemetry: Telemetry) returns (r: Enqueue)
      requires Valid()
      modifies this, nodes
      ensures Valid() && closing == old(closing) && fresh((set n <- nodes) - old(set n <- nodes))
      ensures r == if old(closing) then Closed else if depth != 0 && old(count) >= depth then MustWait else Queued
      ensures View() == old(View()) + if r.Queued? then [Entry(id, telemetry, 0)] else []
    {
      if closing {
        return Closed;
      }
      if depth != 0 && count >= depth {
        return MustWait;
      }
      var node := new Node(id, telemetry);
      if tail != null {
        tail.next := node;
      } else {
        head := node;
      }
      tail := node;
      count := count + 1;
      nodes := nodes + [node];
      return Queued;
    }

    /** Take the oldest request, if there is one. */
    method Pop() returns (ok: bool, id: nat, telemetry: Telemetry)
      requires Valid()
      modifies this
      ensures Valid() && closing == old(closing)
      ensures ok == (old(View()) != [])
      ensures if ok then View() == old(View())[1..] && id == old(View())[0].id && telemetry == old(View())[0].telemetry
              else View() == []
    {
      if head == null {
        return false, 0, Telemetry(0, 0, 0);
      }
      ok, id, telemetry := true, head.id, head.telemetry;
      head := head.next;
      if head == null {
        tail := null;
      }
      count := count - 1;
      nodes := nodes[1..];
    }

    /** Unlink the first entry for a request whose frame could not be sent. */
    method Remove(id: nat) returns (ok: bool)
      requires Valid()
      modifies this, nodes
      ensures Valid() && closing == old(closing)
      ensures ok == Holds(old(View()), id) && View() == Without(old(View()), id)
    {
      var prev: Node? := null;
      var it := head;
      ghost var k := 0;
      while it != null && it.id != id
        invariant k <= |nodes| && it == (if k < |nodes| then nodes[k] else null)
        invariant prev == if k == 0 then null else nodes[k - 1]
        invariant !Holds(View()[..k], id)
        decreases |nodes| - k
      {
        prev := it;
        it := it.next;
        k := k + 1;
      }
      ok := it != null;
      if ok {
        ghost var was := View();
        WithoutAt(was, id, k);
        assert was[k].id == id;
        Unlink(prev, it, k);
        assert View() == was[..k] + was[k + 1..];
      } else {
        assert View()[..k] == View();
        AbsentUnchanged(View(), id, 0);
      }
    }

    /** Take the node at place `k` out of the list. */
    method Unlink(prev: Node?, it: Node, ghost k: nat)
      requires Valid() && k < |nodes| && it == nodes[k] && prev == if k == 0 then null else nodes[k - 1]
      modifies this, nodes
      ensures Valid() && closing == old(closing) && nodes == old(nodes[..k] + nodes[k + 1..])
      ensures forall n <- nodes :: n.sendUsec == old(n.sendUsec)
    {
      if prev == null {
        head := it.next;
      } else {
        prev.next := it.next;
      }
      if tail == it {
        tail := prev;
      }
      count := count - 1;
      nodes := nodes[..k] + nodes[k + 1..];
    }

    method NoteSendDone(id: nat, usec: nat)
      requires Valid()
      modifies nodes
      ensures Valid() && View() == Noted(old(View()), id, usec)
    {
      var it := head;
      ghost var k := 0;
      while it != null && it.id != id
        invariant k <= |nodes| && it == (if k < |nodes| then nodes[k] else null)
        invariant !Holds(View()[..k], id)
        decreases |nodes| - k
      {
        it := it.next;
        k := k + 1;
      }
      if it != null {
        NotedAt(View(), id, usec, k);
        it.sendUsec := usec;
      } else {
        assert View()[..k] == View();
        AbsentUnchanged(View(), id, usec);
      }
    }

    method Clear()
      requires Valid()
      modifies this
      ensures Valid() && View() == [] && closing == old(closing)
    {
      head, tail, count, nodes := null, null, 0, [];
    }

    method Close()
      requires Valid()
      modifies this
      ensures Valid() && View() == old(View()) && closing
    {
      closing := true;
      assert forall i :: 0 <= i < |nodes| ==> nodes[i].next == old(nodes[i].next);
    }
  }
}
