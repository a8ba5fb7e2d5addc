/** The ring of send slots between the prefill producer and its sender thread. Each method
    body is one critical section; a wait loop's body returns `MustWait` instead of sleeping. */
module SlotRing {
  import opened TokenHash
  import opened Division

  datatype Slot = Slot(pos: nat, nTokens: nat, id: nat, prefix: Hash, result: Hash, reset: bool, ackOnly: bool)

  const EMPTY := Slot(0, 0, 0, 0, 0, false, false)

  datatype Ring = Ring(slots: seq<Slot>, head: nat, tail: nat, queued: nat, producerDone: bool, stop: bool, failed: bool)

  datatype Grant = MustWait | Refused | Granted(slot: nat)

  predicate Shaped(r: Ring) {
    r.head < |r.slots| && r.tail < |r.slots| && r.queued <= |r.slots| && r.tail == (r.head + r.queued) % |r.slots|
  }

  function Fresh(depth: nat): Ring {
    Ring(seq(depth, _ => EMPTY), 0, 0, 0, false, false, false)
  }

  function Acquire(r: Ring): Grant {
    if !r.stop && r.queued == |r.slots| then MustWait
    else if r.stop || r.failed then Refused
    else Granted(r.tail)
  }

  function Fill(r: Ring, slot: nat, x: Slot): Ring
    requires slot < |r.slots|
  {
    r.(slots := r.slots[slot := x])
  }

  predicate MayEnqueue(r: Ring) {
    !r.stop && !r.failed
  }

  function Enqueue(r: Ring): Ring
    requires |r.slots| > 0
  {
    r.(tail := (r.tail + 1) % |r.slots|, queued := r.queued + 1)
  }

  /** What the sender may send next: `Refused` tells its thread to end. */
  function Take(r: Ring): Grant {
    if !r.stop && r.queued == 0 && !r.producerDone then MustWait
    else if r.stop || (r.queued == 0 && r.producerDone) then Refused
    else Granted(r.head)
  }

  function Release(r: Ring): Ring
    requires |r.slots| > 0 && r.queued > 0
  {
    r.(head := (r.head + 1) % |r.slots|, queued := r.queued - 1)
  }

  /** While a slot is granted to the producer and another to the sender, they are different. */
  lemma GrantsExclusive(r: Ring)
    requires Shaped(r) && 0 < r.queued < |r.slots|
    ensures r.tail != r.head
  {
    Apart(r.head, r.queued, |r.slots|);
  }

  lemma Apart(head: nat, queued: nat, n: nat)
    requires head < n && 0 < queued < n
    ensures (head + queued) % n != head
  {
    ModDistinct(head, head + queued, n);
    ModUnique(head, 0, head, n);
  }

  lemma EnqueueShaped(r: Ring)
    requires Shaped(r) && r.queued < |r.slots|
    ensures Shaped(Enqueue(r))
  {
    ModAdd(r.head + r.queued, 1, |r.slots|);
  }

  lemma ReleaseShaped(r: Ring)
    requires Shaped(r) && r.queued > 0
    ensures Shaped(Release(r))
  {
    AdvanceMod(r.head, r.queued, |r.slots|);
  }

  class Sender {
    const slots: array<Slot>
    var head: nat
    var tail: nat
    var queued: nat
    var producerDone: bool
    var stop: bool
    var failed: bool

    function View(): Ring
      reads this, slots
    {
      Ring(slots[..], head, tail, queued, producerDone, stop, failed)
    }

    constructor (depth: nat)
      requires depth > 0
      ensures fresh(slots) && View() == Fresh(depth) && Shaped(View())
    {
      slots := new Slot[depth](_ => EMPTY);
      head, tail, queued, producerDone, stop, failed := 0, 0, 0, false, false, false;
      new;
      assert slots[..] == Fresh(depth).slots;
    }

    method AcquireSlot() returns (g: Grant)
      requires Shaped(View())
      ensures g == Acquire(View())
      ensures g.Granted? && queued > 0 ==> g.slot != head
    {
      if !stop && queued == slots.Length {
        return MustWait;
      }
      if stop || failed {
        return Refused;
      }
      g := Granted(tail);
      if queued > 0 {
        GrantsExclusive(View());
      }
    }

    /** The producer writes its slot outside the lock. */
    method FillSlot(slot: nat, x: Slot)
      requires slot < slots.Length
      modifies slots
      ensures View() == Fill(old(View()), slot, x)
    {
      slots[slot] := x;
    }

    method EnqueueSlot() returns (ok: bool)
      requires Shaped(View()) && queued < slots.Length
      modifies this
      ensures Shaped(View()) && ok == MayEnqueue(old(View()))
      ensures View() == if ok then Enqueue(old(View())) else old(View())
    {
      if stop || failed {
        return false;
      }
      EnqueueShaped(View());
      tail := (tail + 1) % slots.Length;
      queued := queued + 1;
      return true;
    }

    method Finish()
      modifies this
      ensures View() == old(View()).(producerDone := true)
    {
      producerDone := true;
    }

    method Cancel()
      modifies this
      ensures View() == old(View()).(producerDone := true, stop := true)
    {
      producerDone := true;
      stop := true;
    }

    /** What it grants is the oldest slot enqueued and never the one the producer may fill; it ends
        the thread with slots unsent only after a stop. */
    method TakeSlot() returns (g: Grant)
      requires Shaped(View())
      ensures g == Take(View())
      ensures g.Granted? ==> queued > 0 && !stop && g.slot == head && (queued < slots.Length ==> g.slot != tail)
      ensures g.Refused? ==> stop || (producerDone && queued == 0)
      ensures g.MustWait? ==> !stop && !producerDone && queued == 0
    {
      if 0 < queued < slots.Length {
        GrantsExclusive(View());
      }
      if !stop && queued == 0 && !producerDone {
        return MustWait;
      }
      if stop || (queued == 0 && producerDone) {
        return Refused;
      }
      return Granted(head);
    }

    /** After the frame went out, or could not. */
    method SendDone(ok: bool)
      requires Shaped(View()) && queued > 0
      modifies this
      ensures Shaped(View())
      ensures View() == if ok then Release(old(View())) else old(View()).(failed := true, stop := true)
    {
      if !ok {
        failed := true;
        stop := true;
        return;
      }
      ReleaseShaped(View());
      head := (head + 1) % slots.Length;
      queued := queued - 1;
    }
  }
}
