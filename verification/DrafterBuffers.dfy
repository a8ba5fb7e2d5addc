/** The drafter's buffers as they are written: wrapped copies in two parts, a check of the
    captured positions, and the scratch rows of the draft stages. */
module DrafterBuffers {
  import opened SpeculativeVerify
  import opened SpeculativeSession
  import opened DrafterRings
  import opened Division

  /** Copies `rows` into slots `start ..` of line `st`, wrapping after the ring's last slot. */
  method CopyWrapped(dst: array2<Value>, st: nat, start: nat, rows: seq<Value>)
    requires st < dst.Length0 && RING <= dst.Length1 && |rows| <= RING
    modifies dst
    ensures forall i :: 0 <= i < |rows| ==> dst[st, Slot(start + i)] == rows[i]
    ensures forall k: nat :: k < dst.Length1 && !InSlots(k, start, start + |rows|) ==> dst[st, k] == old(dst[st, k])
    ensures forall l: nat, k: nat :: l < dst.Length0 && k < dst.Length1 && l != st ==> dst[l, k] == old(dst[l, k])
  {
    var slot := start % RING;
    var part := if |rows| < RING - slot then |rows| else RING - slot;
    for i := 0 to part
      invariant forall j :: 0 <= j < i ==> dst[st, slot + j] == rows[j]
      invariant forall k: nat :: k < dst.Length1 && !(slot <= k < slot + i) ==> dst[st, k] == old(dst[st, k])
      invariant forall l: nat, k: nat :: l < dst.Length0 && k < dst.Length1 && l != st ==> dst[l, k] == old(dst[l, k])
    {
      dst[st, slot + i] := rows[i];
    }
    for i := part to |rows|
      invariant forall j :: 0 <= j < part ==> dst[st, slot + j] == rows[j]
      invariant forall j :: part <= j < i ==> dst[st, j - part] == rows[j]
      invariant forall k: nat :: k < dst.Length1 && !(slot <= k < slot + part) && !(k < i - part) ==> dst[st, k] == old(dst[st, k])
      invariant forall l: nat, k: nat :: l < dst.Length0 && k < dst.Length1 && l != st ==> dst[l, k] == old(dst[l, k])
    {
      dst[st, i - part] := rows[i];
    }
    forall i | 0 <= i < |rows| ensures dst[st, Slot(start + i)] == rows[i] {
      assert Slot(start + i) == if i < part then slot + i else i - part;
    }
    forall k: nat | k < dst.Length1 && !InSlots(k, start, start + |rows|) ensures dst[st, k] == old(dst[st, k]) {
      WrappedSlot(start, |rows|, k);
    }
  }

  /** Marks slots `start ..` of line `st` with their positions. */
  method MarkPositions(dst: array2<Value>, st: nat, start: nat, n: nat)
    requires st < dst.Length0 && RING <= dst.Length1 && n <= RING
    modifies dst
    ensures forall p: nat :: start <= p < start + n ==> dst[st, Slot(p)] == p
    ensures forall k: nat :: k < dst.Length1 && !InSlots(k, start, start + n) ==> dst[st, k] == old(dst[st, k])
    ensures forall l: nat, k: nat :: l < dst.Length0 && k < dst.Length1 && l != st ==> dst[l, k] == old(dst[l, k])
  {
    for i := 0 to n
      invariant forall p: nat :: start <= p < start + i ==> dst[st, Slot(p)] == p
      invariant forall k: nat :: k < dst.Length1 && !InSlots(k, start, start + n) ==> dst[st, k] == old(dst[st, k])
      invariant forall l: nat, k: nat :: l < dst.Length0 && k < dst.Length1 && l != st ==> dst[l, k] == old(dst[l, k])
    {
      forall p: nat | start <= p < start + i ensures Slot(p) != Slot(start + i) {
        ModDistinct(p, start + i, RING);
      }
      assert InSlots(Slot(start + i), start, start + n);
      dst[st, (start + i) % RING] := start + i;
    }
  }

  lemma WrappedSlot(start: nat, n: nat, k: nat)
    requires n <= RING
    ensures var slot := Slot(start);
            var part := if n < RING - slot then n else RING - slot;
            slot <= k < slot + part || k < n - part ==> InSlots(k, start, start + n)
  {
    var slot := Slot(start);
    var p: nat := if slot <= k then start + (k - slot) else start + (RING - slot) + k;
    assert k < RING ==> k == Slot(p);
  }

  class DraftBuffers {
    const session: Session
    const keys: array2<Value>
    var kvEnd: nat
    var kvValid: bool

    predicate Valid()
      reads this, session, session.rows
    {
      session.Valid() && keys.Length0 == STAGES && keys.Length1 == RING + SCRATCH
    }

    constructor (session: Session)
      requires session.Valid()
      ensures Valid() && this.session == session && fresh(keys) && !kvValid && kvEnd == 0
    {
      this.session := session;
      keys := new Value[STAGES, RING + SCRATCH]((_, _) => 0);
      kvEnd, kvValid := 0, false;
    }

    /** One stage's part of a captured chunk. */
    method CaptureStage(st: nat, pos: nat, features: seq<Value>)
      requires Valid() && st < STAGES && 0 < |features|
      modifies session, session.target, session.positions
      ensures Valid() && session.rewindEnd == 0
      ensures session.View() == old(session.View()).(
                g := old(session.View()).g.(ring := session.Ring()), b := old(session.View()).b.(rewindEnd := 0))
      ensures forall p: nat :: pos <= p && pos + |features| - RING <= p < pos + |features| ==>
                session.target[st, Slot(p)] == features[p - pos] && session.positions[st, Slot(p)] == p
      ensures forall l: nat, k: nat :: l < STAGES && k < RING && (l != st || !InSlots(k, pos, pos + |features|)) ==>
                session.target[l, k] == old(session.target[l, k]) && session.positions[l, k] == old(session.positions[l, k])
    {
      hide SlotsOf, LinesOf, ColumnOf;
      session.rewindEnd := 0;
      var count := if |features| < RING then |features| else RING;
      var first := |features| - count;
      SubSlots(pos, pos + first, pos + |features|);
      CopyWrapped(session.target, st, pos + first, features[first..]);
      MarkPositions(session.positions, st, pos + first, count);
      forall p: nat | pos + first <= p < pos + |features| ensures session.target[st, Slot(p)] == features[p - pos] {
        assert session.target[st, Slot(pos + first + (p - pos - first))] == features[first..][p - pos - first];
      }
    }

    /** A chunk of decoded rows, as its three captures leave the rings. */
    method CaptureRows(pos: nat, rows: seq<Column>)
      requires Valid() && 0 < |rows| && RowsShaped(rows)
      modifies session, session.target, session.positions
      ensures Valid() && session.Ring() == Capture(old(session.Ring()), pos, rows)
      ensures session.View() == old(session.View()).(g := old(session.View()).g.(ring := session.Ring()), b := old(session.View()).b.(rewindEnd := 0))
    {
      for st := 0 to STAGES
        invariant Valid() && (st > 0 ==> session.rewindEnd == 0)
        invariant session.View().(b := session.View().b.(rewindEnd := 0))
               == old(session.View()).(g := old(session.View()).g.(ring := session.Ring()), b := old(session.View()).b.(rewindEnd := 0))
        invariant forall l: nat, p: nat :: l < st && pos <= p && pos + |rows| - RING <= p < pos + |rows| ==>
                    session.target[l, Slot(p)] == rows[p - pos][l] && session.positions[l, Slot(p)] == p
        invariant forall l: nat, k: nat :: l < STAGES && k < RING && (l >= st || !InSlots(k, pos, pos + |rows|)) ==>
                    session.target[l, k] == old(session.target[l, k]) && session.positions[l, k] == old(session.positions[l, k])
      {
        CaptureStage(st, pos, seq(|rows|, i requires 0 <= i < |rows| => rows[i][st]));
      }
      ghost var was := old(session.Ring());
      forall p: nat | pos <= p && pos + |rows| - RING <= p < pos + |rows|
        ensures session.Ring()[Slot(p)] == SlotFor(was[Slot(p)].raw, p, rows[p - pos])
      {
        var k := Slot(p);
        assert forall l: nat :: l < STAGES ==> session.target[l, k] == rows[p - pos][l] && session.positions[l, k] == p;
        assert |rows[p - pos]| == STAGES;
        assert session.Ring()[k].features == rows[p - pos];
      }
      forall k: nat | k < RING && !InSlots(k, pos, pos + |rows|) ensures session.Ring()[k] == was[k] {
        assert forall l: nat :: l < STAGES ==> session.target[l, k] == old(session.target[l, k]) && session.positions[l, k] == old(session.positions[l, k]);
      }
      CapturedRing(was, session.Ring(), pos, rows);
    }

    /** Checks that every row to project was captured, gathering its features. */
    method Gather(start: nat, pos: nat) returns (ok: bool, input: seq<Column>)
      requires Valid() && start <= pos && pos - start <= RING
      ensures ok <==> forall p: nat :: start <= p < pos ==> Captured(session.Ring(), p)
      ensures ok ==> |input| == pos - start && forall i :: 0 <= i < |input| ==> input[i] == session.Ring()[Slot(start + i)].features
    {
      input := [];
      for i := 0 to pos - start
        invariant forall p: nat :: start <= p < start + i ==> Captured(session.Ring(), p)
        invariant |input| == i && forall j :: 0 <= j < i ==> input[j] == session.Ring()[Slot(start + j)].features
      {
        var slot := (start + i) % RING;
        var row: Column := [];
        for st := 0 to STAGES
          invariant forall l :: 0 <= l < st ==> session.positions[l, slot] == start + i
          invariant |row| == st && forall l :: 0 <= l < st ==> row[l] == session.target[l, slot]
        {
          if session.positions[st, slot] != start + i {
            assert session.Ring()[slot].positions[st] != start + i;
            assert !Captured(session.Ring(), start + i);
            return false, [];
          }
          row := row + [session.target[st, slot]];
        }
        assert row == session.Ring()[slot].features;
        assert forall l :: 0 <= l < STAGES ==> session.Ring()[slot].positions[l] == session.positions[l, slot];
        assert Captured(session.Ring(), start + i);
        input := input + [row];
      }
      return true, input;
    }

    method ProjectStage(project: Project, st: nat, start: nat, pos: nat, input: seq<Column>)
      requires Valid() && st < STAGES && start <= pos <= start + RING && |input| == pos - start
      requires forall i :: 0 <= i < |input| ==> input[i] == session.Ring()[Slot(start + i)].features
      modifies keys
      ensures LineOf(keys, st) == Seeded(project, st, old(LineOf(keys, st)), session.Ring(), start, pos)
      ensures forall l: nat :: l < STAGES && l != st ==> LineOf(keys, l) == old(LineOf(keys, l))
    {
      ghost var line, ring := LineOf(keys, st), session.Ring();
      var kv := seq(pos - start, i requires 0 <= i < pos - start => project(st, start + i, input[i]));
      CopyWrapped(keys, st, start, kv);
      forall p: nat | start <= p < pos ensures keys[st, Slot(p)] == project(st, p, ring[Slot(p)].features) {
        assert keys[st, Slot(start + (p - start))] == kv[p - start];
        assert input[p - start] == ring[Slot(start + (p - start))].features;
      }
      SeededLine(project, st, line, LineOf(keys, st), ring, start, pos);
    }

    /** Projects the newly accepted rows, or a whole window after a fresh start. */
    method Seed(project: Project, pos: nat) returns (ok: bool)
      requires Valid()
      modifies this, keys
      ensures Valid() && ok == Ready(session.Ring(), StartOf(old(kvValid), old(kvEnd), pos), pos)
      ensures !ok ==> kvEnd == old(kvEnd) && kvValid == old(kvValid) && LinesOf(keys) == old(LinesOf(keys))
      ensures ok ==> kvValid && kvEnd == pos && forall st: nat :: st < STAGES ==>
        LineOf(keys, st) == Seeded(project, st, old(LineOf(keys, st)), session.Ring(), StartOf(old(kvValid), old(kvEnd), pos), pos)
    {
      hide SlotsOf, ColumnOf;
      if pos == 0 {
        return false;
      }
      var oldest := if pos > RING then pos - RING else 0;
      var start := if kvValid && kvEnd >= oldest && kvEnd <= pos then kvEnd else oldest;
      if pos == start {
        return true;
      }
      var input;
      ok, input := Gather(start, pos);
      if !ok {
        return false;
      }
      for st := 0 to STAGES
        invariant forall l: nat :: l < st ==> LineOf(keys, l) == Seeded(project, l, old(LineOf(keys, l)), session.Ring(), start, pos)
        invariant forall l: nat :: st <= l < STAGES ==> LineOf(keys, l) == old(LineOf(keys, l))
      {
        ProjectStage(project, st, start, pos, input);
      }
      kvEnd, kvValid := pos, true;
    }

    /** One draft stage's scratch rows. */
    method Scratch(st: nat, pos: nat, rows: seq<Value>)
      requires Valid() && st < STAGES && |rows| == SCRATCH
      modifies keys
      ensures LinesOf(keys) == old(LinesOf(keys))[st := Scratched(old(LineOf(keys, st)), pos, rows)]
    {
      var past := if pos < RING then pos else RING;
      for i := 0 to SCRATCH
        invariant forall j :: 0 <= j < i ==> keys[st, past + j] == rows[j]
        invariant forall l: nat, k: nat :: l < STAGES && k < keys.Length1 && !(l == st && past <= k < past + i) ==> keys[l, k] == old(keys[l, k])
      {
        keys[st, past + i] := rows[i];
      }
      assert LineOf(keys, st) == Scratched(old(LineOf(keys, st)), pos, rows);
      assert forall l: nat :: l < STAGES && l != st ==> LineOf(keys, l) == old(LineOf(keys, l));
    }

    /** The forward pass as far as the key buffer goes: seed, then every stage's scratch rows. */
    method DraftForward(project: Project, pos: nat, scratch: seq<Column>) returns (ok: bool)
      requires Valid() && |scratch| == STAGES && forall st :: 0 <= st < STAGES ==> |scratch[st]| == SCRATCH
      modifies this, keys
      ensures Valid() && ok == Ready(session.Ring(), StartOf(old(kvValid), old(kvEnd), pos), pos)
      ensures !ok ==> kvEnd == old(kvEnd) && kvValid == (old(kvValid) && pos == 0) && LinesOf(keys) == old(LinesOf(keys))
      ensures ok ==> kvValid && kvEnd == pos && forall st: nat :: st < STAGES ==>
        LineOf(keys, st) == Scratched(Seeded(project, st, old(LineOf(keys, st)), session.Ring(), StartOf(old(kvValid), old(kvEnd), pos), pos), pos, scratch[st])
    {
      if pos == 0 {
        return false;
      }
      ok := Seed(project, pos);
      if !ok {
        kvValid := false;
        return;
      }
      ghost var seeded := LinesOf(keys);
      for st := 0 to STAGES
        invariant forall l: nat :: l < STAGES ==> LineOf(keys, l) == if l < st then Scratched(seeded[l], pos, scratch[l]) else seeded[l]
        modifies keys
      {
        Scratch(st, pos, scratch[st]);
        assert forall l: nat :: l < STAGES ==> LineOf(keys, l) == LinesOf(keys)[l];
      }
    }

    /** The session starts over: nothing captured, nothing projected, no block. */
    method Reset()
      requires Valid()
      modifies this, session, session.positions
      ensures Valid() && !kvValid && kvEnd == 0 && session.count == 0 && session.rewindEnd == 0
      ensures session.Ring() == Cleared(old(session.Ring()))
    {
      for k := 0 to RING
        invariant Valid() && session.rewindEnd == old(session.rewindEnd)
        invariant forall s: nat :: s < RING ==>
                    ColumnOf(session.positions, s) == if s < k then [NOWHERE, NOWHERE, NOWHERE] else old(ColumnOf(session.positions, s))
      {
        WriteColumn(session.positions, k, [NOWHERE, NOWHERE, NOWHERE]);
      }
      session.count, session.rewindEnd := 0, 0;
      kvEnd, kvValid := 0, false;
    }
  }

  lemma SeededLine(project: Project, st: nat, line: Column, r: Column, ring: seq<RingSlot>, lo: nat, hi: nat)
    requires |ring| == RING && |line| == |r| == RING + SCRATCH && lo <= hi <= lo + RING
    requires forall p: nat :: lo <= p < hi ==> r[Slot(p)] == project(st, p, ring[Slot(p)].features)
    requires forall k: nat :: k < |r| && !InSlots(k, lo, hi) ==> r[k] == line[k]
    ensures r == Seeded(project, st, line, ring, lo, hi)
  {
    forall k: nat | k < |r| ensures r[k] == Seeded(project, st, line, ring, lo, hi)[k] {
      if InSlots(k, lo, hi) {
        var p := LastInSlot(k, lo, hi);
        assert r[Slot(p)] == project(st, p, ring[Slot(p)].features);
        SeededAt(project, st, line, ring, lo, hi, p);
      } else {
        SeededElsewhere(project, st, line, ring, lo, hi, k);
      }
    }
  }

  lemma SubSlots(lo: nat, inner: nat, hi: nat)
    requires lo <= inner
    ensures forall k: nat :: InSlots(k, inner, hi) ==> InSlots(k, lo, hi)
  {
  }

  lemma CapturedRing(ring: seq<RingSlot>, r: seq<RingSlot>, pos: nat, rows: seq<Column>)
    requires |ring| == |r| == RING
    requires forall p: nat :: pos <= p && pos + |rows| - RING <= p < pos + |rows| ==>
               r[Slot(p)] == SlotFor(ring[Slot(p)].raw, p, rows[p - pos])
    requires forall k: nat :: k < RING && !InSlots(k, pos, pos + |rows|) ==> r[k] == ring[k]
    ensures r == Capture(ring, pos, rows)
  {
    forall k: nat | k < RING ensures r[k] == Capture(ring, pos, rows)[k] {
      if InSlots(k, pos, pos + |rows|) {
        var p := LastInSlot(k, pos, pos + |rows|);
        assert r[Slot(p)] == SlotFor(ring[Slot(p)].raw, p, rows[p - pos]);
        CaptureAt(ring, pos, rows, p);
      } else {
        CaptureRaw(ring, pos, rows, k);
      }
    }
  }

  lemma LastInSlot(k: nat, lo: nat, hi: nat) returns (p: nat)
    requires InSlots(k, lo, hi)
    ensures lo <= p < hi <= p + RING && Slot(p) == k
  {
    p :| lo <= p < hi && k == Slot(p);
    while p + RING < hi
      invariant lo <= p < hi && Slot(p) == k
      decreases hi - p
    {
      p := p + RING;
    }
  }
}
