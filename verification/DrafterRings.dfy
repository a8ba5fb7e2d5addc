/** The drafter's own rings: the target features each decode step captures, and the keys
    the drafter projects from them. Draft stages use the same key buffer for scratch rows.

    A slot's `raw` part belongs to the target's rings and is ignored here. */
module DrafterRings {
  import opened SpeculativeVerify
  import opened Division

  const SCRATCH: nat := 5

  /** Projects the features of a position to its key row in one stage. */
  type Project = (nat, nat, Column) -> Value

  /** `kv[stage]` has the ring's 128 rows and room for the scratch rows. */
  datatype Drafter = Drafter(
    pos: nat, ring: seq<RingSlot>, kv: seq<Column>, kvEnd: nat, kvValid: bool,
    start: nat, count: nat, rewindEnd: nat, saved: seq<RingSlot>)

  predicate Shaped(d: Drafter) {
    && |d.ring| == RING && |d.saved| == ROWS && d.count <= ROWS && d.pos < NOWHERE
    && |d.kv| == STAGES && (forall st :: 0 <= st < STAGES ==> |d.kv[st]| == RING + SCRATCH)
    && (forall s :: 0 <= s < RING ==> SlotShaped(d.ring[s]))
    && (forall i :: 0 <= i < ROWS ==> SlotShaped(d.saved[i]))
  }

  function SlotFor(raw: Column, p: nat, features: Column): RingSlot {
    RingSlot(raw, features, [p, p, p])
  }

  /** The ring after capturing rows `pos ..`, one slot after another; of a long chunk the
      code copies only the last 128 rows, which is the same. */
  function Capture(ring: seq<RingSlot>, pos: nat, rows: seq<Column>): (r: seq<RingSlot>)
    requires |ring| == RING
    ensures |r| == RING
    decreases |rows|
  {
    if rows == [] then ring
    else
      var n := |rows| - 1;
      var before := Capture(ring, pos, rows[..n]);
      before[Slot(pos + n) := SlotFor(before[Slot(pos + n)].raw, pos + n, rows[n])]
  }

  function Oldest(pos: nat): nat {
    if pos > RING then pos - RING else 0
  }

  /** Where a seed starts: at the keys it already has, or a full window back. */
  function StartOf(kvValid: bool, kvEnd: nat, pos: nat): nat {
    if kvValid && Oldest(pos) <= kvEnd <= pos then kvEnd else Oldest(pos)
  }

  /** The seed's own test for keeping the keys it has. */
  predicate Reuses(d: Drafter) {
    d.kvValid && Oldest(d.pos) <= d.kvEnd <= d.pos
  }

  function SeedStart(d: Drafter): nat {
    StartOf(d.kvValid, d.kvEnd, d.pos)
  }

  predicate Captured(ring: seq<RingSlot>, p: nat)
    requires |ring| == RING
  {
    |ring[Slot(p)].positions| == STAGES && forall st :: 0 <= st < STAGES ==> ring[Slot(p)].positions[st] == p
  }

  predicate Ready(ring: seq<RingSlot>, lo: nat, pos: nat)
    requires |ring| == RING
  {
    0 < pos && forall p: nat :: lo <= p < pos ==> Captured(ring, p)
  }

  predicate SeedReady(d: Drafter)
    requires |d.ring| == RING
  {
    Ready(d.ring, SeedStart(d), d.pos)
  }

  /** A stage's keys with rows `lo` to `hi - 1` projected into their slots. */
  function Seeded(project: Project, st: nat, keys: Column, ring: seq<RingSlot>, lo: nat, hi: nat): (r: Column)
    requires |ring| == RING && |keys| == RING + SCRATCH
    ensures |r| == |keys|
    decreases hi
  {
    if hi <= lo then keys
    else Seeded(project, st, keys, ring, lo, hi - 1)[Slot(hi - 1) := project(st, hi - 1, ring[Slot(hi - 1)].features)]
  }

  function Past(pos: nat): nat {
    if pos < RING then pos else RING
  }

  /** A stage's keys with the draft block's rows behind the past ones. */
  function Scratched(keys: Column, pos: nat, rows: Column): (r: Column)
    requires |keys| == RING + SCRATCH && |rows| == SCRATCH
    ensures |r| == |keys|
  {
    keys[..Past(pos)] + rows + keys[Past(pos) + SCRATCH..]
  }

  /** A stage's keys after the forward pass seeds them and drafts over them. */
  function ForwardKeys(project: Project, d: Drafter, scratch: seq<Column>, st: nat): Column
    requires Shaped(d) && st < STAGES && |scratch| == STAGES && |scratch[st]| == SCRATCH
  {
    Scratched(Seeded(project, st, d.kv[st], d.ring, SeedStart(d), d.pos), d.pos, scratch[st])
  }

  function Forward(project: Project, d: Drafter, scratch: seq<Column>): Drafter
    requires Shaped(d) && |scratch| == STAGES && forall st :: 0 <= st < STAGES ==> |scratch[st]| == SCRATCH
  {
    if d.pos == 0 then d
    else if !SeedReady(d) then d.(kvValid := false)
    else d.(kv := seq(STAGES, st requires 0 <= st < STAGES => ForwardKeys(project, d, scratch, st)), kvEnd := d.pos, kvValid := true)
  }

  function Cleared(ring: seq<RingSlot>): (r: seq<RingSlot>)
    ensures |r| == |ring|
  {
    seq(|ring|, s requires 0 <= s < |ring| => ring[s].(positions := [NOWHERE, NOWHERE, NOWHERE]))
  }

  predicate MayCommitRows(d: Drafter, keep: nat) {
    && 0 < d.count && keep <= d.count && (d.pos == d.start || d.pos == d.rewindEnd)
    && (d.rewindEnd != 0 ==> d.start + keep <= d.rewindEnd)
  }

  // ---- Runs ----------------------------------------------------------------

  /** `truth[p]` are the features of the token accepted at `p`; `block` those of an open or
      just committed block's rows; `used[p]` are the features position `p`'s keys were last
      projected from; below `stable` nothing changed since the last seed; `rows` of the committed
      block are kept. */
  datatype System = System(d: Drafter, truth: seq<Column>, block: seq<Column>, used: seq<Column>, stable: nat, open: bool, rows: nat)

  datatype Action =
    | Advance(rows: seq<Column>)
    /** A step into a dropped row's slot, after which the rewind mark is put back. */
    | Amend(row: Column)
    | VerifyRows(rows: seq<Column>)
    | CommitRows(keep: nat)
    | Draft(scratch: seq<Column>)
    /** Start over, at a position whose features the drafter has not seen. */
    | Reset(truth: seq<Column>)

  predicate RowsShaped(rows: seq<Column>) {
    forall i :: 0 <= i < |rows| ==> |rows[i]| == STAGES
  }

  /** A rewind that would end among corrections, past the rows kept. */
  predicate IntoCorrections(s: System, keep: nat) {
    !s.open && s.rows < keep && s.d.start + s.rows < s.d.pos
  }

  predicate Enabled(s: System, a: Action) {
    && Shaped(s.d)
    && match a
       case Advance(rows) => !s.open && 0 < |rows| && RowsShaped(rows) && s.d.pos + |rows| < NOWHERE
       case VerifyRows(rows) => !s.open && 2 <= |rows| <= ROWS && RowsShaped(rows) && s.d.pos + |rows| < NOWHERE
       case Amend(row) =>
         !s.open && |row| == STAGES && s.d.pos + 1 < NOWHERE && s.d.rewindEnd == s.d.pos != 0 && s.d.pos < s.d.start + s.d.count
       case CommitRows(keep) => MayCommitRows(s.d, keep) && !IntoCorrections(s, keep)
       case Draft(scratch) => |scratch| == STAGES && forall st :: 0 <= st < STAGES ==> |scratch[st]| == SCRATCH
       case Reset(truth) => RowsShaped(truth) && |truth| < NOWHERE
  }

  /** What stays unchanged since the rows in the key ring were projected. */
  function StableAfter(d: Drafter, stable: nat): nat
    requires |d.ring| == RING
  {
    if SeedReady(d) && !(Reuses(d) && stable < d.kvEnd) then d.pos else stable
  }

  /** What the keys were projected from once positions from `start` on are projected anew. */
  function Overlay(used: seq<Column>, truth: seq<Column>, start: nat): (r: seq<Column>)
    ensures |r| == |truth|
  {
    seq(|truth|, p requires 0 <= p < |truth| => if p < start && p < |used| then used[p] else truth[p])
  }

  function UsedAfter(s: System): seq<Column>
    requires |s.d.ring| == RING
  {
    if SeedReady(s.d) then Overlay(s.used, s.truth, SeedStart(s.d)) else s.used
  }

  function Lesser(a: nat, b: nat): nat { if a < b then a else b }

  predicate BlockKnown(s: System) {
    0 < s.d.count ==> s.d.start <= |s.truth| && s.d.count == |s.block|
  }

  function Next(project: Project, s: System, a: Action): System
    requires Enabled(s, a) && BlockKnown(s)
  {
    match a
    case Advance(rows) =>
      s.(d := s.d.(ring := Capture(s.d.ring, s.d.pos, rows), pos := s.d.pos + |rows|, rewindEnd := 0), truth := s.truth + rows)
    case Amend(row) =>
      s.(d := s.d.(ring := Capture(s.d.ring, s.d.pos, [row]), pos := s.d.pos + 1, rewindEnd := s.d.pos + 1), truth := s.truth + [row])
    case VerifyRows(rows) =>
      s.(d := s.d.(ring := Capture(s.d.ring, s.d.pos, rows), saved := Save(s.d.ring, s.d.saved, s.d.pos, |rows|),
                   start := s.d.pos, count := |rows|, rewindEnd := 0), block := rows, open := true)
    case CommitRows(keep) =>
      var end := s.d.start + keep;
      System(s.d.(ring := Restore(s.d.ring, s.d.saved, s.d.start, keep, s.d.count), pos := end, rewindEnd := end),
             s.truth[..s.d.start] + s.block[..keep], s.block, s.used, Lesser(s.stable, end), false, keep)
    case Draft(scratch) => s.(d := Forward(project, s.d, scratch), used := UsedAfter(s), stable := StableAfter(s.d, s.stable))
    case Reset(truth) =>
      System(s.d.(ring := Cleared(s.d.ring), pos := |truth|, kvValid := false, kvEnd := 0, count := 0, rewindEnd := 0), truth, [], s.used, 0, false, 0)
  }

  predicate Initial(s: System) {
    && Shaped(s.d) && s.d.ring == Cleared(s.d.ring) && !s.d.kvValid && s.d.count == 0 && s.d.rewindEnd == 0
    && |s.truth| == s.d.pos && RowsShaped(s.truth) && s.block == [] && s.stable == 0 && !s.open
  }

  ghost predicate IsRun(project: Project, states: seq<System>, actions: seq<Action>) {
    && |states| == |actions| + 1 && Initial(states[0])
    && forall i :: 0 <= i < |actions| ==>
         && Enabled(states[i], actions[i]) && BlockKnown(states[i])
         && states[i + 1] == Next(project, states[i], actions[i])
  }

  // ---- Captured features ---------------------------------------------------

  function Known(s: System): seq<Column> {
    if s.open then s.truth + s.block else s.truth
  }

  /** A slot that claims a position holds that position's features. */
  predicate SlotTrue(r: RingSlot, s: nat, known: seq<Column>) {
    && SlotShaped(r)
    && forall st :: 0 <= st < STAGES ==> StageTrue(r.positions[st], r.features[st], st, s, known)
  }

  predicate StageTrue(p: int, feature: Value, st: nat, s: nat, known: seq<Column>) {
    p != NOWHERE ==> 0 <= p < |known| && Slot(p) == s && st < |known[p]| && feature == known[p][st]
  }

  predicate RingTrue(ring: seq<RingSlot>, known: seq<Column>) {
    |ring| == RING && forall s: nat :: s < RING ==> SlotTrue(ring[s], s, known)
  }

  predicate SavedTrue(saved: seq<RingSlot>, start: nat, n: nat, truth: seq<Column>) {
    n <= |saved| && forall i: nat :: i < n ==> SlotTrue(saved[i], Slot(start + i), truth)
  }

  lemma {:induction false} CaptureTrue(ring: seq<RingSlot>, known: seq<Column>, rows: seq<Column>)
    requires RingTrue(ring, known) && RowsShaped(rows) && |known| + |rows| < NOWHERE
    ensures RingTrue(Capture(ring, |known|, rows), known + rows)
    decreases |rows|
  {
    if rows == [] {
      assert known + rows == known;
    } else {
      var n: nat := |rows| - 1;
      CaptureTrue(ring, known, rows[..n]);
      var before, after := Capture(ring, |known|, rows[..n]), Capture(ring, |known|, rows);
      forall s: nat | s < RING ensures SlotTrue(after[s], s, known + rows) {
        assert SlotTrue(before[s], s, known + rows[..n]);
        if s == Slot(|known| + n) {
          assert |rows[n]| == STAGES;
          forall st | 0 <= st < STAGES ensures StageTrue(after[s].positions[st], after[s].features[st], st, s, known + rows) {
            assert (known + rows)[|known| + n] == rows[n];
          }
        } else {
          MoreKnown(before[s], s, known + rows[..n], known + rows);
        }
      }
    }
  }

  lemma MoreKnown(r: RingSlot, s: nat, known: seq<Column>, more: seq<Column>)
    requires SlotTrue(r, s, known) && |known| <= |more| && more[..|known|] == known
    ensures SlotTrue(r, s, more)
  {
    forall st | 0 <= st < STAGES ensures StageTrue(r.positions[st], r.features[st], st, s, more) {
      assert StageTrue(r.positions[st], r.features[st], st, s, known);
      var p := r.positions[st];
      if p != NOWHERE { assert more[..|known|][p] == more[p]; }
    }
  }

  /** Of a captured chunk the ring holds the last 128 rows, and nothing else changes. */
  lemma {:induction false} CaptureAt(ring: seq<RingSlot>, pos: nat, rows: seq<Column>, p: nat)
    requires |ring| == RING && pos <= p && pos + |rows| - RING <= p < pos + |rows|
    ensures Capture(ring, pos, rows)[Slot(p)] == SlotFor(ring[Slot(p)].raw, p, rows[p - pos])
    decreases |rows|
  {
    var n: nat := |rows| - 1;
    if p < pos + n {
      CaptureAt(ring, pos, rows[..n], p);
      ModDistinct(p, pos + n, RING);
    } else {
      CaptureRaw(ring, pos, rows[..n], Slot(p));
    }
  }

  lemma {:induction false} CaptureRaw(ring: seq<RingSlot>, pos: nat, rows: seq<Column>, s: nat)
    requires |ring| == RING && s < RING
    ensures Capture(ring, pos, rows)[s].raw == ring[s].raw
    ensures !InSlots(s, pos, pos + |rows|) ==> Capture(ring, pos, rows)[s] == ring[s]
    decreases |rows|
  {
    if rows != [] {
      var n: nat := |rows| - 1;
      CaptureRaw(ring, pos, rows[..n], s);
      if !InSlots(s, pos, pos + |rows|) {
        assert s != Slot(pos + n);
        assert !InSlots(s, pos, pos + n);
      }
    }
  }

  /** The saved slots are true of what was accepted before the block. */
  lemma SaveTrue(ring: seq<RingSlot>, saved: seq<RingSlot>, truth: seq<Column>, n: nat)
    requires RingTrue(ring, truth) && n <= |saved|
    ensures SavedTrue(Save(ring, saved, |truth|, n), |truth|, n, truth)
  {
    var r := Save(ring, saved, |truth|, n);
    forall i: nat | i < n ensures SlotTrue(r[i], Slot(|truth| + i), truth) {
      assert r[i] == ring[Slot(|truth| + i)];
    }
  }

  /** With the dropped rows' slots put back, the ring is true of the kept tokens. */
  lemma RestoreTrue(ring: seq<RingSlot>, saved: seq<RingSlot>, known: seq<Column>, kept: seq<Column>, start: nat, keep: nat, n: nat)
    requires RingTrue(ring, known) && keep <= n <= ROWS == |saved|
    requires |kept| == start + keep && |known| <= start + n && SavedTrue(saved, start, n, kept[..start])
    requires forall p :: 0 <= p < |known| && p < |kept| ==> known[p] == kept[p]
    ensures RingTrue(Restore(ring, saved, start, keep, n), kept)
  {
    var r := Restore(ring, saved, start, keep, n);
    forall s: nat | s < RING ensures SlotTrue(r[s], s, kept) {
      if InSlots(s, start + keep, start + n) {
        var p: nat :| start + keep <= p < start + n && s == Slot(p);
        RestoreAt(ring, saved, start, keep, n, p - start);
        assert SlotTrue(saved[p - start], s, kept[..start]);
        MoreKnown(r[s], s, kept[..start], kept);
      } else {
        RestoreElsewhere(ring, saved, start, keep, n, s);
        KeptTrue(ring[s], s, known, kept, start, keep, n);
      }
    }
  }

  lemma KeptTrue(r: RingSlot, s: nat, known: seq<Column>, kept: seq<Column>, start: nat, keep: nat, n: nat)
    requires SlotTrue(r, s, known) && !InSlots(s, start + keep, start + n)
    requires |kept| == start + keep && |known| <= start + n
    requires forall p :: 0 <= p < |known| && p < |kept| ==> known[p] == kept[p]
    ensures SlotTrue(r, s, kept)
  {
    forall st | 0 <= st < STAGES ensures StageTrue(r.positions[st], r.features[st], st, s, kept) {
      var p := r.positions[st];
      assert StageTrue(p, r.features[st], st, s, known);
      if p != NOWHERE {
        assert Slot(p) == s;
        assert !(start + keep <= p < start + n);
      }
    }
  }

  /** What a commit that is let through finds: the tokens so far are the block's start, the rows
      kept, and their corrections. */
  predicate Rewindable(s: System) {
    var depth := s.d.pos - s.d.start;
    && BlockKnown(s)
    && (0 < s.d.count && !s.open && (s.d.pos == s.d.start || s.d.pos == s.d.rewindEnd) ==>
          && s.rows <= depth <= s.d.count && s.d.start + s.rows <= |s.truth|
          && s.truth[s.d.start..s.d.start + s.rows] == s.block[..s.rows])
  }

  predicate BlockTrue(s: System) {
    && BlockKnown(s) && RowsShaped(s.truth) && RowsShaped(s.block) && |s.truth| == s.d.pos && s.stable <= s.d.pos
    && (s.open ==> 0 < s.d.count && s.d.start == s.d.pos)
    && (0 < s.d.count ==> s.d.start <= s.d.pos && SavedTrue(s.d.saved, s.d.start, s.d.count, s.truth[..s.d.start]))
    && (0 < s.d.count ==> s.d.start + s.d.count < NOWHERE) && (!s.open && s.d.rewindEnd != 0 ==> 0 < s.d.count)
    && Rewindable(s)
  }

  /** Everything captured is true; the keys are projected from `used`, which below `stable` is
      what was accepted. */
  predicate Inv(project: Project, s: System) {
    && Shaped(s.d) && BlockTrue(s) && RingTrue(s.d.ring, Known(s))
    && (s.d.kvValid ==> KeysTrue(project, s.d.kv, s.d.kvEnd, s.d.kvEnd, s.used) && UsedTrue(s))
  }

  predicate UsedTrue(s: System) {
    && s.stable <= |s.truth| && s.d.kvEnd <= |s.used|
    && forall p: nat :: Oldest(s.d.kvEnd) <= p < Lesser(s.d.kvEnd, s.stable) ==> s.used[p] == s.truth[p]
  }

  predicate KeysTrue(project: Project, kv: seq<Column>, kvEnd: nat, upTo: nat, truth: seq<Column>)
    requires |kv| == STAGES && forall st :: 0 <= st < STAGES ==> |kv[st]| == RING + SCRATCH
  {
    && upTo <= |truth|
    && forall st: nat, p: nat :: st < STAGES && Oldest(kvEnd) <= p < upTo ==> kv[st][Slot(p)] == project(st, p, truth[p])
  }

  lemma ClearedTrue(ring: seq<RingSlot>, known: seq<Column>)
    requires |ring| == RING && forall s :: 0 <= s < RING ==> SlotShaped(ring[s])
    ensures RingTrue(Cleared(ring), known)
  {
  }

  /** As far as both go, what was known and what the commit keeps are the same. */
  lemma KeptKnown(s: System, keep: nat, kept: seq<Column>)
    requires Shaped(s.d) && BlockTrue(s) && MayCommitRows(s.d, keep) && !IntoCorrections(s, keep)
    requires kept == s.truth[..s.d.start] + s.block[..keep]
    ensures |Known(s)| <= s.d.start + s.d.count && |kept| == s.d.start + keep && kept[..s.d.start] == s.truth[..s.d.start]
    ensures forall p :: 0 <= p < |Known(s)| && p < |kept| ==> Known(s)[p] == kept[p]
  {
    hide SavedTrue, RowsShaped;
    if !s.open {
      forall p: nat | p < |s.truth| && p < |kept| ensures s.truth[p] == kept[p] {
        if s.d.start <= p {
          assert s.truth[s.d.start..s.d.start + s.rows][p - s.d.start] == s.block[..s.rows][p - s.d.start];
        }
      }
    }
  }

  /** What a commit leaves but the ring. */
  lemma CommitBlock(project: Project, s: System, keep: nat, t: System)
    requires Shaped(s.d) && BlockTrue(s) && Enabled(s, CommitRows(keep)) && t == Next(project, s, CommitRows(keep))
    ensures BlockTrue(t) && t.truth == s.truth[..s.d.start] + s.block[..keep] && !t.open && t.rows == keep && t.used == s.used
    ensures t.d.pos == |t.truth| == s.d.start + keep && t.stable <= s.stable && t.stable <= t.d.pos
    ensures t.d == s.d.(ring := Restore(s.d.ring, s.d.saved, s.d.start, keep, s.d.count), pos := t.d.pos, rewindEnd := t.d.pos)
  {
    hide Restore, SavedTrue, SlotShaped;
    var kept := s.truth[..s.d.start] + s.block[..keep];
    assert kept[..s.d.start] == s.truth[..s.d.start];
    assert kept[s.d.start..s.d.start + keep] == s.block[..keep];
  }

  lemma CommitKeepsInv(project: Project, s: System, keep: nat)
    requires Inv(project, s) && Enabled(s, CommitRows(keep))
    ensures Inv(project, Next(project, s, CommitRows(keep)))
  {
    hide Next, BlockTrue, RingTrue, Restore, Enabled, MayCommitRows, IntoCorrections, KeysTrue;
    CommitCounts(s, keep);
    var t := Next(project, s, CommitRows(keep));
    CommitBlock(project, s, keep, t);
    KeptKnown(s, keep, t.truth);
    RestoreTrue(s.d.ring, s.d.saved, Known(s), t.truth, s.d.start, keep, s.d.count);
    RingShaped(t.d.ring, t.truth);
  }

  lemma CommitCounts(s: System, keep: nat)
    requires Shaped(s.d) && BlockTrue(s) && Enabled(s, CommitRows(keep))
    ensures MayCommitRows(s.d, keep) && !IntoCorrections(s, keep) && BlockKnown(s) && keep <= s.d.count <= ROWS
    ensures s.d.start <= |s.truth| == s.d.pos && s.d.start + keep < NOWHERE && SavedTrue(s.d.saved, s.d.start, s.d.count, s.truth[..s.d.start])
  {
  }

  lemma RingShaped(ring: seq<RingSlot>, known: seq<Column>)
    requires RingTrue(ring, known)
    ensures forall s :: 0 <= s < RING ==> SlotShaped(ring[s])
  {
    forall s: nat | s < RING ensures SlotShaped(ring[s]) {
      assert SlotTrue(ring[s], s, known);
    }
  }

  lemma AdvanceKeepsInv(project: Project, s: System, rows: seq<Column>)
    requires Inv(project, s) && Enabled(s, Advance(rows))
    ensures Inv(project, Next(project, s, Advance(rows)))
  {
    var t := Next(project, s, Advance(rows));
    CaptureTrue(s.d.ring, s.truth, rows);
    RingShaped(t.d.ring, t.truth);
    if 0 < s.d.count { assert t.truth[..s.d.start] == s.truth[..s.d.start]; }
  }

  lemma CorrectionKeepsInv(project: Project, s: System, row: Column)
    requires Inv(project, s) && Enabled(s, Amend(row))
    ensures Inv(project, Next(project, s, Amend(row)))
  {
    var t := Next(project, s, Amend(row));
    CaptureTrue(s.d.ring, s.truth, [row]);
    RingShaped(t.d.ring, t.truth);
    assert t.truth[..s.d.start] == s.truth[..s.d.start];
    assert t.truth[s.d.start..s.d.start + s.rows] == s.truth[s.d.start..s.d.start + s.rows];
  }

  lemma VerifyKeepsInv(project: Project, s: System, rows: seq<Column>)
    requires Inv(project, s) && Enabled(s, VerifyRows(rows))
    ensures Inv(project, Next(project, s, VerifyRows(rows)))
  {
    var t := Next(project, s, VerifyRows(rows));
    CaptureTrue(s.d.ring, s.truth, rows);
    RingShaped(t.d.ring, s.truth + rows);
    SaveTrue(s.d.ring, s.d.saved, s.truth, |rows|);
    assert s.truth[..s.d.pos] == s.truth;
    forall i | 0 <= i < ROWS ensures SlotShaped(t.d.saved[i]) {
      assert i < |rows| ==> t.d.saved[i] == s.d.ring[Slot(s.d.pos + i)];
    }
  }

  // ---- Projected keys ------------------------------------------------------

  lemma {:induction false} SeededAt(project: Project, st: nat, keys: Column, ring: seq<RingSlot>, lo: nat, hi: nat, p: nat)
    requires |ring| == RING && |keys| == RING + SCRATCH && hi <= p + RING
    ensures lo <= p < hi ==> Seeded(project, st, keys, ring, lo, hi)[Slot(p)] == project(st, p, ring[Slot(p)].features)
    ensures p < lo ==> Seeded(project, st, keys, ring, lo, hi)[Slot(p)] == keys[Slot(p)]
    decreases hi
  {
    if lo < hi {
      SeededAt(project, st, keys, ring, lo, hi - 1, p);
      if p < hi - 1 { ModDistinct(p, hi - 1, RING); }
    }
  }

  lemma {:induction false} SeededElsewhere(project: Project, st: nat, keys: Column, ring: seq<RingSlot>, lo: nat, hi: nat, k: nat)
    requires |ring| == RING && |keys| == RING + SCRATCH && k < |keys| && !InSlots(k, lo, hi)
    ensures Seeded(project, st, keys, ring, lo, hi)[k] == keys[k]
    decreases hi
  {
    if lo < hi {
      assert !InSlots(k, lo, hi - 1);
      SeededElsewhere(project, st, keys, ring, lo, hi - 1, k);
    }
  }

  /** The scratch rows lie behind every row a live position uses. */
  lemma ScratchBeyond(keys: Column, pos: nat, rows: Column, p: nat)
    requires |keys| == RING + SCRATCH && |rows| == SCRATCH && p < pos
    ensures Slot(p) < Past(pos) && Scratched(keys, pos, rows)[Slot(p)] == keys[Slot(p)]
  {
  }

  lemma CapturedFeatures(d: Drafter, truth: seq<Column>, known: seq<Column>, p: nat)
    requires Shaped(d) && RingTrue(d.ring, known) && p < |truth| <= |known| && known[..|truth|] == truth && RowsShaped(truth)
    requires Captured(d.ring, p) && p < NOWHERE
    ensures d.ring[Slot(p)].features == truth[p]
  {
    var r := d.ring[Slot(p)];
    assert SlotTrue(r, Slot(p), known);
    assert known[p] == known[..|truth|][p] == truth[p];
    forall st: nat | st < STAGES ensures r.features[st] == truth[p][st] {
      assert StageTrue(r.positions[st], r.features[st], st, Slot(p), known);
    }
    assert |truth[p]| == STAGES;
  }

  /** One key row after a forward pass. */
  lemma ForwardKey(project: Project, s: System, scratch: seq<Column>, st: nat, p: nat)
    requires Inv(project, s) && Enabled(s, Draft(scratch)) && SeedReady(s.d) && st < STAGES
    requires Oldest(s.d.pos) <= p < s.d.pos
    ensures ForwardKeys(project, s.d, scratch, st)[Slot(p)] == project(st, p, UsedAfter(s)[p])
  {
    var d, lo := s.d, SeedStart(s.d);
    ScratchBeyond(Seeded(project, st, d.kv[st], d.ring, lo, d.pos), d.pos, scratch[st], p);
    SeededAt(project, st, d.kv[st], d.ring, lo, d.pos, p);
    if lo <= p {
      assert Captured(d.ring, p);
      assert Known(s)[..|s.truth|] == s.truth;
      CapturedFeatures(d, s.truth, Known(s), p);
    }
  }

  lemma DraftKeepsInv(project: Project, s: System, scratch: seq<Column>)
    requires Inv(project, s) && Enabled(s, Draft(scratch))
    ensures Inv(project, Next(project, s, Draft(scratch)))
  {
    hide RingTrue, Captured, Seeded, Scratched, SavedTrue;
    var t := Next(project, s, Draft(scratch));
    if SeedReady(s.d) {
      forall st: nat, p: nat | st < STAGES && Oldest(t.d.kvEnd) <= p < t.d.kvEnd
        ensures t.d.kv[st][Slot(p)] == project(st, p, t.used[p])
      {
        ForwardKey(project, s, scratch, st, p);
      }
      forall p: nat | Oldest(t.d.kvEnd) <= p < Lesser(t.d.kvEnd, t.stable) ensures t.used[p] == t.truth[p] {
        assert p < SeedStart(s.d) ==> s.used[p] == s.truth[p];
      }
    }
  }

  lemma ResetKeepsInv(project: Project, s: System, truth: seq<Column>)
    requires Inv(project, s) && Enabled(s, Reset(truth))
    ensures Inv(project, Next(project, s, Reset(truth)))
  {
    ClearedTrue(s.d.ring, truth);
  }

  lemma NextKeepsInv(project: Project, s: System, a: Action)
    requires Inv(project, s) && Enabled(s, a)
    ensures Inv(project, Next(project, s, a))
  {
    match a {
      case Advance(rows) => AdvanceKeepsInv(project, s, rows);
      case Amend(row) => CorrectionKeepsInv(project, s, row);
      case VerifyRows(rows) => VerifyKeepsInv(project, s, rows);
      case CommitRows(keep) => CommitKeepsInv(project, s, keep);
      case Draft(scratch) => DraftKeepsInv(project, s, scratch);
      case Reset(truth) => ResetKeepsInv(project, s, truth);
    }
  }

  lemma {:induction false} RunInv(project: Project, states: seq<System>, actions: seq<Action>, i: nat)
    requires IsRun(project, states, actions) && i < |states|
    ensures Inv(project, states[i])
  {
    if i == 0 {
      ClearedTrue(states[0].d.ring, states[0].truth);
    } else {
      RunInv(project, states, actions, i - 1);
      NextKeepsInv(project, states[i - 1], actions[i - 1]);
    }
  }

  /** The key row of every live position is projected from the features accepted there. */
  predicate LiveKeysTrue(project: Project, s: System)
    requires Shaped(s.d)
  {
    s.d.kvEnd <= |s.truth| && KeysTrue(project, s.d.kv, s.d.kvEnd, s.d.kvEnd, s.truth)
  }

  /** What position `p`'s keys were projected from and what was accepted there have the same key. */
  predicate SameKey(project: Project, s: System, st: nat, p: nat) {
    p < |s.used| && p < |s.truth| && project(st, p, s.used[p]) == project(st, p, s.truth[p])
  }

  /** The positions `lo .. hi` that changed since they were projected have the keys they had. */
  predicate Unchanged(project: Project, s: System, lo: nat, hi: nat) {
    forall st: nat, p: nat :: st < STAGES && lo <= p < hi && s.stable <= p ==> SameKey(project, s, st, p)
  }

  lemma LiveKeysExact(project: Project, s: System)
    requires Inv(project, s) && s.d.kvValid
    ensures LiveKeysTrue(project, s) <==> s.d.kvEnd <= s.d.pos && Unchanged(project, s, Oldest(s.d.kvEnd), s.d.kvEnd)
  {
    if s.d.kvEnd <= s.d.pos && Unchanged(project, s, Oldest(s.d.kvEnd), s.d.kvEnd) {
      forall st: nat, p: nat | st < STAGES && Oldest(s.d.kvEnd) <= p < s.d.kvEnd
        ensures s.d.kv[st][Slot(p)] == project(st, p, s.truth[p])
      {
        assert s.stable <= p ==> SameKey(project, s, st, p);
      }
    }
    if LiveKeysTrue(project, s) {
      forall st: nat, p: nat | st < STAGES && Oldest(s.d.kvEnd) <= p < s.d.kvEnd && s.stable <= p ensures SameKey(project, s, st, p) {
        assert s.d.kv[st][Slot(p)] == project(st, p, s.used[p]);
      }
    }
  }

  /** After a draft the live keys are right exactly when the seed did not keep a key whose
      position has had other features accepted since: it drops its keys, or those it keeps
      are below `stable`, or what was accepted since has the same keys. */
  lemma DraftExact(project: Project, s: System, scratch: seq<Column>)
    requires Inv(project, s) && Enabled(s, Draft(scratch)) && SeedReady(s.d)
    ensures var t := Next(project, s, Draft(scratch));
            && t.d.kvValid && t.d.kvEnd == t.d.pos && Shaped(t.d)
            && (LiveKeysTrue(project, t) <==> (Reuses(s.d) ==> Unchanged(project, s, Oldest(s.d.pos), s.d.kvEnd)))
  {
    var t, lo := Next(project, s, Draft(scratch)), Oldest(s.d.pos);
    DraftKeepsInv(project, s, scratch);
    LiveKeysExact(project, t);
    if Unchanged(project, s, lo, SeedStart(s.d)) {
      forall st: nat, p: nat | st < STAGES && lo <= p < t.d.kvEnd && t.stable <= p ensures SameKey(project, t, st, p) {
        assert p < SeedStart(s.d) ==> SameKey(project, s, st, p);
      }
    }
    if Unchanged(project, t, lo, t.d.kvEnd) && Reuses(s.d) {
      forall st: nat, p: nat | st < STAGES && lo <= p < s.d.kvEnd && s.stable <= p ensures SameKey(project, s, st, p) {
        assert SameKey(project, t, st, p);
      }
    }
  }

  predicate Drafts(s: System, a: Action) {
    Shaped(s.d) && a.Draft? && SeedReady(s.d)
  }

  /** A draft whose seed keeps keys of positions that changed since they were projected. */
  predicate ReusesChanged(s: System, a: Action) {
    Drafts(s, a) && Reuses(s.d) && s.stable < s.d.kvEnd
  }

  /** The keys step `i` leaves are right if it drafts. */
  predicate DraftRight(project: Project, states: seq<System>, actions: seq<Action>, i: nat)
    requires i < |actions| && |states| == |actions| + 1
  {
    Drafts(states[i], actions[i]) ==> Shaped(states[i + 1].d) && LiveKeysTrue(project, states[i + 1])
  }

  /** Step `i` does not keep a key that what was accepted since would change. */
  predicate DraftSound(project: Project, states: seq<System>, actions: seq<Action>, i: nat)
    requires i < |actions| && |states| == |actions| + 1
  {
    var s := states[i];
    Drafts(s, actions[i]) && Reuses(s.d) ==> Unchanged(project, s, Oldest(s.d.pos), s.d.kvEnd)
  }

  /** Main result. In every run, a draft leaves every live key row projected from the feature
      accepted at its position exactly when its seed does not keep a key that what was accepted
      since would change; so it does whenever the seed keeps no keys from `stable` on. Between
      drafts the keys stay right if they end at or below `stable`, and a slot that claims a
      position always holds that position's feature. */
  lemma LiveKeysProjected(project: Project, states: seq<System>, actions: seq<Action>, i: nat)
    requires IsRun(project, states, actions) && i < |states|
    ensures Shaped(states[i].d) && RingTrue(states[i].d.ring, Known(states[i]))
    ensures i < |actions| ==> (DraftRight(project, states, actions, i) <==> DraftSound(project, states, actions, i))
    ensures i < |actions| && !ReusesChanged(states[i], actions[i]) ==> DraftRight(project, states, actions, i)
    ensures states[i].d.kvValid && states[i].d.kvEnd <= states[i].stable ==> LiveKeysTrue(project, states[i])
  {
    var s := states[i];
    RunInv(project, states, actions, i);
    if s.d.kvValid { LiveKeysExact(project, s); }
    if i < |actions| && Drafts(s, actions[i]) {
      DraftExact(project, s, actions[i].scratch);
    }
  }

  /** With a projection that tells features apart, the condition is one on the features alone. */
  lemma UnchangedFeatures(project: Project, s: System, lo: nat, hi: nat)
    requires hi <= |s.used| && hi <= |s.truth|
    requires forall st: nat, p: nat, f, g :: project(st, p, f) == project(st, p, g) ==> f == g
    ensures Unchanged(project, s, lo, hi) <==> forall p: nat :: lo <= p < hi && s.stable <= p ==> s.used[p] == s.truth[p]
  {
    if Unchanged(project, s, lo, hi) {
      forall p: nat | lo <= p < hi && s.stable <= p ensures s.used[p] == s.truth[p] {
        assert SameKey(project, s, 0, p);
      }
    }
  }

  /** No commit takes the position below the projected keys. */
  predicate CommitsAboveKeys(states: seq<System>, actions: seq<Action>) {
    |states| == |actions| + 1 &&
    forall i :: 0 <= i < |actions| ==> CommitAboveKeys(states[i].d, actions[i])
  }

  predicate CommitAboveKeys(d: Drafter, a: Action) {
    a.CommitRows? && d.kvValid ==> d.kvEnd <= d.start + a.keep
  }

  predicate KeysBelow(s: System) {
    s.d.kvValid ==> s.d.kvEnd <= s.stable
  }

  lemma NextKeysBelow(project: Project, s: System, a: Action)
    requires Inv(project, s) && Enabled(s, a) && KeysBelow(s) && CommitAboveKeys(s.d, a)
    ensures KeysBelow(Next(project, s, a))
  {
  }

  lemma {:induction false} KeysStable(project: Project, states: seq<System>, actions: seq<Action>, i: nat)
    requires IsRun(project, states, actions) && i < |states| && CommitsAboveKeys(states, actions)
    ensures KeysBelow(states[i])
  {
    if i > 0 {
      KeysStable(project, states, actions, i - 1);
      RunInv(project, states, actions, i - 1);
      assert CommitAboveKeys(states[i - 1].d, actions[i - 1]);
      NextKeysBelow(project, states[i - 1], actions[i - 1]);
    }
  }

  /** If no commit goes below the projected keys, the live keys are right in every state. */
  lemma LiveKeysThroughout(project: Project, states: seq<System>, actions: seq<Action>, i: nat)
    requires IsRun(project, states, actions) && i < |states| && CommitsAboveKeys(states, actions) && states[i].d.kvValid
    ensures Shaped(states[i].d) && LiveKeysTrue(project, states[i])
  {
    KeysStable(project, states, actions, i);
    LiveKeysProjected(project, states, actions, i);
  }

  // ---- Where it fails ------------------------------------------------------

  /** A rewind below the keys with a draft straight after it drops the keys: all live rows are right. */
  lemma RewindThenDraftRight(project: Project, s: System, keep: nat, scratch: seq<Column>)
    requires Inv(project, s) && Enabled(s, CommitRows(keep)) && s.d.start + keep < s.d.kvEnd
    requires Drafts(Next(project, s, CommitRows(keep)), Draft(scratch)) && Enabled(Next(project, s, CommitRows(keep)), Draft(scratch))
    ensures var v := Next(project, Next(project, s, CommitRows(keep)), Draft(scratch)); Shaped(v.d) && LiveKeysTrue(project, v)
  {
    CommitKeepsInv(project, s, keep);
    DraftExact(project, Next(project, s, CommitRows(keep)), scratch);
  }

  /** Decoding `rows` after a rewind below the keys leaves them ready to be taken for current,
      as long as the window still begins at or before their end. */
  lemma RowsReady(project: Project, t: System, rows: seq<Column>)
    requires Inv(project, t) && Enabled(t, Advance(rows)) && t.d.kvValid && t.d.pos < t.d.kvEnd <= t.d.pos + |rows| <= t.d.kvEnd + RING
    ensures var u := Next(project, t, Advance(rows)); Reuses(u.d) && SeedReady(u.d)
  {
    var u := Next(project, t, Advance(rows));
    forall p: nat | u.d.kvEnd <= p < u.d.pos ensures Captured(u.d.ring, p) {
      CaptureAt(t.d.ring, t.d.pos, rows, p);
    }
  }

  /** Decoding `rows` from below the keys and drafting: one live position `q` with other features
      is enough to make the keys stale. */
  lemma StaleDraft(project: Project, t: System, rows: seq<Column>, scratch: seq<Column>, stage: nat, q: nat)
    requires Inv(project, t) && t.d.kvValid && Enabled(t, Advance(rows)) && stage < STAGES && t.stable <= t.d.pos
    requires t.d.pos <= q < t.d.kvEnd <= t.d.pos + |rows| <= t.d.kvEnd + RING && Oldest(t.d.pos + |rows|) <= q
    requires q < |t.used| && project(stage, q, rows[q - t.d.pos]) != project(stage, q, t.used[q])
    requires |scratch| == STAGES && forall st :: 0 <= st < STAGES ==> |scratch[st]| == SCRATCH
    ensures var u := Next(project, t, Advance(rows));
            && Enabled(u, Draft(scratch)) && BlockKnown(u)
            && var v := Next(project, u, Draft(scratch));
            && v.d.kvValid && v.d.kvEnd == v.d.pos && Shaped(v.d) && !LiveKeysTrue(project, v)
  {
    hide Capture, LiveKeysTrue, KeysTrue, RingTrue, BlockTrue, Forward, Reuses, SeedReady;
    TruthLength(t);
    AdvanceKeepsInv(project, t, rows);
    var u := Next(project, t, Advance(rows));
    assert Enabled(u, Draft(scratch));
    RowsReady(project, t, rows);
    DraftExact(project, u, scratch);
    assert u.truth[q] == rows[q - t.d.pos];
    assert !SameKey(project, u, stage, q);
  }

  lemma TruthLength(s: System)
    requires BlockTrue(s)
    ensures |s.truth| == s.d.pos && BlockKnown(s)
  {
  }

  lemma AdvanceEnabled(project: Project, t: System, rows: seq<Column>)
    requires Inv(project, t) && !t.open && RowsShaped(rows) && 0 < |rows| && t.d.pos + |rows| < NOWHERE
    ensures Enabled(t, Advance(rows))
  {
  }

  /** Rewind below the keys and decode until the seed's test passes again: the draft takes the
      keys for current, and one live position `q` with other features is enough to make them stale. */
  lemma RewindBelowKeysStale(project: Project, s: System, keep: nat, rows: seq<Column>, scratch: seq<Column>,
                             stage: nat, q: nat)
    requires Inv(project, s) && s.d.kvValid && Enabled(s, CommitRows(keep)) && BlockKnown(s)
    requires var pos := s.d.start + keep;
             && pos <= q < s.d.kvEnd <= pos + |rows| <= s.d.kvEnd + RING && Oldest(pos + |rows|) <= q && stage < STAGES
             && q < |s.used| && project(stage, q, rows[q - pos]) != project(stage, q, s.used[q])
    requires RowsShaped(rows) && s.d.start + keep + |rows| < NOWHERE
    requires |scratch| == STAGES && forall st :: 0 <= st < STAGES ==> |scratch[st]| == SCRATCH
    ensures var t := Next(project, s, CommitRows(keep));
            && Enabled(t, Advance(rows)) && BlockKnown(t)
            && var u := Next(project, t, Advance(rows));
            && Enabled(u, Draft(scratch)) && BlockKnown(u)
            && var v := Next(project, u, Draft(scratch));
            && v.d.kvValid && v.d.kvEnd == v.d.pos && Shaped(v.d) && !LiveKeysTrue(project, v)
  {
    hide Next, BlockTrue, RingTrue, KeysTrue, LiveKeysTrue, Reuses, SeedReady, Enabled;
    CommitKeepsInv(project, s, keep);
    var t := Next(project, s, CommitRows(keep));
    CommitBlock(project, s, keep, t);
    TruthLength(t);
    AdvanceEnabled(project, t, rows);
    StaleDraft(project, t, rows, scratch, stage, q);
  }

  // ---- A run that ends in stale keys ---------------------------------------

  /** Some run of these actions ends in `s`. */
  ghost predicate Reached(project: Project, actions: seq<Action>, s: System) {
    exists states :: IsRun(project, states, actions) && states[|actions|] == s
  }

  lemma ReachedNext(project: Project, actions: seq<Action>, s: System, a: Action)
    requires Reached(project, actions, s) && Enabled(s, a)
    ensures Inv(project, s) && BlockKnown(s) && Reached(project, actions + [a], Next(project, s, a)) && Inv(project, Next(project, s, a))
  {
    hide Inv, Enabled, Next;
    var states :| IsRun(project, states, actions) && states[|actions|] == s;
    RunInv(project, states, actions, |actions|);
    InvKnown(project, s);
    NextKeepsInv(project, s, a);
    assert IsRun(project, states + [Next(project, s, a)], actions + [a]);
  }

  lemma InvKnown(project: Project, s: System)
    requires Inv(project, s)
    ensures BlockKnown(s) && Shaped(s.d)
  {
  }

  function Empty(): (s: System)
    ensures Initial(s) && s.d.pos == 0 && s.d.rewindEnd == 0 && s.truth == []
  {
    var slot := RingSlot(seq(LAYERS, _ => 0), [0, 0, 0], [NOWHERE, NOWHERE, NOWHERE]);
    System(Drafter(0, seq(RING, _ => slot), seq(STAGES, _ => seq(RING + SCRATCH, _ => 0)), 0, false, 0, 0, 0, seq(ROWS, _ => slot)),
           [], [], [], 0, false, 0)
  }

  /** After one token and a block of two that is kept whole, every position is captured. */
  lemma BlockReady(ring: seq<RingSlot>, f: Column, block: seq<Column>)
    requires |ring| == RING && |block| == 2
    ensures Ready(Capture(Capture(ring, 0, [f]), 1, block), 0, 3)
  {
    var one := Capture(ring, 0, [f]);
    var two := Capture(one, 1, block);
    CaptureAt(ring, 0, [f], 0);
    assert !InSlots(0, 1, 3);
    CaptureRaw(one, 1, block, 0);
    forall p: nat | p < 3 ensures Captured(two, p) {
      if p > 0 { CaptureAt(one, 1, block, p); }
    }
  }

  /** Decode a token and verify a block of two. */
  lemma BlockReached(project: Project, f: Column, a: Column, b: Column) returns (s: System)
    requires |f| == |a| == |b| == STAGES
    ensures Reached(project, [Advance([f]), VerifyRows([a, b])], s) && Inv(project, s)
    ensures !s.d.kvValid && s.d.start == 1 && s.d.count == 2 && s.d.pos == 1 && s.open && s.truth == [f] && s.block == [a, b]
    ensures s.d.rewindEnd == 0 && |s.d.ring| == RING && Ready(s.d.ring, 0, 3)
  {
    hide Capture, Save, Ready, Inv, Reached;
    var s0 := Empty();
    EmptyReached(project);
    ReachedNext(project, [], s0, Advance([f]));
    var s1 := Next(project, s0, Advance([f]));
    assert [] + [Advance([f])] == [Advance([f])] && [] + [f] == [f];
    InvKnown(project, s1);
    ReachedNext(project, [Advance([f])], s1, VerifyRows([a, b]));
    s := Next(project, s1, VerifyRows([a, b]));
    assert [Advance([f])] + [VerifyRows([a, b])] == [Advance([f]), VerifyRows([a, b])];
    BlockReady(s0.d.ring, f, [a, b]);
  }

  lemma EmptyReached(project: Project)
    ensures Reached(project, [], Empty())
  {
    assert IsRun(project, [Empty()], []);
  }

  /** The block kept and a draft put keys for three positions in place. */
  lemma KeysReached(project: Project, f: Column, a: Column, b: Column, scratch: seq<Column>) returns (s: System)
    requires |f| == |a| == |b| == STAGES && |scratch| == STAGES && forall st :: 0 <= st < STAGES ==> |scratch[st]| == SCRATCH
    ensures Reached(project, [Advance([f]), VerifyRows([a, b]), CommitRows(2), Draft(scratch)], s)
    ensures Inv(project, s) && BlockKnown(s) && Enabled(s, CommitRows(1)) && s.d.kvValid && s.d.kvEnd == 3 && s.d.start == 1
    ensures |s.used| == 3 && s.used[2] == b
  {
    hide Inv, Reached, Capture, Save, Forward, Ready;
    var s2 := BlockReached(project, f, a, b);
    var actions := [Advance([f]), VerifyRows([a, b])];
    InvKnown(project, s2);
    ReachedNext(project, actions, s2, CommitRows(2));
    var s3 := Next(project, s2, CommitRows(2));
    InvKnown(project, s3);
    ReachedNext(project, actions + [CommitRows(2)], s3, Draft(scratch));
    s := Next(project, s3, Draft(scratch));
    assert SeedReady(s3.d);
    DraftExact(project, s3, scratch);
    DraftFrame(project, s3, scratch);
    assert actions + [CommitRows(2)] + [Draft(scratch)] == [Advance([f]), VerifyRows([a, b]), CommitRows(2), Draft(scratch)];
    InvKnown(project, s);
  }

  /** A draft changes the keys only. */
  lemma DraftFrame(project: Project, s: System, scratch: seq<Column>)
    requires Enabled(s, Draft(scratch)) && BlockKnown(s)
    ensures var t := Next(project, s, Draft(scratch));
            && t.d.(kv := s.d.kv, kvEnd := s.d.kvEnd, kvValid := s.d.kvValid) == s.d
            && t.truth == s.truth && t.block == s.block && t.open == s.open && t.rows == s.rows
  {
  }

  /** A run from the start that ends in stale keys: decode a token, keep a block of two, draft,
      take the second row back, decode another token in its place, and draft again. */
  lemma StaleRun(project: Project, f: Column, a: Column, b: Column, c: Column, scratch: seq<Column>) returns (s: System)
    requires |f| == |a| == |b| == |c| == STAGES && |scratch| == STAGES && forall st :: 0 <= st < STAGES ==> |scratch[st]| == SCRATCH
    requires project(0, 2, b) != project(0, 2, c)
    ensures Reached(project, [Advance([f]), VerifyRows([a, b]), CommitRows(2), Draft(scratch), CommitRows(1), Advance([c]), Draft(scratch)], s)
    ensures s.d.kvValid && Shaped(s.d) && !LiveKeysTrue(project, s)
  {
    hide Inv, Reached, Next, Enabled, LiveKeysTrue;
    var s4 := KeysReached(project, f, a, b, scratch);
    var actions := [Advance([f]), VerifyRows([a, b]), CommitRows(2), Draft(scratch)];
    RewindBelowKeysStale(project, s4, 1, [c], scratch, 0, 2);
    ReachedNext(project, actions, s4, CommitRows(1));
    var s5 := Next(project, s4, CommitRows(1));
    ReachedNext(project, actions + [CommitRows(1)], s5, Advance([c]));
    var s6 := Next(project, s5, Advance([c]));
    ReachedNext(project, actions + [CommitRows(1)] + [Advance([c])], s6, Draft(scratch));
    s := Next(project, s6, Draft(scratch));
    assert actions + [CommitRows(1)] + [Advance([c])] + [Draft(scratch)]
        == [Advance([f]), VerifyRows([a, b]), CommitRows(2), Draft(scratch), CommitRows(1), Advance([c]), Draft(scratch)];
  }
}
