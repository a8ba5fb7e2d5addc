/** A speculative block on ring caches: verify writes up to six rows over the session's
    rings, commit keeps a prefix of them and restores the rest.

    The model's arithmetic is a parameter: `eval` maps what a decode step can see, and a
    token, to everything the step produces. */
module SpeculativeVerify {
  import opened TokenHash
  import opened Division

  const RING: nat := 128
  const ROWS: nat := 6
  const LAYERS: nat := 40
  const STAGES: nat := 3
  const OWNERS: nat := 4
  /** A drafter position no row has, as the reset leaves it. */
  const NOWHERE: int := 0xffff_ffff

  /** One tensor row. */
  type Value = int
  type Column = seq<Value>

  /** What slot `p % 128` of every ring holds: the layers' raw keys and the drafter's
      features with their positions. */
  datatype RingSlot = RingSlot(raw: Column, features: Column, positions: Column)

  datatype Graph = Graph(
    pos: nat, history: Value, ring: seq<RingSlot>, carries: seq<Value>, compressed: seq<Column>,
    residual: Value, pre: Value, logits: Value)

  /** What one decode step can see: compressed entries beyond the frontier are not in it. */
  datatype Visible = Visible(pos: nat, history: Value, raw: seq<Column>, carries: seq<Value>, compressed: seq<Column>)

  datatype Output = Output(
    history: Value, raw: Column, features: Column, carries: seq<Value>, entries: seq<Value>,
    residual: Value, pre: Value, logits: Value)

  type Eval = (Visible, Token) -> Output

  function Ratio(owner: nat): nat { if owner < 3 then 2 else 1 }

  function Slot(p: nat): nat { p % RING }

  predicate Shaped(g: Graph) {
    && |g.ring| == RING && |g.carries| == OWNERS && |g.compressed| == OWNERS
    && (forall s :: 0 <= s < RING ==> SlotShaped(g.ring[s]))
    && (forall o :: 0 <= o < OWNERS ==> g.pos <= |g.compressed[o]|)
  }

  predicate SlotShaped(r: RingSlot) {
    |r.raw| == LAYERS && |r.features| == STAGES && |r.positions| == STAGES
  }

  ghost predicate EvalShaped(eval: Eval) {
    forall v, t :: OutputShaped(eval(v, t))
  }

  predicate OutputShaped(o: Output) {
    |o.raw| == LAYERS && |o.features| == STAGES && |o.carries| == OWNERS && |o.entries| == OWNERS
  }

  function Live(column: Column, n: nat): Column {
    if n <= |column| then column[..n] else column
  }

  function See(g: Graph): Visible {
    Visible(g.pos, g.history, seq(|g.ring|, s requires 0 <= s < |g.ring| => g.ring[s].raw), g.carries,
            seq(|g.compressed|, o requires 0 <= o < |g.compressed| => Live(g.compressed[o], g.pos / Ratio(o))))
  }

  /** A compressor publishes an entry every `Ratio` positions. */
  function Publish(column: Column, owner: nat, pos: nat, entry: Value): Column {
    var at := (pos + 1) / Ratio(owner);
    if (pos + 1) % Ratio(owner) == 0 && 0 < at <= |column| then column[at - 1 := entry] else column
  }

  function Written(g: Graph, o: Output): RingSlot {
    RingSlot(o.raw, o.features, [g.pos, g.pos, g.pos])
  }

  predicate Sized(g: Graph) {
    |g.ring| == RING && |g.compressed| == OWNERS
  }

  /** One serial decode step. */
  function Step(eval: Eval, g: Graph, t: Token): Graph
    requires Sized(g) && EvalShaped(eval)
  {
    var o := eval(See(g), t);
    Graph(g.pos + 1, o.history, g.ring[Slot(g.pos) := Written(g, o)], o.carries,
          PublishAll(g.compressed, g.pos, o.entries), o.residual, o.pre, o.logits)
  }

  function PublishAll(compressed: seq<Column>, pos: nat, entries: seq<Value>): seq<Column>
    requires |compressed| == |entries| == OWNERS
  {
    [Publish(compressed[0], 0, pos, entries[0]), Publish(compressed[1], 1, pos, entries[1]),
     Publish(compressed[2], 2, pos, entries[2]), Publish(compressed[3], 3, pos, entries[3])]
  }

  function Serial(eval: Eval, g: Graph, tokens: seq<Token>): (r: Graph)
    requires Sized(g) && EvalShaped(eval)
    ensures Sized(r) && r.pos == g.pos + |tokens|
    decreases |tokens|
  {
    if tokens == [] then g else Step(eval, Serial(eval, g, tokens[..|tokens| - 1]), tokens[|tokens| - 1])
  }

  // ---- The block -----------------------------------------------------------

  /** What the block keeps of one row, or of the block's start. */
  datatype Row = Row(pos: nat, history: Value, carries: seq<Value>, residual: Value, pre: Value, logits: Value)

  /** `saved` are the overwritten ring slots; `rows[6]` is the block's start. */
  datatype Block = Block(start: nat, count: nat, rewindEnd: nat, saved: seq<RingSlot>, rows: seq<Row>)

  datatype State = State(g: Graph, b: Block, ctx: nat)

  predicate StateShaped(s: State) {
    && Shaped(s.g) && s.g.pos <= s.ctx && |s.b.saved| == ROWS && |s.b.rows| == ROWS + 1
    && (forall i :: 0 <= i < ROWS ==> SlotShaped(s.b.saved[i]))
    && (forall o :: 0 <= o < OWNERS ==> |s.g.compressed[o]| == s.ctx)
  }

  function RowOf(g: Graph): Row {
    Row(g.pos, g.history, g.carries, g.residual, g.pre, g.logits)
  }

  predicate MayVerify(s: State, n: nat) {
    2 <= n <= ROWS && s.g.pos + n <= s.ctx
  }

  /** The save area with the slots of the block's first `n` rows in it. */
  function Save(ring: seq<RingSlot>, saved: seq<RingSlot>, start: nat, n: nat): (r: seq<RingSlot>)
    requires |ring| == RING && n <= |saved|
    ensures |r| == |saved|
    ensures forall i :: 0 <= i < n ==> r[i] == ring[Slot(start + i)]
    ensures forall i :: n <= i < |saved| ==> r[i] == saved[i]
  {
    if n == 0 then saved else Save(ring, saved, start, n - 1)[n - 1 := ring[Slot(start + n - 1)]]
  }

  /** The block's rows after its first `n` tokens. */
  function BlockRows(eval: Eval, g: Graph, tokens: seq<Token>, n: nat, rows: seq<Row>): (r: seq<Row>)
    requires Sized(g) && EvalShaped(eval) && n <= |tokens| && n <= |rows|
    ensures |r| == |rows|
    ensures forall i :: 0 <= i < n ==> r[i] == RowOf(Serial(eval, g, tokens[..i + 1]))
    ensures forall i :: n <= i < |rows| ==> r[i] == rows[i]
  {
    if n == 0 then rows else BlockRows(eval, g, tokens, n - 1, rows)[n - 1 := RowOf(Serial(eval, g, tokens[..n]))]
  }

  /** Save the slots, then run the rows on the shared rings; the session itself stays at the start. */
  function Verify(eval: Eval, s: State, tokens: seq<Token>): State
    requires StateShaped(s) && EvalShaped(eval) && MayVerify(s, |tokens|)
  {
    var n, end := |tokens|, Serial(eval, s.g, tokens);
    State(s.g.(ring := end.ring, carries := end.carries, compressed := end.compressed),
          Block(s.g.pos, n, 0,
                Save(s.g.ring, s.b.saved, s.g.pos, n),
                BlockRows(eval, s.g, tokens, n, s.b.rows[ROWS := RowOf(s.g)])),
          s.ctx)
  }

  predicate MayCommit(s: State, keep: nat) {
    && 0 < s.b.count && keep <= s.b.count
    && (s.g.pos == s.b.start || s.g.pos == s.b.rewindEnd)
    && (s.b.rewindEnd != 0 ==> s.b.start + keep <= s.b.rewindEnd)
  }

  /** The ring with slots `lo` to `hi - 1` of the block put back. */
  function Restore(ring: seq<RingSlot>, saved: seq<RingSlot>, start: nat, lo: nat, hi: nat): (r: seq<RingSlot>)
    requires |ring| == RING && hi <= |saved|
    ensures |r| == RING
  {
    if hi <= lo then ring else Restore(ring, saved, start, lo, hi - 1)[Slot(start + hi - 1) := saved[hi - 1]]
  }

  function Commit(s: State, keep: nat): State
    requires StateShaped(s) && MayCommit(s, keep) && s.b.count <= ROWS
  {
    var row := s.b.rows[if keep == 0 then ROWS else keep - 1];
    State(Graph(row.pos, row.history, Restore(s.g.ring, s.b.saved, s.b.start, keep, s.b.count), row.carries,
                s.g.compressed, row.residual, row.pre, row.logits),
          s.b.(rewindEnd := row.pos), s.ctx)
  }

  // ---- Refinement ----------------------------------------------------------

  /** Equal in everything but compressed entries beyond the frontier. */
  predicate Same(a: Graph, b: Graph) {
    a.(compressed := []) == b.(compressed := []) && SameLive(a.compressed, b.compressed, a.pos)
  }

  predicate SameLive(a: seq<Column>, b: seq<Column>, pos: nat) {
    |a| == |b| && forall o :: 0 <= o < |a| ==> SameColumn(a[o], b[o], pos / Ratio(o))
  }

  predicate SameColumn(a: Column, b: Column, n: nat) {
    |a| == |b| && forall i :: 0 <= i < n && i < |a| ==> a[i] == b[i]
  }

  lemma SameSeen(a: Graph, b: Graph)
    requires Same(a, b)
    ensures See(a) == See(b)
  {
    forall o | 0 <= o < |a.compressed|
      ensures Live(a.compressed[o], a.pos / Ratio(o)) == Live(b.compressed[o], b.pos / Ratio(o))
    {
      assert SameColumn(a.compressed[o], b.compressed[o], a.pos / Ratio(o));
    }
    assert See(a).compressed == See(b).compressed;
  }

  lemma PublishSame(a: Column, b: Column, owner: nat, pos: nat, entry: Value)
    requires SameColumn(a, b, pos / Ratio(owner))
    ensures SameColumn(Publish(a, owner, pos, entry), Publish(b, owner, pos, entry), (pos + 1) / Ratio(owner))
  {
  }

  lemma SameStep(eval: Eval, a: Graph, b: Graph, t: Token)
    requires Same(a, b) && Sized(a) && EvalShaped(eval)
    ensures Same(Step(eval, a, t), Step(eval, b, t))
  {
    SameSeen(a, b);
    var entries := eval(See(a), t).entries;
    forall k: nat | k < OWNERS ensures SameColumn(a.compressed[k], b.compressed[k], a.pos / Ratio(k)) {
    }
    forall k: nat | k < OWNERS
      ensures SameColumn(Publish(a.compressed[k], k, a.pos, entries[k]), Publish(b.compressed[k], k, a.pos, entries[k]), (a.pos + 1) / Ratio(k))
    {
      PublishSame(a.compressed[k], b.compressed[k], k, a.pos, entries[k]);
    }
  }

  /** Graphs that are the same stay the same under any further decoding. */
  lemma {:induction false} SameSteps(eval: Eval, a: Graph, b: Graph, tokens: seq<Token>)
    requires Same(a, b) && Sized(a) && EvalShaped(eval)
    ensures Same(Serial(eval, a, tokens), Serial(eval, b, tokens))
    decreases |tokens|
  {
    if tokens != [] {
      var k := |tokens| - 1;
      SameSteps(eval, a, b, tokens[..k]);
      SameStep(eval, Serial(eval, a, tokens[..k]), Serial(eval, b, tokens[..k]), tokens[k]);
    }
  }

  lemma PublishBeyond(a: Column, owner: nat, pos: nat, entry: Value, frontier: nat)
    requires frontier <= pos
    ensures SameColumn(Publish(a, owner, pos, entry), a, frontier / Ratio(owner))
  {
  }

  /** Whether slot `s` belongs to one of the positions `lo` to `hi - 1`. */
  predicate InSlots(s: nat, lo: nat, hi: nat) {
    exists p: nat :: lo <= p < hi && s == Slot(p)
  }

  /** Equal outside the slots of positions `lo` to `hi - 1`. */
  predicate Elsewhere(a: seq<RingSlot>, b: seq<RingSlot>, lo: nat, hi: nat) {
    |a| == |b| == RING && forall s: nat :: s < RING && !InSlots(s, lo, hi) ==> a[s] == b[s]
  }

  /** Decoding past `keep` tokens leaves the other slots and the entries before the frontier alone. */
  lemma {:induction false} SerialFrame(eval: Eval, g: Graph, tokens: seq<Token>, keep: nat)
    requires Sized(g) && EvalShaped(eval) && keep <= |tokens|
    ensures var a, b := Serial(eval, g, tokens[..keep]), Serial(eval, g, tokens);
            && SameLive(b.compressed, a.compressed, g.pos + keep)
            && Elsewhere(b.ring, a.ring, g.pos + keep, g.pos + |tokens|)
    decreases |tokens|
  {
    hide Step;
    if keep == |tokens| {
      assert tokens[..keep] == tokens;
    } else {
      var k := |tokens| - 1;
      SerialFrame(eval, g, tokens[..k], keep);
      assert tokens[..k][..keep] == tokens[..keep];
      var a, m, b := Serial(eval, g, tokens[..keep]), Serial(eval, g, tokens[..k]), Serial(eval, g, tokens);
      StepFrame(eval, m, tokens[k], g.pos + keep);
      forall s: nat | s < RING && !InSlots(s, g.pos + keep, g.pos + |tokens|) ensures b.ring[s] == a.ring[s] {
        assert s != Slot(m.pos);
        assert !InSlots(s, g.pos + keep, g.pos + k);
      }
      SameLiveTransitive(b.compressed, m.compressed, a.compressed, g.pos + keep);
    }
  }

  lemma SameLiveTransitive(a: seq<Column>, b: seq<Column>, c: seq<Column>, pos: nat)
    requires SameLive(a, b, pos) && SameLive(b, c, pos)
    ensures SameLive(a, c, pos)
  {
    forall o | 0 <= o < |a| ensures SameColumn(a[o], c[o], pos / Ratio(o)) {
      assert SameColumn(a[o], b[o], pos / Ratio(o)) && SameColumn(b[o], c[o], pos / Ratio(o));
    }
  }

  lemma StepFrame(eval: Eval, g: Graph, t: Token, frontier: nat)
    requires Sized(g) && EvalShaped(eval) && frontier <= g.pos
    ensures SameLive(Step(eval, g, t).compressed, g.compressed, frontier)
    ensures forall s: nat :: s < RING && s != Slot(g.pos) ==> Step(eval, g, t).ring[s] == g.ring[s]
  {
    var entries := eval(See(g), t).entries;
    forall o: nat | o < OWNERS ensures SameColumn(Publish(g.compressed[o], o, g.pos, entries[o]), g.compressed[o], frontier / Ratio(o)) {
      PublishBeyond(g.compressed[o], o, g.pos, entries[o], frontier);
    }
  }

  lemma {:induction false} RestoreElsewhere(ring: seq<RingSlot>, saved: seq<RingSlot>, start: nat, lo: nat, hi: nat, s: nat)
    requires |ring| == RING && lo <= hi <= |saved| && s < RING && !InSlots(s, start + lo, start + hi)
    ensures Restore(ring, saved, start, lo, hi)[s] == ring[s]
    decreases hi
  {
    if lo < hi {
      assert !InSlots(s, start + lo, start + hi - 1);
      RestoreElsewhere(ring, saved, start, lo, hi - 1, s);
    }
  }

  lemma {:induction false} RestoreAt(ring: seq<RingSlot>, saved: seq<RingSlot>, start: nat, lo: nat, hi: nat, i: nat)
    requires |ring| == RING && lo <= i < hi <= |saved| <= ROWS
    ensures Restore(ring, saved, start, lo, hi)[Slot(start + i)] == saved[i]
    decreases hi
  {
    if i < hi - 1 {
      RestoreAt(ring, saved, start, lo, hi - 1, i);
      ModDistinct(start + i, start + hi - 1, RING);
    }
  }

  lemma SlotsApart(a: nat, b: nat, c: nat, p: nat)
    requires a <= b <= p < c <= a + ROWS
    ensures !InSlots(Slot(p), a, b)
  {
    forall q: nat | a <= q < b ensures Slot(q) != Slot(p) {
      ModDistinct(q, p, RING);
    }
  }

  lemma SerialElsewhere(eval: Eval, g: Graph, tokens: seq<Token>)
    requires Sized(g) && EvalShaped(eval)
    ensures Elsewhere(Serial(eval, g, tokens).ring, g.ring, g.pos, g.pos + |tokens|)
  {
    SerialFrame(eval, g, tokens, 0);
    assert tokens[..0] == [];
    assert Serial(eval, g, []) == g;
  }

  /** Putting the dropped rows' slots back leaves the ring as if they had never been written. */
  lemma RestoredSlots(ring: seq<RingSlot>, a: seq<RingSlot>, b: seq<RingSlot>, saved: seq<RingSlot>, start: nat, keep: nat, n: nat)
    requires |ring| == |a| == |b| == RING && keep <= n <= ROWS == |saved|
    requires IsSaved(ring, saved, start, n)
    requires Elsewhere(a, ring, start, start + keep) && Elsewhere(b, a, start + keep, start + n)
    ensures Restore(b, saved, start, keep, n) == a
  {
    forall s: nat | s < RING ensures Restore(b, saved, start, keep, n)[s] == a[s] {
      assert !InSlots(s, start, start + keep) ==> a[s] == ring[s];
      assert !InSlots(s, start + keep, start + n) ==> b[s] == a[s];
      RestoredSlot(ring, a, b, saved, start, keep, n, s);
    }
  }

  lemma RestoredSlot(ring: seq<RingSlot>, a: seq<RingSlot>, b: seq<RingSlot>, saved: seq<RingSlot>, start: nat, keep: nat, n: nat, s: nat)
    requires |ring| == |a| == |b| == RING && keep <= n <= ROWS == |saved| && s < RING
    requires IsSaved(ring, saved, start, n)
    requires !InSlots(s, start, start + keep) ==> a[s] == ring[s]
    requires !InSlots(s, start + keep, start + n) ==> b[s] == a[s]
    ensures Restore(b, saved, start, keep, n)[s] == a[s]
  {
    if InSlots(s, start + keep, start + n) {
      var p: nat :| start + keep <= p < start + n && s == Slot(p);
      RestoreAt(b, saved, start, keep, n, p - start);
      SlotsApart(start, start + keep, start + n, p);
    } else {
      RestoreElsewhere(b, saved, start, keep, n, s);
    }
  }

  /** Main result. Committing the first `keep` rows of a verified block is serial decoding of
      those tokens: the same rings, carries, residual, position, history and logits, and the
      same drafter features; compressed entries agree up to the frontier. */
  lemma CommitIsSerial(eval: Eval, s: State, tokens: seq<Token>, keep: nat)
    requires StateShaped(s) && EvalShaped(eval) && MayVerify(s, |tokens|) && keep <= |tokens|
    ensures StateShaped(Verify(eval, s, tokens)) && MayCommit(Verify(eval, s, tokens), keep)
    ensures Same(Commit(Verify(eval, s, tokens), keep).g, Serial(eval, s.g, tokens[..keep]))
  {
    var v, kept, all := Verify(eval, s, tokens), Serial(eval, s.g, tokens[..keep]), Serial(eval, s.g, tokens);
    VerifyHolds(eval, s, tokens, keep, v, kept, all);
    assert Elsewhere(all.ring, kept.ring, s.g.pos + keep, s.g.pos + |tokens|) && SameLive(all.compressed, kept.compressed, s.g.pos + keep) by {
      SerialFrame(eval, s.g, tokens, keep);
    }
    SerialElsewhere(eval, s.g, tokens[..keep]);
    CommitRing(s.g, v, kept, all, |tokens|, keep);
  }

  predicate IsSaved(ring: seq<RingSlot>, saved: seq<RingSlot>, start: nat, n: nat) {
    |ring| == RING && n <= |saved| && forall i :: 0 <= i < n ==> saved[i] == ring[Slot(start + i)]
  }

  /** What `v` holds after a block from `g`: the rings of `all`, the saved slots, and the chosen row of `kept`. */
  predicate Holds(g: Graph, v: State, kept: Graph, all: Graph, n: nat, keep: nat)
    requires Sized(g)
  {
    && StateShaped(v) && MayCommit(v, keep) && v.b.count == n <= ROWS && v.b.start == g.pos
    && Sized(kept) && Sized(all) && kept.pos == g.pos + keep
    && v.g.ring == all.ring && v.g.compressed == all.compressed
    && v.b.rows[if keep == 0 then ROWS else keep - 1] == RowOf(kept)
    && IsSaved(g.ring, v.b.saved, g.pos, n)
  }

  lemma VerifyHolds(eval: Eval, s: State, tokens: seq<Token>, keep: nat, v: State, kept: Graph, all: Graph)
    requires StateShaped(s) && EvalShaped(eval) && MayVerify(s, |tokens|) && keep <= |tokens|
    requires v == Verify(eval, s, tokens) && kept == Serial(eval, s.g, tokens[..keep]) && all == Serial(eval, s.g, tokens)
    ensures Holds(s.g, v, kept, all, |tokens|, keep)
  {
    VerifyShaped(eval, s, tokens);
    VerifyRow(eval, s, tokens, keep);
    VerifySaved(eval, s, tokens);
  }

  lemma VerifySaved(eval: Eval, s: State, tokens: seq<Token>)
    requires StateShaped(s) && EvalShaped(eval) && MayVerify(s, |tokens|)
    ensures IsSaved(s.g.ring, Verify(eval, s, tokens).b.saved, s.g.pos, |tokens|)
  {
  }

  lemma VerifyRow(eval: Eval, s: State, tokens: seq<Token>, keep: nat)
    requires StateShaped(s) && EvalShaped(eval) && MayVerify(s, |tokens|) && keep <= |tokens|
    ensures Verify(eval, s, tokens).b.rows[if keep == 0 then ROWS else keep - 1] == RowOf(Serial(eval, s.g, tokens[..keep]))
  {
  }

  lemma CommitRing(g: Graph, v: State, kept: Graph, all: Graph, n: nat, keep: nat)
    requires Sized(g) && Holds(g, v, kept, all, n, keep)
    requires Elsewhere(kept.ring, g.ring, g.pos, g.pos + keep) && Elsewhere(all.ring, kept.ring, g.pos + keep, g.pos + n)
    requires SameLive(all.compressed, kept.compressed, g.pos + keep)
    ensures Same(Commit(v, keep).g, kept)
  {
    RestoredSlots(g.ring, kept.ring, all.ring, v.b.saved, g.pos, keep, n);
  }

  lemma {:induction false} SerialShaped(eval: Eval, g: Graph, tokens: seq<Token>, ctx: nat)
    requires Shaped(g) && EvalShaped(eval) && forall o :: 0 <= o < OWNERS ==> |g.compressed[o]| == ctx
    ensures var r := Serial(eval, g, tokens);
            && (forall s :: 0 <= s < RING ==> SlotShaped(r.ring[s])) && |r.carries| == OWNERS
            && forall o :: 0 <= o < OWNERS ==> |r.compressed[o]| == ctx
    decreases |tokens|
  {
    if tokens != [] {
      SerialShaped(eval, g, tokens[..|tokens| - 1], ctx);
    }
  }

  lemma VerifyShaped(eval: Eval, s: State, tokens: seq<Token>)
    requires StateShaped(s) && EvalShaped(eval) && MayVerify(s, |tokens|)
    ensures StateShaped(Verify(eval, s, tokens))
  {
    SerialShaped(eval, s.g, tokens, s.ctx);
    forall i | 0 <= i < ROWS ensures SlotShaped(Verify(eval, s, tokens).b.saved[i]) {
      assert SlotShaped(s.g.ring[Slot(s.g.pos + i)]) && SlotShaped(s.b.saved[i]);
    }
  }

  // ---- Rewinds -------------------------------------------------------------

  /** The rows lie one after another from the block's start. */
  predicate RowsInOrder(s: State) {
    && StateShaped(s) && s.b.count <= ROWS && s.b.start + s.b.count <= s.ctx && RowIs(s.b.rows[ROWS], s.b.start)
    && forall i :: 0 <= i < s.b.count ==> RowIs(s.b.rows[i], s.b.start + i + 1)
  }

  predicate RowIs(r: Row, pos: nat) {
    r.pos == pos && |r.carries| == OWNERS
  }

  lemma VerifyInOrder(eval: Eval, s: State, tokens: seq<Token>)
    requires StateShaped(s) && EvalShaped(eval) && MayVerify(s, |tokens|)
    ensures RowsInOrder(Verify(eval, s, tokens))
  {
    VerifyShaped(eval, s, tokens);
    VerifyRow(eval, s, tokens, 0);
    assert tokens[..0] == [];
    forall i | 0 <= i < |tokens| ensures RowIs(Verify(eval, s, tokens).b.rows[i], s.g.pos + i + 1) {
      VerifyRow(eval, s, tokens, i + 1);
      SerialShaped(eval, s.g, tokens[..i + 1], s.ctx);
    }
  }

  lemma RestoreTwice(ring: seq<RingSlot>, saved: seq<RingSlot>, start: nat, k2: nat, k1: nat, n: nat)
    requires |ring| == RING && k2 <= k1 <= n <= |saved| == ROWS
    ensures Restore(Restore(ring, saved, start, k1, n), saved, start, k2, n) == Restore(ring, saved, start, k2, n)
  {
    var once := Restore(ring, saved, start, k1, n);
    forall s: nat | s < RING ensures Restore(once, saved, start, k2, n)[s] == Restore(ring, saved, start, k2, n)[s] {
      RestoreAgain(ring, once, saved, start, k2, k1, n, s);
    }
  }

  lemma RestoreAgain(ring: seq<RingSlot>, once: seq<RingSlot>, saved: seq<RingSlot>, start: nat, k2: nat, k1: nat, n: nat, s: nat)
    requires |ring| == RING && k2 <= k1 <= n <= |saved| == ROWS && s < RING && once == Restore(ring, saved, start, k1, n)
    ensures Restore(once, saved, start, k2, n)[s] == Restore(ring, saved, start, k2, n)[s]
  {
    if InSlots(s, start + k2, start + n) {
      var p: nat :| start + k2 <= p < start + n && s == Slot(p);
      RestoreAt(once, saved, start, k2, n, p - start);
      RestoreAt(ring, saved, start, k2, n, p - start);
    } else {
      RestoreElsewhere(once, saved, start, k2, n, s);
      RestoreElsewhere(ring, saved, start, k2, n, s);
      assert !InSlots(s, start + k1, start + n);
      RestoreElsewhere(ring, saved, start, k1, n, s);
    }
  }

  /** Committing fewer rows after a commit is committing the fewer rows at once. */
  lemma RewindComposes(s: State, k1: nat, k2: nat)
    requires RowsInOrder(s) && MayCommit(s, k1) && k2 <= k1
    ensures RowsInOrder(Commit(s, k1)) && MayCommit(Commit(s, k1), k2) && MayCommit(s, k2)
    ensures Commit(Commit(s, k1), k2) == Commit(s, k2)
  {
    CommitShaped(s, k1);
    RestoreTwice(s.g.ring, s.b.saved, s.b.start, k2, k1, s.b.count);
  }

  lemma CommitShaped(s: State, keep: nat)
    requires RowsInOrder(s) && MayCommit(s, keep)
    ensures RowsInOrder(Commit(s, keep))
  {
    RestoreShaped(s.g.ring, s.b.saved, s.b.start, keep, s.b.count);
    assert RowIs(s.b.rows[if keep == 0 then ROWS else keep - 1], s.b.start + keep);
  }

  lemma {:induction false} RestoreShaped(ring: seq<RingSlot>, saved: seq<RingSlot>, start: nat, lo: nat, hi: nat)
    requires |ring| == RING && hi <= |saved| && (forall s :: 0 <= s < RING ==> SlotShaped(ring[s]))
    requires forall i :: 0 <= i < |saved| ==> SlotShaped(saved[i])
    ensures forall s :: 0 <= s < RING ==> SlotShaped(Restore(ring, saved, start, lo, hi)[s])
    decreases hi
  {
    if lo < hi { RestoreShaped(ring, saved, start, lo, hi - 1); }
  }

  /** Taking back a rewind is refused, except where the block starts at the session's first
      position and the rewind dropped all of it: its end is then the mark for no rewind. */
  lemma CommitPastRefused(s: State, k1: nat, k2: nat)
    requires RowsInOrder(s) && MayCommit(s, k1) && k1 < k2 <= s.b.count
    ensures MayCommit(Commit(s, k1), k2) <==> s.b.start == 0 && k1 == 0
  {
  }

  /** In the excepted case the commit is let through and is wrong: the position counts rows
      whose ring slots have been put back. */
  lemma CommitPastOrigin(eval: Eval, s: State, tokens: seq<Token>, k: nat)
    requires StateShaped(s) && EvalShaped(eval) && MayVerify(s, |tokens|) && 0 < k <= |tokens|
    requires s.g.pos == 0 && s.g.ring[0].positions == [NOWHERE, NOWHERE, NOWHERE]
    ensures var v := Verify(eval, s, tokens);
            && RowsInOrder(v) && MayCommit(v, 0) && RowsInOrder(Commit(v, 0)) && MayCommit(Commit(v, 0), k)
            && Commit(Commit(v, 0), k).g.pos == k
            && !Same(Commit(Commit(v, 0), k).g, Serial(eval, s.g, tokens[..k]))
  {
    var v := Verify(eval, s, tokens);
    VerifyInOrder(eval, s, tokens);
    CommitShaped(v, 0);
    var w := Commit(v, 0);
    CommitIsSerial(eval, s, tokens, 0);
    assert tokens[..0] == [];
    assert w.g.ring == s.g.ring;
    SlotsApartZero(k, |tokens|);
    RestoreElsewhere(w.g.ring, w.b.saved, 0, k, |tokens|, 0);
    FirstWritten(eval, s.g, tokens[..k]);
  }

  lemma SlotsApartZero(k: nat, n: nat)
    requires 0 < k <= n <= ROWS
    ensures !InSlots(0, k, n)
  {
  }

  lemma FirstWritten(eval: Eval, g: Graph, tokens: seq<Token>)
    requires Sized(g) && EvalShaped(eval) && g.pos == 0 && 0 < |tokens| <= ROWS
    ensures Serial(eval, g, tokens).ring[0].positions == [0, 0, 0]
  {
    SerialFrame(eval, g, tokens, 1);
    SlotsApartZero(1, |tokens|);
    assert tokens[..1][..0] == [];
    assert Serial(eval, g, []) == g;
  }

  /** A decode step after the block; its captures forget the rewind mark. */
  function Decode(eval: Eval, s: State, t: Token): State
    requires StateShaped(s) && EvalShaped(eval)
  {
    s.(g := Step(eval, s.g, t), b := s.b.(rewindEnd := 0))
  }

  /** After a further step the block can no longer be committed or rewound. */
  lemma CommitAfterStepRefused(eval: Eval, s: State, t: Token, keep: nat)
    requires StateShaped(s) && EvalShaped(eval) && s.b.start <= s.g.pos
    ensures !MayCommit(Decode(eval, s, t), keep)
  {
  }

  // ---- Corrections ---------------------------------------------------------

  /** A correction is decoded into the first dropped row's slot, whose old contents are saved. */
  predicate MayCorrect(s: State) {
    s.g.pos < s.ctx && s.b.rewindEnd == s.g.pos != 0 && s.b.rewindEnd < s.b.start + s.b.count
  }

  /** The step, after which the caller puts the rewind mark back: the rows kept before stay rewindable. */
  function Correct(eval: Eval, s: State, t: Token): State
    requires StateShaped(s) && EvalShaped(eval)
  {
    var r := Decode(eval, s, t);
    r.(b := r.b.(rewindEnd := r.g.pos))
  }

  /** `s` can go back into block `v` as far as its first `k` rows: only slots of later rows and
      entries beyond them may have changed since. */
  predicate Behind(s: State, v: State, k: nat) {
    && s.ctx == v.ctx && s.b.(rewindEnd := 0) == v.b.(rewindEnd := 0) && k <= v.b.count
    && Elsewhere(s.g.ring, v.g.ring, v.b.start + k, v.b.start + v.b.count)
    && SameLive(s.g.compressed, v.g.compressed, v.b.start + k)
  }

  lemma BehindItself(v: State)
    requires RowsInOrder(v)
    ensures Behind(v, v, v.b.count)
  {
  }

  lemma SameLiveEarlier(a: seq<Column>, b: seq<Column>, pos: nat, earlier: nat)
    requires SameLive(a, b, pos) && earlier <= pos
    ensures SameLive(a, b, earlier)
  {
    forall o | 0 <= o < |a| ensures SameColumn(a[o], b[o], earlier / Ratio(o)) {
      assert SameColumn(a[o], b[o], pos / Ratio(o));
      DivMono(earlier, pos, Ratio(o));
    }
  }

  /** Going back into the block gives what committing those rows at once would have given. */
  lemma CommitBehind(s: State, v: State, k: nat, keep: nat)
    requires RowsInOrder(v) && StateShaped(s) && Behind(s, v, k) && keep <= k && MayCommit(s, keep) && MayCommit(v, keep)
    ensures Behind(Commit(s, keep), v, keep) && Same(Commit(s, keep).g, Commit(v, keep).g)
    ensures Commit(s, keep).g.pos == v.b.start + keep == Commit(s, keep).b.rewindEnd
  {
    hide Restore, SameColumn, Elsewhere;
    var start, n := v.b.start, v.b.count;
    assert RowIs(v.b.rows[if keep == 0 then ROWS else keep - 1], start + keep);
    SameLiveEarlier(s.g.compressed, v.g.compressed, start + k, start + keep);
    RestoreBehind(s.g.ring, v.g.ring, v.b.saved, start, keep, k, n);
  }

  lemma RestoreBehind(ring: seq<RingSlot>, whole: seq<RingSlot>, saved: seq<RingSlot>, start: nat, keep: nat, k: nat, n: nat)
    requires Elsewhere(ring, whole, start + k, start + n) && keep <= k <= n <= |saved| == ROWS
    ensures Restore(ring, saved, start, keep, n) == Restore(whole, saved, start, keep, n)
    ensures Elsewhere(Restore(ring, saved, start, keep, n), whole, start + keep, start + n)
  {
    forall s: nat | s < RING ensures Restore(ring, saved, start, keep, n)[s] == Restore(whole, saved, start, keep, n)[s] {
      if InSlots(s, start + keep, start + n) {
        var p: nat :| start + keep <= p < start + n && s == Slot(p);
        RestoreAt(ring, saved, start, keep, n, p - start);
        RestoreAt(whole, saved, start, keep, n, p - start);
      } else {
        RestoreElsewhere(ring, saved, start, keep, n, s);
        RestoreElsewhere(whole, saved, start, keep, n, s);
        assert !InSlots(s, start + k, start + n);
      }
    }
    forall s: nat | s < RING && !InSlots(s, start + keep, start + n) ensures Restore(ring, saved, start, keep, n)[s] == whole[s] {
      RestoreElsewhere(whole, saved, start, keep, n, s);
    }
  }

  lemma CorrectBehind(eval: Eval, s: State, v: State, k: nat, t: Token)
    requires EvalShaped(eval) && StateShaped(s) && Behind(s, v, k) && v.b.start + k <= s.g.pos < v.b.start + v.b.count
    ensures Behind(Correct(eval, s, t), v, k)
  {
    var lo, hi, r := v.b.start + k, v.b.start + v.b.count, Correct(eval, s, t);
    StepFrame(eval, s.g, t, lo);
    SameLiveTransitive(r.g.compressed, s.g.compressed, v.g.compressed, lo);
    forall i: nat | i < RING && !InSlots(i, lo, hi) ensures r.g.ring[i] == v.g.ring[i] {
      assert i != Slot(s.g.pos);
    }
  }

  /** Corrections decoded one after another, from a commit on. */
  function CorrectAll(eval: Eval, s: State, tokens: seq<Token>): State
    requires StateShaped(s) && EvalShaped(eval)
  {
    State(Serial(eval, s.g, tokens), s.b.(rewindEnd := s.g.pos + |tokens|), s.ctx)
  }

  lemma CorrectAllNext(eval: Eval, s: State, tokens: seq<Token>, t: Token)
    requires StateShaped(s) && EvalShaped(eval) && StateShaped(CorrectAll(eval, s, tokens))
    ensures CorrectAll(eval, s, tokens + [t]) == Correct(eval, CorrectAll(eval, s, tokens), t)
  {
    assert (tokens + [t])[..|tokens|] == tokens;
  }

  lemma CorrectAllShaped(eval: Eval, s: State, tokens: seq<Token>)
    requires StateShaped(s) && EvalShaped(eval) && s.g.pos + |tokens| <= s.ctx
    ensures StateShaped(CorrectAll(eval, s, tokens))
  {
    SerialShaped(eval, s.g, tokens, s.ctx);
  }

  /** The slots of rows not kept and not corrected hold what was saved of them. */
  lemma DroppedSlot(eval: Eval, c: Graph, ring: seq<RingSlot>, saved: seq<RingSlot>, start: nat, k: nat, n: nat, tokens: seq<Token>, i: nat)
    requires Sized(c) && EvalShaped(eval) && |ring| == RING && |saved| == ROWS && c.pos == start + k
    requires k + |tokens| <= i < n <= ROWS && c.ring == Restore(ring, saved, start, k, n)
    ensures Serial(eval, c, tokens).ring[Slot(start + i)] == saved[i]
  {
    hide Serial, Restore;
    RestoreAt(ring, saved, start, k, n, i);
    SerialElsewhere(eval, c, tokens);
    SlotsApart(start + k, start + k + |tokens|, start + i + 1, start + i);
  }

  /** Going back among corrections leaves the rings as they were there. */
  lemma RingAmongCorrections(eval: Eval, c: Graph, ring: seq<RingSlot>, saved: seq<RingSlot>, start: nat, k: nat, n: nat, tokens: seq<Token>, a: nat)
    requires Sized(c) && EvalShaped(eval) && |ring| == RING && |saved| == ROWS && c.pos == start + k
    requires a <= |tokens| && k + |tokens| <= n <= ROWS && c.ring == Restore(ring, saved, start, k, n)
    ensures Restore(Serial(eval, c, tokens).ring, saved, start, k + a, n) == Serial(eval, c, tokens[..a]).ring
  {
    hide Serial, Restore;
    var w, x := Serial(eval, c, tokens[..a]).ring, Serial(eval, c, tokens).ring;
    SerialFrame(eval, c, tokens, a);
    forall s: nat | s < RING ensures Restore(x, saved, start, k + a, n)[s] == w[s] {
      if InSlots(s, start + k + a, start + n) {
        var p: nat :| start + k + a <= p < start + n && s == Slot(p);
        RestoreAt(x, saved, start, k + a, n, p - start);
        DroppedSlot(eval, c, ring, saved, start, k, n, tokens[..a], p - start);
      } else {
        RestoreElsewhere(x, saved, start, k + a, n, s);
        assert !InSlots(s, start + k + a, start + k + |tokens|);
      }
    }
  }

  /** The commit lets a rewind through that ends among corrections, past the rows kept. It gives the
      state there, the serial one, exactly when the block's own last row is that state's. */
  lemma RewindIntoCorrections(eval: Eval, v: State, k: nat, tokens: seq<Token>, a: nat)
    requires EvalShaped(eval) && RowsInOrder(v) && v.b.rewindEnd == 0 && v.g.pos == v.b.start && 0 < v.b.count
    requires 0 < a <= |tokens| && k + |tokens| <= v.b.count
    ensures MayCommit(v, k) && StateShaped(Commit(v, k))
    ensures var c := Commit(v, k);
            var w, x := CorrectAll(eval, c, tokens[..a]), CorrectAll(eval, c, tokens);
            && StateShaped(x) && x.b.count <= ROWS && MayCommit(x, k + a)
            && (Same(Commit(x, k + a).g, w.g) <==> v.b.rows[k + a - 1] == RowOf(w.g))
  {
    CommitShaped(v, k);
    var start, c := v.b.start, Commit(v, k);
    assert RowIs(v.b.rows[if k == 0 then ROWS else k - 1], start + k) && RowIs(v.b.rows[k + a - 1], start + k + a);
    CorrectAllShaped(eval, c, tokens);
    SerialFrame(eval, c.g, tokens, a);
    RingAmongCorrections(eval, c.g, v.g.ring, v.b.saved, start, k, v.b.count, tokens, a);
    RowDecides(CorrectAll(eval, c, tokens), k + a, Serial(eval, c.g, tokens[..a]));
  }

  lemma RowDecides(x: State, keep: nat, w: Graph)
    requires StateShaped(x) && x.b.count <= ROWS && MayCommit(x, keep) && 0 < keep && w.pos == x.b.rows[keep - 1].pos
    requires Restore(x.g.ring, x.b.saved, x.b.start, keep, x.b.count) == w.ring && SameLive(x.g.compressed, w.compressed, w.pos)
    ensures Same(Commit(x, keep).g, w) <==> x.b.rows[keep - 1] == RowOf(w)
  {
    var y := Commit(x, keep).g;
    if x.b.rows[keep - 1] == RowOf(w) {
      assert y.(compressed := []) == w.(compressed := []);
    }
    if Same(y, w) {
      assert RowOf(y.(compressed := [])) == RowOf(w.(compressed := []));
    }
  }

  lemma DecodeShaped(eval: Eval, s: State, t: Token)
    requires StateShaped(s) && EvalShaped(eval) && s.g.pos < s.ctx
    ensures StateShaped(Decode(eval, s, t)) && StateShaped(Correct(eval, s, t))
  {
    assert [t][..0] == [];
    assert Serial(eval, s.g, []) == s.g && Serial(eval, s.g, [t]) == Step(eval, s.g, t);
    SerialShaped(eval, s.g, [t], s.ctx);
  }

  // ---- Whole generations ---------------------------------------------------

  datatype Turn = Plain(token: Token) | Speculate(tokens: seq<Token>, keep: nat) | Rewind(keep: nat) | Correction(token: Token)

  /** The tokens a generation keeps: `before` the last block, `block` itself with `rows` of its
      tokens kept, and all in all. */
  datatype Transcript = Transcript(before: seq<Token>, block: seq<Token>, rows: nat, kept: seq<Token>)

  function First(tokens: seq<Token>, n: nat): seq<Token> {
    if n <= |tokens| then tokens[..n] else tokens
  }

  function After(r: Transcript, t: Turn): Transcript {
    match t
    case Plain(token) => Transcript(r.kept + [token], [], 0, r.kept + [token])
    case Correction(token) => r.(kept := r.kept + [token])
    case Speculate(tokens, keep) => Transcript(r.kept, tokens, keep, r.kept + First(tokens, keep))
    case Rewind(keep) => r.(rows := keep, kept := r.before + First(r.block, keep))
  }

  function Transcribed(turns: seq<Turn>): Transcript {
    if turns == [] then Transcript([], [], 0, []) else After(Transcribed(turns[..|turns| - 1]), turns[|turns| - 1])
  }

  function Kept(turns: seq<Turn>): seq<Token> {
    Transcribed(turns).kept
  }

  predicate MayTake(s: State, t: Turn) {
    match t
    case Plain(_) => s.g.pos < s.ctx
    case Correction(_) => MayCorrect(s)
    case Speculate(tokens, keep) => MayVerify(s, |tokens|) && keep <= |tokens|
    case Rewind(keep) => MayCommit(s, keep)
  }

  /** The state between turns. */
  predicate Settled(s: State) {
    StateShaped(s) && s.b.count <= ROWS && (0 < s.b.count ==> RowsInOrder(s) && s.b.start <= s.g.pos)
  }

  /** One turn of the generation loop: a decode step, a verified block and its commit, a correction
      of its first dropped row, or a rewind. */
  function Take(eval: Eval, s: State, t: Turn): State
    requires Settled(s) && EvalShaped(eval) && MayTake(s, t)
  {
    match t
    case Plain(token) => Decode(eval, s, token)
    case Correction(token) => Correct(eval, s, token)
    case Speculate(tokens, keep) =>
      CommitIsSerial(eval, s, tokens, keep);
      Commit(Verify(eval, s, tokens), keep)
    case Rewind(keep) => Commit(s, keep)
  }

  /** A generation from a session without an open block; that its states stay settled is proved.
      A rewind goes back over rows of the block that are kept: past them the commit refuses it or
      is one of the exceptions of `CommitPastRefused` and `RewindIntoCorrections`. */
  ghost predicate IsGeneration(eval: Eval, states: seq<State>, turns: seq<Turn>) {
    && EvalShaped(eval) && |states| == |turns| + 1 && StateShaped(states[0]) && states[0].b.count == 0 == states[0].b.rewindEnd
    && (forall i :: 0 <= i < |turns| ==> IsTurn(eval, states[i], turns[i], states[i + 1]))
    && (forall i :: 0 <= i < |turns| ==> turns[i].Rewind? ==> turns[i].keep <= Transcribed(turns[..i]).rows)
  }

  ghost predicate IsTurn(eval: Eval, s: State, t: Turn, r: State)
    requires EvalShaped(eval)
  {
    MayTake(s, t) && (Settled(s) ==> r == Take(eval, s, t))
  }

  lemma TakeSettled(eval: Eval, s: State, t: Turn)
    requires Settled(s) && EvalShaped(eval) && MayTake(s, t)
    ensures Settled(Take(eval, s, t))
  {
    match t {
      case Plain(token) => DecodeShaped(eval, s, token);
      case Correction(token) => DecodeShaped(eval, s, token);
      case Speculate(tokens, keep) =>
        CommitIsSerial(eval, s, tokens, keep);
        VerifyInOrder(eval, s, tokens);
        CommitShaped(Verify(eval, s, tokens), keep);
      case Rewind(keep) => CommitShaped(s, keep);
    }
  }

  lemma {:induction false} StaysSettled(eval: Eval, states: seq<State>, turns: seq<Turn>, i: nat)
    requires IsGeneration(eval, states, turns) && i <= |turns|
    ensures Settled(states[i])
  {
    if i > 0 {
      StaysSettled(eval, states, turns, i - 1);
      assert IsTurn(eval, states[i - 1], turns[i - 1], states[i]);
      TakeSettled(eval, states[i - 1], turns[i - 1]);
    }
  }

  lemma {:induction false} SerialConcat(eval: Eval, g: Graph, a: seq<Token>, b: seq<Token>)
    requires Sized(g) && EvalShaped(eval)
    ensures Serial(eval, g, a + b) == Serial(eval, Serial(eval, g, a), b)
    decreases |b|
  {
    if b == [] {
      assert a + b == a;
    } else {
      var k := |b| - 1;
      assert (a + b)[..|a + b| - 1] == a + b[..k];
      SerialConcat(eval, g, a, b[..k]);
    }
  }

  lemma SameTransitive(a: Graph, b: Graph, c: Graph)
    requires Same(a, b) && Same(b, c)
    ensures Same(a, c)
  {
    SameLiveTransitive(a.compressed, b.compressed, c.compressed, a.pos);
  }

  /** State `i` can go back into turn `j`'s block, of which `keep` rows are kept. */
  predicate IsBlock(eval: Eval, states: seq<State>, turns: seq<Turn>, i: nat, j: nat, keep: nat)
    requires EvalShaped(eval) && j < i <= |turns| && |states| == |turns| + 1
  {
    && turns[j].Speculate? && Settled(states[j]) && MayTake(states[j], turns[j])
    && InBlock(states[i], Verify(eval, states[j], turns[j].tokens), keep)
    && IsTranscript(Transcribed(turns[..i]), Kept(turns[..j]), turns[j].tokens, keep)
  }

  predicate InBlock(s: State, v: State, keep: nat) {
    && RowsInOrder(v) && v.b.rewindEnd == 0 < v.b.count && v.g.pos == v.b.start
    && Behind(s, v, keep) && v.b.start + keep <= s.g.pos == s.b.rewindEnd <= v.b.start + v.b.count
  }

  predicate IsTranscript(r: Transcript, before: seq<Token>, block: seq<Token>, rows: nat) {
    r.before == before && r.block == block && r.rows == rows <= |block|
  }

  lemma BlockOpened(eval: Eval, states: seq<State>, turns: seq<Turn>, j: nat)
    requires IsGeneration(eval, states, turns) && j < |turns| && turns[j].Speculate?
    ensures IsBlock(eval, states, turns, j + 1, j, turns[j].keep)
    ensures Kept(turns[..j + 1]) == Kept(turns[..j]) + First(turns[j].tokens, turns[j].keep)
  {
    StaysSettled(eval, states, turns, j);
    assert IsTurn(eval, states[j], turns[j], states[j + 1]);
    var v := Verify(eval, states[j], turns[j].tokens);
    VerifyInOrder(eval, states[j], turns[j].tokens);
    BehindItself(v);
    CommitBehind(v, v, v.b.count, turns[j].keep);
    assert turns[..j + 1][..j] == turns[..j];
  }

  lemma BlockRewound(eval: Eval, states: seq<State>, turns: seq<Turn>, i: nat, j: nat, keep: nat)
    requires EvalShaped(eval) && j < i < |turns| && |states| == |turns| + 1 && turns[i].Rewind? && turns[i].keep <= keep
    requires Settled(states[i]) && IsTurn(eval, states[i], turns[i], states[i + 1]) && IsBlock(eval, states, turns, i, j, keep)
    ensures IsBlock(eval, states, turns, i + 1, j, turns[i].keep)
    ensures Kept(turns[..i + 1]) == Kept(turns[..j]) + First(turns[j].tokens, turns[i].keep)
    ensures var v := Verify(eval, states[j], turns[j].tokens);
            RowsInOrder(v) && MayCommit(v, turns[i].keep) && Same(states[i + 1].g, Commit(v, turns[i].keep).g)
  {
    hide Verify, Behind, Commit, Same;
    CommitBehind(states[i], Verify(eval, states[j], turns[j].tokens), keep, turns[i].keep);
    assert turns[..i + 1][..i] == turns[..i];
  }

  lemma BlockCorrected(eval: Eval, states: seq<State>, turns: seq<Turn>, i: nat, j: nat, keep: nat)
    requires EvalShaped(eval) && j < i < |turns| && |states| == |turns| + 1 && turns[i].Correction?
    requires Settled(states[i]) && IsTurn(eval, states[i], turns[i], states[i + 1]) && IsBlock(eval, states, turns, i, j, keep)
    ensures IsBlock(eval, states, turns, i + 1, j, keep)
  {
    hide Verify;
    CorrectBehind(eval, states[i], Verify(eval, states[j], turns[j].tokens), keep, turns[i].token);
    assert turns[..i + 1][..i] == turns[..i];
  }

  /** Until the next plain step the block can be found, however often it was corrected or rewound. */
  lemma {:induction false} BlockFound(eval: Eval, states: seq<State>, turns: seq<Turn>, i: nat) returns (j: nat, keep: nat)
    requires IsGeneration(eval, states, turns) && i < |turns| && !turns[i].Plain?
    ensures j <= i && IsBlock(eval, states, turns, i + 1, j, keep)
    decreases i
  {
    hide IsBlock, Take;
    if turns[i].Speculate? {
      BlockOpened(eval, states, turns, i);
      j, keep := i, turns[i].keep;
    } else {
      StaysOpen(eval, states, turns, i);
      j, keep := BlockFound(eval, states, turns, i - 1);
      if turns[i].Rewind? {
        RowsOf(eval, states, turns, i, j, keep);
        BlockRewound(eval, states, turns, i, j, keep);
        keep := turns[i].keep;
      } else {
        BlockCorrected(eval, states, turns, i, j, keep);
      }
    }
  }

  lemma RowsOf(eval: Eval, states: seq<State>, turns: seq<Turn>, i: nat, j: nat, keep: nat)
    requires EvalShaped(eval) && j < i <= |turns| && |states| == |turns| + 1 && IsBlock(eval, states, turns, i, j, keep)
    ensures Transcribed(turns[..i]).rows == keep
  {
  }

  /** Corrections and rewinds only follow a block: a plain step closes it. */
  lemma StaysOpen(eval: Eval, states: seq<State>, turns: seq<Turn>, i: nat)
    requires IsGeneration(eval, states, turns) && i < |turns| && (turns[i].Rewind? || turns[i].Correction?)
    ensures 0 < i && !turns[i - 1].Plain? && Settled(states[i]) && IsTurn(eval, states[i], turns[i], states[i + 1])
  {
    StaysSettled(eval, states, turns, i);
    assert IsTurn(eval, states[i], turns[i], states[i + 1]);
    if i > 0 && turns[i - 1].Plain? {
      StaysSettled(eval, states, turns, i - 1);
      assert IsTurn(eval, states[i - 1], turns[i - 1], states[i]);
    }
  }

  /** A plain step and a correction decode their token. */
  lemma StepIsSerial(eval: Eval, states: seq<State>, turns: seq<Turn>, i: nat)
    requires IsGeneration(eval, states, turns) && i < |turns| && (turns[i].Plain? || turns[i].Correction?)
    ensures Settled(states[i]) && Same(states[i + 1].g, Serial(eval, states[i].g, [turns[i].token]))
    ensures Kept(turns[..i + 1]) == Kept(turns[..i]) + [turns[i].token]
  {
    var token := turns[i].token;
    assert turns[..i + 1][..i] == turns[..i];
    StaysSettled(eval, states, turns, i);
    assert IsTurn(eval, states[i], turns[i], states[i + 1]);
    assert [token][..0] == [] && Serial(eval, states[i].g, []) == states[i].g;
  }

  lemma NothingKept(eval: Eval, g: Graph, turns: seq<Turn>)
    requires Sized(g) && EvalShaped(eval)
    ensures Same(g, Serial(eval, g, Kept(turns[..0])))
  {
    assert Serial(eval, g, []) == g;
  }

  /** A block is serial decoding of the tokens kept of it, at once or after a rewind. */
  lemma BlockIsSerial(eval: Eval, states: seq<State>, turns: seq<Turn>, i: nat) returns (j: nat)
    requires IsGeneration(eval, states, turns) && i < |turns| && (turns[i].Speculate? || turns[i].Rewind?)
    ensures j <= i && turns[j].Speculate? && Settled(states[j]) && turns[i].keep <= |turns[j].tokens|
    ensures Same(states[i + 1].g, Serial(eval, states[j].g, turns[j].tokens[..turns[i].keep]))
    ensures Kept(turns[..i + 1]) == Kept(turns[..j]) + turns[j].tokens[..turns[i].keep]
  {
    hide Commit, Verify, Same, Behind, Serial;
    if turns[i].Speculate? {
      j := i;
      StaysSettled(eval, states, turns, i);
      assert IsTurn(eval, states[i], turns[i], states[i + 1]);
      BlockOpened(eval, states, turns, i);
      CommitIsSerial(eval, states[i], turns[i].tokens, turns[i].keep);
    } else {
      StaysOpen(eval, states, turns, i);
      var keep;
      j, keep := BlockFound(eval, states, turns, i - 1);
      RowsOf(eval, states, turns, i, j, keep);
      BlockRewound(eval, states, turns, i, j, keep);
      CommitIsSerial(eval, states[j], turns[j].tokens, turns[i].keep);
      SameTransitive(states[i + 1].g, Commit(Verify(eval, states[j], turns[j].tokens), turns[i].keep).g,
                     Serial(eval, states[j].g, turns[j].tokens[..turns[i].keep]));
    }
  }

  /** Main result over whole generations: any mix of plain steps, speculative blocks, corrections of
      their first dropped rows, and rewinds leaves the state of serially decoding the tokens kept. */
  lemma {:induction false} GenerationIsSerial(eval: Eval, states: seq<State>, turns: seq<Turn>, i: nat)
    requires IsGeneration(eval, states, turns) && i <= |turns|
    ensures Settled(states[i]) && Same(states[i].g, Serial(eval, states[0].g, Kept(turns[..i])))
  {
    hide IsTurn, Kept, Same, Serial;
    var g := states[0].g;
    StaysSettled(eval, states, turns, i);
    if i == 0 {
      NothingKept(eval, g, turns);
    } else if turns[i - 1].Plain? || turns[i - 1].Correction? {
      GenerationIsSerial(eval, states, turns, i - 1);
      StepIsSerial(eval, states, turns, i - 1);
      TokensKept(eval, g, states[i - 1].g, states[i].g, Kept(turns[..i - 1]), [turns[i - 1].token]);
    } else {
      var j := BlockIsSerial(eval, states, turns, i - 1);
      GenerationIsSerial(eval, states, turns, j);
      TokensKept(eval, g, states[j].g, states[i].g, Kept(turns[..j]), turns[j].tokens[..turns[i - 1].keep]);
    }
  }

  lemma TokensKept(eval: Eval, g: Graph, a: Graph, b: Graph, before: seq<Token>, more: seq<Token>)
    requires Sized(g) && Sized(a) && EvalShaped(eval)
    requires Same(a, Serial(eval, g, before)) && Same(b, Serial(eval, a, more))
    ensures Same(b, Serial(eval, g, before + more))
  {
    SameSteps(eval, a, Serial(eval, g, before), more);
    SerialConcat(eval, g, before, more);
    SameTransitive(b, Serial(eval, a, more), Serial(eval, g, before + more));
  }
}
