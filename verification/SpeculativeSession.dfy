/** The speculative block as the session performs it, on the ring buffers themselves. */
module SpeculativeSession {
  import opened TokenHash
  import opened SpeculativeVerify

  function ColumnOf(a: array2<Value>, k: nat): (c: Column)
    reads a
    requires k < a.Length1
    ensures |c| == a.Length0
  {
    seq(a.Length0, i requires 0 <= i < a.Length0 reads a => a[i, k])
  }

  function LineOf(a: array2<Value>, k: nat): (c: Column)
    reads a
    requires k < a.Length0
    ensures |c| == a.Length1
  {
    seq(a.Length1, i requires 0 <= i < a.Length1 reads a => a[k, i])
  }

  /** The slots of three buffers that move together. */
  function SlotsOf(raw: array2<Value>, features: array2<Value>, positions: array2<Value>): (r: seq<RingSlot>)
    reads raw, features, positions
    requires raw.Length1 == features.Length1 == positions.Length1
    ensures |r| == raw.Length1
  {
    seq(raw.Length1, s requires 0 <= s < raw.Length1 reads raw, features, positions =>
      RingSlot(ColumnOf(raw, s), ColumnOf(features, s), ColumnOf(positions, s)))
  }

  method CopyColumn(dst: array2<Value>, at: nat, src: array2<Value>, from: nat)
    requires dst != src && dst.Length0 == src.Length0 && at < dst.Length1 && from < src.Length1
    modifies dst
    ensures ColumnOf(dst, at) == ColumnOf(src, from)
    ensures forall k: nat :: k < dst.Length1 && k != at ==> ColumnOf(dst, k) == old(ColumnOf(dst, k))
  {
    for i := 0 to dst.Length0
      invariant forall j :: 0 <= j < i ==> dst[j, at] == src[j, from]
      invariant forall j, k :: 0 <= j < dst.Length0 && 0 <= k < dst.Length1 && k != at ==> dst[j, k] == old(dst[j, k])
    {
      dst[i, at] := src[i, from];
    }
    assert ColumnOf(dst, at) == ColumnOf(src, from);
  }

  method WriteColumn(dst: array2<Value>, at: nat, c: Column)
    requires |c| == dst.Length0 && at < dst.Length1
    modifies dst
    ensures ColumnOf(dst, at) == c
    ensures forall k: nat :: k < dst.Length1 && k != at ==> ColumnOf(dst, k) == old(ColumnOf(dst, k))
  {
    for i := 0 to dst.Length0
      invariant forall j :: 0 <= j < i ==> dst[j, at] == c[j]
      invariant forall j, k :: 0 <= j < dst.Length0 && 0 <= k < dst.Length1 && k != at ==> dst[j, k] == old(dst[j, k])
    {
      dst[i, at] := c[i];
    }
    assert ColumnOf(dst, at) == c;
  }

  /** Copy one slot of all three buffers. */
  method CopySlot(raw: array2<Value>, features: array2<Value>, positions: array2<Value>, k: nat,
                  raw2: array2<Value>, features2: array2<Value>, positions2: array2<Value>, from: nat)
    requires raw.Length1 == features.Length1 == positions.Length1 && k < raw.Length1
    requires raw2.Length1 == features2.Length1 == positions2.Length1 && from < raw2.Length1 && raw.Length1 != raw2.Length1
    requires raw.Length0 == raw2.Length0 && features.Length0 == features2.Length0 && positions.Length0 == positions2.Length0
    requires raw != features && raw != positions && features != positions
    modifies raw, features, positions
    ensures SlotsOf(raw, features, positions)
         == old(SlotsOf(raw, features, positions))[k := SlotsOf(raw2, features2, positions2)[from]]
  {
    CopyColumn(raw, k, raw2, from);
    CopyColumn(features, k, features2, from);
    CopyColumn(positions, k, positions2, from);
  }

  method WriteSlot(raw: array2<Value>, features: array2<Value>, positions: array2<Value>, k: nat, x: RingSlot)
    requires raw.Length1 == features.Length1 == positions.Length1 && k < raw.Length1
    requires raw.Length0 == |x.raw| && features.Length0 == |x.features| && positions.Length0 == |x.positions|
    requires raw != features && raw != positions && features != positions
    modifies raw, features, positions
    ensures SlotsOf(raw, features, positions) == old(SlotsOf(raw, features, positions))[k := x]
  {
    WriteColumn(raw, k, x.raw);
    WriteColumn(features, k, x.features);
    WriteColumn(positions, k, x.positions);
  }

  function LinesOf(a: array2<Value>): (r: seq<Column>)
    reads a
    ensures |r| == a.Length0
  {
    seq(a.Length0, k requires 0 <= k < a.Length0 reads a => LineOf(a, k))
  }

  class Session {
    var pos: nat
    var history: Value
    var residual: Value
    var pre: Value
    var logits: Value
    const window: array2<Value>
    const target: array2<Value>
    const positions: array2<Value>
    const compressed: array2<Value>
    const carries: array<Value>

    var start: nat
    var count: nat
    var rewindEnd: nat
    const oldRaw: array2<Value>
    const oldFeatures: array2<Value>
    const oldPositions: array2<Value>
    const rows: array<Row>

    predicate Valid()
      reads this, rows
    {
      && window.Length0 == oldRaw.Length0 == LAYERS && window.Length1 == RING
      && target.Length0 == positions.Length0 == oldFeatures.Length0 == oldPositions.Length0 == STAGES
      && target.Length1 == positions.Length1 == RING
      && oldRaw.Length1 == oldFeatures.Length1 == oldPositions.Length1 == ROWS
      && target != positions && oldFeatures != oldPositions
      && compressed.Length0 == OWNERS && carries.Length == OWNERS && rows.Length == ROWS + 1
      && pos <= compressed.Length1 && count <= ROWS
      && forall i :: 0 <= i < rows.Length ==> |rows[i].carries| == OWNERS && rows[i].pos <= compressed.Length1
    }

    function Ring(): (r: seq<RingSlot>)
      reads this, window, target, positions
      requires window.Length1 == target.Length1 == positions.Length1 == RING
      ensures |r| == RING
    {
      SlotsOf(window, target, positions)
    }

    function Saved(): (r: seq<RingSlot>)
      reads this, oldRaw, oldFeatures, oldPositions
      requires oldRaw.Length1 == oldFeatures.Length1 == oldPositions.Length1 == ROWS
      ensures |r| == ROWS
    {
      SlotsOf(oldRaw, oldFeatures, oldPositions)
    }

    function View(): (s: State)
      reads this, window, target, positions, compressed, carries, oldRaw, oldFeatures, oldPositions, rows
      requires Valid()
      ensures StateShaped(s)
    {
      State(Graph(pos, history, Ring(), carries[..], LinesOf(compressed), residual, pre, logits),
            Block(start, count, rewindEnd, Saved(), rows[..]), compressed.Length1)
    }

    /** A session that has decoded nothing: no slot belongs to a position, no block is open. */
    constructor (ctx: nat)
      ensures Valid() && View().g.pos == 0 && View().ctx == ctx && !MayCommit(View(), 0)
      ensures forall s :: 0 <= s < RING ==> View().g.ring[s].positions == [NOWHERE, NOWHERE, NOWHERE]
    {
      pos, history, residual, pre, logits, start, count, rewindEnd := 0, 0, 0, 0, 0, 0, 0, 0;
      window := new Value[LAYERS, RING]((_, _) => 0);
      target := new Value[STAGES, RING]((_, _) => 0);
      positions := new Value[STAGES, RING]((_, _) => NOWHERE);
      compressed := new Value[OWNERS, ctx]((_, _) => 0);
      carries := new Value[OWNERS](_ => 0);
      oldRaw := new Value[LAYERS, ROWS]((_, _) => 0);
      oldFeatures := new Value[STAGES, ROWS]((_, _) => 0);
      oldPositions := new Value[STAGES, ROWS]((_, _) => NOWHERE);
      rows := new Row[ROWS + 1](_ => Row(0, 0, [0, 0, 0, 0], 0, 0, 0));
      new;
      forall s | 0 <= s < RING ensures View().g.ring[s].positions == [NOWHERE, NOWHERE, NOWHERE] {
        assert ColumnOf(positions, s) == [NOWHERE, NOWHERE, NOWHERE];
      }
    }

    method PublishEntries(p: nat, entries: seq<Value>)
      requires compressed.Length0 == |entries| == OWNERS
      modifies compressed
      ensures LinesOf(compressed) == PublishAll(old(LinesOf(compressed)), p, entries)
    {
      ghost var was := LinesOf(compressed);
      for o := 0 to OWNERS
        invariant forall k: nat :: k < OWNERS ==>
          LineOf(compressed, k) == if k < o then Publish(was[k], k, p, entries[k]) else was[k]
      {
        ghost var line := LineOf(compressed, o);
        var at := (p + 1) / Ratio(o);
        if (p + 1) % Ratio(o) == 0 && 0 < at <= compressed.Length1 {
          compressed[o, at - 1] := entries[o];
        }
        assert LineOf(compressed, o) == Publish(line, o, p, entries[o]);
        assert forall k: nat :: k < OWNERS && k != o ==> LineOf(compressed, k) == if k < o then Publish(was[k], k, p, entries[k]) else was[k];
      }
    }

    /** Row `i` of the block runs on the shared rings; `g` is the serial state it stands for. */
    method RunRow(eval: Eval, t: Token, i: nat, p: nat, h: Value, ghost g: Graph) returns (p': nat, h': Value)
      requires Valid() && EvalShaped(eval) && i < ROWS && p < compressed.Length1
      requires Sized(g) && g.pos == p && g.history == h
      requires g.ring == Ring() && g.carries == carries[..] && g.compressed == LinesOf(compressed)
      modifies window, target, positions, carries, compressed, rows
      ensures Valid()
      ensures var r := Step(eval, g, t);
              && p' == r.pos && h' == r.history
              && Ring() == r.ring && carries[..] == r.carries && LinesOf(compressed) == r.compressed
              && rows[..] == old(rows[..])[i := RowOf(r)]
    {
      var out := eval(See(Graph(p, h, Ring(), carries[..], LinesOf(compressed), 0, 0, 0)), t);
      WriteSlot(window, target, positions, Slot(p), RingSlot(out.raw, out.features, [p, p, p]));
      SetCarries(out.carries);
      PublishEntries(p, out.entries);
      rows[i] := Row(p + 1, out.history, out.carries, out.residual, out.pre, out.logits);
      p', h' := p + 1, out.history;
    }

    method SaveSlots(n: nat)
      requires Valid() && n <= ROWS
      modifies oldRaw, oldFeatures, oldPositions
      ensures Saved() == Save(Ring(), old(Saved()), pos, n)
      ensures Ring() == old(Ring()) && LinesOf(compressed) == old(LinesOf(compressed))
      ensures rows[..] == old(rows[..]) && carries[..] == old(carries[..])
    {
      for i := 0 to n
        invariant Saved() == Save(Ring(), old(Saved()), pos, i)
      {
        CopySlot(oldRaw, oldFeatures, oldPositions, i, window, target, positions, Slot(pos + i));
      }
    }

    method RestoreSlots(keep: nat)
      requires Valid() && keep <= count
      modifies window, target, positions
      ensures Ring() == Restore(old(Ring()), Saved(), start, keep, count)
      ensures Saved() == old(Saved()) && LinesOf(compressed) == old(LinesOf(compressed))
    {
      assert compressed != window && compressed != target && compressed != positions;
      for i := keep to count
        invariant Ring() == Restore(old(Ring()), Saved(), start, keep, i)
      {
        CopySlot(window, target, positions, Slot(start + i), oldRaw, oldFeatures, oldPositions, i);
      }
    }

    method RunRows(eval: Eval, tokens: seq<Token>, ghost g: Graph) returns (ghost end: Graph)
      requires Valid() && EvalShaped(eval) && |tokens| <= ROWS && pos + |tokens| <= compressed.Length1 && g == View().g
      modifies window, target, positions, carries, compressed, rows
      ensures Valid() && end == Serial(eval, g, tokens)
      ensures Ring() == end.ring && carries[..] == end.carries && LinesOf(compressed) == end.compressed
      ensures rows[..] == BlockRows(eval, g, tokens, |tokens|, old(rows[..]))
    {
      var p, h := pos, history;
      end := g;
      assert tokens[..0] == [];
      for i := 0 to |tokens|
        invariant Valid() && end == Serial(eval, g, tokens[..i])
        invariant p == end.pos && h == end.history
        invariant Ring() == end.ring && carries[..] == end.carries && LinesOf(compressed) == end.compressed
        invariant rows[..] == BlockRows(eval, g, tokens, i, old(rows[..]))
      {
        SerialNext(eval, g, tokens, i);
        p, h := RunRow(eval, tokens[i], i, p, h, end);
        end := Step(eval, end, tokens[i]);
      }
      assert tokens[..|tokens|] == tokens;
    }

    method VerifyBlock(eval: Eval, tokens: seq<Token>) returns (ok: bool)
      requires Valid() && EvalShaped(eval)
      modifies this, window, target, positions, carries, compressed, rows, oldRaw, oldFeatures, oldPositions
      ensures Valid() && ok == MayVerify(old(View()), |tokens|)
      ensures View() == if ok then Verify(eval, old(View()), tokens) else old(View())
    {
      if |tokens| < 2 || |tokens| > ROWS || |tokens| > compressed.Length1 - pos {
        return false;
      }
      MarkStart(|tokens|);
      ghost var end := RunRows(eval, tokens, View().g);
      count := |tokens|;
      return true;
    }

    /** Remember what the block of `n` rows will overwrite, and where it starts. */
    method MarkStart(n: nat)
      requires Valid() && n <= ROWS
      modifies this, rows, oldRaw, oldFeatures, oldPositions
      ensures Valid() && View().g == old(View().g)
      ensures View().b == Block(pos, 0, 0, Save(old(Ring()), old(Saved()), pos, n), old(rows[..])[ROWS := RowOf(old(View().g))])
    {
      hide SlotsOf, LinesOf, Save;
      start, count, rewindEnd := pos, 0, 0;
      SaveSlots(n);
      rows[ROWS] := Row(pos, history, carries[..], residual, pre, logits);
    }

    method CommitRows(keep: nat) returns (ok: bool)
      requires Valid()
      modifies this, window, target, positions, carries
      ensures ok == MayCommit(old(View()), keep) && Valid()
      ensures View() == if ok then Commit(old(View()), keep) else old(View())
    {
      if count == 0 || keep > count || (pos != start && pos != rewindEnd) || (rewindEnd != 0 && start + keep > rewindEnd) {
        return false;
      }
      KeepRows(keep);
      return true;
    }

    /** Puts the dropped rows' slots back and takes the kept row's carries. */
    method RestoreState(keep: nat, c: seq<Value>)
      requires Valid() && keep <= count && |c| == OWNERS
      modifies window, target, positions, carries
      ensures Ring() == Restore(old(Ring()), Saved(), start, keep, count) && carries[..] == c
      ensures Saved() == old(Saved()) && LinesOf(compressed) == old(LinesOf(compressed)) && rows[..] == old(rows[..])
    {
      RestoreSlots(keep);
      SetCarries(c);
    }

    method KeepRows(keep: nat)
      requires Valid() && MayCommit(View(), keep)
      modifies this, window, target, positions, carries
      ensures Valid() && View() == Commit(old(View()), keep)
    {
      hide SlotsOf, LinesOf, Restore, ColumnOf, LineOf;
      var row := rows[if keep == 0 then ROWS else keep - 1];
      RestoreState(keep, row.carries);
      pos, history, residual, pre, logits := row.pos, row.history, row.residual, row.pre, row.logits;
      rewindEnd := pos;
    }

    method SetCarries(c: seq<Value>)
      requires carries.Length == |c|
      modifies carries
      ensures carries[..] == c
    {
      forall k | 0 <= k < |c| {
        carries[k] := c[k];
      }
    }
  }

  lemma SerialNext(eval: Eval, g: Graph, tokens: seq<Token>, i: nat)
    requires Sized(g) && EvalShaped(eval) && i < |tokens|
    ensures Serial(eval, g, tokens[..i + 1]) == Step(eval, Serial(eval, g, tokens[..i]), tokens[i])
  {
    assert tokens[..i + 1][..i] == tokens[..i];
  }
}
