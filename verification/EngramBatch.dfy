/** The batch reader: requests sorted by table row, split among readers, a repeated row
    copied instead of read again, every output row back in token order. */
module EngramBatch {
  import opened Wrappers
  import opened Division

  const COLS: nat := 24
  const MAX_READERS: nat := 32
  const BATCH_TOKENS: nat := 2048
  const PARALLEL_MIN: nat := 256

  /** A decoded table row. */
  type Value = int

  /** `decoded` are the rows that can be read and decoded. */
  datatype Table = Table(rows: nat, decoded: map<nat, Value>)

  datatype Request = Request(row: nat, output: nat)

  predicate Readable(t: Table, row: nat) {
    row < t.rows && row in t.decoded
  }

  predicate SortedByRow(q: seq<Request>) {
    forall i, j :: 0 <= i < j < |q| ==> q[i].row <= q[j].row
  }

  ghost predicate IsSorter(sort: seq<Request> -> seq<Request>) {
    forall q :: Sorts(q, sort(q))
  }

  predicate Sorts(q: seq<Request>, s: seq<Request>) {
    SortedByRow(s) && multiset(s) == multiset(q)
  }

  // ---- Requests and outputs ------------------------------------------------

  /** One request per output, in token order. */
  function Requests(rows: seq<nat>): (q: seq<Request>)
    ensures |q| == |rows|
    ensures forall i: nat :: i < |rows| ==> q[i] == Request(rows[i], i)
  {
    seq(|rows|, i requires 0 <= i < |rows| => Request(rows[i], i))
  }

  /** Every output has exactly one request, for its own row. */
  predicate OnePerOutput(q: seq<Request>, rows: seq<nat>) {
    && |q| == |rows|
    && (forall i :: 0 <= i < |q| ==> q[i].output < |rows| && q[i].row == rows[q[i].output])
    && (forall i, j :: 0 <= i < j < |q| ==> q[i].output != q[j].output)
  }

  predicate Covers(q: seq<Request>, n: nat) {
    forall o: nat :: o < n ==> HasRequest(q, o)
  }

  predicate HasRequest(q: seq<Request>, o: nat) {
    exists i :: 0 <= i < |q| && q[i].output == o
  }

  lemma Twice(q: seq<Request>, i: nat, j: nat)
    requires i < j < |q| && q[i] == q[j]
    ensures multiset(q)[q[i]] >= 2
  {
    var x := q[i];
    assert q == q[..j] + q[j..];
    assert x in q[..j] by { assert q[..j][i] == x; }
    assert x in q[j..] by { assert q[j..][0] == x; }
    assert multiset(q) == multiset(q[..j]) + multiset(q[j..]);
  }

  lemma {:induction false} OnceOnly(rows: seq<nat>, n: nat, x: Request)
    requires n <= |rows|
    ensures multiset(Requests(rows)[..n])[x] <= 1
    ensures n <= x.output ==> multiset(Requests(rows)[..n])[x] == 0
  {
    var q := Requests(rows);
    if n > 0 {
      OnceOnly(rows, n - 1, x);
      assert q[..n] == q[..n - 1] + [q[n - 1]];
    }
  }

  /** Sorting keeps one request per output. */
  lemma SortedRequests(rows: seq<nat>, s: seq<Request>)
    requires multiset(s) == multiset(Requests(rows))
    ensures OnePerOutput(s, rows) && Covers(s, |rows|)
  {
    var q := Requests(rows);
    assert |s| == |multiset(s)| == |q|;
    forall i | 0 <= i < |s| ensures s[i] in q {
      assert s[i] in multiset(s);
    }
    assert q[..|rows|] == q;
    forall i, j | 0 <= i < j < |s| ensures s[i].output != s[j].output {
      assert s[i] in q && s[j] in q;
      OnceOnly(rows, |rows|, s[i]);
      if s[i].output == s[j].output {
        Twice(s, i, j);
      }
    }
    forall o: nat | o < |rows| ensures HasRequest(s, o) {
      assert q[o] in multiset(q) && q[o] in multiset(s);
      var i :| 0 <= i < |s| && s[i] == q[o];
    }
  }

  // ---- One part ------------------------------------------------------------

  /** Requests `lo` to `hi - 1` have their rows in the output. */
  predicate Filled(t: Table, q: seq<Request>, out: seq<Value>, base: nat, lo: nat, hi: nat) {
    forall i :: lo <= i < hi && i < |q| ==> FilledAt(t, q[i], out, base)
  }

  predicate FilledAt(t: Table, x: Request, out: seq<Value>, base: nat) {
    base + x.output < |out| && Readable(t, x.row) && out[base + x.output] == t.decoded[x.row]
  }

  predicate AllReadable(t: Table, q: seq<Request>, lo: nat, hi: nat) {
    forall i :: lo <= i < hi && i < |q| ==> Readable(t, q[i].row)
  }

  /** Nothing changed but outputs of requests `lo` to `hi - 1`. */
  predicate Touches(q: seq<Request>, a: seq<Value>, b: seq<Value>, base: nat, lo: nat, hi: nat) {
    |a| == |b| && forall k: nat :: k < |a| && a[k] != b[k] ==> Requested(q, base, lo, hi, k)
  }

  predicate Requested(q: seq<Request>, base: nat, lo: nat, hi: nat, k: nat) {
    exists i :: lo <= i < hi && i < |q| && k == base + q[i].output
  }

  method ReadRow(t: Table, row: nat) returns (r: Option<Value>)
    ensures r == if Readable(t, row) then Some(t.decoded[row]) else None
  {
    if row >= t.rows || row !in t.decoded {
      return None;
    }
    return Some(t.decoded[row]);
  }

  /** A reader's share of the sorted requests. */
  method ReadPart(t: Table, q: seq<Request>, lo: nat, hi: nat, out: array<Value>, base: nat, ghost rows: seq<nat>) returns (ok: bool)
    requires OnePerOutput(q, rows) && lo <= hi <= |q| && base + |rows| <= out.Length
    modifies out
    ensures ok == AllReadable(t, q, lo, hi)
    ensures ok ==> Filled(t, q, out[..], base, lo, hi)
    ensures Touches(q, old(out[..]), out[..], base, lo, hi)
  {
    var previous: nat := 0;
    for i := lo to hi
      invariant Filled(t, q, out[..], base, lo, i) && Touches(q, old(out[..]), out[..], base, lo, i)
      invariant i > lo ==> Readable(t, q[i - 1].row) && previous < out.Length && out[previous] == t.decoded[q[i - 1].row]
    {
      var dst := base + q[i].output;
      ghost var before := out[..];
      if i > lo && q[i].row == q[i - 1].row {
        out[dst] := out[previous];
      } else {
        var v := ReadRow(t, q[i].row);
        if v.None? {
          WidenTouches(q, old(out[..]), out[..], base, lo, i, hi);
          return false;
        }
        out[dst] := v.value;
        previous := dst;
      }
      OneMore(t, q, before, out[..], base, lo, i, rows);
      TouchOne(q, old(out[..]), before, out[..], base, lo, i);
    }
    return true;
  }

  lemma OneMore(t: Table, q: seq<Request>, a: seq<Value>, b: seq<Value>, base: nat, lo: nat, i: nat, rows: seq<nat>)
    requires OnePerOutput(q, rows) && lo <= i < |q| && base + |rows| <= |a| && Filled(t, q, a, base, lo, i)
    requires Readable(t, q[i].row) && b == a[base + q[i].output := t.decoded[q[i].row]]
    ensures Filled(t, q, b, base, lo, i + 1)
  {
    forall k | lo <= k < i + 1 ensures FilledAt(t, q[k], b, base) {
      if k < i { assert FilledAt(t, q[k], a, base); }
    }
  }

  lemma TouchOne(q: seq<Request>, first: seq<Value>, a: seq<Value>, b: seq<Value>, base: nat, lo: nat, i: nat)
    requires lo <= i < |q| && base + q[i].output < |a| == |b| && Touches(q, first, a, base, lo, i)
    requires b == a[base + q[i].output := b[base + q[i].output]]
    ensures Touches(q, first, b, base, lo, i + 1)
  {
    forall k: nat | k < |b| && first[k] != b[k] ensures Requested(q, base, lo, i + 1, k) {
      if k != base + q[i].output {
        assert first[k] != a[k];
        assert Requested(q, base, lo, i, k);
      }
    }
  }

  lemma WidenTouches(q: seq<Request>, a: seq<Value>, b: seq<Value>, base: nat, lo: nat, i: nat, hi: nat)
    requires Touches(q, a, b, base, lo, i) && i <= hi
    ensures Touches(q, a, b, base, lo, hi)
  {
    forall k: nat | k < |a| && a[k] != b[k] ensures Requested(q, base, lo, hi, k) {
      assert Requested(q, base, lo, i, k);
    }
  }

  lemma OthersOutput(q: seq<Request>, base: nat, x: nat, y: nat, i: nat, rows: seq<nat>)
    requires OnePerOutput(q, rows) && i < |q| && !(x <= i < y)
    ensures !Requested(q, base, x, y, base + q[i].output)
  {
  }

  /** Another part's writes leave a filled part filled. */
  lemma FilledKept(t: Table, q: seq<Request>, a: seq<Value>, b: seq<Value>, base: nat, lo: nat, hi: nat, x: nat, y: nat, rows: seq<nat>)
    requires OnePerOutput(q, rows) && Filled(t, q, a, base, lo, hi) && Touches(q, a, b, base, x, y) && (hi <= x || y <= lo)
    ensures Filled(t, q, b, base, lo, hi)
  {
    forall i | lo <= i < hi && i < |q| ensures FilledAt(t, q[i], b, base) {
      assert FilledAt(t, q[i], a, base);
      OthersOutput(q, base, x, y, i, rows);
    }
  }

  // ---- A block -------------------------------------------------------------

  /** The order in which the parts of a block are finished when `started` threads could be
      created: the caller runs the first part and those without a thread. */
  function PartOrder(readers: nat, started: nat): (order: seq<nat>)
    requires started < readers
    ensures |order| == readers && forall k :: 0 <= k < readers ==> order[k] < readers
  {
    seq(readers, k requires 0 <= k < readers =>
      if k == 0 then 0 else if k < readers - started then started + k else k - (readers - started) + 1)
  }

  lemma PartOrderCovers(readers: nat, started: nat, p: nat)
    requires started < readers && p < readers
    ensures p in PartOrder(readers, started)
  {
    var k := if p == 0 then 0 else if p > started then p - started else p + (readers - started) - 1;
    assert PartOrder(readers, started)[k] == p;
  }

  predicate PartDone(t: Table, q: seq<Request>, out: seq<Value>, base: nat, readers: nat, p: nat, failed: bool)
    requires 0 < readers
  {
    var lo, hi := Share(|q|, readers, p), Share(|q|, readers, p + 1);
    failed == !AllReadable(t, q, lo, hi) && (!failed ==> Filled(t, q, out, base, lo, hi))
  }

  lemma DoneKept(t: Table, q: seq<Request>, a: seq<Value>, b: seq<Value>, base: nat, readers: nat, p: nat, failed: bool, r: nat, rows: seq<nat>)
    requires OnePerOutput(q, rows) && p < readers && r < readers && p != r && PartDone(t, q, a, base, readers, p, failed)
    requires Touches(q, a, b, base, Share(|q|, readers, r), Share(|q|, readers, r + 1))
    ensures PartDone(t, q, b, base, readers, p, failed)
  {
    if p < r { ShareMono(|q|, readers, p + 1, r); } else { ShareMono(|q|, readers, r + 1, p); }
    if !failed {
      FilledKept(t, q, a, b, base, Share(|q|, readers, p), Share(|q|, readers, p + 1), Share(|q|, readers, r), Share(|q|, readers, r + 1), rows);
    }
  }

  /** Nothing outside the block's outputs changes. */
  predicate Outside(a: seq<Value>, b: seq<Value>, base: nat, n: nat) {
    |a| == |b| && forall k: nat :: k < |a| && !(base <= k < base + n) ==> a[k] == b[k]
  }

  lemma TouchesInside(q: seq<Request>, a: seq<Value>, b: seq<Value>, base: nat, lo: nat, hi: nat, rows: seq<nat>)
    requires OnePerOutput(q, rows) && Touches(q, a, b, base, lo, hi)
    ensures Outside(a, b, base, |rows|)
  {
    forall k: nat | k < |a| && !(base <= k < base + |rows|) ensures a[k] == b[k] {
      assert !Requested(q, base, lo, hi, k);
    }
  }

  /** Every part, in the given order; a part that comes up again does no harm. */
  method RunParts(t: Table, q: seq<Request>, readers: nat, order: seq<nat>, out: array<Value>, base: nat, ghost rows: seq<nat>)
    returns (failed: seq<bool>)
    requires OnePerOutput(q, rows) && base + |rows| <= out.Length && 0 < readers
    requires (forall k :: 0 <= k < |order| ==> order[k] < readers) && forall p: nat :: p < readers ==> p in order
    modifies out
    ensures |failed| == readers && forall p: nat :: p < readers ==> PartDone(t, q, out[..], base, readers, p, failed[p])
    ensures Outside(old(out[..]), out[..], base, |rows|)
  {
    failed := seq(readers, _ => false);
    for k := 0 to |order|
      invariant |failed| == readers && Outside(old(out[..]), out[..], base, |rows|)
      invariant forall p: nat :: p < readers && p in order[..k] ==> PartDone(t, q, out[..], base, readers, p, failed[p])
    {
      var part := order[k];
      ShareMono(|q|, readers, part, part + 1);
      ghost var before, flags := out[..], failed;
      var ok := ReadPart(t, q, Share(|q|, readers, part), Share(|q|, readers, part + 1), out, base, rows);
      failed := failed[part := !ok];
      TouchesInside(q, before, out[..], base, Share(|q|, readers, part), Share(|q|, readers, part + 1), rows);
      forall p: nat | p < readers && p in order[..k + 1] ensures PartDone(t, q, out[..], base, readers, p, failed[p]) {
        if p != part {
          assert p in order[..k];
          DoneKept(t, q, before, out[..], base, readers, p, flags[p], part, rows);
        }
      }
    }
    assert order[..|order|] == order;
  }

  /** Whether every row of a block can be read, and what the output then holds. */
  predicate BlockRead(t: Table, rows: seq<nat>, out: seq<Value>, base: nat, ok: bool) {
    && base + |rows| <= |out|
    && ok == (forall o :: 0 <= o < |rows| ==> Readable(t, rows[o]))
    && (ok ==> forall o: nat :: o < |rows| ==> out[base + o] == t.decoded[rows[o]])
  }

  lemma PartsComplete(t: Table, q: seq<Request>, rows: seq<nat>, out: seq<Value>, base: nat, readers: nat, failed: seq<bool>)
    requires OnePerOutput(q, rows) && Covers(q, |rows|) && base + |rows| <= |out| && 0 < readers == |failed|
    requires forall p: nat :: p < readers ==> PartDone(t, q, out, base, readers, p, failed[p])
    ensures BlockRead(t, rows, out, base, forall p :: 0 <= p < readers ==> !failed[p])
  {
    forall o: nat | o < |rows|
      ensures (forall p :: 0 <= p < readers ==> !failed[p]) ==> Readable(t, rows[o]) && out[base + o] == t.decoded[rows[o]]
    {
      assert HasRequest(q, o);
      var i: nat :| i < |q| && q[i].output == o;
      ShareMono(|q|, readers, 0, 0);
      var p := ShareOwner(|q|, readers, i, readers);
      assert PartDone(t, q, out, base, readers, p, failed[p]);
      if !failed[p] { assert FilledAt(t, q[i], out, base); }
    }
    if forall o :: 0 <= o < |rows| ==> Readable(t, rows[o]) {
      forall p: nat | p < readers ensures !failed[p] {
        assert PartDone(t, q, out, base, readers, p, failed[p]);
      }
    }
  }

  method ReadBlock(t: Table, rows: seq<nat>, out: array<Value>, base: nat, readers: nat, started: nat, sort: seq<Request> -> seq<Request>)
    returns (ok: bool)
    requires base + |rows| <= out.Length && started < readers && IsSorter(sort)
    modifies out
    ensures BlockRead(t, rows, out[..], base, ok) && Outside(old(out[..]), out[..], base, |rows|)
  {
    var q := sort(Requests(rows));
    assert Sorts(Requests(rows), q);
    SortedRequests(rows, q);
    var used, order := 1, [0];
    if |rows| >= PARALLEL_MIN {
      used, order := readers, PartOrder(readers, started);
    }
    forall p: nat | p < used ensures p in order {
      if |rows| >= PARALLEL_MIN { PartOrderCovers(readers, started, p); }
    }
    var failed := RunParts(t, q, used, order, out, base, rows);
    PartsComplete(t, q, rows, out[..], base, used, failed);
    for p := 0 to used
      invariant forall k :: 0 <= k < p ==> !failed[k]
    {
      if failed[p] {
        return false;
      }
    }
    return true;
  }

  // ---- The batch -----------------------------------------------------------

  /** The row id of token `i`, column `j`. */
  function RowAt(rows: seq<nat>, stride: nat, i: nat, j: nat): nat {
    if i * stride + j < |rows| then rows[i * stride + j] else 0
  }

  /** The row ids of tokens `start` to `start + n - 1`, column by column. */
  function BlockRows(rows: seq<nat>, stride: nat, start: nat, n: nat): (b: seq<nat>)
    ensures |b| == n * COLS
  {
    seq(n * COLS, i requires 0 <= i < n * COLS => RowAt(rows, stride, start + i / COLS, i % COLS))
  }

  predicate ArgumentsOk(tokens: nat, stride: nat, readers: nat) {
    1 <= readers <= MAX_READERS && (tokens > 0 ==> stride >= COLS)
  }

  /** The simple read: output `i * 24 + j` is the row asked for by token `i`, column `j`. */
  predicate ReadTo(t: Table, rows: seq<nat>, stride: nat, out: seq<Value>, tokens: nat) {
    tokens * COLS <= |out| && forall k: nat :: k < tokens * COLS ==> ReadAt(t, rows, stride, out, k)
  }

  predicate ReadAt(t: Table, rows: seq<nat>, stride: nat, out: seq<Value>, k: nat)
    requires k < |out|
  {
    var row := RowAt(rows, stride, k / COLS, k % COLS);
    Readable(t, row) && out[k] == t.decoded[row]
  }

  ghost predicate SomeUnreadable(t: Table, rows: seq<nat>, stride: nat, tokens: nat) {
    exists k: nat :: k < tokens * COLS && !Readable(t, RowAt(rows, stride, k / COLS, k % COLS))
  }

  lemma BlockJoins(t: Table, rows: seq<nat>, stride: nat, a: seq<Value>, b: seq<Value>, start: nat, n: nat)
    requires ReadTo(t, rows, stride, a, start) && Outside(a, b, start * COLS, n * COLS)
    requires BlockRead(t, BlockRows(rows, stride, start, n), b, start * COLS, true)
    ensures ReadTo(t, rows, stride, b, start + n)
  {
    hide RowAt;
    var block, base := BlockRows(rows, stride, start, n), start * COLS;
    forall k: nat | k < (start + n) * COLS ensures ReadAt(t, rows, stride, b, k) {
      if k < base {
        assert ReadAt(t, rows, stride, a, k);
      } else {
        var o: nat := k - base;
        PlaceOf(start, o);
        assert block[o] == RowAt(rows, stride, k / COLS, k % COLS);
        assert b[base + o] == t.decoded[block[o]];
      }
    }
  }

  lemma PlaceOf(start: nat, o: nat)
    ensures (start * COLS + o) / COLS == start + o / COLS && (start * COLS + o) % COLS == o % COLS
  {
  }

  lemma BlockFails(t: Table, rows: seq<nat>, stride: nat, b: seq<Value>, start: nat, n: nat, tokens: nat)
    requires start + n <= tokens && BlockRead(t, BlockRows(rows, stride, start, n), b, start * COLS, false)
    ensures SomeUnreadable(t, rows, stride, tokens)
  {
    var block := BlockRows(rows, stride, start, n);
    var o :| 0 <= o < |block| && !Readable(t, block[o]);
    var k: nat := start * COLS + o;
    PlaceOf(start, o);
    assert block[o] == RowAt(rows, stride, k / COLS, k % COLS);
    assert o < n * COLS && k < tokens * COLS;
  }

  /** Main result: for any stride, reader count, blocks and threads that failed to start, a batch
      read that succeeds has written what the simple read would, and it fails exactly for
      unusable arguments or rows that cannot be read. */
  method ReadBatch(t: Table, rows: seq<nat>, tokens: nat, stride: nat, out: array<Value>, readers: nat,
                   started: nat -> nat, sort: seq<Request> -> seq<Request>) returns (ok: bool)
    requires out.Length == tokens * COLS && IsSorter(sort)
    modifies out
    ensures ok ==> ArgumentsOk(tokens, stride, readers) && ReadTo(t, rows, stride, out[..], tokens)
    ensures !ok ==> !ArgumentsOk(tokens, stride, readers) || SomeUnreadable(t, rows, stride, tokens)
  {
    if readers < 1 || readers > MAX_READERS || (tokens > 0 && stride < COLS) {
      return false;
    }
    for i := 0 to tokens {
      for j := 0 to COLS {
        if RowAt(rows, stride, i, j) >= t.rows {
          assert (i * COLS + j) / COLS == i && (i * COLS + j) % COLS == j;
          return false;
        }
      }
    }
    var cap := if tokens < BATCH_TOKENS then tokens else BATCH_TOKENS;
    var start: nat := 0;
    while start < tokens
      invariant start <= tokens && ReadTo(t, rows, stride, out[..], start)
      invariant tokens > 0 ==> cap > 0
      decreases tokens - start
    {
      var n := if tokens - start < cap then tokens - start else cap;
      ghost var before := out[..];
      var less := started(start) % readers;
      ok := ReadBlock(t, BlockRows(rows, stride, start, n), out, start * COLS, readers, less, sort);
      if !ok {
        BlockFails(t, rows, stride, out[..], start, n, tokens);
        return false;
      }
      BlockJoins(t, rows, stride, before, out[..], start, n);
      start := start + n;
    }
    return true;
  }

  // ---- Any schedule --------------------------------------------------------

  /** One reader: the next request, and where its last row read was written. */
  datatype Part = Part(next: nat, previous: nat, failed: bool)

  /** `writes` counts the writes of each output. */
  datatype State = State(parts: seq<Part>, out: seq<Value>, writes: seq<nat>)

  function Lo(q: seq<Request>, readers: nat, p: nat): nat
    requires 0 < readers
  {
    Share(|q|, readers, p)
  }

  predicate Enabled(q: seq<Request>, readers: nat, s: State, p: nat) {
    && 0 < readers == |s.parts| && p < readers && !s.parts[p].failed && s.parts[p].next < Lo(q, readers, p + 1)
    && Lo(q, readers, p + 1) <= |q| && |s.out| == |s.writes| == |q| && s.parts[p].previous < |q|
    && q[s.parts[p].next].output < |q|
  }

  /** One request of part `p`. */
  function Step(t: Table, q: seq<Request>, readers: nat, s: State, p: nat): State
    requires Enabled(q, readers, s, p)
  {
    var i := s.parts[p].next;
    var dst := q[i].output;
    if i > Lo(q, readers, p) && i > 0 && q[i].row == q[i - 1].row then
      State(s.parts[p := s.parts[p].(next := i + 1)], s.out[dst := s.out[s.parts[p].previous]], s.writes[dst := s.writes[dst] + 1])
    else if !Readable(t, q[i].row) then s.(parts := s.parts[p := s.parts[p].(failed := true)])
    else
      State(s.parts[p := Part(i + 1, dst, false)], s.out[dst := t.decoded[q[i].row]], s.writes[dst := s.writes[dst] + 1])
  }

  predicate Initial(q: seq<Request>, readers: nat, s: State) {
    && 0 < readers == |s.parts| && |s.out| == |s.writes| == |q| && (forall o :: 0 <= o < |q| ==> s.writes[o] == 0)
    && forall p: nat :: p < readers ==> s.parts[p] == Part(Lo(q, readers, p), 0, false)
  }

  ghost predicate IsRun(t: Table, q: seq<Request>, readers: nat, states: seq<State>, steps: seq<nat>) {
    && |states| == |steps| + 1 && Initial(q, readers, states[0])
    && forall i :: 0 <= i < |steps| ==> Enabled(q, readers, states[i], steps[i]) && states[i + 1] == Step(t, q, readers, states[i], steps[i])
  }

  predicate PartHolds(t: Table, q: seq<Request>, readers: nat, s: State, p: nat)
    requires 0 < readers == |s.parts| && p < readers && |s.out| == |s.writes| == |q|
  {
    var x, lo, hi := s.parts[p], Lo(q, readers, p), Lo(q, readers, p + 1);
    && lo <= x.next <= hi <= |q| && Filled(t, q, s.out, 0, lo, x.next)
    && (forall i: nat :: lo <= i < hi ==> Counted(q, s.writes, i, x.next))
    && (x.next > lo ==> x.previous < |q| && Requested(q, 0, lo, x.next, x.previous) && Readable(t, q[x.next - 1].row)
                        && s.out[x.previous] == t.decoded[q[x.next - 1].row])
    && (x.failed ==> x.next < hi && !Readable(t, q[x.next].row))
  }

  /** Request `i` has written its output once, if its part has got past it. */
  predicate Counted(q: seq<Request>, writes: seq<nat>, i: nat, next: nat) {
    i < |q| && q[i].output < |writes| && writes[q[i].output] == if i < next then 1 else 0
  }

  predicate Inv(t: Table, q: seq<Request>, readers: nat, s: State) {
    0 < readers == |s.parts| && |s.out| == |s.writes| == |q| && forall p: nat :: p < readers ==> PartHolds(t, q, readers, s, p)
  }

  lemma StepKeepsOther(t: Table, q: seq<Request>, readers: nat, s: State, p: nat, r: nat, rows: seq<nat>)
    requires OnePerOutput(q, rows) && Inv(t, q, readers, s) && Enabled(q, readers, s, p) && r < readers && r != p
    ensures PartHolds(t, q, readers, Step(t, q, readers, s, p), r)
  {
    var n, i, lo, hi := Step(t, q, readers, s, p), s.parts[p].next, Lo(q, readers, r), Lo(q, readers, r + 1);
    assert PartHolds(t, q, readers, s, r) && PartHolds(t, q, readers, s, p);
    if r < p { ShareMono(|q|, readers, r + 1, p); } else { ShareMono(|q|, readers, p + 1, r); }
    assert i < lo || hi <= i;
    forall k | lo <= k < s.parts[r].next ensures FilledAt(t, q[k], n.out, 0) {
      assert FilledAt(t, q[k], s.out, 0);
    }
    forall k: nat | lo <= k < hi ensures Counted(q, n.writes, k, n.parts[r].next) {
      assert Counted(q, s.writes, k, s.parts[r].next);
    }
  }

  lemma StepKeepsOwn(t: Table, q: seq<Request>, readers: nat, s: State, p: nat, rows: seq<nat>)
    requires OnePerOutput(q, rows) && Inv(t, q, readers, s) && Enabled(q, readers, s, p)
    ensures PartHolds(t, q, readers, Step(t, q, readers, s, p), p)
  {
    var n, i, lo, hi := Step(t, q, readers, s, p), s.parts[p].next, Lo(q, readers, p), Lo(q, readers, p + 1);
    assert PartHolds(t, q, readers, s, p);
    assert Counted(q, s.writes, i, i);
    if !n.parts[p].failed {
      forall k | lo <= k < i + 1 ensures FilledAt(t, q[k], n.out, 0) {
        if k < i { assert FilledAt(t, q[k], s.out, 0); }
      }
      assert FilledAt(t, q[i], n.out, 0);
      assert Requested(q, 0, lo, i + 1, q[i].output);
    }
    forall k: nat | lo <= k < hi ensures Counted(q, n.writes, k, n.parts[p].next) {
      assert Counted(q, s.writes, k, i);
    }
  }

  lemma InitialInv(t: Table, q: seq<Request>, readers: nat, s: State, rows: seq<nat>)
    requires OnePerOutput(q, rows) && Initial(q, readers, s)
    ensures Inv(t, q, readers, s)
  {
    forall p: nat | p < readers ensures PartHolds(t, q, readers, s, p) {
      ShareMono(|q|, readers, p, p + 1);
    }
  }

  lemma {:induction false} RunInv(t: Table, q: seq<Request>, readers: nat, states: seq<State>, steps: seq<nat>, i: nat, rows: seq<nat>)
    requires OnePerOutput(q, rows) && IsRun(t, q, readers, states, steps) && i < |states|
    ensures Inv(t, q, readers, states[i])
  {
    if i == 0 {
      InitialInv(t, q, readers, states[0], rows);
    } else {
      RunInv(t, q, readers, states, steps, i - 1, rows);
      forall r: nat | r < readers ensures PartHolds(t, q, readers, states[i], r) {
        if r == steps[i - 1] { StepKeepsOwn(t, q, readers, states[i - 1], r, rows); }
        else { StepKeepsOther(t, q, readers, states[i - 1], steps[i - 1], r, rows); }
      }
    }
  }

  /** In every interleaving of the parts, once all have run to their end without a failure every
      output was written exactly once, with its own row; a part fails only at a row that cannot be read. */
  lemma AnySchedule(t: Table, q: seq<Request>, readers: nat, states: seq<State>, steps: seq<nat>, i: nat, rows: seq<nat>)
    requires OnePerOutput(q, rows) && Covers(q, |rows|) && IsRun(t, q, readers, states, steps) && i < |states|
    ensures |states[i].out| == |states[i].writes| == |rows| && |states[i].parts| == readers
    ensures (forall p :: 0 <= p < readers ==> states[i].parts[p].next == Share(|q|, readers, p + 1)) ==>
              forall o: nat :: o < |rows| ==> Readable(t, rows[o]) && states[i].out[o] == t.decoded[rows[o]] && states[i].writes[o] == 1
    ensures forall p :: 0 <= p < readers && states[i].parts[p].failed ==> exists o: nat :: o < |rows| && !Readable(t, rows[o])
  {
    RunInv(t, q, readers, states, steps, i, rows);
    var s := states[i];
    if forall p :: 0 <= p < readers ==> s.parts[p].next == Share(|q|, readers, p + 1) {
      forall o: nat | o < |rows| ensures Readable(t, rows[o]) && s.out[o] == t.decoded[rows[o]] && s.writes[o] == 1 {
        assert HasRequest(q, o);
        var k: nat :| k < |q| && q[k].output == o;
        ShareMono(|q|, readers, 0, 0);
        var p := ShareOwner(|q|, readers, k, readers);
        assert PartHolds(t, q, readers, s, p);
        assert FilledAt(t, q[k], s.out, 0) && Counted(q, s.writes, k, s.parts[p].next);
      }
    }
    forall p | 0 <= p < readers && s.parts[p].failed ensures exists o: nat :: o < |rows| && !Readable(t, rows[o]) {
      assert PartHolds(t, q, readers, s, p);
      assert !Readable(t, rows[q[s.parts[p].next].output]);
    }
  }

  /** No part has a request left, or it failed. */
  predicate Finished(q: seq<Request>, readers: nat, s: State) {
    0 < readers == |s.parts| && forall p: nat :: p < readers ==> s.parts[p].failed || s.parts[p].next == Lo(q, readers, p + 1)
  }

  /** However the parts interleave, a finished block is what reading them one after another leaves. */
  lemma ScheduleIsBlock(t: Table, q: seq<Request>, readers: nat, states: seq<State>, steps: seq<nat>, i: nat, rows: seq<nat>,
                        out: seq<Value>, base: nat, ok: bool)
    requires OnePerOutput(q, rows) && Covers(q, |rows|) && IsRun(t, q, readers, states, steps) && i < |states|
    requires Finished(q, readers, states[i]) && BlockRead(t, rows, out, base, ok)
    ensures |states[i].parts| == readers && (ok <==> forall p :: 0 <= p < readers ==> !states[i].parts[p].failed)
    ensures ok ==> states[i].out == out[base..base + |rows|]
  {
    AnySchedule(t, q, readers, states, steps, i, rows);
    var s := states[i];
    if forall p :: 0 <= p < readers ==> !s.parts[p].failed {
      forall p | 0 <= p < readers ensures s.parts[p].next == Share(|q|, readers, p + 1) {
        assert !s.parts[p].failed;
      }
    }
  }

  /** So whatever the schedule of every block, the batch's output is that of the batch read. */
  lemma ScheduleIsBatch(t: Table, rows: seq<nat>, stride: nat, tokens: nat, out: seq<Value>, start: nat, n: nat,
                        q: seq<Request>, readers: nat, states: seq<State>, steps: seq<nat>, i: nat)
    requires ReadTo(t, rows, stride, out, tokens) && start + n <= tokens && |out| == tokens * COLS
    requires var block := BlockRows(rows, stride, start, n); OnePerOutput(q, block) && Covers(q, |block|)
    requires IsRun(t, q, readers, states, steps) && i < |states| && Finished(q, readers, states[i])
    ensures |states[i].parts| == readers && forall p :: 0 <= p < readers ==> !states[i].parts[p].failed
    ensures start * COLS + n * COLS <= |out| && states[i].out == out[start * COLS..start * COLS + n * COLS]
  {
    var block, base := BlockRows(rows, stride, start, n), start * COLS;
    forall o: nat | o < |block| ensures Readable(t, block[o]) && out[base + o] == t.decoded[block[o]] {
      PlaceOf(start, o);
      assert ReadAt(t, rows, stride, out, base + o);
    }
    ScheduleIsBlock(t, q, readers, states, steps, i, block, out, base, true);
  }
}
