/** The n-gram hash of the Engram lookup: a rolling history of the last tokens, and the
    definition over windows it must agree with. */
module EngramHash {
  import opened Wrappers
  import opened Words

  const LAYERS: nat := 2
  const NGRAM: nat := 4
  const HEADS: nat := 8
  const COLS: nat := 24
  const DEAD: int := -1
  const INT32_MAX: nat := 0x7fff_ffff
  const INT64_MAX: nat := 0x7fff_ffff_ffff_ffff

  datatype Layout = Layout(tokenMap: seq<nat>, compressed: nat, pad: nat, rows: seq<nat>,
                           multipliers: seq<seq<nat>>, primes: seq<seq<nat>>)

  predicate Shaped(l: Layout) {
    && |l.rows| == |l.multipliers| == |l.primes| == LAYERS
    && (forall k :: 0 <= k < LAYERS ==> |l.multipliers[k]| == NGRAM && |l.primes[k]| == COLS && l.rows[k] < U32)
  }

  predicate LayerOk(l: Layout, k: nat)
    requires Shaped(l) && k < LAYERS && 0 < l.compressed
  {
    && (forall i :: 0 <= i < NGRAM ==> l.multipliers[k][i] % 2 == 1 && l.multipliers[k][i] <= INT64_MAX / l.compressed)
    && (forall i :: 0 <= i < COLS ==> 2 <= l.primes[k][i])
    && Sum(l.primes[k]) == l.rows[k]
  }

  predicate LayoutOk(l: Layout) {
    && Shaped(l) && l.tokenMap != [] && 0 < l.compressed <= INT32_MAX && l.pad < l.compressed
    && (forall i :: 0 <= i < |l.tokenMap| ==> l.tokenMap[i] < l.compressed)
    && LayerOk(l, 0) && LayerOk(l, 1)
  }

  method ValidateLayout(l: Layout) returns (ok: bool)
    requires Shaped(l)
    ensures ok == LayoutOk(l)
  {
    if |l.tokenMap| == 0 || l.compressed == 0 || l.compressed > INT32_MAX || l.pad >= l.compressed {
      return false;
    }
    for i := 0 to |l.tokenMap|
      invariant forall k :: 0 <= k < i ==> l.tokenMap[k] < l.compressed
    {
      if l.tokenMap[i] >= l.compressed {
        return false;
      }
    }
    for k := 0 to LAYERS
      invariant forall j :: 0 <= j < k ==> LayerOk(l, j)
    {
      for i := 0 to NGRAM
        invariant forall j :: 0 <= j < i ==> l.multipliers[k][j] % 2 == 1 && l.multipliers[k][j] <= INT64_MAX / l.compressed
      {
        var m := l.multipliers[k][i];
        if m % 2 != 1 || m > INT64_MAX / l.compressed {
          assert !LayerOk(l, k);
          return false;
        }
      }
      var total := 0;
      for i := 0 to COLS
        invariant total == Sum(l.primes[k][..i]) && forall j :: 0 <= j < i ==> 2 <= l.primes[k][j]
      {
        if l.primes[k][i] < 2 {
          assert !LayerOk(l, k);
          return false;
        }
        assert l.primes[k][..i + 1][..i] == l.primes[k][..i];
        total := total + l.primes[k][i];
      }
      assert l.primes[k][..COLS] == l.primes[k];
      if total != l.rows[k] {
        assert !LayerOk(l, k);
        return false;
      }
    }
    return true;
  }

  // ---- The window definition -----------------------------------------------

  /** `s` is a stream of compressed ids, oldest first; DEAD stands for a masked or missing position. */
  predicate Stream(l: Layout, s: seq<int>) {
    forall i :: 0 <= i < |s| ==> DEAD <= s[i] < l.compressed
  }

  /** Whether the `j + 1` positions up to `k` hold a dead one. */
  predicate Blocked(s: seq<int>, k: nat, j: nat)
    requires j <= k < |s|
  {
    s[k - j] == DEAD || (j > 0 && Blocked(s, k, j - 1))
  }

  lemma {:induction false} BlockedMeans(s: seq<int>, k: nat, j: nat)
    requires j <= k < |s|
    ensures Blocked(s, k, j) <==> DEAD in s[k - j..k + 1]
    decreases j
  {
    if j > 0 {
      BlockedMeans(s, k, j - 1);
      assert s[k - j..k + 1] == [s[k - j]] + s[k - (j - 1)..k + 1];
    } else {
      assert s[k - j..k + 1] == [s[k]];
    }
  }

  /** The id an n-gram sees `j` positions before `k`: padding, if the gram crosses a dead position on the way. */
  function Gram(l: Layout, s: seq<int>, k: nat, j: nat): (r: nat)
    requires Stream(l, s) && j <= k < |s|
  {
    if Blocked(s, k, j) then l.pad else assert s[k - j] != DEAD; s[k - j]
  }

  /** What the `j`-th position back adds to a hash. */
  function Term(l: Layout, layer: nat, s: seq<int>, k: nat, j: nat): nat
    requires Shaped(l) && layer < LAYERS && Stream(l, s) && j <= k < |s| && j < NGRAM
  {
    Gram(l, s, k, j) * l.multipliers[layer][j]
  }

  /** The hash of the window of `j + 1` positions that ends at `k`. */
  function WindowHash(l: Layout, layer: nat, s: seq<int>, k: nat, j: nat): nat
    requires Shaped(l) && layer < LAYERS && Stream(l, s) && j <= k < |s| && j < NGRAM
  {
    var term := Term(l, layer, s, k, j);
    if j == 0 then term else Xor(WindowHash(l, layer, s, k, j - 1), term)
  }

  /** The gram length of a column, less one. */
  function GramOf(col: nat): nat { col / HEADS + 1 }

  /** The table row of a column: its own hash range, behind those of the columns before it. */
  function RowOf(l: Layout, layer: nat, s: seq<int>, k: nat, col: nat): nat
    requires LayoutOk(l) && layer < LAYERS && col < COLS && Stream(l, s) && NGRAM - 1 <= k < |s|
  {
    WindowHash(l, layer, s, k, GramOf(col)) % l.primes[layer][col] + Sum(l.primes[layer][..col])
  }

  // ---- Its properties ------------------------------------------------------

  lemma TermFits(l: Layout, layer: nat, id: nat, j: nat)
    requires LayoutOk(l) && layer < LAYERS && j < NGRAM && id < l.compressed
    ensures id * l.multipliers[layer][j] <= INT64_MAX
  {
    var m := l.multipliers[layer][j];
    assert LayerOk(l, layer);
    ProductMono(id, l.compressed, m, INT64_MAX / l.compressed);
    assert l.compressed * (INT64_MAX / l.compressed) <= INT64_MAX;
  }

  lemma ProductMono(a: nat, b: nat, c: nat, d: nat)
    requires a <= b && c <= d
    ensures a * c <= b * d
  {
    assert a * c <= b * c;
    assert b * c <= b * d;
  }

  lemma GramFits(l: Layout, s: seq<int>, k: nat, j: nat)
    requires LayoutOk(l) && Stream(l, s) && j <= k < |s|
    ensures Gram(l, s, k, j) < l.compressed
  {
  }

  /** No product and no hash leaves 63 bits. */
  lemma {:induction false} HashFits(l: Layout, layer: nat, s: seq<int>, k: nat, j: nat)
    requires LayoutOk(l) && layer < LAYERS && Stream(l, s) && j <= k < |s| && j < NGRAM
    ensures Term(l, layer, s, k, j) < Pow2(63) && WindowHash(l, layer, s, k, j) < Pow2(63)
    decreases j
  {
    hide Term, Xor, Pow2;
    TermBelow(l, layer, s, k, j);
    if j > 0 {
      HashFits(l, layer, s, k, j - 1);
      XorFits(WindowHash(l, layer, s, k, j - 1), Term(l, layer, s, k, j), 63);
    }
  }

  lemma TermBelow(l: Layout, layer: nat, s: seq<int>, k: nat, j: nat)
    requires LayoutOk(l) && layer < LAYERS && Stream(l, s) && j <= k < |s| && j < NGRAM
    ensures Term(l, layer, s, k, j) < Pow2(63)
  {
    hide LayoutOk;
    WordSizes();
    GramFits(l, s, k, j);
    TermFits(l, layer, Gram(l, s, k, j), j);
  }

  /** Each column has its own range of rows, and all lie inside the layer's table. */
  lemma ColumnRange(l: Layout, layer: nat, s: seq<int>, k: nat, col: nat)
    requires LayoutOk(l) && layer < LAYERS && col < COLS && Stream(l, s) && NGRAM - 1 <= k < |s|
    ensures Sum(l.primes[layer][..col]) <= RowOf(l, layer, s, k, col) < Sum(l.primes[layer][..col + 1]) <= l.rows[layer] < U32
  {
    var p := l.primes[layer];
    assert LayerOk(l, layer);
    assert p[..col + 1][..col] == p[..col] && p[..COLS] == p;
    SumPrefix(p, col + 1, COLS);
  }

  lemma ColumnsDisjoint(l: Layout, layer: nat, s: seq<int>, k: nat, a: nat, t: seq<int>, m: nat, b: nat)
    requires LayoutOk(l) && layer < LAYERS && a < b < COLS && Stream(l, s) && NGRAM - 1 <= k < |s| && Stream(l, t) && NGRAM - 1 <= m < |t|
    ensures RowOf(l, layer, s, k, a) < RowOf(l, layer, t, m, b)
  {
    ColumnRange(l, layer, s, k, a);
    ColumnRange(l, layer, t, m, b);
    SumPrefix(l.primes[layer], a + 1, b);
  }

  predicate SameWindow(s: seq<int>, k: nat, t: seq<int>, m: nat, j: nat)
    requires j <= k < |s| && j <= m < |t|
  {
    s[k - j..k + 1] == t[m - j..m + 1]
  }

  lemma WindowAt(s: seq<int>, k: nat, t: seq<int>, m: nat, j: nat, i: nat)
    requires j <= k < |s| && j <= m < |t| && SameWindow(s, k, t, m, j) && i <= j
    ensures s[k - i] == t[m - i] && SameWindow(s, k, t, m, i)
  {
    assert s[k - j..k + 1][j - i] == t[m - j..m + 1][j - i];
    assert s[k - j..k + 1][j - i..] == s[k - i..k + 1] && t[m - j..m + 1][j - i..] == t[m - i..m + 1];
  }

  lemma GramLocal(l: Layout, s: seq<int>, k: nat, t: seq<int>, m: nat, j: nat)
    requires Stream(l, s) && Stream(l, t) && j <= k < |s| && j <= m < |t| && SameWindow(s, k, t, m, j)
    ensures Gram(l, s, k, j) == Gram(l, t, m, j)
  {
    BlockedMeans(s, k, j);
    BlockedMeans(t, m, j);
    WindowAt(s, k, t, m, j, j);
  }

  lemma {:induction false} HashLocal(l: Layout, layer: nat, s: seq<int>, k: nat, t: seq<int>, m: nat, j: nat)
    requires Shaped(l) && layer < LAYERS && Stream(l, s) && Stream(l, t) && j <= k < |s| && j <= m < |t| && j < NGRAM
    requires SameWindow(s, k, t, m, j)
    ensures WindowHash(l, layer, s, k, j) == WindowHash(l, layer, t, m, j)
    decreases j
  {
    GramLocal(l, s, k, t, m, j);
    if j > 0 {
      WindowAt(s, k, t, m, j, j - 1);
      HashLocal(l, layer, s, k, t, m, j - 1);
    }
  }

  /** A row depends on the last four positions and nothing else. */
  lemma RowLocal(l: Layout, layer: nat, s: seq<int>, k: nat, t: seq<int>, m: nat, col: nat)
    requires LayoutOk(l) && layer < LAYERS && col < COLS && Stream(l, s) && Stream(l, t)
    requires NGRAM - 1 <= k < |s| && NGRAM - 1 <= m < |t| && SameWindow(s, k, t, m, NGRAM - 1)
    ensures RowOf(l, layer, s, k, col) == RowOf(l, layer, t, m, col)
  {
    WindowAt(s, k, t, m, NGRAM - 1, GramOf(col));
    HashLocal(l, layer, s, k, t, m, GramOf(col));
  }

  // ---- The rolling hash ----------------------------------------------------

  /** Which calls are accepted: the history and the tokens must be in range. */
  predicate Accepts(l: Layout, tail: seq<int>, tokens: seq<int>) {
    && |tail| == NGRAM - 1 && (forall i :: 0 <= i < |tail| ==> DEAD <= tail[i] < l.compressed)
    && (forall i :: 0 <= i < |tokens| ==> 0 <= tokens[i] < |l.tokenMap|)
  }

  function Masked(mask: Option<seq<bool>>, i: nat): bool {
    mask.Some? && i < |mask.value| && !mask.value[i]
  }

  /** The compressed ids of a call's first `n` tokens. */
  function Ids(l: Layout, tokens: seq<int>, mask: Option<seq<bool>>, n: nat): (s: seq<int>)
    requires n <= |tokens| && forall i :: 0 <= i < |tokens| ==> 0 <= tokens[i] < |l.tokenMap|
    ensures |s| == n
  {
    if n == 0 then []
    else Ids(l, tokens, mask, n - 1) + [if Masked(mask, n - 1) then DEAD else l.tokenMap[tokens[n - 1]]]
  }

  /** The history, which is kept newest first, and the call's ids behind it. */
  function StreamOf(l: Layout, tail: seq<int>, tokens: seq<int>, mask: Option<seq<bool>>, n: nat): (s: seq<int>)
    requires n <= |tokens| && Accepts(l, tail, tokens)
    ensures |s| == NGRAM - 1 + n
  {
    [tail[2], tail[1], tail[0]] + Ids(l, tokens, mask, n)
  }

  lemma {:induction false} StreamOk(l: Layout, tail: seq<int>, tokens: seq<int>, mask: Option<seq<bool>>, n: nat)
    requires LayoutOk(l) && n <= |tokens| && Accepts(l, tail, tokens)
    ensures Stream(l, StreamOf(l, tail, tokens, mask, n))
  {
    if n > 0 {
      StreamOk(l, tail, tokens, mask, n - 1);
      var before, after := StreamOf(l, tail, tokens, mask, n - 1), StreamOf(l, tail, tokens, mask, n);
      assert after == before + [if Masked(mask, n - 1) then DEAD else l.tokenMap[tokens[n - 1]]];
    }
  }

  /** Output `p` of a call: token, then layer, then column. */
  function OutputAt(l: Layout, s: seq<int>, p: nat): nat
    requires LayoutOk(l) && Stream(l, s) && p / (LAYERS * COLS) + NGRAM - 1 < |s|
  {
    RowOf(l, p / COLS % LAYERS, s, p / (LAYERS * COLS) + NGRAM - 1, p % COLS)
  }

  /** The history holds the three positions before `k`, newest first. */
  predicate Holds(tail: seq<int>, s: seq<int>, k: nat)
    requires NGRAM - 1 <= k <= |s|
  {
    tail == [s[k - 1], s[k - 2], s[k - 3]]
  }

  predicate AreGrams(l: Layout, ids: seq<nat>, s: seq<int>, k: nat, n: nat)
    requires Stream(l, s) && n <= NGRAM <= k + 1 <= |s|
  {
    |ids| == NGRAM && forall j: nat :: j < n ==> ids[j] == Gram(l, s, k, j)
  }

  /** The ids an n-gram ending at `k` sees. */
  method Grams(l: Layout, tail: array<int>, current: int, ghost s: seq<int>, ghost k: nat) returns (ids: array<nat>)
    requires Stream(l, s) && tail.Length == NGRAM - 1 <= k < |s| && current == s[k] && Holds(tail[..], s, k)
    ensures fresh(ids) && ids.Length == NGRAM && AreGrams(l, ids[..], s, k, NGRAM)
  {
    assert tail[0] == tail[..][0] && tail[1] == tail[..][1] && tail[2] == tail[..][2];
    ids := new nat[NGRAM](_ => 0);
    var blocked := false;
    for j := 0 to NGRAM
      invariant blocked == (j > 0 && Blocked(s, k, j - 1)) && AreGrams(l, ids[..], s, k, j)
    {
      var id := if j != 0 then tail[j - 1] else current;
      assert id == s[k - j];
      blocked := blocked || id == DEAD;
      ids[j] := if blocked then l.pad else id;
    }
  }

  /** Columns `0 .. n - 1` of one position and layer stand at `at`. */
  predicate ColumnsAt(l: Layout, layer: nat, s: seq<int>, k: nat, rows: seq<nat>, at: nat, n: nat)
    requires LayoutOk(l) && layer < LAYERS && Stream(l, s) && NGRAM - 1 <= k < |s| && n <= COLS && at + n <= |rows|
  {
    forall c: nat :: c < n ==> rows[at + c] == RowOf(l, layer, s, k, c)
  }

  predicate SameBut(a: seq<nat>, b: seq<nat>, at: nat, n: nat) {
    |a| == |b| && forall q: nat :: q < |a| && !(at <= q < at + n) ==> a[q] == b[q]
  }

  /** The eight columns of one n-gram length. */
  method HashHeads(l: Layout, layer: nat, hash: nat, j: nat, offset: nat, rows: array<nat>, at: nat, ghost s: seq<int>, ghost k: nat)
    returns (next: nat)
    requires LayoutOk(l) && layer < LAYERS && Stream(l, s) && NGRAM - 1 <= k < |s| && at + COLS <= rows.Length && 0 < j < NGRAM
    requires hash == WindowHash(l, layer, s, k, j) && offset == Sum(l.primes[layer][..(j - 1) * HEADS])
    requires ColumnsAt(l, layer, s, k, rows[..], at, (j - 1) * HEADS)
    modifies rows
    ensures next == Sum(l.primes[layer][..j * HEADS])
    ensures ColumnsAt(l, layer, s, k, rows[..], at, j * HEADS) && SameBut(old(rows[..]), rows[..], at, COLS)
  {
    next := offset;
    for head := 0 to HEADS
      invariant next == Sum(l.primes[layer][..(j - 1) * HEADS + head])
      invariant ColumnsAt(l, layer, s, k, rows[..], at, (j - 1) * HEADS + head) && SameBut(old(rows[..]), rows[..], at, COLS)
    {
      var col := (j - 1) * HEADS + head;
      var prime := l.primes[layer][col];
      assert LayerOk(l, layer) && GramOf(col) == j;
      ghost var before := rows[..];
      rows[at + col] := hash % prime + next;
      ColumnAdded(l, layer, s, k, before, rows[..], at, col);
      assert l.primes[layer][..col + 1][..col] == l.primes[layer][..col];
      next := next + prime;
    }
  }

  lemma ColumnAdded(l: Layout, layer: nat, s: seq<int>, k: nat, a: seq<nat>, b: seq<nat>, at: nat, n: nat)
    requires LayoutOk(l) && layer < LAYERS && Stream(l, s) && NGRAM - 1 <= k < |s| && n < COLS && at + COLS <= |a| == |b|
    requires ColumnsAt(l, layer, s, k, a, at, n) && b == a[at + n := RowOf(l, layer, s, k, n)]
    ensures ColumnsAt(l, layer, s, k, b, at, n + 1)
  {
    forall c: nat | c < n + 1 ensures b[at + c] == RowOf(l, layer, s, k, c) {
      if c < n { assert a[at + c] == RowOf(l, layer, s, k, c); }
    }
  }

  /** One layer's columns for one position. */
  lemma FirstHash(l: Layout, layer: nat, s: seq<int>, k: nat)
    requires Shaped(l) && layer < LAYERS && Stream(l, s) && k < |s|
    ensures WindowHash(l, layer, s, k, 0) == Gram(l, s, k, 0) * l.multipliers[layer][0]
  {
  }

  lemma NextHash(l: Layout, layer: nat, s: seq<int>, k: nat, j: nat)
    requires Shaped(l) && layer < LAYERS && Stream(l, s) && 0 < j <= k < |s| && j < NGRAM
    ensures WindowHash(l, layer, s, k, j) == Xor(WindowHash(l, layer, s, k, j - 1), Gram(l, s, k, j) * l.multipliers[layer][j])
  {
  }

  lemma NoColumns(l: Layout, layer: nat, s: seq<int>, k: nat, rows: seq<nat>, at: nat)
    requires LayoutOk(l) && layer < LAYERS && Stream(l, s) && NGRAM - 1 <= k < |s| && at + COLS <= |rows|
    ensures ColumnsAt(l, layer, s, k, rows, at, 0)
  {
  }

  method HashLayer(l: Layout, layer: nat, ids: seq<nat>, rows: array<nat>, at: nat, ghost s: seq<int>, ghost k: nat)
    requires LayoutOk(l) && layer < LAYERS && Stream(l, s) && NGRAM - 1 <= k < |s| && at + COLS <= rows.Length
    requires AreGrams(l, ids, s, k, NGRAM)
    modifies rows
    ensures ColumnsAt(l, layer, s, k, rows[..], at, COLS) && SameBut(old(rows[..]), rows[..], at, COLS)
  {
    hide Xor, Gram, ColumnsAt;
    FirstHash(l, layer, s, k);
    NoColumns(l, layer, s, k, rows[..], at);
    assert ids[0] == Gram(l, s, k, 0);
    var hash, offset := ids[0] * l.multipliers[layer][0], 0;
    for j := 1 to NGRAM
      invariant hash == WindowHash(l, layer, s, k, j - 1) && offset == Sum(l.primes[layer][..(j - 1) * HEADS])
      invariant ColumnsAt(l, layer, s, k, rows[..], at, (j - 1) * HEADS) && SameBut(old(rows[..]), rows[..], at, COLS)
    {
      assert ids[j] == Gram(l, s, k, j);
      NextHash(l, layer, s, k, j);
      hash := Xor(hash, ids[j] * l.multipliers[layer][j]);
      offset := HashHeads(l, layer, hash, j, offset, rows, at, s, k);
    }
  }

  /** The outputs of the first `n` tokens of a call. */
  predicate OutputsHold(l: Layout, s: seq<int>, rows: seq<nat>, n: nat)
    requires LayoutOk(l) && Stream(l, s) && NGRAM - 1 + n <= |s|
  {
    n * (LAYERS * COLS) <= |rows| && forall p: nat :: p < n * (LAYERS * COLS) ==> rows[p] == OutputAt(l, s, p)
  }

  lemma OutputsGrow(l: Layout, s: seq<int>, a: seq<nat>, b: seq<nat>, n: nat)
    requires LayoutOk(l) && Stream(l, s) && NGRAM + n <= |s| && OutputsHold(l, s, a, n) && (n + 1) * (LAYERS * COLS) <= |b|
    requires SameBut(a, b, n * (LAYERS * COLS), LAYERS * COLS)
    requires ColumnsAt(l, 0, s, NGRAM - 1 + n, b, n * (LAYERS * COLS), COLS)
    requires ColumnsAt(l, 1, s, NGRAM - 1 + n, b, n * (LAYERS * COLS) + COLS, COLS)
    ensures OutputsHold(l, s, b, n + 1)
  {
    var at: nat := n * (LAYERS * COLS);
    forall p: nat | p < (n + 1) * (LAYERS * COLS) ensures b[p] == OutputAt(l, s, p) {
      if p < at {
        assert a[p] == OutputAt(l, s, p);
      } else if p < at + COLS {
        LayerOutput(l, 0, s, n, b, at, p - at);
      } else {
        LayerOutput(l, 1, s, n, b, at + COLS, p - at - COLS);
      }
    }
  }

  lemma LayerOutput(l: Layout, layer: nat, s: seq<int>, n: nat, b: seq<nat>, at: nat, c: nat)
    requires LayoutOk(l) && Stream(l, s) && NGRAM + n <= |s| && layer < LAYERS && c < COLS && at + COLS <= |b|
    requires at == n * (LAYERS * COLS) + layer * COLS && ColumnsAt(l, layer, s, NGRAM - 1 + n, b, at, COLS)
    ensures (at + c) / (LAYERS * COLS) == n && b[at + c] == OutputAt(l, s, at + c)
  {
    assert (at + c) / COLS == 2 * n + layer && (at + c) % COLS == c;
    assert b[at + c] == RowOf(l, layer, s, NGRAM - 1 + n, c);
  }

  /** Makes room at the front of the history. */
  method Shift(tail: array<int>, current: int)
    requires tail.Length == NGRAM - 1
    modifies tail
    ensures tail[..] == [current, old(tail[0]), old(tail[1])]
  {
    for j := NGRAM - 2 downto 0
      invariant forall m: nat :: m < NGRAM - 1 ==> tail[m] == if m <= j then old(tail[m]) else old(tail[m - 1])
    {
      tail[j + 1] := tail[j];
    }
    tail[0] := current;
  }

  method Hash(l: Layout, tail: array<int>, tokens: seq<int>, mask: Option<seq<bool>>, rows: array<nat>) returns (ok: bool)
    requires LayoutOk(l) && tail.Length == NGRAM - 1 && rows.Length == |tokens| * (LAYERS * COLS)
    modifies tail, rows
    ensures ok == Accepts(l, old(tail[..]), tokens)
    ensures !ok ==> tail[..] == old(tail[..]) && rows[..] == old(rows[..])
    ensures ok ==> var s := StreamOf(l, old(tail[..]), tokens, mask, |tokens|);
                   Stream(l, s) && Holds(tail[..], s, |s|) && OutputsHold(l, s, rows[..], |tokens|)
  {
    for i := 0 to NGRAM - 1
      invariant forall k :: 0 <= k < i ==> DEAD <= tail[k] < l.compressed
    {
      if tail[i] < DEAD || (tail[i] >= 0 && tail[i] >= l.compressed) {
        return false;
      }
    }
    for i := 0 to |tokens|
      invariant forall k :: 0 <= k < i ==> 0 <= tokens[k] < |l.tokenMap|
    {
      if tokens[i] < 0 || tokens[i] >= |l.tokenMap| {
        return false;
      }
    }
    ghost var was := tail[..];
    ghost var s := StreamOf(l, was, tokens, mask, |tokens|);
    StreamOk(l, was, tokens, mask, |tokens|);
    for i := 0 to |tokens|
      invariant Holds(tail[..], s, NGRAM - 1 + i) && OutputsHold(l, s, rows[..], i)
    {
      var current := if Masked(mask, i) then DEAD else l.tokenMap[tokens[i]];
      IdAt(l, was, tokens, mask, |tokens|, i);
      HashToken(l, tail, current, rows, i, s);
      assert tail[0] == tail[..][0] && tail[1] == tail[..][1];
      Shift(tail, current);
    }
    return true;
  }

  method HashToken(l: Layout, tail: array<int>, current: int, rows: array<nat>, i: nat, ghost s: seq<int>)
    requires LayoutOk(l) && Stream(l, s) && tail.Length == NGRAM - 1 && NGRAM + i <= |s| && current == s[NGRAM - 1 + i]
    requires Holds(tail[..], s, NGRAM - 1 + i) && OutputsHold(l, s, rows[..], i) && (i + 1) * (LAYERS * COLS) <= rows.Length
    modifies rows
    ensures OutputsHold(l, s, rows[..], i + 1)
  {
    var ids := Grams(l, tail, current, s, NGRAM - 1 + i);
    var at := i * (LAYERS * COLS);
    ghost var before := rows[..];
    HashLayer(l, 0, ids[..], rows, at, s, NGRAM - 1 + i);
    ghost var half := rows[..];
    HashLayer(l, 1, ids[..], rows, at + COLS, s, NGRAM - 1 + i);
    ColumnsKept(l, s, NGRAM - 1 + i, half, rows[..], at);
    OutputsGrow(l, s, before, rows[..], i);
  }

  lemma ColumnsKept(l: Layout, s: seq<int>, k: nat, a: seq<nat>, b: seq<nat>, at: nat)
    requires LayoutOk(l) && Stream(l, s) && NGRAM - 1 <= k < |s| && at + LAYERS * COLS <= |a|
    requires SameBut(a, b, at + COLS, COLS) && ColumnsAt(l, 0, s, k, a, at, COLS)
    ensures ColumnsAt(l, 0, s, k, b, at, COLS)
  {
    forall c: nat | c < COLS ensures b[at + c] == RowOf(l, 0, s, k, c) {
      assert a[at + c] == RowOf(l, 0, s, k, c);
    }
  }

  lemma {:induction false} IdAt(l: Layout, tail: seq<int>, tokens: seq<int>, mask: Option<seq<bool>>, n: nat, i: nat)
    requires i < n <= |tokens| && Accepts(l, tail, tokens)
    ensures StreamOf(l, tail, tokens, mask, n)[NGRAM - 1 + i] == if Masked(mask, i) then DEAD else l.tokenMap[tokens[i]]
  {
    if i < n - 1 { IdAt(l, tail, tokens, mask, n - 1, i); }
  }

  // ---- Chunks --------------------------------------------------------------

  lemma {:induction false} IdsConcat(l: Layout, a: seq<int>, b: seq<int>, maskA: Option<seq<bool>>, maskB: Option<seq<bool>>,
                                     mask: Option<seq<bool>>, n: nat)
    requires n <= |b|
    requires forall i :: 0 <= i < |a + b| ==> 0 <= (a + b)[i] < |l.tokenMap|
    requires forall i :: 0 <= i < |a| ==> 0 <= a[i] < |l.tokenMap|
    requires forall i :: 0 <= i < |b| ==> 0 <= b[i] < |l.tokenMap|
    requires forall i: nat :: i < |a| ==> Masked(mask, i) == Masked(maskA, i)
    requires forall i: nat :: i < |b| ==> Masked(mask, |a| + i) == Masked(maskB, i)
    ensures Ids(l, a + b, mask, |a| + n) == Ids(l, a, maskA, |a|) + Ids(l, b, maskB, n)
  {
    if n == 0 {
      IdsPrefix(l, a, b, maskA, mask, |a|);
    } else {
      var k: nat := n - 1;
      IdsConcat(l, a, b, maskA, maskB, mask, k);
      assert (a + b)[|a| + k] == b[k];
      assert Masked(mask, |a| + k) == Masked(maskB, k);
    }
  }

  lemma {:induction false} IdsPrefix(l: Layout, a: seq<int>, b: seq<int>, maskA: Option<seq<bool>>, mask: Option<seq<bool>>, n: nat)
    requires n <= |a|
    requires forall i :: 0 <= i < |a + b| ==> 0 <= (a + b)[i] < |l.tokenMap|
    requires forall i :: 0 <= i < |a| ==> 0 <= a[i] < |l.tokenMap|
    requires forall i: nat :: i < |a| ==> Masked(mask, i) == Masked(maskA, i)
    ensures Ids(l, a + b, mask, n) == Ids(l, a, maskA, n)
  {
    if n > 0 {
      var k: nat := n - 1;
      IdsPrefix(l, a, b, maskA, mask, k);
      assert (a + b)[k] == a[k];
      assert Masked(mask, k) == Masked(maskA, k);
    }
  }

  /** A call's masks, as one mask over two chunks. */
  predicate MasksJoin(na: nat, nb: nat, maskA: Option<seq<bool>>, maskB: Option<seq<bool>>, mask: Option<seq<bool>>) {
    && (forall i: nat :: i < na ==> Masked(mask, i) == Masked(maskA, i))
    && (forall i: nat :: i < nb ==> Masked(mask, na + i) == Masked(maskB, i))
  }

  /** Hashing two chunks one after the other gives the rows and the history of one call. */
  lemma ChunksCompose(l: Layout, tail: seq<int>, a: seq<int>, b: seq<int>, maskA: Option<seq<bool>>, maskB: Option<seq<bool>>,
                      mask: Option<seq<bool>>, mid: seq<int>)
    requires LayoutOk(l) && Accepts(l, tail, a) && Accepts(l, tail, a + b) && MasksJoin(|a|, |b|, maskA, maskB, mask)
    requires Holds(mid, StreamOf(l, tail, a, maskA, |a|), NGRAM - 1 + |a|)
    ensures Accepts(l, mid, b)
    ensures var whole, first, second := StreamOf(l, tail, a + b, mask, |a + b|), StreamOf(l, tail, a, maskA, |a|), StreamOf(l, mid, b, maskB, |b|);
            && Stream(l, whole) && Stream(l, first) && Stream(l, second)
            && whole == first[..|a|] + second && (forall t: seq<int> :: Holds(t, second, |second|) == Holds(t, whole, |whole|))
            && (forall p: nat :: p < |a| * (LAYERS * COLS) ==> OutputAt(l, whole, p) == OutputAt(l, first, p))
            && (forall p: nat :: p < |b| * (LAYERS * COLS) ==> OutputAt(l, whole, |a| * (LAYERS * COLS) + p) == OutputAt(l, second, p))
  {
    hide OutputAt, StreamOf;
    ChunkStreams(l, tail, a, b, maskA, maskB, mask, mid);
    var whole, first, second := StreamOf(l, tail, a + b, mask, |a + b|), StreamOf(l, tail, a, maskA, |a|), StreamOf(l, mid, b, maskB, |b|);
    SameHistory(whole, first, second, |a|);
    forall p: nat | p < |a| * (LAYERS * COLS) ensures OutputAt(l, whole, p) == OutputAt(l, first, p) {
      FirstOutput(l, whole, first, p);
    }
    forall p: nat | p < |b| * (LAYERS * COLS) ensures OutputAt(l, whole, |a| * (LAYERS * COLS) + p) == OutputAt(l, second, p) {
      SecondOutput(l, whole, first, second, |a|, p);
    }
  }

  lemma FirstOutput(l: Layout, whole: seq<int>, first: seq<int>, p: nat)
    requires LayoutOk(l) && Stream(l, whole) && Stream(l, first) && |first| <= |whole| && whole[..|first|] == first
    requires p / (LAYERS * COLS) + NGRAM - 1 < |first|
    ensures OutputAt(l, whole, p) == OutputAt(l, first, p)
  {
    var k := p / (LAYERS * COLS) + NGRAM - 1;
    assert whole[k - 3..k + 1] == first[k - 3..k + 1];
    RowLocal(l, p / COLS % LAYERS, whole, k, first, k, p % COLS);
  }

  lemma SameHistory(whole: seq<int>, first: seq<int>, second: seq<int>, n: nat)
    requires n <= |first| && whole == first[..n] + second && NGRAM - 1 <= |second|
    ensures forall t: seq<int> :: Holds(t, second, |second|) == Holds(t, whole, |whole|)
  {
    var m, k := |whole|, |second|;
    assert whole[m - 1] == second[k - 1] && whole[m - 2] == second[k - 2] && whole[m - 3] == second[k - 3];
  }

  lemma Places(n: nat, p: nat)
    ensures var q := n * (LAYERS * COLS) + p;
            q / COLS % LAYERS == p / COLS % LAYERS && q % COLS == p % COLS && q / (LAYERS * COLS) == n + p / (LAYERS * COLS)
  {
    var q := n * (LAYERS * COLS) + p;
    assert q / COLS == 2 * n + p / COLS;
  }

  lemma WindowMoves(whole: seq<int>, first: seq<int>, second: seq<int>, n: nat, k: nat)
    requires n <= |first| && whole == first[..n] + second && NGRAM - 1 <= k < |second|
    ensures n + k < |whole| && SameWindow(whole, n + k, second, k, NGRAM - 1)
  {
    assert whole[n..] == second;
    assert whole[n + k - 3..n + k + 1] == whole[n..][k - 3..k + 1];
  }

  lemma SecondOutput(l: Layout, whole: seq<int>, first: seq<int>, second: seq<int>, n: nat, p: nat)
    requires LayoutOk(l) && Stream(l, whole) && Stream(l, second) && n <= |first| && whole == first[..n] + second
    requires p / (LAYERS * COLS) + NGRAM - 1 < |second|
    ensures (n * (LAYERS * COLS) + p) / (LAYERS * COLS) == n + p / (LAYERS * COLS)
    ensures OutputAt(l, whole, n * (LAYERS * COLS) + p) == OutputAt(l, second, p)
  {
    hide RowOf, SameWindow;
    var k := p / (LAYERS * COLS) + NGRAM - 1;
    Places(n, p);
    WindowMoves(whole, first, second, n, k);
    RowLocal(l, p / COLS % LAYERS, whole, n + k, second, k, p % COLS);
  }

  lemma ChunkStreams(l: Layout, tail: seq<int>, a: seq<int>, b: seq<int>, maskA: Option<seq<bool>>, maskB: Option<seq<bool>>,
                     mask: Option<seq<bool>>, mid: seq<int>)
    requires LayoutOk(l) && Accepts(l, tail, a) && Accepts(l, tail, a + b) && MasksJoin(|a|, |b|, maskA, maskB, mask)
    requires Holds(mid, StreamOf(l, tail, a, maskA, |a|), NGRAM - 1 + |a|)
    ensures Accepts(l, mid, b)
    ensures var whole, first, second := StreamOf(l, tail, a + b, mask, |a + b|), StreamOf(l, tail, a, maskA, |a|), StreamOf(l, mid, b, maskB, |b|);
            Stream(l, whole) && Stream(l, first) && Stream(l, second) && whole == first[..|a|] + second && whole[..|first|] == first
  {
    hide Ids;
    StreamOk(l, tail, a, maskA, |a|);
    StreamOk(l, tail, a + b, mask, |a + b|);
    forall i | 0 <= i < |b| ensures 0 <= b[i] < |l.tokenMap| {
      assert (a + b)[|a| + i] == b[i];
    }
    IdsConcat(l, a, b, maskA, maskB, mask, |b|);
    StreamOk(l, mid, b, maskB, |b|);
    StreamsJoin([tail[2], tail[1], tail[0]], Ids(l, a, maskA, |a|), Ids(l, b, maskB, |b|), mid);
  }

  /** The history after the first chunk is the end of its stream. */
  lemma StreamsJoin(h: seq<int>, a: seq<int>, b: seq<int>, mid: seq<int>)
    requires |h| == NGRAM - 1 && Holds(mid, h + a, |h + a|)
    ensures h + (a + b) == (h + a)[..|a|] + ([mid[2], mid[1], mid[0]] + b) && (h + (a + b))[..|h + a|] == h + a
  {
    var s := h + a;
    assert s == s[..|a|] + [mid[2], mid[1], mid[0]];
    assert h + (a + b) == s + b;
  }
}
