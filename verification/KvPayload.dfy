/** How snapshots are read and written: counted reads, checked 64-bit sizes, shard by shard. */
module KvPayload {
  import opened Wrappers
  import opened Words
  import opened Bytes
  import opened KvSnapshot

  // ---- Checked arithmetic --------------------------------------------------

  function Add64(a: nat, b: nat): Option<nat> {
    if a + b < U64 then Some(a + b) else None
  }

  function Mul64(a: nat, b: nat): (r: Option<nat>)
    ensures r == if Times(a, b) < U64 then Some(Times(a, b)) else None
  {
    TimesIsProduct(a, b);
    if a * b < U64 then Some(a * b) else None
  }

  lemma TimesGrows(a: nat, b: nat)
    requires 0 < b
    ensures a <= Times(a, b)
  {
  }

  /** Four bytes for each of `a * b` values. */
  method FloatBytes(a: nat, b: nat) returns (r: Option<nat>)
    ensures r == if 4 * Times(a, b) < U64 then Some(4 * Times(a, b)) else None
  {
    r := Mul64(a, b);
    if r.Some? {
      r := if 4 * r.value < U64 then Some(4 * r.value) else None;
    }
  }

  method StateSize(ratio: nat, dim: nat) returns (r: Option<nat>)
    requires 0 < ratio
    ensures r == if StateBytes(ratio, dim) < U64 then Some(StateBytes(ratio, dim)) else None
  {
    var coff := if ratio == 4 then 2 else 1;
    TimesGrows(Times(coff, dim), coff);
    TimesGrows(Times(Times(coff, dim), coff), ratio);
    r := Mul64(coff, dim);
    if r.None? { return; }
    r := Mul64(r.value, coff);
    if r.None? { return; }
    r := FloatBytes(r.value, ratio);
  }

  /** The size of one layer's tensors, or nothing when it needs more than 64 bits. */
  method LayerSize(m: Model, l: Layout, layer: nat, nComp: nat, nIndex: nat) returns (r: Option<nat>)
    ensures r == if TensorBytes(m, l, layer, nComp, nIndex) < U64 then Some(TensorBytes(m, l, layer, nComp, nIndex)) else None
  {
    if m.glm {
      var bytes := m.glmBytes(layer, l.rawLive, l.headDim, l.indexerHeadDim, nComp, nIndex);
      return if bytes < U64 then Some(bytes) else None;
    }
    r := FloatBytes(l.rawLive, l.headDim);
    if r.None? { return; }
    var ratio := m.ratio(layer);
    if ratio == 0 { return; }
    var bytes := r.value;
    r := FloatBytes(nComp, l.headDim);
    if r.None? { return; }
    r := Add64(bytes, r.value);
    if r.None? { return; }
    bytes := r.value;
    var state := StateSize(ratio, l.headDim);
    if state.None? { return None; }
    r := Add64(bytes, state.value);
    if r.None? { return; }
    r := Add64(r.value, state.value);
    if r.None? || ratio != 4 { return; }
    bytes := r.value;
    r := FloatBytes(nIndex, l.indexerHeadDim);
    if r.None? { return; }
    r := Add64(bytes, r.value);
    if r.None? { return; }
    bytes := r.value;
    state := StateSize(4, l.indexerHeadDim);
    if state.None? { return None; }
    r := Add64(bytes, state.value);
    if r.None? { return; }
    r := Add64(r.value, state.value);
  }

  // ---- Reading -------------------------------------------------------------

  class Reader {
    const data: seq<Byte>
    var pos: nat

    predicate Valid()
      reads this
    {
      pos <= |data|
    }

    /** The bytes not read yet. */
    function Rest(): seq<Byte>
      reads this
      requires Valid()
    {
      data[pos..]
    }

    constructor (data: seq<Byte>)
      ensures Valid() && Rest() == data && this.data == data
    {
      this.data, pos := data, 0;
    }

    method ReadU32() returns (r: Option<nat>)
      requires Valid()
      modifies this
      ensures Valid() && (r.Some? <==> 4 <= |old(Rest())|)
      ensures r.Some? ==> r.value == U32Of(old(Rest())[..4]) && Rest() == old(Rest())[4..]
      ensures r.None? ==> Rest() == old(Rest())
    {
      if |data| - pos < 4 {
        return None;
      }
      r := Some(U32Of(data[pos..pos + 4]));
      pos := pos + 4;
    }

    method ReadBytes(n: nat) returns (r: Option<seq<Byte>>)
      requires Valid()
      modifies this
      ensures Valid() && (r.Some? <==> n <= |old(Rest())|)
      ensures r.Some? ==> r.value == old(Rest())[..n] && Rest() == old(Rest())[n..]
    {
      if |data| - pos < n {
        return None;
      }
      r := Some(data[pos..pos + n]);
      pos := pos + n;
    }

    method ReadWords(n: nat) returns (r: Option<seq<nat>>)
      requires Valid()
      modifies this
      ensures Valid() && (r.Some? <==> 4 * n <= |old(Rest())|)
      ensures r.Some? ==> r.value == Decode(old(Rest()), n) && Rest() == old(Rest())[4 * n..]
    {
      ghost var was := Rest();
      var xs := [];
      for i := 0 to n
        invariant Valid() && 4 * i <= |was| && xs == Decode(was, i) && Rest() == was[4 * i..]
      {
        var v := ReadU32();
        if v.None? {
          return None;
        }
        DecodeNext(was, i);
        assert was[4 * i..][..4] == was[4 * i..4 * i + 4];
        xs := xs + [v.value];
      }
      return Some(xs);
    }

    /** Row counts, each checked against the capacity as it is read. */
    method ReadCounts(counts: array<nat>, lo: nat, n: nat, cap: nat) returns (ok: bool)
      requires Valid() && lo + n <= counts.Length
      modifies this, counts
      ensures Valid() && ok == (4 * n <= |old(Rest())| && Within(Decode(old(Rest()), n), cap))
      ensures ok ==> Spliced(old(counts[..]), lo, Decode(old(Rest()), n), counts[..]) && Rest() == old(Rest())[4 * n..]
    {
      ghost var was, xs: seq<nat> := Rest(), [];
      for i := 0 to n
        invariant Valid() && 4 * i <= |was| && xs == Decode(was, i) && Within(xs, cap) && Rest() == was[4 * i..]
        invariant forall k :: 0 <= k < i ==> counts[lo + k] == xs[k]
        invariant forall k :: 0 <= k < counts.Length && !(lo <= k < lo + i) ==> counts[k] == old(counts[k])
      {
        var v := ReadU32();
        if v.None? {
          return false;
        }
        DecodeNext(was, i);
        assert was[4 * i..][..4] == was[4 * i..4 * i + 4];
        xs := xs + [v.value];
        counts[lo + i] := v.value;
        if v.value > cap {
          DecodePrefix(was, i + 1, n);
          assert xs[i] > cap;
          return false;
        }
      }
      return true;
    }
  }

  // ---- Writing -------------------------------------------------------------

  method WriteWords(out: seq<Byte>, xs: seq<nat>) returns (r: seq<Byte>)
    ensures r == out + Encode(xs)
  {
    r := out;
    for i := 0 to |xs|
      invariant r == out + Encode(xs[..i])
    {
      EncodeNext(xs[..i], xs[i]);
      assert xs[..i] + [xs[i]] == xs[..i + 1];
      r := r + Bytes4(xs[i]);
    }
    assert xs[..|xs|] == xs;
  }

  // ---- Ranges of layers ----------------------------------------------------

  lemma TotalNext(m: Model, l: Layout, lo: nat, nComp: seq<nat>, nIndex: seq<nat>, i: nat)
    requires |nComp| == |nIndex| && i < |nComp|
    ensures Total(m, l, lo, nComp[..i + 1], nIndex[..i + 1])
         == Total(m, l, lo, nComp[..i], nIndex[..i]) + TensorBytes(m, l, lo + i, nComp[i], nIndex[i])
    ensures Total(m, l, lo, nComp[..i + 1], nIndex[..i + 1]) <= Total(m, l, lo, nComp, nIndex)
  {
    hide TensorBytes;
    var sizes := Sizes(m, l, lo, nComp, nIndex);
    assert Sizes(m, l, lo, nComp[..i], nIndex[..i]) == sizes[..i];
    assert Sizes(m, l, lo, nComp[..i + 1], nIndex[..i + 1]) == sizes[..i + 1] == sizes[..i] + [sizes[i]];
    SumOnce(sizes[..i], sizes[i]);
    SumPrefix(sizes, i + 1, |sizes|);
    assert sizes[..|sizes|] == sizes;
  }

  lemma TotalNone(m: Model, l: Layout, lo: nat, nComp: seq<nat>, nIndex: seq<nat>)
    requires |nComp| == |nIndex|
    ensures Total(m, l, lo, nComp[..0], nIndex[..0]) == 0
  {
  }

  /** The bytes of a range of layers, each step checked. */
  method RangeSize(m: Model, l: Layout, lo: nat, nComp: seq<nat>, nIndex: seq<nat>) returns (r: Option<nat>)
    requires |nComp| == |nIndex|
    ensures r == if Total(m, l, lo, nComp, nIndex) < U64 then Some(Total(m, l, lo, nComp, nIndex)) else None
  {
    hide TensorBytes, Total;
    var sum: nat := 0;
    ghost var total := Total(m, l, lo, nComp, nIndex);
    TotalNone(m, l, lo, nComp, nIndex);
    for i := 0 to |nComp|
      invariant sum == Total(m, l, lo, nComp[..i], nIndex[..i]) < U64
    {
      TotalNext(m, l, lo, nComp, nIndex, i);
      ghost var next, size := Total(m, l, lo, nComp[..i + 1], nIndex[..i + 1]), TensorBytes(m, l, lo + i, nComp[i], nIndex[i]);
      assert next == sum + size && next <= total;
      var bytes := LayerSize(m, l, lo + i, nComp[i], nIndex[i]);
      if bytes.None? {
        return None;
      }
      r := Add64(sum, bytes.value);
      if r.None? {
        return;
      }
      sum := r.value;
    }
    assert nComp[..|nComp|] == nComp && nIndex[..|nIndex|] == nIndex;
    return Some(sum);
  }

  method ValidateRoute(n: nat, route: seq<Span>) returns (ok: bool)
    ensures ok == RouteOk(n, route)
  {
    if n == 0 || |route| == 0 || route[0].lo != 0 || route[0].hi >= n {
      assert |route| > 0 && RouteOk(n, route) ==> SpanFollows(n, route, 0);
      return false;
    }
    var prev := route[0].hi;
    for i := 1 to |route|
      invariant prev == route[i - 1].hi
      invariant forall k :: 0 <= k < i ==> SpanFollows(n, route, k)
    {
      if route[i].lo != prev + 1 || route[i].hi < route[i].lo || route[i].hi >= n {
        assert !SpanFollows(n, route, i);
        return false;
      }
      prev := route[i].hi;
    }
    return prev + 1 == n;
  }

  // ---- Shards --------------------------------------------------------------

  datatype ShardFile = ShardFile(layout: Layout, offset: nat, bytes: nat)

  predicate IsParsed(p: Parsed, n: nat, r: ShardFile, b: seq<Byte>) {
    && r.layout == p.layout && |p.nComp| == |p.nIndex| == n
    && r.offset + r.bytes == |b| && b[r.offset..] == p.flat
  }

  /** `b` is `a` with `xs` written over it from place `lo` on. */
  predicate Spliced(a: seq<nat>, lo: nat, xs: seq<nat>, b: seq<nat>) {
    && |a| == |b| && lo + |xs| <= |a|
    && (forall k :: 0 <= k < |xs| ==> b[lo + k] == xs[k])
    && (forall k :: 0 <= k < |a| && !(lo <= k < lo + |xs|) ==> b[k] == a[k])
  }

  /** The count arrays with a shard's counts written from layer `lo` on. */
  predicate Grown(comp: seq<nat>, index: seq<nat>, lo: nat, p: Parsed, newComp: seq<nat>, newIndex: seq<nat>) {
    Spliced(comp, lo, p.nComp, newComp) && Spliced(index, lo, p.nIndex, newIndex)
  }

  /** A shard is what its body says once its header is in order. */
  lemma ShardByHead(m: Model, b: seq<Byte>, lo: nat, hi: nat)
    ensures var l, p := HeadOf(m, b, lo, hi), ParseShard(m, b, lo, hi);
            if l.None? then p.None?
            else p == ParseBody(m, l.value, lo, hi - lo + 1, b[4 * LAYER_FIELDS..]) && (p.Some? ==> p.value.layout == l.value)
  {
    hide HeadOf, ParseBody;
  }

  /** Reads one shard's header and counts, the counts into the route-wide arrays; the first
      shard's layout binds the others. */
  method ParseLayers(m: Model, b: seq<Byte>, lo: nat, hi: nat, bound: Option<Layout>, nComp: array<nat>, nIndex: array<nat>)
    returns (r: Option<ShardFile>)
    requires nComp.Length == nIndex.Length == m.nLayers && nComp != nIndex
    modifies nComp, nIndex
    ensures r.Some? <==> ParseShard(m, b, lo, hi).Some? && (bound.Some? ==> bound.value == ParseShard(m, b, lo, hi).value.layout)
    ensures r.Some? ==> lo <= hi < m.nLayers && IsParsed(ParseShard(m, b, lo, hi).value, hi - lo + 1, r.value, b)
    ensures r.Some? ==> Grown(old(nComp[..]), old(nIndex[..]), lo, ParseShard(m, b, lo, hi).value, nComp[..], nIndex[..])
  {
    hide *;
    ShardByHead(m, b, lo, hi);
    var f := new Reader(b);
    assert f.Rest() == b;
    var l := ReadHead(m, f, lo, hi);
    if l.None? || (bound.Some? && bound.value != l.value) {
      return None;
    }
    r := ParseCounts(m, f, l.value, lo, hi - lo + 1, nComp, nIndex);
  }

  method ReadHead(m: Model, f: Reader, lo: nat, hi: nat) returns (r: Option<Layout>)
    requires f.Valid()
    modifies f
    ensures f.Valid() && r == HeadOf(m, old(f.Rest()), lo, hi)
    ensures r.Some? ==> f.Rest() == old(f.Rest())[4 * LAYER_FIELDS..]
  {
    var header := f.ReadWords(LAYER_FIELDS);
    if header.None? {
      return None;
    }
    var h := header.value;
    if h[0] != LAYER_MAGIC || h[1] != LAYER_VERSION {
      return None;
    }
    var l := LayerLayout(h, 0);
    if h[11] != lo || h[12] != hi || lo > hi || hi >= l.nLayers || l.nLayers != m.nLayers {
      return None;
    }
    var most := if l.tokenCount < l.rawWindow then l.tokenCount else l.rawWindow;
    if l.rawWindow == 0 || l.rawCap == 0 || l.rawLive > l.rawCap || (if m.glm then l.rawLive > most else l.rawLive != most) {
      return None;
    }
    return Some(l);
  }

  method ParseCounts(m: Model, f: Reader, l: Layout, lo: nat, n: nat, nComp: array<nat>, nIndex: array<nat>)
    returns (r: Option<ShardFile>)
    requires f.Valid() && lo + n <= nComp.Length == nIndex.Length && nComp != nIndex
    modifies f, nComp, nIndex
    ensures r.Some? <==> old(ParseBody(m, l, lo, n, f.Rest())).Some?
    ensures r.Some? ==> IsParsed(old(ParseBody(m, l, lo, n, f.Rest())).value, n, r.value, f.data)
    ensures r.Some? ==> Grown(old(nComp[..]), old(nIndex[..]), lo, old(ParseBody(m, l, lo, n, f.Rest())).value, nComp[..], nIndex[..])
  {
    ghost var was := f.Rest();
    var ok := f.ReadCounts(nComp, lo, n, l.compCap);
    if !ok {
      return None;
    }
    ok := f.ReadCounts(nIndex, lo, n, l.compCap);
    if !ok {
      return None;
    }
    assert was[4 * n..][4 * n..] == was[8 * n..];
    assert nComp[lo..lo + n] == Decode(was, n) && nIndex[lo..lo + n] == Decode(was[4 * n..], n);
    var total := RangeSize(m, l, lo, nComp[lo..lo + n], nIndex[lo..lo + n]);
    if total.None? || |f.data| - f.pos != total.value {
      return None;
    }
    return Some(ShardFile(l, f.pos, total.value));
  }

  // ---- Saving --------------------------------------------------------------

  /** The tensor bytes of the first `n` shards. */
  function Tensors(shards: seq<seq<Byte>>, files: seq<ShardFile>, n: nat): seq<Byte>
    requires n <= |files| && n <= |shards|
  {
    if n == 0 then []
    else Tensors(shards, files, n - 1)
         + (if files[n - 1].offset <= |shards[n - 1]| then shards[n - 1][files[n - 1].offset..] else [])
  }

  lemma {:induction false} TensorsKept(shards: seq<seq<Byte>>, a: seq<ShardFile>, b: seq<ShardFile>, n: nat)
    requires n <= |a| <= |b| && n <= |shards| && b[..|a|] == a
    ensures Tensors(shards, a, n) == Tensors(shards, b, n)
    decreases n
  {
    if n > 0 {
      assert b[..|a|][n - 1] == b[n - 1];
      TensorsKept(shards, a, b, n - 1);
    }
  }

  lemma {:induction false} GatherFails(parsed: seq<Option<Parsed>>, i: nat, n: nat)
    requires 1 <= i <= n <= |parsed| && Gather(parsed, i).None?
    ensures Gather(parsed, n).None?
    decreases n
  {
    if i < n { GatherFails(parsed, i, n - 1); }
  }

  /** What the shard loop has put together so far. */
  predicate Holds(g: Parsed, k: nat, nComp: seq<nat>, nIndex: seq<nat>, flat: seq<Byte>) {
    k <= |nComp| == |nIndex| && g.nComp == nComp[..k] && g.nIndex == nIndex[..k] && g.flat == flat
  }

  lemma HoldsNext(g: Parsed, p: Parsed, k: nat, comp: seq<nat>, index: seq<nat>, newComp: seq<nat>, newIndex: seq<nat>, flat: seq<Byte>)
    requires Holds(g, k, comp, index, flat) && Grown(comp, index, k, p, newComp, newIndex) && |p.nComp| == |p.nIndex|
    ensures Holds(Join(g, p), k + |p.nComp|, newComp, newIndex, flat + p.flat)
  {
    PrefixGrown(comp, k, p.nComp, newComp);
    PrefixGrown(index, k, p.nIndex, newIndex);
  }

  lemma PrefixGrown(a: seq<nat>, k: nat, xs: seq<nat>, b: seq<nat>)
    requires Spliced(a, k, xs, b)
    ensures b[..k + |xs|] == a[..k] + xs
  {
    forall i | 0 <= i < k + |xs| ensures b[i] == (a[..k] + xs)[i] {
      if i >= k { assert b[k + (i - k)] == xs[i - k]; }
    }
  }

  lemma HoldsFirst(p: Parsed, comp: seq<nat>, index: seq<nat>, newComp: seq<nat>, newIndex: seq<nat>)
    requires Grown(comp, index, 0, p, newComp, newIndex) && |p.nComp| == |p.nIndex| && |comp| == |index|
    ensures Holds(p, |p.nComp|, newComp, newIndex, p.flat)
  {
    PrefixGrown(comp, 0, p.nComp, newComp);
    PrefixGrown(index, 0, p.nIndex, newIndex);
  }

  /** What has been put together once `p` joins it. */
  function Joined(g: Option<Parsed>, p: Parsed): Parsed {
    if g.None? then p else Join(g.value, p)
  }

  /** Adds the next shard to the arrays. */
  method AddShard(m: Model, b: seq<Byte>, lo: nat, hi: nat, bound: Option<Layout>, nComp: array<nat>, nIndex: array<nat>,
                  ghost p: Option<Parsed>, ghost g: Option<Parsed>, ghost flat: seq<Byte>)
    returns (r: Option<ShardFile>)
    requires nComp.Length == nIndex.Length == m.nLayers && nComp != nIndex && p == ParseShard(m, b, lo, hi)
    requires bound == if g.None? then None else Some(g.value.layout)
    requires if g.None? then lo == 0 && flat == [] else Holds(g.value, lo, nComp[..], nIndex[..], flat)
    modifies nComp, nIndex
    ensures r.Some? <==> p.Some? && (g.Some? ==> g.value.layout == p.value.layout)
    ensures r.Some? ==> IsParsed(p.value, hi - lo + 1, r.value, b)
    ensures r.Some? ==> Holds(Joined(g, p.value), hi + 1, nComp[..], nIndex[..], flat + p.value.flat)
  {
    hide ParseShard, Grown;
    ghost var before, beforeIndex := nComp[..], nIndex[..];
    r := ParseLayers(m, b, lo, hi, bound, nComp, nIndex);
    if r.Some? {
      if g.None? {
        HoldsFirst(p.value, before, beforeIndex, nComp[..], nIndex[..]);
        assert [] + p.value.flat == p.value.flat;
      } else {
        HoldsNext(g.value, p.value, lo, before, beforeIndex, nComp[..], nIndex[..], flat);
      }
    }
  }

  predicate FilesMatch(files: seq<ShardFile>, shards: seq<seq<Byte>>) {
    |files| <= |shards| && forall i :: 0 <= i < |files| ==> files[i].offset + files[i].bytes == |shards[i]|
  }

  function GatherUpTo(parsed: seq<Option<Parsed>>, i: nat): Option<Parsed>
    requires i <= |parsed|
  {
    if i == 0 then None else Gather(parsed, i)
  }

  lemma GatherJoins(parsed: seq<Option<Parsed>>, i: nat, g: Option<Parsed>, p: Option<Parsed>)
    requires i < |parsed| && g == GatherUpTo(parsed, i) && p == parsed[i] && (i > 0 ==> g.Some?)
    ensures GatherUpTo(parsed, i + 1)
         == if p.Some? && (g.Some? ==> g.value.layout == p.value.layout) then Some(Joined(g, p.value)) else None
  {
  }

  /** Collects every shard of the route. */
  method Collect(m: Model, route: seq<Span>, shards: seq<seq<Byte>>, nComp: array<nat>, nIndex: array<nat>, ghost parsed: seq<Option<Parsed>>)
    returns (bound: Option<Layout>, files: seq<ShardFile>, ghost g: Option<Parsed>)
    requires |route| == |shards| && RouteOk(m.nLayers, route) && parsed == ParseAll(m, route, shards)
    requires nComp.Length == nIndex.Length == m.nLayers && nComp != nIndex
    modifies nComp, nIndex
    ensures g == Gather(parsed, |route|) && (bound.Some? <==> g.Some?)
    ensures bound.Some? ==> |files| == |route| && bound.value == g.value.layout && FilesMatch(files, shards)
    ensures bound.Some? ==> Holds(g.value, m.nLayers, nComp[..], nIndex[..], Tensors(shards, files, |route|))
  {
    hide ParseShard, Gather;
    bound, files, g := None, [], None;
    ghost var flat: seq<Byte> := [];
    for i := 0 to |route|
      invariant |files| == i && FilesMatch(files, shards) && g == GatherUpTo(parsed, i) && (i > 0 ==> g.Some?)
      invariant bound == (if g.None? then None else Some(g.value.layout)) && flat == Tensors(shards, files, i)
      invariant if g.None? then i == 0 else Holds(g.value, From(route, i), nComp[..], nIndex[..], flat)
    {
      FromBound(m.nLayers, route, i);
      ghost var p := parsed[i];
      var r := AddShard(m, shards[i], route[i].lo, route[i].hi, bound, nComp, nIndex, p, g, flat);
      GatherJoins(parsed, i, g, p);
      if r.None? {
        GatherFails(parsed, i + 1, |route|);
        return None, [], None;
      }
      NextTensors(shards, files, r.value, i, p.value.flat);
      flat := flat + p.value.flat;
      bound, files, g := Some(r.value.layout), files + [r.value], Some(Joined(g, p.value));
    }
    assert From(route, |route|) == m.nLayers;
  }

  lemma NextTensors(shards: seq<seq<Byte>>, files: seq<ShardFile>, r: ShardFile, i: nat, flat: seq<Byte>)
    requires i == |files| < |shards| && r.offset <= |shards[i]| && shards[i][r.offset..] == flat
    ensures Tensors(shards, files + [r], i + 1) == Tensors(shards, files, i) + flat
  {
    TensorsKept(shards, files, files + [r], i);
  }

  method WriteSession(l: Layout, tokens: seq<nat>, logits: seq<Byte>, nComp: seq<nat>, nIndex: seq<nat>,
                      shards: seq<seq<Byte>>, files: seq<ShardFile>) returns (out: seq<Byte>)
    requires FilesMatch(files, shards)
    ensures out == SessionPayload(l, tokens, logits, nComp, nIndex, Tensors(shards, files, |files|))
  {
    out := WriteWords([], SessionHeader(l));
    out := WriteWords(out, tokens);
    out := out + logits;
    out := WriteWords(out, nComp);
    out := WriteWords(out, nIndex);
    var tensors := CopyTensors(shards, files);
    out := out + tensors;
    PayloadAppended(Encode(SessionHeader(l)), Encode(tokens), logits, Encode(nComp), Encode(nIndex), tensors);
  }

  method CopyTensors(shards: seq<seq<Byte>>, files: seq<ShardFile>) returns (out: seq<Byte>)
    requires FilesMatch(files, shards)
    ensures out == Tensors(shards, files, |files|)
  {
    out := [];
    for i := 0 to |files|
      invariant out == Tensors(shards, files, i)
    {
      assert shards[i][files[i].offset..files[i].offset + files[i].bytes] == shards[i][files[i].offset..];
      out := out + shards[i][files[i].offset..files[i].offset + files[i].bytes];
    }
  }

  /** The save: shards in, one session payload out. */
  method SavePayload(m: Model, route: seq<Span>, shards: seq<seq<Byte>>, tokens: seq<nat>, logits: seq<Byte>) returns (r: Option<seq<Byte>>)
    requires |route| == |shards|
    ensures r == SaveOf(m, route, shards, tokens, logits)
  {
    var ok := ValidateRoute(m.nLayers, route);
    if !ok {
      return None;
    }
    var nComp, nIndex := new nat[m.nLayers](_ => 0), new nat[m.nLayers](_ => 0);
    ghost var parsed := ParseAll(m, route, shards);
    var bound, files, g := Collect(m, route, shards, nComp, nIndex, parsed);
    if bound.None? || bound.value.tokenCount != |tokens| {
      return None;
    }
    assert nComp[..m.nLayers] == nComp[..] && nIndex[..m.nLayers] == nIndex[..];
    var out := WriteSession(bound.value.(vocab := m.vocab), tokens, logits, nComp[..], nIndex[..], shards, files);
    SaveIs(m, route, shards, tokens, logits, g.value);
    return Some(out);
  }

  lemma PayloadAppended(h: seq<Byte>, t: seq<Byte>, l: seq<Byte>, c: seq<Byte>, x: seq<Byte>, f: seq<Byte>)
    ensures [] + h + t + l + c + x + f == h + (t + (l + (c + (x + f))))
  {
  }

  // ---- Loading -------------------------------------------------------------

  method ReadSessionHead(m: Model, f: Reader, ctx: nat) returns (r: Option<Layout>)
    requires f.Valid()
    modifies f
    ensures f.Valid() && r == SessionHeadOf(m, old(f.Rest()), ctx)
    ensures r.Some? ==> f.Rest() == old(f.Rest())[4 * SESSION_FIELDS..]
  {
    var header := f.ReadWords(SESSION_FIELDS);
    if header.None? {
      return None;
    }
    var h := header.value;
    if h[0] != SESSION_MAGIC || h[1] != SESSION_VERSION {
      return None;
    }
    var l := SessionLayout(h);
    if l.nLayers != m.nLayers || l.ctx > ctx || l.tokenCount >= ctx || l.vocab != m.vocab || !RawLiveValid(m, l) {
      return None;
    }
    return Some(l);
  }

  method ReadTokens(m: Model, f: Reader, n: nat) returns (r: Option<seq<nat>>)
    requires f.Valid()
    modifies f
    ensures f.Valid() && r == if 4 * n <= |old(f.Rest())| && TokensFit(m, Decode(old(f.Rest()), n)) then Some(Decode(old(f.Rest()), n)) else None
    ensures r.Some? ==> f.Rest() == old(f.Rest())[4 * n..]
  {
    ghost var b := f.Rest();
    var xs := [];
    for i := 0 to n
      invariant f.Valid() && 4 * i <= |b| && xs == Decode(b, i) && TokensFit(m, xs) && f.Rest() == b[4 * i..]
    {
      var v := f.ReadU32();
      if v.None? {
        return None;
      }
      DecodeNext(b, i);
      assert b[4 * i..][..4] == b[4 * i..4 * i + 4];
      xs := xs + [v.value];
      if v.value > INT_MAX || v.value >= m.vocab {
        DecodePrefix(b, i + 1, n);
        assert xs[i] == v.value;
        assert 4 * n <= |b| ==> Decode(b, n)[i] == v.value;
        return None;
      }
    }
    return Some(xs);
  }

  /** One shard's payload, copied layer by layer from the session's tensors. */
  method CutShard(m: Model, l: Layout, f: Reader, lo: nat, hi: nat, nComp: seq<nat>, nIndex: seq<nat>)
    returns (r: Option<seq<Byte>>)
    requires f.Valid() && |f.Rest()| < U64 && |nComp| == |nIndex|
    modifies f
    ensures f.Valid() && (r.Some? <==> Total(m, l, lo, nComp, nIndex) <= |old(f.Rest())|)
    ensures r.Some? ==> r.value == ShardPayload(l, lo, hi, nComp, nIndex, old(f.Rest())[..Total(m, l, lo, nComp, nIndex)])
    ensures r.Some? ==> f.Rest() == old(f.Rest())[Total(m, l, lo, nComp, nIndex)..]
  {
    hide Encode, LayerHeader, Total;
    var out := WriteWords([], LayerHeader(l, lo, hi));
    out := WriteWords(out, nComp);
    out := WriteWords(out, nIndex);
    var tensors := CopyLayers(m, l, f, lo, nComp, nIndex);
    if tensors.None? {
      return None;
    }
    assert [] + Encode(LayerHeader(l, lo, hi)) == Encode(LayerHeader(l, lo, hi));
    return Some(out + tensors.value);
  }

  method CopyLayers(m: Model, l: Layout, f: Reader, lo: nat, nComp: seq<nat>, nIndex: seq<nat>)
    returns (r: Option<seq<Byte>>)
    requires f.Valid() && |f.Rest()| < U64 && |nComp| == |nIndex|
    modifies f
    ensures f.Valid() && (r.Some? <==> Total(m, l, lo, nComp, nIndex) <= |old(f.Rest())|)
    ensures r.Some? ==> r.value == old(f.Rest())[..Total(m, l, lo, nComp, nIndex)]
    ensures r.Some? ==> f.Rest() == old(f.Rest())[Total(m, l, lo, nComp, nIndex)..]
  {
    hide TensorBytes, Total;
    ghost var rest := f.Rest();
    var out := [];
    ghost var sum, total := 0, Total(m, l, lo, nComp, nIndex);
    TotalNone(m, l, lo, nComp, nIndex);
    for i := 0 to |nComp|
      invariant f.Valid() && sum == Total(m, l, lo, nComp[..i], nIndex[..i]) <= |rest|
      invariant f.Rest() == rest[sum..] && out == rest[..sum]
    {
      TotalNext(m, l, lo, nComp, nIndex, i);
      assert sum + TensorBytes(m, l, lo + i, nComp[i], nIndex[i]) <= total;
      var size := LayerSize(m, l, lo + i, nComp[i], nIndex[i]);
      if size.None? {
        return None;
      }
      var bytes := f.ReadBytes(size.value);
      if bytes.None? {
        return None;
      }
      CopyOnce(rest, sum, size.value);
      out := out + bytes.value;
      sum := sum + size.value;
    }
    assert nComp[..|nComp|] == nComp && nIndex[..|nIndex|] == nIndex;
    assert sum == total;
    return Some(out);
  }

  lemma CopyOnce(rest: seq<Byte>, k: nat, n: nat)
    requires k + n <= |rest|
    ensures rest[..k] + rest[k..][..n] == rest[..k + n] && rest[k..][n..] == rest[k + n..]
  {
  }

  lemma {:induction false} SplitFails(m: Model, l: Layout, nComp: seq<nat>, nIndex: seq<nat>, route: seq<Span>, i: nat, n: nat, flat: seq<Byte>)
    requires |nComp| == |nIndex| == l.nLayers && i <= n <= |route| && RouteOk(l.nLayers, route)
    requires Split(m, l, nComp, nIndex, route, i, flat).None?
    ensures Split(m, l, nComp, nIndex, route, n, flat).None?
    decreases n
  {
    hide ShardPayload, Total;
    if i < n { SplitFails(m, l, nComp, nIndex, route, i, n - 1, flat); }
  }

  method CutAll(m: Model, l: Layout, f: Reader, route: seq<Span>, nComp: seq<nat>, nIndex: seq<nat>)
    returns (r: Option<seq<seq<Byte>>>)
    requires f.Valid() && |f.Rest()| < U64
    requires |nComp| == |nIndex| == l.nLayers && RouteOk(l.nLayers, route)
    modifies f
    ensures f.Valid()
    ensures Split(m, l, nComp, nIndex, route, |route|, old(f.Rest())) == if r.None? then None else Some(Pieces(r.value, f.Rest()))
  {
    hide ShardPayload, Total;
    ghost var flat := f.Rest();
    var pieces := [];
    for i := 0 to |route|
      invariant f.Valid() && |f.Rest()| < U64
      invariant Split(m, l, nComp, nIndex, route, i, flat) == Some(Pieces(pieces, f.Rest()))
    {
      FromBound(l.nLayers, route, i);
      var piece := CutNextShard(m, l, f, route, i, nComp, nIndex, flat, Pieces(pieces, f.Rest()));
      if piece.None? {
        SplitFails(m, l, nComp, nIndex, route, i + 1, |route|, flat);
        return None;
      }
      pieces := pieces + [piece.value];
    }
    return Some(pieces);
  }

  method CutNextShard(m: Model, l: Layout, f: Reader, route: seq<Span>, i: nat, nComp: seq<nat>, nIndex: seq<nat>,
                      ghost flat: seq<Byte>, ghost p: Pieces) returns (r: Option<seq<Byte>>)
    requires |nComp| == |nIndex| == l.nLayers && RouteOk(l.nLayers, route) && i < |route| && route[i].lo <= route[i].hi < l.nLayers
    requires f.Valid() && f.Rest() == p.rest && |p.rest| < U64
    requires Split(m, l, nComp, nIndex, route, i, flat) == Some(p)
    modifies f
    ensures f.Valid() && |f.Rest()| <= |f.data|
    ensures Split(m, l, nComp, nIndex, route, i + 1, flat) == if r.None? then None else Some(Pieces(p.done + [r.value], f.Rest()))
    ensures r.Some? ==> |f.Rest()| < U64
  {
    hide ShardPayload, Encode, Split, Total;
    var lo, hi := route[i].lo, route[i].hi;
    var c, x := nComp[lo..hi + 1], nIndex[lo..hi + 1];
    ghost var bytes := Total(m, l, lo, c, x);
    r := CutShard(m, l, f, lo, hi, c, x);
    SplitIs(m, l, nComp, nIndex, route, i + 1, flat, p, bytes, c, x);
  }

  lemma SplicedWhole(a: seq<nat>, xs: seq<nat>, b: seq<nat>)
    requires Spliced(a, 0, xs, b) && |xs| == |a|
    ensures b == xs
  {
    PrefixGrown(a, 0, xs, b);
  }

  /** All layers' row counts. */
  method ReadAllCounts(f: Reader, n: nat, cap: nat) returns (r: Option<seq<nat>>)
    requires f.Valid()
    modifies f
    ensures f.Valid() && r == if 4 * n <= |old(f.Rest())| && Within(Decode(old(f.Rest()), n), cap) then Some(Decode(old(f.Rest()), n)) else None
    ensures r.Some? ==> f.Rest() == old(f.Rest())[4 * n..]
  {
    ghost var b := f.Rest();
    var counts := new nat[n](_ => 0);
    ghost var was := counts[..];
    var ok := f.ReadCounts(counts, 0, n, cap);
    if !ok {
      return None;
    }
    SplicedWhole(was, Decode(b, n), counts[..]);
    return Some(counts[..]);
  }

  method LoadRest(m: Model, route: seq<Span>, f: Reader, l: Layout) returns (r: Option<Loaded>)
    requires f.Valid() && |f.Rest()| < U64 && RouteOk(m.nLayers, route) && l.nLayers == m.nLayers
    modifies f
    ensures r == LoadBody(m, route, l, old(f.Rest()))
  {
    hide Decode, Split, TokensFit, Within;
    var tokens := ReadTokens(m, f, l.tokenCount);
    if tokens.None? { return None; }
    var logits := f.ReadBytes(4 * l.vocab);
    if logits.None? { return None; }
    var nComp := ReadAllCounts(f, l.nLayers, l.compCap);
    if nComp.None? { return None; }
    var nIndex := ReadAllCounts(f, l.nLayers, l.compCap);
    if nIndex.None? { return None; }
    var pieces := CutAll(m, l, f, route, nComp.value, nIndex.value);
    if pieces.None? || |f.data| != f.pos { return None; }
    return Some(Loaded(l, tokens.value, logits.value, pieces.value));
  }

  /** The load: one session payload in, a shard for every range of the current route out. */
  method LoadPayload(m: Model, route: seq<Span>, b: seq<Byte>, ctx: nat) returns (r: Option<Loaded>)
    requires |b| < U64
    ensures r == LoadOf(m, route, b, ctx)
  {
    var ok := ValidateRoute(m.nLayers, route);
    if !ok {
      return None;
    }
    var f := new Reader(b);
    var l := ReadSessionHead(m, f, ctx);
    if l.None? {
      return None;
    }
    r := LoadRest(m, route, f, l.value);
  }
}
