/** The distributed KV snapshot: per-shard layer payloads gathered into one session payload,
    and a session payload split again for whatever route is current. */
module KvSnapshot {
  import opened Wrappers
  import opened Words
  import opened Bytes

  const SESSION_MAGIC: nat := 0x34565344
  const SESSION_VERSION: nat := 2
  const SESSION_FIELDS: nat := 13
  const LAYER_MAGIC: nat := 0x4c565344
  const LAYER_VERSION: nat := 1
  const LAYER_FIELDS: nat := 14
  const INT_MAX: nat := 0x7fff_ffff

  // ---- Layouts and sizes ---------------------------------------------------

  datatype Layout = Layout(
    ctx: nat, prefillCap: nat, rawCap: nat, rawWindow: nat, compCap: nat, tokenCount: nat, nLayers: nat,
    headDim: nat, indexerHeadDim: nat, vocab: nat, rawLive: nat)

  /** What the engine says of the model; `glmBytes` sizes a layer of the models with their own payload form. */
  datatype Model = Model(nLayers: nat, vocab: nat, glm: bool, ratio: nat -> nat,
                         glmBytes: (nat, nat, nat, nat, nat, nat) -> nat)

  /** A product, by repeated addition; the proofs about sizes need no more of it. */
  function Times(a: nat, b: nat): nat {
    if a == 0 then 0 else b + Times(a - 1, b)
  }

  lemma {:induction false} TimesIsProduct(a: nat, b: nat)
    ensures Times(a, b) == a * b
  {
    if a > 0 { TimesIsProduct(a - 1, b); }
  }

  function StateBytes(ratio: nat, dim: nat): nat {
    var coff := if ratio == 4 then 2 else 1;
    4 * Times(Times(Times(coff, dim), coff), ratio)
  }

  /** The tensor bytes of one layer. */
  function TensorBytes(m: Model, l: Layout, layer: nat, nComp: nat, nIndex: nat): nat {
    if m.glm then m.glmBytes(layer, l.rawLive, l.headDim, l.indexerHeadDim, nComp, nIndex)
    else
      var ratio := m.ratio(layer);
      4 * Times(l.rawLive, l.headDim)
      + (if ratio == 0 then 0 else 4 * Times(nComp, l.headDim) + 2 * StateBytes(ratio, l.headDim))
      + (if ratio == 4 then 4 * Times(nIndex, l.indexerHeadDim) + 2 * StateBytes(4, l.indexerHeadDim) else 0)
  }

  predicate RawLiveValid(m: Model, l: Layout) {
    var most := if l.tokenCount < l.rawWindow then l.tokenCount else l.rawWindow;
    && 0 < l.rawWindow && 0 < l.rawCap && l.rawLive <= l.rawCap
    && (if m.glm then l.rawLive <= most else l.rawLive == most)
  }

  function LayerHeader(l: Layout, lo: nat, hi: nat): (h: seq<nat>)
    ensures |h| == LAYER_FIELDS
  {
    [LAYER_MAGIC, LAYER_VERSION, l.ctx, l.prefillCap, l.rawCap, l.rawWindow, l.compCap, l.tokenCount,
     l.nLayers, l.headDim, l.indexerHeadDim, lo, hi, l.rawLive]
  }

  function LayerLayout(h: seq<nat>, vocab: nat): Layout
    requires |h| == LAYER_FIELDS
  {
    Layout(h[2], h[3], h[4], h[5], h[6], h[7], h[8], h[9], h[10], vocab, h[13])
  }

  function SessionHeader(l: Layout): (h: seq<nat>)
    ensures |h| == SESSION_FIELDS
  {
    [SESSION_MAGIC, SESSION_VERSION, l.ctx, l.prefillCap, l.rawCap, l.rawWindow, l.compCap, l.tokenCount,
     l.nLayers, l.headDim, l.indexerHeadDim, l.vocab, l.rawLive]
  }

  function SessionLayout(h: seq<nat>): Layout
    requires |h| == SESSION_FIELDS
  {
    Layout(h[2], h[3], h[4], h[5], h[6], h[7], h[8], h[9], h[10], h[11], h[12])
  }

  // ---- Routes --------------------------------------------------------------

  datatype Span = Span(lo: nat, hi: nat)

  /** Consecutive ranges from layer 0 to the last layer. */
  predicate RouteOk(n: nat, route: seq<Span>) {
    && 0 < |route| && route[0].lo == 0 && route[|route| - 1].hi + 1 == n
    && forall i :: 0 <= i < |route| ==> SpanFollows(n, route, i)
  }

  predicate SpanFollows(n: nat, route: seq<Span>, i: nat)
    requires i < |route|
  {
    route[i].lo <= route[i].hi < n && (i > 0 ==> route[i].lo == route[i - 1].hi + 1)
  }

  // ---- Payloads ------------------------------------------------------------

  /** A session's state by layers, independent of any route. */
  datatype Snapshot = Snapshot(layout: Layout, tokens: seq<nat>, logits: seq<Byte>, nComp: seq<nat>, nIndex: seq<nat>,
                               tensors: seq<seq<Byte>>)

  function Flatten(parts: seq<seq<Byte>>): seq<Byte> {
    if parts == [] then [] else parts[0] + Flatten(parts[1..])
  }

  function ShardPayload(l: Layout, lo: nat, hi: nat, nComp: seq<nat>, nIndex: seq<nat>, flat: seq<Byte>): seq<Byte> {
    Encode(LayerHeader(l, lo, hi)) + Encode(nComp) + Encode(nIndex) + flat
  }

  predicate Sized(s: Snapshot) {
    |s.nComp| == |s.nIndex| == |s.tensors| == s.layout.nLayers
  }

  function ShardOf(s: Snapshot, span: Span): seq<Byte>
    requires Sized(s) && span.lo <= span.hi < s.layout.nLayers
  {
    ShardPayload(s.layout, span.lo, span.hi, s.nComp[span.lo..span.hi + 1], s.nIndex[span.lo..span.hi + 1],
                 Flatten(s.tensors[span.lo..span.hi + 1]))
  }

  function SessionPayload(l: Layout, tokens: seq<nat>, logits: seq<Byte>, nComp: seq<nat>, nIndex: seq<nat>, flat: seq<Byte>): seq<Byte> {
    Encode(SessionHeader(l)) + (Encode(tokens) + (logits + (Encode(nComp) + (Encode(nIndex) + flat))))
  }

  function SessionOf(s: Snapshot): seq<Byte> {
    SessionPayload(s.layout, s.tokens, s.logits, s.nComp, s.nIndex, Flatten(s.tensors))
  }

  predicate WordLayout(l: Layout) {
    AreWords(SessionHeader(l))
  }

  /** A snapshot the engine can produce: every layer has the bytes its counts call for. */
  predicate Valid(m: Model, s: Snapshot) {
    && LayersValid(m, s) && WordLayout(s.layout) && s.layout.vocab == m.vocab
    && RawLiveValid(m, s.layout) && s.layout.tokenCount == |s.tokens| && AreWords(s.tokens)
    && |s.logits| == 4 * m.vocab && |SessionOf(s)| < U64
  }

  predicate LayersValid(m: Model, s: Snapshot) {
    Sized(s) && s.layout.nLayers == m.nLayers && forall i: nat :: i < m.nLayers ==> LayerValid(m, s, i)
  }

  predicate LayerValid(m: Model, s: Snapshot, i: nat)
    requires Sized(s) && i < s.layout.nLayers
  {
    && s.nComp[i] <= s.layout.compCap && s.nIndex[i] <= s.layout.compCap
    && |s.tensors[i]| == TensorBytes(m, s.layout, i, s.nComp[i], s.nIndex[i])
  }

  // ---- What the parser accepts ---------------------------------------------

  datatype Parsed = Parsed(layout: Layout, nComp: seq<nat>, nIndex: seq<nat>, flat: seq<Byte>)

  predicate Within(xs: seq<nat>, cap: nat) {
    forall i :: 0 <= i < |xs| ==> xs[i] <= cap
  }

  /** The tensor bytes of consecutive layers from `lo` on. */
  function Sizes(m: Model, l: Layout, lo: nat, nComp: seq<nat>, nIndex: seq<nat>): (r: seq<nat>)
    requires |nComp| == |nIndex|
    ensures |r| == |nComp|
    ensures forall k: nat :: k < |r| ==> r[k] == TensorBytes(m, l, lo + k, nComp[k], nIndex[k])
  {
    seq(|nComp|, k requires 0 <= k < |nComp| => TensorBytes(m, l, lo + k, nComp[k], nIndex[k]))
  }

  function Total(m: Model, l: Layout, lo: nat, nComp: seq<nat>, nIndex: seq<nat>): nat
    requires |nComp| == |nIndex|
  {
    Sum(Sizes(m, l, lo, nComp, nIndex))
  }

  /** The layout a layer payload for layers `lo` to `hi` declares, if its header is in order. */
  function HeadOf(m: Model, b: seq<Byte>, lo: nat, hi: nat): (r: Option<Layout>)
    ensures r.Some? ==> lo <= hi < m.nLayers && 4 * LAYER_FIELDS <= |b|
  {
    if |b| < 4 * LAYER_FIELDS then None
    else
      var h := Decode(b, LAYER_FIELDS);
      var l := LayerLayout(h, 0);
      if h[0] != LAYER_MAGIC || h[1] != LAYER_VERSION || h[11] != lo || h[12] != hi || lo > hi || hi >= l.nLayers
         || l.nLayers != m.nLayers || !RawLiveValid(m, l) then None
      else Some(l)
  }

  /** A layer payload for layers `lo` to `hi`, or nothing. */
  function ParseShard(m: Model, b: seq<Byte>, lo: nat, hi: nat): Option<Parsed> {
    match HeadOf(m, b, lo, hi)
    case None => None
    case Some(l) => ParseBody(m, l, lo, hi - lo + 1, b[4 * LAYER_FIELDS..])
  }

  function ParseBody(m: Model, l: Layout, lo: nat, n: nat, b: seq<Byte>): (r: Option<Parsed>)
    ensures r.Some? ==> r.value.layout == l && |r.value.nComp| == |r.value.nIndex| == n
  {
    if |b| < 8 * n then None
    else
      var nComp, nIndex, flat := Decode(b, n), Decode(b[4 * n..], n), b[8 * n..];
      if !Within(nComp, l.compCap) || !Within(nIndex, l.compCap) || Total(m, l, lo, nComp, nIndex) >= U64
         || |flat| != Total(m, l, lo, nComp, nIndex) then None
      else Some(Parsed(l, nComp, nIndex, flat))
  }

  lemma HeaderSound(m: Model, b: seq<Byte>, lo: nat, hi: nat)
    requires AreBytes(b) && ParseShard(m, b, lo, hi).Some?
    ensures lo <= hi && 4 * LAYER_FIELDS <= |b|
    ensures var p := ParseShard(m, b, lo, hi).value;
            && b[..4 * LAYER_FIELDS] == Encode(LayerHeader(p.layout, lo, hi))
            && ParseBody(m, p.layout, lo, hi - lo + 1, b[4 * LAYER_FIELDS..]) == Some(p)
  {
    var h, p := Decode(b, LAYER_FIELDS), ParseShard(m, b, lo, hi).value;
    EncodeDecode(b, LAYER_FIELDS);
    assert p.layout == LayerLayout(h, 0);
    HeaderFields(h, lo, hi);
  }

  lemma HeaderFields(h: seq<nat>, lo: nat, hi: nat)
    requires |h| == LAYER_FIELDS && h[0] == LAYER_MAGIC && h[1] == LAYER_VERSION && h[11] == lo && h[12] == hi
    ensures h == LayerHeader(LayerLayout(h, 0), lo, hi)
  {
  }

  lemma BodySound(m: Model, l: Layout, lo: nat, n: nat, b: seq<Byte>)
    requires AreBytes(b) && ParseBody(m, l, lo, n, b).Some?
    ensures var p := ParseBody(m, l, lo, n, b).value;
            && p.layout == l && |p.nComp| == |p.nIndex| == n && |p.flat| == Total(m, l, lo, p.nComp, p.nIndex)
            && b == Encode(p.nComp) + Encode(p.nIndex) + p.flat
  {
    EncodeDecode(b, n);
    var tail := b[4 * n..];
    EncodeDecode(tail, n);
    ThreeParts(b, 4 * n);
  }

  lemma ThreeParts(b: seq<Byte>, k: nat)
    requires k + k <= |b|
    ensures b == b[..k] + b[k..][..k] + b[k + k..]
  {
  }

  /** Whatever the parser accepts is the payload of what it reports. */
  lemma ParseSound(m: Model, b: seq<Byte>, lo: nat, hi: nat)
    requires AreBytes(b) && ParseShard(m, b, lo, hi).Some?
    ensures var p := ParseShard(m, b, lo, hi).value;
            && b == ShardPayload(p.layout, lo, hi, p.nComp, p.nIndex, p.flat)
            && |p.nComp| == |p.nIndex| == hi - lo + 1
            && |p.flat| == Total(m, p.layout, lo, p.nComp, p.nIndex)
  {
    hide HeadOf, ParseBody, ParseShard, Encode, Total;
    HeaderSound(m, b, lo, hi);
    var p, body := ParseShard(m, b, lo, hi).value, b[4 * LAYER_FIELDS..];
    BodySound(m, p.layout, lo, hi - lo + 1, body);
    Reassemble(b, 4 * LAYER_FIELDS, Encode(LayerHeader(p.layout, lo, hi)), Encode(p.nComp), Encode(p.nIndex), p.flat);
  }

  lemma Reassemble(b: seq<Byte>, k: nat, head: seq<Byte>, x: seq<Byte>, y: seq<Byte>, z: seq<Byte>)
    requires k <= |b| && b[..k] == head && b[k..] == x + y + z
    ensures b == head + x + y + z
  {
    assert b == b[..k] + b[k..];
  }

  lemma BodyParsed(m: Model, l: Layout, lo: nat, nComp: seq<nat>, nIndex: seq<nat>, flat: seq<Byte>)
    requires |nComp| == |nIndex| && AreWords(nComp) && AreWords(nIndex)
    requires Within(nComp, l.compCap) && Within(nIndex, l.compCap) && |flat| == Total(m, l, lo, nComp, nIndex) < U64
    ensures ParseBody(m, l, lo, |nComp|, Encode(nComp) + Encode(nIndex) + flat) == Some(Parsed(l, nComp, nIndex, flat))
  {
    hide Encode, Decode, Total;
    var n := |nComp|;
    var b := Encode(nComp) + Encode(nIndex) + flat;
    assert b == Encode(nComp) + (Encode(nIndex) + flat);
    DecodeEncode(nComp, Encode(nIndex) + flat);
    assert b[4 * n..] == Encode(nIndex) + flat;
    DecodeEncode(nIndex, flat);
    assert b[8 * n..] == flat;
  }

  lemma HeadParsed(m: Model, l: Layout, lo: nat, hi: nat, b: seq<Byte>, body: seq<Byte>)
    requires AreWords(LayerHeader(l, lo, hi)) && lo <= hi < l.nLayers == m.nLayers && RawLiveValid(m, l)
    requires b == Encode(LayerHeader(l, lo, hi)) + body
    ensures ParseShard(m, b, lo, hi) == ParseBody(m, l.(vocab := 0), lo, hi - lo + 1, body)
  {
    hide Encode, Decode, ParseBody;
    var h := LayerHeader(l, lo, hi);
    DecodeEncode(h, body);
    assert b[4 * LAYER_FIELDS..] == body;
    assert LayerLayout(h, 0) == l.(vocab := 0);
  }

  /** The parser accepts every well-sized layer payload, and reports what it was made from. */
  lemma ShardParsed(m: Model, l: Layout, lo: nat, hi: nat, nComp: seq<nat>, nIndex: seq<nat>, flat: seq<Byte>)
    requires AreWords(LayerHeader(l, lo, hi)) && lo <= hi < l.nLayers == m.nLayers && RawLiveValid(m, l)
    requires |nComp| == |nIndex| == hi - lo + 1 && AreWords(nComp) && AreWords(nIndex)
    requires Within(nComp, l.compCap) && Within(nIndex, l.compCap) && |flat| == Total(m, l, lo, nComp, nIndex) < U64
    ensures ParseShard(m, ShardPayload(l, lo, hi, nComp, nIndex, flat), lo, hi) == Some(Parsed(l.(vocab := 0), nComp, nIndex, flat))
  {
    var b, body := ShardPayload(l, lo, hi, nComp, nIndex, flat), Encode(nComp) + Encode(nIndex) + flat;
    Associate(Encode(LayerHeader(l, lo, hi)), Encode(nComp), Encode(nIndex), flat);
    HeadParsed(m, l, lo, hi, b, body);
    TotalVocab(m, l, lo, nComp, nIndex);
    BodyParsed(m, l.(vocab := 0), lo, nComp, nIndex, flat);
  }

  lemma Associate(w: seq<Byte>, x: seq<Byte>, y: seq<Byte>, z: seq<Byte>)
    ensures w + x + y + z == w + (x + y + z)
  {
  }

  lemma TotalVocab(m: Model, l: Layout, lo: nat, nComp: seq<nat>, nIndex: seq<nat>)
    requires |nComp| == |nIndex|
    ensures Total(m, l.(vocab := 0), lo, nComp, nIndex) == Total(m, l, lo, nComp, nIndex)
  {
    assert Sizes(m, l.(vocab := 0), lo, nComp, nIndex) == Sizes(m, l, lo, nComp, nIndex);
  }

  // ---- Saving --------------------------------------------------------------

  /** The first `n` parsed shards, put together; their layouts must agree. */
  function Gather(parsed: seq<Option<Parsed>>, n: nat): Option<Parsed>
    requires 1 <= n <= |parsed|
  {
    var p := parsed[n - 1];
    if n == 1 || p.None? then p
    else
      match Gather(parsed, n - 1)
      case None => None
      case Some(g) => if g.layout != p.value.layout then None else Some(Join(g, p.value))
  }

  function Join(g: Parsed, p: Parsed): Parsed {
    Parsed(g.layout, g.nComp + p.nComp, g.nIndex + p.nIndex, g.flat + p.flat)
  }

  function ParseAll(m: Model, route: seq<Span>, shards: seq<seq<Byte>>): (ps: seq<Option<Parsed>>)
    requires |route| == |shards|
    ensures |ps| == |route|
  {
    seq(|route|, i requires 0 <= i < |route| == |shards| => ParseShard(m, shards[i], route[i].lo, route[i].hi))
  }

  /** The session payload a save writes. */
  function SaveOf(m: Model, route: seq<Span>, shards: seq<seq<Byte>>, tokens: seq<nat>, logits: seq<Byte>): Option<seq<Byte>>
    requires |route| == |shards|
  {
    if !RouteOk(m.nLayers, route) then None
    else
      match Gather(ParseAll(m, route, shards), |route|)
      case None => None
      case Some(g) =>
        if g.layout.tokenCount != |tokens| then None
        else Some(SessionPayload(g.layout.(vocab := m.vocab), tokens, logits, g.nComp, g.nIndex, g.flat))
  }

  // ---- Loading -------------------------------------------------------------

  datatype Pieces = Pieces(done: seq<seq<Byte>>, rest: seq<Byte>)

  datatype Loaded = Loaded(layout: Layout, tokens: seq<nat>, logits: seq<Byte>, pieces: seq<seq<Byte>>)

  /** Layer payloads for the route's first `n` ranges, cut from the session's tensor bytes. */
  function Split(m: Model, l: Layout, nComp: seq<nat>, nIndex: seq<nat>, route: seq<Span>, n: nat, flat: seq<Byte>): Option<Pieces>
    requires |nComp| == |nIndex| == l.nLayers && n <= |route| && RouteOk(l.nLayers, route)
  {
    if n == 0 then Some(Pieces([], flat))
    else
      match Split(m, l, nComp, nIndex, route, n - 1, flat)
      case None => None
      case Some(p) =>
        assert SpanFollows(l.nLayers, route, n - 1);
        var lo, hi := route[n - 1].lo, route[n - 1].hi;
        var c, x := nComp[lo..hi + 1], nIndex[lo..hi + 1];
        var bytes := Total(m, l, lo, c, x);
        if |p.rest| < bytes then None else Some(Cut(p, l, lo, hi, c, x, bytes))
  }

  function Cut(p: Pieces, l: Layout, lo: nat, hi: nat, nComp: seq<nat>, nIndex: seq<nat>, bytes: nat): Pieces
    requires bytes <= |p.rest|
  {
    Pieces(p.done + [ShardPayload(l, lo, hi, nComp, nIndex, p.rest[..bytes])], p.rest[bytes..])
  }

  predicate TokensFit(m: Model, tokens: seq<nat>) {
    forall i :: 0 <= i < |tokens| ==> tokens[i] <= INT_MAX && tokens[i] < m.vocab
  }

  predicate LayoutFits(m: Model, l: Layout, ctx: nat) {
    && l.nLayers == m.nLayers && l.ctx <= ctx && l.tokenCount < ctx && l.vocab == m.vocab && RawLiveValid(m, l)
  }

  /** The layout a session payload declares, if its header is in order and fits. */
  function SessionHeadOf(m: Model, b: seq<Byte>, ctx: nat): (r: Option<Layout>)
    ensures r.Some? ==> LayoutFits(m, r.value, ctx) && 4 * SESSION_FIELDS <= |b|
  {
    if |b| < 4 * SESSION_FIELDS then None
    else
      var h := Decode(b, SESSION_FIELDS);
      var l := SessionLayout(h);
      if h[0] != SESSION_MAGIC || h[1] != SESSION_VERSION || !LayoutFits(m, l, ctx) then None else Some(l)
  }

  function LoadOf(m: Model, route: seq<Span>, b: seq<Byte>, ctx: nat): Option<Loaded> {
    if !RouteOk(m.nLayers, route) then None
    else
      match SessionHeadOf(m, b, ctx)
      case None => None
      case Some(l) => LoadBody(m, route, l, b[4 * SESSION_FIELDS..])
  }

  function LoadBody(m: Model, route: seq<Span>, l: Layout, b: seq<Byte>): Option<Loaded>
    requires RouteOk(m.nLayers, route) && l.nLayers == m.nLayers
  {
    if |b| < 4 * l.tokenCount + 4 * l.vocab + 8 * l.nLayers then None
    else
      var afterTokens := b[4 * l.tokenCount..];
      var afterLogits := afterTokens[4 * l.vocab..];
      var afterComp := afterLogits[4 * l.nLayers..];
      var tokens, logits := Decode(b, l.tokenCount), afterTokens[..4 * l.vocab];
      var nComp, nIndex, flat := Decode(afterLogits, l.nLayers), Decode(afterComp, l.nLayers), afterComp[4 * l.nLayers..];
      if !TokensFit(m, tokens) || !Within(nComp, l.compCap) || !Within(nIndex, l.compCap) then None
      else
        match Split(m, l, nComp, nIndex, route, |route|, flat)
        case None => None
        case Some(p) => if p.rest != [] then None else Some(Loaded(l, tokens, logits, p.done))
  }

  // ---- Layers and ranges ---------------------------------------------------

  lemma {:induction false} FlattenConcat(a: seq<seq<Byte>>, b: seq<seq<Byte>>)
    ensures Flatten(a + b) == Flatten(a) + Flatten(b)
  {
    if a == [] {
      assert a + b == b;
    } else {
      assert (a + b)[1..] == a[1..] + b;
      FlattenConcat(a[1..], b);
    }
  }

  lemma FlattenRange(t: seq<seq<Byte>>, i: nat, j: nat)
    requires i <= j <= |t|
    ensures Flatten(t[..j]) == Flatten(t[..i]) + Flatten(t[i..j])
  {
    assert t[..j] == t[..i] + t[i..j];
    FlattenConcat(t[..i], t[i..j]);
  }

  lemma FlattenOne(x: seq<Byte>)
    ensures Flatten([x]) == x
  {
    assert Flatten([x]) == x + Flatten([x][1..]) == x;
  }

  lemma {:induction false} FlattenSizes(parts: seq<seq<Byte>>, sizes: seq<nat>)
    requires |parts| == |sizes| && forall i :: 0 <= i < |parts| ==> |parts[i]| == sizes[i]
    ensures |Flatten(parts)| == Sum(sizes)
  {
    if parts != [] {
      var k := |parts| - 1;
      FlattenSizes(parts[..k], sizes[..k]);
      assert parts == parts[..k] + [parts[k]];
      FlattenConcat(parts[..k], [parts[k]]);
      FlattenOne(parts[k]);
    }
  }

  /** The layers of a range take the bytes their counts call for. */
  lemma RangeBytes(m: Model, s: Snapshot, lo: nat, n: nat)
    requires LayersValid(m, s) && lo + n <= m.nLayers
    ensures |Flatten(s.tensors[lo..lo + n])| == Total(m, s.layout, lo, s.nComp[lo..lo + n], s.nIndex[lo..lo + n])
  {
    var parts, sizes := s.tensors[lo..lo + n], Sizes(m, s.layout, lo, s.nComp[lo..lo + n], s.nIndex[lo..lo + n]);
    forall i: nat | i < n ensures |parts[i]| == sizes[i] {
      assert LayerValid(m, s, lo + i);
    }
    FlattenSizes(parts, sizes);
  }

  lemma RangeSmaller(m: Model, s: Snapshot, lo: nat, hi: nat)
    requires Valid(m, s) && lo <= hi <= m.nLayers
    ensures |Flatten(s.tensors[lo..hi])| < U64
  {
    FlattenRange(s.tensors, lo, hi);
    FlattenRange(s.tensors, hi, m.nLayers);
    assert s.tensors[..m.nLayers] == s.tensors;
  }

  lemma CountsFit(m: Model, s: Snapshot, lo: nat, hi: nat)
    requires Valid(m, s) && lo <= hi <= m.nLayers
    ensures Within(s.nComp[lo..hi], s.layout.compCap) && Within(s.nIndex[lo..hi], s.layout.compCap)
    ensures AreWords(s.nComp[lo..hi]) && AreWords(s.nIndex[lo..hi]) && AreWords(s.nComp) && AreWords(s.nIndex)
  {
    var cap := s.layout.compCap;
    assert cap == SessionHeader(s.layout)[6] < U32;
    forall i: nat | i < m.nLayers ensures s.nComp[i] <= cap && s.nIndex[i] <= cap {
      assert LayerValid(m, s, i);
    }
  }

  lemma HeaderWords(m: Model, s: Snapshot, lo: nat, hi: nat)
    requires Valid(m, s) && lo <= hi < m.nLayers
    ensures AreWords(LayerHeader(s.layout, lo, hi))
  {
    var h, g := SessionHeader(s.layout), LayerHeader(s.layout, lo, hi);
    assert h[8] < U32;
    forall i | 0 <= i < LAYER_FIELDS ensures g[i] < U32 {
      assert i < SESSION_FIELDS ==> h[i] < U32;
      assert h[12] < U32;
    }
  }

  /** What layers `lo` to `k - 1` contribute to a payload. */
  function Layers(s: Snapshot, lo: nat, k: nat): Parsed
    requires Sized(s) && lo <= k <= s.layout.nLayers
  {
    Parsed(s.layout.(vocab := 0), s.nComp[lo..k], s.nIndex[lo..k], Flatten(s.tensors[lo..k]))
  }

  lemma LayersJoin(s: Snapshot, lo: nat, k: nat)
    requires Sized(s) && lo <= k <= s.layout.nLayers
    ensures Join(Layers(s, 0, lo), Layers(s, lo, k)) == Layers(s, 0, k)
  {
    FlattenRange(s.tensors, lo, k);
    assert s.tensors[0..k] == s.tensors[..k] && s.tensors[0..lo] == s.tensors[..lo];
    assert s.nComp[0..lo] + s.nComp[lo..k] == s.nComp[0..k];
    assert s.nIndex[0..lo] + s.nIndex[lo..k] == s.nIndex[0..k];
  }

  /** Every route's worker payloads are payloads the parser accepts, with the same counts and bytes. */
  lemma ShardAccepted(m: Model, s: Snapshot, span: Span)
    requires Valid(m, s) && span.lo <= span.hi < m.nLayers
    ensures ParseShard(m, ShardOf(s, span), span.lo, span.hi) == Some(Layers(s, span.lo, span.hi + 1))
  {
    hide ParseShard, ShardPayload, Total, RawLiveValid;
    var p := Layers(s, span.lo, span.hi + 1);
    RangeReady(m, s, span.lo, span.hi, p);
    ShardParsed(m, s.layout, span.lo, span.hi, p.nComp, p.nIndex, p.flat);
  }

  lemma RangeReady(m: Model, s: Snapshot, lo: nat, hi: nat, p: Parsed)
    requires Valid(m, s) && lo <= hi < m.nLayers && p == Layers(s, lo, hi + 1)
    ensures AreWords(LayerHeader(s.layout, lo, hi)) && |p.nComp| == |p.nIndex| == hi - lo + 1
    ensures AreWords(p.nComp) && AreWords(p.nIndex) && Within(p.nComp, s.layout.compCap) && Within(p.nIndex, s.layout.compCap)
    ensures |p.flat| == Total(m, s.layout, lo, p.nComp, p.nIndex) < U64
  {
    HeaderWords(m, s, lo, hi);
    CountsFit(m, s, lo, hi + 1);
    var n: nat := hi + 1 - lo;
    RangeBytes(m, s, lo, n);
    RangeSmaller(m, s, lo, lo + n);
  }

  // ---- Topology independence -----------------------------------------------

  /** The workers of a route hold the shards of one snapshot. */
  predicate AreShards(s: Snapshot, route: seq<Span>, shards: seq<seq<Byte>>)
    requires Sized(s)
  {
    && |shards| == |route| && RouteOk(s.layout.nLayers, route)
    && forall i: nat :: i < |route| ==> IsShard(s, route[i], shards[i])
  }

  predicate IsShard(s: Snapshot, span: Span, b: seq<Byte>)
    requires Sized(s)
  {
    span.lo <= span.hi < s.layout.nLayers && b == ShardOf(s, span)
  }

  /** Parsed shards of a route over one snapshot. */
  predicate AreLayers(s: Snapshot, route: seq<Span>, parsed: seq<Option<Parsed>>)
    requires Sized(s) && RouteOk(s.layout.nLayers, route)
  {
    |parsed| == |route| && forall i: nat :: i < |route| ==> IsLayers(s, route[i], parsed[i])
  }

  predicate IsLayers(s: Snapshot, span: Span, p: Option<Parsed>)
    requires Sized(s)
  {
    span.lo <= span.hi < s.layout.nLayers && p == Some(Layers(s, span.lo, span.hi + 1))
  }

  lemma {:induction false} Gathered(s: Snapshot, route: seq<Span>, parsed: seq<Option<Parsed>>, n: nat)
    requires Sized(s) && RouteOk(s.layout.nLayers, route) && AreLayers(s, route, parsed) && 1 <= n <= |route|
    ensures route[n - 1].hi < s.layout.nLayers && Gather(parsed, n) == Some(Layers(s, 0, route[n - 1].hi + 1))
    decreases n
  {
    hide Flatten;
    assert IsLayers(s, route[n - 1], parsed[n - 1]) && SpanFollows(s.layout.nLayers, route, n - 1);
    if n > 1 {
      Gathered(s, route, parsed, n - 1);
      LayersJoin(s, route[n - 1].lo, route[n - 1].hi + 1);
    }
  }

  lemma ShardParsedAt(m: Model, s: Snapshot, span: Span, b: seq<Byte>)
    requires Valid(m, s) && IsShard(s, span, b)
    ensures IsLayers(s, span, ParseShard(m, b, span.lo, span.hi))
  {
    ShardAccepted(m, s, span);
  }

  lemma {:induction false} ShardsParsed(m: Model, s: Snapshot, route: seq<Span>, shards: seq<seq<Byte>>)
    requires Valid(m, s) && AreShards(s, route, shards)
    ensures AreLayers(s, route, ParseAll(m, route, shards))
  {
    var ps := ParseAll(m, route, shards);
    forall i: nat | i < |route| ensures IsLayers(s, route[i], ps[i]) {
      assert IsShard(s, route[i], shards[i]);
      ShardParsedAt(m, s, route[i], shards[i]);
    }
  }

  /** Whatever the route, the save writes the same payload. */
  lemma SavedPayload(m: Model, s: Snapshot, route: seq<Span>, shards: seq<seq<Byte>>)
    requires Valid(m, s) && AreShards(s, route, shards)
    ensures SaveOf(m, route, shards, s.tokens, s.logits) == Some(SessionOf(s))
  {
    ShardsParsed(m, s, route, shards);
    WholeGathered(s, route, ParseAll(m, route, shards));
    SaveIs(m, route, shards, s.tokens, s.logits, Whole(s));
    WholePayload(m.vocab, s);
  }

  function Whole(s: Snapshot): Parsed {
    Parsed(s.layout.(vocab := 0), s.nComp, s.nIndex, Flatten(s.tensors))
  }

  lemma WholePayload(vocab: nat, s: Snapshot)
    requires s.layout.vocab == vocab
    ensures var g := Whole(s);
            SessionPayload(g.layout.(vocab := vocab), s.tokens, s.logits, g.nComp, g.nIndex, g.flat) == SessionOf(s)
  {
    assert s.layout.(vocab := 0).(vocab := vocab) == s.layout;
  }

  lemma {:induction false} WholeGathered(s: Snapshot, route: seq<Span>, parsed: seq<Option<Parsed>>)
    requires Sized(s) && RouteOk(s.layout.nLayers, route) && AreLayers(s, route, parsed)
    ensures Gather(parsed, |route|) == Some(Whole(s))
  {
    AllLayers(s);
    var last: nat := |route| - 1;
    Gathered(s, route, parsed, last + 1);
    assert route[last].hi + 1 == s.layout.nLayers;
  }

  lemma SaveIs(m: Model, route: seq<Span>, shards: seq<seq<Byte>>, tokens: seq<nat>, logits: seq<Byte>, g: Parsed)
    requires |route| == |shards| && RouteOk(m.nLayers, route) && g.layout.tokenCount == |tokens|
    requires Gather(ParseAll(m, route, shards), |route|) == Some(g)
    ensures SaveOf(m, route, shards, tokens, logits)
         == Some(SessionPayload(g.layout.(vocab := m.vocab), tokens, logits, g.nComp, g.nIndex, g.flat))
  {
  }

  lemma AllLayers(s: Snapshot)
    requires Sized(s)
    ensures Layers(s, 0, s.layout.nLayers) == Whole(s)
  {
    var n := s.layout.nLayers;
    assert s.nComp[0..n] == s.nComp && s.nIndex[0..n] == s.nIndex && s.tensors[0..n] == s.tensors;
  }

  /** The first `n` payloads cut from the session's tensors are those ranges' shards. */
  predicate CutShards(s: Snapshot, route: seq<Span>, n: nat, p: Pieces)
    requires Sized(s) && n <= |route| && RouteOk(s.layout.nLayers, route)
  {
    && From(route, n) <= |s.tensors| && p.rest == Flatten(s.tensors[From(route, n)..]) && |p.done| == n
    && forall i: nat :: i < n ==> IsShard(s, route[i], p.done[i])
  }

  /** The first layer after the route's first `n` ranges. */
  function From(route: seq<Span>, n: nat): nat
    requires n <= |route|
  {
    if n == 0 then 0 else route[n - 1].hi + 1
  }

  lemma FromBound(layers: nat, route: seq<Span>, n: nat)
    requires RouteOk(layers, route) && n <= |route|
    ensures From(route, n) <= layers
    ensures n < |route| ==> From(route, n) == route[n].lo <= route[n].hi < layers
  {
    if n > 0 { assert SpanFollows(layers, route, n - 1); }
    if n < |route| { assert SpanFollows(layers, route, n); }
  }

  lemma {:induction false} SplitSnapshot(m: Model, s: Snapshot, route: seq<Span>, n: nat, flat: seq<Byte>) returns (p: Pieces)
    requires LayersValid(m, s) && RouteOk(m.nLayers, route) && n <= |route| && flat == Flatten(s.tensors)
    ensures Split(m, s.layout, s.nComp, s.nIndex, route, n, flat) == Some(p) && CutShards(s, route, n, p)
    decreases n
  {
    if n == 0 {
      p := Pieces([], flat);
      assert s.tensors[0..] == s.tensors;
    } else {
      var before := SplitSnapshot(m, s, route, n - 1, flat);
      p := SplitStep(m, s, route, n, before, flat);
    }
  }

  /** The pieces once the next range's shard is cut. */
  function NextCut(m: Model, s: Snapshot, span: Span, p: Pieces): Pieces
    requires Sized(s) && span.lo <= span.hi < s.layout.nLayers
  {
    var c, x := s.nComp[span.lo..span.hi + 1], s.nIndex[span.lo..span.hi + 1];
    var bytes := Total(m, s.layout, span.lo, c, x);
    if bytes <= |p.rest| then Cut(p, s.layout, span.lo, span.hi, c, x, bytes) else p
  }

  lemma {:induction false} CutHolds(m: Model, s: Snapshot, route: seq<Span>, n: nat, p: Pieces)
    requires LayersValid(m, s) && RouteOk(m.nLayers, route) && 0 < n <= |route| && CutShards(s, route, n - 1, p)
    ensures From(route, n - 1) == route[n - 1].lo <= route[n - 1].hi < m.nLayers
    ensures CutShards(s, route, n, NextCut(m, s, route[n - 1], p))
    ensures Total(m, s.layout, route[n - 1].lo, s.nComp[route[n - 1].lo..route[n - 1].hi + 1], s.nIndex[route[n - 1].lo..route[n - 1].hi + 1]) <= |p.rest|
  {
    hide ShardPayload, Encode, Flatten;
    FromBound(m.nLayers, route, n - 1);
    var lo, hi := route[n - 1].lo, route[n - 1].hi;
    var bytes := Total(m, s.layout, lo, s.nComp[lo..hi + 1], s.nIndex[lo..hi + 1]);
    SplitOnce(m, s, lo, hi);
    CutNext(m, s, route, n, p, NextCut(m, s, route[n - 1], p), bytes, lo, hi);
  }

  lemma {:induction false} SplitStep(m: Model, s: Snapshot, route: seq<Span>, n: nat, p: Pieces, flat: seq<Byte>) returns (q: Pieces)
    requires LayersValid(m, s) && RouteOk(m.nLayers, route) && 0 < n <= |route| && CutShards(s, route, n - 1, p)
    requires Split(m, s.layout, s.nComp, s.nIndex, route, n - 1, flat) == Some(p)
    ensures Split(m, s.layout, s.nComp, s.nIndex, route, n, flat) == Some(q) && CutShards(s, route, n, q)
  {
    hide ShardPayload, Encode;
    CutHolds(m, s, route, n, p);
    q := NextCut(m, s, route[n - 1], p);
  }

  lemma SplitIs(m: Model, l: Layout, nComp: seq<nat>, nIndex: seq<nat>, route: seq<Span>, n: nat, flat: seq<Byte>, p: Pieces, bytes: nat,
                c: seq<nat>, x: seq<nat>)
    requires |nComp| == |nIndex| == l.nLayers && 0 < n <= |route| && RouteOk(l.nLayers, route)
    requires Split(m, l, nComp, nIndex, route, n - 1, flat) == Some(p)
    requires var lo, hi := route[n - 1].lo, route[n - 1].hi;
             lo <= hi < l.nLayers && c == nComp[lo..hi + 1] && x == nIndex[lo..hi + 1] && bytes == Total(m, l, lo, c, x)
    ensures Split(m, l, nComp, nIndex, route, n, flat)
         == if bytes <= |p.rest| then Some(Cut(p, l, route[n - 1].lo, route[n - 1].hi, c, x, bytes)) else None
  {
    hide ShardPayload, Total;
  }

  /** The next piece is the next range's shard. */
  lemma CutNext(m: Model, s: Snapshot, route: seq<Span>, n: nat, p: Pieces, q: Pieces, bytes: nat, lo: nat, hi: nat)
    requires Sized(s) && RouteOk(s.layout.nLayers, route) && 0 < n <= |route| && CutShards(s, route, n - 1, p) && bytes <= |p.rest|
    requires route[n - 1] == Span(lo, hi) && lo <= hi < s.layout.nLayers
    requires q == Cut(p, s.layout, lo, hi, s.nComp[lo..hi + 1], s.nIndex[lo..hi + 1], bytes)
    requires p.rest[..bytes] == Flatten(s.tensors[lo..hi + 1]) && p.rest[bytes..] == Flatten(s.tensors[hi + 1..])
    ensures CutShards(s, route, n, q)
  {
    hide ShardPayload, Encode, Flatten;
    var last: nat := n - 1;
    assert q.done == p.done + [ShardOf(s, route[last])];
    forall i: nat | i < n ensures IsShard(s, route[i], q.done[i]) {
      if i < last {
        assert q.done[i] == p.done[i];
        assert IsShard(s, route[i], p.done[i]);
      }
    }
  }

  lemma SplitOnce(m: Model, s: Snapshot, lo: nat, hi: nat)
    requires LayersValid(m, s) && lo <= hi < m.nLayers
    ensures var bytes := Total(m, s.layout, lo, s.nComp[lo..hi + 1], s.nIndex[lo..hi + 1]);
            var rest := Flatten(s.tensors[lo..]);
            && bytes <= |rest| && rest[..bytes] == Flatten(s.tensors[lo..hi + 1]) && rest[bytes..] == Flatten(s.tensors[hi + 1..])
  {
    RangeBytes(m, s, lo, hi + 1 - lo);
    assert s.tensors[lo..] == s.tensors[lo..hi + 1] + s.tensors[hi + 1..];
    FlattenConcat(s.tensors[lo..hi + 1], s.tensors[hi + 1..]);
  }

  /** What a session must allow for a saved snapshot to be loaded into it. */
  predicate Loadable(m: Model, s: Snapshot, ctx: nat) {
    s.layout.ctx <= ctx && s.layout.tokenCount < ctx && TokensFit(m, s.tokens)
  }

  lemma HeadLoaded(m: Model, l: Layout, route: seq<Span>, b: seq<Byte>, body: seq<Byte>, ctx: nat)
    requires WordLayout(l) && b == Encode(SessionHeader(l)) + body && RouteOk(m.nLayers, route)
    ensures LoadOf(m, route, b, ctx) == if LayoutFits(m, l, ctx) then LoadBody(m, route, l, body) else None
  {
    WordsDecoded(SessionHeader(l), body, b, SESSION_FIELDS);
    assert SessionLayout(SessionHeader(l)) == l;
  }

  lemma WordsDecoded(xs: seq<nat>, rest: seq<Byte>, b: seq<Byte>, n: nat)
    requires AreWords(xs) && |xs| == n && b == Encode(xs) + rest
    ensures 4 * n <= |b| && Decode(b, n) == xs && b[4 * n..] == rest
  {
    DecodeEncode(xs, rest);
  }

  lemma BodyLoaded(m: Model, s: Snapshot, route: seq<Span>, b: seq<Byte>)
    requires Valid(m, s) && RouteOk(m.nLayers, route)
    requires b == Encode(s.tokens) + (s.logits + (Encode(s.nComp) + (Encode(s.nIndex) + Flatten(s.tensors))))
    ensures TokensFit(m, s.tokens) <==> LoadBody(m, route, s.layout, b).Some?
    ensures TokensFit(m, s.tokens) ==> IsLoaded(s, route, LoadBody(m, route, s.layout, b).value)
  {
    CountsFit(m, s, 0, m.nLayers);
    assert s.nComp[0..m.nLayers] == s.nComp && s.nIndex[0..m.nLayers] == s.nIndex;
    var l, flat := s.layout, Flatten(s.tensors);
    var afterComp := Encode(s.nIndex) + flat;
    var afterLogits := Encode(s.nComp) + afterComp;
    var afterTokens := s.logits + afterLogits;
    WordsDecoded(s.tokens, afterTokens, b, l.tokenCount);
    assert afterTokens[..4 * l.vocab] == s.logits && afterTokens[4 * l.vocab..] == afterLogits;
    WordsDecoded(s.nComp, afterComp, afterLogits, l.nLayers);
    WordsDecoded(s.nIndex, flat, afterComp, l.nLayers);
    SplitWhole(m, s, route);
  }

  /** Cut for the whole route, nothing of the tensors is left. */
  lemma SplitWhole(m: Model, s: Snapshot, route: seq<Span>)
    requires Valid(m, s) && RouteOk(m.nLayers, route)
    ensures var p := Split(m, s.layout, s.nComp, s.nIndex, route, |route|, Flatten(s.tensors));
            p.Some? && p.value.rest == [] && AreShards(s, route, p.value.done)
  {
    var p := SplitSnapshot(m, s, route, |route|, Flatten(s.tensors));
    assert From(route, |route|) == m.nLayers && s.tensors[m.nLayers..] == [];
  }

  /** The loaded session: the same tokens and logits, and every range's own shard. */
  predicate IsLoaded(s: Snapshot, route: seq<Span>, r: Loaded)
    requires Sized(s) && RouteOk(s.layout.nLayers, route)
  {
    r.layout == s.layout && r.tokens == s.tokens && r.logits == s.logits && AreShards(s, route, r.pieces)
  }

  /** A saved payload loads exactly when the session allows it, on any route. */
  lemma SessionLoaded(m: Model, s: Snapshot, route: seq<Span>, ctx: nat)
    requires Valid(m, s) && RouteOk(m.nLayers, route)
    ensures Loadable(m, s, ctx) <==> LoadOf(m, route, SessionOf(s), ctx).Some?
    ensures Loadable(m, s, ctx) ==> IsLoaded(s, route, LoadOf(m, route, SessionOf(s), ctx).value)
  {
    var body := Encode(s.tokens) + (s.logits + (Encode(s.nComp) + (Encode(s.nIndex) + Flatten(s.tensors))));
    HeadLoaded(m, s.layout, route, SessionOf(s), body, ctx);
    BodyLoaded(m, s, route, body);
  }

  /** Main result. What one route saved, any other route loads: each of its ranges gets a layer
      payload the parser accepts, with the layers' own counts and tensor bytes, and no bytes are
      left over. It fails exactly when the session is too small or a token is out of range. */
  lemma TopologyIndependent(m: Model, s: Snapshot, r1: seq<Span>, shards: seq<seq<Byte>>, r2: seq<Span>, ctx: nat)
    requires Valid(m, s) && AreShards(s, r1, shards) && RouteOk(m.nLayers, r2)
    ensures SaveOf(m, r1, shards, s.tokens, s.logits).Some?
    ensures var saved := SaveOf(m, r1, shards, s.tokens, s.logits).value;
            var loaded := LoadOf(m, r2, saved, ctx);
            && (loaded.Some? <==> Loadable(m, s, ctx))
            && (loaded.Some? ==>
                  && IsLoaded(s, r2, loaded.value)
                  && AreLayers(s, r2, ParseAll(m, r2, loaded.value.pieces))
                  && SaveOf(m, r2, loaded.value.pieces, loaded.value.tokens, loaded.value.logits) == Some(saved))
  {
    SavedPayload(m, s, r1, shards);
    SessionLoaded(m, s, r2, ctx);
    if Loadable(m, s, ctx) {
      var pieces := LoadOf(m, r2, SessionOf(s), ctx).value.pieces;
      ShardsParsed(m, s, r2, pieces);
      SavedPayload(m, s, r2, pieces);
    }
  }

  /** A session whose tokens fill its context: one layer, one token, nothing in its tensors. */
  function FullSession(): (s: Snapshot) {
    Snapshot(Layout(1, 1, 1, 1, 0, 1, 1, 0, 0, 1, 1), [0], [0, 0, 0, 0], [0], [0], [[]])
  }

  function OneLayer(glmBytes: (nat, nat, nat, nat, nat, nat) -> nat): Model {
    Model(1, 1, false, _ => 0, glmBytes)
  }

  lemma SessionSize(s: Snapshot)
    ensures |SessionOf(s)| == 4 * (SESSION_FIELDS + |s.tokens| + |s.nComp| + |s.nIndex|) + |s.logits| + |Flatten(s.tensors)|
  {
    hide Encode, Flatten, SessionHeader;
  }

  lemma FullSessionLayers(m: Model, s: Snapshot)
    requires m == OneLayer(m.glmBytes) && s == FullSession()
    ensures LayersValid(m, s) && |Flatten(s.tensors)| == 0
  {
    assert TensorBytes(m, s.layout, 0, 0, 0) == 4 * Times(1, 0) == 0;
    assert LayerValid(m, s, 0);
    assert s.tensors[1..] == [] && Flatten([]) == [];
  }

  lemma FullSessionValid(m: Model, s: Snapshot)
    requires m == OneLayer(m.glmBytes) && s == FullSession()
    ensures Valid(m, s)
  {
    hide SessionOf, LayersValid, Flatten;
    FullSessionLayers(m, s);
    SessionSize(s);
  }

  /** It is saved, and the same session's own load then refuses the payload. */
  lemma FullSessionRefused(m: Model, s: Snapshot, shard: seq<Byte>)
    requires m == OneLayer(m.glmBytes) && s == FullSession() && shard == ShardOf(s, Span(0, 0))
    ensures Valid(m, s) && s.layout.tokenCount == s.layout.ctx && AreShards(s, [Span(0, 0)], [shard])
    ensures SaveOf(m, [Span(0, 0)], [shard], s.tokens, s.logits) == Some(SessionOf(s))
    ensures LoadOf(m, [Span(0, 0)], SessionOf(s), s.layout.ctx).None?
  {
    hide Encode, ShardOf, SessionOf, SaveOf, LoadOf, Valid;
    var route := [Span(0, 0)];
    assert SpanFollows(1, route, 0);
    assert IsShard(s, route[0], shard);
    FullSessionValid(m, s);
    SavedPayload(m, s, route, [shard]);
    SessionLoaded(m, s, route, s.layout.ctx);
  }
}
