/** A chain of workers between the coordinator's first-hop connection and the last hop,
    with the relay that brings results back.

    Hop `h` of `H` reads work from link `2H-1-h` and answers on link `h`; link `2H-1` is
    what the coordinator writes and link `0` what it reads. Every step moves one message
    from some link to the next lower one. */
module WorkerChain {
  import opened TokenHash
  import opened WorkerSession

  datatype Kind = Ack | Hidden | Logits

  /** The record a hop adds to a result; its timings are not modelled. */
  datatype Telemetry = Telemetry(routeIndex: nat, pos0: nat, nTokens: nat)

  datatype Pending = Pending(id: nat, telemetry: Telemetry)

  datatype Message =
    | WorkMsg(work: Work, routeIndex: nat)
    | ResultMsg(id: nat, hash: Hash, ok: bool, kind: Kind, bytes: nat, telemetry: seq<Telemetry>)

  /** `depth` is a forwarder's window of unanswered requests. */
  datatype Config = Config(limits: Limits, hops: nat, depth: nat, logitsOut: bool, logitsBytes: nat, hiddenBytes: nat)

  datatype Chain = Chain(links: seq<seq<Message>>, pending: seq<seq<Pending>>, sessions: seq<Session>)

  predicate ValidConfig(c: Config) { 0 < c.hops && 0 < c.depth }

  predicate Shaped(c: Config, ch: Chain) {
    |ch.links| == 2 * c.hops && |ch.pending| == c.hops && |ch.sessions| == c.hops
  }

  function DownLink(c: Config, h: nat): nat
    requires h < c.hops
  {
    2 * c.hops - 1 - h
  }

  function Idle(c: Config, sessions: seq<Session>): Chain {
    Chain(seq(2 * c.hops, _ => []), seq(c.hops, _ => []), sessions)
  }

  function TelemetryOf(w: Work, h: nat): Telemetry {
    Telemetry(h, w.pos0, |w.tokens|)
  }

  function KindOf(c: Config, w: Work): Kind {
    if w.ackOnly then Ack else if c.logitsOut then Logits else Hidden
  }

  function BytesOf(c: Config, w: Work): nat {
    match KindOf(c, w)
    case Ack => 0
    case Logits => c.logitsBytes
    case Hidden => |w.tokens| * c.hiddenBytes
  }

  function ErrorMsg(id: nat): Message {
    ResultMsg(id, 0, false, Ack, 0, [])
  }

  // ---- Steps ---------------------------------------------------------------

  function Drop(links: seq<seq<Message>>, k: nat): seq<seq<Message>>
    requires k < |links| && links[k] != []
  {
    links[k := links[k][1..]]
  }

  function Put(links: seq<seq<Message>>, k: nat, m: Message): seq<seq<Message>>
    requires k < |links|
  {
    links[k := links[k] + [m]]
  }

  /** The hop may take its next frame; a hop that forwards waits for room in its pending window. */
  predicate CanRun(c: Config, ch: Chain, h: nat) {
    && Shaped(c, ch) && h < c.hops
    && var down := ch.links[DownLink(c, h)];
    && down != [] && down[0].WorkMsg?
    && (h + 1 < c.hops ==> |ch.pending[h]| < c.depth)
  }

  /** Evaluate the frame, then answer upstream or forward downstream. */
  function RunHop(c: Config, ch: Chain, h: nat, o: Outcome): (r: Chain)
    requires CanRun(c, ch, h)
    ensures Shaped(c, r)
  {
    var w := ch.links[DownLink(c, h)][0].work;
    var rest := Drop(ch.links, DownLink(c, h));
    var v := Process(c.limits, ch.sessions[h], w, o);
    var sessions := ch.sessions[h := v.after];
    if !v.ok then Chain(Put(rest, h, ErrorMsg(w.id)), ch.pending, sessions)
    else if h + 1 == c.hops then
      var result := ResultMsg(w.id, w.result, true, KindOf(c, w), BytesOf(c, w), [TelemetryOf(w, h)]);
      Chain(Put(rest, h, result), ch.pending, sessions)
    else
      Chain(Put(rest, DownLink(c, h + 1), WorkMsg(w, h + 1)),
            ch.pending[h := ch.pending[h] + [Pending(w.id, TelemetryOf(w, h))]], sessions)
  }

  predicate CanRelay(c: Config, ch: Chain, h: nat) {
    && Shaped(c, ch) && h + 1 < c.hops
    && ch.links[h + 1] != [] && ch.links[h + 1][0].ResultMsg? && ch.pending[h] != []
  }

  /** Pair the next downstream result with the oldest pending request and pass it upstream. */
  function Relay(c: Config, ch: Chain, h: nat): (r: Chain)
    requires CanRelay(c, ch, h)
    ensures Shaped(c, r)
  {
    var m, p := ch.links[h + 1][0], ch.pending[h][0];
    var out := if m.id != p.id then ErrorMsg(p.id) else m.(telemetry := m.telemetry + [p.telemetry]);
    Chain(Put(Drop(ch.links, h + 1), h, out), ch.pending[h := ch.pending[h][1..]], ch.sessions)
  }

  function Push(c: Config, ch: Chain, w: Work): (r: Chain)
    requires Shaped(c, ch) && ValidConfig(c)
    ensures Shaped(c, r)
  {
    ch.(links := Put(ch.links, 2 * c.hops - 1, WorkMsg(w, 0)))
  }

  predicate CanPop(c: Config, ch: Chain) {
    Shaped(c, ch) && 0 < c.hops && ch.links[0] != []
  }

  function Pop(c: Config, ch: Chain): (r: Chain)
    requires CanPop(c, ch)
    ensures Shaped(c, r)
  {
    ch.(links := Drop(ch.links, 0))
  }

  // ---- What a fault-free run keeps -----------------------------------------

  /** Where the requests of a run begin: the tokens already evaluated, or a reset. */
  datatype Start = Start(base: seq<Token>, reset: bool)

  function Before(st: Start, sent: seq<Work>, n: nat): seq<Token>
    requires n <= |sent|
  {
    if n == 0 then st.base else Before(st, sent, n - 1) + sent[n - 1].tokens
  }

  ghost predicate CoherentAt(c: Config, st: Start, sent: seq<Work>, i: nat)
    requires i < |sent|
  {
    && Admissible(c.limits, sent[i])
    && sent[i].prefix == Prefix(Before(st, sent, i)) && sent[i].pos0 == |Before(st, sent, i)|
    && (sent[i].reset <==> i == 0 && st.reset)
  }

  /** Consecutive requests over one token sequence. */
  ghost predicate Coherent(c: Config, st: Start, sent: seq<Work>) {
    && (st.reset ==> st.base == [])
    && forall i: nat :: i < |sent| ==> CoherentAt(c, st, sent, i)
  }

  /** The session of a hop that has evaluated the first `n` requests. */
  predicate SessionAt(st: Start, s: Session, sent: seq<Work>, n: nat)
    requires n <= |sent|
  {
    if n > 0 then s == Session(Before(st, sent, n), true, Prefix(Before(st, sent, n)), true)
    else st.reset || (s.timeline == st.base && SpanFits(s, |st.base|) && (s.hashValid ==> s.hash == Prefix(st.base)))
  }

  /** One telemetry record per hop from the last hop up to hop `k`. */
  function Telemetries(c: Config, w: Work, k: nat): seq<Telemetry>
    requires k < c.hops
    decreases c.hops - k
  {
    if k + 1 == c.hops then [TelemetryOf(w, k)] else Telemetries(c, w, k + 1) + [TelemetryOf(w, k)]
  }

  /** The message that stands for request `w` on link `k`. */
  function MessageAt(c: Config, w: Work, k: nat): Message
    requires k < 2 * c.hops
  {
    if k >= c.hops then WorkMsg(w, 2 * c.hops - 1 - k)
    else ResultMsg(w.id, w.result, true, KindOf(c, w), BytesOf(c, w), Telemetries(c, w, k))
  }

  /** Messages on the links below `k`. */
  function Below(links: seq<seq<Message>>, k: nat): nat
    requires k <= |links|
  {
    if k == 0 then 0 else Below(links, k - 1) + |links[k - 1]|
  }

  /** Link `k` holds the messages of consecutive requests from number `at` on. */
  ghost predicate LinkHolds(c: Config, q: seq<Message>, sent: seq<Work>, at: nat, k: nat)
    requires k < 2 * c.hops
  {
    && at + |q| <= |sent|
    && forall j: nat :: j < |q| ==> q[j] == MessageAt(c, sent[at + j], k)
  }

  ghost predicate LinkAt(c: Config, links: seq<seq<Message>>, sent: seq<Work>, received: nat, k: nat)
    requires k < 2 * c.hops == |links|
  {
    LinkHolds(c, links[k], sent, received + Below(links, k), k)
  }

  ghost predicate LinksHold(c: Config, links: seq<seq<Message>>, sent: seq<Work>, received: nat) {
    && |links| == 2 * c.hops
    && received + Below(links, 2 * c.hops) == |sent|
    && forall k: nat :: k < 2 * c.hops ==> LinkAt(c, links, sent, received, k)
  }

  /** A pending list stands for the consecutive requests `at .. upTo`. */
  ghost predicate ListHolds(p: seq<Pending>, sent: seq<Work>, at: nat, upTo: nat, h: nat) {
    && at + |p| == upTo <= |sent|
    && forall j: nat :: j < |p| ==> p[j] == Pending(sent[at + j].id, TelemetryOf(sent[at + j], h))
  }

  /** The requests hop `h` has forwarded and not yet paired with a result. */
  ghost predicate PendingHolds(c: Config, links: seq<seq<Message>>, p: seq<Pending>, sent: seq<Work>, received: nat, h: nat)
    requires |links| == 2 * c.hops && h + 1 < c.hops
  {
    && |p| <= c.depth
    && ListHolds(p, sent, received + Below(links, h + 1), received + Below(links, DownLink(c, h)), h)
  }

  ghost predicate SessionHolds(c: Config, st: Start, links: seq<seq<Message>>, s: Session, sent: seq<Work>, received: nat, h: nat)
    requires |links| == 2 * c.hops && h < c.hops
  {
    var done := received + Below(links, DownLink(c, h));
    done <= |sent| && SessionAt(st, s, sent, done)
  }

  ghost predicate HopHolds(c: Config, st: Start, ch: Chain, sent: seq<Work>, received: nat, h: nat)
    requires Shaped(c, ch) && h < c.hops
  {
    && (h + 1 < c.hops ==> PendingHolds(c, ch.links, ch.pending[h], sent, received, h))
    && SessionHolds(c, st, ch.links, ch.sessions[h], sent, received, h)
  }

  ghost predicate HopsHold(c: Config, st: Start, ch: Chain, sent: seq<Work>, received: nat) {
    Shaped(c, ch) && forall h: nat :: h < c.hops ==> HopHolds(c, st, ch, sent, received, h)
  }

  ghost predicate ChainInv(c: Config, st: Start, ch: Chain, sent: seq<Work>, received: nat) {
    && ValidConfig(c) && Coherent(c, st, sent)
    && LinksHold(c, ch.links, sent, received)
    && HopsHold(c, st, ch, sent, received)
  }

  // ---- Proofs --------------------------------------------------------------

  lemma {:induction false} BelowMonotone(links: seq<seq<Message>>, i: nat, k: nat)
    requires i <= k <= |links|
    ensures Below(links, i) <= Below(links, k)
    decreases k
  {
    if i < k { BelowMonotone(links, i, k - 1); }
  }

  lemma {:induction false} BelowPut(links: seq<seq<Message>>, k: nat, m: Message, i: nat)
    requires k < |links| && i <= |links|
    ensures Below(Put(links, k, m), i) == Below(links, i) + (if k < i then 1 else 0)
    decreases i
  {
    if i > 0 { BelowPut(links, k, m, i - 1); }
  }

  lemma {:induction false} BelowDrop(links: seq<seq<Message>>, k: nat, i: nat)
    requires k < |links| && i <= |links| && links[k] != []
    ensures Below(Drop(links, k), i) == Below(links, i) - (if k < i then 1 else 0)
    decreases i
  {
    if i > 0 { BelowDrop(links, k, i - 1); }
  }

  lemma BelowEmpty(c: Config, sessions: seq<Session>, i: nat)
    requires i <= 2 * c.hops
    ensures Below(Idle(c, sessions).links, i) == 0
  {
    if i > 0 { BelowEmpty(c, sessions, i - 1); }
  }

  lemma LinkPop(c: Config, q: seq<Message>, sent: seq<Work>, at: nat, k: nat)
    requires k < 2 * c.hops && LinkHolds(c, q, sent, at, k) && q != []
    ensures LinkHolds(c, q[1..], sent, at + 1, k)
  {
    forall j: nat | j < |q| - 1 ensures q[1..][j] == MessageAt(c, sent[at + 1 + j], k) {
      assert q[1..][j] == q[j + 1];
    }
  }

  lemma ListPop(p: seq<Pending>, sent: seq<Work>, at: nat, upTo: nat, h: nat)
    requires ListHolds(p, sent, at, upTo, h) && p != []
    ensures ListHolds(p[1..], sent, at + 1, upTo, h)
    ensures p[0] == Pending(sent[at].id, TelemetryOf(sent[at], h))
  {
    forall j: nat | j < |p| - 1
      ensures p[1..][j] == Pending(sent[at + 1 + j].id, TelemetryOf(sent[at + 1 + j], h))
    {
      assert p[1..][j] == p[j + 1];
    }
  }

  function Move(links: seq<seq<Message>>, k: nat, m: Message): seq<seq<Message>>
    requires k + 1 < |links| && links[k + 1] != []
  {
    Put(Drop(links, k + 1), k, m)
  }

  lemma BelowMove(links: seq<seq<Message>>, k: nat, m: Message, i: nat)
    requires k + 1 < |links| && links[k + 1] != [] && i <= |links|
    ensures Below(Move(links, k, m), i) == Below(links, i) + (if i == k + 1 then 1 else 0)
  {
    BelowDrop(links, k + 1, i);
    BelowPut(Drop(links, k + 1), k, m, i);
  }

  /** Moving the oldest message of link `k+1` to link `k` keeps every other message in its place. */
  lemma MoveKeepsLinks(c: Config, links: seq<seq<Message>>, sent: seq<Work>, received: nat, k: nat, m: Message)
    requires LinksHold(c, links, sent, received) && k + 1 < |links| && links[k + 1] != []
    requires received + Below(links, k + 1) < |sent| ==> m == MessageAt(c, sent[received + Below(links, k + 1)], k)
    ensures LinksHold(c, Move(links, k, m), sent, received)
  {
    hide Telemetries, MessageAt;
    var out := Move(links, k, m);
    BelowMove(links, k, m, |links|);
    forall i: nat | i < 2 * c.hops ensures LinkAt(c, out, sent, received, i) {
      BelowMove(links, k, m, i);
      assert LinkAt(c, links, sent, received, i);
      if i == k + 1 {
        LinkPop(c, links[i], sent, received + Below(links, i), i);
      } else if i == k {
        assert LinkAt(c, links, sent, received, k + 1);
      }
    }
  }

  lemma TelemetriesStep(c: Config, w: Work, k: nat)
    requires k + 1 < c.hops
    ensures MessageAt(c, w, k + 1).ResultMsg?
    ensures MessageAt(c, w, k) == MessageAt(c, w, k + 1).(telemetry := Telemetries(c, w, k + 1) + [TelemetryOf(w, k)])
  {
  }

  /** A hop that has kept up evaluates the next request. */
  lemma SmoothProcess(c: Config, st: Start, s: Session, sent: seq<Work>, n: nat)
    requires Coherent(c, st, sent) && n < |sent| && SessionAt(st, s, sent, n)
    ensures Process(c.limits, s, sent[n], SMOOTH).ok
    ensures SessionAt(st, Process(c.limits, s, sent[n], SMOOTH).after, sent, n + 1)
  {
    var b := Before(st, sent, n);
    assert CoherentAt(c, st, sent, n);
    assert Prefix([]) == INIT;
    SpanConcat(INIT, b, sent[n].tokens);
  }

  /** What a fault-free hop does, once its session is known to agree. */
  lemma SmoothRun(c: Config, st: Start, ch: Chain, sent: seq<Work>, received: nat, h: nat)
    requires CanRun(c, ch, h) && Coherent(c, st, sent)
    requires LinkAt(c, ch.links, sent, received, DownLink(c, h)) && SessionHolds(c, st, ch.links, ch.sessions[h], sent, received, h)
    ensures var k := DownLink(c, h);
            var n := received + Below(ch.links, k);
            && n < |sent|
            && var r := RunHop(c, ch, h, SMOOTH);
            && r.links == Move(ch.links, k - 1, MessageAt(c, sent[n], k - 1))
            && r.pending == (if h + 1 < c.hops then ch.pending[h := ch.pending[h] + [Pending(sent[n].id, TelemetryOf(sent[n], h))]] else ch.pending)
            && r.sessions == ch.sessions[h := r.sessions[h]] && SessionAt(st, r.sessions[h], sent, n + 1)
  {
    SmoothProcess(c, st, ch.sessions[h], sent, received + Below(ch.links, DownLink(c, h)));
  }

  /** A move between links that do not border on hop `g` does not concern it. */
  lemma MoveKeepsHop(c: Config, st: Start, ch: Chain, r: Chain, sent: seq<Work>, received: nat, k: nat, m: Message, g: nat)
    requires Shaped(c, ch) && Shaped(c, r) && g < c.hops && HopHolds(c, st, ch, sent, received, g)
    requires k + 1 < 2 * c.hops && ch.links[k + 1] != [] && r.links == Move(ch.links, k, m)
    requires r.pending[g] == ch.pending[g] && r.sessions[g] == ch.sessions[g]
    requires k != g && k + 1 != DownLink(c, g)
    ensures HopHolds(c, st, r, sent, received, g)
  {
    BelowMove(ch.links, k, m, DownLink(c, g));
    BelowMove(ch.links, k, m, g + 1);
  }

  lemma RunKeepsHop(c: Config, st: Start, ch: Chain, sent: seq<Work>, received: nat, h: nat, g: nat)
    requires Coherent(c, st, sent) && CanRun(c, ch, h) && g < c.hops
    requires HopHolds(c, st, ch, sent, received, h) && HopHolds(c, st, ch, sent, received, g)
    requires LinkAt(c, ch.links, sent, received, DownLink(c, h))
    ensures HopHolds(c, st, RunHop(c, ch, h, SMOOTH), sent, received, g)
  {
    hide Process, Telemetries, Before;
    var k, r := DownLink(c, h) - 1, RunHop(c, ch, h, SMOOTH);
    SmoothRun(c, st, ch, sent, received, h);
    var m := MessageAt(c, sent[received + Below(ch.links, k + 1)], k);
    if g != h && k != g {
      MoveKeepsHop(c, st, ch, r, sent, received, k, m, g);
    } else {
      BelowMove(ch.links, k, m, DownLink(c, g));
      BelowMove(ch.links, k, m, g + 1);
    }
  }

  lemma RunKeepsInv(c: Config, st: Start, ch: Chain, sent: seq<Work>, received: nat, h: nat)
    requires ChainInv(c, st, ch, sent, received) && CanRun(c, ch, h)
    ensures ChainInv(c, st, RunHop(c, ch, h, SMOOTH), sent, received)
  {
    var k := DownLink(c, h) - 1;
    assert LinkAt(c, ch.links, sent, received, k + 1);
    assert HopHolds(c, st, ch, sent, received, h);
    SmoothRun(c, st, ch, sent, received, h);
    MoveKeepsLinks(c, ch.links, sent, received, k, MessageAt(c, sent[received + Below(ch.links, k + 1)], k));
    forall g: nat | g < c.hops ensures HopHolds(c, st, RunHop(c, ch, h, SMOOTH), sent, received, g) {
      assert HopHolds(c, st, ch, sent, received, g);
      RunKeepsHop(c, st, ch, sent, received, h, g);
    }
  }

  /** What a relay does: the pair it makes is a request with its own result. */
  lemma SmoothRelay(c: Config, ch: Chain, sent: seq<Work>, received: nat, h: nat)
    requires CanRelay(c, ch, h)
    requires LinkAt(c, ch.links, sent, received, h + 1) && PendingHolds(c, ch.links, ch.pending[h], sent, received, h)
    ensures ch.pending[h][0].id == ch.links[h + 1][0].id
    ensures var n := received + Below(ch.links, h + 1);
            && n < |sent|
            && Relay(c, ch, h).links == Move(ch.links, h, MessageAt(c, sent[n], h))
            && ListHolds(ch.pending[h][1..], sent, n + 1, received + Below(ch.links, DownLink(c, h)), h)
  {
    var n := received + Below(ch.links, h + 1);
    ListPop(ch.pending[h], sent, n, received + Below(ch.links, DownLink(c, h)), h);
    assert ch.links[h + 1][0] == MessageAt(c, sent[n], h + 1);
    TelemetriesStep(c, sent[n], h);
  }

  lemma RelayKeepsInv(c: Config, st: Start, ch: Chain, sent: seq<Work>, received: nat, h: nat)
    requires ChainInv(c, st, ch, sent, received) && CanRelay(c, ch, h)
    ensures ChainInv(c, st, Relay(c, ch, h), sent, received)
    ensures ch.pending[h][0].id == ch.links[h + 1][0].id
  {
    hide Process, Telemetries, Before;
    var n, r := received + Below(ch.links, h + 1), Relay(c, ch, h);
    assert LinkAt(c, ch.links, sent, received, h + 1);
    assert HopHolds(c, st, ch, sent, received, h);
    SmoothRelay(c, ch, sent, received, h);
    var m := MessageAt(c, sent[n], h);
    MoveKeepsLinks(c, ch.links, sent, received, h, m);
    forall g: nat | g < c.hops ensures HopHolds(c, st, r, sent, received, g) {
      assert HopHolds(c, st, ch, sent, received, g);
      if g != h {
        MoveKeepsHop(c, st, ch, r, sent, received, h, m, g);
      } else {
        BelowMove(ch.links, h, m, DownLink(c, h));
        BelowMove(ch.links, h, m, h + 1);
      }
    }
  }

  lemma {:induction false} BeforeExtends(st: Start, sent: seq<Work>, w: Work, n: nat)
    requires n <= |sent|
    ensures Before(st, sent + [w], n) == Before(st, sent, n)
    decreases n
  {
    if n > 0 { BeforeExtends(st, sent, w, n - 1); }
  }

  lemma CoherentPrefix(c: Config, st: Start, sent: seq<Work>, w: Work, n: nat)
    requires n <= |sent|
    ensures Before(st, sent + [w], n) == Before(st, sent, n)
    ensures forall s :: SessionAt(st, s, sent, n) ==> SessionAt(st, s, sent + [w], n)
  {
    BeforeExtends(st, sent, w, n);
  }

  lemma PushKeepsLinks(c: Config, links: seq<seq<Message>>, sent: seq<Work>, received: nat, w: Work)
    requires LinksHold(c, links, sent, received) && 0 < c.hops
    ensures LinksHold(c, Put(links, 2 * c.hops - 1, WorkMsg(w, 0)), sent + [w], received)
  {
    var last := 2 * c.hops - 1;
    var out := Put(links, last, WorkMsg(w, 0));
    BelowPut(links, last, WorkMsg(w, 0), 2 * c.hops);
    forall i: nat | i < 2 * c.hops ensures LinkAt(c, out, sent + [w], received, i) {
      BelowPut(links, last, WorkMsg(w, 0), i);
      assert LinkAt(c, links, sent, received, i);
    }
  }

  lemma PushKeepsHop(c: Config, st: Start, ch: Chain, sent: seq<Work>, received: nat, w: Work, g: nat)
    requires Shaped(c, ch) && ValidConfig(c) && g < c.hops && HopHolds(c, st, ch, sent, received, g)
    ensures HopHolds(c, st, Push(c, ch, w), sent + [w], received, g)
  {
    hide Process, MessageAt, Telemetries;
    var last, r := 2 * c.hops - 1, Push(c, ch, w);
    BelowPut(ch.links, last, WorkMsg(w, 0), DownLink(c, g));
    BelowPut(ch.links, last, WorkMsg(w, 0), g + 1);
    CoherentPrefix(c, st, sent, w, received + Below(ch.links, DownLink(c, g)));
    assert SessionHolds(c, st, r.links, r.sessions[g], sent + [w], received, g);
  }

  lemma PushKeepsInv(c: Config, st: Start, ch: Chain, sent: seq<Work>, received: nat, w: Work)
    requires ChainInv(c, st, ch, sent, received) && Coherent(c, st, sent + [w])
    ensures ChainInv(c, st, Push(c, ch, w), sent + [w], received)
  {
    PushKeepsLinks(c, ch.links, sent, received, w);
    forall g: nat | g < c.hops ensures HopHolds(c, st, Push(c, ch, w), sent + [w], received, g) {
      assert HopHolds(c, st, ch, sent, received, g);
      PushKeepsHop(c, st, ch, sent, received, w, g);
    }
  }

  lemma PopKeepsLinks(c: Config, links: seq<seq<Message>>, sent: seq<Work>, received: nat)
    requires LinksHold(c, links, sent, received) && 0 < c.hops && links[0] != []
    ensures received < |sent| && links[0][0] == MessageAt(c, sent[received], 0)
    ensures LinksHold(c, Drop(links, 0), sent, received + 1)
  {
    var got, out := received + 1, Drop(links, 0);
    assert LinkAt(c, links, sent, received, 0);
    BelowDrop(links, 0, 2 * c.hops);
    forall i: nat | i < 2 * c.hops ensures LinkAt(c, out, sent, got, i) {
      BelowDrop(links, 0, i);
      assert LinkAt(c, links, sent, received, i);
      if i == 0 { LinkPop(c, links[0], sent, received, 0); }
    }
  }

  lemma PopKeepsInv(c: Config, st: Start, ch: Chain, sent: seq<Work>, received: nat)
    requires ChainInv(c, st, ch, sent, received) && CanPop(c, ch)
    ensures received < |sent| && ch.links[0][0] == MessageAt(c, sent[received], 0)
    ensures ChainInv(c, st, Pop(c, ch), sent, received + 1)
  {
    var r, got := Pop(c, ch), received + 1;
    PopKeepsLinks(c, ch.links, sent, received);
    forall g: nat | g < c.hops ensures HopHolds(c, st, r, sent, got, g) {
      BelowDrop(ch.links, 0, DownLink(c, g));
      BelowDrop(ch.links, 0, g + 1);
      assert HopHolds(c, st, ch, sent, received, g);
    }
  }

  lemma IdleInv(c: Config, st: Start, sessions: seq<Session>)
    requires ValidConfig(c) && |sessions| == c.hops && (st.reset ==> st.base == [])
    requires forall s :: s in sessions ==> SessionAt(st, s, [], 0)
    ensures ChainInv(c, st, Idle(c, sessions), [], 0)
  {
    forall i: nat | i <= 2 * c.hops ensures Below(Idle(c, sessions).links, i) == 0 {
      BelowEmpty(c, sessions, i);
    }
  }

  /** A result at the coordinator carries one record per hop, the last hop's first. */
  lemma {:induction false} TelemetryPerHop(c: Config, w: Work, k: nat)
    requires k < c.hops
    ensures |Telemetries(c, w, k)| == c.hops - k
    ensures forall j :: 0 <= j < c.hops - k ==> Telemetries(c, w, k)[j] == TelemetryOf(w, c.hops - 1 - j)
    decreases c.hops - k
  {
    if k + 1 < c.hops { TelemetryPerHop(c, w, k + 1); }
  }

  /** While any request is inside the chain, some hop, relay or the reader can move. */
  lemma ChainMoves(c: Config, st: Start, ch: Chain, sent: seq<Work>, received: nat)
    requires ChainInv(c, st, ch, sent, received) && received < |sent|
    ensures CanPop(c, ch) || (exists h: nat :: CanRun(c, ch, h)) || (exists h: nat :: CanRelay(c, ch, h))
  {
    var k := LowestBusy(ch.links, 2 * c.hops);
    assert LinkAt(c, ch.links, sent, received, k);
    if k >= c.hops {
      var h := 2 * c.hops - 1 - k;
      if h + 1 < c.hops { assert HopHolds(c, st, ch, sent, received, h); }
      assert CanRun(c, ch, h);
    } else if k > 0 {
      assert HopHolds(c, st, ch, sent, received, k - 1);
      BelowMonotone(ch.links, k + 1, DownLink(c, k - 1));
      assert CanRelay(c, ch, k - 1);
    }
  }

  lemma LowestBusy(links: seq<seq<Message>>, n: nat) returns (k: nat)
    requires n <= |links| && Below(links, n) > 0
    ensures k < n && links[k] != [] && Below(links, k) == 0
  {
    k := n - 1;
    if Below(links, k) > 0 { k := LowestBusy(links, k); }
  }

  // ---- Whole runs ----------------------------------------------------------

  datatype Step = RunStep(hop: nat, outcome: Outcome) | RelayStep(hop: nat) | PushStep(work: Work) | PopStep

  datatype Pair = Pair(hop: nat, pendingId: nat, resultId: nat)

  /** The chain, what the coordinator has written and read, and every pair a relay made. */
  datatype World = World(chain: Chain, sent: seq<Work>, read: seq<Message>, pairs: seq<Pair>)

  predicate Enabled(c: Config, x: World, a: Step) {
    match a
    case RunStep(h, _) => CanRun(c, x.chain, h)
    case RelayStep(h) => CanRelay(c, x.chain, h)
    case PushStep(_) => Shaped(c, x.chain) && ValidConfig(c)
    case PopStep => CanPop(c, x.chain)
  }

  function Next(c: Config, x: World, a: Step): World
    requires Enabled(c, x, a)
  {
    match a
    case RunStep(h, o) => x.(chain := RunHop(c, x.chain, h, o))
    case RelayStep(h) =>
      x.(chain := Relay(c, x.chain, h),
         pairs := x.pairs + [Pair(h, x.chain.pending[h][0].id, x.chain.links[h + 1][0].id)])
    case PushStep(w) => x.(chain := Push(c, x.chain, w), sent := x.sent + [w])
    case PopStep => x.(chain := Pop(c, x.chain), read := x.read + [x.chain.links[0][0]])
  }

  /** A run from an idle chain; evaluations may fail. */
  ghost predicate IsRun(c: Config, worlds: seq<World>, steps: seq<Step>) {
    && ValidConfig(c) && |worlds| == |steps| + 1
    && |worlds[0].chain.sessions| == c.hops
    && worlds[0] == World(Idle(c, worlds[0].chain.sessions), [], [], [])
    && forall i :: 0 <= i < |steps| ==> Enabled(c, worlds[i], steps[i]) && worlds[i + 1] == Next(c, worlds[i], steps[i])
  }

  /** Sessions start where the first request does, no evaluation fails, and the coordinator's
      requests are consecutive. */
  ghost predicate FaultFree(c: Config, st: Start, worlds: seq<World>, steps: seq<Step>) {
    && |worlds| == |steps| + 1
    && (st.reset ==> st.base == [])
    && (forall s :: s in worlds[0].chain.sessions ==> SessionAt(st, s, [], 0))
    && (forall i :: 0 <= i < |steps| ==> steps[i].RunStep? ==> steps[i].outcome == SMOOTH)
    && (forall i :: 0 <= i < |steps| ==> steps[i].PushStep? ==> Coherent(c, st, worlds[i].sent + [steps[i].work]))
  }

  ghost predicate WorldOk(c: Config, st: Start, x: World) {
    && ChainInv(c, st, x.chain, x.sent, |x.read|)
    && |x.read| <= |x.sent|
    && (forall j: nat :: j < |x.read| ==> x.read[j] == MessageAt(c, x.sent[j], 0))
    && (forall p :: p in x.pairs ==> p.pendingId == p.resultId)
  }

  lemma {:induction false} RunOk(c: Config, st: Start, worlds: seq<World>, steps: seq<Step>, i: nat)
    requires IsRun(c, worlds, steps) && FaultFree(c, st, worlds, steps) && i < |worlds|
    ensures WorldOk(c, st, worlds[i])
  {
    hide Process, RunHop, Relay;
    if i == 0 {
      IdleInv(c, st, worlds[0].chain.sessions);
    } else {
      var x := worlds[i - 1];
      RunOk(c, st, worlds, steps, i - 1);
      match steps[i - 1] {
        case RunStep(h, o) => RunKeepsInv(c, st, x.chain, x.sent, |x.read|, h);
        case RelayStep(h) => RelayKeepsInv(c, st, x.chain, x.sent, |x.read|, h);
        case PushStep(w) => PushKeepsInv(c, st, x.chain, x.sent, |x.read|, w);
        case PopStep => PopKeepsInv(c, st, x.chain, x.sent, |x.read|);
      }
    }
  }

  /** Result `m` answers request `w` with its own id and hash, and one record per hop, last hop first. */
  predicate Answers(c: Config, w: Work, m: Message) {
    && m.ResultMsg? && m.id == w.id && m.hash == w.result && m.ok
    && m.kind == KindOf(c, w) && m.bytes == BytesOf(c, w)
    && |m.telemetry| == c.hops
    && forall j :: 0 <= j < c.hops ==> m.telemetry[j] == TelemetryOf(w, c.hops - 1 - j)
  }

  /** Main result. In every fault-free run each relay pairs a result with its own request, and
      the results the coordinator reads answer its requests in the order it wrote them. */
  lemma ResultsInWorkOrder(c: Config, st: Start, worlds: seq<World>, steps: seq<Step>, i: nat)
    requires IsRun(c, worlds, steps) && FaultFree(c, st, worlds, steps) && i < |worlds|
    ensures |worlds[i].read| <= |worlds[i].sent|
    ensures forall j :: 0 <= j < |worlds[i].read| ==> Answers(c, worlds[i].sent[j], worlds[i].read[j])
    ensures forall p :: p in worlds[i].pairs ==> p.pendingId == p.resultId
  {
    RunOk(c, st, worlds, steps, i);
    var x := worlds[i];
    forall j | 0 <= j < |x.read| ensures Answers(c, x.sent[j], x.read[j]) {
      assert x.read[j] == MessageAt(c, x.sent[j], 0);
      TelemetryPerHop(c, x.sent[j], 0);
    }
  }

  /** No fault-free run gets stuck: with a request unanswered, a hop, a relay or the reader can move. */
  lemma UnansweredMoves(c: Config, st: Start, worlds: seq<World>, steps: seq<Step>, i: nat) returns (a: Step)
    requires IsRun(c, worlds, steps) && FaultFree(c, st, worlds, steps) && i < |worlds|
    requires |worlds[i].read| < |worlds[i].sent|
    ensures !a.PushStep? && (a.RunStep? ==> a.outcome == SMOOTH) && Enabled(c, worlds[i], a)
  {
    RunOk(c, st, worlds, steps, i);
    var x := worlds[i];
    ChainMoves(c, st, x.chain, x.sent, |x.read|);
    if CanPop(c, x.chain) {
      a := PopStep;
    } else if h: nat :| CanRun(c, x.chain, h) {
      a := RunStep(h, SMOOTH);
    } else {
      var h: nat :| CanRelay(c, x.chain, h);
      a := RelayStep(h);
    }
  }

  /** In every run, with or without failures, no hop has more requests outstanding than its window. */
  lemma {:induction false} WindowKept(c: Config, worlds: seq<World>, steps: seq<Step>, i: nat, h: nat)
    requires IsRun(c, worlds, steps) && i < |worlds| && h < c.hops
    ensures Shaped(c, worlds[i].chain) && |worlds[i].chain.pending[h]| <= c.depth
  {
    if i > 0 {
      WindowKept(c, worlds, steps, i - 1, h);
    }
  }

  // ---- How far there is to go ----------------------------------------------

  /** The moves still ahead of the messages on the links: one for each link a message has to leave. */
  function Moves(links: seq<seq<Message>>, n: nat): int
    requires n <= |links|
  {
    if n == 0 then 0 else Moves(links, n - 1) + (Below(links, |links|) - Below(links, n - 1))
  }

  lemma {:induction false} MovesNonNegative(links: seq<seq<Message>>, n: nat)
    requires n <= |links|
    ensures Moves(links, n) >= 0
  {
    if n > 0 {
      BelowMonotone(links, n - 1, |links|);
      MovesNonNegative(links, n - 1);
    }
  }

  lemma {:induction false} MovesMove(links: seq<seq<Message>>, k: nat, m: Message, n: nat)
    requires k + 1 < |links| && links[k + 1] != [] && n <= |links|
    ensures Moves(Move(links, k, m), n) == Moves(links, n) - (if k + 1 < n then 1 else 0)
    decreases n
  {
    if n > 0 {
      MovesMove(links, k, m, n - 1);
      BelowMove(links, k, m, n - 1);
      BelowMove(links, k, m, |links|);
    }
  }

  lemma {:induction false} MovesPut(links: seq<seq<Message>>, m: Message, n: nat)
    requires n <= |links| && links != []
    ensures Moves(Put(links, |links| - 1, m), n) == Moves(links, n) + n
    decreases n
  {
    if n > 0 {
      MovesPut(links, m, n - 1);
      BelowPut(links, |links| - 1, m, n - 1);
      BelowPut(links, |links| - 1, m, |links|);
    }
  }

  lemma {:induction false} MovesDrop(links: seq<seq<Message>>, n: nat)
    requires n <= |links| && links != [] && links[0] != []
    ensures Moves(Drop(links, 0), n) == Moves(links, n) - (if n > 0 then 1 else 0)
    decreases n
  {
    if n > 0 {
      MovesDrop(links, n - 1);
      BelowDrop(links, 0, n - 1);
      BelowDrop(links, 0, |links|);
    }
  }

  function ChainRank(ch: Chain): int {
    Moves(ch.links, |ch.links|)
  }

  /** A hop or a relay brings the chain one move closer to its end. */
  lemma HopRank(c: Config, st: Start, ch: Chain, sent: seq<Work>, received: nat, h: nat)
    requires ChainInv(c, st, ch, sent, received) && CanRun(c, ch, h)
    ensures ChainRank(RunHop(c, ch, h, SMOOTH)) == ChainRank(ch) - 1
  {
    var k := DownLink(c, h) - 1;
    assert LinkAt(c, ch.links, sent, received, k + 1);
    assert HopHolds(c, st, ch, sent, received, h);
    SmoothRun(c, st, ch, sent, received, h);
    MovesMove(ch.links, k, MessageAt(c, sent[received + Below(ch.links, k + 1)], k), 2 * c.hops);
  }

  lemma RelayRank(c: Config, st: Start, ch: Chain, sent: seq<Work>, received: nat, h: nat)
    requires ChainInv(c, st, ch, sent, received) && CanRelay(c, ch, h)
    ensures ChainRank(Relay(c, ch, h)) == ChainRank(ch) - 1
  {
    assert LinkAt(c, ch.links, sent, received, h + 1);
    assert HopHolds(c, st, ch, sent, received, h);
    SmoothRelay(c, ch, sent, received, h);
    MovesMove(ch.links, h, MessageAt(c, sent[received + Below(ch.links, h + 1)], h), 2 * c.hops);
  }
}
