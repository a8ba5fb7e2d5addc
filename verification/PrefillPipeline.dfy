/** Pipelined prefill: the producer evaluates the local layers chunk by chunk, the sender
    thread writes the chunks to the worker chain, and the reader thread takes the results.
    A step is one critical section, or one stretch of code between two of them. */
module PrefillPipeline {
  import opened Wrappers
  import opened TokenHash
  import opened WorkerSession
  import opened SlotRing
  import opened Division
  import WorkerChain

  type Message = WorkerChain.Message

  // ---- The job -------------------------------------------------------------

  datatype Job = Job(prompt: seq<Token>, start: nat, n: nat, cap: nat, firstId: nat, reset: bool, acks: bool,
                     window: nat, depth: nat, chain: WorkerChain.Config)

  predicate JobOk(j: Job) {
    && 0 < j.n && j.start + j.n <= |j.prompt| && 0 < j.cap && 0 < j.window && 0 < j.depth
    && WorkerChain.ValidConfig(j.chain)
  }

  function Min(a: nat, b: nat): nat { if a < b then a else b }

  /** How many send slots to use: two, or the operator's choice, but no more than chunks. */
  function SendDepth(choice: Option<int>, chunks: nat): (r: nat)
    ensures 1 <= r <= 8 && (0 < chunks ==> r <= chunks)
  {
    var depth := if choice.Some? && 1 <= choice.value <= 8 then choice.value else 2;
    if chunks != 0 && chunks < depth then chunks else depth
  }

  /** The flow window; a request above 64 is refused. */
  function FlowWindow(requested: nat, stages: nat, chunks: nat): (r: Option<nat>)
    ensures r.None? <==> 64 < requested
    ensures r.Some? ==> 1 <= r.value <= 64 && (0 < chunks ==> r.value <= chunks)
  {
    if requested > 64 then None
    else
      var w := if requested != 0 then requested else Min(stages + 2, 8);
      Some(if chunks != 0 && chunks < w then chunks else w)
  }

  function Count(j: Job): nat
    requires JobOk(j)
  {
    (j.n + j.cap - 1) / j.cap
  }

  /** Where chunk `i` begins. */
  function Pos(j: Job, i: nat): (p: nat)
    ensures j.start <= p <= j.start + j.n
  {
    j.start + Min(i * j.cap, j.n)
  }

  lemma {:induction false} CountRounds(n: nat, cap: nat, i: nat)
    requires 0 < cap
    ensures i < (n + cap - 1) / cap <==> i * cap < n
  {
    var c := (n + cap - 1) / cap;
    assert n + cap - 1 == cap * c + (n + cap - 1) % cap;
    if i < c {
      assert cap * (i + 1) <= cap * c;
    } else {
      assert cap * c <= cap * i;
    }
  }

  lemma Chunks(j: Job, i: nat)
    requires JobOk(j)
    ensures 0 < Count(j) && Pos(j, 0) == j.start && Pos(j, Count(j)) == j.start + j.n
    ensures i < Count(j) <==> Pos(j, i) < j.start + j.n
    ensures i < Count(j) ==> Pos(j, i + 1) == Pos(j, i) + Min(j.cap, j.start + j.n - Pos(j, i))
    ensures i < Count(j) ==> Pos(j, i) - j.start == i * j.cap
  {
    CountRounds(j.n, j.cap, i);
    CountRounds(j.n, j.cap, 0);
    CountRounds(j.n, j.cap, Count(j));
    assert (i + 1) * j.cap == i * j.cap + j.cap;
  }

  /** The hash after chunk `i`. */
  function Expected(j: Job, i: nat): Hash
    requires JobOk(j)
  {
    Prefix(j.prompt[..Pos(j, i + 1)])
  }

  /** What chunk `i` must be sent as. */
  function SlotAt(j: Job, i: nat): Slot
    requires JobOk(j) && i < Count(j)
  {
    Chunks(j, i);
    Slot(Pos(j, i), Pos(j, i + 1) - Pos(j, i), j.firstId + i, Prefix(j.prompt[..Pos(j, i)]), Expected(j, i),
         j.reset && i == 0, j.acks && Pos(j, i + 1) < j.start + j.n)
  }

  function WorkOf(j: Job, x: Slot): Work {
    Work(x.id, x.prefix, x.result, x.pos,
         if x.pos + x.nTokens <= |j.prompt| then j.prompt[x.pos..x.pos + x.nTokens] else [], x.reset, x.ackOnly)
  }

  function WorkAt(j: Job, i: nat): Work
    requires JobOk(j) && i < Count(j)
  {
    WorkOf(j, SlotAt(j, i))
  }

  /** The progress report for `k` finished chunks. */
  function ReportOf(j: Job, k: nat): nat {
    Min(j.start + Min(k * j.cap, j.n), |j.prompt|)
  }

  /** The reports for chunks `lo + 1` to `hi`. */
  function Reports(j: Job, lo: nat, hi: nat): seq<nat> {
    if lo < hi then Reports(j, lo, hi - 1) + [ReportOf(j, hi)] else []
  }

  lemma {:induction false} ReportsAt(j: Job, lo: nat, hi: nat)
    requires lo <= hi
    ensures |Reports(j, lo, hi)| == hi - lo
    ensures forall k: nat :: k < hi - lo ==> Reports(j, lo, hi)[k] == ReportOf(j, lo + k + 1)
    decreases hi
  {
    if lo < hi { ReportsAt(j, lo, hi - 1); }
  }

  method EmitProgress(j: Job, reported: nat, completed: nat) returns (now: nat, out: seq<nat>)
    ensures out == Reports(j, reported, completed) && now == if reported < completed then completed else reported
  {
    now, out := reported, [];
    while now < completed
      invariant reported <= now && (now <= completed || now == reported)
      invariant out == Reports(j, reported, now)
    {
      now := now + 1;
      var rel := now * j.cap;
      if rel > j.n { rel := j.n; }
      var current := j.start + rel;
      if current > |j.prompt| { current := |j.prompt|; }
      out := out + [current];
    }
  }

  lemma PrefixGrows(prompt: seq<Token>, a: nat, b: nat)
    requires a <= b <= |prompt|
    ensures Span(Prefix(prompt[..a]), prompt[a..b]) == Prefix(prompt[..b])
  {
    SpanConcat(INIT, prompt[..a], prompt[a..b]);
    assert prompt[..a] + prompt[a..b] == prompt[..b];
  }

  lemma NextExpected(j: Job, i: nat)
    requires JobOk(j) && i < Count(j)
    ensures var pos := Pos(j, i);
            var chunk := Min(j.start + j.n - pos, j.cap);
            && Pos(j, i + 1) == pos + chunk
            && Span(Prefix(j.prompt[..pos]), j.prompt[pos..pos + chunk]) == Expected(j, i) == Prefix(j.prompt[..pos + chunk])
  {
    Chunks(j, i);
    PrefixGrows(j.prompt, Pos(j, i), Pos(j, i + 1));
  }

  method ExpectedHashes(j: Job) returns (hashes: array<Hash>)
    requires JobOk(j)
    ensures hashes.Length == Count(j) && forall i :: 0 <= i < Count(j) ==> hashes[i] == Expected(j, i)
  {
    var count := (j.n + j.cap - 1) / j.cap;
    assert count == Count(j);
    hashes := FillHashes(j, count);
  }

  method FillHashes(j: Job, count: nat) returns (hashes: array<Hash>)
    requires JobOk(j) && count == Count(j)
    ensures hashes.Length == count && forall i :: 0 <= i < count ==> hashes[i] == Expected(j, i)
  {
    hide Span;
    hashes := new Hash[count];
    var hash := UpdateSpan(INIT, j.prompt[..j.start]);
    var pos := j.start;
    Chunks(j, 0);
    for i := 0 to count
      invariant pos == Pos(j, i) && hash == Prefix(j.prompt[..pos])
      invariant forall k :: 0 <= k < i ==> hashes[k] == Expected(j, k)
    {
      NextExpected(j, i);
      var remaining := j.start + j.n - pos;
      var chunk := if remaining < j.cap then remaining else j.cap;
      hash := UpdateSpan(hash, j.prompt[pos..pos + chunk]);
      hashes[i] := hash;
      pos := pos + chunk;
    }
  }

  /** A result the reader accepts for chunk `i`. */
  predicate Good(j: Job, i: nat, m: Message)
    requires JobOk(j) && i < Count(j)
  {
    && m.ResultMsg? && m.ok && m.id == j.firstId + i && m.hash == Expected(j, i)
    && var chunk := Min(j.cap, j.n - Min(i * j.cap, j.n));
       || (m.kind.Ack? && i + 1 < Count(j) && m.bytes == 0)
       || (m.kind.Logits? && m.bytes == j.chain.logitsBytes)
       || (m.kind.Hidden? && !j.chain.logitsOut && m.bytes == chunk * j.chain.hiddenBytes)
  }

  // ---- The threads ---------------------------------------------------------

  datatype Producer =
    | AtWindow | WindowAsleep | WindowRetry | WindowEmit(go: bool)
    | AtAcquire | SlotAsleep | Filling(slot: nat) | AtEnqueue(slot: nat) | AfterEnqueue(slot: nat)
    | Ending(ok: bool) | JoiningSender(ok: bool)
    | AtFinal | FinalAsleep | FinalEmit(sawDone: bool) | FinalCheck(sawDone: bool)
    | JoiningReader(ok: bool) | Returned(ok: bool)

  datatype SenderThread = AtTake | TakeAsleep | Sending(slot: nat) | Sent(ok: bool) | SenderExited

  datatype ReaderThread = AtRead(i: nat) | Signal(finished: nat, last: bool) | Failing(i: nat) | LastSignal | ReaderExited

  datatype State = State(
    ring: Ring,
    p: Producer, pos: nat, nextHash: Hash, requestId: nat, submitted: nat, reported: nat, reports: seq<nat>,
    s: SenderThread, pushed: seq<Work>,
    r: ReaderThread, accepted: seq<Message>, completed: nat, done: bool, readerFailed: bool,
    chain: WorkerChain.Chain)

  datatype Action =
    /** The producer's next step; `ok` is what its engine call returns, if it makes one. */
    | Produce(ok: bool)
    /** The sender's next step; `ok` says whether its write succeeds. */
    | SendNext(ok: bool)
    /** The reader's next step; `ok` says whether its read succeeds. */
    | ReadNext(ok: bool)
    | Hop(hop: nat, outcome: Outcome)
    | Relay(hop: nat)
    | WakeProducer
    | WakeSender
    /** Workers and connections fail: the chain may hold anything. */
    | Break(chain: WorkerChain.Chain)

  function Initial(j: Job, sessions: seq<Session>): State
    requires JobOk(j)
  {
    State(Fresh(j.depth), AtWindow, j.start, Prefix(j.prompt[..j.start]), j.firstId, 0, 0, [],
          AtTake, [], AtRead(0), [], 0, false, false, WorkerChain.Idle(j.chain, sessions))
  }

  function Emit(j: Job, s: State): State {
    s.(reported := if s.reported < s.completed then s.completed else s.reported,
       reports := s.reports + Reports(j, s.reported, s.completed))
  }

  function WokenSender(t: SenderThread): SenderThread {
    if t.TakeAsleep? then AtTake else t
  }

  function WokenForSlot(p: Producer): Producer {
    if p.SlotAsleep? then AtAcquire else p
  }

  function WokenForProgress(p: Producer): Producer {
    match p
    case WindowAsleep => WindowRetry
    case FinalAsleep => AtFinal
    case _ => p
  }

  predicate ProducerReady(s: State) {
    match s.p
    case WindowAsleep | SlotAsleep | FinalAsleep | Returned(_) => false
    case JoiningSender(_) => s.s.SenderExited?
    case JoiningReader(_) => s.r.ReaderExited?
    case _ => true
  }

  predicate SenderReady(s: State) {
    !s.s.TakeAsleep? && !s.s.SenderExited?
  }

  predicate ReaderReady(j: Job, s: State, ok: bool) {
    && !s.r.ReaderExited?
    && (s.r.AtRead? && ok ==> WorkerChain.CanPop(j.chain, s.chain))
  }

  /** Every index a thread is about to use is in range; all runs keep this. */
  predicate InBounds(j: Job, s: State)
    requires JobOk(j)
  {
    && |s.ring.slots| == j.depth
    && (s.p.Filling? || s.p.AfterEnqueue? ==> s.p.slot < j.depth)
    && (s.s.Sending? ==> s.s.slot < j.depth)
    && (s.s == Sent(true) ==> s.ring.queued > 0)
    && (s.r.AtRead? ==> s.r.i < Count(j))
    && (s.p.JoiningReader? && s.p.ok && s.r.ReaderExited? && !s.readerFailed ==> |s.accepted| > 0)
    && WorkerChain.Shaped(j.chain, s.chain)
  }

  predicate Enabled(j: Job, s: State, a: Action)
    requires JobOk(j)
  {
    && InBounds(j, s)
    && match a
       case Produce(_) => ProducerReady(s)
       case SendNext(_) => SenderReady(s)
       case ReadNext(ok) => ReaderReady(j, s, ok)
       case Hop(h, _) => WorkerChain.CanRun(j.chain, s.chain, h)
       case Relay(h) => WorkerChain.CanRelay(j.chain, s.chain, h)
       case WakeProducer => s.p.WindowAsleep? || s.p.SlotAsleep? || s.p.FinalAsleep?
       case WakeSender => s.s.TakeAsleep?
       case Break(ch) => WorkerChain.Shaped(j.chain, ch)
  }

  /** Evaluate the local layers and describe the chunk in the granted slot. */
  function FillNext(j: Job, s: State, ok: bool): State
    requires JobOk(j) && InBounds(j, s) && s.p.Filling?
  {
    if !ok then s.(p := Ending(false))
    else
      var end := j.start + j.n;
      var chunk := Min(if end < s.pos then 0 else end - s.pos, j.cap);
      var x := Slot(s.pos, chunk, s.requestId, s.nextHash, Expected(j, s.submitted),
                    j.reset && s.pos == j.start, j.acks && s.pos + chunk < end);
      s.(ring := Fill(s.ring, s.p.slot, x), p := AtEnqueue(s.p.slot))
  }

  function ProducerNext(j: Job, s: State, ok: bool): State
    requires JobOk(j) && InBounds(j, s) && ProducerReady(s)
  {
    match s.p
    case AtWindow =>
      if s.done || s.submitted < s.completed + j.window
      then s.(p := WindowEmit(!s.done && s.submitted < s.completed + j.window))
      else s.(p := WindowAsleep)
    case WindowRetry => Emit(j, s).(p := AtWindow)
    case WindowEmit(go) => Emit(j, s).(p := if go then AtAcquire else Ending(false))
    case AtAcquire =>
      (match Acquire(s.ring)
       case MustWait => s.(p := SlotAsleep)
       case Refused => s.(p := Ending(false))
       case Granted(k) => s.(p := Filling(k)))
    case Filling(_) => FillNext(j, s, ok)
    case AtEnqueue(k) =>
      if MayEnqueue(s.ring) then s.(ring := Enqueue(s.ring), s := WokenSender(s.s), p := AfterEnqueue(k))
      else s.(p := Ending(false))
    case AfterEnqueue(k) =>
      var x := s.ring.slots[k];
      Emit(j, s).(requestId := s.requestId + 1, submitted := s.submitted + 1, nextHash := x.result, pos := s.pos + x.nTokens,
                  p := if s.pos + x.nTokens < j.start + j.n then AtWindow else Ending(true))
    case Ending(good) =>
      s.(ring := s.ring.(producerDone := true, stop := s.ring.stop || !good), s := WokenSender(s.s), p := JoiningSender(good))
    case JoiningSender(good) => s.(p := if good && !s.ring.failed then AtFinal else JoiningReader(false))
    case AtFinal => s.(p := if s.completed <= s.reported && !s.done then FinalAsleep else FinalEmit(s.done))
    case FinalEmit(d) => Emit(j, s).(p := FinalCheck(d))
    case FinalCheck(d) => s.(p := if d && s.reported >= s.completed then JoiningReader(true) else AtFinal)
    case JoiningReader(good) =>
      if !good || s.readerFailed then s.(p := Returned(false))
      else
        var m := s.accepted[|s.accepted| - 1];
        s.(p := Returned(m.ResultMsg? && ((m.kind.Logits? && m.bytes == j.chain.logitsBytes) || (m.kind.Hidden? && ok))))
  }

  function SenderNext(j: Job, s: State, ok: bool): State
    requires JobOk(j) && InBounds(j, s) && SenderReady(s)
  {
    match s.s
    case AtTake =>
      (match Take(s.ring)
       case MustWait => s.(s := TakeAsleep)
       case Refused => s.(s := SenderExited)
       case Granted(k) => s.(s := Sending(k)))
    case Sending(k) =>
      if !ok then s.(s := Sent(false))
      else
        var w := WorkOf(j, s.ring.slots[k]);
        s.(s := Sent(true), pushed := s.pushed + [w], chain := WorkerChain.Push(j.chain, s.chain, w))
    case Sent(good) =>
      if good then s.(ring := Release(s.ring), p := WokenForSlot(s.p), s := AtTake)
      else s.(ring := s.ring.(failed := true, stop := true), p := WokenForSlot(s.p), s := SenderExited)
  }

  function Progress(s: State, completed: nat, done: bool): State {
    s.(completed := if s.completed < completed then completed else s.completed, done := s.done || done,
       p := WokenForProgress(s.p))
  }

  function ReaderNext(j: Job, s: State, ok: bool): State
    requires JobOk(j) && InBounds(j, s) && ReaderReady(j, s, ok)
  {
    match s.r
    case AtRead(i) =>
      if !ok then s.(r := Failing(i), readerFailed := true)
      else
        var m := s.chain.links[0][0];
        var t := s.(chain := WorkerChain.Pop(j.chain, s.chain));
        if Good(j, i, m) then t.(accepted := s.accepted + [m], r := Signal(i + 1, i + 1 == Count(j)))
        else t.(r := Failing(i), readerFailed := true)
    case Signal(k, last) => Progress(s, k, last).(r := if last then LastSignal else AtRead(k))
    case Failing(i) => Progress(s, i, true).(r := ReaderExited)
    case LastSignal => Progress(s, Count(j), true).(r := ReaderExited)
  }

  function Next(j: Job, s: State, a: Action): State
    requires JobOk(j) && Enabled(j, s, a)
  {
    match a
    case Produce(ok) => ProducerNext(j, s, ok)
    case SendNext(ok) => SenderNext(j, s, ok)
    case ReadNext(ok) => ReaderNext(j, s, ok)
    case Hop(h, o) => s.(chain := WorkerChain.RunHop(j.chain, s.chain, h, o))
    case Relay(h) => s.(chain := WorkerChain.Relay(j.chain, s.chain, h))
    case WakeProducer => s.(p := WokenForProgress(WokenForSlot(s.p)))
    case WakeSender => s.(s := AtTake)
    case Break(ch) => s.(chain := ch)
  }

  ghost predicate IsRun(j: Job, states: seq<State>, actions: seq<Action>) {
    && JobOk(j) && |states| == |actions| + 1
    && |states[0].chain.sessions| == j.chain.hops && states[0] == Initial(j, states[0].chain.sessions)
    && forall i :: 0 <= i < |actions| ==> Enabled(j, states[i], actions[i]) && states[i + 1] == Next(j, states[i], actions[i])
  }

  // ---- What every run keeps ------------------------------------------------

  /** Chunks in the ring or past it. */
  function Enqueued(s: State): nat {
    s.submitted + if s.p.AfterEnqueue? then 1 else 0
  }

  /** The ring holds chunks `n - queued .. n`, each in its own slot. */
  ghost predicate RingHolds(j: Job, r: Ring, n: nat)
    requires JobOk(j)
  {
    && |r.slots| == j.depth && r.queued <= j.depth && r.queued <= n <= Count(j)
    && r.head == (n - r.queued) % j.depth && r.tail == n % j.depth
    && forall i: nat :: n - r.queued <= i < n ==> HoldsChunk(j, r, i)
  }

  ghost predicate HoldsChunk(j: Job, r: Ring, i: nat)
    requires JobOk(j) && |r.slots| == j.depth
  {
    i < Count(j) && r.slots[i % j.depth] == SlotAt(j, i)
  }

  ghost predicate ProducerHolds(j: Job, s: State)
    requires JobOk(j) && |s.ring.slots| == j.depth
  {
    var room := s.submitted < Count(j) && s.submitted < s.completed + j.window;
    match s.p
    case AtWindow | WindowAsleep | WindowRetry => s.submitted < Count(j)
    case WindowEmit(go) => s.submitted < Count(j) && (go ==> room)
    case AtAcquire | SlotAsleep => room
    case Filling(k) => room && k == s.ring.tail < j.depth && s.ring.queued < j.depth
    case AtEnqueue(k) =>
      room && k == s.ring.tail < j.depth && s.ring.queued < j.depth && s.ring.slots[k] == SlotAt(j, s.submitted)
    case AfterEnqueue(k) => room && k < j.depth && s.ring.slots[k] == SlotAt(j, s.submitted)
    case Ending(ok) => ok ==> s.submitted == Count(j)
    case JoiningSender(ok) => if ok then s.submitted == Count(j) && s.ring.producerDone else s.ring.stop
    case AtFinal | FinalAsleep => AllSent(j, s)
    case FinalEmit(d) => AllSent(j, s) && (d ==> s.done)
    case FinalCheck(d) => AllSent(j, s) && (d ==> s.done)
    case JoiningReader(ok) => ok ==> AllSent(j, s) && s.done && (s.readerFailed || s.reported == Count(j))
    case Returned(ok) => ok ==> AllSent(j, s) && s.r.ReaderExited? && !s.readerFailed && s.reported == Count(j)
  }

  predicate AllSent(j: Job, s: State)
    requires JobOk(j)
  {
    s.submitted == Count(j) && s.s.SenderExited? && !s.ring.stop
  }

  predicate Cancelled(p: Producer) {
    (p.JoiningSender? || p.JoiningReader? || p.Returned?) && !p.ok
  }

  ghost predicate IsSent(j: Job, sent: seq<Work>)
    requires JobOk(j)
  {
    |sent| <= Count(j) && forall i: nat :: i < |sent| ==> sent[i] == WorkAt(j, i)
  }

  ghost predicate AllGood(j: Job, accepted: seq<Message>)
    requires JobOk(j)
  {
    |accepted| <= Count(j) && forall i: nat :: i < |accepted| ==> Good(j, i, accepted[i])
  }

  ghost predicate AllReported(j: Job, reports: seq<nat>, n: nat) {
    |reports| == n && forall k: nat :: k < n ==> reports[k] == ReportOf(j, k + 1)
  }

  ghost predicate CursorHolds(j: Job, s: State)
    requires JobOk(j)
  {
    && s.pos == Pos(j, s.submitted) && s.nextHash == Prefix(j.prompt[..s.pos]) && s.requestId == j.firstId + s.submitted
    && Enqueued(s) <= Count(j) && Enqueued(s) <= s.completed + j.window
    && s.reported <= s.completed && AllReported(j, s.reports, s.reported)
  }

  ghost predicate SenderHolds(j: Job, s: State)
    requires JobOk(j) && RingHolds(j, s.ring, Enqueued(s))
  {
    && (s.s.Sending? ==> s.s.slot == s.ring.head && s.ring.queued > 0)
    && (s.s.Sent? ==> s.ring.queued > 0)
    && (s.s.SenderExited? ==> s.ring.stop || (s.ring.queued == 0 && s.ring.producerDone))
    && |s.pushed| == Enqueued(s) - s.ring.queued + (if s.s == Sent(true) then 1 else 0)
    && IsSent(j, s.pushed)
    && (s.ring.failed ==> s.ring.stop) && (s.ring.stop ==> s.ring.failed || Cancelled(s.p))
    && (s.ring.producerDone && !s.ring.stop ==> s.submitted == Count(j) && !s.p.AfterEnqueue?)
  }

  ghost predicate ReaderHolds(j: Job, s: State)
    requires JobOk(j)
  {
    && AllGood(j, s.accepted) && s.completed <= |s.accepted|
    && match s.r
       case AtRead(i) => i == |s.accepted| == s.completed < Count(j) && !s.done && !s.readerFailed
       case Signal(k, last) =>
         k == |s.accepted| == s.completed + 1 && last == (k == Count(j)) && !s.done && !s.readerFailed
       case Failing(i) => i == |s.accepted| == s.completed && !s.done && s.readerFailed
       case LastSignal => s.completed == |s.accepted| == Count(j) && s.done && !s.readerFailed
       case ReaderExited => s.completed == |s.accepted| && s.done && (s.readerFailed || s.completed == Count(j))
  }

  ghost predicate Inv(j: Job, s: State) {
    && JobOk(j)
    && RingHolds(j, s.ring, Enqueued(s)) && ProducerHolds(j, s) && CursorHolds(j, s) && SenderHolds(j, s) && ReaderHolds(j, s)
    && WorkerChain.Shaped(j.chain, s.chain)
  }

  // ---- The ring ------------------------------------------------------------

  lemma RingFilled(j: Job, r: Ring, n: nat, x: Slot)
    requires JobOk(j) && RingHolds(j, r, n) && r.queued < j.depth
    ensures RingHolds(j, Fill(r, r.tail, x), n)
  {
    var t := Fill(r, r.tail, x);
    forall i: nat | n - r.queued <= i < n ensures HoldsChunk(j, t, i) {
      assert HoldsChunk(j, r, i);
      ModDistinct(i, n, j.depth);
    }
  }

  lemma RingEnqueued(j: Job, r: Ring, n: nat)
    requires JobOk(j) && RingHolds(j, r, n) && r.queued < j.depth
    requires n < Count(j) && r.slots[r.tail] == SlotAt(j, n)
    ensures RingHolds(j, Enqueue(r), n + 1)
  {
    ModAdd(n, 1, j.depth);
    forall i: nat | n - r.queued <= i < n + 1 ensures HoldsChunk(j, Enqueue(r), i) {
      if i < n { assert HoldsChunk(j, r, i); }
    }
  }

  lemma RingReleased(j: Job, r: Ring, n: nat)
    requires JobOk(j) && RingHolds(j, r, n) && r.queued > 0
    ensures RingHolds(j, Release(r), n)
  {
    ModAdd(n - r.queued, 1, j.depth);
    forall i: nat | n - (r.queued - 1) <= i < n ensures HoldsChunk(j, Release(r), i) {
      assert HoldsChunk(j, r, i);
    }
  }

  /** The flags do not matter to what the ring holds. */
  lemma RingStopped(j: Job, r: Ring, t: Ring, n: nat)
    requires JobOk(j) && RingHolds(j, r, n)
    requires t == r.(producerDone := t.producerDone, stop := t.stop, failed := t.failed)
    ensures RingHolds(j, t, n)
  {
    forall i: nat | n - r.queued <= i < n ensures HoldsChunk(j, t, i) {
      assert HoldsChunk(j, r, i);
    }
  }

  /** The slot the sender reads holds the oldest queued chunk, and is not the producer's. */
  lemma RingHead(j: Job, r: Ring, n: nat)
    requires JobOk(j) && RingHolds(j, r, n) && r.queued > 0
    ensures r.head < j.depth && n - r.queued < Count(j) && r.slots[r.head] == SlotAt(j, n - r.queued)
    ensures r.queued < j.depth ==> r.head != r.tail
  {
    assert HoldsChunk(j, r, n - r.queued);
    if r.queued < j.depth { ModDistinct(n - r.queued, n, j.depth); }
  }

  lemma InvInBounds(j: Job, s: State)
    requires Inv(j, s)
    ensures InBounds(j, s)
  {
    if s.ring.queued > 0 { RingHead(j, s.ring, Enqueued(s)); }
    Chunks(j, 0);
  }

  // ---- Every step keeps the invariant --------------------------------------

  lemma FillKeepsInv(j: Job, s: State, ok: bool)
    requires Inv(j, s) && InBounds(j, s) && s.p.Filling?
    ensures Inv(j, FillNext(j, s, ok))
  {
    hide Prefix;
    var t := FillNext(j, s, ok);
    Chunks(j, s.submitted);
    Chunks(j, 0);
    if ok {
      RingFilled(j, s.ring, Enqueued(s), t.ring.slots[s.p.slot]);
      assert t.ring.slots[t.ring.tail] == SlotAt(j, s.submitted);
    }
  }

  lemma EnqueueKeepsInv(j: Job, s: State, ok: bool)
    requires Inv(j, s) && InBounds(j, s) && s.p.AtEnqueue?
    ensures Inv(j, ProducerNext(j, s, ok))
  {
    hide Prefix;
    if MayEnqueue(s.ring) { RingEnqueued(j, s.ring, s.submitted); }
  }

  lemma ReportsExtend(j: Job, s: State)
    requires s.reported <= s.completed && AllReported(j, s.reports, s.reported)
    ensures Emit(j, s).reported == s.completed && AllReported(j, Emit(j, s).reports, s.completed)
  {
    ReportsAt(j, s.reported, s.completed);
  }

  lemma AdvanceKeepsInv(j: Job, s: State, ok: bool)
    requires Inv(j, s) && InBounds(j, s) && s.p.AfterEnqueue?
    ensures Inv(j, ProducerNext(j, s, ok))
  {
    hide Prefix;
    Chunks(j, s.submitted);
    Chunks(j, s.submitted + 1);
    ReportsExtend(j, s);
    var t := ProducerNext(j, s, ok);
    assert t.submitted == s.submitted + 1 == Enqueued(t) == Enqueued(s);
  }

  lemma EmitKeepsInv(j: Job, s: State, ok: bool)
    requires Inv(j, s) && InBounds(j, s) && (s.p.WindowRetry? || s.p.WindowEmit? || s.p.FinalEmit?)
    ensures Inv(j, ProducerNext(j, s, ok))
  {
    ReportsExtend(j, s);
    var t := ProducerNext(j, s, ok);
    assert Enqueued(t) == Enqueued(s) && t.ring == s.ring;
  }

  lemma EndKeepsInv(j: Job, s: State, ok: bool)
    requires Inv(j, s) && InBounds(j, s) && (s.p.Ending? || s.p.JoiningSender? || s.p.JoiningReader?) && ProducerReady(s)
    ensures Inv(j, ProducerNext(j, s, ok))
  {
    hide Prefix;
    var t := ProducerNext(j, s, ok);
    assert Enqueued(t) == Enqueued(s);
    RingStopped(j, s.ring, t.ring, Enqueued(s));
  }

  /** A step that only moves the producer on. */
  lemma MoveOnKeepsInv(j: Job, s: State, q: Producer)
    requires Inv(j, s) && ProducerHolds(j, s.(p := q)) && s.p.AfterEnqueue? == q.AfterEnqueue?
    requires Cancelled(s.p) ==> Cancelled(q)
    ensures Inv(j, s.(p := q))
  {
    assert Enqueued(s.(p := q)) == Enqueued(s);
  }

  lemma WindowKeepsInv(j: Job, s: State, ok: bool)
    requires Inv(j, s) && InBounds(j, s) && s.p.AtWindow?
    ensures Inv(j, ProducerNext(j, s, ok))
  {
    hide Prefix;
    MoveOnKeepsInv(j, s, ProducerNext(j, s, ok).p);
  }

  lemma AcquireKeepsInv(j: Job, s: State, ok: bool)
    requires Inv(j, s) && InBounds(j, s) && s.p.AtAcquire?
    ensures Inv(j, ProducerNext(j, s, ok))
  {
    hide Prefix;
    MoveOnKeepsInv(j, s, ProducerNext(j, s, ok).p);
  }

  lemma FinalKeepsInv(j: Job, s: State, ok: bool)
    requires Inv(j, s) && InBounds(j, s) && s.p.AtFinal?
    ensures Inv(j, ProducerNext(j, s, ok))
  {
    MoveOnKeepsInv(j, s, ProducerNext(j, s, ok).p);
  }

  lemma CheckKeepsInv(j: Job, s: State, ok: bool)
    requires Inv(j, s) && InBounds(j, s) && s.p.FinalCheck?
    ensures Inv(j, ProducerNext(j, s, ok))
  {
    MoveOnKeepsInv(j, s, ProducerNext(j, s, ok).p);
  }

  lemma ProduceKeepsInv(j: Job, s: State, ok: bool)
    requires Inv(j, s) && InBounds(j, s) && ProducerReady(s)
    ensures Inv(j, ProducerNext(j, s, ok))
  {
    hide Prefix;
    match s.p {
      case Filling(_) => FillKeepsInv(j, s, ok);
      case AtEnqueue(_) => EnqueueKeepsInv(j, s, ok);
      case AfterEnqueue(_) => AdvanceKeepsInv(j, s, ok);
      case WindowRetry | WindowEmit(_) | FinalEmit(_) => EmitKeepsInv(j, s, ok);
      case AtWindow => WindowKeepsInv(j, s, ok);
      case AtAcquire => AcquireKeepsInv(j, s, ok);
      case AtFinal => FinalKeepsInv(j, s, ok);
      case FinalCheck(_) => CheckKeepsInv(j, s, ok);
      case _ => EndKeepsInv(j, s, ok);
    }
  }

  /** A step that only moves the sender on, and what it has written. */
  lemma SenderMoveKeepsInv(j: Job, s: State, x: SenderThread, pushed: seq<Work>, chain: WorkerChain.Chain)
    requires Inv(j, s) && WorkerChain.Shaped(j.chain, chain) && !s.s.SenderExited?
    requires SenderHolds(j, s.(s := x, pushed := pushed, chain := chain))
    ensures Inv(j, s.(s := x, pushed := pushed, chain := chain))
  {
    var t := s.(s := x, pushed := pushed, chain := chain);
    assert Enqueued(t) == Enqueued(s) && t.ring == s.ring;
    assert ProducerHolds(j, t) && CursorHolds(j, t) && ReaderHolds(j, t);
  }

  lemma TakeKeepsInv(j: Job, s: State, ok: bool)
    requires Inv(j, s) && InBounds(j, s) && s.s.AtTake?
    ensures Inv(j, SenderNext(j, s, ok))
  {
    hide Prefix;
    SenderMoveKeepsInv(j, s, SenderNext(j, s, ok).s, s.pushed, s.chain);
  }

  /** The frame being written is that of the oldest queued chunk. */
  lemma WrittenChunk(j: Job, s: State)
    requires Inv(j, s) && s.s.Sending?
    ensures s.s.slot < |s.ring.slots| && |s.pushed| < Count(j)
    ensures WorkOf(j, s.ring.slots[s.s.slot]) == WorkAt(j, |s.pushed|)
  {
    RingHead(j, s.ring, Enqueued(s));
  }

  lemma WriteKeepsInv(j: Job, s: State, ok: bool)
    requires Inv(j, s) && InBounds(j, s) && s.s.Sending?
    ensures Inv(j, SenderNext(j, s, ok))
  {
    hide Span, Good, ReportOf, WorkAt;
    var t := SenderNext(j, s, ok);
    WrittenChunk(j, s);
    SenderMoveKeepsInv(j, s, t.s, t.pushed, t.chain);
  }

  lemma SentKeepsInv(j: Job, s: State, ok: bool)
    requires Inv(j, s) && InBounds(j, s) && s.s == Sent(true)
    ensures Inv(j, SenderNext(j, s, ok))
  {
    assert Enqueued(SenderNext(j, s, ok)) == Enqueued(s);
    RingReleased(j, s.ring, Enqueued(s));
  }

  lemma UnsentKeepsInv(j: Job, s: State, ok: bool)
    requires Inv(j, s) && InBounds(j, s) && s.s == Sent(false)
    ensures Inv(j, SenderNext(j, s, ok))
  {
    var t := SenderNext(j, s, ok);
    assert Enqueued(t) == Enqueued(s);
    RingStopped(j, s.ring, t.ring, Enqueued(s));
  }

  lemma SendKeepsInv(j: Job, s: State, ok: bool)
    requires Inv(j, s) && InBounds(j, s) && SenderReady(s)
    ensures Inv(j, SenderNext(j, s, ok))
  {
    match s.s {
      case AtTake => TakeKeepsInv(j, s, ok);
      case Sending(_) => WriteKeepsInv(j, s, ok);
      case Sent(good) => if good { SentKeepsInv(j, s, ok); } else { UnsentKeepsInv(j, s, ok); }
    }
  }

  lemma TakenKeepsInv(j: Job, s: State, ok: bool)
    requires Inv(j, s) && InBounds(j, s) && ReaderReady(j, s, ok) && s.r.AtRead?
    ensures Inv(j, ReaderNext(j, s, ok))
  {
    hide Prefix, HoldsChunk;
    var t := ReaderNext(j, s, ok);
    assert Enqueued(t) == Enqueued(s) && t.ring == s.ring;
    assert ReaderHolds(j, t);
  }

  lemma SignalKeepsInv(j: Job, s: State, ok: bool)
    requires Inv(j, s) && InBounds(j, s) && ReaderReady(j, s, ok) && !s.r.AtRead?
    ensures Inv(j, ReaderNext(j, s, ok))
  {
    hide Prefix;
    var t := ReaderNext(j, s, ok);
    assert Enqueued(t) == Enqueued(s) && t.ring == s.ring;
    assert ReaderHolds(j, t);
  }

  lemma ReadKeepsInv(j: Job, s: State, ok: bool)
    requires Inv(j, s) && InBounds(j, s) && ReaderReady(j, s, ok)
    ensures Inv(j, ReaderNext(j, s, ok))
  {
    if s.r.AtRead? { TakenKeepsInv(j, s, ok); } else { SignalKeepsInv(j, s, ok); }
  }

  lemma ChainOnlyKeepsInv(j: Job, s: State, ch: WorkerChain.Chain)
    requires Inv(j, s) && WorkerChain.Shaped(j.chain, ch)
    ensures Inv(j, s.(chain := ch))
  {
    assert Enqueued(s.(chain := ch)) == Enqueued(s);
  }

  lemma WakeKeepsInv(j: Job, s: State, a: Action)
    requires Inv(j, s) && Enabled(j, s, a) && (a.WakeProducer? || a.WakeSender?)
    ensures Inv(j, Next(j, s, a))
  {
    hide Prefix;
    var t := Next(j, s, a);
    if a.WakeProducer? {
      MoveOnKeepsInv(j, s, t.p);
    } else {
      assert Enqueued(t) == Enqueued(s) && t.ring == s.ring;
    }
  }

  lemma NextKeepsInv(j: Job, s: State, a: Action)
    requires Inv(j, s) && Enabled(j, s, a)
    ensures Inv(j, Next(j, s, a))
  {
    match a {
      case Produce(ok) => ProduceKeepsInv(j, s, ok);
      case SendNext(ok) => SendKeepsInv(j, s, ok);
      case ReadNext(ok) => ReadKeepsInv(j, s, ok);
      case Hop(h, o) => ChainOnlyKeepsInv(j, s, WorkerChain.RunHop(j.chain, s.chain, h, o));
      case Relay(h) => ChainOnlyKeepsInv(j, s, WorkerChain.Relay(j.chain, s.chain, h));
      case Break(ch) => ChainOnlyKeepsInv(j, s, ch);
      case _ => WakeKeepsInv(j, s, a);
    }
  }

  lemma InitialInv(j: Job, sessions: seq<Session>)
    requires JobOk(j) && |sessions| == j.chain.hops
    ensures Inv(j, Initial(j, sessions))
  {
    Chunks(j, 0);
  }

  lemma {:induction false} RunInv(j: Job, states: seq<State>, actions: seq<Action>, i: nat)
    requires IsRun(j, states, actions) && i < |states|
    ensures Inv(j, states[i])
  {
    if i == 0 {
      InitialInv(j, states[0].chain.sessions);
    } else {
      RunInv(j, states, actions, i - 1);
      NextKeepsInv(j, states[i - 1], actions[i - 1]);
    }
  }

  // ---- Safety of every run -------------------------------------------------

  lemma {:induction false} PosIncreases(j: Job, a: nat, b: nat)
    requires JobOk(j) && a < b <= Count(j)
    ensures Pos(j, a) < Pos(j, b)
    decreases b
  {
    Chunks(j, b - 1);
    if a < b - 1 { PosIncreases(j, a, b - 1); }
  }

  predicate Increasing(r: seq<nat>) {
    forall a, b :: 0 <= a < b < |r| ==> r[a] < r[b]
  }

  /** Chunk `i` as it went out: its id, its place, its tokens and both hashes. */
  predicate Carries(j: Job, i: nat, w: Work)
    requires JobOk(j) && i < Count(j)
  {
    && w.id == j.firstId + i && w.pos0 == Pos(j, i) < Pos(j, i + 1) && w.tokens == j.prompt[Pos(j, i)..Pos(j, i + 1)]
    && w.prefix == Prefix(j.prompt[..Pos(j, i)]) && w.result == Prefix(j.prompt[..Pos(j, i + 1)])
    && (w.reset <==> j.reset && i == 0)
  }

  /** Result `m` is for chunk `i`, and names the prompt up to that chunk's end. */
  predicate Names(j: Job, i: nat, m: Message)
    requires JobOk(j)
  {
    m.ResultMsg? && m.ok && m.id == j.firstId + i && m.hash == Prefix(j.prompt[..Pos(j, i + 1)])
  }

  lemma WorkCarries(j: Job, i: nat)
    requires JobOk(j) && i < Count(j)
    ensures Carries(j, i, WorkAt(j, i))
  {
    Chunks(j, i);
  }

  lemma ReportsIncrease(j: Job, reports: seq<nat>, n: nat)
    requires JobOk(j) && AllReported(j, reports, n) && n <= Count(j)
    ensures Increasing(reports) && forall r :: r in reports ==> j.start < r <= j.start + j.n
  {
    forall a, b | 0 <= a < b < n ensures reports[a] < reports[b] {
      assert reports[a] == ReportOf(j, a + 1) == Pos(j, a + 1);
      assert reports[b] == ReportOf(j, b + 1) == Pos(j, b + 1);
      PosIncreases(j, a + 1, b + 1);
    }
    forall a: nat | a < n ensures j.start < reports[a] <= j.start + j.n {
      assert reports[a] == ReportOf(j, a + 1) == Pos(j, a + 1);
      PosIncreases(j, 0, a + 1);
      Chunks(j, 0);
    }
  }

  /** The flow window holds; the chunks written went out in order under contiguous ids; the results
      accepted name the prompt up to their chunk's end; progress strictly increases; and the
      producer and the sender do not hold the same slot. */
  ghost predicate Safe(j: Job, s: State)
    requires JobOk(j)
  {
    && s.submitted <= s.completed + j.window
    && |s.pushed| <= Count(j) && (forall k: nat :: k < |s.pushed| ==> Carries(j, k, s.pushed[k]))
    && |s.accepted| <= Count(j) && (forall k: nat :: k < |s.accepted| ==> Names(j, k, s.accepted[k]))
    && Increasing(s.reports) && (forall r :: r in s.reports ==> j.start < r <= j.start + j.n)
    && Shaped(s.ring) && |s.ring.slots| == j.depth
    && ((s.p.Filling? || s.p.AtEnqueue?) && s.s.Sending? ==> s.p.slot != s.s.slot)
  }

  /** Main result for all runs, faults included: every state is safe. */
  lemma EveryRunSafe(j: Job, states: seq<State>, actions: seq<Action>, i: nat)
    requires IsRun(j, states, actions) && i < |states|
    ensures Safe(j, states[i])
  {
    var s := states[i];
    RunInv(j, states, actions, i);
    InvWrites(j, s);
    ReportsIncrease(j, s.reports, s.reported);
    if s.ring.queued > 0 { RingHead(j, s.ring, Enqueued(s)); }
    RingShape(j, s.ring, Enqueued(s));
  }

  lemma InvWrites(j: Job, s: State)
    requires Inv(j, s)
    ensures forall k: nat :: k < |s.pushed| ==> k < Count(j) && Carries(j, k, s.pushed[k])
    ensures forall k: nat :: k < |s.accepted| ==> k < Count(j) && Names(j, k, s.accepted[k])
  {
    forall k: nat | k < |s.pushed| ensures k < Count(j) && Carries(j, k, s.pushed[k]) {
      WorkCarries(j, k);
    }
    forall k: nat | k < |s.accepted| ensures k < Count(j) && Names(j, k, s.accepted[k]) {
      assert Good(j, k, s.accepted[k]);
    }
  }

  lemma RingShape(j: Job, r: Ring, n: nat)
    requires JobOk(j) && RingHolds(j, r, n)
    ensures Shaped(r)
  {
    Wraps(n - r.queued, r.queued, j.depth);
  }

  lemma Wraps(first: nat, queued: nat, depth: nat)
    requires depth > 0
    ensures (first % depth + queued) % depth == (first + queued) % depth && first % depth < depth
  {
    ModAdd(first, queued, depth);
  }

  /** Every index and count the threads use is in range, in every run. */
  lemma EveryRunInBounds(j: Job, states: seq<State>, actions: seq<Action>, i: nat)
    requires IsRun(j, states, actions) && i < |states|
    ensures InBounds(j, states[i])
  {
    RunInv(j, states, actions, i);
    InvInBounds(j, states[i]);
  }

  function Begin(j: Job): WorkerChain.Start
    requires j.start <= |j.prompt|
  {
    WorkerChain.Start(j.prompt[..j.start], j.reset)
  }

  lemma SentTokens(j: Job, sent: seq<Work>, i: nat)
    requires JobOk(j) && IsSent(j, sent) && i < |sent|
    ensures j.prompt[..Pos(j, i)] + sent[i].tokens == j.prompt[..Pos(j, i + 1)]
  {
    WorkCarries(j, i);
  }

  lemma {:induction false} SentBefore(j: Job, sent: seq<Work>, n: nat)
    requires JobOk(j) && IsSent(j, sent) && n <= |sent|
    ensures WorkerChain.Before(Begin(j), sent, n) == j.prompt[..Pos(j, n)]
    decreases n
  {
    hide Prefix;
    if n > 0 {
      var k: nat := n - 1;
      SentBefore(j, sent, k);
      SentTokens(j, sent, k);
      assert Pos(j, k + 1) == Pos(j, n);
    }
  }

  /** Main result for runs that report success: the whole span was sent, every chunk's result
      was accepted once, and the last progress report is the end of the span. */
  lemma SuccessIsComplete(j: Job, states: seq<State>, actions: seq<Action>, i: nat)
    requires IsRun(j, states, actions) && i < |states| && states[i].p == Returned(true)
    ensures |states[i].pushed| == |states[i].accepted| == |states[i].reports| == Count(j) > 0
    ensures WorkerChain.Before(Begin(j), states[i].pushed, Count(j)) == j.prompt[..j.start + j.n]
    ensures forall k :: 0 <= k < Count(j) ==> Names(j, k, states[i].accepted[k])
    ensures Pos(j, Count(j)) == states[i].reports[Count(j) - 1] == j.start + j.n
  {
    RunInv(j, states, actions, i);
    var s := states[i];
    Chunks(j, 0);
    AllAnswered(j, s);
    SentBefore(j, s.pushed, Count(j));
    EveryRunSafe(j, states, actions, i);
    assert s.reports[Count(j) - 1] == ReportOf(j, Count(j)) == Pos(j, Count(j));
  }

  lemma AllAnswered(j: Job, s: State)
    requires Inv(j, s) && s.p == Returned(true)
    ensures |s.pushed| == |s.accepted| == |s.reports| == Count(j) && IsSent(j, s.pushed)
  {
  }

  // ---- Fault-free runs -----------------------------------------------------

  predicate FaultFree(a: Action) {
    match a
    case Produce(ok) => ok
    case SendNext(ok) => ok
    case ReadNext(ok) => ok
    case Hop(_, o) => o == SMOOTH
    case Break(_) => false
    case _ => true
  }

  /** The workers can take this job, and their sessions stand where it starts. */
  ghost predicate Ready(j: Job, sessions: seq<Session>) {
    && JobOk(j) && |sessions| == j.chain.hops && (j.reset ==> j.start == 0)
    && j.start + j.n <= j.chain.limits.ctx && (forall t :: t in j.prompt ==> t < j.chain.limits.vocab)
    && forall s :: s in sessions ==> WorkerChain.SessionAt(Begin(j), s, [], 0)
  }

  predicate NoFault(s: State) {
    && !s.ring.stop && !s.ring.failed && !s.readerFailed && !s.r.Failing? && s.s != Sent(false)
    && (s.p.WindowEmit? ==> s.p.go)
    && (s.p.Ending? || s.p.JoiningSender? || s.p.JoiningReader? || s.p.Returned? ==> s.p.ok)
  }

  /** A thread that sleeps has something to wait for: no wakeup was lost. */
  predicate Waits(j: Job, s: State) {
    && (s.p.WindowAsleep? ==> !s.done && s.completed + j.window <= s.submitted)
    && (s.p.SlotAsleep? ==> s.ring.queued == |s.ring.slots| && !s.ring.stop)
    && (s.p.FinalAsleep? ==> !s.done && s.completed <= s.reported)
    && (s.s.TakeAsleep? ==> s.ring.queued == 0 && !s.ring.producerDone && !s.ring.stop)
  }

  ghost predicate SmoothInv(j: Job, s: State) {
    && Inv(j, s) && NoFault(s) && Waits(j, s)
    && WorkerChain.ChainInv(j.chain, Begin(j), s.chain, s.pushed, |s.accepted|)
  }

  lemma WorkAdmissible(j: Job, sessions: seq<Session>, w: Work, i: nat)
    requires Ready(j, sessions) && i < Count(j) && Carries(j, i, w)
    ensures Admissible(j.chain.limits, w)
  {
    forall t | t in w.tokens ensures t < j.chain.limits.vocab {
      assert t in j.prompt;
    }
    PrefixGrows(j.prompt, Pos(j, i), Pos(j, i + 1));
  }

  lemma SentCoherent(j: Job, sessions: seq<Session>, sent: seq<Work>)
    requires Ready(j, sessions) && IsSent(j, sent)
    ensures WorkerChain.Coherent(j.chain, Begin(j), sent)
  {
    forall i: nat | i < |sent| ensures WorkerChain.CoherentAt(j.chain, Begin(j), sent, i) {
      WorkCarries(j, i);
      SentBefore(j, sent, i);
      WorkAdmissible(j, sessions, sent[i], i);
    }
  }

  /** What the chain answers for chunk `i` is what the reader accepts. */
  lemma AnswerGood(j: Job, i: nat)
    requires JobOk(j) && i < Count(j)
    ensures Good(j, i, WorkerChain.MessageAt(j.chain, WorkAt(j, i), 0))
  {
    WorkCarries(j, i);
    Chunks(j, i);
    Chunks(j, i + 1);
  }

  lemma AcceptedBehindPushed(j: Job, s: State)
    requires SmoothInv(j, s)
    ensures |s.accepted| <= |s.pushed| <= Enqueued(s)
    ensures s.submitted < Count(j) && !s.p.AfterEnqueue? ==> !s.done
  {
  }

  lemma TakenKeepsSmooth(j: Job, s: State)
    requires SmoothInv(j, s) && InBounds(j, s) && ReaderReady(j, s, true) && s.r.AtRead?
    ensures SmoothInv(j, ReaderNext(j, s, true))
  {
    TakenKeepsInv(j, s, true);
    WorkerChain.PopKeepsInv(j.chain, Begin(j), s.chain, s.pushed, |s.accepted|);
    assert IsSent(j, s.pushed);
    AnswerGood(j, |s.accepted|);
  }

  lemma SignalKeepsSmooth(j: Job, s: State)
    requires SmoothInv(j, s) && InBounds(j, s) && ReaderReady(j, s, true) && !s.r.AtRead?
    ensures SmoothInv(j, ReaderNext(j, s, true))
  {
    hide Prefix;
    SignalKeepsInv(j, s, true);
  }

  lemma SendKeepsSmooth(j: Job, sessions: seq<Session>, s: State)
    requires Ready(j, sessions) && SmoothInv(j, s) && InBounds(j, s) && SenderReady(s)
    ensures SmoothInv(j, SenderNext(j, s, true))
  {
    hide Prefix;
    SendKeepsInv(j, s, true);
    if s.s.Sending? {
      var t := SenderNext(j, s, true);
      SentCoherent(j, sessions, t.pushed);
      WorkerChain.PushKeepsInv(j.chain, Begin(j), s.chain, s.pushed, |s.accepted|, t.pushed[|s.pushed|]);
    }
  }

  /** With every result accepted and none an acknowledgement, the prefill succeeds. */
  lemma LastStepSucceeds(j: Job, s: State)
    requires SmoothInv(j, s) && InBounds(j, s) && s.p.JoiningReader? && ProducerReady(s)
    ensures ProducerNext(j, s, true) == s.(p := Returned(true))
  {
    Chunks(j, 0);
    assert Good(j, Count(j) - 1, s.accepted[Count(j) - 1]);
  }

  lemma ProduceKeepsSmooth(j: Job, s: State)
    requires SmoothInv(j, s) && InBounds(j, s) && ProducerReady(s)
    ensures SmoothInv(j, ProducerNext(j, s, true))
  {
    var t := ProducerNext(j, s, true);
    ProduceKeepsInv(j, s, true);
    if s.p.JoiningReader? {
      LastStepSucceeds(j, s);
    } else {
      AcceptedBehindPushed(j, s);
      ProduceQuiet(j, s);
    }
  }

  lemma ProduceQuiet(j: Job, s: State)
    requires JobOk(j) && NoFault(s) && Waits(j, s) && InBounds(j, s) && ProducerHolds(j, s) && ProducerReady(s) && !s.p.JoiningReader?
    requires s.submitted < Count(j) && !s.p.AfterEnqueue? ==> !s.done
    ensures var t := ProducerNext(j, s, true);
            && NoFault(t) && Waits(j, t)
            && t.chain == s.chain && t.pushed == s.pushed && t.accepted == s.accepted
  {
    match s.p {
      case Filling(_) =>
      case AtEnqueue(_) =>
      case AfterEnqueue(_) =>
      case WindowEmit(_) =>
      case JoiningSender(_) =>
      case FinalEmit(_) =>
      case FinalCheck(_) =>
      case _ =>
    }
  }

  /** The workers' steps leave the coordinator's threads as they are. */
  lemma ChainKeepsSmooth(j: Job, s: State, ch: WorkerChain.Chain)
    requires SmoothInv(j, s) && WorkerChain.ChainInv(j.chain, Begin(j), ch, s.pushed, |s.accepted|) && WorkerChain.Shaped(j.chain, ch)
    ensures SmoothInv(j, s.(chain := ch))
  {
    hide Prefix, WorkerChain.ChainInv;
    ChainOnlyKeepsInv(j, s, ch);
  }

  lemma WakeKeepsSmooth(j: Job, s: State, a: Action)
    requires SmoothInv(j, s) && Enabled(j, s, a) && (a.WakeProducer? || a.WakeSender?)
    ensures SmoothInv(j, Next(j, s, a))
  {
    hide Prefix, WorkerChain.ChainInv;
    WakeKeepsInv(j, s, a);
  }

  lemma ChainHolds(j: Job, s: State)
    requires SmoothInv(j, s)
    ensures JobOk(j) && WorkerChain.ChainInv(j.chain, Begin(j), s.chain, s.pushed, |s.accepted|)
  {
  }

  lemma NextKeepsSmooth(j: Job, sessions: seq<Session>, s: State, a: Action)
    requires Ready(j, sessions) && SmoothInv(j, s) && Enabled(j, s, a) && FaultFree(a)
    ensures SmoothInv(j, Next(j, s, a))
  {
    hide SmoothInv, ProducerNext, SenderNext, ReaderNext, WorkerChain.RunHop, WorkerChain.Relay, WorkerChain.ChainInv;
    ChainHolds(j, s);
    match a {
      case Produce(_) => ProduceKeepsSmooth(j, s);
      case SendNext(_) => SendKeepsSmooth(j, sessions, s);
      case ReadNext(_) => if s.r.AtRead? { TakenKeepsSmooth(j, s); } else { SignalKeepsSmooth(j, s); }
      case Hop(h, o) =>
        WorkerChain.RunKeepsInv(j.chain, Begin(j), s.chain, s.pushed, |s.accepted|, h);
        ChainKeepsSmooth(j, s, WorkerChain.RunHop(j.chain, s.chain, h, SMOOTH));
      case Relay(h) =>
        WorkerChain.RelayKeepsInv(j.chain, Begin(j), s.chain, s.pushed, |s.accepted|, h);
        ChainKeepsSmooth(j, s, WorkerChain.Relay(j.chain, s.chain, h));
      case _ => WakeKeepsSmooth(j, s, a);
    }
  }

  lemma {:induction false} SmoothRunInv(j: Job, states: seq<State>, actions: seq<Action>, i: nat)
    requires IsRun(j, states, actions) && i < |states| && Ready(j, states[0].chain.sessions)
    requires forall a :: a in actions ==> FaultFree(a)
    ensures SmoothInv(j, states[i])
  {
    hide SmoothInv, Next, Enabled, FaultFree;
    if i == 0 {
      StartSmooth(j, states[0].chain.sessions);
    } else {
      SmoothRunInv(j, states, actions, i - 1);
      assert actions[i - 1] in actions;
      NextKeepsSmooth(j, states[0].chain.sessions, states[i - 1], actions[i - 1]);
    }
  }

  lemma StartSmooth(j: Job, sessions: seq<Session>)
    requires Ready(j, sessions)
    ensures SmoothInv(j, Initial(j, sessions))
  {
    hide Prefix;
    InitialInv(j, sessions);
    WorkerChain.IdleInv(j.chain, Begin(j), sessions);
  }

  /** Main result for fault-free runs: an unfinished one can always go on, by a step that is
      neither a fault nor a spurious wakeup, and one that finishes has succeeded. */
  lemma FaultFreeNeverStuck(j: Job, states: seq<State>, actions: seq<Action>, i: nat) returns (a: Action)
    requires IsRun(j, states, actions) && i < |states| && Ready(j, states[0].chain.sessions)
    requires forall a :: a in actions ==> FaultFree(a)
    ensures states[i].p.Returned? ==> states[i].p.ok
    ensures !states[i].p.Returned? ==> Enabled(j, states[i], a) && FaultFree(a) && !a.WakeProducer? && !a.WakeSender?
  {
    SmoothRunInv(j, states, actions, i);
    a := GenuineStep(j, states[i]);
  }

  lemma GenuineStep(j: Job, s: State) returns (a: Action)
    requires SmoothInv(j, s)
    ensures !s.p.Returned? ==> Enabled(j, s, a) && FaultFree(a) && !a.WakeProducer? && !a.WakeSender?
  {
    InvInBounds(j, s);
    if ProducerReady(s) {
      a := Produce(true);
    } else if SenderReady(s) {
      a := SendNext(true);
    } else if ReaderReady(j, s, true) {
      a := ReadNext(true);
    } else if !s.p.Returned? {
      // Everyone waits for the workers, which have a chunk to answer.
      assert !s.r.ReaderExited? && s.r.AtRead?;
      assert |s.accepted| < |s.pushed|;
      a := ChainStep(j, s);
    } else {
      a := WakeSender;
    }
  }

  lemma ChainStep(j: Job, s: State) returns (a: Action)
    requires SmoothInv(j, s) && InBounds(j, s) && |s.accepted| < |s.pushed| && !WorkerChain.CanPop(j.chain, s.chain)
    ensures Enabled(j, s, a) && FaultFree(a) && !a.WakeProducer? && !a.WakeSender?
  {
    WorkerChain.ChainMoves(j.chain, Begin(j), s.chain, s.pushed, |s.accepted|);
    if h: nat :| WorkerChain.CanRun(j.chain, s.chain, h) {
      a := Hop(h, SMOOTH);
    } else {
      var h: nat :| WorkerChain.CanRelay(j.chain, s.chain, h);
      a := Relay(h);
    }
  }

  // ---- Termination ---------------------------------------------------------

  /** `n` times `w`. */
  function Owed(w: nat, n: nat): nat {
    if n == 0 then 0 else w + Owed(w, n - 1)
  }

  function ProducerRank(p: Producer): nat {
    match p
    case WindowRetry => 15
    case AtWindow => 14
    case WindowAsleep => 13
    case WindowEmit(_) => 12
    case AtAcquire => 11
    case SlotAsleep => 10
    case Filling(_) => 9
    case AtEnqueue(_) => 8
    case AfterEnqueue(_) => 7
    case Ending(_) => 6
    case JoiningSender(_) => 5
    case AtFinal => 4
    case FinalAsleep => 3
    case FinalEmit(_) => 3
    case FinalCheck(sawDone) => if sawDone then 2 else 5
    case JoiningReader(_) => 1
    case Returned(_) => 0
  }

  function SenderRank(t: SenderThread): nat {
    match t
    case AtTake => 5
    case TakeAsleep => 4
    case Sending(_) => 4
    case Sent(good) => if good then 8 else 3
    case SenderExited => 0
  }

  function ReaderRank(j: Job, r: ReaderThread): int
    requires JobOk(j)
  {
    match r
    case AtRead(i) => 2 * (Count(j) - i) + 2
    case Signal(k, _) => 2 * (Count(j) - k) + 3
    case Failing(_) => 1
    case LastSignal => 2
    case ReaderExited => 0
  }

  /** A bound on the steps a fault-free run still takes. */
  function Rank(j: Job, s: State): int
    requires JobOk(j)
  {
    5 * ReaderRank(j, s.r) + LocalRank(Count(j), s)
    + Owed(2 * j.chain.hops + 5, if |s.pushed| <= Count(j) then Count(j) - |s.pushed| else 0)
    + WorkerChain.ChainRank(s.chain)
  }

  /** The coordinator's own threads, for `count` chunks. */
  function LocalRank(count: nat, s: State): int {
    2 * (10 * (count - s.submitted) + 4 * (count - s.reported) + ProducerRank(s.p)) + SenderRank(s.s)
  }

  /** The last wait makes headway each time round. */
  predicate Closing(s: State) {
    && (s.p == FinalEmit(false) ==> s.reported < s.completed)
    && (s.p == FinalCheck(true) ==> s.done && s.completed <= s.reported)
  }

  predicate Genuine(a: Action) {
    FaultFree(a) && !a.WakeProducer? && !a.WakeSender?
  }

  lemma RankNonNegative(j: Job, s: State)
    requires SmoothInv(j, s)
    ensures Rank(j, s) >= 0
  {
    WorkerChain.MovesNonNegative(s.chain.links, |s.chain.links|);
  }

  /** The frame of a producer step. */
  lemma ProduceFrame(j: Job, s: State)
    requires JobOk(j) && InBounds(j, s) && ProducerReady(s)
    ensures var t := ProducerNext(j, s, true); t.chain == s.chain && t.pushed == s.pushed && t.r == s.r
  {
  }

  lemma LoopRank(j: Job, s: State)
    requires JobOk(j) && InBounds(j, s) && ProducerReady(s) && s.p != FinalEmit(false)
    requires NoFault(s) && (s.p.AfterEnqueue? ==> s.submitted < Count(j))
    requires s.p.AtWindow? ==> !s.done
    requires s.p == FinalCheck(true) ==> s.reported >= s.completed
    ensures LocalRank(Count(j), ProducerNext(j, s, true)) < LocalRank(Count(j), s)
  {
  }

  lemma CloseRank(j: Job, s: State)
    requires JobOk(j) && InBounds(j, s) && s.p == FinalEmit(false) && s.reported < s.completed
    ensures LocalRank(Count(j), ProducerNext(j, s, true)) < LocalRank(Count(j), s)
  {
  }

  lemma ClosingStep(j: Job, s: State)
    requires SmoothInv(j, s) && Closing(s) && InBounds(j, s) && ProducerReady(s)
    ensures Closing(ProducerNext(j, s, true))
  {
  }

  lemma ProduceRank(j: Job, s: State)
    requires SmoothInv(j, s) && Closing(s) && InBounds(j, s) && ProducerReady(s)
    ensures Rank(j, ProducerNext(j, s, true)) < Rank(j, s) && Closing(ProducerNext(j, s, true))
  {
    AcceptedBehindPushed(j, s);
    ProduceFrame(j, s);
    ClosingStep(j, s);
    if s.p == FinalEmit(false) { CloseRank(j, s); } else { LoopRank(j, s); }
  }

  lemma PushStep(j: Job, s: State)
    requires JobOk(j) && InBounds(j, s) && s.s.Sending? && |s.pushed| < Count(j)
    ensures Rank(j, SenderNext(j, s, true)) < Rank(j, s)
  {
    var ws, left := 2 * j.chain.hops + 5, Count(j) - |s.pushed|;
    WorkerChain.MovesPut(s.chain.links, WorkerChain.WorkMsg(WorkOf(j, s.ring.slots[s.s.slot]), 0), 2 * j.chain.hops);
    assert Owed(ws, left) == ws + Owed(ws, left - 1);
  }

  lemma PushRank(j: Job, s: State)
    requires SmoothInv(j, s) && InBounds(j, s) && s.s.Sending?
    ensures Rank(j, SenderNext(j, s, true)) < Rank(j, s)
  {
    WrittenChunk(j, s);
    PushStep(j, s);
  }

  lemma SendRank(j: Job, s: State)
    requires SmoothInv(j, s) && Closing(s) && InBounds(j, s) && SenderReady(s)
    ensures Rank(j, SenderNext(j, s, true)) < Rank(j, s) && Closing(SenderNext(j, s, true))
  {
    hide Prefix, Good;
    if s.s.Sending? { PushRank(j, s); }
  }

  lemma TakenRank(j: Job, s: State)
    requires JobOk(j) && InBounds(j, s) && ReaderReady(j, s, true) && s.r.AtRead? && Good(j, s.r.i, s.chain.links[0][0])
    ensures Rank(j, ReaderNext(j, s, true)) < Rank(j, s)
  {
    WorkerChain.MovesDrop(s.chain.links, 2 * j.chain.hops);
  }

  lemma SignalRank(j: Job, s: State)
    requires JobOk(j) && InBounds(j, s) && ReaderReady(j, s, true) && !s.r.AtRead?
    requires s.r.Signal? ==> s.r.last == (s.r.finished == Count(j))
    ensures Rank(j, ReaderNext(j, s, true)) < Rank(j, s)
  {
  }

  lemma ReadRank(j: Job, s: State)
    requires SmoothInv(j, s) && Closing(s) && InBounds(j, s) && ReaderReady(j, s, true)
    ensures Rank(j, ReaderNext(j, s, true)) < Rank(j, s) && Closing(ReaderNext(j, s, true))
  {
    if s.r.AtRead? {
      WorkerChain.PopKeepsInv(j.chain, Begin(j), s.chain, s.pushed, |s.accepted|);
      assert IsSent(j, s.pushed);
      AnswerGood(j, |s.accepted|);
      TakenRank(j, s);
    } else {
      SignalRank(j, s);
    }
  }

  /** Every step that is neither a fault nor a spurious wakeup brings the end closer. */
  lemma RankDecreases(j: Job, s: State, a: Action)
    requires SmoothInv(j, s) && Closing(s) && Enabled(j, s, a) && Genuine(a)
    ensures Rank(j, Next(j, s, a)) < Rank(j, s) && Closing(Next(j, s, a))
  {
    hide SmoothInv, Rank, ProducerNext, SenderNext, ReaderNext, WorkerChain.RunHop, WorkerChain.Relay;
    ChainHolds(j, s);
    match a {
      case Produce(_) => ProduceRank(j, s);
      case SendNext(_) => SendRank(j, s);
      case ReadNext(_) => ReadRank(j, s);
      case Hop(h, _) =>
        WorkerChain.HopRank(j.chain, Begin(j), s.chain, s.pushed, |s.accepted|, h);
        ChainOnlyRank(j, s, WorkerChain.RunHop(j.chain, s.chain, h, SMOOTH));
      case Relay(h) =>
        WorkerChain.RelayRank(j.chain, Begin(j), s.chain, s.pushed, |s.accepted|, h);
        ChainOnlyRank(j, s, WorkerChain.Relay(j.chain, s.chain, h));
    }
  }

  lemma ChainOnlyRank(j: Job, s: State, ch: WorkerChain.Chain)
    requires JobOk(j)
    ensures Rank(j, s.(chain := ch)) == Rank(j, s) - WorkerChain.ChainRank(s.chain) + WorkerChain.ChainRank(ch)
  {
  }

  ghost predicate AllGenuine(actions: seq<Action>) {
    forall a :: a in actions ==> Genuine(a)
  }

  lemma GenuineRunInv(j: Job, states: seq<State>, actions: seq<Action>, i: nat)
    requires IsRun(j, states, actions) && i < |states| && Ready(j, states[0].chain.sessions) && AllGenuine(actions)
    ensures SmoothInv(j, states[i])
  {
    assert forall a :: a in actions ==> FaultFree(a);
    SmoothRunInv(j, states, actions, i);
  }

  lemma {:induction false} RankBounds(j: Job, states: seq<State>, actions: seq<Action>, i: nat)
    requires IsRun(j, states, actions) && i < |states| && Ready(j, states[0].chain.sessions) && AllGenuine(actions)
    ensures Rank(j, states[i]) + i <= Rank(j, states[0]) && Closing(states[i])
  {
    if i > 0 {
      var k: nat := i - 1;
      RankBounds(j, states, actions, k);
      GenuineRunInv(j, states, actions, k);
      assert actions[k] in actions;
      RankDecreases(j, states[k], actions[k]);
    }
  }

  /** Main result on termination. A fault-free run without spurious wakeups takes at most so many
      steps; as it can always go on until it has returned, it returns, and with success. */
  lemma FaultFreeTerminates(j: Job, states: seq<State>, actions: seq<Action>)
    requires IsRun(j, states, actions) && Ready(j, states[0].chain.sessions) && AllGenuine(actions)
    ensures |actions| <= Rank(j, states[0])
    ensures (forall a :: Genuine(a) ==> !Enabled(j, states[|actions|], a)) ==> states[|actions|].p == Returned(true)
  {
    var n := |actions|;
    assert forall a :: a in actions ==> FaultFree(a);
    RankBounds(j, states, actions, n);
    GenuineRunInv(j, states, actions, n);
    RankNonNegative(j, states[n]);
    var a := FaultFreeNeverStuck(j, states, actions, n);
    assert !states[n].p.Returned? ==> Genuine(a) && Enabled(j, states[n], a);
  }
}
