/** The chain of workers with the step that forwards a frame taken apart: a hop evaluates its
    frame, waits for room and queues the pending entry, and only then sends, while the relay goes
    on. Without faults this is the chain of `WorkerChain`, in which the three are one step. */
module ForwardSteps {
  import opened WorkerSession
  import opened WorkerChain

  /** Where a hop stands with the frame it took; `before` is the session it evaluated it on. */
  datatype Stage = Ready | Evaluated(frame: Message, before: Session) | Queued(work: Work)

  datatype Fine = Fine(chain: Chain, stages: seq<Stage>)

  datatype FineStep =
    | Evaluate(hop: nat, outcome: Outcome)
    | Enqueue(hop: nat)
    | Send(hop: nat, ok: bool)
    | RelayResult(hop: nat)
    | Write(work: Work)
    | Read

  predicate StagesShaped(c: Config, f: Fine) {
    && Shaped(c, f.chain) && |f.stages| == c.hops
    && forall h :: 0 <= h < c.hops ==> StageShaped(c, f.stages[h], h)
  }

  predicate StageShaped(c: Config, s: Stage, h: nat) {
    !s.Ready? ==> h + 1 < c.hops && (s.Evaluated? ==> s.frame.WorkMsg?)
  }

  predicate FineEnabled(c: Config, f: Fine, a: FineStep) {
    && StagesShaped(c, f) && ValidConfig(c)
    && match a
       case Evaluate(h, _) => h < c.hops && f.stages[h].Ready? && f.chain.links[DownLink(c, h)] != [] && f.chain.links[DownLink(c, h)][0].WorkMsg?
       case Enqueue(h) => h < c.hops && f.stages[h].Evaluated? && |f.chain.pending[h]| < c.depth
       case Send(h, _) => h < c.hops && f.stages[h].Queued?
       case RelayResult(h) => CanRelay(c, f.chain, h)
       case Write(_) => true
       case Read => CanPop(c, f.chain)
  }

  /** The pending list without its first entry for `id`. */
  function Unqueued(p: seq<Pending>, id: nat): (r: seq<Pending>)
    ensures |r| <= |p|
  {
    if p == [] then [] else if p[0].id == id then p[1..] else [p[0]] + Unqueued(p[1..], id)
  }

  function EvaluateNext(c: Config, f: Fine, h: nat, o: Outcome): Fine
    requires FineEnabled(c, f, Evaluate(h, o))
  {
    var ch := f.chain;
    var m := ch.links[DownLink(c, h)][0];
    var rest := Drop(ch.links, DownLink(c, h));
    var v := Process(c.limits, ch.sessions[h], m.work, o);
    var sessions := ch.sessions[h := v.after];
    if !v.ok then Fine(Chain(Put(rest, h, ErrorMsg(m.work.id)), ch.pending, sessions), f.stages)
    else if h + 1 == c.hops then
      var w := m.work;
      var result := ResultMsg(w.id, w.result, true, KindOf(c, w), BytesOf(c, w), [TelemetryOf(w, h)]);
      Fine(Chain(Put(rest, h, result), ch.pending, sessions), f.stages)
    else Fine(Chain(rest, ch.pending, sessions), f.stages[h := Evaluated(m, ch.sessions[h])])
  }

  /** A send that fails takes its entry out of the list again and answers with an error. */
  function SendNext(c: Config, f: Fine, h: nat, ok: bool): Fine
    requires FineEnabled(c, f, Send(h, ok))
  {
    var ch, w := f.chain, f.stages[h].work;
    assert StageShaped(c, f.stages[h], h);
    if ok then Fine(ch.(links := Put(ch.links, DownLink(c, h + 1), WorkMsg(w, h + 1))), f.stages[h := Ready])
    else Fine(Chain(Put(ch.links, h, ErrorMsg(w.id)), ch.pending[h := Unqueued(ch.pending[h], w.id)], ch.sessions), f.stages[h := Ready])
  }

  function FineNext(c: Config, f: Fine, a: FineStep): Fine
    requires FineEnabled(c, f, a)
  {
    match a
    case Evaluate(h, o) => EvaluateNext(c, f, h, o)
    case Enqueue(h) =>
      var w := f.stages[h].frame.work;
      Fine(f.chain.(pending := f.chain.pending[h := f.chain.pending[h] + [Pending(w.id, TelemetryOf(w, h))]]), f.stages[h := Queued(w)])
    case Send(h, ok) => SendNext(c, f, h, ok)
    case RelayResult(h) => f.(chain := Relay(c, f.chain, h))
    case Write(w) => f.(chain := Push(c, f.chain, w))
    case Read => f.(chain := Pop(c, f.chain))
  }

  // ---- The chain it stands for ---------------------------------------------

  /** A frame evaluated but not queued is still to be taken; one queued but not sent is on its way. */
  function WholeLink(c: Config, f: Fine, k: nat): seq<Message>
    requires StagesShaped(c, f) && k < 2 * c.hops
  {
    if k < c.hops then f.chain.links[k]
    else
      var h := 2 * c.hops - 1 - k;
      (if f.stages[h].Evaluated? then [f.stages[h].frame] else []) + f.chain.links[k]
      + if h > 0 && f.stages[h - 1].Queued? then [WorkMsg(f.stages[h - 1].work, h)] else []
  }

  function WholeSession(c: Config, f: Fine, h: nat): Session
    requires StagesShaped(c, f) && h < c.hops
  {
    if f.stages[h].Evaluated? then f.stages[h].before else f.chain.sessions[h]
  }

  function Whole(c: Config, f: Fine): (r: Chain)
    requires StagesShaped(c, f)
    ensures Shaped(c, r)
  {
    Chain(seq(2 * c.hops, k requires 0 <= k < 2 * c.hops => WholeLink(c, f, k)), f.chain.pending,
          seq(c.hops, h requires 0 <= h < c.hops => WholeSession(c, f, h)))
  }

  /** What an evaluated frame did to the session is what the whole step will do to it. */
  predicate StageHolds(c: Config, f: Fine, h: nat)
    requires StagesShaped(c, f) && h < c.hops
  {
    f.stages[h].Evaluated? ==>
      Process(c.limits, f.stages[h].before, f.stages[h].frame.work, SMOOTH) == Verdict(f.chain.sessions[h], true)
  }

  predicate StagesHold(c: Config, f: Fine)
    requires StagesShaped(c, f)
  {
    forall h: nat :: h < c.hops ==> StageHolds(c, f, h)
  }

  ghost predicate FineInv(c: Config, st: Start, f: Fine, sent: seq<Work>, received: nat) {
    && StagesShaped(c, f) && StagesHold(c, f)
    && ChainInv(c, st, Whole(c, f), sent, received)
  }

  /** Chains with the same links, lists and sessions are the same. */
  lemma SameChain(c: Config, a: Chain, b: Chain)
    requires Shaped(c, a) && Shaped(c, b) && a.pending == b.pending
    requires forall k: nat :: k < 2 * c.hops ==> a.links[k] == b.links[k]
    requires forall h: nat :: h < c.hops ==> a.sessions[h] == b.sessions[h]
    ensures a == b
  {
    assert a.links == b.links && a.sessions == b.sessions;
  }

  /** The evaluation of the next consecutive frame succeeds. */
  lemma EvaluationSucceeds(c: Config, st: Start, f: Fine, sent: seq<Work>, received: nat, h: nat)
    requires FineInv(c, st, f, sent, received) && FineEnabled(c, f, Evaluate(h, SMOOTH))
    ensures Process(c.limits, f.chain.sessions[h], f.chain.links[DownLink(c, h)][0].work, SMOOTH).ok
  {
    hide Process, Telemetries;
    var w, k := Whole(c, f), DownLink(c, h);
    assert LinkAt(c, w.links, sent, received, k) && HopHolds(c, st, w, sent, received, h);
    assert w.links[k][0] == f.chain.links[k][0];
    SmoothProcess(c, st, w.sessions[h], sent, received + Below(w.links, k));
  }

  /** Evaluating a frame to be forwarded is not yet a step of the chain. */
  lemma EvaluateStutters(c: Config, f: Fine, h: nat)
    requires FineEnabled(c, f, Evaluate(h, SMOOTH)) && h + 1 < c.hops
    requires Process(c.limits, f.chain.sessions[h], f.chain.links[DownLink(c, h)][0].work, SMOOTH).ok
    ensures StagesShaped(c, EvaluateNext(c, f, h, SMOOTH)) && Whole(c, EvaluateNext(c, f, h, SMOOTH)) == Whole(c, f)
  {
    hide Process;
    var r, k := EvaluateNext(c, f, h, SMOOTH), DownLink(c, h);
    assert f.chain.links[k] == [f.chain.links[k][0]] + f.chain.links[k][1..];
    assert WholeLink(c, r, k) == WholeLink(c, f, k);
    SameChain(c, Whole(c, r), Whole(c, f));
  }

  /** The last hop takes its frame off its link and puts the answer on the first result link. */
  lemma AnswerLink(c: Config, f: Fine, h: nat, i: nat)
    requires FineEnabled(c, f, Evaluate(h, SMOOTH)) && h + 1 == c.hops && i < 2 * c.hops
    ensures StagesShaped(c, EvaluateNext(c, f, h, SMOOTH))
    ensures var r, k := EvaluateNext(c, f, h, SMOOTH), DownLink(c, h);
            && WholeLink(c, f, k) != [] && WholeLink(c, f, k)[0] == f.chain.links[k][0]
            && WholeLink(c, r, i) == (if i == k then WholeLink(c, f, k)[1..] else if i == h then r.chain.links[h] else WholeLink(c, f, i))
  {
    hide Process;
    assert StageShaped(c, f.stages[h], h);
  }

  /** The last hop's evaluation and answer are the chain's step. */
  lemma AnswerRefines(c: Config, f: Fine, h: nat)
    requires FineEnabled(c, f, Evaluate(h, SMOOTH)) && h + 1 == c.hops
    ensures var r := EvaluateNext(c, f, h, SMOOTH);
            StagesShaped(c, r) && CanRun(c, Whole(c, f), h) && Whole(c, r) == RunHop(c, Whole(c, f), h, SMOOTH)
  {
    var r, w := EvaluateNext(c, f, h, SMOOTH), Whole(c, f);
    AnswerLink(c, f, h, DownLink(c, h));
    assert w.links[h] == f.chain.links[h];
    hide Process, WholeLink;
    forall i: nat | i < 2 * c.hops ensures Whole(c, r).links[i] == RunHop(c, w, h, SMOOTH).links[i] {
      AnswerLink(c, f, h, i);
    }
    SameChain(c, Whole(c, r), RunHop(c, w, h, SMOOTH));
  }

  /** Queueing moves the frame over to the next hop's link. */
  lemma EnqueueLink(c: Config, f: Fine, h: nat, i: nat)
    requires FineEnabled(c, f, Enqueue(h)) && i < 2 * c.hops
    ensures StagesShaped(c, FineNext(c, f, Enqueue(h))) && h + 1 < c.hops
    ensures var k := DownLink(c, h);
            && WholeLink(c, f, k) != [] && WholeLink(c, f, k)[0] == f.stages[h].frame
            && WholeLink(c, FineNext(c, f, Enqueue(h)), i)
               == (if i == k then WholeLink(c, f, k)[1..]
                   else if i == k - 1 then WholeLink(c, f, i) + [WorkMsg(f.stages[h].frame.work, h + 1)]
                   else WholeLink(c, f, i))
  {
    assert StageShaped(c, f.stages[h], h);
  }

  /** Queueing the entry is the chain's whole step: the frame then counts as sent. */
  lemma EnqueueRefines(c: Config, f: Fine, h: nat)
    requires FineEnabled(c, f, Enqueue(h)) && StageHolds(c, f, h)
    ensures var r := FineNext(c, f, Enqueue(h));
            && StagesShaped(c, r) && CanRun(c, Whole(c, f), h) && Whole(c, r) == RunHop(c, Whole(c, f), h, SMOOTH)
  {
    hide Process, WholeLink;
    var r, w := FineNext(c, f, Enqueue(h)), Whole(c, f);
    EnqueueLink(c, f, h, DownLink(c, h));
    forall i: nat | i < 2 * c.hops ensures Whole(c, r).links[i] == RunHop(c, w, h, SMOOTH).links[i] {
      EnqueueLink(c, f, h, i);
    }
    SameChain(c, Whole(c, r), RunHop(c, w, h, SMOOTH));
  }

  lemma SendRefines(c: Config, f: Fine, h: nat)
    requires FineEnabled(c, f, Send(h, true))
    ensures StagesShaped(c, SendNext(c, f, h, true)) && Whole(c, SendNext(c, f, h, true)) == Whole(c, f)
  {
    assert StageShaped(c, f.stages[h], h);
    SameChain(c, Whole(c, SendNext(c, f, h, true)), Whole(c, f));
  }

  lemma RelayRefines(c: Config, f: Fine, h: nat)
    requires FineEnabled(c, f, RelayResult(h))
    ensures var r := FineNext(c, f, RelayResult(h));
            StagesShaped(c, r) && CanRelay(c, Whole(c, f), h) && Whole(c, r) == Relay(c, Whole(c, f), h)
  {
    SameChain(c, Whole(c, FineNext(c, f, RelayResult(h))), Relay(c, Whole(c, f), h));
  }

  lemma WriteRefines(c: Config, f: Fine, w: Work)
    requires FineEnabled(c, f, Write(w))
    ensures var r := FineNext(c, f, Write(w)); StagesShaped(c, r) && Whole(c, r) == Push(c, Whole(c, f), w)
  {
    SameChain(c, Whole(c, FineNext(c, f, Write(w))), Push(c, Whole(c, f), w));
  }

  lemma ReadRefines(c: Config, f: Fine)
    requires FineEnabled(c, f, Read)
    ensures var r := FineNext(c, f, Read); StagesShaped(c, r) && CanPop(c, Whole(c, f)) && Whole(c, r) == Pop(c, Whole(c, f))
  {
    SameChain(c, Whole(c, FineNext(c, f, Read)), Pop(c, Whole(c, f)));
  }

  // ---- Fault-free runs -----------------------------------------------------

  lemma EvaluateKeepsInv(c: Config, st: Start, f: Fine, sent: seq<Work>, received: nat, h: nat)
    requires FineInv(c, st, f, sent, received) && FineEnabled(c, f, Evaluate(h, SMOOTH))
    ensures FineInv(c, st, EvaluateNext(c, f, h, SMOOTH), sent, received)
  {
    hide ChainInv;
    var r := EvaluateNext(c, f, h, SMOOTH);
    EvaluationSucceeds(c, st, f, sent, received, h);
    if h + 1 < c.hops {
      EvaluateStutters(c, f, h);
    } else {
      AnswerRefines(c, f, h);
      RunKeepsInv(c, st, Whole(c, f), sent, received, h);
    }
    forall g: nat | g < c.hops ensures StageHolds(c, r, g) {
      assert StageHolds(c, f, g) && StageShaped(c, f.stages[g], g);
    }
  }

  lemma ForwardKeepsInv(c: Config, st: Start, f: Fine, sent: seq<Work>, received: nat, a: FineStep)
    requires FineInv(c, st, f, sent, received) && FineEnabled(c, f, a) && (a.Enqueue? || (a.Send? && a.ok))
    ensures FineInv(c, st, FineNext(c, f, a), sent, received)
  {
    hide ChainInv;
    var r := FineNext(c, f, a);
    assert StageHolds(c, f, a.hop);
    if a.Enqueue? {
      EnqueueRefines(c, f, a.hop);
      RunKeepsInv(c, st, Whole(c, f), sent, received, a.hop);
    } else {
      SendRefines(c, f, a.hop);
    }
    forall g: nat | g < c.hops ensures StageHolds(c, r, g) {
      assert StageHolds(c, f, g);
    }
  }

  /** Steps of the relay and the coordinator leave the stages alone. */
  lemma SameStages(c: Config, f: Fine, r: Fine)
    requires StagesShaped(c, f) && StagesShaped(c, r) && r.stages == f.stages && r.chain.sessions == f.chain.sessions
    requires StagesHold(c, f)
    ensures StagesHold(c, r)
  {
    forall h: nat | h < c.hops ensures StageHolds(c, r, h) {
      assert StageHolds(c, f, h);
    }
  }

  datatype FineWorld = FineWorld(fine: Fine, sent: seq<Work>, read: seq<Message>, pairs: seq<Pair>)

  function WorldNext(c: Config, x: FineWorld, a: FineStep): FineWorld
    requires FineEnabled(c, x.fine, a)
  {
    FineWorld(FineNext(c, x.fine, a),
              x.sent + (if a.Write? then [a.work] else []),
              x.read + (if a.Read? then [x.fine.chain.links[0][0]] else []),
              x.pairs + if a.RelayResult? then [Pair(a.hop, x.fine.chain.pending[a.hop][0].id, x.fine.chain.links[a.hop + 1][0].id)] else [])
  }

  predicate FaultFreeStep(a: FineStep) {
    (a.Evaluate? ==> a.outcome == SMOOTH) && (a.Send? ==> a.ok)
  }

  function Begin(c: Config, sessions: seq<Session>): Fine {
    Fine(Idle(c, sessions), seq(c.hops, _ => Ready))
  }

  ghost predicate IsFineRun(c: Config, worlds: seq<FineWorld>, steps: seq<FineStep>) {
    && ValidConfig(c) && |worlds| == |steps| + 1 && |worlds[0].fine.chain.sessions| == c.hops
    && worlds[0] == FineWorld(Begin(c, worlds[0].fine.chain.sessions), [], [], [])
    && forall i :: 0 <= i < |steps| ==> FineEnabled(c, worlds[i].fine, steps[i]) && worlds[i + 1] == WorldNext(c, worlds[i], steps[i])
  }

  /** Sessions start where the first request does, the first `n` steps bring no failure, and the
      coordinator's requests are consecutive. */
  ghost predicate FineFaultFree(c: Config, st: Start, worlds: seq<FineWorld>, steps: seq<FineStep>, n: nat) {
    && |worlds| == |steps| + 1 && n <= |steps| && (st.reset ==> st.base == [])
    && (forall s :: s in worlds[0].fine.chain.sessions ==> SessionAt(st, s, [], 0))
    && (forall i :: 0 <= i < n ==> FaultFreeStep(steps[i]))
    && (forall i :: 0 <= i < n ==> steps[i].Write? ==> Coherent(c, st, worlds[i].sent + [steps[i].work]))
  }

  ghost predicate FineOk(c: Config, st: Start, x: FineWorld) {
    && FineInv(c, st, x.fine, x.sent, |x.read|) && |x.read| <= |x.sent|
    && (forall j: nat :: j < |x.read| ==> x.read[j] == MessageAt(c, x.sent[j], 0))
    && (forall p :: p in x.pairs ==> p.pendingId == p.resultId)
  }

  lemma BeginOk(c: Config, st: Start, sessions: seq<Session>)
    requires ValidConfig(c) && |sessions| == c.hops && (st.reset ==> st.base == [])
    requires forall s :: s in sessions ==> SessionAt(st, s, [], 0)
    ensures FineInv(c, st, Begin(c, sessions), [], 0)
  {
    var f := Begin(c, sessions);
    SameChain(c, Whole(c, f), Idle(c, sessions));
    IdleInv(c, st, sessions);
  }

  lemma StepOk(c: Config, st: Start, x: FineWorld, a: FineStep)
    requires FineOk(c, st, x) && FineEnabled(c, x.fine, a) && FaultFreeStep(a)
    requires a.Write? ==> Coherent(c, st, x.sent + [a.work])
    ensures FineOk(c, st, WorldNext(c, x, a))
  {
    hide ChainInv;
    var f, r := x.fine, FineNext(c, x.fine, a);
    assert x.sent + [] == x.sent && x.read + [] == x.read && x.pairs + [] == x.pairs;
    match a {
      case Evaluate(h, o) =>
        assert o == SMOOTH && r == EvaluateNext(c, f, h, SMOOTH);
        EvaluateKeepsInv(c, st, f, x.sent, |x.read|, h);
      case RelayResult(h) =>
        RelayRefines(c, f, h);
        RelayKeepsInv(c, st, Whole(c, f), x.sent, |x.read|, h);
        SameStages(c, f, r);
      case Write(w) =>
        WriteRefines(c, f, w);
        PushKeepsInv(c, st, Whole(c, f), x.sent, |x.read|, w);
        SameStages(c, f, r);
      case Read =>
        ReadRefines(c, f);
        PopKeepsInv(c, st, Whole(c, f), x.sent, |x.read|);
        SameStages(c, f, r);
      case _ => ForwardKeepsInv(c, st, f, x.sent, |x.read|, a);
    }
  }

  lemma {:induction false} FineRunOk(c: Config, st: Start, worlds: seq<FineWorld>, steps: seq<FineStep>, i: nat)
    requires IsFineRun(c, worlds, steps) && FineFaultFree(c, st, worlds, steps, i)
    ensures FineOk(c, st, worlds[i])
  {
    if i == 0 {
      BeginOk(c, st, worlds[0].fine.chain.sessions);
    } else {
      FineRunOk(c, st, worlds, steps, i - 1);
      StepOk(c, st, worlds[i - 1], steps[i - 1]);
    }
  }

  /** Main result. With evaluating, queueing and sending apart, and relays running in between, it
      still holds in every fault-free run that relays pair results with their own requests and
      results come back in work order, each with one record per hop. */
  lemma FineResultsInWorkOrder(c: Config, st: Start, worlds: seq<FineWorld>, steps: seq<FineStep>, i: nat)
    requires IsFineRun(c, worlds, steps) && FineFaultFree(c, st, worlds, steps, i)
    ensures |worlds[i].read| <= |worlds[i].sent|
    ensures forall j :: 0 <= j < |worlds[i].read| ==> Answers(c, worlds[i].sent[j], worlds[i].read[j])
    ensures forall p :: p in worlds[i].pairs ==> p.pendingId == p.resultId
  {
    FineRunOk(c, st, worlds, steps, i);
    var x := worlds[i];
    forall j | 0 <= j < |x.read| ensures Answers(c, x.sent[j], x.read[j]) {
      assert x.read[j] == MessageAt(c, x.sent[j], 0);
      TelemetryPerHop(c, x.sent[j], 0);
    }
  }

  /** Nor can the hops block one another: a hop may wait for room after it evaluated its frame, but
      while a request is unanswered some hop, relay or the reader can move. */
  lemma FineMoves(c: Config, st: Start, worlds: seq<FineWorld>, steps: seq<FineStep>, i: nat) returns (a: FineStep)
    requires IsFineRun(c, worlds, steps) && FineFaultFree(c, st, worlds, steps, i) && |worlds[i].read| < |worlds[i].sent|
    ensures FineEnabled(c, worlds[i].fine, a) && FaultFreeStep(a) && !a.Write?
  {
    FineRunOk(c, st, worlds, steps, i);
    var f := worlds[i].fine;
    ChainMoves(c, st, Whole(c, f), worlds[i].sent, |worlds[i].read|);
    if CanPop(c, Whole(c, f)) {
      a := Read;
    } else if h: nat :| CanRun(c, Whole(c, f), h) {
      a := HopMoves(c, f, h);
    } else {
      var h: nat :| CanRelay(c, Whole(c, f), h);
      a := RelayResult(h);
    }
  }

  lemma HopMoves(c: Config, f: Fine, h: nat) returns (a: FineStep)
    requires StagesShaped(c, f) && ValidConfig(c) && CanRun(c, Whole(c, f), h)
    ensures FineEnabled(c, f, a) && FaultFreeStep(a) && (a.Evaluate? || a.Enqueue? || a.Send?)
  {
    assert StageShaped(c, f.stages[h], h);
    match f.stages[h] {
      case Evaluated(_, _) => a := Enqueue(h);
      case Queued(_) => a := Send(h, true);
      case Ready =>
        var k := DownLink(c, h);
        assert Whole(c, f).links[k] == WholeLink(c, f, k);
        a := if f.chain.links[k] != [] then Evaluate(h, SMOOTH) else Send(h - 1, true);
    }
  }

  // ---- Failures ------------------------------------------------------------

  /** In every run, whatever fails, no hop has more requests outstanding than its window. */
  lemma {:induction false} FineWindowKept(c: Config, worlds: seq<FineWorld>, steps: seq<FineStep>, i: nat, h: nat)
    requires IsFineRun(c, worlds, steps) && i < |worlds| && h < c.hops
    ensures Shaped(c, worlds[i].fine.chain) && |worlds[i].fine.chain.pending[h]| <= c.depth
  {
    if i > 0 {
      FineWindowKept(c, worlds, steps, i - 1, h);
    }
  }

  lemma {:induction false} UnqueuedLast(p: seq<Pending>, x: Pending)
    requires forall i :: 0 <= i < |p| ==> p[i].id != x.id
    ensures Unqueued(p + [x], x.id) == p
  {
    if p != [] {
      assert (p + [x])[1..] == p[1..] + [x];
      UnqueuedLast(p[1..], x);
    }
  }

  lemma QueuedOnLink(c: Config, f: Fine, h: nat)
    requires FineEnabled(c, f, Send(h, false))
    ensures h + 1 < c.hops && DownLink(c, h) - 1 >= c.hops
    ensures var q := Whole(c, f).links[DownLink(c, h) - 1]; q != [] && q[|q| - 1] == WorkMsg(f.stages[h].work, h + 1)
  {
    assert StageShaped(c, f.stages[h], h);
  }

  lemma NewestPending(c: Config, st: Start, w: Chain, sent: seq<Work>, received: nat, h: nat, work: Work)
    requires ChainInv(c, st, w, sent, received) && h + 1 < c.hops
    requires var q := w.links[DownLink(c, h) - 1]; q != [] && q[|q| - 1] == WorkMsg(work, h + 1)
    ensures var p, n := w.pending[h], received + Below(w.links, DownLink(c, h));
            0 < |p| <= n <= |sent| && work == sent[n - 1] && ListHolds(p, sent, n - |p|, n, h)
  {
    hide Process, Coherent, SessionAt;
    var k := DownLink(c, h);
    assert HopHolds(c, st, w, sent, received, h) && LinkAt(c, w.links, sent, received, k - 1);
    BelowMonotone(w.links, h + 1, k - 1);
  }

  /** The entry a hop has queued and not sent is its newest, and that of the frame it is sending. */
  lemma NewestQueued(c: Config, st: Start, f: Fine, sent: seq<Work>, received: nat, h: nat)
    requires FineInv(c, st, f, sent, received) && FineEnabled(c, f, Send(h, false))
    ensures var p, n := f.chain.pending[h], received + Below(Whole(c, f).links, DownLink(c, h));
            0 < |p| <= n <= |sent| && f.stages[h].work == sent[n - 1] && ListHolds(p, sent, n - |p|, n, h)
  {
    QueuedOnLink(c, f, h);
    hide ChainInv;
    NewestPending(c, st, Whole(c, f), sent, received, h, f.stages[h].work);
  }

  predicate DistinctIds(sent: seq<Work>) {
    forall i, j :: 0 <= i < j < |sent| ==> sent[i].id != sent[j].id
  }

  /** The first send to fail takes back exactly the entry it had queued, whatever the relay took from
      the list in between. */
  lemma FailedSendTakesBack(c: Config, st: Start, worlds: seq<FineWorld>, steps: seq<FineStep>, i: nat, h: nat)
    requires IsFineRun(c, worlds, steps) && i < |steps| && FineFaultFree(c, st, worlds, steps, i)
    requires steps[i] == Send(h, false) && DistinctIds(worlds[i].sent)
    ensures h < |worlds[i].fine.stages| && worlds[i].fine.stages[h].Queued?
    ensures h < |worlds[i].fine.chain.pending| && h < |worlds[i + 1].fine.chain.pending|
    ensures var p := worlds[i].fine.chain.pending[h];
            && 0 < |p| && p[|p| - 1].id == worlds[i].fine.stages[h].work.id
            && worlds[i + 1].fine.chain.pending[h] == p[..|p| - 1]
  {
    FineRunOk(c, st, worlds, steps, i);
    var x := worlds[i];
    var p := x.fine.chain.pending[h];
    NewestQueued(c, st, x.fine, x.sent, |x.read|, h);
    var last: nat := |p| - 1;
    assert p == p[..last] + [p[last]];
    UnqueuedLast(p[..last], p[last]);
  }
}
