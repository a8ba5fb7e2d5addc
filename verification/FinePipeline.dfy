/** The pipelined prefill over workers that evaluate, queue and send in separate steps: what is
    proved of it over the one-step chain holds here too. */
module FinePipeline {
  import opened PrefillPipeline
  import opened WorkerSession
  import WorkerChain
  import PrefillFailures
  import Fine = ForwardSteps

  /** The pipeline's state, with the links as they really are, and where each hop stands. */
  datatype Stepped = Stepped(s: State, stages: seq<Fine.Stage>)

  datatype StepAction =
    /** A step of the coordinator's threads, or a spurious wakeup of one. */
    | Thread(action: Action)
    | Worker(step: Fine.FineStep)
    | Fault(chain: WorkerChain.Chain, stages: seq<Fine.Stage>)

  function Workers(f: Stepped): Fine.Fine {
    Fine.Fine(f.s.chain, f.stages)
  }

  predicate StagesOk(j: Job, f: Stepped) {
    Fine.StagesShaped(j.chain, Workers(f))
  }

  /** The state of the one-step pipeline it stands for. */
  function Coarse(j: Job, f: Stepped): State
    requires StagesOk(j, f)
  {
    f.s.(chain := Fine.Whole(j.chain, Workers(f)))
  }

  predicate IsThread(a: Action) {
    !a.Hop? && !a.Relay? && !a.Break?
  }

  predicate IsWorker(a: Fine.FineStep) {
    !a.Write? && !a.Read?
  }

  predicate StepEnabled(j: Job, f: Stepped, a: StepAction)
    requires JobOk(j)
  {
    && StagesOk(j, f)
    && match a
       case Thread(t) => IsThread(t) && Enabled(j, f.s, t)
       case Worker(w) => IsWorker(w) && Fine.FineEnabled(j.chain, Workers(f), w)
       case Fault(ch, stages) => Fine.StagesShaped(j.chain, Fine.Fine(ch, stages))
  }

  function StepNext(j: Job, f: Stepped, a: StepAction): Stepped
    requires JobOk(j) && StepEnabled(j, f, a)
  {
    match a
    case Thread(t) => f.(s := Next(j, f.s, t))
    case Worker(w) =>
      var r := Fine.FineNext(j.chain, Workers(f), w);
      Stepped(f.s.(chain := r.chain), r.stages)
    case Fault(ch, stages) => Stepped(f.s.(chain := ch), stages)
  }

  function Start(j: Job, sessions: seq<Session>): Stepped
    requires JobOk(j)
  {
    Stepped(Initial(j, sessions), seq(j.chain.hops, _ => Fine.Ready))
  }

  ghost predicate IsSteppedRun(j: Job, fs: seq<Stepped>, actions: seq<StepAction>) {
    && JobOk(j) && |fs| == |actions| + 1
    && |fs[0].s.chain.sessions| == j.chain.hops && fs[0] == Start(j, fs[0].s.chain.sessions)
    && forall i :: 0 <= i < |actions| ==> StepEnabled(j, fs[i], actions[i]) && fs[i + 1] == StepNext(j, fs[i], actions[i])
  }

  // ---- Every run, faults included ------------------------------------------

  /** A worker's step keeps its frame in one piece. */
  lemma WorkerShaped(j: Job, f: Stepped, w: Fine.FineStep)
    requires JobOk(j) && StepEnabled(j, f, Worker(w))
    ensures StagesOk(j, StepNext(j, f, Worker(w)))
  {
    var c, g := j.chain, Workers(f);
    forall h | 0 <= h < c.hops ensures Fine.StageShaped(c, Fine.FineNext(c, g, w).stages[h], h) {
      assert Fine.StageShaped(c, g.stages[h], h);
    }
  }

  /** The coordinator's threads do on the real links what they do on the whole ones. */
  lemma ThreadRefines(j: Job, f: Stepped, t: Action)
    requires JobOk(j) && StepEnabled(j, f, Thread(t))
    ensures StagesOk(j, StepNext(j, f, Thread(t)))
    ensures Enabled(j, Coarse(j, f), t) && Next(j, Coarse(j, f), t) == Coarse(j, StepNext(j, f, Thread(t)))
  {
    hide FillNext, Fine.FineEnabled;
    match t {
      case ReadNext(ok) => ReadRefines(j, f, ok);
      case SendNext(ok) => SendRefines(j, f, ok);
      case Produce(ok) => ProduceRefines(j, f, ok);
      case _ =>
    }
  }

  lemma ProduceRefines(j: Job, f: Stepped, ok: bool)
    requires JobOk(j) && StepEnabled(j, f, Thread(Produce(ok)))
    ensures InBounds(j, Coarse(j, f)) && ProducerReady(Coarse(j, f))
    ensures StagesOk(j, f.(s := ProducerNext(j, f.s, ok)))
    ensures ProducerNext(j, Coarse(j, f), ok) == Coarse(j, f.(s := ProducerNext(j, f.s, ok)))
  {
    hide ProducerNext;
    ProduceCarries(j, f.s, ok, Coarse(j, f).chain);
  }

  /** The producer's step neither looks at the links nor changes them. */
  predicate LinksUnused(j: Job, s: State, ok: bool, ch: WorkerChain.Chain)
    requires JobOk(j) && InBounds(j, s) && ProducerReady(s) && WorkerChain.Shaped(j.chain, ch)
  {
    ProducerNext(j, s, ok).chain == s.chain && ProducerNext(j, s.(chain := ch), ok) == ProducerNext(j, s, ok).(chain := ch)
  }

  lemma ProduceCarries(j: Job, s: State, ok: bool, ch: WorkerChain.Chain)
    requires JobOk(j) && InBounds(j, s) && ProducerReady(s) && WorkerChain.Shaped(j.chain, ch)
    ensures LinksUnused(j, s, ok, ch)
  {
    hide ProducerNext;
    match s.p {
      case AtWindow | WindowRetry | WindowEmit(_) => WindowCarries(j, s, ok, ch);
      case AtAcquire | Filling(_) => AcquireCarries(j, s, ok, ch);
      case AtEnqueue(_) | AfterEnqueue(_) => EnqueueCarries(j, s, ok, ch);
      case _ => EndCarries(j, s, ok, ch);
    }
  }

  lemma WindowCarries(j: Job, s: State, ok: bool, ch: WorkerChain.Chain)
    requires JobOk(j) && InBounds(j, s) && WorkerChain.Shaped(j.chain, ch) && (s.p.AtWindow? || s.p.WindowRetry? || s.p.WindowEmit?)
    ensures LinksUnused(j, s, ok, ch)
  {
  }

  lemma AcquireCarries(j: Job, s: State, ok: bool, ch: WorkerChain.Chain)
    requires JobOk(j) && InBounds(j, s) && WorkerChain.Shaped(j.chain, ch) && (s.p.AtAcquire? || s.p.Filling?)
    ensures LinksUnused(j, s, ok, ch)
  {
  }

  lemma EnqueueCarries(j: Job, s: State, ok: bool, ch: WorkerChain.Chain)
    requires JobOk(j) && InBounds(j, s) && WorkerChain.Shaped(j.chain, ch) && (s.p.AtEnqueue? || s.p.AfterEnqueue?)
    ensures LinksUnused(j, s, ok, ch)
  {
  }

  lemma EndCarries(j: Job, s: State, ok: bool, ch: WorkerChain.Chain)
    requires JobOk(j) && InBounds(j, s) && ProducerReady(s) && WorkerChain.Shaped(j.chain, ch)
    requires s.p.Ending? || s.p.JoiningSender? || s.p.AtFinal? || s.p.FinalEmit? || s.p.FinalCheck? || s.p.JoiningReader?
    ensures LinksUnused(j, s, ok, ch)
  {
  }

  lemma SendRefines(j: Job, f: Stepped, ok: bool)
    requires JobOk(j) && StepEnabled(j, f, Thread(SendNext(ok)))
    ensures InBounds(j, Coarse(j, f)) && SenderReady(Coarse(j, f))
    ensures StagesOk(j, f.(s := SenderNext(j, f.s, ok)))
    ensures SenderNext(j, Coarse(j, f), ok) == Coarse(j, f.(s := SenderNext(j, f.s, ok)))
  {
    if f.s.s.Sending? && ok {
      Fine.WriteRefines(j.chain, Workers(f), WorkOf(j, f.s.ring.slots[f.s.s.slot]));
    }
  }

  lemma ReadRefines(j: Job, f: Stepped, ok: bool)
    requires JobOk(j) && StepEnabled(j, f, Thread(ReadNext(ok)))
    ensures InBounds(j, Coarse(j, f)) && ReaderReady(j, Coarse(j, f), ok)
    ensures StagesOk(j, f.(s := ReaderNext(j, f.s, ok)))
    ensures ReaderNext(j, Coarse(j, f), ok) == Coarse(j, f.(s := ReaderNext(j, f.s, ok)))
  {
    if f.s.r.AtRead? && ok {
      TakeRefines(j, f);
    } else {
      hide Fine.Whole;
      SignalCarries(j, f.s, ok, Coarse(j, f).chain);
    }
  }

  /** Only a read that succeeds takes a message off a link. */
  lemma SignalCarries(j: Job, s: State, ok: bool, ch: WorkerChain.Chain)
    requires JobOk(j) && InBounds(j, s) && ReaderReady(j, s, ok) && WorkerChain.Shaped(j.chain, ch) && !(s.r.AtRead? && ok)
    ensures InBounds(j, s.(chain := ch)) && ReaderReady(j, s.(chain := ch), ok) && ReaderNext(j, s, ok).chain == s.chain
    ensures ReaderNext(j, s.(chain := ch), ok) == ReaderNext(j, s, ok).(chain := ch)
  {
  }

  lemma TakeRefines(j: Job, f: Stepped)
    requires JobOk(j) && StepEnabled(j, f, Thread(ReadNext(true))) && f.s.r.AtRead?
    ensures InBounds(j, Coarse(j, f)) && ReaderReady(j, Coarse(j, f), true)
    ensures StagesOk(j, f.(s := ReaderNext(j, f.s, true)))
    ensures ReaderNext(j, Coarse(j, f), true) == Coarse(j, f.(s := ReaderNext(j, f.s, true)))
  {
    hide Good;
    Fine.ReadRefines(j.chain, Workers(f));
  }

  /** A worker's step or a fault may be anything at all to the one-step pipeline. */
  lemma StepRefines(j: Job, f: Stepped, a: StepAction) returns (c: Action)
    requires JobOk(j) && StepEnabled(j, f, a) && InBounds(j, f.s)
    ensures StagesOk(j, StepNext(j, f, a))
    ensures Enabled(j, Coarse(j, f), c) && Next(j, Coarse(j, f), c) == Coarse(j, StepNext(j, f, a))
    ensures a.Thread? ==> c == a.action
  {
    hide ProducerNext, SenderNext, ReaderNext, Fine.FineNext, Fine.Whole;
    match a {
      case Thread(t) =>
        ThreadRefines(j, f, t);
        c := t;
      case Worker(w) =>
        WorkerShaped(j, f, w);
        c := Break(Coarse(j, StepNext(j, f, a)).chain);
      case Fault(_, _) => c := Break(Coarse(j, StepNext(j, f, a)).chain);
    }
  }

  lemma StartRefines(j: Job, sessions: seq<Session>)
    requires JobOk(j) && |sessions| == j.chain.hops
    ensures StagesOk(j, Start(j, sessions)) && Coarse(j, Start(j, sessions)) == Initial(j, sessions)
    ensures Fine.StagesHold(j.chain, Workers(Start(j, sessions)))
  {
    Fine.SameChain(j.chain, Fine.Whole(j.chain, Workers(Start(j, sessions))), WorkerChain.Idle(j.chain, sessions));
  }

  ghost predicate IsCoarse(j: Job, fs: seq<Stepped>, states: seq<State>, n: nat) {
    |states| == n + 1 <= |fs| && forall i :: 0 <= i <= n ==> StagesOk(j, fs[i]) && states[i] == Coarse(j, fs[i])
  }

  /** Main result. Every run over the fine-grained workers, faults included, is a run of the
      one-step pipeline: what holds of all of those holds of it. */
  lemma {:induction false} RunRefines(j: Job, fs: seq<Stepped>, actions: seq<StepAction>, n: nat) returns (states: seq<State>, coarse: seq<Action>)
    requires IsSteppedRun(j, fs, actions) && n <= |actions|
    ensures |coarse| == n && IsCoarse(j, fs, states, n) && IsRun(j, states, coarse)
    ensures forall i :: 0 <= i < n && actions[i].Thread? ==> coarse[i] == actions[i].action
  {
    hide Coarse, StagesOk, Initial, Next, Enabled, StepEnabled, StepNext;
    if n == 0 {
      StartRefines(j, fs[0].s.chain.sessions);
      SameSessions(j, fs[0].s.chain.sessions);
      states, coarse := [Coarse(j, fs[0])], [];
    } else {
      states, coarse := RunRefines(j, fs, actions, n - 1);
      EveryRunInBounds(j, states, coarse, n - 1);
      BoundsMatch(j, fs[n - 1]);
      var c := StepRefines(j, fs[n - 1], actions[n - 1]);
      states, coarse := states + [Coarse(j, fs[n])], coarse + [c];
    }
  }

  lemma SameSessions(j: Job, sessions: seq<Session>)
    requires JobOk(j) && |sessions| == j.chain.hops
    ensures Initial(j, sessions).chain.sessions == sessions
  {
  }

  lemma BoundsMatch(j: Job, f: Stepped)
    requires JobOk(j) && StagesOk(j, f) && InBounds(j, Coarse(j, f))
    ensures InBounds(j, f.s)
  {
  }

  /** So every state is safe. */
  lemma EverySteppedRunSafe(j: Job, fs: seq<Stepped>, actions: seq<StepAction>, i: nat)
    requires IsSteppedRun(j, fs, actions) && i < |fs|
    ensures Safe(j, fs[i].s)
  {
    var states, coarse := RunRefines(j, fs, actions, i);
    EveryRunSafe(j, states, coarse, i);
    assert states[i] == Coarse(j, fs[i]);
  }

  /** Nor is one stuck, whatever fails: until the prefill returns one of the coordinator's threads
      can go on, or an open connection owes an answer. */
  lemma SteppedNeverStuck(j: Job, fs: seq<Stepped>, actions: seq<StepAction>, i: nat) returns (a: Action)
    requires IsSteppedRun(j, fs, actions) && i < |fs| && !fs[i].s.p.Returned?
    ensures StagesOk(j, fs[i])
    ensures (StepEnabled(j, fs[i], Thread(a)) && PrefillFailures.Unforced(j, fs[i].s, a)) || PrefillFailures.AwaitsAnswer(j, fs[i].s)
  {
    var states, coarse := RunRefines(j, fs, actions, i);
    EveryRunInBounds(j, states, coarse, i);
    BoundsMatch(j, fs[i]);
    assert states[i] == Coarse(j, fs[i]);
    a := PrefillFailures.NeverStuck(j, states, coarse, i);
    if PrefillFailures.Unforced(j, Coarse(j, fs[i]), a) {
      ThreadFound(j, fs[i], a);
    }
  }

  lemma ThreadFound(j: Job, f: Stepped, c: Action)
    requires JobOk(j) && StagesOk(j, f) && InBounds(j, f.s) && Enabled(j, Coarse(j, f), c) && IsThread(c)
    ensures StepEnabled(j, f, Thread(c))
  {
  }

  // ---- Fault-free runs -----------------------------------------------------

  /** Neither a fault nor a spurious wakeup. */
  predicate StepGenuine(a: StepAction) {
    match a
    case Thread(t) => Genuine(t)
    case Worker(w) => Fine.FaultFreeStep(w)
    case Fault(_, _) => false
  }

  ghost predicate SteppedInv(j: Job, f: Stepped) {
    && JobOk(j) && StagesOk(j, f) && Fine.StagesHold(j.chain, Workers(f))
    && SmoothInv(j, Coarse(j, f)) && Closing(Coarse(j, f))
  }

  lemma AsFine(j: Job, f: Stepped)
    requires SteppedInv(j, f)
    ensures Fine.FineInv(j.chain, Begin(j), Workers(f), f.s.pushed, |f.s.accepted|)
  {
  }

  /** The whole step a worker's step amounts to; evaluating a frame that is to be forwarded and
      sending one amount to none. */
  function Amounts(j: Job, a: StepAction): (c: seq<Action>)
    ensures |c| <= 1
  {
    match a
    case Thread(t) => [t]
    case Worker(w) =>
      (match w
       case Evaluate(h, o) => if h + 1 < j.chain.hops then [] else [Hop(h, o)]
       case Enqueue(h) => [Hop(h, SMOOTH)]
       case RelayResult(h) => [Relay(h)]
       case _ => [])
    case Fault(_, _) => []
  }

  lemma WorkerAmounts(j: Job, f: Stepped, w: Fine.FineStep)
    requires SteppedInv(j, f) && StepEnabled(j, f, Worker(w)) && Fine.FaultFreeStep(w)
    ensures var g, c := StepNext(j, f, Worker(w)), Amounts(j, Worker(w));
            && StagesOk(j, g) && Fine.StagesHold(j.chain, Workers(g))
            && (if c == [] then Coarse(j, g) == Coarse(j, f)
                else Enabled(j, Coarse(j, f), c[0]) && Genuine(c[0]) && Next(j, Coarse(j, f), c[0]) == Coarse(j, g))
  {
    hide SmoothInv, Closing, Fine.Whole, Fine.FineInv, Fine.StageHolds, Fine.EvaluateNext;
    var c, g := j.chain, Workers(f);
    AsFine(j, f);
    BoundsOfInv(j, f);
    WorkerShaped(j, f, w);
    match w {
      case Evaluate(h, o) => EvaluateAmounts(j, f, h);
      case Enqueue(h) =>
        assert Fine.StageHolds(c, g, h);
        Fine.EnqueueRefines(c, g, h);
        Fine.ForwardKeepsInv(c, Begin(j), g, f.s.pushed, |f.s.accepted|, w);
        Holding(c, Begin(j), Fine.FineNext(c, g, w), f.s.pushed, |f.s.accepted|);
      case Send(h, ok) =>
        Fine.SendRefines(c, g, h);
        Fine.ForwardKeepsInv(c, Begin(j), g, f.s.pushed, |f.s.accepted|, w);
        Holding(c, Begin(j), Fine.FineNext(c, g, w), f.s.pushed, |f.s.accepted|);
      case RelayResult(h) =>
        Fine.RelayRefines(c, g, h);
        Fine.SameStages(c, g, Fine.FineNext(c, g, w));
    }
  }

  lemma EvaluateAmounts(j: Job, f: Stepped, h: nat)
    requires SteppedInv(j, f) && StepEnabled(j, f, Worker(Fine.Evaluate(h, SMOOTH))) && InBounds(j, Coarse(j, f))
    requires StagesOk(j, StepNext(j, f, Worker(Fine.Evaluate(h, SMOOTH))))
    ensures var w := Fine.Evaluate(h, SMOOTH);
            var g, c := StepNext(j, f, Worker(w)), Amounts(j, Worker(w));
            && Fine.StagesHold(j.chain, Workers(g))
            && (if c == [] then Coarse(j, g) == Coarse(j, f)
                else Enabled(j, Coarse(j, f), c[0]) && Genuine(c[0]) && Next(j, Coarse(j, f), c[0]) == Coarse(j, g))
  {
    hide SmoothInv, Closing, Fine.Whole, Fine.FineInv, Fine.StageHolds, InBounds;
    var c, g := j.chain, Workers(f);
    AsFine(j, f);
    Fine.EvaluateKeepsInv(c, Begin(j), g, f.s.pushed, |f.s.accepted|, h);
    Holding(c, Begin(j), Fine.EvaluateNext(c, g, h, SMOOTH), f.s.pushed, |f.s.accepted|);
    if h + 1 < c.hops {
      Fine.EvaluationSucceeds(c, Begin(j), g, f.s.pushed, |f.s.accepted|, h);
      Fine.EvaluateStutters(c, g, h);
    } else {
      Fine.AnswerRefines(c, g, h);
    }
  }

  lemma Holding(c: WorkerChain.Config, st: WorkerChain.Start, g: Fine.Fine, sent: seq<Work>, received: nat)
    requires Fine.FineInv(c, st, g, sent, received)
    ensures Fine.StagesShaped(c, g) && Fine.StagesHold(c, g)
  {
  }

  lemma BoundsOfInv(j: Job, f: Stepped)
    requires SteppedInv(j, f)
    ensures InBounds(j, Coarse(j, f)) && InBounds(j, f.s)
  {
    InvInBounds(j, Coarse(j, f));
    BoundsMatch(j, f);
  }

  function StageRank(s: Fine.Stage): nat {
    match s
    case Evaluated(_, _) => 0
    case Ready => 1
    case Queued(_) => 2
  }

  function StageRanks(stages: seq<Fine.Stage>): nat {
    if stages == [] then 0 else StageRanks(stages[..|stages| - 1]) + StageRank(stages[|stages| - 1])
  }

  lemma {:induction false} StageMoves(stages: seq<Fine.Stage>, h: nat, x: Fine.Stage)
    requires h < |stages|
    ensures StageRanks(stages[h := x]) == StageRanks(stages) - StageRank(stages[h]) + StageRank(x)
  {
    var k := |stages| - 1;
    if h == k {
      assert stages[h := x][..k] == stages[..k];
    } else {
      assert stages[h := x][..k] == stages[..k][h := x];
      StageMoves(stages[..k], h, x);
    }
  }

  /** A bound on the steps a fault-free run still takes. */
  function SteppedRank(j: Job, f: Stepped): int
    requires JobOk(j) && StagesOk(j, f)
  {
    3 * Rank(j, Coarse(j, f)) + StageRanks(f.stages)
  }

  /** A whole step is worth more than the stage it moves on, and a step that is none moves one on. */
  lemma StagesAfter(j: Job, f: Stepped, a: StepAction)
    requires SteppedInv(j, f) && StepEnabled(j, f, a) && StepGenuine(a)
    ensures var g := StepNext(j, f, a);
            StageRanks(g.stages) <= StageRanks(f.stages) + if Amounts(j, a) == [] then -1 else 2
  {
    hide SmoothInv, Closing;
    if a.Worker? {
      match a.step {
        case Evaluate(h, _) =>
          AsFine(j, f);
          Fine.EvaluationSucceeds(j.chain, Begin(j), Workers(f), f.s.pushed, |f.s.accepted|, h);
          EvaluatedStage(j, f, h);
        case Enqueue(h) => StageMoves(f.stages, h, Fine.Queued(f.stages[h].frame.work));
        case Send(h, _) => StageMoves(f.stages, h, Fine.Ready);
        case RelayResult(_) =>
      }
    }
  }

  lemma EvaluatedStage(j: Job, f: Stepped, h: nat)
    requires JobOk(j) && StepEnabled(j, f, Worker(Fine.Evaluate(h, SMOOTH)))
    requires Process(j.chain.limits, f.s.chain.sessions[h], f.s.chain.links[WorkerChain.DownLink(j.chain, h)][0].work, SMOOTH).ok
    ensures var g := StepNext(j, f, Worker(Fine.Evaluate(h, SMOOTH)));
            StageRanks(g.stages) <= StageRanks(f.stages) + if h + 1 < j.chain.hops then -1 else 0
  {
    hide Process;
    var m := f.s.chain.links[WorkerChain.DownLink(j.chain, h)][0];
    StageMoves(f.stages, h, Fine.Evaluated(m, f.s.chain.sessions[h]));
  }

  lemma StepKeeps(j: Job, sessions: seq<Session>, f: Stepped, a: StepAction)
    requires Ready(j, sessions) && SteppedInv(j, f) && StepEnabled(j, f, a) && StepGenuine(a)
    ensures SteppedInv(j, StepNext(j, f, a)) && SteppedRank(j, StepNext(j, f, a)) < SteppedRank(j, f)
  {
    hide SmoothInv, Closing, Enabled, Next, Coarse, Rank, StagesOk, Ready, StepNext, StepEnabled, Genuine;
    var g, c := StepNext(j, f, a), Amounts(j, a);
    StagesAfter(j, f, a);
    match a {
      case Thread(t) => ThreadAmounts(j, f, t);
      case Worker(w) => WorkerAmounts(j, f, w);
    }
    if c != [] {
      GenuineFaultFree(c[0]);
      NextKeepsSmooth(j, sessions, Coarse(j, f), c[0]);
      RankDecreases(j, Coarse(j, f), c[0]);
    }
  }

  lemma GenuineFaultFree(c: Action)
    requires Genuine(c)
    ensures FaultFree(c)
  {
  }

  lemma ThreadAmounts(j: Job, f: Stepped, t: Action)
    requires SteppedInv(j, f) && StepEnabled(j, f, Thread(t)) && Genuine(t)
    ensures var g := StepNext(j, f, Thread(t));
            && StagesOk(j, g) && Fine.StagesHold(j.chain, Workers(g))
            && Enabled(j, Coarse(j, f), t) && Next(j, Coarse(j, f), t) == Coarse(j, g)
  {
    hide SmoothInv, Closing;
    ThreadRefines(j, f, t);
    ThreadKeepsWorkers(j, f, t);
    Fine.SameStages(j.chain, Workers(f), Workers(StepNext(j, f, Thread(t))));
  }

  lemma ThreadKeepsWorkers(j: Job, f: Stepped, t: Action)
    requires JobOk(j) && StepEnabled(j, f, Thread(t))
    ensures var g := StepNext(j, f, Thread(t)); g.stages == f.stages && g.s.chain.sessions == f.s.chain.sessions
  {
    hide Expected;
  }

  ghost predicate AllStepsGenuine(actions: seq<StepAction>) {
    forall a :: a in actions ==> StepGenuine(a)
  }

  lemma {:induction false} SteppedBounds(j: Job, fs: seq<Stepped>, actions: seq<StepAction>, i: nat)
    requires IsSteppedRun(j, fs, actions) && i < |fs| && Ready(j, fs[0].s.chain.sessions) && AllStepsGenuine(actions)
    ensures StagesOk(j, fs[0]) && SteppedInv(j, fs[i]) && SteppedRank(j, fs[i]) + i <= SteppedRank(j, fs[0])
  {
    hide SteppedInv, SteppedRank, StagesOk, StepNext, StepEnabled, Ready;
    StartHolds(j, fs[0].s.chain.sessions);
    if i > 0 {
      SteppedBounds(j, fs, actions, i - 1);
      assert actions[i - 1] in actions;
      StepKeeps(j, fs[0].s.chain.sessions, fs[i - 1], actions[i - 1]);
    }
  }

  lemma StartHolds(j: Job, sessions: seq<Session>)
    requires Ready(j, sessions)
    ensures StagesOk(j, Start(j, sessions)) && SteppedInv(j, Start(j, sessions))
  {
    var s := Initial(j, sessions);
    StartRefines(j, sessions);
    SameSessions(j, sessions);
    assert IsRun(j, [s], []);
    SmoothRunInv(j, [s], [], 0);
  }

  lemma RelayFound(j: Job, f: Stepped, h: nat)
    requires JobOk(j) && StagesOk(j, f) && WorkerChain.CanRelay(j.chain, Coarse(j, f).chain, h)
    ensures StepEnabled(j, f, Worker(Fine.RelayResult(h)))
  {
  }

  /** What can happen to the one-step pipeline can happen here, at least its first step. */
  lemma StepFound(j: Job, f: Stepped) returns (a: StepAction)
    requires SteppedInv(j, f)
    ensures !f.s.p.Returned? ==> StepEnabled(j, f, a) && StepGenuine(a)
  {
    hide SmoothInv, Closing, Fine.Whole, InBounds, Fine.StagesHold, Fine.FineEnabled, JobOk;
    BoundsOfInv(j, f);
    JobFits(j);
    var c := GenuineStep(j, Coarse(j, f));
    if f.s.p.Returned? {
      a := Thread(c);
    } else if c.Hop? {
      HopEnabled(j, Coarse(j, f), c.hop, c.outcome);
      var w := Fine.HopMoves(j.chain, Workers(f), c.hop);
      a := Worker(w);
    } else if c.Relay? {
      RelayFound(j, f, c.hop);
      a := Worker(Fine.RelayResult(c.hop));
    } else {
      ThreadFound(j, f, c);
      a := Thread(c);
    }
  }

  lemma JobFits(j: Job)
    requires JobOk(j)
    ensures WorkerChain.ValidConfig(j.chain)
  {
  }

  lemma HopEnabled(j: Job, s: State, h: nat, o: Outcome)
    requires JobOk(j) && Enabled(j, s, Hop(h, o))
    ensures WorkerChain.CanRun(j.chain, s.chain, h)
  {
  }

  /** Main result for fault-free runs over the fine-grained workers: they are never stuck, they take
      at most so many steps, and they end in success. */
  lemma SteppedRunTerminates(j: Job, fs: seq<Stepped>, actions: seq<StepAction>)
    requires IsSteppedRun(j, fs, actions) && Ready(j, fs[0].s.chain.sessions) && AllStepsGenuine(actions)
    ensures StagesOk(j, fs[0]) && |actions| <= SteppedRank(j, fs[0])
    ensures (forall a :: StepGenuine(a) ==> !StepEnabled(j, fs[|actions|], a)) ==> fs[|actions|].s.p == Returned(true)
  {
    var n := |actions|;
    SteppedBounds(j, fs, actions, n);
    RankNonNegative(j, Coarse(j, fs[n]));
    var a := StepFound(j, fs[n]);
    assert !fs[n].s.p.Returned? ==> StepGenuine(a) && StepEnabled(j, fs[n], a);
    ReturnedWell(j, Coarse(j, fs[n]));
  }

  lemma ReturnedWell(j: Job, s: State)
    requires SmoothInv(j, s)
    ensures s.p.Returned? ==> s.p == Returned(true)
  {
  }
}
