/** The pipelined prefill when something fails: no wakeup is lost, and every run comes to an end
    unless an open connection stays silent. */
module PrefillFailures {
  import opened PrefillPipeline
  import WorkerChain

  /** The connection has been shut down, by whichever thread found a failure. */
  predicate Closed(s: State) {
    s.ring.failed || s.readerFailed || Cancelled(s.p)
  }

  ghost predicate FaultInv(j: Job, s: State) {
    Inv(j, s) && Waits(j, s) && Closing(s)
  }

  /** The coordinator's own three threads. */
  predicate Own(a: Action) {
    a.Produce? || a.SendNext? || a.ReadNext?
  }

  predicate Wakes(a: Action) {
    a.WakeProducer? || a.WakeSender?
  }

  /** A step that needs neither luck nor a fault: a read fails only on a connection shut down. */
  predicate Unforced(j: Job, s: State, a: Action)
    requires JobOk(j)
  {
    Enabled(j, s, a) && Own(a) && (a == ReadNext(false) && s.r.AtRead? ==> Closed(s))
  }

  // ---- No wakeup is lost ---------------------------------------------------

  lemma ProduceKeeps(j: Job, s: State, ok: bool)
    requires JobOk(j) && Waits(j, s) && Closing(s) && InBounds(j, s) && ProducerReady(s) && (s.p == FinalEmit(true) ==> s.done)
    ensures Waits(j, ProducerNext(j, s, ok)) && Closing(ProducerNext(j, s, ok))
  {
    hide ProducerNext, Waits, Closing;
    match s.p {
      case AtWindow | WindowRetry | WindowEmit(_) => WindowKeeps(j, s, ok);
      case AtAcquire | Filling(_) => AcquireKeeps(j, s, ok);
      case AtEnqueue(_) | AfterEnqueue(_) => EnqueueKeeps(j, s, ok);
      case _ => EndKeeps(j, s, ok);
    }
  }

  lemma WindowKeeps(j: Job, s: State, ok: bool)
    requires JobOk(j) && Waits(j, s) && InBounds(j, s) && (s.p.AtWindow? || s.p.WindowRetry? || s.p.WindowEmit?)
    ensures Waits(j, ProducerNext(j, s, ok)) && Closing(ProducerNext(j, s, ok))
  {
  }

  lemma AcquireKeeps(j: Job, s: State, ok: bool)
    requires JobOk(j) && Waits(j, s) && InBounds(j, s) && (s.p.AtAcquire? || s.p.Filling?)
    ensures Waits(j, ProducerNext(j, s, ok)) && Closing(ProducerNext(j, s, ok))
  {
    hide FillNext;
    if s.p.Filling? { FillMoves(j, s, ok); }
  }

  lemma EnqueueKeeps(j: Job, s: State, ok: bool)
    requires JobOk(j) && Waits(j, s) && InBounds(j, s) && (s.p.AtEnqueue? || s.p.AfterEnqueue?)
    ensures Waits(j, ProducerNext(j, s, ok)) && Closing(ProducerNext(j, s, ok))
  {
  }

  lemma EndKeeps(j: Job, s: State, ok: bool)
    requires JobOk(j) && Waits(j, s) && Closing(s) && InBounds(j, s) && ProducerReady(s) && (s.p == FinalEmit(true) ==> s.done)
    requires s.p.Ending? || s.p.JoiningSender? || s.p.AtFinal? || s.p.FinalEmit? || s.p.FinalCheck? || s.p.JoiningReader?
    ensures Waits(j, ProducerNext(j, s, ok)) && Closing(ProducerNext(j, s, ok))
  {
  }

  /** Filling a slot touches neither the ring's counters nor anything the other threads read. */
  lemma FillMoves(j: Job, s: State, ok: bool)
    requires JobOk(j) && InBounds(j, s) && s.p.Filling?
    ensures var t := FillNext(j, s, ok); t == s.(ring := t.ring, p := t.p) && t.ring == s.ring.(slots := t.ring.slots)
    ensures var t := FillNext(j, s, ok); t.p == (if ok then AtEnqueue(s.p.slot) else Ending(false)) && |t.ring.slots| == |s.ring.slots|
  {
  }

  lemma SendKeeps(j: Job, s: State, ok: bool)
    requires FaultInv(j, s) && InBounds(j, s) && SenderReady(s)
    ensures Waits(j, SenderNext(j, s, ok)) && Closing(SenderNext(j, s, ok))
  {
  }

  lemma ReadKeeps(j: Job, s: State, ok: bool)
    requires FaultInv(j, s) && InBounds(j, s) && ReaderReady(j, s, ok)
    ensures Waits(j, ReaderNext(j, s, ok)) && Closing(ReaderNext(j, s, ok))
  {
  }

  lemma NextKeeps(j: Job, s: State, a: Action)
    requires FaultInv(j, s) && Enabled(j, s, a)
    ensures FaultInv(j, Next(j, s, a))
  {
    NextKeepsInv(j, s, a);
    match a {
      case Produce(ok) => ProduceKeeps(j, s, ok);
      case SendNext(ok) => SendKeeps(j, s, ok);
      case ReadNext(ok) => ReadKeeps(j, s, ok);
      case _ =>
    }
  }

  lemma {:induction false} RunKeeps(j: Job, states: seq<State>, actions: seq<Action>, i: nat)
    requires IsRun(j, states, actions) && i < |states|
    ensures FaultInv(j, states[i])
  {
    if i == 0 {
      InitialInv(j, states[0].chain.sessions);
    } else {
      RunKeeps(j, states, actions, i - 1);
      NextKeeps(j, states[i - 1], actions[i - 1]);
    }
  }

  /** Nothing has failed, and a request written on the open connection has not been answered. */
  predicate AwaitsAnswer(j: Job, s: State) {
    && s.r.AtRead? && !Closed(s) && !s.ring.stop
    && |s.accepted| < |s.pushed| && !WorkerChain.CanPop(j.chain, s.chain)
  }

  lemma StepOrWait(j: Job, s: State) returns (a: Action)
    requires FaultInv(j, s) && !s.p.Returned?
    ensures Unforced(j, s, a) || AwaitsAnswer(j, s)
  {
    InvInBounds(j, s);
    if ProducerReady(s) {
      a := Produce(true);
    } else if SenderReady(s) {
      a := SendNext(true);
    } else if ReaderReady(j, s, true) {
      a := ReadNext(true);
    } else {
      a := ReadNext(false);
    }
  }

  /** Main result on failures. No run is ever stuck, whatever fails: until the prefill returns, one
      of the coordinator's threads can go on, or nothing has failed there and a worker's answer
      is awaited on an open connection. A failed thread's shutdown is what ends the reader's wait. */
  lemma NeverStuck(j: Job, states: seq<State>, actions: seq<Action>, i: nat) returns (a: Action)
    requires IsRun(j, states, actions) && i < |states| && !states[i].p.Returned?
    ensures Unforced(j, states[i], a) || AwaitsAnswer(j, states[i])
  {
    RunKeeps(j, states, actions, i);
    a := StepOrWait(j, states[i]);
  }

  // ---- Every run ends ------------------------------------------------------

  /** A bound on the steps the coordinator's threads still take, whatever fails. */
  function OwnRank(j: Job, s: State): int
    requires JobOk(j)
  {
    5 * ReaderRank(j, s.r) + LocalRank(Count(j), s) + 5 * (Count(j) - |s.pushed|)
  }

  lemma ProduceRank(j: Job, s: State, ok: bool)
    requires JobOk(j) && Closing(s) && InBounds(j, s) && ProducerReady(s)
    ensures OwnRank(j, ProducerNext(j, s, ok)) < OwnRank(j, s)
  {
    hide ProducerNext, LocalRank;
    ProduceFrame(j, s, ok);
    ProduceLocal(j, s, ok, Count(j));
  }

  lemma ProduceFrame(j: Job, s: State, ok: bool)
    requires JobOk(j) && InBounds(j, s) && ProducerReady(s)
    ensures ProducerNext(j, s, ok).r == s.r && ProducerNext(j, s, ok).pushed == s.pushed
  {
  }

  lemma ProduceLocal(j: Job, s: State, ok: bool, count: nat)
    requires JobOk(j) && Closing(s) && InBounds(j, s) && ProducerReady(s)
    ensures LocalRank(count, ProducerNext(j, s, ok)) < LocalRank(count, s)
  {
    hide ProducerNext, LocalRank;
    if s.p.FinalEmit? || s.p.FinalCheck? { CloseLocal(j, s, ok, count); } else { LoopLocal(j, s, ok, count); }
  }

  lemma LoopLocal(j: Job, s: State, ok: bool, count: nat)
    requires JobOk(j) && InBounds(j, s) && ProducerReady(s) && !s.p.FinalEmit? && !s.p.FinalCheck?
    ensures LocalRank(count, ProducerNext(j, s, ok)) < LocalRank(count, s)
  {
    hide ProducerNext, LocalRank;
    match s.p {
      case AtWindow | WindowRetry | WindowEmit(_) => WindowLocal(j, s, ok, count);
      case AtAcquire | Filling(_) => AcquireLocal(j, s, ok, count);
      case AtEnqueue(_) | AfterEnqueue(_) => EnqueueLocal(j, s, ok, count);
      case _ => EndLocal(j, s, ok, count);
    }
  }

  lemma WindowLocal(j: Job, s: State, ok: bool, count: nat)
    requires JobOk(j) && InBounds(j, s) && (s.p.AtWindow? || s.p.WindowRetry? || s.p.WindowEmit?)
    ensures LocalRank(count, ProducerNext(j, s, ok)) < LocalRank(count, s)
  {
  }

  lemma AcquireLocal(j: Job, s: State, ok: bool, count: nat)
    requires JobOk(j) && InBounds(j, s) && (s.p.AtAcquire? || s.p.Filling?)
    ensures LocalRank(count, ProducerNext(j, s, ok)) < LocalRank(count, s)
  {
    hide FillNext;
    if s.p.Filling? { FillMoves(j, s, ok); }
  }

  lemma EnqueueLocal(j: Job, s: State, ok: bool, count: nat)
    requires JobOk(j) && InBounds(j, s) && (s.p.AtEnqueue? || s.p.AfterEnqueue?)
    ensures LocalRank(count, ProducerNext(j, s, ok)) < LocalRank(count, s)
  {
  }

  lemma EndLocal(j: Job, s: State, ok: bool, count: nat)
    requires JobOk(j) && InBounds(j, s) && ProducerReady(s) && (s.p.Ending? || s.p.JoiningSender? || s.p.AtFinal? || s.p.JoiningReader?)
    ensures LocalRank(count, ProducerNext(j, s, ok)) < LocalRank(count, s)
  {
  }

  lemma CloseLocal(j: Job, s: State, ok: bool, count: nat)
    requires JobOk(j) && Closing(s) && InBounds(j, s) && ProducerReady(s) && (s.p.FinalEmit? || s.p.FinalCheck?)
    ensures LocalRank(count, ProducerNext(j, s, ok)) < LocalRank(count, s)
  {
    hide Reports, Count;
  }

  lemma SendRank(j: Job, s: State, ok: bool)
    requires FaultInv(j, s) && InBounds(j, s) && SenderReady(s)
    ensures OwnRank(j, SenderNext(j, s, ok)) < OwnRank(j, s)
  {
  }

  lemma ReadRank(j: Job, s: State, ok: bool)
    requires FaultInv(j, s) && InBounds(j, s) && ReaderReady(j, s, ok)
    ensures OwnRank(j, ReaderNext(j, s, ok)) < OwnRank(j, s)
  {
  }

  lemma NextRank(j: Job, s: State, a: Action)
    requires FaultInv(j, s) && Enabled(j, s, a)
    ensures OwnRank(j, Next(j, s, a)) <= OwnRank(j, s) - (if Own(a) then 1 else 0) + if Wakes(a) then 4 else 0
  {
    match a {
      case Produce(ok) => ProduceRank(j, s, ok);
      case SendNext(ok) => SendRank(j, s, ok);
      case ReadNext(ok) => ReadRank(j, s, ok);
      case _ =>
    }
  }

  lemma OwnRankNonNegative(j: Job, s: State)
    requires FaultInv(j, s)
    ensures OwnRank(j, s) >= 0
  {
  }

  /** The steps of the coordinator's threads among the first `n`. */
  function OwnSteps(actions: seq<Action>, n: nat): nat
    requires n <= |actions|
  {
    if n == 0 then 0 else OwnSteps(actions, n - 1) + if Own(actions[n - 1]) then 1 else 0
  }

  /** The spurious wakeups among the first `n` steps. */
  function Wakeups(actions: seq<Action>, n: nat): nat
    requires n <= |actions|
  {
    if n == 0 then 0 else Wakeups(actions, n - 1) + if Wakes(actions[n - 1]) then 1 else 0
  }

  lemma {:induction false} RankBounds(j: Job, states: seq<State>, actions: seq<Action>, i: nat)
    requires IsRun(j, states, actions) && i < |states|
    ensures OwnRank(j, states[i]) + OwnSteps(actions, i) <= OwnRank(j, states[0]) + 4 * Wakeups(actions, i)
  {
    if i > 0 {
      RankBounds(j, states, actions, i - 1);
      RunKeeps(j, states, actions, i - 1);
      NextRank(j, states[i - 1], actions[i - 1]);
    }
  }

  /** Every run, faults included, takes at most so many steps of the coordinator's threads: with
      `NeverStuck`, the prefill returns, unless an open connection stays silent. */
  lemma EveryRunEnds(j: Job, states: seq<State>, actions: seq<Action>)
    requires IsRun(j, states, actions)
    ensures OwnSteps(actions, |actions|) <= 43 * (Count(j) + 1) + 4 * Wakeups(actions, |actions|)
    ensures (forall a :: !Unforced(j, states[|actions|], a)) ==> states[|actions|].p.Returned? || AwaitsAnswer(j, states[|actions|])
  {
    var n := |actions|;
    RankBounds(j, states, actions, n);
    RunKeeps(j, states, actions, n);
    OwnRankNonNegative(j, states[n]);
    if !states[n].p.Returned? {
      var a := NeverStuck(j, states, actions, n);
    }
  }
}
