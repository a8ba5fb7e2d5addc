/** The prefix-hash agreement between a coordinator and the hops of its routes, over runs
    in which workers restart, sessions are restored from snapshots, evaluations fail,
    and frames are delayed, lost, reordered or delivered twice. */
module PrefixAgreement {
  import opened TokenHash
  import opened WorkerSession

  /** Layers `lo` to `hi`, both included. */
  datatype Layers = Layers(lo: nat, hi: nat)

  datatype Hop = Hop(worker: nat, layers: Layers)

  /** One span the coordinator sends: the tokens before it, the span, and the hops it must pass. */
  datatype Request = Request(prefix: seq<Token>, span: seq<Token>, reset: bool, ackOnly: bool, route: seq<Hop>)

  /** Hop after hop takes the next layers. */
  predicate Consecutive(route: seq<Hop>) {
    forall i :: 0 <= i < |route| ==> Follows(route, i)
  }

  predicate Follows(route: seq<Hop>, i: nat)
    requires i < |route|
  {
    route[i].layers.lo <= route[i].layers.hi && (i > 0 ==> route[i].layers.lo == route[i - 1].layers.hi + 1)
  }

  function WorkOf(id: nat, q: Request): Work {
    Work(id, Prefix(q.prefix), Span(Prefix(q.prefix), q.span), |q.prefix|, q.span, q.reset, q.ackOnly)
  }

  datatype Frame =
    | WorkFrame(work: Work, route: seq<Hop>, hop: nat, layers: Layers)
    | ResultFrame(id: nat, hash: Hash, ok: bool)

  /** A successful evaluation: the layers evaluated, the session the hop compared with the request,
      and its timeline afterwards. */
  datatype Evaluation = Evaluation(id: nat, worker: nat, layers: Layers, before: Session, after: seq<Token>)

  /** A frame, once written, stays in `frames`: the network may deliver it at any time, never, or
      again. `slices` are the layers each worker is assigned. */
  datatype System = System(requests: seq<Request>, sessions: map<nat, Session>, slices: nat -> Layers, frames: set<Frame>,
                           log: set<Evaluation>, accepted: set<nat>)

  predicate Initial(s: System) {
    s.requests == [] && s.sessions == map[] && s.frames == {} && s.log == {} && s.accepted == {}
  }

  datatype Action =
    | Send(request: Request)
    | Run(frame: Frame, outcome: Outcome)
    | RelayError(id: nat)
    | Restart(worker: nat, layers: Layers)
    | Restore(worker: nat, tokens: seq<Token>, ok: bool)
    | Accept(result: Frame)

  function SessionOf(s: System, worker: nat): Session {
    if worker in s.sessions then s.sessions[worker] else FRESH
  }

  predicate Enabled(s: System, a: Action) {
    match a
    case Send(q) => q.route != [] && Consecutive(q.route) && (q.reset ==> q.prefix == [])
    case Run(f, _) => f in s.frames && f.WorkFrame? && f.hop < |f.route|
    case RelayError(_) => true
    case Restart(_, _) => true
    case Restore(_, _, _) => true
    case Accept(f) =>
      // The reader waits for the request it sent and compares the hash it expects.
      && f in s.frames && f.ResultFrame? && f.ok && f.id < |s.requests|
      && f.hash == WorkOf(f.id, s.requests[f.id]).result
  }

  /** A worker refuses layers it is not assigned, or that are not its route entry's, before anything else. */
  function RunWork(e: Limits, s: System, f: Frame, o: Outcome): Verdict
    requires f.WorkFrame? && f.hop < |f.route|
  {
    var hop := f.route[f.hop];
    if f.layers != s.slices(hop.worker) || f.layers != hop.layers then Verdict(SessionOf(s, hop.worker), false)
    else Process(e, SessionOf(s, hop.worker), f.work, o)
  }

  function RunFrame(e: Limits, s: System, f: Frame, o: Outcome): System
    requires f.WorkFrame? && f.hop < |f.route|
  {
    var worker := f.route[f.hop].worker;
    var before := SessionOf(s, worker);
    var v := RunWork(e, s, f, o);
    var s1 := s.(sessions := s.sessions[worker := v.after]);
    if !v.ok then s1.(frames := s.frames + {ResultFrame(f.work.id, 0, false)})
    else
      var entry := Evaluation(f.work.id, worker, f.layers, Rehashed(before, f.work.reset), v.after.timeline);
      var next := if f.hop + 1 < |f.route| then f.(hop := f.hop + 1, layers := f.route[f.hop + 1].layers) else ResultFrame(f.work.id, f.work.result, true);
      s1.(log := s.log + {entry}, frames := s.frames + {next})
  }

  function Next(e: Limits, s: System, a: Action): System
    requires Enabled(s, a)
  {
    match a
    case Send(q) =>
      s.(requests := s.requests + [q], frames := s.frames + {WorkFrame(WorkOf(|s.requests|, q), q.route, 0, q.route[0].layers)})
    case Run(f, o) => RunFrame(e, s, f, o)
    case RelayError(id) => s.(frames := s.frames + {ResultFrame(id, 0, false)})
    case Restart(w, layers) =>
      s.(sessions := s.sessions - {w}, slices := (x: nat) => if x == w then layers else s.slices(x))
    case Restore(w, tokens, ok) => s.(sessions := s.sessions[w := Restored(SessionOf(s, w), tokens, ok)])
    case Accept(f) => s.(accepted := s.accepted + {f.id})
  }

  ghost predicate IsRun(e: Limits, states: seq<System>, actions: seq<Action>) {
    && |states| == |actions| + 1 && Initial(states[0])
    && forall i :: 0 <= i < |actions| ==> Enabled(states[i], actions[i]) && states[i + 1] == Next(e, states[i], actions[i])
  }

  /** The hash a worker holds is the hash of its timeline, except that a reset which failed
      halfway leaves the old hash beside an empty timeline the engine no longer trusts. */
  predicate Consistent(s: Session) {
    s.hashValid ==> s.hash == Prefix(s.timeline) || (s.timeline == [] && !s.live)
  }

  /** `hop` evaluated its own layers for request `id`, on a session whose hash field and whose
      timeline both hash to the coordinator's prefix. */
  predicate Agreed(x: Evaluation, id: nat, hop: Hop, q: Request) {
    && x.id == id && x.worker == hop.worker && x.layers == hop.layers
    && x.before.hash == Prefix(q.prefix) == Prefix(x.before.timeline)
    && x.after == x.before.timeline + q.span && (q.reset ==> x.before.timeline == [])
  }

  predicate HopAgreed(log: set<Evaluation>, id: nat, q: Request, hop: nat)
    requires hop < |q.route|
  {
    exists x :: x in log && Agreed(x, id, q.route[hop], q)
  }

  ghost predicate Witnessed(s: System, id: nat, hops: nat)
    requires id < |s.requests| && hops <= |s.requests[id].route|
  {
    forall j :: 0 <= j < hops ==> HopAgreed(s.log, id, s.requests[id], j)
  }

  ghost predicate FrameOk(s: System, f: Frame) {
    match f
    case WorkFrame(w, route, hop, layers) =>
      && w.id < |s.requests| && w == WorkOf(w.id, s.requests[w.id])
      && route == s.requests[w.id].route && hop < |route| && layers == route[hop].layers && Witnessed(s, w.id, hop)
    case ResultFrame(id, hash, ok) =>
      ok ==> id < |s.requests| && Witnessed(s, id, |s.requests[id].route|)
  }

  ghost predicate Inv(s: System) {
    && (forall q :: q in s.requests ==> Consecutive(q.route) && (q.reset ==> q.prefix == []))
    && (forall w :: w in s.sessions ==> Consistent(s.sessions[w]))
    && (forall f :: f in s.frames ==> FrameOk(s, f))
    && (forall id :: id in s.accepted ==> id < |s.requests| && Witnessed(s, id, |s.requests[id].route|))
  }

  /** An evaluation that succeeds on a consistent session ran on a timeline with the
      coordinator's prefix hash, and leaves a consistent session. */
  lemma ProcessAgrees(e: Limits, s: Session, id: nat, q: Request, o: Outcome)
    requires Consistent(s) && (q.reset ==> q.prefix == [])
    ensures var v := Process(e, s, WorkOf(id, q), o);
            && Consistent(v.after)
            && (v.ok ==> var r := Rehashed(s, q.reset);
                         && r.hash == Prefix(q.prefix) == Prefix(r.timeline)
                         && v.after.timeline == r.timeline + q.span && (q.reset ==> r.timeline == []))
  {
    var r := Rehashed(s, q.reset);
    assert Prefix([]) == INIT;
    if r.hash == Prefix(q.prefix) && SpanFits(r, |q.prefix|) {
      if !r.live && |q.prefix| == 0 {
        assert q.prefix == [];
      }
      assert Prefix(r.timeline) == r.hash;
      SpanConcat(INIT, r.timeline, q.span);
    }
  }

  lemma MonotoneFrames(s: System, t: System)
    requires |s.requests| <= |t.requests| && t.requests[..|s.requests|] == s.requests && s.log <= t.log
    ensures forall f :: FrameOk(s, f) ==> FrameOk(t, f)
    ensures forall id: nat :: id < |s.requests| && Witnessed(s, id, |s.requests[id].route|)
              ==> Witnessed(t, id, |t.requests[id].route|)
  {
    assert forall id: nat :: id < |s.requests| ==> s.requests[id] == t.requests[..|s.requests|][id] == t.requests[id];
    forall id: nat, n: nat | id < |s.requests| && n <= |s.requests[id].route| && Witnessed(s, id, n)
      ensures Witnessed(t, id, n)
    {
      assert t.requests[id] == s.requests[id];
      forall j | 0 <= j < n
        ensures HopAgreed(t.log, id, t.requests[id], j)
      {
        assert HopAgreed(s.log, id, s.requests[id], j);
      }
    }
  }

  lemma RunKeepsInv(e: Limits, s: System, f: Frame, o: Outcome)
    requires Inv(s) && Enabled(s, Run(f, o))
    ensures Inv(RunFrame(e, s, f, o))
  {
    var t := RunFrame(e, s, f, o);
    var hop, id := f.route[f.hop], f.work.id;
    var q := s.requests[id];
    var before := SessionOf(s, hop.worker);
    assert FrameOk(s, f);
    assert q in s.requests;
    ProcessAgrees(e, before, id, q, o);
    MonotoneFrames(s, t);
    var v := RunWork(e, s, f, o);
    if v.ok {
      var x := Evaluation(id, hop.worker, f.layers, Rehashed(before, f.work.reset), v.after.timeline);
      assert x in t.log && Agreed(x, id, hop, q);
      assert Witnessed(t, id, f.hop);
      assert Witnessed(t, id, f.hop + 1);
    }
  }

  lemma NextKeepsInv(e: Limits, s: System, a: Action)
    requires Inv(s) && Enabled(s, a)
    ensures Inv(Next(e, s, a))
  {
    var t := Next(e, s, a);
    match a {
      case Run(f, o) => RunKeepsInv(e, s, f, o);
      case Send(q) =>
        MonotoneFrames(s, t);
        assert Witnessed(t, |s.requests|, 0);
      case _ => MonotoneFrames(s, t);
    }
  }

  lemma {:induction false} RunInv(e: Limits, states: seq<System>, actions: seq<Action>, i: nat)
    requires IsRun(e, states, actions) && i < |states|
    ensures Inv(states[i])
  {
    if i > 0 {
      RunInv(e, states, actions, i - 1);
      NextKeepsInv(e, states[i - 1], actions[i - 1]);
    }
  }

  /** Two token sequences that the hash cannot tell apart. */
  predicate Collision(a: seq<Token>, b: seq<Token>) {
    a != b && Prefix(a) == Prefix(b)
  }

  /** Hop `hop` evaluated request `id` as `Agreed` says, and afterwards its timeline was the
      coordinator's prefix followed by the span, unless the two prefixes collide. */
  predicate HopReached(log: set<Evaluation>, id: nat, q: Request, hop: nat)
    requires hop < |q.route|
  {
    exists x :: x in log && Agreed(x, id, q.route[hop], q)
      && (x.after == q.prefix + q.span || (!q.reset && Collision(x.before.timeline, q.prefix)))
  }

  /** Main result. In every run, a span whose result was accepted was evaluated by every hop of its
      route, on that hop's layers and on a session whose hash equals the coordinator's prefix hash. */
  lemma AcceptedSpansAgree(e: Limits, states: seq<System>, actions: seq<Action>, i: nat, id: nat)
    requires IsRun(e, states, actions) && i < |states| && id in states[i].accepted
    ensures id < |states[i].requests| && Consecutive(states[i].requests[id].route)
    ensures forall hop :: 0 <= hop < |states[i].requests[id].route| ==>
              HopReached(states[i].log, id, states[i].requests[id], hop)
  {
    RunInv(e, states, actions, i);
    var s := states[i];
    var q := s.requests[id];
    assert q in s.requests;
    assert Witnessed(s, id, |q.route|);
    forall hop | 0 <= hop < |q.route|
      ensures HopReached(s.log, id, q, hop)
    {
      assert HopAgreed(s.log, id, q, hop);
      var x :| x in s.log && Agreed(x, id, q.route[hop], q);
      assert x.before.timeline == q.prefix || (!q.reset && Collision(x.before.timeline, q.prefix));
    }
  }

  predicate Covers(hop: Hop, layer: nat) {
    hop.layers.lo <= layer <= hop.layers.hi
  }

  /** Of consecutive hops exactly one has a given layer. */
  lemma {:induction false} OneHop(route: seq<Hop>, layer: nat) returns (hop: nat)
    requires Consecutive(route) && route != [] && route[0].layers.lo <= layer <= route[|route| - 1].layers.hi
    ensures hop < |route| && Covers(route[hop], layer)
    ensures forall k: nat :: k < |route| && Covers(route[k], layer) ==> k == hop
    decreases |route|
  {
    var last := |route| - 1;
    assert Follows(route, last);
    forall k: nat | k < last ensures route[k].layers.hi < route[last].layers.lo {
      Earlier(route, k, last);
    }
    if route[last].layers.lo <= layer {
      hop := last;
    } else {
      assert forall k :: 0 <= k < last ==> Follows(route, k) == Follows(route[..last], k);
      hop := OneHop(route[..last], layer);
      assert forall k: nat :: k < last ==> route[..last][k] == route[k];
    }
  }

  lemma {:induction false} Earlier(route: seq<Hop>, i: nat, j: nat)
    requires Consecutive(route) && i < j < |route|
    ensures route[i].layers.hi < route[j].layers.lo
    decreases j
  {
    assert Follows(route, j) && Follows(route, j - 1);
    if i < j - 1 { Earlier(route, i, j - 1); }
  }

  /** So every layer of the route was evaluated on an agreed session, by the one hop that has it. */
  lemma EveryLayerEvaluated(e: Limits, states: seq<System>, actions: seq<Action>, i: nat, id: nat, layer: nat) returns (hop: nat)
    requires IsRun(e, states, actions) && i < |states| && id in states[i].accepted
    requires id < |states[i].requests| && states[i].requests[id].route != []
    requires var route := states[i].requests[id].route; route[0].layers.lo <= layer <= route[|route| - 1].layers.hi
    ensures var q := states[i].requests[id];
            && hop < |q.route| && Covers(q.route[hop], layer) && HopReached(states[i].log, id, q, hop)
            && forall k: nat :: k < |q.route| && Covers(q.route[k], layer) ==> k == hop
  {
    AcceptedSpansAgree(e, states, actions, i, id);
    hop := OneHop(states[i].requests[id].route, layer);
  }

  /** A hop whose timeline hashes differently refuses the span and keeps its timeline. */
  lemma MismatchRefused(e: Limits, s: Session, id: nat, q: Request, o: Outcome)
    requires Consistent(s) && !q.reset && s.live && Prefix(s.timeline) != Prefix(q.prefix)
    ensures var v := Process(e, s, WorkOf(id, q), o);
            !v.ok && v.after.timeline == s.timeline && v.after.live
  {
  }

  /** Replaying from position zero repairs any session, whatever state a failure left it in. */
  lemma ReplayRepairs(e: Limits, s: Session, id: nat, q: Request)
    requires q.reset && q.prefix == [] && Admissible(e, WorkOf(id, q))
    ensures var v := Process(e, s, WorkOf(id, q), SMOOTH);
            v.ok && v.after == Session(q.span, true, Prefix(q.span), true)
  {
    assert Prefix([]) == INIT;
    assert [] + q.span == q.span;
  }

  // ---- Recovery of a route -------------------------------------------------

  function Joined(spans: seq<seq<Token>>): seq<Token> {
    if spans == [] then [] else Joined(spans[..|spans| - 1]) + spans[|spans| - 1]
  }

  /** The replay's request number `k`: the first resets, the others go on where the one before ended. */
  function ReplayRequest(spans: seq<seq<Token>>, route: seq<Hop>, k: nat): Request
    requires k < |spans|
  {
    Request(Joined(spans[..k]), spans[k], k == 0, false, route)
  }

  function ReplayWork(id: nat, spans: seq<seq<Token>>, k: nat): Work
    requires k < |spans|
  {
    WorkOf(id + k, ReplayRequest(spans, [], k))
  }

  /** A hop's session after the replay's first `n` spans. */
  function Replayed(e: Limits, s: Session, id: nat, spans: seq<seq<Token>>, outcomes: seq<Outcome>, n: nat): Session
    requires n <= |spans| == |outcomes|
  {
    if n == 0 then s
    else Process(e, Replayed(e, s, id, spans, outcomes, n - 1), ReplayWork(id, spans, n - 1), outcomes[n - 1]).after
  }

  /** The hop evaluates each of the spans. */
  predicate Accepts(e: Limits, s: Session, id: nat, spans: seq<seq<Token>>, outcomes: seq<Outcome>) {
    && |spans| == |outcomes|
    && forall k: nat :: k < |spans| ==>
         Process(e, Replayed(e, s, id, spans, outcomes, k), ReplayWork(id, spans, k), outcomes[k]).ok
  }

  function Recovered(tokens: seq<Token>): Session {
    Session(tokens, true, Prefix(tokens), true)
  }

  /** One more span, from wherever a failure left the hop or from the span before. */
  lemma SpanReplayed(e: Limits, s: Session, id: nat, spans: seq<seq<Token>>, k: nat, o: Outcome)
    requires k < |spans| && (k > 0 ==> s == Recovered(Joined(spans[..k])))
    ensures Process(e, s, ReplayWork(id, spans, k), o).ok ==>
              Process(e, s, ReplayWork(id, spans, k), o).after == Recovered(Joined(spans[..k + 1]))
    ensures Admissible(e, ReplayWork(id, spans, k)) && o == SMOOTH ==> Process(e, s, ReplayWork(id, spans, k), o).ok
  {
    var before := Joined(spans[..k]);
    assert spans[..k + 1][..k] == spans[..k];
    assert Prefix([]) == INIT;
    SpanConcat(INIT, before, spans[k]);
    if k == 0 {
      assert before == [] && [] + spans[0] == spans[0];
    }
  }

  lemma {:induction false} HopRecovers(e: Limits, s: Session, id: nat, spans: seq<seq<Token>>, outcomes: seq<Outcome>, n: nat)
    requires Accepts(e, s, id, spans, outcomes) && 0 < n <= |spans|
    ensures Replayed(e, s, id, spans, outcomes, n) == Recovered(Joined(spans[..n]))
  {
    hide Process, Joined, Recovered, ReplayWork;
    if n > 1 { HopRecovers(e, s, id, spans, outcomes, n - 1); }
    SpanReplayed(e, Replayed(e, s, id, spans, outcomes, n - 1), id, spans, n - 1, outcomes[n - 1]);
  }

  /** Main result on recovery. Whatever state failures left its hops in, a route whose hops all
      evaluate a replay of the transcript from position zero, in whatever spans, holds the
      transcript at every hop, with the hash the coordinator computes for it. */
  lemma RouteRecovers(e: Limits, sessions: seq<Session>, id: nat, spans: seq<seq<Token>>, outcomes: seq<seq<Outcome>>)
    requires spans != [] && |outcomes| == |sessions|
    requires forall hop :: 0 <= hop < |sessions| ==> Accepts(e, sessions[hop], id, spans, outcomes[hop])
    ensures forall hop :: 0 <= hop < |sessions| ==>
              && |outcomes[hop]| == |spans|
              && Replayed(e, sessions[hop], id, spans, outcomes[hop], |spans|) == Recovered(Joined(spans))
  {
    assert spans[..|spans|] == spans;
    forall hop | 0 <= hop < |sessions|
      ensures |outcomes[hop]| == |spans| && Replayed(e, sessions[hop], id, spans, outcomes[hop], |spans|) == Recovered(Joined(spans))
    {
      HopRecovers(e, sessions[hop], id, spans, outcomes[hop], |spans|);
    }
  }

  function Smooth(n: nat): (o: seq<Outcome>)
    ensures |o| == n
  {
    seq(n, _ => SMOOTH)
  }

  lemma {:induction false} SmoothReplay(e: Limits, s: Session, id: nat, spans: seq<seq<Token>>, outcomes: seq<Outcome>, n: nat)
    requires n <= |spans| && outcomes == Smooth(|spans|) && forall k: nat :: k < |spans| ==> Admissible(e, ReplayWork(id, spans, k))
    ensures 0 < n ==> Replayed(e, s, id, spans, outcomes, n) == Recovered(Joined(spans[..n]))
  {
    hide Process, Joined, Recovered, ReplayWork, Admissible;
    if n > 0 {
      var before := Replayed(e, s, id, spans, outcomes, n - 1);
      SmoothReplay(e, s, id, spans, outcomes, n - 1);
      SpanReplayed(e, before, id, spans, n - 1, SMOOTH);
    }
  }

  /** And without further failures every hop does evaluate it, whatever state it was left in. */
  lemma ReplayAccepted(e: Limits, s: Session, id: nat, spans: seq<seq<Token>>)
    requires forall k: nat :: k < |spans| ==> Admissible(e, ReplayWork(id, spans, k))
    ensures Accepts(e, s, id, spans, Smooth(|spans|))
  {
    hide Process, Joined, Recovered, ReplayWork, Admissible, Replayed;
    var outcomes := Smooth(|spans|);
    forall k: nat | k < |spans| ensures Process(e, Replayed(e, s, id, spans, outcomes, k), ReplayWork(id, spans, k), outcomes[k]).ok {
      SmoothReplay(e, s, id, spans, outcomes, k);
      SpanReplayed(e, Replayed(e, s, id, spans, outcomes, k), id, spans, k, SMOOTH);
    }
  }
}
