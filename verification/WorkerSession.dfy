/** One worker's copy of a distributed session: its token timeline, the hash that
    stands for it, and what one WORK frame does to both. */
module WorkerSession {
  import opened TokenHash

  /** `live` is the engine's own validity flag for the timeline; a session created
      on demand starts with an unset hash. */
  datatype Session = Session(timeline: seq<Token>, live: bool, hash: Hash, hashValid: bool)

  const FRESH := Session([], false, 0, false)

  datatype Work = Work(id: nat, prefix: Hash, result: Hash, pos0: nat, tokens: seq<Token>,
                       reset: bool, ackOnly: bool)

  datatype Limits = Limits(ctx: nat, vocab: nat)

  /** What the engine's calls return on this frame, where the frame lets them run. */
  datatype Outcome = Outcome(resetOk: bool, evalOk: bool, staysLive: bool)

  const SMOOTH := Outcome(true, true, true)

  predicate Admissible(e: Limits, w: Work) {
    && 0 < |w.tokens| && w.pos0 + |w.tokens| <= e.ctx
    && (forall t :: t in w.tokens ==> t < e.vocab)
    && Span(w.prefix, w.tokens) == w.result
  }

  /** The engine refuses a span that does not start where its timeline ends. */
  predicate SpanFits(s: Session, pos0: nat) {
    if s.live then |s.timeline| == pos0 else pos0 == 0
  }

  function Reset(s: Session): Session {
    s.(timeline := [], live := false)
  }

  /** The session once its hash has been refreshed for the comparison. */
  function Rehashed(s: Session, reset: bool): Session {
    if reset then Reset(s).(hash := INIT, hashValid := true)
    else if s.hashValid then s
    else s.(hash := Prefix(s.timeline), hashValid := true)
  }

  datatype Verdict = Verdict(after: Session, ok: bool)

  function Process(e: Limits, s: Session, w: Work, o: Outcome): Verdict {
    if !Admissible(e, w) then Verdict(s, false)
    else if w.reset && !o.resetOk then Verdict(Reset(s), false)
    else
      var r := Rehashed(s, w.reset);
      if r.hash != w.prefix then Verdict(r, false)
      else if !SpanFits(r, w.pos0) then Verdict(r.(hashValid := false), false)
      else if !o.evalOk then Verdict(r.(live := r.live && o.staysLive, hashValid := false), false)
      else Verdict(Session(r.timeline + w.tokens, true, w.result, true), true)
  }

  /** A KV shard restored over the snapshot connection replaces the session's timeline. */
  function Restored(s: Session, tokens: seq<Token>, ok: bool): Session {
    if ok then Session(tokens, true, Prefix(tokens), true) else s.(hashValid := false)
  }

  /** The worker's own session object. */
  class WorkerKv {
    var timeline: seq<Token>
    var live: bool
    var hash: Hash
    var hashValid: bool

    function View(): Session
      reads this
    {
      Session(timeline, live, hash, hashValid)
    }

    constructor ()
      ensures View() == FRESH
    {
      timeline, live, hash, hashValid := [], false, 0, false;
    }

    method Evaluate(e: Limits, w: Work, o: Outcome) returns (ok: bool)
      modifies this
      ensures Verdict(View(), ok) == Process(e, old(View()), w, o)
    {
      if |w.tokens| == 0 || e.ctx < w.pos0 || e.ctx - w.pos0 < |w.tokens| {
        return false;
      }
      for i := 0 to |w.tokens|
        invariant forall k :: 0 <= k < i ==> w.tokens[k] < e.vocab
      {
        if w.tokens[i] >= e.vocab {
          assert w.tokens[i] in w.tokens;
          return false;
        }
      }
      var span := UpdateSpan(w.prefix, w.tokens);
      if span != w.result {
        return false;
      }
      if w.reset {
        timeline, live := [], false;
        if !o.resetOk {
          return false;
        }
        hash, hashValid := INIT, true;
      } else if !hashValid {
        hash := UpdateSpan(INIT, timeline);
        hashValid := true;
      }
      if hash != w.prefix {
        return false;
      }
      ok := SpanFits(View(), w.pos0) && o.evalOk;
      if ok {
        timeline, live := timeline + w.tokens, true;
        hash, hashValid := w.result, true;
      } else {
        if SpanFits(View(), w.pos0) {
          live := live && o.staysLive;
        }
        hashValid := false;
      }
    }
  }
}
