/** The coordinator's worker registry, and the route a session caches by generation. */
module Registry {
  import opened RouteSearch
  import RouteBlob

  /** A registered worker: its connection, its model and what it offers. */
  datatype Entry = Entry(fd: nat, model: nat, worker: Worker)

  /** What a registration announces. */
  datatype Hello = Hello(modelId: nat, modelName: string, layers: nat, quantBits: nat, hasOutput: nat, hasHidden: nat,
                         lo: nat, hi: nat, ctx: nat, port: nat)

  datatype Coordinator = Coordinator(modelId: nat, modelName: string, layers: nat, ctx: nat, local: Local)

  /** Which registrations are accepted. */
  predicate HelloOk(c: Coordinator, h: Hello) {
    && h.modelId == c.modelId && h.modelName == c.modelName && h.layers == c.layers
    && (h.quantBits == 2 || h.quantBits == 4) && h.hasOutput <= 1 && h.hasHidden <= 1
    && h.lo <= h.hi < h.layers && (h.hasOutput == 1 ==> h.hi + 1 == h.layers)
    && (c.ctx != 0 ==> c.ctx <= h.ctx) && 0 < h.port <= 65535
  }

  method ValidateHello(c: Coordinator, h: Hello) returns (ok: bool)
    ensures ok == HelloOk(c, h)
    ensures ok ==> forall fd, host :: RouteBlob.HostOk(host) ==> RouteBlob.Registered(EntryFor(fd, host, h).worker, c.layers)
  {
    if h.modelId != c.modelId || h.modelName != c.modelName || h.layers != c.layers { return false; }
    if h.quantBits != 2 && h.quantBits != 4 { return false; }
    if h.hasOutput > 1 || h.hasHidden > 1 { return false; }
    if h.lo >= h.layers || h.hi >= h.layers || h.hi < h.lo { return false; }
    if h.hasOutput != 0 && h.hi + 1 != h.layers { return false; }
    if c.ctx != 0 && h.ctx < c.ctx { return false; }
    return h.port != 0 && h.port <= 65535;
  }

  function EntryFor(fd: nat, host: seq<nat>, h: Hello): Entry {
    Entry(fd, h.modelId, Worker(host, h.port, h.lo, h.hi, h.hasOutput == 1, h.hasHidden == 1))
  }

  /** An accepted registration is one every route payload can carry. */
  lemma AcceptedRegistered(c: Coordinator, h: Hello, fd: nat, host: seq<nat>)
    requires HelloOk(c, h) && RouteBlob.HostOk(host)
    ensures RouteBlob.Registered(EntryFor(fd, host, h).worker, c.layers)
  {
  }

  // ---- The list ------------------------------------------------------------

  /** Two entries for one and the same slice of a host; the newer replaces the older. */
  predicate SameSlice(a: Entry, b: Entry) {
    && a.worker.host == b.worker.host && a.model == b.model
    && a.worker.lo == b.worker.lo && a.worker.hi == b.worker.hi && a.worker.hasOutput == b.worker.hasOutput
  }

  function Without(ws: seq<Entry>, e: Entry): seq<Entry> {
    if ws == [] then [] else (if SameSlice(ws[0], e) then [] else [ws[0]]) + Without(ws[1..], e)
  }

  function Added(ws: seq<Entry>, e: Entry): seq<Entry> {
    [e] + Without(ws, e)
  }

  function RemoveFd(ws: seq<Entry>, fd: nat): seq<Entry> {
    if ws == [] then [] else if ws[0].fd == fd then ws[1..] else [ws[0]] + RemoveFd(ws[1..], fd)
  }

  predicate HasFd(ws: seq<Entry>, fd: nat) {
    exists i :: 0 <= i < |ws| && ws[i].fd == fd
  }

  /** A route entry names a worker by address, range and output. */
  predicate Names(w: Worker, e: Entry) {
    w.port == e.worker.port && w.host == e.worker.host && w.lo == e.worker.lo && w.hi == e.worker.hi
    && w.hasOutput == e.worker.hasOutput
  }

  function ForgetOne(ws: seq<Entry>, w: Worker): seq<Entry> {
    if ws == [] then [] else if Names(w, ws[0]) then ws[1..] else [ws[0]] + ForgetOne(ws[1..], w)
  }

  /** At most one entry for every worker of a failed route goes. */
  function Forgotten(ws: seq<Entry>, plan: seq<Worker>): seq<Entry>
    decreases |plan|
  {
    if plan == [] then ws else Forgotten(ForgetOne(ws, plan[0]), plan[1..])
  }

  predicate Unique(ws: seq<Entry>) {
    forall i, j :: 0 <= i < j < |ws| ==> !SameSlice(ws[i], ws[j])
  }

  /** `a` is `b` with some entries left out. */
  predicate SubList(a: seq<Entry>, b: seq<Entry>) {
    a == [] || (b != [] && ((a[0] == b[0] && SubList(a[1..], b[1..])) || SubList(a, b[1..])))
  }

  lemma {:induction false} SubMembers(a: seq<Entry>, b: seq<Entry>)
    requires SubList(a, b)
    ensures forall x :: x in a ==> x in b
  {
    if a != [] {
      assert a == [a[0]] + a[1..] && b == [b[0]] + b[1..];
      if a[0] == b[0] && SubList(a[1..], b[1..]) {
        SubMembers(a[1..], b[1..]);
      } else {
        SubMembers(a, b[1..]);
      }
    }
  }

  lemma {:induction false} SubUnique(a: seq<Entry>, b: seq<Entry>)
    requires SubList(a, b) && Unique(b)
    ensures Unique(a)
  {
    if a != [] {
      UniqueTail(b);
      if a[0] == b[0] && SubList(a[1..], b[1..]) {
        SubUnique(a[1..], b[1..]);
        SubMembers(a[1..], b[1..]);
        forall j | 0 < j < |a| ensures !SameSlice(a[0], a[j]) {
          assert a[1..][j - 1] in a[1..];
          var k :| 0 <= k < |b[1..]| && b[1..][k] == a[j];
          assert b[k + 1] == a[j];
        }
        UniqueCons(a);
      } else {
        SubUnique(a, b[1..]);
      }
    }
  }

  lemma UniqueTail(b: seq<Entry>)
    requires Unique(b) && b != []
    ensures Unique(b[1..])
  {
  }

  lemma UniqueCons(a: seq<Entry>)
    requires a != [] && Unique(a[1..]) && forall j :: 0 < j < |a| ==> !SameSlice(a[0], a[j])
    ensures Unique(a)
  {
    forall i, j | 0 <= i < j < |a| ensures !SameSlice(a[i], a[j]) {
      if i > 0 { assert !SameSlice(a[1..][i - 1], a[1..][j - 1]); }
    }
  }

  lemma {:induction false} SubSelf(a: seq<Entry>)
    ensures SubList(a, a)
  {
    if a != [] { SubSelf(a[1..]); }
  }

  lemma {:induction false} SubTrans(a: seq<Entry>, b: seq<Entry>, c: seq<Entry>)
    requires SubList(a, b) && SubList(b, c)
    ensures SubList(a, c)
    decreases |b| + |c|
  {
    if a != [] {
      if b[0] == c[0] && SubList(b[1..], c[1..]) {
        if a[0] == b[0] && SubList(a[1..], b[1..]) { SubTrans(a[1..], b[1..], c[1..]); } else { SubTrans(a, b[1..], c[1..]); }
      } else {
        SubTrans(a, b, c[1..]);
      }
    }
  }

  lemma {:induction false} WithoutSub(ws: seq<Entry>, e: Entry)
    ensures SubList(Without(ws, e), ws) && forall x :: x in Without(ws, e) <==> x in ws && !SameSlice(x, e)
  {
    if ws != [] {
      WithoutSub(ws[1..], e);
      if !SameSlice(ws[0], e) {
        assert Without(ws, e)[1..] == Without(ws[1..], e);
      } else {
        assert Without(ws, e) == Without(ws[1..], e);
      }
    }
  }

  lemma {:induction false} RemoveSub(ws: seq<Entry>, fd: nat)
    ensures SubList(RemoveFd(ws, fd), ws)
  {
    if ws != [] {
      if ws[0].fd == fd {
        SubSelf(ws[1..]);
      } else {
        RemoveSub(ws[1..], fd);
        assert RemoveFd(ws, fd)[1..] == RemoveFd(ws[1..], fd);
      }
    }
  }

  lemma {:induction false} ForgetOneSub(ws: seq<Entry>, w: Worker)
    ensures SubList(ForgetOne(ws, w), ws)
  {
    if ws != [] {
      if Names(w, ws[0]) {
        SubSelf(ws[1..]);
      } else {
        ForgetOneSub(ws[1..], w);
        assert ForgetOne(ws, w)[1..] == ForgetOne(ws[1..], w);
      }
    }
  }

  lemma {:induction false} ForgottenSub(ws: seq<Entry>, plan: seq<Worker>)
    ensures SubList(Forgotten(ws, plan), ws)
    decreases |plan|
  {
    if plan == [] {
      SubSelf(ws);
    } else {
      ForgetOneSub(ws, plan[0]);
      ForgottenSub(ForgetOne(ws, plan[0]), plan[1..]);
      SubTrans(Forgotten(ws, plan), ForgetOne(ws, plan[0]), ws);
    }
  }

  lemma AddedUnique(ws: seq<Entry>, e: Entry)
    requires Unique(ws)
    ensures Unique(Added(ws, e))
  {
    var t := Without(ws, e);
    WithoutSub(ws, e);
    SubUnique(t, ws);
    forall j | 0 < j < |t| + 1 ensures !SameSlice(Added(ws, e)[0], Added(ws, e)[j]) {
      assert t[j - 1] in t;
    }
    assert Added(ws, e)[1..] == t;
    UniqueCons(Added(ws, e));
  }

  // ---- The registry object -------------------------------------------------

  datatype Shared = Shared(workers: seq<Entry>, generation: nat, shuttingDown: bool)

  function AddTo(s: Shared, e: Entry): Shared {
    if s.shuttingDown then s else s.(workers := Added(s.workers, e), generation := s.generation + 1)
  }

  function RemoveFrom(s: Shared, fd: nat): Shared {
    if HasFd(s.workers, fd) then s.(workers := RemoveFd(s.workers, fd), generation := s.generation + 1) else s
  }

  function ForgetFrom(s: Shared, plan: seq<Worker>): Shared {
    if |Forgotten(s.workers, plan)| == |s.workers| then s
    else s.(workers := Forgotten(s.workers, plan), generation := s.generation + 1)
  }

  lemma {:induction false} WithoutSnoc(ws: seq<Entry>, e: Entry, i: nat)
    requires i < |ws|
    ensures Without(ws[..i + 1], e) == Without(ws[..i], e) + if SameSlice(ws[i], e) then [] else [ws[i]]
  {
    if i == 0 {
      assert ws[..1] == [ws[0]];
    } else {
      assert ws[..i + 1][1..] == ws[1..][..i] && ws[..i][1..] == ws[1..][..i - 1];
      WithoutSnoc(ws[1..], e, i - 1);
    }
  }

  lemma {:induction false} RemoveAt(ws: seq<Entry>, fd: nat, i: nat)
    requires i < |ws| && ws[i].fd == fd && forall k :: 0 <= k < i ==> ws[k].fd != fd
    ensures RemoveFd(ws, fd) == ws[..i] + ws[i + 1..]
  {
    if i > 0 { RemoveAt(ws[1..], fd, i - 1); }
  }

  lemma {:induction false} ForgetAt(ws: seq<Entry>, w: Worker, i: nat)
    requires i <= |ws| && (i < |ws| ==> Names(w, ws[i])) && forall k :: 0 <= k < i ==> !Names(w, ws[k])
    ensures ForgetOne(ws, w) == if i < |ws| then ws[..i] + ws[i + 1..] else ws
  {
    if i > 0 {
      assert ws == [ws[0]] + ws[1..];
      ForgetAt(ws[1..], w, i - 1);
    }
  }

  class Registry {
    var workers: seq<Entry>
    var generation: nat
    var shuttingDown: bool

    function View(): Shared
      reads this
    {
      Shared(workers, generation, shuttingDown)
    }

    constructor ()
      ensures View() == Shared([], 0, false)
    {
      workers, generation, shuttingDown := [], 0, false;
    }

    method AddWorker(e: Entry)
      modifies this
      ensures View() == AddTo(old(View()), e)
    {
      if shuttingDown {
        return;
      }
      var ws, kept := workers, [];
      assert ws[..0] == [];
      for i := 0 to |ws|
        invariant kept == Without(ws[..i], e)
        modifies {}
      {
        WithoutSnoc(ws, e, i);
        if !SameSlice(ws[i], e) {
          kept := kept + [ws[i]];
        }
      }
      assert ws[..|ws|] == ws;
      workers := [e] + kept;
      generation := generation + 1;
    }

    method RemoveWorker(fd: nat)
      modifies this
      ensures View() == RemoveFrom(old(View()), fd)
    {
      var i: nat := 0;
      while i < |workers| && workers[i].fd != fd
        invariant i <= |workers| && forall k :: 0 <= k < i ==> workers[k].fd != fd
        modifies {}
      {
        i := i + 1;
      }
      if i < |workers| {
        RemoveAt(workers, fd, i);
        assert HasFd(workers, fd);
        workers := workers[..i] + workers[i + 1..];
        generation := generation + 1;
      }
    }

    method ForgetWorker(w: Worker) returns (removed: bool)
      modifies this`workers
      ensures workers == ForgetOne(old(workers), w) && removed == (|workers| != |old(workers)|)
    {
      var i := 0;
      while i < |workers| && !Names(w, workers[i])
        invariant i <= |workers| && forall k :: 0 <= k < i ==> !Names(w, workers[k])
      {
        i := i + 1;
      }
      ForgetAt(workers, w, i);
      removed := i < |workers|;
      if removed {
        workers := workers[..i] + workers[i + 1..];
      }
    }

    method ForgetRoute(plan: seq<Worker>)
      modifies this
      ensures View() == ForgetFrom(old(View()), plan)
    {
      var removedAny := false;
      ghost var was := workers;
      for i := 0 to |plan|
        invariant Forgotten(workers, plan[i..]) == Forgotten(was, plan) && |workers| <= |was|
        invariant removedAny == (|workers| != |was|) && (!removedAny ==> workers == was)
        invariant generation == old(generation) && shuttingDown == old(shuttingDown)
      {
        assert plan[i..][1..] == plan[i + 1..];
        ForgetOneShorter(workers, plan[i]);
        var removed := ForgetWorker(plan[i]);
        removedAny := removedAny || removed;
      }
      if removedAny {
        generation := generation + 1;
      }
    }
  }

  lemma {:induction false} ForgetOneShorter(ws: seq<Entry>, w: Worker)
    ensures |ForgetOne(ws, w)| <= |ws| && (|ForgetOne(ws, w)| == |ws| ==> ForgetOne(ws, w) == ws)
  {
    if ws != [] && !Names(w, ws[0]) { ForgetOneShorter(ws[1..], w); }
  }

  // ---- The cached route ----------------------------------------------------

  /** Where the session stands: between calls, about to build a route, or replaying over one it has. */
  datatype Pc = Idle(ok: bool) | NeedRoute | Rebuilding | Replaying

  /** `past[g]` are the workers that were registered at generation `g`. */
  datatype World = World(reg: Shared, past: map<nat, seq<Entry>>, pc: Pc, plan: seq<Worker>, planReady: bool, planGeneration: nat)

  datatype Action =
    | Add(entry: Entry)
    | Remove(fd: nat)
    | Shutdown
    /** The session asks for a route: the cached one if the generation is unchanged. */
    | Ensure
    /** The planner's answer, under the lock. */
    | Build(result: Plan)
    /** A call over the route failed; a transport failure forgets the route's workers. */
    | Fail(forget: bool)
    | Replayed(ok: bool)

  function WorkersOf(es: seq<Entry>): (ws: seq<Worker>)
    ensures |ws| == |es|
  {
    if es == [] then [] else [es[0].worker] + WorkersOf(es[1..])
  }

  function LastLayer(l: Local): nat {
    if l.layers > 0 then l.layers - 1 else 0
  }

  /** A complete route over these workers, or none needed. */
  predicate RouteOver(l: Local, es: seq<Entry>, plan: seq<Worker>) {
    if CoversAll(l) then plan == [] else IsRoute(l.canOutputHead, WorkersOf(es), plan, l.end + 1, LastLayer(l))
  }

  /** What the planner promises of its answer. */
  ghost predicate Answers(l: Local, es: seq<Entry>, p: Plan) {
    match p
    case Found(route) => RouteOver(l, es, route)
    case Incomplete(_) => !CoversAll(l) && NoRoute(l.canOutputHead, WorkersOf(es), l.end + 1, LastLayer(l))
    case BadStart => l.start != 0
  }

  predicate LocalOk(l: Local) {
    0 < l.layers && l.end < l.layers
  }

  ghost predicate Enabled(l: Local, w: World, a: Action) {
    && LocalOk(l)
    && match a
       case Ensure => w.pc.Idle?
       case Build(p) => (w.pc.NeedRoute? || w.pc.Rebuilding?) && Answers(l, w.reg.workers, p)
       case Fail(_) => w.pc == Idle(true)
       case Replayed(_) => w.pc.Replaying?
       case Add(e) => RouteBlob.Registered(e.worker, l.layers)
       case _ => true
  }

  /** The registry has changed: the workers of its new generation are on record. */
  function Recorded(w: World, r: Shared): World {
    w.(reg := r, past := w.past[r.generation := r.workers])
  }

  function Built(w: World, route: seq<Worker>): World {
    if w.pc.NeedRoute? then w.(plan := route, planReady := true, planGeneration := w.reg.generation, pc := Idle(true))
    else w.(plan := route, planGeneration := w.reg.generation, pc := Replaying)
  }

  function Next(l: Local, w: World, a: Action): World {
    match a
    case Add(e) => Recorded(w, AddTo(w.reg, e))
    case Remove(fd) => Recorded(w, RemoveFrom(w.reg, fd))
    case Shutdown => w.(reg := w.reg.(shuttingDown := true))
    case Ensure =>
      if w.planReady && w.planGeneration == w.reg.generation then w.(pc := Idle(true))
      else w.(plan := [], pc := NeedRoute)
    case Build(p) =>
      if p.Found? then Built(w, p.route) else w.(plan := [], planReady := false, planGeneration := 0, pc := Idle(false))
    case Fail(forget) =>
      if forget then Recorded(w, ForgetFrom(w.reg, w.plan)).(plan := [], pc := Rebuilding)
      else w.(pc := if w.plan == [] then Rebuilding else Replaying)
    case Replayed(ok) =>
      if ok then w.(planReady := true, pc := Idle(true)) else w.(planReady := false, planGeneration := 0, pc := Idle(false))
  }

  ghost predicate IsRun(l: Local, worlds: seq<World>, actions: seq<Action>) {
    && LocalOk(l) && |worlds| == |actions| + 1
    && worlds[0] == World(Shared([], 0, false), map[0 := []], Idle(false), [], false, 0)
    && forall i :: 0 <= i < |actions| ==> Enabled(l, worlds[i], actions[i]) && worlds[i + 1] == Next(l, worlds[i], actions[i])
  }

  predicate AllRegistered(es: seq<Entry>, n: nat) {
    forall e :: e in es ==> RouteBlob.Registered(e.worker, n)
  }

  /** The plan was complete over the workers registered at its generation. */
  predicate PlanHolds(l: Local, w: World) {
    w.planGeneration <= w.reg.generation && w.planGeneration in w.past && RouteOver(l, w.past[w.planGeneration], w.plan)
  }

  predicate Inv(l: Local, w: World) {
    && Unique(w.reg.workers) && AllRegistered(w.reg.workers, l.layers)
    && w.reg.generation in w.past && w.past[w.reg.generation] == w.reg.workers
    && (forall g :: g in w.past ==> g <= w.reg.generation && AllRegistered(w.past[g], l.layers) && Unique(w.past[g]))
    && (w.pc.Idle? && w.planReady ==> PlanHolds(l, w))
    && (w.pc.Replaying? ==> PlanHolds(l, w))
    && (w.pc == Idle(true) ==> w.planReady)
  }

  lemma RegistryStep(l: Local, s: Shared, a: Action)
    requires Unique(s.workers) && AllRegistered(s.workers, l.layers) && (a.Add? ==> RouteBlob.Registered(a.entry.worker, l.layers))
    ensures Unique(AddTo(s, if a.Add? then a.entry else Entry(0, 0, Worker([], 0, 0, 0, false, false))).workers)
    ensures a.Add? ==> AllRegistered(AddTo(s, a.entry).workers, l.layers)
    ensures forall fd :: Unique(RemoveFrom(s, fd).workers) && AllRegistered(RemoveFrom(s, fd).workers, l.layers)
    ensures forall plan :: Unique(ForgetFrom(s, plan).workers) && AllRegistered(ForgetFrom(s, plan).workers, l.layers)
  {
    AddedUnique(s.workers, if a.Add? then a.entry else Entry(0, 0, Worker([], 0, 0, 0, false, false)));
    if a.Add? { WithoutSub(s.workers, a.entry); }
    forall fd ensures Unique(RemoveFrom(s, fd).workers) && AllRegistered(RemoveFrom(s, fd).workers, l.layers) {
      RemoveSub(s.workers, fd);
      SubUnique(RemoveFd(s.workers, fd), s.workers);
      SubMembers(RemoveFd(s.workers, fd), s.workers);
    }
    forall plan ensures Unique(ForgetFrom(s, plan).workers) && AllRegistered(ForgetFrom(s, plan).workers, l.layers) {
      ForgottenSub(s.workers, plan);
      SubUnique(Forgotten(s.workers, plan), s.workers);
      SubMembers(Forgotten(s.workers, plan), s.workers);
    }
  }

  /** A change of the workers always has a new generation. */
  lemma GenerationBumps(w: World, a: Action, l: Local)
    ensures Next(l, w, a).reg.generation >= w.reg.generation
    ensures Next(l, w, a).reg.workers != w.reg.workers ==> Next(l, w, a).reg.generation > w.reg.generation
  {
  }

  /** A registry step: the new workers go on record under the new generation. */
  lemma RecordedKeepsInv(l: Local, w: World, r: Shared)
    requires Inv(l, w) && Unique(r.workers) && AllRegistered(r.workers, l.layers)
    requires r == w.reg || r.generation > w.reg.generation
    ensures Inv(l, Recorded(w, r))
  {
  }

  lemma SessionKeepsInv(l: Local, w: World, a: Action)
    requires Inv(l, w) && Enabled(l, w, a) && !a.Add? && !a.Remove? && !(a.Fail? && a.forget)
    ensures Inv(l, Next(l, w, a))
  {
  }

  lemma NextKeepsInv(l: Local, w: World, a: Action)
    requires Inv(l, w) && Enabled(l, w, a)
    ensures Inv(l, Next(l, w, a))
  {
    RegistryStep(l, w.reg, a);
    match a {
      case Add(e) => RecordedKeepsInv(l, w, AddTo(w.reg, e));
      case Remove(fd) => RecordedKeepsInv(l, w, RemoveFrom(w.reg, fd));
      case Fail(forget) =>
        if forget { RecordedKeepsInv(l, w, ForgetFrom(w.reg, w.plan)); } else { SessionKeepsInv(l, w, a); }
      case _ => SessionKeepsInv(l, w, a);
    }
  }

  lemma {:induction false} RunInv(l: Local, worlds: seq<World>, actions: seq<Action>, i: nat)
    requires IsRun(l, worlds, actions) && i < |worlds|
    ensures Inv(l, worlds[i])
  {
    if i > 0 {
      RunInv(l, worlds, actions, i - 1);
      NextKeepsInv(l, worlds[i - 1], actions[i - 1]);
    }
  }

  lemma {:induction false} MembersOf(es: seq<Entry>, w: Worker)
    requires w in WorkersOf(es)
    ensures exists e :: e in es && e.worker == w
  {
    if es[0].worker != w {
      MembersOf(es[1..], w);
      var e :| e in es[1..] && e.worker == w;
      assert e in es;
    }
  }

  /** Main result. In every run the plan a session keeps is a complete route over the workers that
      were registered at its generation, those being the current ones while the generation stands;
      its payload is one every worker accepts; and no two registered workers are the same slice. */
  lemma CachedRouteAgrees(l: Local, worlds: seq<World>, actions: seq<Action>, i: nat)
    requires IsRun(l, worlds, actions) && i < |worlds|
    ensures Unique(worlds[i].reg.workers)
    ensures worlds[i].pc == Idle(true) || worlds[i].pc.Replaying? ==>
              PlanHolds(l, worlds[i])
              && (worlds[i].planGeneration == worlds[i].reg.generation ==> RouteOver(l, worlds[i].reg.workers, worlds[i].plan))
              && RouteBlob.RouteOk(RouteBlob.EntriesOf(worlds[i].plan), l.layers)
  {
    RunInv(l, worlds, actions, i);
    var w := worlds[i];
    if (w.pc == Idle(true) || w.pc.Replaying?) && w.plan != [] {
      var es := w.past[w.planGeneration];
      forall x | x in WorkersOf(es) ensures RouteBlob.Registered(x, l.layers) {
        MembersOf(es, x);
      }
      RouteBlob.PlannedRouteOk(l.canOutputHead, WorkersOf(es), w.plan, l.end + 1, l.layers);
    }
  }

  /** A request for a route that succeeds at once, or by building, has one over the current workers. */
  lemma EnsuredRouteCurrent(l: Local, worlds: seq<World>, actions: seq<Action>, i: nat)
    requires IsRun(l, worlds, actions) && i < |actions| && worlds[i + 1].pc == Idle(true)
    requires actions[i].Ensure? || (actions[i].Build? && worlds[i].pc.NeedRoute?)
    ensures worlds[i + 1].planGeneration == worlds[i + 1].reg.generation
    ensures RouteOver(l, worlds[i + 1].reg.workers, worlds[i + 1].plan)
  {
    RunInv(l, worlds, actions, i + 1);
  }
}
