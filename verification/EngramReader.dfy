/** The reusable token reader: worker threads that share one job, a generation counter that
    releases them, and per-table completion counters that release the caller. */
module EngramReader {
  import opened Wrappers
  import opened Division

  const COLS: nat := 24
  const TABLES: nat := 2
  const EINVAL: int := 22

  /** A table row as the reader writes it. */
  type Value = int

  /** `tables` are the rows of the two tables that decode; `rows` how many each table has. */
  datatype Job = Job(tables: seq<map<nat, Value>>, ids: seq<seq<nat>>, rows: seq<nat>)

  function ReadRow(j: Job, t: nat, c: nat): Option<Value>
    requires JobOk(j) && t < TABLES && c < COLS
  {
    if j.ids[t][c] in j.tables[t] then Some(j.tables[t][j.ids[t][c]]) else None
  }

  /** The fields under the mutex. */
  datatype Shared = Shared(active: bool, shutdown: bool, generation: nat, completed: seq<nat>, errors: seq<int>, job: Job)

  predicate JobOk(j: Job) {
    && |j.tables| == |j.ids| == |j.rows| == TABLES
    && forall t :: 0 <= t < TABLES ==> |j.ids[t]| == COLS && forall c :: 0 <= c < COLS ==> j.ids[t][c] < j.rows[t]
  }

  // ---- Critical sections ---------------------------------------------------

  predicate MayStart(s: Shared, j: Job) {
    JobOk(j) && !s.active && !s.shutdown
  }

  function Start(s: Shared, j: Job): Shared {
    Shared(true, s.shutdown, s.generation + 1, [0, 0], [0, 0], j)
  }

  /** A worker reports a table: the first error stays, the last worker of the second table ends the job. */
  function Report(s: Shared, readers: nat, table: nat, error: int): Shared
    requires |s.completed| == |s.errors| == TABLES && table < TABLES
  {
    var n := s.completed[table] + 1;
    s.(errors := if s.errors[table] == 0 then s.errors[table := error] else s.errors,
       completed := s.completed[table := n], active := s.active && !(n == readers && table == 1))
  }

  datatype Check = Sleep | Leave | Enter

  function CheckWork(s: Shared, seen: nat): Check {
    if s.shutdown then Leave else if s.generation == seen then Sleep else Enter
  }

  datatype WaitResult = MustWait | Returns(error: int)

  function CheckDone(s: Shared, readers: nat, table: nat, first: bool): WaitResult
    requires |s.completed| == |s.errors| == TABLES
  {
    if table >= TABLES || (first && !s.active && s.completed[1] == 0) then Returns(EINVAL)
    else if s.completed[table] < readers then MustWait else Returns(s.errors[table])
  }

  class Reader {
    const readers: nat
    var active: bool
    var shutdown: bool
    var generation: nat
    const completed: array<nat>
    const errors: array<int>
    var job: Job

    function View(): Shared
      reads this, completed, errors
    {
      Shared(active, shutdown, generation, completed[..], errors[..], job)
    }

    predicate Valid() {
      completed.Length == errors.Length == TABLES
    }

    constructor (readers: nat, j: Job)
      ensures Valid() && this.readers == readers && fresh(completed) && fresh(errors)
      ensures View() == Shared(false, false, 0, [0, 0], [0, 0], j)
    {
      this.readers := readers;
      active, shutdown, generation, job := false, false, 0, j;
      completed := new nat[TABLES](_ => 0);
      errors := new int[TABLES](_ => 0);
      new;
      assert completed[..] == [0, 0] && errors[..] == [0, 0];
    }

    method StartJob(j: Job) returns (ok: bool)
      requires Valid() && |j.tables| == |j.ids| == |j.rows| == TABLES && forall t :: 0 <= t < TABLES ==> |j.ids[t]| == COLS
      modifies this, completed, errors
      ensures ok == MayStart(old(View()), j)
      ensures View() == if ok then Start(old(View()), j) else old(View())
    {
      for t := 0 to TABLES
        invariant forall u :: 0 <= u < t ==> forall c :: 0 <= c < COLS ==> j.ids[u][c] < j.rows[u]
      {
        for c := 0 to COLS
          invariant forall d :: 0 <= d < c ==> j.ids[t][d] < j.rows[t]
        {
          if j.ids[t][c] >= j.rows[t] {
            return false;
          }
        }
      }
      if active || shutdown {
        return false;
      }
      job := j;
      errors[0], errors[1] := 0, 0;
      completed[0], completed[1] := 0, 0;
      generation := generation + 1;
      active := true;
      assert completed[..] == [0, 0] && errors[..] == [0, 0];
      return true;
    }

    method ReportTable(table: nat, error: int)
      requires Valid() && table < TABLES
      modifies this, completed, errors
      ensures View() == Report(old(View()), readers, table, error)
    {
      if errors[table] == 0 {
        errors[table] := error;
      }
      completed[table] := completed[table] + 1;
      if completed[table] == readers && table == 1 {
        active := false;
      }
    }

    /** One pass of a worker's wait loop; it remembers the generation it enters. */
    method AwaitWork(seen: nat) returns (r: Check, now: nat)
      ensures r == CheckWork(View(), seen) && now == if r.Enter? then generation else seen
    {
      if generation == seen && !shutdown {
        return Sleep, seen;
      }
      if shutdown {
        return Leave, seen;
      }
      return Enter, generation;
    }

    /** One pass of the caller's wait; `first` is the check before the loop. */
    method AwaitTable(table: nat, first: bool) returns (r: WaitResult)
      requires Valid()
      ensures r == CheckDone(View(), readers, table, first)
    {
      if table >= TABLES || (first && !active && completed[1] == 0) {
        return Returns(EINVAL);
      }
      if completed[table] < readers {
        return MustWait;
      }
      return Returns(errors[table]);
    }

    method Shutdown()
      modifies this
      ensures View() == old(View()).(shutdown := true)
    {
      shutdown := true;
    }
  }

  // ---- The protocol --------------------------------------------------------

  datatype Pc =
    | AtCheck | Asleep
    /** Outside the lock, about to read column `col` of `table`. */
    | Reading(table: nat, col: nat)
    | Reporting(table: nat, error: int)
    | Exited

  datatype Worker = Worker(seen: nat, pc: Pc)

  datatype Caller = Idle | CallerAsleep(table: nat) | AtRecheck(table: nat) | Returned(table: nat, error: int)

  datatype State = State(s: Shared, workers: seq<Worker>, out: seq<seq<Value>>, caller: Caller)

  datatype Action =
    | StartJob(job: Job, out: seq<seq<Value>>)
    | Wait(table: nat)
    | Recheck
    | Free
    /** A worker's step; `error` is what its read or `errno` brings, zero for success. */
    | Work(worker: nat, error: int)
    | Spurious(worker: nat)
    | SpuriousCaller

  function First(readers: nat, w: nat): nat
    requires 0 < readers
  {
    Share(COLS, readers, w)
  }

  function WakeWorkers(ws: seq<Worker>): (r: seq<Worker>)
    ensures |r| == |ws|
  {
    seq(|ws|, i requires 0 <= i < |ws| => if ws[i].pc.Asleep? then ws[i].(pc := AtCheck) else ws[i])
  }

  function WakeCaller(c: Caller): Caller {
    if c.CallerAsleep? then AtRecheck(c.table) else c
  }

  predicate Shaped(readers: nat, s: State) {
    && 0 < readers == |s.workers| && |s.s.completed| == |s.s.errors| == TABLES
    && |s.out| == TABLES && (forall t :: 0 <= t < TABLES ==> |s.out[t]| == COLS) && JobOk(s.s.job)
    && (forall w :: 0 <= w < readers ==> PcShaped(readers, w, s.workers[w].pc))
  }

  predicate PcShaped(readers: nat, w: nat, pc: Pc)
    requires 0 < readers
  {
    match pc
    case Reading(t, c) => t < TABLES && First(readers, w) <= c <= First(readers, w + 1) <= COLS
    case Reporting(t, _) => t < TABLES
    case _ => true
  }

  /** The caller owns the reader: it does one thing at a time. */
  predicate CallerFree(s: State) {
    s.caller.Idle? || s.caller.Returned?
  }

  predicate Enabled(readers: nat, s: State, a: Action) {
    && Shaped(readers, s)
    && match a
       case StartJob(j, out) => CallerFree(s) && MayStart(s.s, j) && |out| == TABLES && forall t :: 0 <= t < TABLES ==> |out[t]| == COLS
       case Wait(_) => CallerFree(s) && !s.s.shutdown
       case Recheck => s.caller.AtRecheck?
       case Free => CallerFree(s)
       case Work(w, e) => w < readers && !s.workers[w].pc.Asleep? && !s.workers[w].pc.Exited?
       case Spurious(w) => w < readers && s.workers[w].pc.Asleep?
       case SpuriousCaller => s.caller.CallerAsleep?
  }

  function AfterWait(readers: nat, s: State, table: nat, first: bool): State
    requires Shaped(readers, s)
  {
    match CheckDone(s.s, readers, table, first)
    case MustWait => s.(caller := CallerAsleep(table))
    case Returns(e) => s.(caller := Returned(table, e))
  }

  function WorkNext(readers: nat, s: State, w: nat, error: int): State
    requires Shaped(readers, s) && w < readers
  {
    var me := s.workers[w];
    match me.pc
    case AtCheck =>
      (match CheckWork(s.s, me.seen)
       case Sleep => s.(workers := s.workers[w := me.(pc := Asleep)])
       case Leave => s.(workers := s.workers[w := me.(pc := Exited)])
       case Enter => s.(workers := s.workers[w := Worker(s.s.generation, Reading(0, First(readers, w)))]))
    case Reading(t, c) =>
      if c == First(readers, w + 1) then s.(workers := s.workers[w := me.(pc := Reporting(t, 0))])
      else
        var v := ReadRow(s.s.job, t, c);
        if error != 0 || v.None? then s.(workers := s.workers[w := me.(pc := Reporting(t, if error != 0 then error else EINVAL))])
        else s.(workers := s.workers[w := me.(pc := Reading(t, c + 1))], out := s.out[t := s.out[t][c := v.value]])
    case Reporting(t, e) =>
      var last := s.s.completed[t] + 1 == readers;
      State(Report(s.s, readers, t, e),
            s.workers[w := me.(pc := if t == 0 then Reading(1, First(readers, w)) else AtCheck)],
            s.out, if last then WakeCaller(s.caller) else s.caller)
    case _ => s
  }

  function Next(readers: nat, s: State, a: Action): State
    requires Enabled(readers, s, a)
  {
    match a
    case StartJob(j, out) => State(Start(s.s, j), WakeWorkers(s.workers), out, Idle)
    case Wait(t) => AfterWait(readers, s, t, true)
    case Recheck => AfterWait(readers, s, s.caller.table, false)
    case Free => s.(s := s.s.(shutdown := true), workers := WakeWorkers(s.workers))
    case Work(w, e) => WorkNext(readers, s, w, e)
    case Spurious(w) => s.(workers := s.workers[w := s.workers[w].(pc := AtCheck)])
    case SpuriousCaller => s.(caller := WakeCaller(s.caller))
  }

  predicate Initial(readers: nat, s: State) {
    && Shaped(readers, s) && s.caller.Idle?
    && s.s == Shared(false, false, 0, [0, 0], [0, 0], s.s.job)
    && forall w :: 0 <= w < readers ==> s.workers[w] == Worker(0, AtCheck)
  }

  ghost predicate IsRun(readers: nat, states: seq<State>, actions: seq<Action>) {
    && 0 < readers <= COLS && |states| == |actions| + 1 && Initial(readers, states[0])
    && forall i :: 0 <= i < |actions| ==> Enabled(readers, states[i], actions[i]) && states[i + 1] == Next(readers, states[i], actions[i])
  }

  // ---- What every run keeps ------------------------------------------------

  /** Worker `w` has reported table `t` of generation `g`. */
  predicate Done(x: Worker, g: nat, t: nat) {
    x.seen == g && (x.pc.AtCheck? || x.pc.Asleep? || x.pc.Exited? || (t == 0 && Table(x.pc) == 1))
  }

  function Table(pc: Pc): nat {
    match pc
    case Reading(t, _) => t
    case Reporting(t, _) => t
    case _ => 0
  }

  predicate Busy(pc: Pc) { pc.Reading? || pc.Reporting? }

  function CountDone(ws: seq<Worker>, g: nat, t: nat): (n: nat)
    ensures n <= |ws|
  {
    if ws == [] then 0 else CountDone(ws[..|ws| - 1], g, t) + if Done(ws[|ws| - 1], g, t) then 1 else 0
  }

  /** Column `c` of table `t` holds the row the job asks for. */
  predicate Written(j: Job, out: seq<seq<Value>>, t: nat, c: nat)
    requires JobOk(j) && t < TABLES && c < COLS && |out| == TABLES && |out[t]| == COLS
  {
    ReadRow(j, t, c) == Some(out[t][c])
  }

  predicate AllWritten(j: Job, out: seq<seq<Value>>, t: nat, lo: nat, hi: nat)
    requires JobOk(j) && t < TABLES && hi <= COLS && |out| == TABLES && |out[t]| == COLS
  {
    forall c: nat :: lo <= c < hi ==> Written(j, out, t, c)
  }

  /** What worker `w` has written of table `t`, or why not. */
  predicate PartHolds(readers: nat, s: State, w: nat, t: nat)
    requires Shaped(readers, s) && w < readers <= COLS && t < TABLES
  {
    var x := s.workers[w];
    var hi := First(readers, w + 1);
    && hi <= COLS
    && (x.seen == s.s.generation && x.pc.Reading? && x.pc.table == t ==> AllWritten(s.s.job, s.out, t, First(readers, w), x.pc.col))
    && (x.seen == s.s.generation && x.pc.Reporting? && x.pc.table == t && x.pc.error == 0 ==> AllWritten(s.s.job, s.out, t, First(readers, w), hi))
    && (s.s.generation > 0 && Done(x, s.s.generation, t) && s.s.errors[t] == 0 ==> AllWritten(s.s.job, s.out, t, First(readers, w), hi))
  }

  predicate WorkerHolds(s: State, x: Worker) {
    && x.seen <= s.s.generation <= x.seen + 1
    && (Busy(x.pc) ==> s.s.active && x.seen == s.s.generation)
    && (x.pc.Asleep? ==> x.seen == s.s.generation && !s.s.shutdown)
    && (x.pc.Exited? ==> s.s.shutdown)
    && (x.seen < s.s.generation ==> s.s.active)
  }

  predicate CallerHolds(readers: nat, s: State)
    requires Shaped(readers, s) && readers <= COLS
  {
    match s.caller
    case Idle => true
    case CallerAsleep(t) => !s.s.shutdown && t < TABLES && s.s.generation > 0 && s.s.completed[t] < readers
    case AtRecheck(t) => !s.s.shutdown && t < TABLES && s.s.generation > 0
    case Returned(t, e) => e == 0 ==> t < TABLES && s.s.generation > 0 && s.s.completed[t] == readers && s.s.errors[t] == 0
  }

  predicate Inv(readers: nat, s: State) {
    && readers <= COLS && Shaped(readers, s)
    && (forall w :: 0 <= w < readers ==> WorkerHolds(s, s.workers[w]))
    && (forall w: nat, t: nat :: w < readers && t < TABLES ==> PartHolds(readers, s, w, t))
    && (forall t: nat :: t < TABLES ==> CounterHolds(readers, s, t))
    && (s.s.active <==> s.s.generation > 0 && s.s.completed[1] < readers)
    && CallerHolds(readers, s)
  }

  /** The counter is the number of workers done with the table in this generation. */
  predicate CounterHolds(readers: nat, s: State, t: nat)
    requires Shaped(readers, s) && t < TABLES
  {
    s.s.completed[t] == if s.s.generation == 0 then 0 else CountDone(s.workers, s.s.generation, t)
  }

  // ---- Counting ------------------------------------------------------------

  lemma {:induction false} CountUpdate(ws: seq<Worker>, w: nat, x: Worker, g: nat, t: nat)
    requires w < |ws|
    ensures CountDone(ws[w := x], g, t)
         == CountDone(ws, g, t) - (if Done(ws[w], g, t) then 1 else 0) + (if Done(x, g, t) then 1 else 0)
  {
    var k := |ws| - 1;
    if w == k {
      assert ws[w := x][..k] == ws[..k];
    } else {
      assert ws[w := x][..k] == ws[..k][w := x];
      CountUpdate(ws[..k], w, x, g, t);
    }
  }

  lemma {:induction false} CountAll(ws: seq<Worker>, g: nat, t: nat)
    ensures CountDone(ws, g, t) == |ws| <==> forall w :: 0 <= w < |ws| ==> Done(ws[w], g, t)
  {
    if ws != [] {
      var k := |ws| - 1;
      CountAll(ws[..k], g, t);
      if CountDone(ws, g, t) == |ws| {
        forall w | 0 <= w < |ws| ensures Done(ws[w], g, t) {
          if w < k { assert ws[..k][w] == ws[w]; }
        }
      }
    }
  }

  lemma {:induction false} CountNone(ws: seq<Worker>, g: nat, t: nat)
    requires forall w :: 0 <= w < |ws| ==> ws[w].seen != g
    ensures CountDone(ws, g, t) == 0
  {
    if ws != [] {
      var k := |ws| - 1;
      forall w | 0 <= w < k ensures ws[..k][w].seen != g {
        assert ws[..k][w] == ws[w];
      }
      CountNone(ws[..k], g, t);
    }
  }

  lemma {:induction false} CountSame(a: seq<Worker>, b: seq<Worker>, g: nat, t: nat)
    requires |a| == |b| && forall w :: 0 <= w < |a| ==> Done(a[w], g, t) == Done(b[w], g, t)
    ensures CountDone(a, g, t) == CountDone(b, g, t)
  {
    if a != [] {
      var k := |a| - 1;
      forall w | 0 <= w < k ensures Done(a[..k][w], g, t) == Done(b[..k][w], g, t) {
        assert a[..k][w] == a[w] && b[..k][w] == b[w];
      }
      CountSame(a[..k], b[..k], g, t);
    }
  }

  // ---- The columns ---------------------------------------------------------

  lemma FirstBounds(readers: nat, w: nat)
    requires 0 < readers && w < readers
    ensures First(readers, w) <= First(readers, w + 1) <= COLS
  {
    ShareMono(COLS, readers, w, w + 1);
  }

  // ---- Every step keeps the invariant --------------------------------------

  /** A finished job leaves no worker inside it or behind it. */
  lemma Quiet(readers: nat, s: State)
    requires Inv(readers, s) && !s.s.active
    ensures forall w :: 0 <= w < readers ==> !Busy(s.workers[w].pc) && s.workers[w].seen == s.s.generation
  {
    forall w | 0 <= w < readers ensures !Busy(s.workers[w].pc) && s.workers[w].seen == s.s.generation {
      assert WorkerHolds(s, s.workers[w]);
    }
  }

  lemma StartKeepsInv(readers: nat, s: State, j: Job, out: seq<seq<Value>>)
    requires Inv(readers, s) && Enabled(readers, s, StartJob(j, out))
    ensures Inv(readers, Next(readers, s, StartJob(j, out)))
  {
    var n := Next(readers, s, StartJob(j, out));
    Quiet(readers, s);
    CountNone(n.workers, n.s.generation, 0);
    CountNone(n.workers, n.s.generation, 1);
    forall w | 0 <= w < readers ensures WorkerHolds(n, n.workers[w]) {
      assert WorkerHolds(s, s.workers[w]);
    }
    forall w: nat, t: nat | w < readers && t < TABLES ensures PartHolds(readers, n, w, t) {
      assert PartHolds(readers, s, w, t);
    }
    forall t: nat | t < TABLES ensures CounterHolds(readers, n, t) {
    }
  }

  /** A worker moves without reporting and without changing its part. */
  lemma MoveKeepsInv(readers: nat, s: State, w: nat, x: Worker)
    requires Inv(readers, s) && w < readers && PcShaped(readers, w, x.pc)
    requires WorkerHolds(s, x) && PartHolds(readers, s.(workers := s.workers[w := x]), w, 0)
    requires PartHolds(readers, s.(workers := s.workers[w := x]), w, 1)
    requires s.s.generation > 0 ==> forall t: nat :: t < TABLES ==> Done(x, s.s.generation, t) == Done(s.workers[w], s.s.generation, t)
    ensures Inv(readers, s.(workers := s.workers[w := x]))
  {
    var n := s.(workers := s.workers[w := x]);
    forall v | 0 <= v < readers ensures WorkerHolds(n, n.workers[v]) {
      assert WorkerHolds(s, s.workers[v]);
    }
    forall v: nat, t: nat | v < readers && t < TABLES ensures PartHolds(readers, n, v, t) {
      assert PartHolds(readers, s, v, t);
    }
    forall t: nat | t < TABLES ensures CounterHolds(readers, n, t) {
      assert CounterHolds(readers, s, t);
      CountUpdate(s.workers, w, x, s.s.generation, t);
    }
  }

  lemma CheckKeepsInv(readers: nat, s: State, w: nat, error: int)
    requires Inv(readers, s) && w < readers && s.workers[w].pc.AtCheck?
    ensures Inv(readers, WorkNext(readers, s, w, error))
  {
    assert WorkerHolds(s, s.workers[w]);
    assert PartHolds(readers, s, w, 0) && PartHolds(readers, s, w, 1);
    FirstBounds(readers, w);
    MoveKeepsInv(readers, s, w, WorkNext(readers, s, w, error).workers[w]);
  }

  lemma {:induction false} WriteKeeps(j: Job, out: seq<seq<Value>>, t: nat, c: nat, v: Value, u: nat, lo: nat, hi: nat)
    requires JobOk(j) && t < TABLES && c < COLS && u < TABLES && hi <= COLS && |out| == TABLES
    requires |out[0]| == COLS && |out[1]| == COLS && ReadRow(j, t, c) == Some(v) && AllWritten(j, out, u, lo, hi)
    ensures AllWritten(j, out[t := out[t][c := v]], u, lo, hi)
  {
    var after := out[t := out[t][c := v]];
    forall d: nat | lo <= d < hi ensures Written(j, after, u, d) {
      assert Written(j, out, u, d);
    }
  }

  /** Writing one right value leaves every part as it was. */
  lemma PartWritten(readers: nat, s: State, n: State, t: nat, c: nat, v: Value, w: nat, u: nat)
    requires Shaped(readers, s) && Shaped(readers, n) && w < readers <= COLS && u < TABLES && t < TABLES && c < COLS
    requires ReadRow(s.s.job, t, c) == Some(v) && n == s.(out := s.out[t := s.out[t][c := v]])
    requires PartHolds(readers, s, w, u)
    ensures PartHolds(readers, n, w, u)
  {
    var hi := First(readers, w + 1);
    if AllWritten(s.s.job, s.out, u, First(readers, w), hi) {
      WriteKeeps(s.s.job, s.out, t, c, v, u, First(readers, w), hi);
    }
    var x := s.workers[w];
    if x.pc.Reading? && AllWritten(s.s.job, s.out, u, First(readers, w), x.pc.col) {
      WriteKeeps(s.s.job, s.out, t, c, v, u, First(readers, w), x.pc.col);
    }
  }

  lemma WriteOutKeepsInv(readers: nat, s: State, t: nat, c: nat, v: Value)
    requires Inv(readers, s) && t < TABLES && c < COLS && ReadRow(s.s.job, t, c) == Some(v)
    ensures Inv(readers, s.(out := s.out[t := s.out[t][c := v]]))
  {
    var n := s.(out := s.out[t := s.out[t][c := v]]);
    forall w | 0 <= w < readers ensures WorkerHolds(n, n.workers[w]) {
      assert WorkerHolds(s, s.workers[w]);
    }
    forall w: nat, u: nat | w < readers && u < TABLES ensures PartHolds(readers, n, w, u) {
      PartWritten(readers, s, n, t, c, v, w, u);
    }
    forall u: nat | u < TABLES ensures CounterHolds(readers, n, u) {
      assert CounterHolds(readers, s, u);
    }
  }

  lemma ReadKeepsInv(readers: nat, s: State, w: nat, error: int)
    requires Inv(readers, s) && w < readers && s.workers[w].pc.Reading?
    ensures Inv(readers, WorkNext(readers, s, w, error))
  {
    var x := s.workers[w];
    var t, c := x.pc.table, x.pc.col;
    assert WorkerHolds(s, x) && PcShaped(readers, w, x.pc);
    assert PartHolds(readers, s, w, 0) && PartHolds(readers, s, w, 1);
    var n := WorkNext(readers, s, w, error);
    if c < First(readers, w + 1) && error == 0 && ReadRow(s.s.job, t, c).Some? {
      var v := ReadRow(s.s.job, t, c).value;
      WriteOutKeepsInv(readers, s, t, c, v);
      var m := s.(out := s.out[t := s.out[t][c := v]]);
      assert WorkerHolds(m, x);
      assert PartHolds(readers, m, w, 0) && PartHolds(readers, m, w, 1);
      MoveKeepsInv(readers, m, w, n.workers[w]);
    } else {
      MoveKeepsInv(readers, s, w, n.workers[w]);
    }
  }

  lemma ReportCounts(readers: nat, s: State, w: nat, x: Worker, t: nat)
    requires Inv(readers, s) && w < readers && s.workers[w].pc.Reporting? && s.workers[w].pc.table == t < TABLES
    requires x == s.workers[w].(pc := if t == 0 then Reading(1, First(readers, w)) else AtCheck)
    ensures s.s.generation > 0 && s.s.completed[t] < readers
    ensures CountDone(s.workers[w := x], s.s.generation, t) == s.s.completed[t] + 1
    ensures CountDone(s.workers[w := x], s.s.generation, 1 - t) == s.s.completed[1 - t]
  {
    assert WorkerHolds(s, s.workers[w]);
    assert CounterHolds(readers, s, 0) && CounterHolds(readers, s, 1);
    CountUpdate(s.workers, w, x, s.s.generation, 0);
    CountUpdate(s.workers, w, x, s.s.generation, 1);
  }

  lemma ReportKeepsParts(readers: nat, s: State, w: nat, error: int, v: nat, u: nat)
    requires Inv(readers, s) && w < readers && s.workers[w].pc.Reporting? && v < readers && u < TABLES
    requires Shaped(readers, WorkNext(readers, s, w, error))
    ensures PartHolds(readers, WorkNext(readers, s, w, error), v, u)
  {
    assert PartHolds(readers, s, v, u);
    assert WorkerHolds(s, s.workers[w]);
  }

  lemma ReportKeepsWorkers(readers: nat, s: State, w: nat, error: int)
    requires Inv(readers, s) && w < readers && s.workers[w].pc.Reporting?
    ensures forall v :: 0 <= v < readers ==> WorkerHolds(WorkNext(readers, s, w, error), WorkNext(readers, s, w, error).workers[v])
  {
    var n, t := WorkNext(readers, s, w, error), s.workers[w].pc.table;
    ReportCounts(readers, s, w, n.workers[w], t);
    CountAll(n.workers, n.s.generation, 1);
    assert WorkerHolds(s, s.workers[w]);
    forall v | 0 <= v < readers ensures WorkerHolds(n, n.workers[v]) {
      assert WorkerHolds(s, s.workers[v]);
    }
  }

  lemma ReportKeepsInv(readers: nat, s: State, w: nat, error: int)
    requires Inv(readers, s) && w < readers && s.workers[w].pc.Reporting?
    ensures Inv(readers, WorkNext(readers, s, w, error))
  {
    hide PartHolds, CountDone, WorkerHolds;
    var n, t := WorkNext(readers, s, w, error), s.workers[w].pc.table;
    assert PcShaped(readers, w, s.workers[w].pc);
    ReportCounts(readers, s, w, n.workers[w], t);
    FirstBounds(readers, w);
    ReportKeepsWorkers(readers, s, w, error);
    forall u: nat | u < TABLES ensures CounterHolds(readers, n, u) {
      assert u == t || u == 1 - t;
    }
    forall v: nat, u: nat | v < readers && u < TABLES ensures PartHolds(readers, n, v, u) {
      ReportKeepsParts(readers, s, w, error, v, u);
    }
  }

  lemma WakeKeepsInv(readers: nat, s: State)
    requires Inv(readers, s) && CallerFree(s)
    ensures Inv(readers, Next(readers, s, Free))
  {
    var n := Next(readers, s, Free);
    CountSame(s.workers, n.workers, s.s.generation, 0);
    CountSame(s.workers, n.workers, s.s.generation, 1);
    forall t: nat | t < TABLES ensures CounterHolds(readers, n, t) {
      assert CounterHolds(readers, s, t);
    }
    forall w: nat, t: nat | w < readers && t < TABLES ensures PartHolds(readers, n, w, t) {
      assert PartHolds(readers, s, w, t);
    }
    forall w | 0 <= w < readers ensures WorkerHolds(n, n.workers[w]) {
      assert WorkerHolds(s, s.workers[w]);
    }
  }

  lemma CallerKeepsInv(readers: nat, s: State, c: Caller)
    requires Inv(readers, s) && CallerHolds(readers, s.(caller := c))
    ensures Inv(readers, s.(caller := c))
  {
    var n := s.(caller := c);
    forall w: nat, t: nat | w < readers && t < TABLES ensures PartHolds(readers, n, w, t) {
      assert PartHolds(readers, s, w, t);
    }
    forall w | 0 <= w < readers ensures WorkerHolds(n, n.workers[w]) {
      assert WorkerHolds(s, s.workers[w]);
    }
    forall t: nat | t < TABLES ensures CounterHolds(readers, n, t) {
      assert CounterHolds(readers, s, t);
    }
  }

  lemma WaitKeepsInv(readers: nat, s: State, a: Action)
    requires Inv(readers, s) && Enabled(readers, s, a) && (a.Wait? || a.Recheck? || a.SpuriousCaller?)
    ensures Inv(readers, Next(readers, s, a))
  {
    forall t: nat | t < TABLES ensures s.s.completed[t] <= readers {
      assert CounterHolds(readers, s, t);
    }
    assert CounterHolds(readers, s, 1);
    CallerKeepsInv(readers, s, Next(readers, s, a).caller);
  }

  lemma NextKeepsInv(readers: nat, s: State, a: Action)
    requires Inv(readers, s) && Enabled(readers, s, a)
    ensures Inv(readers, Next(readers, s, a))
  {
    match a {
      case StartJob(j, out) => StartKeepsInv(readers, s, j, out);
      case Free => WakeKeepsInv(readers, s);
      case Work(w, e) =>
        match s.workers[w].pc {
          case AtCheck => CheckKeepsInv(readers, s, w, e);
          case Reading(_, _) => ReadKeepsInv(readers, s, w, e);
          case Reporting(_, _) => ReportKeepsInv(readers, s, w, e);
        }
      case Spurious(w) =>
        assert WorkerHolds(s, s.workers[w]);
        assert PartHolds(readers, s, w, 0) && PartHolds(readers, s, w, 1);
        MoveKeepsInv(readers, s, w, s.workers[w].(pc := AtCheck));
      case _ => WaitKeepsInv(readers, s, a);
    }
  }

  lemma InitialInv(readers: nat, s: State)
    requires 0 < readers <= COLS && Initial(readers, s)
    ensures Inv(readers, s)
  {
    forall w: nat, t: nat | w < readers && t < TABLES ensures PartHolds(readers, s, w, t) {
      FirstBounds(readers, w);
    }
  }

  lemma {:induction false} RunInv(readers: nat, states: seq<State>, actions: seq<Action>, i: nat)
    requires IsRun(readers, states, actions) && i < |states|
    ensures Inv(readers, states[i])
  {
    if i == 0 {
      InitialInv(readers, states[0]);
    } else {
      RunInv(readers, states, actions, i - 1);
      NextKeepsInv(readers, states[i - 1], actions[i - 1]);
    }
  }

  // ---- Main results --------------------------------------------------------

  /** In every run the counters count exactly the workers done with each table. */
  lemma CountersExact(readers: nat, states: seq<State>, actions: seq<Action>, i: nat, t: nat)
    requires IsRun(readers, states, actions) && i < |states| && t < TABLES && states[i].s.generation > 0
    ensures |states[i].s.completed| == TABLES
    ensures states[i].s.completed[t] == CountDone(states[i].workers, states[i].s.generation, t)
  {
    RunInv(readers, states, actions, i);
    assert CounterHolds(readers, states[i], t);
  }

  /** No worker misses or repeats a generation: what it has seen only ever moves on by one, to the current one. */
  lemma GenerationsInTurn(readers: nat, states: seq<State>, actions: seq<Action>, i: nat, w: nat)
    requires IsRun(readers, states, actions) && i < |actions| && w < readers
    ensures |states[i].workers| == |states[i + 1].workers| == readers
    ensures var before, after := states[i].workers[w].seen, states[i + 1].workers[w].seen;
            after == before || (after == before + 1 == states[i].s.generation && states[i + 1].workers[w].pc == Reading(0, First(readers, w)))
  {
    RunInv(readers, states, actions, i);
    RunInv(readers, states, actions, i + 1);
    assert WorkerHolds(states[i], states[i].workers[w]);
  }

  /** The job and its output buffer are replaced only while no worker is inside the job. */
  lemma JobStable(readers: nat, states: seq<State>, actions: seq<Action>, i: nat, w: nat)
    requires IsRun(readers, states, actions) && i < |actions| && w < |states[i].workers| && Busy(states[i].workers[w].pc)
    ensures !actions[i].StartJob? && states[i + 1].s.job == states[i].s.job
  {
    RunInv(readers, states, actions, i);
    assert WorkerHolds(states[i], states[i].workers[w]);
  }

  lemma AllDoneWritten(readers: nat, s: State, t: nat, c: nat)
    requires Inv(readers, s) && t < TABLES && c < COLS && s.s.generation > 0 && s.s.completed[t] == readers && s.s.errors[t] == 0
    ensures Written(s.s.job, s.out, t, c)
  {
    ShareMono(COLS, readers, 0, 0);
    var w := ShareOwner(COLS, readers, c, readers);
    assert CounterHolds(readers, s, t) && PartHolds(readers, s, w, t);
    CountAll(s.workers, s.s.generation, t);
  }

  /** A wait that reports success does so only when every column of the table holds its row. */
  lemma WaitComplete(readers: nat, states: seq<State>, actions: seq<Action>, i: nat)
    requires IsRun(readers, states, actions) && i < |states| && states[i].caller.Returned? && states[i].caller.error == 0
    ensures Shaped(readers, states[i]) && states[i].caller.table < TABLES
    ensures AllWritten(states[i].s.job, states[i].out, states[i].caller.table, 0, COLS)
  {
    RunInv(readers, states, actions, i);
    var s := states[i];
    forall c: nat | c < COLS ensures Written(s.s.job, s.out, s.caller.table, c) {
      AllDoneWritten(readers, s, s.caller.table, c);
    }
  }

  // ---- The caller is woken -------------------------------------------------

  /** While a job is active and the reader not shut down, some worker still owes table `t` a
      report and can go on; a sleeping caller has an active job. */
  lemma JobMoves(readers: nat, states: seq<State>, actions: seq<Action>, i: nat, t: nat) returns (w: nat)
    requires IsRun(readers, states, actions) && i < |states| && !states[i].s.shutdown
    requires if states[i].caller.CallerAsleep? then t == states[i].caller.table else states[i].s.active && t == 1
    ensures Enabled(readers, states[i], Work(w, 0)) && !Done(states[i].workers[w], states[i].s.generation, t)
  {
    RunInv(readers, states, actions, i);
    var s := states[i];
    assert CounterHolds(readers, s, t);
    CountAll(s.workers, s.s.generation, t);
    w :| 0 <= w < readers && !Done(s.workers[w], s.s.generation, t);
    assert WorkerHolds(s, s.workers[w]);
  }

  /** The steps a worker with columns `lo .. hi` has yet to take in generation `g`, a step more
      for each report, which may wake the caller. */
  function Left(x: Worker, g: nat, lo: nat, hi: nat): int {
    if x.pc.Exited? then 0
    else if x.seen != g then 2 * (hi - lo) + 8
    else
      match x.pc
      case Reading(t, c) => if t == 0 then hi - c + (hi - lo) + 7 else hi - c + 4
      case Reporting(t, _) => if t == 0 then hi - lo + 6 else 3
      case AtCheck => 1
      case _ => 0
  }

  function Rank(readers: nat, s: State, n: nat): int
    requires 0 < readers && n <= |s.workers|
  {
    if n == 0 then 0
    else Rank(readers, s, n - 1) + Left(s.workers[n - 1], s.s.generation, First(readers, n - 1), First(readers, n))
  }

  /** A step of worker `w` alone changes the rank by what it changes of its own part. */
  lemma {:induction false} RankStep(readers: nat, s: State, r: State, w: nat, n: nat)
    requires 0 < readers && n <= |s.workers| == |r.workers| && w < |s.workers| && r.s.generation == s.s.generation
    requires r.workers == s.workers[w := r.workers[w]]
    ensures var lo, hi := First(readers, w), First(readers, w + 1);
            Rank(readers, r, n) == Rank(readers, s, n)
              + if w < n then Left(r.workers[w], s.s.generation, lo, hi) - Left(s.workers[w], s.s.generation, lo, hi) else 0
    decreases n
  {
    if n > 0 { RankStep(readers, s, r, w, n - 1); }
  }

  lemma {:induction false} RankNonNegative(readers: nat, s: State, n: nat)
    requires Inv(readers, s) && n <= readers
    ensures Rank(readers, s, n) >= 0
    decreases n
  {
    if n > 0 {
      RankNonNegative(readers, s, n - 1);
      FirstBounds(readers, n - 1);
      assert PcShaped(readers, n - 1, s.workers[n - 1].pc);
    }
  }

  function CallerLeft(c: Caller): int {
    if c.AtRecheck? then 1 else 0
  }

  /** The steps left while the caller waits. */
  function Remaining(readers: nat, s: State): int
    requires 0 < readers == |s.workers|
  {
    Rank(readers, s, readers) + CallerLeft(s.caller)
  }

  /** The worker after a step, with its own columns `lo .. hi`. */
  lemma WorkLeft(readers: nat, s: State, w: nat, error: int, lo: nat, hi: nat)
    requires Enabled(readers, s, Work(w, error)) && WorkerHolds(s, s.workers[w])
    requires PcShaped(readers, w, s.workers[w].pc) && lo == First(readers, w) <= hi == First(readers, w + 1)
    ensures var r, g := WorkNext(readers, s, w, error), s.s.generation;
            && r.workers == s.workers[w := r.workers[w]] && r.s.generation == g
            && Left(r.workers[w], g, lo, hi) + CallerLeft(r.caller) < Left(s.workers[w], g, lo, hi) + CallerLeft(s.caller)
  {
    hide First;
  }

  /** Every step of a worker brings the end of the wait nearer, whatever its read brings. */
  lemma WorkRank(readers: nat, s: State, w: nat, error: int)
    requires Inv(readers, s) && Enabled(readers, s, Work(w, error))
    ensures Remaining(readers, Next(readers, s, Work(w, error))) < Remaining(readers, s)
  {
    hide First, Rank, PartHolds, Left;
    var r := Next(readers, s, Work(w, error));
    FirstBounds(readers, w);
    assert PcShaped(readers, w, s.workers[w].pc) && WorkerHolds(s, s.workers[w]);
    WorkLeft(readers, s, w, error, First(readers, w), First(readers, w + 1));
    RankStep(readers, s, r, w, readers);
  }

  predicate Spurs(a: Action) { a.Spurious? || a.SpuriousCaller? }

  /** A spurious wakeup costs one step, to go back to sleep. */
  lemma SpuriousRank(readers: nat, s: State, a: Action)
    requires Inv(readers, s) && Enabled(readers, s, a) && Spurs(a)
    ensures Remaining(readers, Next(readers, s, a)) == Remaining(readers, s) + 1
  {
    var r := Next(readers, s, a);
    if a.Spurious? {
      assert WorkerHolds(s, s.workers[a.worker]);
      RankStep(readers, s, r, a.worker, readers);
    } else {
      RankSame(readers, s, r, readers);
    }
  }

  lemma {:induction false} RankSame(readers: nat, s: State, r: State, n: nat)
    requires 0 < readers && n <= |s.workers| && r.workers == s.workers && r.s.generation == s.s.generation
    ensures Rank(readers, r, n) == Rank(readers, s, n)
    decreases n
  {
    if n > 0 { RankSame(readers, s, r, n - 1); }
  }

  /** The spurious wakeups of the steps `i .. j`. */
  function Wakeups(actions: seq<Action>, i: nat, j: nat): nat
    requires i <= j <= |actions|
    decreases j
  {
    if i == j then 0 else Wakeups(actions, i, j - 1) + if Spurs(actions[j - 1]) then 1 else 0
  }

  /** The caller is inside a wait for table `t`. */
  predicate Waits(c: Caller, t: nat) {
    c == CallerAsleep(t) || c == AtRecheck(t)
  }

  predicate WaitsThrough(states: seq<State>, i: nat, j: nat, t: nat)
    requires i <= j < |states|
  {
    forall k :: i <= k <= j ==> Waits(states[k].caller, t)
  }

  /** While the caller waits there are only workers' steps, its own checks, and spurious wakeups. */
  lemma WaitStep(readers: nat, s: State, a: Action, t: nat)
    requires Inv(readers, s) && Enabled(readers, s, a) && Waits(s.caller, t) && Waits(Next(readers, s, a).caller, t)
    ensures Inv(readers, Next(readers, s, a))
    ensures Remaining(readers, Next(readers, s, a)) + 1 <= Remaining(readers, s) + if Spurs(a) then 2 else 0
  {
    NextKeepsInv(readers, s, a);
    match a {
      case Work(w, e) => WorkRank(readers, s, w, e);
      case Recheck => RankSame(readers, s, Next(readers, s, a), readers);
      case _ => SpuriousRank(readers, s, a);
    }
  }

  lemma {:induction false} WaitBounded(readers: nat, states: seq<State>, actions: seq<Action>, i: nat, j: nat, t: nat)
    requires IsRun(readers, states, actions) && i <= j < |states| && WaitsThrough(states, i, j, t)
    ensures Inv(readers, states[i]) && Inv(readers, states[j])
    ensures Remaining(readers, states[j]) + (j - i) <= Remaining(readers, states[i]) + 2 * Wakeups(actions, i, j)
    decreases j
  {
    hide Remaining, Inv;
    if i < j {
      WaitBounded(readers, states, actions, i, j - 1, t);
      assert Waits(states[j - 1].caller, t) && Waits(states[j].caller, t);
      assert states[j] == Next(readers, states[j - 1], actions[j - 1]);
      WaitStep(readers, states[j - 1], actions[j - 1], t);
    } else {
      RunInv(readers, states, actions, i);
    }
  }

  /** The first state of `i .. j` in which the caller no longer waits. */
  lemma {:induction false} FirstReturn(states: seq<State>, i: nat, j: nat, t: nat) returns (k: nat)
    requires i <= j < |states| && Waits(states[i].caller, t) && !WaitsThrough(states, i, j, t)
    ensures i < k <= j && WaitsThrough(states, i, k - 1, t) && !Waits(states[k].caller, t)
    decreases j
  {
    if WaitsThrough(states, i, j - 1, t) {
      k := j;
    } else {
      k := FirstReturn(states, i, j - 1, t);
    }
  }

  /** A wait ends only with its own check, once every worker has reported the table. */
  lemma WaitReturns(readers: nat, states: seq<State>, actions: seq<Action>, k: nat, t: nat)
    requires IsRun(readers, states, actions) && 0 < k < |states| && Waits(states[k - 1].caller, t) && !Waits(states[k].caller, t)
    ensures t < TABLES && |states[k].s.completed| == |states[k].s.errors| == TABLES && actions[k - 1].Recheck?
    ensures states[k].s.completed[t] == readers && states[k].caller == Returned(t, states[k].s.errors[t])
  {
    var s := states[k - 1];
    RunInv(readers, states, actions, k - 1);
    assert CounterHolds(readers, s, 0) && CounterHolds(readers, s, 1);
    assert Enabled(readers, s, actions[k - 1]) && states[k] == Next(readers, s, actions[k - 1]);
  }

  lemma WaitEnds(readers: nat, states: seq<State>, actions: seq<Action>, i: nat, j: nat, t: nat)
    requires IsRun(readers, states, actions) && i <= j < |states|
    requires |states[i].workers| == readers && j - i > Remaining(readers, states[i]) + 2 * Wakeups(actions, i, j)
    ensures !WaitsThrough(states, i, j, t)
  {
    if WaitsThrough(states, i, j, t) {
      WaitBounded(readers, states, actions, i, j, t);
      RankNonNegative(readers, states[j], readers);
    }
  }

  /** Main result. A waiting caller returns: no run goes on for more steps than the job has left,
      and two for each spurious wakeup, before it does, with every worker done with its table. */
  lemma CallerReturns(readers: nat, states: seq<State>, actions: seq<Action>, i: nat, j: nat, t: nat) returns (k: nat)
    requires IsRun(readers, states, actions) && i <= j < |states| && Waits(states[i].caller, t)
    requires |states[i].workers| == readers && j - i > Remaining(readers, states[i]) + 2 * Wakeups(actions, i, j)
    ensures i < k <= j && WaitsThrough(states, i, k - 1, t)
    ensures t < TABLES && |states[k].s.completed| == |states[k].s.errors| == TABLES
    ensures states[k].s.completed[t] == readers && states[k].caller == Returned(t, states[k].s.errors[t])
  {
    hide IsRun;
    WaitEnds(readers, states, actions, i, j, t);
    k := FirstReturn(states, i, j, t);
    WaitReturns(readers, states, actions, k, t);
  }

  /** And it is never stuck: while it waits, it or a worker with a report to make can go on. */
  lemma WaitMoves(readers: nat, states: seq<State>, actions: seq<Action>, i: nat, t: nat) returns (a: Action)
    requires IsRun(readers, states, actions) && i < |states| && Waits(states[i].caller, t)
    ensures Enabled(readers, states[i], a) && (a.Recheck? || a.Work?)
  {
    RunInv(readers, states, actions, i);
    if states[i].caller.AtRecheck? {
      a := Recheck;
    } else {
      var w := JobMoves(readers, states, actions, i, t);
      a := Work(w, 0);
    }
  }
}
