/** The route planner: a backtracking search for a chain of workers that covers the layers
    after the coordinator's own. */
module RouteSearch {

  datatype Worker = Worker(host: seq<nat>, port: nat, lo: nat, hi: nat, hasOutput: bool, hasHidden: bool)

  /** The coordinator's own slice and what it can do after the last layer. */
  datatype Local = Local(start: nat, end: nat, hasOutput: bool, canOutputHead: bool, layers: nat)

  /** A worker may take its place in a route: it can hand on hidden states unless it ends
      the route with logits, and a last worker without logits needs the coordinator's head. */
  predicate CandidateOk(headLocal: bool, w: Worker, last: nat) {
    && (w.hi < last || !w.hasOutput ==> w.hasHidden)
    && (w.hi >= last && !w.hasOutput ==> headLocal)
  }

  predicate SortedByStart(ws: seq<Worker>) {
    forall i, j :: 0 <= i < j < |ws| ==> ws[i].lo <= ws[j].lo
  }

  /** Every registered range is non-empty. */
  predicate RangesOk(ws: seq<Worker>) {
    forall w :: w in ws ==> w.lo <= w.hi
  }

  // ---- Chains --------------------------------------------------------------

  /** The layer after a chain that starts at `next`. */
  function Frontier(c: seq<Worker>, next: nat): nat {
    if c == [] then next else c[|c| - 1].hi + 1
  }

  /** Admissible workers, each starting where the one before ends, none but the last reaching `last`. */
  predicate IsChain(headLocal: bool, ws: seq<Worker>, c: seq<Worker>, next: nat, last: nat) {
    c != [] ==>
      && c[0] in ws && c[0].lo == next && CandidateOk(headLocal, c[0], last)
      && (|c| > 1 ==> c[0].hi < last) && IsChain(headLocal, ws, c[1..], c[0].hi + 1, last)
  }

  /** A chain to the last layer. */
  predicate IsRoute(headLocal: bool, ws: seq<Worker>, c: seq<Worker>, next: nat, last: nat) {
    c != [] && IsChain(headLocal, ws, c, next, last) && c[|c| - 1].hi >= last
  }

  ghost predicate NoRoute(headLocal: bool, ws: seq<Worker>, next: nat, last: nat) {
    forall c: seq<Worker> :: !IsRoute(headLocal, ws, c, next, last)
  }

  /** No chain reaches past layer `m`. */
  ghost predicate Reach(headLocal: bool, ws: seq<Worker>, next: nat, last: nat, m: nat) {
    forall c: seq<Worker> :: IsChain(headLocal, ws, c, next, last) ==> Frontier(c, next) <= m
  }

  /** Worker `w` leads nowhere from `next`, and no further than layer `m`. */
  ghost predicate Exhausted(headLocal: bool, ws: seq<Worker>, w: Worker, next: nat, last: nat, m: nat) {
    w.lo == next && CandidateOk(headLocal, w, last) ==>
      w.hi < last && NoRoute(headLocal, ws, w.hi + 1, last) && Reach(headLocal, ws, w.hi + 1, last, m)
  }

  lemma FrontierTail(c: seq<Worker>, next: nat)
    requires c != []
    ensures Frontier(c, next) == Frontier(c[1..], c[0].hi + 1)
  {
  }

  /** With every worker exhausted there is no route, and no chain past `m`. */
  lemma AllExhausted(headLocal: bool, ws: seq<Worker>, next: nat, last: nat, m: nat)
    requires forall w :: w in ws ==> Exhausted(headLocal, ws, w, next, last, m)
    requires next <= m
    ensures NoRoute(headLocal, ws, next, last) && Reach(headLocal, ws, next, last, m)
  {
    forall c: seq<Worker> | IsChain(headLocal, ws, c, next, last)
      ensures Frontier(c, next) <= m && !IsRoute(headLocal, ws, c, next, last)
    {
      if c != [] {
        assert Exhausted(headLocal, ws, c[0], next, last, m);
        FrontierTail(c, next);
        assert !IsRoute(headLocal, ws, c[1..], c[0].hi + 1, last);
        assert |c| > 1 ==> c[1..][|c| - 2] == c[|c| - 1];
      }
    }
  }

  function Count(ws: seq<Worker>, next: nat): (n: nat)
    ensures n <= |ws|
  {
    if ws == [] then 0 else Count(ws[1..], next) + if ws[0].lo < next then 1 else 0
  }

  /** A worker that starts at `next` is not among those before it. */
  lemma {:induction false} CountStep(ws: seq<Worker>, w: Worker, next: nat, child: nat)
    requires w in ws && w.lo == next < child
    ensures Count(ws, next) + 1 <= Count(ws, child)
  {
    CountMono(ws[1..], next, child);
    if ws[0] != w {
      CountStep(ws[1..], w, next, child);
    }
  }

  lemma {:induction false} CountMono(ws: seq<Worker>, a: nat, b: nat)
    requires a <= b
    ensures Count(ws, a) <= Count(ws, b)
  {
    if ws != [] { CountMono(ws[1..], a, b); }
  }

  ghost predicate Tried(headLocal: bool, ws: seq<Worker>, next: nat, last: nat, m: nat, i: nat) {
    i <= |ws| && forall k :: 0 <= k < i ==> Exhausted(headLocal, ws, ws[k], next, last, m)
  }

  lemma RaiseBound(headLocal: bool, ws: seq<Worker>, next: nat, last: nat, m: nat, n: nat, i: nat)
    requires Tried(headLocal, ws, next, last, m, i) && m <= n
    ensures Tried(headLocal, ws, next, last, n, i)
  {
  }

  /** Once the workers that start at `next` have been tried, there is nothing else to try. */
  lemma AllTried(headLocal: bool, ws: seq<Worker>, next: nat, last: nat, m: nat, i: nat)
    requires SortedByStart(ws) && Tried(headLocal, ws, next, last, m, i) && (i < |ws| ==> ws[i].lo > next) && next <= m
    ensures NoRoute(headLocal, ws, next, last) && Reach(headLocal, ws, next, last, m)
  {
    forall v | v in ws ensures Exhausted(headLocal, ws, v, next, last, m) {
      var k :| 0 <= k < |ws| && ws[k] == v;
    }
    AllExhausted(headLocal, ws, next, last, m);
  }

  lemma RouteOne(headLocal: bool, ws: seq<Worker>, w: Worker, next: nat, last: nat)
    requires w in ws && w.lo == next && CandidateOk(headLocal, w, last) && w.hi >= last
    ensures IsRoute(headLocal, ws, [w], next, last)
  {
    assert [w][1..] == [];
  }

  lemma ChainExtends(headLocal: bool, ws: seq<Worker>, w: Worker, c: seq<Worker>, next: nat, last: nat)
    requires w in ws && w.lo == next && CandidateOk(headLocal, w, last) && w.hi < last
    requires IsChain(headLocal, ws, c, w.hi + 1, last)
    ensures IsChain(headLocal, ws, [w] + c, next, last) && Frontier([w] + c, next) == Frontier(c, w.hi + 1)
  {
    assert ([w] + c)[1..] == c;
  }

  lemma RouteExtends(headLocal: bool, ws: seq<Worker>, w: Worker, c: seq<Worker>, next: nat, last: nat)
    requires w in ws && w.lo == next && CandidateOk(headLocal, w, last) && w.hi < last
    requires IsRoute(headLocal, ws, c, w.hi + 1, last)
    ensures IsRoute(headLocal, ws, [w] + c, next, last)
  {
    ChainExtends(headLocal, ws, w, c, next, last);
  }

  // ---- The search ----------------------------------------------------------

  /** Extends `path` from layer `next` to the last one, or reports the furthest layer reached. */
  method Search(headLocal: bool, ws: seq<Worker>, next: nat, last: nat, path: array<Worker>, pathLen: nat)
    returns (found: bool, len: nat, missing: nat, ghost far: seq<Worker>)
    requires SortedByStart(ws) && RangesOk(ws)
    requires pathLen <= Count(ws, next) && path.Length == |ws|
    modifies path
    ensures path[..pathLen] == old(path[..pathLen])
    ensures found ==> pathLen < len <= path.Length && IsRoute(headLocal, ws, path[pathLen..len], next, last)
    ensures !found ==> len == pathLen && NoRoute(headLocal, ws, next, last)
    ensures !found ==> Reach(headLocal, ws, next, last, missing) && IsChain(headLocal, ws, far, next, last) && Frontier(far, next) == missing
    decreases Ahead(next, last), 1
  {
    missing, len, far := next, pathLen, [];
    for i := 0 to |ws|
      invariant len == pathLen && path[..pathLen] == old(path[..pathLen]) && next <= missing
      invariant Tried(headLocal, ws, next, last, missing, i)
      invariant IsChain(headLocal, ws, far, next, last) && Frontier(far, next) == missing
    {
      var w := ws[i];
      if w.lo < next {
        continue;
      }
      if w.lo > next {
        AllTried(headLocal, ws, next, last, missing, i);
        return false, len, missing, far;
      }
      if !CandidateOk(headLocal, w, last) {
        continue;
      }
      var ok, newLen, childMissing;
      ghost var childFar;
      ok, newLen, childMissing, childFar := Try(headLocal, ws, w, next, last, path, len);
      if ok {
        return true, newLen, missing, far;
      }
      RaiseBound(headLocal, ws, next, last, missing, if childMissing > missing then childMissing else missing, i);
      if childMissing > missing {
        missing, far := childMissing, childFar;
      }
    }
    AllTried(headLocal, ws, next, last, missing, |ws|);
    return false, len, missing, far;
  }

  function Ahead(next: nat, last: nat): nat {
    if next <= last then last - next + 1 else 0
  }

  /** The path through one admissible worker that starts at `next`. */
  method Try(headLocal: bool, ws: seq<Worker>, w: Worker, next: nat, last: nat, path: array<Worker>, pathLen: nat)
    returns (found: bool, len: nat, missing: nat, ghost far: seq<Worker>)
    requires SortedByStart(ws) && RangesOk(ws) && w in ws && w.lo == next && CandidateOk(headLocal, w, last)
    requires pathLen <= Count(ws, next) && path.Length == |ws|
    modifies path
    ensures path[..pathLen] == old(path[..pathLen])
    ensures found ==> pathLen < len <= path.Length && IsRoute(headLocal, ws, path[pathLen..len], next, last)
    ensures !found ==> len == pathLen && Exhausted(headLocal, ws, w, next, last, missing)
    ensures !found ==> IsChain(headLocal, ws, far, next, last) && Frontier(far, next) == missing
    decreases Ahead(next, last), 0
  {
    CountStep(ws, w, next, w.hi + 1);
    ghost var before := path[..pathLen];
    path[pathLen] := w;
    if w.hi >= last {
      RouteOne(headLocal, ws, w, next, last);
      assert path[pathLen..pathLen + 1] == [w];
      return true, pathLen + 1, 0, [];
    }
    assert path[..pathLen + 1] == before + [w];
    ghost var rest;
    found, len, missing, rest := Search(headLocal, ws, w.hi + 1, last, path, pathLen + 1);
    assert path[..pathLen + 1][..pathLen] == path[..pathLen];
    if found {
      RouteExtends(headLocal, ws, w, path[pathLen + 1..len], next, last);
      assert path[pathLen] == path[..pathLen + 1][pathLen];
      assert path[pathLen..len] == [w] + path[pathLen + 1..len];
      return true, len, 0, [];
    }
    ChainExtends(headLocal, ws, w, rest, next, last);
    return false, pathLen, missing, [w] + rest;
  }

  // ---- The planner ---------------------------------------------------------

  datatype Plan = BadStart | Incomplete(missing: nat) | Found(route: seq<Worker>)

  ghost predicate IsSorter(sort: seq<Worker> -> seq<Worker>) {
    forall ws :: Sorts(ws, sort(ws))
  }

  predicate Sorts(ws: seq<Worker>, s: seq<Worker>) {
    SortedByStart(s) && multiset(s) == multiset(ws)
  }

  /** The coordinator needs no worker at all. */
  predicate CoversAll(l: Local) {
    l.end + 1 == l.layers && (l.hasOutput || l.canOutputHead)
  }

  lemma SameMembers(a: seq<Worker>, b: seq<Worker>)
    requires multiset(a) == multiset(b)
    ensures forall w :: w in a <==> w in b
  {
    forall w ensures w in a <==> w in b {
      assert w in multiset(a) <==> w in a;
      assert w in multiset(b) <==> w in b;
    }
  }

  lemma {:induction false} ChainMembers(headLocal: bool, a: seq<Worker>, b: seq<Worker>, c: seq<Worker>, next: nat, last: nat)
    requires forall w :: w in a <==> w in b
    ensures IsChain(headLocal, a, c, next, last) == IsChain(headLocal, b, c, next, last)
  {
    if c != [] { ChainMembers(headLocal, a, b, c[1..], c[0].hi + 1, last); }
  }

  lemma RouteMembers(headLocal: bool, a: seq<Worker>, b: seq<Worker>, next: nat, last: nat, m: nat)
    requires forall w :: w in a <==> w in b
    ensures NoRoute(headLocal, a, next, last) ==> NoRoute(headLocal, b, next, last)
    ensures Reach(headLocal, a, next, last, m) ==> Reach(headLocal, b, next, last, m)
  {
    forall c: seq<Worker> ensures IsChain(headLocal, a, c, next, last) == IsChain(headLocal, b, c, next, last) {
      ChainMembers(headLocal, a, b, c, next, last);
    }
    if NoRoute(headLocal, a, next, last) {
      forall c: seq<Worker> ensures !IsRoute(headLocal, b, c, next, last) {
        assert !IsRoute(headLocal, a, c, next, last);
      }
    }
  }

  method BuildPlan(l: Local, workers: seq<Worker>, sort: seq<Worker> -> seq<Worker>) returns (p: Plan, ghost far: seq<Worker>)
    requires 0 < l.layers && l.end < l.layers && RangesOk(workers) && IsSorter(sort)
    ensures p.BadStart? <==> l.start != 0
    ensures p.Found? && CoversAll(l) ==> p.route == []
    ensures p.Found? && !CoversAll(l) ==> IsRoute(l.canOutputHead, workers, p.route, l.end + 1, l.layers - 1)
    ensures p.Incomplete? ==> !CoversAll(l) && NoRoute(l.canOutputHead, workers, l.end + 1, l.layers - 1)
    ensures p.Incomplete? ==> Reach(l.canOutputHead, workers, l.end + 1, l.layers - 1, p.missing)
    ensures p.Incomplete? ==> IsChain(l.canOutputHead, workers, far, l.end + 1, l.layers - 1) && Frontier(far, l.end + 1) == p.missing
  {
    var sorted := sort(workers);
    assert Sorts(workers, sorted);
    SameMembers(sorted, workers);
    var last := l.layers - 1;
    if l.start != 0 {
      return BadStart, [];
    }
    if l.end == last && (l.hasOutput || l.canOutputHead) {
      return Found([]), [];
    }
    var path := new Worker[|sorted|](_ => Worker([], 0, 0, 0, false, false));
    var found, len, missing;
    found, len, missing, far := Search(l.canOutputHead, sorted, l.end + 1, last, path, 0);
    if !found {
      RouteMembers(l.canOutputHead, sorted, workers, l.end + 1, last, missing);
      ChainMembers(l.canOutputHead, sorted, workers, far, l.end + 1, last);
      return Incomplete(missing), far;
    }
    ChainMembers(l.canOutputHead, sorted, workers, path[0..len], l.end + 1, last);
    return Found(path[0..len]), [];
  }
}
