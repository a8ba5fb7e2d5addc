/** The draft admission controller: the price of a serial token, the debt of losing windows,
    and the back-off they lead to. Times are reals. */
module Admission {
  const FIRST_SERIAL: nat := 16
  const SAMPLES: nat := 9
  const WINDOW: nat := 3
  const BACKOFF: nat := 16
  const BACKOFF_STEPS: nat := 4

  datatype State = State(backoffs: nat, skip: nat, windowCalls: nat, sampleCount: nat, sampleNext: nat,
                         serialTokens: nat, attempts: nat, windowMs: real, debtMs: real, serialMs: real, samples: seq<real>)

  const BEGIN := State(0, 0, 0, 0, 0, 0, 0, 0.0, 0.0, 0.0, [0.0, 0.0, 0.0, 0.0, 0.0, 0.0, 0.0, 0.0, 0.0])

  predicate Shaped(a: State) {
    |a.samples| == SAMPLES && a.sampleNext < SAMPLES && a.sampleCount <= SAMPLES && a.windowCalls < WINDOW
  }

  // ---- Medians -------------------------------------------------------------

  predicate Sorted(s: seq<real>) {
    forall i, j :: 0 <= i < j < |s| ==> s[i] <= s[j]
  }

  /** `x` behind every element that is not larger. */
  function Insert(s: seq<real>, x: real): (r: seq<real>)
    ensures |r| == |s| + 1
  {
    if s == [] || s[|s| - 1] <= x then s + [x] else Insert(s[..|s| - 1], x) + [s[|s| - 1]]
  }

  function Sort(s: seq<real>): (r: seq<real>)
    ensures |r| == |s|
  {
    if s == [] then [] else Insert(Sort(s[..|s| - 1]), s[|s| - 1])
  }

  function Middle(s: seq<real>): real
    requires s != []
  {
    var mid := |s| / 2;
    if |s| % 2 == 1 then s[mid] else 0.5 * (s[mid - 1] + s[mid])
  }

  function Median(s: seq<real>): real
    requires s != []
  {
    Middle(Sort(s))
  }

  predicate AtMost(s: seq<real>, m: real) {
    forall i :: 0 <= i < |s| ==> s[i] <= m
  }

  lemma {:induction false} InsertAtMost(s: seq<real>, x: real, m: real)
    requires AtMost(s, m) && x <= m
    ensures AtMost(Insert(s, x), m)
  {
    if s != [] && s[|s| - 1] > x {
      InsertAtMost(s[..|s| - 1], x, m);
    }
  }

  lemma {:induction false} InsertElements(s: seq<real>, x: real)
    ensures multiset(Insert(s, x)) == multiset(s) + multiset{x}
  {
    if s != [] && s[|s| - 1] > x {
      var k := |s| - 1;
      InsertElements(s[..k], x);
      assert s == s[..k] + [s[k]];
    }
  }

  lemma {:induction false} InsertSorted(s: seq<real>, x: real)
    requires Sorted(s)
    ensures Sorted(Insert(s, x))
  {
    if s != [] && s[|s| - 1] > x {
      var k := |s| - 1;
      InsertSorted(s[..k], x);
      InsertAtMost(s[..k], x, s[k]);
    }
  }

  lemma {:induction false} SortSorts(s: seq<real>)
    ensures Sorted(Sort(s)) && multiset(Sort(s)) == multiset(s)
  {
    if s != [] {
      var k := |s| - 1;
      SortSorts(s[..k]);
      InsertSorted(Sort(s[..k]), s[k]);
      InsertElements(Sort(s[..k]), s[k]);
      assert s == s[..k] + [s[k]];
    }
  }

  /** The last element of a sorted sequence is its largest. */
  lemma LastMost(a: seq<real>, x: real)
    requires Sorted(a) && x in multiset(a)
    ensures x <= a[|a| - 1]
  {
    var i :| 0 <= i < |a| && a[i] == x;
  }

  /** A sorted sequence is determined by its elements. */
  lemma {:induction false} SortedUnique(a: seq<real>, b: seq<real>)
    requires Sorted(a) && Sorted(b) && multiset(a) == multiset(b)
    ensures a == b
  {
    assert |a| == |multiset(a)| == |b|;
    if a != [] {
      var k := |a| - 1;
      LastMost(a, b[k]);
      LastMost(b, a[k]);
      FrontElements(a, b, k);
      SortedUnique(a[..k], b[..k]);
      assert a == a[..k] + [a[k]] && b == b[..k] + [b[k]];
    }
  }

  lemma FrontElements(a: seq<real>, b: seq<real>, k: nat)
    requires |a| == |b| == k + 1 && a[k] == b[k] && multiset(a) == multiset(b)
    ensures multiset(a[..k]) == multiset(b[..k])
  {
    assert a == a[..k] + [a[k]] && b == b[..k] + [b[k]];
    assert multiset(a) == multiset(a[..k]) + multiset{a[k]};
    assert multiset(b) == multiset(b[..k]) + multiset{b[k]};
    assert multiset(a[..k]) == multiset(a) - multiset{a[k]};
  }

  lemma SameMedian(a: seq<real>, b: seq<real>)
    requires multiset(a) == multiset(b) && a != [] && b != []
    ensures Median(a) == Median(b)
  {
    SortSorts(a);
    SortSorts(b);
    SortedUnique(Sort(a), Sort(b));
  }

  // ---- What a median is ----------------------------------------------------

  /** How many values are smaller than `m`. */
  function Below(s: seq<real>, m: real): (n: nat)
    ensures n <= |s|
  {
    if s == [] then 0 else Below(s[..|s| - 1], m) + if s[|s| - 1] < m then 1 else 0
  }

  /** How many values are larger than `m`. */
  function Above(s: seq<real>, m: real): (n: nat)
    ensures n <= |s|
  {
    if s == [] then 0 else Above(s[..|s| - 1], m) + if s[|s| - 1] > m then 1 else 0
  }

  lemma {:induction false} InsertCounts(s: seq<real>, x: real, m: real)
    ensures Below(Insert(s, x), m) == Below(s, m) + (if x < m then 1 else 0)
    ensures Above(Insert(s, x), m) == Above(s, m) + (if x > m then 1 else 0)
  {
    if s == [] || s[|s| - 1] <= x {
      assert (s + [x])[..|s|] == s;
    } else {
      var k := |s| - 1;
      InsertCounts(s[..k], x, m);
      assert Insert(s, x)[..|s|] == Insert(s[..k], x);
    }
  }

  lemma {:induction false} SortCounts(s: seq<real>, m: real)
    ensures Below(Sort(s), m) == Below(s, m) && Above(Sort(s), m) == Above(s, m)
  {
    if s != [] {
      var k := |s| - 1;
      SortCounts(s[..k], m);
      InsertCounts(Sort(s[..k]), s[k], m);
    }
  }

  /** Values from place `j` on that are at least `m` are not below it. */
  lemma {:induction false} FewBelow(s: seq<real>, m: real, j: nat)
    requires j <= |s| && forall i :: j <= i < |s| ==> s[i] >= m
    ensures Below(s, m) <= j
  {
    if j < |s| { FewBelow(s[..|s| - 1], m, j); }
  }

  /** Values before place `j` that are at most `m` are not above it. */
  lemma {:induction false} FewAbove(s: seq<real>, m: real, j: nat)
    requires j <= |s| && forall i :: 0 <= i < j ==> s[i] <= m
    ensures Above(s, m) <= |s| - j
  {
    if j < |s| {
      FewAbove(s[..|s| - 1], m, j);
    } else {
      NoneAbove(s, m);
    }
  }

  lemma {:induction false} NoneAbove(s: seq<real>, m: real)
    requires AtMost(s, m)
    ensures Above(s, m) == 0
  {
    if s != [] { NoneAbove(s[..|s| - 1], m); }
  }

  predicate IsHalfway(s: seq<real>, m: real) {
    Below(s, m) <= |s| / 2 && Above(s, m) <= |s| / 2
  }

  /** The middle of sorted values is at least the front half and at most the back half. */
  lemma SortedMiddle(t: seq<real>, m: real)
    requires t != [] && Sorted(t) && m == Middle(t)
    ensures forall i :: |t| / 2 <= i < |t| ==> t[i] >= m
    ensures forall i :: 0 <= i < |t| - |t| / 2 ==> t[i] <= m
  {
    var mid: nat := |t| / 2;
    if |t| % 2 == 1 {
      assert m == t[mid] && |t| - mid == mid + 1;
    } else {
      assert |t| - mid == mid > 0 && t[mid - 1] <= m <= t[mid];
    }
  }

  /** No more than half of the values lie on either side of the median. */
  lemma MedianHalves(s: seq<real>)
    requires s != []
    ensures IsHalfway(s, Median(s))
  {
    hide Below, Above, Sort, Middle, Sorted;
    var t, m, half: nat := Sort(s), Median(s), |s| / 2;
    SortSorts(s);
    SortCounts(s, m);
    SortedMiddle(t, m);
    FewBelow(t, m, half);
    FewAbove(t, m, |t| - half);
  }

  // ---- Steps ---------------------------------------------------------------

  function CountDown(skip: nat): nat { if skip > 0 then skip - 1 else 0 }

  function Serial(a: State, ms: real): State
    requires Shaped(a)
  {
    var samples := a.samples[a.sampleNext := ms];
    var count := if a.sampleCount < SAMPLES then a.sampleCount + 1 else a.sampleCount;
    a.(serialTokens := a.serialTokens + 1, skip := CountDown(a.skip), samples := samples,
       sampleNext := (a.sampleNext + 1) % SAMPLES, sampleCount := count, serialMs := Median(samples[..count]))
  }

  function Row(a: State): State {
    a.(serialTokens := a.serialTokens + 1, skip := CountDown(a.skip))
  }

  function Positive(x: real): real { if x > 0.0 then x else 0.0 }

  function Lesser(a: nat, b: nat): nat { if a < b then a else b }

  /** The length of the `n`-th back-off in a row. */
  function SkipFor(n: nat): nat {
    if n == 0 then 0 else if n == 1 then 16 else if n == 2 then 32 else if n == 3 then 64 else 128
  }

  /** A full window of attempts is judged. */
  function Judge(a: State, loss: real): State {
    var debt := Positive(a.debtMs + loss);
    var b := a.(windowCalls := 0, windowMs := 0.0, debtMs := debt);
    if loss < 0.0 then b.(backoffs := 0, skip := 0)
    else if debt > 0.5 * a.serialMs then
      var n := if a.backoffs < BACKOFF_STEPS then a.backoffs + 1 else a.backoffs;
      b.(backoffs := n, skip := SkipFor(n), debtMs := 0.0)
    else b
  }

  function Counted(a: State, rows: nat, verified: bool): State {
    if verified then a.(attempts := a.attempts + 1) else a.(serialTokens := a.serialTokens + rows)
  }

  /** What `rows` serial tokens would have cost. */
  function Cost(rows: nat, price: real): real {
    if rows == 0 then 0.0 else price + Cost(rows - 1, price)
  }

  lemma {:induction false} CostIsProduct(rows: nat, price: real)
    ensures Cost(rows, price) == rows as real * price
  {
    if rows > 0 {
      CostIsProduct(rows - 1, price);
      assert rows as real * price == price + (rows - 1) as real * price;
    }
  }

  function Cycle(a: State, ms: real, rows: nat, verified: bool): State {
    var b := Counted(a, rows, verified);
    if a.serialMs <= 0.0 then b
    else
      var loss := a.windowMs + (ms - Cost(rows, a.serialMs));
      if a.windowCalls + 1 < WINDOW then b.(windowMs := loss, windowCalls := a.windowCalls + 1) else Judge(b, loss)
  }

  predicate MayDraft(a: State) {
    a.skip == 0 && (a.attempts != 0 || a.serialTokens >= FIRST_SERIAL)
  }

  lemma {:induction false} Inserted(t: seq<real>, x: real, j: nat)
    requires j <= |t| && (j > 0 ==> t[j - 1] <= x) && forall k :: j <= k < |t| ==> t[k] > x
    ensures Insert(t, x) == t[..j] + [x] + t[j..]
    decreases |t|
  {
    if j == |t| {
      assert t[..j] == t && t[j..] == [];
    } else {
      var n := |t| - 1;
      Inserted(t[..n], x, j);
      assert t[..n][..j] == t[..j] && t[..n][j..] + [t[n]] == t[j..];
    }
  }

  class Controller {
    var backoffs: nat
    var skip: nat
    var windowCalls: nat
    var sampleCount: nat
    var sampleNext: nat
    var serialTokens: nat
    var attempts: nat
    var windowMs: real
    var debtMs: real
    var serialMs: real
    const samples: array<real>

    function View(): State
      reads this, samples
    {
      State(backoffs, skip, windowCalls, sampleCount, sampleNext, serialTokens, attempts, windowMs, debtMs, serialMs, samples[..])
    }

    predicate Valid()
      reads this, samples
    {
      Shaped(View()) && backoffs <= BACKOFF_STEPS
    }

    constructor ()
      ensures fresh(samples) && View() == BEGIN && Valid()
    {
      backoffs, skip, windowCalls, sampleCount, sampleNext, serialTokens, attempts := 0, 0, 0, 0, 0, 0, 0;
      windowMs, debtMs, serialMs := 0.0, 0.0, 0.0;
      samples := new real[SAMPLES](_ => 0.0);
      new;
      assert samples[..] == BEGIN.samples;
    }

    /** Inserts `x` into the sorted values before place `i`. */
    method InsertSample(sorted: array<real>, i: nat, x: real, ghost t: seq<real>)
      requires i < sorted.Length && sorted[..i] == t
      modifies sorted
      ensures sorted[..i + 1] == Insert(t, x)
    {
      hide Insert;
      var j: nat := i;
      while j > 0 && sorted[j - 1] > x
        invariant j <= i && (forall k :: j <= k < i ==> t[k] > x)
        invariant forall k :: 0 <= k < j ==> sorted[k] == t[k]
        invariant forall k :: j < k <= i ==> sorted[k] == t[k - 1]
      {
        sorted[j] := sorted[j - 1];
        j := j - 1;
      }
      sorted[j] := x;
      Inserted(t, x, j);
      assert sorted[..i + 1] == t[..j] + [x] + t[j..];
    }

    method PriceToken()
      requires 0 < sampleCount <= samples.Length
      modifies this`serialMs
      ensures serialMs == Median(samples[..sampleCount])
    {
      var sorted := new real[sampleCount](_ => 0.0);
      for i := 0 to sampleCount
        invariant sorted[..i] == Sort(samples[..i])
        modifies sorted
      {
        assert samples[..i + 1][..i] == samples[..i];
        InsertSample(sorted, i, samples[i], Sort(samples[..i]));
      }
      assert sorted[..sampleCount] == sorted[..];
      ghost var s := Sort(samples[..sampleCount]);
      assert |s| == sampleCount && sorted[..] == s;
      var mid := sampleCount / 2;
      serialMs := if sampleCount % 2 == 1 then sorted[mid] else 0.5 * (sorted[mid - 1] + sorted[mid]);
    }

    method SerialToken(ms: real)
      requires Valid()
      modifies this, samples
      ensures Valid() && View() == Serial(old(View()), ms)
    {
      hide Median;
      serialTokens := serialTokens + 1;
      if skip > 0 {
        skip := skip - 1;
      }
      samples[sampleNext] := ms;
      sampleNext := (sampleNext + 1) % SAMPLES;
      if sampleCount < SAMPLES {
        sampleCount := sampleCount + 1;
      }
      assert samples[..] == old(samples[..])[old(sampleNext) := ms];
      assert samples[..sampleCount] == samples[..][..sampleCount];
      PriceToken();
    }

    method RowToken()
      requires Valid()
      modifies this
      ensures Valid() && View() == Row(old(View()))
    {
      serialTokens := serialTokens + 1;
      if skip > 0 {
        skip := skip - 1;
      }
    }

    method DraftedCycle(ms: real, rows: nat, verified: bool)
      requires Valid()
      modifies this
      ensures Valid() && View() == Cycle(old(View()), ms, rows, verified)
    {
      if verified {
        attempts := attempts + 1;
      } else {
        serialTokens := serialTokens + rows;
      }
      if serialMs <= 0.0 {
        return;
      }
      var cost := rows as real * serialMs;
      assert cost == Cost(rows, serialMs) by {
        CostIsProduct(rows, serialMs);
      }
      windowMs := windowMs + (ms - cost);
      windowCalls := windowCalls + 1;
      if windowCalls < WINDOW {
        return;
      }
      JudgeWindow();
    }

    /** The window is full: its loss joins the debt, and drafting goes on or backs off. */
    method JudgeWindow()
      requires |samples[..]| == SAMPLES && sampleNext < SAMPLES && sampleCount <= SAMPLES && backoffs <= BACKOFF_STEPS
      modifies this
      ensures Valid() && View() == Judge(old(View()), old(windowMs))
    {
      debtMs := if debtMs + windowMs > 0.0 then debtMs + windowMs else 0.0;
      if windowMs < 0.0 {
        backoffs, skip := 0, 0;
      } else if debtMs > 0.5 * serialMs {
        if backoffs < BACKOFF_STEPS {
          backoffs := backoffs + 1;
        }
        skip := BACKOFF * (if backoffs == 1 then 1 else if backoffs == 2 then 2 else if backoffs == 3 then 4 else 8);
        debtMs := 0.0;
      }
      windowCalls, windowMs := 0, 0.0;
    }
  }

  // ---- Runs ----------------------------------------------------------------

  datatype Event = SerialToken(ms: real) | RowToken | DraftedCycle(ms: real, rows: nat, verified: bool)

  function Next(a: State, e: Event): State
    requires Shaped(a)
  {
    match e
    case SerialToken(ms) => Serial(a, ms)
    case RowToken => Row(a)
    case DraftedCycle(ms, rows, verified) => Cycle(a, ms, rows, verified)
  }

  /** What a request has been through: its serial times, the losses of the windows judged since
      the last back-off, and the back-offs since the last window that saved time. */
  datatype History = History(times: seq<real>, losses: seq<real>, streak: nat)

  /** The event completes a window of attempts. */
  predicate Judges(a: State, e: Event) {
    e.DraftedCycle? && a.serialMs > 0.0 && a.windowCalls + 1 == WINDOW
  }

  function LossOf(a: State, e: Event): real
    requires e.DraftedCycle?
  {
    a.windowMs + (e.ms - Cost(e.rows, a.serialMs))
  }

  /** The event backs drafting off. */
  predicate BacksOff(a: State, e: Event) {
    Judges(a, e) && LossOf(a, e) >= 0.0 && Positive(a.debtMs + LossOf(a, e)) > 0.5 * a.serialMs
  }

  function Remember(h: History, a: State, e: Event): History {
    if e.SerialToken? then h.(times := h.times + [e.ms])
    else if BacksOff(a, e) then h.(losses := [], streak := h.streak + 1)
    else if Judges(a, e) then h.(losses := h.losses + [LossOf(a, e)], streak := if LossOf(a, e) < 0.0 then 0 else h.streak)
    else h
  }

  ghost predicate IsRun(states: seq<State>, hist: seq<History>, events: seq<Event>) {
    && |states| == |hist| == |events| + 1 && states[0] == BEGIN && hist[0] == History([], [], 0)
    && forall i :: 0 <= i < |events| ==>
         (Shaped(states[i]) ==> states[i + 1] == Next(states[i], events[i])) && hist[i + 1] == Remember(hist[i], states[i], events[i])
  }

  /** The last `n` serial times, or all of them. */
  function Last(times: seq<real>): (r: seq<real>)
    ensures |r| == Lesser(|times|, SAMPLES)
  {
    times[|times| - Lesser(|times|, SAMPLES)..]
  }

  function SumFrom(s: seq<real>, k: nat): real
    requires k <= |s|
    decreases |s| - k
  {
    if k == |s| then 0.0 else s[k] + SumFrom(s, k + 1)
  }

  /** The largest sum of a suffix of the losses, the empty one included. */
  ghost predicate IsLargestSuffix(s: seq<real>, d: real) {
    (exists k: nat :: k <= |s| && SumFrom(s, k) == d) && forall k: nat :: k <= |s| ==> SumFrom(s, k) <= d
  }

  lemma {:induction false} SumExtend(s: seq<real>, x: real, k: nat)
    requires k <= |s|
    ensures SumFrom(s + [x], k) == SumFrom(s, k) + x
    decreases |s| - k
  {
    if k < |s| {
      SumExtend(s, x, k + 1);
    } else {
      assert SumFrom(s + [x], k + 1) == 0.0;
    }
  }

  lemma SuffixExtend(s: seq<real>, x: real, d: real)
    requires IsLargestSuffix(s, d)
    ensures IsLargestSuffix(s + [x], Positive(d + x))
  {
    var t := s + [x];
    forall k: nat | k <= |t| ensures SumFrom(t, k) <= Positive(d + x) {
      if k <= |s| { SumExtend(s, x, k); }
    }
    var k: nat :| k <= |s| && SumFrom(s, k) == d;
    SumExtend(s, x, k);
    assert SumFrom(t, |t|) == 0.0;
  }

  /** Slot `i % 9` of the samples holds serial time `i`, for the last nine. */
  predicate RingHolds(a: State, times: seq<real>)
    requires Shaped(a)
  {
    && a.sampleCount == Lesser(|times|, SAMPLES) && a.sampleNext == |times| % SAMPLES
    && forall i: nat :: |times| - a.sampleCount <= i < |times| ==> a.samples[i % SAMPLES] == times[i]
  }

  /** The price and what it is computed from. */
  ghost predicate PriceHolds(a: State, times: seq<real>)
    requires Shaped(a)
  {
    && RingHolds(a, times) && multiset(a.samples[..a.sampleCount]) == multiset(Last(times))
    && a.serialMs == (if times == [] then 0.0 else Median(Last(times)))
  }

  ghost predicate DebtHolds(debt: real, backoffs: nat, skip: nat, losses: seq<real>, streak: nat) {
    IsLargestSuffix(losses, debt) && backoffs == Lesser(streak, BACKOFF_STEPS) && skip <= 128
  }

  ghost predicate Holds(a: State, h: History) {
    Shaped(a) && PriceHolds(a, h.times) && DebtHolds(a.debtMs, a.backoffs, a.skip, h.losses, h.streak)
  }

  lemma SamePrice(a: State, b: State, times: seq<real>)
    requires Shaped(a) && Shaped(b) && PriceHolds(a, times)
    requires a.samples == b.samples && a.sampleCount == b.sampleCount && a.sampleNext == b.sampleNext && a.serialMs == b.serialMs
    ensures PriceHolds(b, times)
  {
  }

  /** What judging a window with this loss does to the debt and the back-offs. */
  lemma JudgedDebt(a: State, loss: real, losses: seq<real>, streak: nat)
    requires DebtHolds(a.debtMs, a.backoffs, a.skip, losses, streak)
    ensures var b := Judge(a, loss);
            if loss >= 0.0 && Positive(a.debtMs + loss) > 0.5 * a.serialMs
            then b.skip == SkipFor(streak + 1) && b.debtMs == 0.0 && DebtHolds(b.debtMs, b.backoffs, b.skip, [], streak + 1)
            else b.skip <= a.skip && (loss < 0.0 ==> b.skip == 0)
                 && DebtHolds(b.debtMs, b.backoffs, b.skip, losses + [loss], if loss < 0.0 then 0 else streak)
  {
    SuffixExtend(losses, loss, a.debtMs);
    NoLosses();
  }

  lemma NoLosses()
    ensures IsLargestSuffix([], 0.0)
  {
    var none: seq<real> := [];
    assert SumFrom(none, 0) == 0.0;
  }

  /** The slots of the last nine serial times but the oldest keep theirs. */
  lemma SlotKept(i: nat, n: nat)
    requires n < i + SAMPLES && i < n
    ensures i % SAMPLES != n % SAMPLES
  {
  }

  lemma NextSlot(n: nat)
    ensures (n % SAMPLES + 1) % SAMPLES == (n + 1) % SAMPLES
  {
  }

  lemma RingStep(a: State, times: seq<real>, ms: real)
    requires Shaped(a) && RingHolds(a, times)
    ensures Shaped(Serial(a, ms)) && RingHolds(Serial(a, ms), times + [ms])
  {
    hide Median;
    var b, n := Serial(a, ms), |times|;
    NextSlot(n);
    forall i: nat | n + 1 - b.sampleCount <= i < n + 1 ensures b.samples[i % SAMPLES] == (times + [ms])[i] {
      if i < n {
        SlotKept(i, n);
      }
    }
  }

  lemma Replaced(s: seq<real>, k: nat, x: real)
    requires k < |s|
    ensures multiset(s[k := x]) == multiset(s) - multiset{s[k]} + multiset{x}
  {
  }

  /** With room left the samples are the times themselves. */
  lemma FillingStep(a: State, times: seq<real>, ms: real, b: State)
    requires Shaped(a) && RingHolds(a, times) && multiset(a.samples[..a.sampleCount]) == multiset(Last(times)) && |times| < SAMPLES
    requires b == Serial(a, ms)
    ensures multiset(b.samples[..b.sampleCount]) == multiset(Last(times + [ms]))
  {
    hide Median;
    var n := |times|;
    assert n % SAMPLES == n;
    assert b.samples[..n + 1] == a.samples[..n] + [ms];
    assert Last(times) == times && Last(times + [ms]) == times + [ms];
  }

  /** The new time replaces the oldest of the nine. */
  lemma FullStep(a: State, times: seq<real>, ms: real, b: State)
    requires Shaped(a) && RingHolds(a, times) && multiset(a.samples[..a.sampleCount]) == multiset(Last(times)) && SAMPLES <= |times|
    requires b == Serial(a, ms)
    ensures multiset(b.samples[..b.sampleCount]) == multiset(Last(times + [ms]))
  {
    hide Median, Last;
    var first: nat := |times| - SAMPLES;
    OldestSlot(first);
    assert a.samples[first % SAMPLES] == times[first];
    assert a.sampleCount == b.sampleCount == SAMPLES;
    WholeReplaced(a.samples, a.sampleNext, times[first], ms);
    Shifted(times, ms, first);
  }

  lemma WholeReplaced(samples: seq<real>, k: nat, oldest: real, ms: real)
    requires |samples| == SAMPLES && k < SAMPLES && samples[k] == oldest
    ensures multiset(samples[k := ms][..SAMPLES]) == multiset(samples[..SAMPLES]) - multiset{oldest} + multiset{ms}
  {
    assert samples[..SAMPLES] == samples && samples[k := ms][..SAMPLES] == samples[k := ms];
    Replaced(samples, k, ms);
  }

  lemma OldestSlot(first: nat)
    ensures first % SAMPLES == (first + SAMPLES) % SAMPLES
  {
  }

  lemma Shifted(times: seq<real>, ms: real, first: nat)
    requires first == |times| - SAMPLES
    ensures multiset(Last(times + [ms])) == multiset(Last(times)) - multiset{times[first]} + multiset{ms}
  {
    var kept := times[first + 1..];
    assert Last(times) == [times[first]] + kept;
    assert Last(times + [ms]) == kept + [ms];
  }

  lemma ElementsStep(a: State, times: seq<real>, ms: real)
    requires Shaped(a) && RingHolds(a, times) && multiset(a.samples[..a.sampleCount]) == multiset(Last(times))
    ensures var b := Serial(a, ms); multiset(b.samples[..b.sampleCount]) == multiset(Last(times + [ms]))
  {
    if |times| < SAMPLES {
      FillingStep(a, times, ms, Serial(a, ms));
    } else {
      FullStep(a, times, ms, Serial(a, ms));
    }
  }

  lemma SerialHolds(a: State, h: History, ms: real)
    requires Holds(a, h)
    ensures Holds(Serial(a, ms), Remember(h, a, SerialToken(ms)))
  {
    var b, times := Serial(a, ms), h.times + [ms];
    RingStep(a, h.times, ms);
    ElementsStep(a, h.times, ms);
    SameMedian(b.samples[..b.sampleCount], Last(times));
  }

  /** A drafted cycle, for a loss that is already worked out. */
  lemma CycleStep(a: State, h: History, e: Event, loss: real)
    requires Shaped(a) && DebtHolds(a.debtMs, a.backoffs, a.skip, h.losses, h.streak) && e.DraftedCycle? && loss == LossOf(a, e)
    ensures var b, g := Next(a, e), Remember(h, a, e);
            && Shaped(b) && g.times == h.times && DebtHolds(b.debtMs, b.backoffs, b.skip, g.losses, g.streak)
            && b.samples == a.samples && b.sampleCount == a.sampleCount && b.sampleNext == a.sampleNext && b.serialMs == a.serialMs
            && (BacksOff(a, e) ==> b.skip == SkipFor(h.streak + 1) && b.debtMs == 0.0) && (!BacksOff(a, e) ==> b.skip <= a.skip)
            && (Judges(a, e) && loss < 0.0 ==> b.skip == 0)
  {
    if Judges(a, e) {
      JudgedDebt(Counted(a, e.rows, e.verified), loss, h.losses, h.streak);
    }
  }

  lemma NextHolds(a: State, h: History, e: Event)
    requires Holds(a, h)
    ensures Holds(Next(a, e), Remember(h, a, e))
  {
    match e {
      case SerialToken(ms) => SerialHolds(a, h, ms);
      case RowToken => SamePrice(a, Row(a), h.times);
      case DraftedCycle(_, _, _) =>
        CycleStep(a, h, e, LossOf(a, e));
        SamePrice(a, Next(a, e), h.times);
    }
  }

  lemma BeginHolds()
    ensures Holds(BEGIN, History([], [], 0))
  {
    NoLosses();
    assert BEGIN.samples[..0] == [];
  }

  lemma {:induction false} RunHolds(states: seq<State>, hist: seq<History>, events: seq<Event>, i: nat)
    requires IsRun(states, hist, events) && i < |states|
    ensures Holds(states[i], hist[i])
  {
    if i == 0 {
      BeginHolds();
    } else {
      RunHolds(states, hist, events, i - 1);
      NextHolds(states[i - 1], hist[i - 1], events[i - 1]);
    }
  }

  /** Main result on prices and debt. In every run a serial token's price is the median of the last
      nine serial times, or of all there are, and the debt is the largest sum of a suffix of the
      window losses since the last back-off, never negative. */
  lemma PriceAndDebt(states: seq<State>, hist: seq<History>, events: seq<Event>, i: nat)
    requires IsRun(states, hist, events) && i < |states|
    ensures hist[i].times != [] ==>
              states[i].serialMs == Median(Last(hist[i].times)) && IsHalfway(Last(hist[i].times), states[i].serialMs)
    ensures IsLargestSuffix(hist[i].losses, states[i].debtMs) && states[i].debtMs >= 0.0
  {
    RunHolds(states, hist, events, i);
    if hist[i].times != [] { MedianHalves(Last(hist[i].times)); }
    assert SumFrom(hist[i].losses, |hist[i].losses|) == 0.0;
  }

  /** A window is complete, it saved nothing, and some of the latest losses since the last back-off,
      this one included, come to more than half a serial token. */
  ghost predicate BackoffDue(h: History, a: State, e: Event) {
    && Judges(a, e) && LossOf(a, e) >= 0.0
    && exists k: nat :: k <= |h.losses + [LossOf(a, e)]| && SumFrom(h.losses + [LossOf(a, e)], k) > 0.5 * a.serialMs
  }

  lemma BackoffIsDue(a: State, h: History, e: Event)
    requires Holds(a, h)
    ensures BacksOff(a, e) <==> BackoffDue(h, a, e)
  {
    if Judges(a, e) {
      SuffixExtend(h.losses, LossOf(a, e), a.debtMs);
    }
  }

  /** Main result on back-offs. A cycle with drafting open starts a back-off exactly when it
      completes a window that saved nothing and the latest losses since the last back-off come to
      more than half a serial token, which is the median of the latest serial times; in a row
      back-offs last 16, 32, 64 and then 128 tokens, and nothing else makes one longer. */
  lemma BackoffExactly(states: seq<State>, hist: seq<History>, events: seq<Event>, i: nat)
    requires IsRun(states, hist, events) && i < |events|
    ensures states[i].skip == 0 ==> (states[i + 1].skip > 0 <==> BackoffDue(hist[i], states[i], events[i]))
    ensures BackoffDue(hist[i], states[i], events[i]) ==>
              && states[i + 1].skip == SkipFor(hist[i].streak + 1) && states[i + 1].debtMs == 0.0
              && hist[i + 1] == History(hist[i].times, [], hist[i].streak + 1)
              && hist[i].times != [] && states[i].serialMs == Median(Last(hist[i].times))
    ensures !BackoffDue(hist[i], states[i], events[i]) ==> states[i + 1].skip <= states[i].skip && hist[i + 1].streak <= hist[i].streak
    ensures Judges(states[i], events[i]) && LossOf(states[i], events[i]) < 0.0 ==> states[i + 1].skip == 0 && hist[i + 1].streak == 0
  {
    RunHolds(states, hist, events, i);
    BackoffIsDue(states[i], hist[i], events[i]);
    if events[i].DraftedCycle? {
      CycleStep(states[i], hist[i], events[i], LossOf(states[i], events[i]));
    }
  }

  predicate Undrafted(e: Event) {
    !e.DraftedCycle?
  }

  lemma {:induction false} CountsDown(states: seq<State>, hist: seq<History>, events: seq<Event>, i: nat, n: nat)
    requires IsRun(states, hist, events) && i + n < |states|
    requires forall k :: i <= k < i + n ==> Undrafted(events[k])
    ensures states[i + n].serialTokens == states[i].serialTokens + n
    ensures states[i + n].skip == (if states[i].skip > n then states[i].skip - n else 0)
  {
    if n > 0 {
      CountsDown(states, hist, events, i, n - 1);
      RunHolds(states, hist, events, i + n - 1);
      assert Undrafted(events[i + n - 1]);
    }
  }

  /** Drafting is open again after at most 128 tokens without a draft, wherever a run stands. */
  lemma ReopensWithin128(states: seq<State>, hist: seq<History>, events: seq<Event>, i: nat)
    requires IsRun(states, hist, events) && i + 128 < |states|
    requires forall k :: i <= k < i + 128 ==> Undrafted(events[k])
    ensures MayDraft(states[i + 128])
  {
    RunHolds(states, hist, events, i);
    CountsDown(states, hist, events, i, 128);
  }
}
