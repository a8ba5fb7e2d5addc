/** The route as it travels with every request: the entries behind the first hop and the
    return target, with the three parsers the workers use. */
module RouteBlob {
  import opened Wrappers
  import opened Words
  import opened Bytes
  import RouteSearch

  const HOST_MAX: nat := 1025
  const ENTRY_BYTES: nat := 20
  const RETURN_BYTES: nat := 12
  const UPSTREAM: nat := 1

  datatype Entry = Entry(host: seq<Byte>, port: nat, lo: nat, hi: nat, flags: nat)

  datatype Return = Return(kind: nat, host: seq<Byte>, port: nat)

  // ---- Encoding ------------------------------------------------------------

  function EncodeFixed(hostLen: nat, e: Entry): (b: seq<Byte>)
    ensures |b| == ENTRY_BYTES
  {
    BigEndian(hostLen) + BigEndian(e.port) + BigEndian(e.lo) + BigEndian(e.hi) + BigEndian(e.flags)
  }

  function EncodeEntry(e: Entry): seq<Byte> {
    EncodeFixed(|e.host|, e) + e.host
  }

  function EncodeEntries(es: seq<Entry>): seq<Byte> {
    if es == [] then [] else EncodeEntry(es[0]) + EncodeEntries(es[1..])
  }

  const UPSTREAM_BYTES: seq<Byte> := BigEndian(UPSTREAM) + BigEndian(0) + BigEndian(0)

  function EncodePlan(es: seq<Entry>): seq<Byte> {
    if es == [] then [] else EncodeEntries(es) + UPSTREAM_BYTES
  }

  predicate HostOk(h: seq<Byte>) {
    0 < |h| < HOST_MAX && 0 !in h
  }

  predicate EntryOk(e: Entry, n: nat) {
    && HostOk(e.host) && 0 < e.port <= 65535 && e.lo <= e.hi < n
    && e.flags <= 1 && (e.flags == 1 ==> e.hi + 1 == n)
  }

  /** A route every worker accepts: sound entries over consecutive ranges. */
  predicate RouteOk(es: seq<Entry>, n: nat) {
    && (forall i :: 0 <= i < |es| ==> EntryOk(es[i], n))
    && (forall i :: 0 < i < |es| ==> Follows(es, i))
  }

  predicate Follows(es: seq<Entry>, i: nat)
    requires 0 < i < |es|
  {
    es[i].lo == es[i - 1].hi + 1
  }

  // ---- Parsing -------------------------------------------------------------

  /** The next entry and what follows it. The lookup of the return target checks less: with
      `strict` off, empty and oversized hosts pass. */
  function TakeEntry(b: seq<Byte>, strict: bool): (r: Option<Entry>)
    ensures r.Some? ==> ENTRY_BYTES + |r.value.host| <= |b| && 0 !in r.value.host && (strict ==> HostOk(r.value.host))
  {
    if |b| < ENTRY_BYTES then None
    else
      var len := FromBigEndian(b[..4]);
      if (strict && (len == 0 || len >= HOST_MAX)) || len > |b| - ENTRY_BYTES || 0 in b[ENTRY_BYTES..ENTRY_BYTES + len] then None
      else Some(Entry(b[ENTRY_BYTES..ENTRY_BYTES + len], FromBigEndian(b[4..8]), FromBigEndian(b[8..12]),
                      FromBigEndian(b[12..16]), FromBigEndian(b[16..20])))
  }

  function After(b: seq<Byte>, e: Entry): (r: seq<Byte>)
    requires ENTRY_BYTES + |e.host| <= |b|
    ensures |r| < |b|
  {
    b[ENTRY_BYTES + |e.host|..]
  }

  function GetEntry(b: seq<Byte>, count: nat, target: nat): Option<Entry>
    decreases target
  {
    if target >= count then None
    else
      match TakeEntry(b, true)
      case None => None
      case Some(e) => if target == 0 then Some(e) else GetEntry(After(b, e), count - 1, target - 1)
  }

  /** The return target, which must be the last thing in the payload. */
  function TakeReturn(b: seq<Byte>): Option<Return> {
    if |b| < RETURN_BYTES then None
    else
      var len := FromBigEndian(b[4..8]);
      if len >= HOST_MAX || len > |b| - RETURN_BYTES || 0 in b[RETURN_BYTES..RETURN_BYTES + len] || len < |b| - RETURN_BYTES then None
      else Some(Return(FromBigEndian(b[..4]), b[RETURN_BYTES..RETURN_BYTES + len], FromBigEndian(b[8..12])))
  }

  function SkipEntries(b: seq<Byte>, count: nat): Option<seq<Byte>>
    decreases count
  {
    if count == 0 then Some(b)
    else
      match TakeEntry(b, false)
      case None => None
      case Some(e) => SkipEntries(After(b, e), count - 1)
  }

  function GetReturn(b: seq<Byte>, count: nat): Option<Return> {
    if count == 0 then None
    else
      match SkipEntries(b, count)
      case None => None
      case Some(rest) => TakeReturn(rest)
  }

  /** The rest of a payload after `i` entries, the last of them ending at `prev`. */
  predicate ValidRest(b: seq<Byte>, left: nat, n: nat, first: bool, prev: nat)
    decreases left
  {
    if left == 0 then TakeReturn(b) == Some(Return(UPSTREAM, [], 0))
    else
      var e := TakeEntry(b, true);
      && e.Some? && EntryOk(e.value, n) && (!first ==> e.value.lo == prev + 1)
      && ValidRest(After(b, e.value), left - 1, n, false, e.value.hi)
  }

  predicate Validate(b: seq<Byte>, count: nat, n: nat) {
    if count == 0 then b == [] else ValidRest(b, count, n, true, 0)
  }

  // ---- Round trip ----------------------------------------------------------

  lemma FixedDecoded(hostLen: nat, e: Entry, rest: seq<Byte>)
    requires hostLen < U32 && e.port < U32 && e.lo < U32 && e.hi < U32 && e.flags < U32
    ensures var b := EncodeFixed(hostLen, e) + rest;
            && FromBigEndian(b[..4]) == hostLen && FromBigEndian(b[4..8]) == e.port && FromBigEndian(b[8..12]) == e.lo
            && FromBigEndian(b[12..16]) == e.hi && FromBigEndian(b[16..20]) == e.flags && b[ENTRY_BYTES..] == rest
  {
    var b := EncodeFixed(hostLen, e) + rest;
    NetworkRoundTrip(hostLen);
    NetworkRoundTrip(e.port);
    NetworkRoundTrip(e.lo);
    NetworkRoundTrip(e.hi);
    NetworkRoundTrip(e.flags);
    assert b[..4] == BigEndian(hostLen) && b[4..8] == BigEndian(e.port) && b[8..12] == BigEndian(e.lo);
    assert b[12..16] == BigEndian(e.hi) && b[16..20] == BigEndian(e.flags);
  }

  lemma EntryTaken(e: Entry, n: nat, rest: seq<Byte>, strict: bool)
    requires EntryOk(e, n) && n < U32
    ensures TakeEntry(EncodeEntry(e) + rest, strict) == Some(e) && After(EncodeEntry(e) + rest, e) == rest
  {
    var b, len := EncodeEntry(e) + rest, |e.host|;
    assert b == EncodeFixed(len, e) + (e.host + rest);
    FixedDecoded(len, e, e.host + rest);
    assert b[ENTRY_BYTES..ENTRY_BYTES + len] == b[ENTRY_BYTES..][..len] == e.host;
    assert b[ENTRY_BYTES + len..] == b[ENTRY_BYTES..][len..];
  }

  /** Any bytes the parser takes as an entry are that entry's encoding. */
  lemma TakenEncoded(b: seq<Byte>, strict: bool)
    requires AreBytes(b) && TakeEntry(b, strict).Some?
    ensures var e := TakeEntry(b, strict).value; b == EncodeEntry(e) + After(b, e)
  {
    var e := TakeEntry(b, strict).value;
    var len := |e.host|;
    NetworkBytes(b[..4]);
    NetworkBytes(b[4..8]);
    NetworkBytes(b[8..12]);
    NetworkBytes(b[12..16]);
    NetworkBytes(b[16..20]);
    assert b[..ENTRY_BYTES] == b[..4] + b[4..8] + b[8..12] + b[12..16] + b[16..20];
    assert b == b[..ENTRY_BYTES] + b[ENTRY_BYTES..ENTRY_BYTES + len] + b[ENTRY_BYTES + len..];
  }

  lemma UpstreamTaken()
    ensures TakeReturn(UPSTREAM_BYTES) == Some(Return(UPSTREAM, [], 0))
  {
    var b := UPSTREAM_BYTES;
    NetworkRoundTrip(0);
    NetworkRoundTrip(UPSTREAM);
    assert b[..4] == BigEndian(UPSTREAM) && b[4..8] == BigEndian(0) && b[8..12] == BigEndian(0);
    assert b[RETURN_BYTES..RETURN_BYTES + 0] == [];
  }

  lemma UpstreamOnly(b: seq<Byte>)
    requires AreBytes(b) && TakeReturn(b) == Some(Return(UPSTREAM, [], 0))
    ensures b == UPSTREAM_BYTES
  {
    NetworkBytes(b[..4]);
    NetworkBytes(b[4..8]);
    NetworkBytes(b[8..12]);
    assert FromBigEndian(b[4..8]) == 0;
    assert b == b[..4] + b[4..8] + b[8..12];
  }

  /** What a prefix of entries does not look at. */
  predicate Chained(es: seq<Entry>, n: nat, first: bool, prev: nat) {
    RouteOk(es, n) && (es != [] && !first ==> es[0].lo == prev + 1)
  }

  lemma ChainedTail(es: seq<Entry>, n: nat, first: bool, prev: nat)
    requires Chained(es, n, first, prev) && es != []
    ensures EntryOk(es[0], n) && Chained(es[1..], n, false, es[0].hi)
  {
    forall i | 0 < i < |es[1..]| ensures Follows(es[1..], i) {
      assert Follows(es, i + 1);
    }
    if |es| > 1 { assert Follows(es, 1); }
  }

  lemma {:induction false} EncodedValid(es: seq<Entry>, n: nat, first: bool, prev: nat)
    requires Chained(es, n, first, prev) && n < U32
    ensures ValidRest(EncodeEntries(es) + UPSTREAM_BYTES, |es|, n, first, prev)
  {
    if es == [] {
      assert EncodeEntries(es) + UPSTREAM_BYTES == UPSTREAM_BYTES;
      UpstreamTaken();
    } else {
      ChainedTail(es, n, first, prev);
      var rest := EncodeEntries(es[1..]) + UPSTREAM_BYTES;
      FirstOut(es, UPSTREAM_BYTES);
      EntryTaken(es[0], n, rest, true);
      EncodedValid(es[1..], n, false, es[0].hi);
      ValidStep(EncodeEntries(es) + UPSTREAM_BYTES, es[0], rest, |es| - 1, n, first, prev);
    }
  }

  lemma ValidStep(b: seq<Byte>, e: Entry, rest: seq<Byte>, left: nat, n: nat, first: bool, prev: nat)
    requires TakeEntry(b, true) == Some(e) && After(b, e) == rest
    requires EntryOk(e, n) && (!first ==> e.lo == prev + 1) && ValidRest(rest, left, n, false, e.hi)
    ensures ValidRest(b, left + 1, n, first, prev)
  {
  }

  /** A payload that validates is the encoding of a sound route, and of only one. */
  lemma {:induction false} ValidEncoded(b: seq<Byte>, left: nat, n: nat, first: bool, prev: nat) returns (es: seq<Entry>)
    requires AreBytes(b) && ValidRest(b, left, n, first, prev)
    ensures |es| == left && Chained(es, n, first, prev) && b == EncodeEntries(es) + UPSTREAM_BYTES
    decreases left
  {
    hide TakeEntry, EncodeEntry;
    if left == 0 {
      es := [];
      UpstreamOnly(b);
      assert EncodeEntries(es) + UPSTREAM_BYTES == UPSTREAM_BYTES;
    } else {
      var e := TakeEntry(b, true).value;
      TakenEncoded(b, true);
      var tail := ValidEncoded(After(b, e), left - 1, n, false, e.hi);
      es := [e] + tail;
      ChainedCons(e, tail, n, first, prev);
      FirstOut(es, UPSTREAM_BYTES);
      assert es[1..] == tail;
    }
  }

  lemma ChainedCons(e: Entry, tail: seq<Entry>, n: nat, first: bool, prev: nat)
    requires EntryOk(e, n) && Chained(tail, n, false, e.hi) && (!first ==> e.lo == prev + 1)
    ensures Chained([e] + tail, n, first, prev)
  {
    var es := [e] + tail;
    forall i | 0 < i < |es| ensures Follows(es, i) {
      if i > 1 { assert Follows(tail, i - 1); }
    }
  }

  /** The first entry's bytes, and the rest. */
  lemma FirstOut(es: seq<Entry>, rest: seq<Byte>)
    requires es != []
    ensures EncodeEntries(es) + rest == EncodeEntry(es[0]) + (EncodeEntries(es[1..]) + rest)
  {
    var head, tail := EncodeEntry(es[0]), EncodeEntries(es[1..]);
    assert head + tail + rest == head + (tail + rest);
  }

  lemma {:induction false} EntryFound(es: seq<Entry>, n: nat, rest: seq<Byte>, b: seq<Byte>, i: nat)
    requires RouteOk(es, n) && n < U32 && i < |es| && b == EncodeEntries(es) + rest
    ensures GetEntry(b, |es|, i) == Some(es[i])
    decreases i
  {
    hide EncodeEntries, EncodeEntry, TakeEntry, GetEntry, RouteOk;
    var tail := es[1..];
    var more := EncodeEntries(tail) + rest;
    ChainedTail(es, n, true, 0);
    FirstOut(es, rest);
    EntryTaken(es[0], n, more, true);
    if i > 0 {
      EntryFound(tail, n, rest, more, i - 1);
      FoundLater(b, es[0], more, |es|, i);
    } else {
      FoundFirst(b, es[0], |es|);
    }
  }

  lemma FoundFirst(b: seq<Byte>, e: Entry, count: nat)
    requires TakeEntry(b, true) == Some(e) && 0 < count
    ensures GetEntry(b, count, 0) == Some(e)
  {
  }

  lemma FoundLater(b: seq<Byte>, e: Entry, rest: seq<Byte>, count: nat, i: nat)
    requires TakeEntry(b, true) == Some(e) && After(b, e) == rest && 0 < i < count
    ensures GetEntry(b, count, i) == GetEntry(rest, count - 1, i - 1)
  {
  }

  lemma {:induction false} EntriesSkipped(es: seq<Entry>, n: nat, rest: seq<Byte>)
    requires RouteOk(es, n) && n < U32
    ensures SkipEntries(EncodeEntries(es) + rest, |es|) == Some(rest)
  {
    hide EncodeEntry, TakeEntry, RouteOk;
    if es == [] {
      assert EncodeEntries(es) + rest == rest;
    } else {
      ChainedTail(es, n, true, 0);
      var more := EncodeEntries(es[1..]) + rest;
      FirstOut(es, rest);
      EntryTaken(es[0], n, more, false);
      EntriesSkipped(es[1..], n, rest);
    }
  }

  /** Main result, one way: the encoding of a sound route validates, entry `i` decodes to entry
      `i`, and the return target decodes to "upstream". */
  lemma EncodedRouteDecodes(es: seq<Entry>, n: nat)
    requires RouteOk(es, n) && n < U32
    ensures Validate(EncodePlan(es), |es|, n)
    ensures forall i: nat :: i < |es| ==> GetEntry(EncodePlan(es), |es|, i) == Some(es[i])
    ensures es != [] ==> GetReturn(EncodePlan(es), |es|) == Some(Return(UPSTREAM, [], 0))
  {
    if es != [] {
      EncodedValid(es, n, true, 0);
      EntriesSkipped(es, n, UPSTREAM_BYTES);
      UpstreamTaken();
      forall i: nat | i < |es| ensures GetEntry(EncodePlan(es), |es|, i) == Some(es[i]) {
        EntryFound(es, n, UPSTREAM_BYTES, EncodePlan(es), i);
      }
    }
  }

  /** Main result, the other way: whatever validates is the encoding of a sound route, so every
      later lookup succeeds and the ranges it reports are consecutive. */
  lemma ValidatedLookups(b: seq<Byte>, count: nat, n: nat) returns (es: seq<Entry>)
    requires AreBytes(b) && Validate(b, count, n) && n < U32
    ensures |es| == count && RouteOk(es, n) && b == EncodePlan(es)
    ensures forall i: nat :: i < count ==> GetEntry(b, count, i) == Some(es[i])
    ensures 0 < count ==> GetReturn(b, count) == Some(Return(UPSTREAM, [], 0))
  {
    if count == 0 {
      es := [];
    } else {
      es := ValidEncoded(b, count, n, true, 0);
    }
    EncodedRouteDecodes(es, n);
  }

  // ---- The loops -----------------------------------------------------------

  method HasNul(b: seq<Byte>) returns (r: bool)
    ensures r == (0 in b)
  {
    for i := 0 to |b|
      invariant 0 !in b[..i]
    {
      if b[i] == 0 {
        return true;
      }
      assert b[..i + 1] == b[..i] + [b[i]];
    }
    assert b[..|b|] == b;
    return false;
  }

  /** Reads the entry at `p`. */
  method ReadEntry(b: seq<Byte>, p: nat, strict: bool) returns (r: Option<Entry>)
    requires p <= |b|
    ensures r == TakeEntry(b[p..], strict)
  {
    if |b| - p < ENTRY_BYTES {
      return None;
    }
    var t := b[p..];
    var len := FromBigEndian(t[..4]);
    if (strict && (len == 0 || len >= HOST_MAX)) || len > |t| - ENTRY_BYTES {
      return None;
    }
    var host := t[ENTRY_BYTES..ENTRY_BYTES + len];
    var nul := HasNul(host);
    if nul {
      return None;
    }
    return Some(Entry(host, FromBigEndian(t[4..8]), FromBigEndian(t[8..12]), FromBigEndian(t[12..16]), FromBigEndian(t[16..20])));
  }

  method LookUpEntry(b: seq<Byte>, count: nat, target: nat) returns (r: Option<Entry>)
    ensures r == GetEntry(b, count, target)
  {
    hide TakeEntry;
    if target >= count {
      return None;
    }
    var p: nat := 0;
    ghost var rest := b;
    for i := 0 to count
      invariant p <= |b| && i <= target && rest == b[p..]
      invariant GetEntry(b, count, target) == GetEntry(rest, count - i, target - i)
    {
      var e := ReadEntry(b, p, true);
      if e.None? {
        return None;
      }
      if i == target {
        return e;
      }
      rest := After(rest, e.value);
      p := p + ENTRY_BYTES + |e.value.host|;
    }
    return None;
  }

  method LookUpReturn(b: seq<Byte>, count: nat) returns (r: Option<Return>)
    ensures r == GetReturn(b, count)
  {
    hide TakeEntry, TakeReturn;
    if count == 0 {
      return None;
    }
    var p: nat := 0;
    ghost var rest := b;
    for i := 0 to count
      invariant p <= |b| && rest == b[p..]
      invariant SkipEntries(b, count) == SkipEntries(rest, count - i)
    {
      var e := ReadEntry(b, p, false);
      if e.None? {
        return None;
      }
      rest := After(rest, e.value);
      p := p + ENTRY_BYTES + |e.value.host|;
    }
    r := ReadReturn(b[p..]);
  }

  method ReadReturn(b: seq<Byte>) returns (r: Option<Return>)
    ensures r == TakeReturn(b)
  {
    if |b| < RETURN_BYTES {
      return None;
    }
    var len := FromBigEndian(b[4..8]);
    if len >= HOST_MAX || len > |b| - RETURN_BYTES {
      return None;
    }
    var host := b[RETURN_BYTES..RETURN_BYTES + len];
    var nul := HasNul(host);
    if nul || |b| - RETURN_BYTES != len {
      return None;
    }
    return Some(Return(FromBigEndian(b[..4]), host, FromBigEndian(b[8..12])));
  }

  method ValidateBlob(b: seq<Byte>, count: nat, n: nat) returns (ok: bool)
    ensures ok == Validate(b, count, n)
  {
    hide TakeEntry, TakeReturn;
    if count == 0 {
      return |b| == 0;
    }
    var p: nat, prev: nat := 0, 0;
    ghost var rest := b;
    for i := 0 to count
      invariant p <= |b| && rest == b[p..]
      invariant ValidRest(b, count, n, true, 0) == ValidRest(rest, count - i, n, i == 0, prev)
    {
      var r := ReadEntry(b, p, true);
      if r.None? {
        return false;
      }
      var e := r.value;
      if e.port == 0 || e.port > 65535 || e.lo >= n || e.hi >= n || e.hi < e.lo || e.flags > 1
         || (e.flags == 1 && e.hi + 1 != n) || (i != 0 && e.lo != prev + 1) {
        assert !EntryOk(e, n) || (i != 0 && e.lo != prev + 1);
        return false;
      }
      assert EntryOk(e, n);
      rest := After(rest, e);
      p := p + ENTRY_BYTES + |e.host|;
      prev := e.hi;
    }
    var ret := ReadReturn(b[p..]);
    return ret == Some(Return(UPSTREAM, [], 0));
  }

  /** The planner's payload, entry by entry; nothing when a host is unusable or it grows too large. */
  method BuildBlob(es: seq<Entry>) returns (r: Option<seq<Byte>>)
    ensures r.Some? ==> r.value == EncodePlan(es) && |r.value| < U32
    ensures r.None? ==> (exists e :: e in es && !(0 < |e.host| < HOST_MAX)) || U32 <= |EncodePlan(es)|
  {
    var b := [];
    assert EncodeEntries(es[..0]) == [];
    for i := 0 to |es|
      invariant b == EncodeEntries(es[..i]) && |b| < U32 && |b| <= |EncodeEntries(es)|
    {
      var e := es[i];
      EncodeGrows(es, i);
      if |e.host| == 0 || |e.host| >= HOST_MAX {
        assert e in es;
        return None;
      }
      if |b| + ENTRY_BYTES + |e.host| >= U32 {
        return None;
      }
      b := b + EncodeEntry(e);
    }
    assert es[..|es|] == es;
    if |es| != 0 {
      if |b| + RETURN_BYTES >= U32 {
        return None;
      }
      b := b + UPSTREAM_BYTES;
    }
    return Some(b);
  }

  lemma {:induction false} EncodeConcat(a: seq<Entry>, b: seq<Entry>)
    ensures EncodeEntries(a + b) == EncodeEntries(a) + EncodeEntries(b)
  {
    if a == [] {
      assert a + b == b;
    } else {
      assert (a + b)[1..] == a[1..] + b;
      EncodeConcat(a[1..], b);
    }
  }

  lemma EncodeGrows(es: seq<Entry>, i: nat)
    requires i < |es|
    ensures EncodeEntries(es[..i + 1]) == EncodeEntries(es[..i]) + EncodeEntry(es[i])
    ensures |EncodeEntries(es[..i + 1])| <= |EncodeEntries(es)|
  {
    assert es[..i + 1] == es[..i] + [es[i]];
    EncodeConcat(es[..i], [es[i]]);
    assert EncodeEntries([es[i]]) == EncodeEntry(es[i]) + EncodeEntries([es[i]][1..]);
    assert es == es[..i + 1] + es[i + 1..];
    EncodeConcat(es[..i + 1], es[i + 1..]);
  }

  // ---- What the planner builds ---------------------------------------------

  /** What registration checks of a worker. */
  predicate Registered(w: RouteSearch.Worker, n: nat) {
    HostOk(w.host) && 0 < w.port <= 65535 && w.lo <= w.hi < n && (w.hasOutput ==> w.hi + 1 == n)
  }

  function EntryOf(w: RouteSearch.Worker): Entry {
    Entry(w.host, w.port, w.lo, w.hi, if w.hasOutput then 1 else 0)
  }

  function EntriesOf(route: seq<RouteSearch.Worker>): (es: seq<Entry>)
    ensures |es| == |route|
  {
    if route == [] then [] else [EntryOf(route[0])] + EntriesOf(route[1..])
  }

  /** Every route the planner finds over registered workers is a sound one. */
  lemma {:induction false} PlannedRouteOk(headLocal: bool, ws: seq<RouteSearch.Worker>, route: seq<RouteSearch.Worker>, next: nat, n: nat)
    requires 0 < n && (forall w :: w in ws ==> Registered(w, n)) && RouteSearch.IsChain(headLocal, ws, route, next, n - 1)
    ensures RouteOk(EntriesOf(route), n) && (route != [] ==> route[0].lo == next)
  {
    if route != [] {
      PlannedRouteOk(headLocal, ws, route[1..], route[0].hi + 1, n);
      var es := EntriesOf(route);
      assert es[1..] == EntriesOf(route[1..]);
      assert Registered(route[0], n);
      forall i | 0 <= i < |es| ensures EntryOk(es[i], n) {
        if i > 0 { assert EntryOk(es[1..][i - 1], n); }
      }
      forall i | 0 < i < |es| ensures Follows(es, i) {
        if i > 1 { assert Follows(es[1..], i - 1); }
      }
    }
  }
}
