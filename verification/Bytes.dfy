/** Four-byte words in both byte orders, and sequences of little-endian ones. */
module Bytes {
  import opened Words

  type Byte = nat

  function Bytes4(v: nat): (b: seq<Byte>)
    ensures |b| == 4
  {
    [v % 256, v / 0x100 % 256, v / 0x1_0000 % 256, v / 0x100_0000 % 256]
  }

  function U32Of(b: seq<Byte>): nat
    requires |b| == 4
  {
    b[0] + 0x100 * b[1] + 0x1_0000 * b[2] + 0x100_0000 * b[3]
  }

  predicate AreBytes(b: seq<Byte>) {
    forall i :: 0 <= i < |b| ==> b[i] < 256
  }

  predicate AreWords(xs: seq<nat>) {
    forall i :: 0 <= i < |xs| ==> xs[i] < U32
  }

  lemma WordRoundTrip(v: nat)
    requires v < U32
    ensures U32Of(Bytes4(v)) == v
  {
    var a, b, c := v / 0x100, v / 0x1_0000, v / 0x100_0000;
    assert a / 0x100 == b && b / 0x100 == c;
    assert v == v % 0x100 + 0x100 * a && a == a % 0x100 + 0x100 * b && b == b % 0x100 + 0x100 * c;
    assert c < 0x100;
  }

  lemma DigitsOf(b0: nat, b1: nat, b2: nat, b3: nat, v: nat)
    requires b0 < 256 && b1 < 256 && b2 < 256 && b3 < 256
    requires v == b0 + 0x100 * b1 + 0x1_0000 * b2 + 0x100_0000 * b3
    ensures v % 256 == b0 && v / 0x100 % 256 == b1 && v / 0x1_0000 % 256 == b2 && v / 0x100_0000 % 256 == b3
  {
    assert v / 0x100 == b1 + 0x100 * b2 + 0x1_0000 * b3;
    assert v / 0x1_0000 == b2 + 0x100 * b3;
    assert v / 0x100_0000 == b3;
  }

  lemma BytesRoundTrip(b: seq<Byte>)
    requires |b| == 4 && AreBytes(b)
    ensures U32Of(b) < U32 && Bytes4(U32Of(b)) == b
  {
    DigitsOf(b[0], b[1], b[2], b[3], U32Of(b));
  }

  function Encode(xs: seq<nat>): (b: seq<Byte>)
    ensures |b| == 4 * |xs|
  {
    if xs == [] then [] else Bytes4(xs[0]) + Encode(xs[1..])
  }

  function Decode(b: seq<Byte>, n: nat): (xs: seq<nat>)
    requires 4 * n <= |b|
    ensures |xs| == n
    decreases |b|
  {
    if n == 0 then [] else [U32Of(b[..4])] + Decode(b[4..], n - 1)
  }

  lemma {:induction false} DecodeEncode(xs: seq<nat>, rest: seq<Byte>)
    requires AreWords(xs)
    ensures Decode(Encode(xs) + rest, |xs|) == xs
  {
    if xs != [] {
      WordRoundTrip(xs[0]);
      DecodeEncode(xs[1..], rest);
      var b := Encode(xs) + rest;
      assert b[..4] == Bytes4(xs[0]);
      assert b[4..] == Encode(xs[1..]) + rest;
    }
  }

  lemma {:induction false} EncodeDecode(b: seq<Byte>, n: nat)
    requires AreBytes(b) && 4 * n <= |b|
    ensures AreWords(Decode(b, n)) && Encode(Decode(b, n)) == b[..4 * n]
    decreases n
  {
    if n > 0 {
      BytesRoundTrip(b[..4]);
      EncodeDecode(b[4..], n - 1);
      assert Decode(b, n)[1..] == Decode(b[4..], n - 1);
      assert b[..4] + b[4..][..4 * (n - 1)] == b[..4 * n];
    }
  }

  lemma {:induction false} DecodeNext(b: seq<Byte>, n: nat)
    requires 4 * (n + 1) <= |b|
    ensures Decode(b, n + 1) == Decode(b, n) + [U32Of(b[4 * n..4 * n + 4])]
    decreases n
  {
    hide U32Of;
    if n > 0 {
      var t := b[4..];
      DecodeNext(t, n - 1);
      LaterWord(b, n);
      Regroup([U32Of(b[..4])], Decode(t, n - 1), [U32Of(b[4 * n..4 * n + 4])]);
    }
  }

  lemma LaterWord(b: seq<Byte>, n: nat)
    requires 0 < n && 4 * (n + 1) <= |b|
    ensures b[4..][4 * (n - 1)..4 * (n - 1) + 4] == b[4 * n..4 * n + 4]
  {
  }

  lemma Regroup(x: seq<nat>, y: seq<nat>, z: seq<nat>)
    ensures x + (y + z) == x + y + z
  {
  }

  lemma {:induction false} DecodePrefix(b: seq<Byte>, i: nat, n: nat)
    requires i <= n
    ensures 4 * n <= |b| ==> Decode(b, n)[..i] == Decode(b, i)
    decreases n
  {
    if i < n && 4 * n <= |b| {
      DecodePrefix(b, i, n - 1);
      DecodeNext(b, n - 1);
    }
  }

  lemma {:induction false} EncodeNext(xs: seq<nat>, v: nat)
    ensures Encode(xs + [v]) == Encode(xs) + Bytes4(v)
  {
    if xs == [] {
      assert Encode([v]) == Bytes4(v) + Encode([v][1..]);
    } else {
      assert (xs + [v])[1..] == xs[1..] + [v];
      EncodeNext(xs[1..], v);
    }
  }

  // ---- Network byte order --------------------------------------------------

  function BigEndian(v: nat): (b: seq<Byte>)
    ensures |b| == 4
  {
    [v / 0x100_0000 % 256, v / 0x1_0000 % 256, v / 0x100 % 256, v % 256]
  }

  function FromBigEndian(b: seq<Byte>): nat
    requires |b| == 4
  {
    0x100_0000 * b[0] + 0x1_0000 * b[1] + 0x100 * b[2] + b[3]
  }

  lemma NetworkRoundTrip(v: nat)
    requires v < U32
    ensures FromBigEndian(BigEndian(v)) == v
  {
    WordRoundTrip(v);
  }

  lemma NetworkBytes(b: seq<Byte>)
    requires |b| == 4 && AreBytes(b)
    ensures FromBigEndian(b) < U32 && BigEndian(FromBigEndian(b)) == b
  {
    DigitsOf(b[3], b[2], b[1], b[0], FromBigEndian(b));
  }
}
