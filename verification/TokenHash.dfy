/** The running hash that names a token prefix: FNV-1a over the four little-endian
    bytes of each token id, as the coordinator and the workers compute it. */
module TokenHash {
  import opened Words

  type Token = nat
  type Hash = nat

  const INIT: Hash := 1469598103934665603
  const PRIME: Hash := 1099511628211

  /** Byte `i` of a token id, counted from the low end. */
  function TokenByte(t: Token, i: nat): nat {
    if i == 0 then t % 256 else TokenByte(t / 256, i - 1)
  }

  function FoldBytes(h: Hash, t: Token, n: nat): Hash {
    if n == 0 then h else (Xor(FoldBytes(h, t, n - 1), TokenByte(t, n - 1)) * PRIME) % U64
  }

  function Span(h: Hash, tokens: seq<Token>): Hash
    decreases |tokens|
  {
    if tokens == [] then h
    else FoldBytes(Span(h, tokens[..|tokens| - 1]), tokens[|tokens| - 1], 4)
  }

  function Prefix(tokens: seq<Token>): Hash {
    Span(INIT, tokens)
  }

  method UpdateToken(h: Hash, t: Token) returns (r: Hash)
    ensures r == Span(h, [t])
  {
    r := h;
    for i := 0 to 4
      invariant r == FoldBytes(h, t, i)
    {
      r := Xor(r, TokenByte(t, i));
      r := r * PRIME % U64;
    }
    assert [t][..0] == [];
    assert Span(h, [t]) == FoldBytes(Span(h, []), t, 4);
  }

  method UpdateSpan(h: Hash, tokens: seq<Token>) returns (r: Hash)
    ensures r == Span(h, tokens)
  {
    r := h;
    for i := 0 to |tokens|
      invariant r == Span(h, tokens[..i])
    {
      r := UpdateToken(r, tokens[i]);
      SpanConcat(h, tokens[..i], [tokens[i]]);
      assert tokens[..i] + [tokens[i]] == tokens[..i + 1];
    }
    assert tokens[..|tokens|] == tokens;
  }

  /** Hashing a prompt in pieces gives the hash of the whole prompt. */
  lemma {:induction false} SpanConcat(h: Hash, a: seq<Token>, b: seq<Token>)
    ensures Span(h, a + b) == Span(Span(h, a), b)
    decreases |b|
  {
    if b == [] {
      assert a + b == a;
    } else {
      var k := |b| - 1;
      assert (a + b)[..|a + b| - 1] == a + b[..k];
      SpanConcat(h, a, b[..k]);
    }
  }
}
