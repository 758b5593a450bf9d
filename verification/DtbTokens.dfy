/** Token streams over bytes, for any reader of one token.

    The rewriter's proofs work chunk by chunk: a chunk is a byte string that is exactly one
    token. What a reader must satisfy is stated here; DtbFormat supplies the real one.
 */
module DtbTokens {
  import opened Wrappers

  type Blob = Bytes

  datatype Token = Begin(name: Blob) | End | Prop(name: Blob, value: Blob) | Nop | Finish

  datatype Head = Head(token: Token, size: nat)

  /** The token at the front of a byte string, and how many bytes it takes. */
  type Reader = Blob -> Option<Head>

  ghost predicate Sane(r: Reader) {
    forall s :: r(s).Some? ==> 0 < r(s).value.size <= |s| && r(s).value.size % 4 == 0
  }

  /** Stands for `r(s)` where a quantifier over readers is meant to be used. */
  function At(r: Reader, s: Blob): Option<Head> {
    r(s)
  }

  /** A token reads no further than its own bytes. */
  ghost predicate Local(r: Reader) {
    forall s, t {:trigger At(r, s), At(r, t)} :: s <= t && r(s).Some? ==> r(t) == r(s)
  }

  /** A token's own bytes read as that token. */
  ghost predicate Tight(r: Reader) {
    forall s {:trigger At(r, s)} :: r(s).Some? && r(s).value.size <= |s| ==> r(s[..r(s).value.size]) == r(s)
  }

  lemma LocalAt(r: Reader, s: Blob, t: Blob)
    requires Local(r) && s <= t && r(s).Some?
    ensures r(t) == r(s)
  {
    assert At(r, s) == r(s) && At(r, t) == r(t);
  }

  lemma TightAt(r: Reader, s: Blob)
    requires Tight(r) && r(s).Some? && r(s).value.size <= |s|
    ensures r(s[..r(s).value.size]) == r(s)
  {
    assert At(r, s) == r(s);
  }

  /** What `r` can read, `r'` reads alike. */
  ghost predicate Extends(r: Reader, r': Reader) {
    forall s :: r(s).Some? ==> r'(s) == r(s)
  }

  function Prepend(tokens: seq<Token>, rest: Option<seq<Token>>): Option<seq<Token>> {
    if rest.None? then None else Some(tokens + rest.value)
  }

  /** The tokens up to and including the end marker, or to the end of the block. */
  ghost function Walk(r: Reader, s: Blob): Option<seq<Token>>
    requires Sane(r)
    decreases |s|
  {
    if s == [] then Some([])
    else if r(s).None? then None
    else if r(s).value.token.Finish? then Some([Finish])
    else Prepend([r(s).value.token], Walk(r, s[r(s).value.size..]))
  }

  ghost predicate IsToken(r: Reader, c: Blob, token: Token) {
    r(c) == Some(Head(token, |c|)) && !token.Finish?
  }

  ghost predicate Chunked(r: Reader, chunks: seq<Blob>, tokens: seq<Token>) {
    |chunks| == |tokens| && forall i :: 0 <= i < |chunks| ==> IsToken(r, chunks[i], tokens[i])
  }

  lemma {:induction false} ConcatAppend(chunks: seq<Blob>, more: seq<Blob>)
    ensures Concat(chunks + more) == Concat(chunks) + Concat(more)
    decreases |chunks|
  {
    if chunks == [] {
      assert chunks + more == more;
    } else {
      assert (chunks + more)[1..] == chunks[1..] + more;
      ConcatAppend(chunks[1..], more);
    }
  }

  lemma AppendChunk(r: Reader, chunks: seq<Blob>, tokens: seq<Token>, c: Blob, token: Token)
    requires Chunked(r, chunks, tokens) && IsToken(r, c, token)
    ensures Chunked(r, chunks + [c], tokens + [token])
    ensures Concat(chunks + [c]) == Concat(chunks) + c
  {
    ConcatAppend(chunks, [c]);
    assert [c][1..] == [];
    assert Concat([c]) == c;
  }

  lemma ChunkedGrows(r: Reader, r': Reader, chunks: seq<Blob>, tokens: seq<Token>)
    requires Chunked(r, chunks, tokens) && Extends(r, r')
    ensures Chunked(r', chunks, tokens)
  {
    forall i | 0 <= i < |chunks| ensures IsToken(r', chunks[i], tokens[i]) {
      assert IsToken(r, chunks[i], tokens[i]);
    }
  }

  lemma ChunkedTail(r: Reader, chunks: seq<Blob>, tokens: seq<Token>)
    requires Chunked(r, chunks, tokens) && chunks != []
    ensures Chunked(r, chunks[1..], tokens[1..])
  {
    forall i | 0 <= i < |chunks[1..]| ensures IsToken(r, chunks[1..][i], tokens[1..][i]) {
      assert IsToken(r, chunks[i + 1], tokens[i + 1]);
    }
  }

  /** Walking over chunks yields their tokens, then whatever follows. */
  lemma {:induction false} ChunkedWalks(r: Reader, chunks: seq<Blob>, tokens: seq<Token>, t: Blob)
    requires Sane(r) && Local(r) && Chunked(r, chunks, tokens)
    ensures Walk(r, Concat(chunks) + t) == Prepend(tokens, Walk(r, t))
    decreases |chunks|
  {
    if chunks == [] {
      assert Concat(chunks) + t == t;
      PrependNone(Walk(r, t));
    } else {
      var c, rest := chunks[0], Concat(chunks[1..]) + t;
      assert Concat(chunks) + t == c + rest;
      assert IsToken(r, c, tokens[0]);
      LocalAt(r, c, c + rest);
      assert (c + rest)[|c|..] == rest;
      ChunkedTail(r, chunks, tokens);
      ChunkedWalks(r, chunks[1..], tokens[1..], t);
      PrependTwice(tokens, Walk(r, t));
    }
  }

  lemma PrependNone(rest: Option<seq<Token>>)
    ensures Prepend([], rest) == rest
  {
    if rest.Some? {
      assert [] + rest.value == rest.value;
    }
  }

  lemma PrependTwice(tokens: seq<Token>, rest: Option<seq<Token>>)
    requires tokens != []
    ensures Prepend([tokens[0]], Prepend(tokens[1..], rest)) == Prepend(tokens, rest)
  {
    if rest.Some? {
      assert [tokens[0]] + (tokens[1..] + rest.value) == tokens + rest.value;
    }
  }

  lemma {:induction false} ConcatAligned(r: Reader, chunks: seq<Blob>, tokens: seq<Token>)
    requires Sane(r) && Chunked(r, chunks, tokens)
    ensures |Concat(chunks)| % 4 == 0
    decreases |chunks|
  {
    if chunks != [] {
      assert IsToken(r, chunks[0], tokens[0]);
      ChunkedTail(r, chunks, tokens);
      ConcatAligned(r, chunks[1..], tokens[1..]);
      SumAligned(|chunks[0]|, |Concat(chunks[1..])|);
    }
  }

  lemma SumAligned(a: nat, b: nat)
    requires a % 4 == 0 && b % 4 == 0
    ensures (a + b) % 4 == 0
  {
  }
}
