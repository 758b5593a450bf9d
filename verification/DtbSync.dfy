/** Keeping the bytes written in step with the tokens read, for any readers: `r` reads the
    input, `w` the output with the names added so far, `step` the fold's step.
 */
module DtbSync {
  import opened Wrappers
  import opened DtbTokens
  import opened DtbTree

  /** One token of a fold; nothing when the token cannot be taken. */
  type Stepper = (Progress, Token) -> Option<Progress>

  function Folding(step: Stepper, p: Progress, tokens: seq<Token>): Option<Progress>
    decreases |tokens|
  {
    if tokens == [] then Some(p)
    else
      var next := step(p, tokens[0]);
      if next.None? then None else Folding(step, next.value, tokens[1..])
  }

  function StepperOf(repl: Replacements): Stepper {
    (p, t) => StepToken(p, t, repl)
  }

  lemma {:induction false} FoldingIsFold(repl: Replacements, p: Progress, tokens: seq<Token>)
    ensures Folding(StepperOf(repl), p, tokens) == Fold(p, tokens, repl)
    decreases |tokens|
  {
    if tokens != [] && StepToken(p, tokens[0], repl).Some? {
      FoldingIsFold(repl, StepToken(p, tokens[0], repl).value, tokens[1..]);
    }
  }

  ghost predicate GoodReader(r: Reader) {
    Sane(r) && Local(r) && Tight(r)
  }

  /** The fold of what is left to read still leads where the whole fold leads. */
  ghost predicate Reads(r: Reader, source: Blob, pos: nat, p: Progress, step: Stepper)
    requires GoodReader(r)
  {
    && pos <= |source| && Walk(r, source).Some? && Walk(r, source[pos..]).Some?
    && Folding(step, p, Walk(r, source[pos..]).value) == Folding(step, START, Walk(r, source).value)
  }

  /** And the output so far spells the fold's output so far. */
  ghost predicate Sync(r: Reader, source: Blob, pos: nat, w: Reader, output: Blob, chunks: seq<Blob>, p: Progress,
                       step: Stepper)
    requires GoodReader(r)
  {
    && Reads(r, source, pos, p, step) && Extends(r, w)
    && Concat(chunks) == output && Chunked(w, chunks, p.out)
  }

  lemma WalkUnfolds(r: Reader, source: Blob, pos: nat)
    requires GoodReader(r) && pos < |source| && Walk(r, source[pos..]).Some?
    ensures r(source[pos..]).Some?
    ensures var h := r(source[pos..]).value;
      && pos + h.size <= |source|
      && if h.token.Finish? then Walk(r, source[pos..]).value == [Finish]
         else Walk(r, source[pos + h.size..]).Some?
              && Walk(r, source[pos..]).value == [h.token] + Walk(r, source[pos + h.size..]).value
  {
    var h := r(source[pos..]);
    if h.Some? {
      assert source[pos..][h.value.size..] == source[pos + h.value.size..];
    }
  }

  lemma SyncStart(r: Reader, source: Blob, step: Stepper)
    requires GoodReader(r) && Walk(r, source).Some?
    ensures Sync(r, source, 0, r, [], [], START, step)
  {
    assert source[0..] == source;
  }

  lemma FoldStep(p: Progress, token: Token, rest: seq<Token>, step: Stepper)
    ensures Folding(step, p, [token] + rest)
         == if step(p, token).None? then None else Folding(step, step(p, token).value, rest)
  {
    assert ([token] + rest)[1..] == rest;
  }

  /** One token read and its replacement written. */
  lemma SyncStep(r: Reader, source: Blob, pos: nat, w: Reader, output: Blob, chunks: seq<Blob>, p: Progress,
                 step: Stepper, h: Head, w': Reader, output': Blob, chunks': seq<Blob>, p': Progress)
    requires GoodReader(r) && Sync(r, source, pos, w, output, chunks, p, step) && pos < |source|
    requires r(source[pos..]) == Some(h) && !h.token.Finish? && step(p, h.token) == Some(p')
    requires Extends(w, w') && Concat(chunks') == output' && Chunked(w', chunks', p'.out)
    ensures Sync(r, source, pos + h.size, w', output', chunks', p', step)
  {
    WalkUnfolds(r, source, pos);
    FoldStep(p, h.token, Walk(r, source[pos + h.size..]).value, step);
    ExtendsBoth(r, w, w');
  }

  lemma ExtendsBoth(r: Reader, w: Reader, w': Reader)
    requires Extends(r, w) && Extends(w, w')
    ensures Extends(r, w')
  {
  }

  /** A token whose bytes are copied, after whatever the fold puts before it. */
  lemma CopyStep(r: Reader, source: Blob, pos: nat, w: Reader, output: Blob, chunks: seq<Blob>, p: Progress,
                 step: Stepper, h: Head, w1: Reader, output1: Blob, chunks1: seq<Blob>, out1: seq<Token>,
                 c: Blob, p': Progress)
    requires GoodReader(r) && Sync(r, source, pos, w, output, chunks, p, step) && pos < |source|
    requires r(source[pos..]) == Some(h) && !h.token.Finish? && step(p, h.token) == Some(p')
    requires Extends(w, w1) && Chunked(w1, chunks1, out1) && Concat(chunks1) == output1
    requires pos + h.size <= |source| && c == source[pos..pos + h.size]
    requires p'.out == out1 + [h.token]
    ensures Sync(r, source, pos + h.size, w1, output1 + c, chunks1 + [c], p', step)
  {
    ExtendsBoth(r, w, w1);
    CopyReads(r, source, pos, w1, h, c);
    AppendChunk(w1, chunks1, out1, c, h.token);
    SyncStep(r, source, pos, w, output, chunks, p, step, h, w1, output1 + c, chunks1 + [c], p');
  }

  /** The same, by the position it leads to. */
  lemma CopyMoves(r: Reader, source: Blob, pos: nat, w: Reader, output: Blob, chunks: seq<Blob>, p: Progress,
                  step: Stepper, token: Token, next: nat, w1: Reader, output1: Blob, chunks1: seq<Blob>,
                  out1: seq<Token>, p': Progress)
    requires GoodReader(r) && Sync(r, source, pos, w, output, chunks, p, step) && pos < next <= |source|
    requires r(source[pos..]) == Some(Head(token, next - pos)) && !token.Finish? && step(p, token) == Some(p')
    requires Extends(w, w1) && Chunked(w1, chunks1, out1) && Concat(chunks1) == output1
    requires p'.out == out1 + [token]
    ensures Sync(r, source, next, w1, output1 + source[pos..next], chunks1 + [source[pos..next]], p', step)
  {
    CopyStep(r, source, pos, w, output, chunks, p, step, Head(token, next - pos), w1, output1, chunks1, out1,
             source[pos..next], p');
  }

  /** The bytes of a token, cut out, read as that token. */
  lemma CopyReads(r: Reader, source: Blob, pos: nat, w: Reader, h: Head, c: Blob)
    requires GoodReader(r) && Extends(r, w) && pos < |source| && r(source[pos..]) == Some(h)
    requires pos + h.size <= |source| && c == source[pos..pos + h.size]
    ensures r(c) == Some(h) && w(c) == Some(Head(h.token, |c|))
  {
    assert c == source[pos..][..h.size];
    TightAt(r, source[pos..]);
  }

  /** A token replaced by at most one new chunk. */
  lemma ReplaceStep(r: Reader, source: Blob, pos: nat, w: Reader, output: Blob, chunks: seq<Blob>, p: Progress,
                    step: Stepper, h: Head, c: Blob, token: Token, p': Progress)
    requires GoodReader(r) && Sync(r, source, pos, w, output, chunks, p, step) && pos < |source|
    requires r(source[pos..]) == Some(h) && !h.token.Finish? && step(p, h.token) == Some(p')
    requires IsToken(w, c, token) && p'.out == p.out + [token]
    ensures Sync(r, source, pos + h.size, w, output + c, chunks + [c], p', step)
  {
    AppendChunk(w, chunks, p.out, c, token);
    SyncStep(r, source, pos, w, output, chunks, p, step, h, w, output + c, chunks + [c], p');
  }

  lemma DropStep(r: Reader, source: Blob, pos: nat, w: Reader, output: Blob, chunks: seq<Blob>, p: Progress,
                 step: Stepper, h: Head, p': Progress)
    requires GoodReader(r) && Sync(r, source, pos, w, output, chunks, p, step) && pos < |source|
    requires r(source[pos..]) == Some(h) && !h.token.Finish? && step(p, h.token) == Some(p')
    requires p'.out == p.out
    ensures Sync(r, source, pos + h.size, w, output, chunks, p', step)
  {
    SyncStep(r, source, pos, w, output, chunks, p, step, h, w, output, chunks, p');
  }

  lemma ReadsUnbalanced(r: Reader, source: Blob, pos: nat, p: Progress, step: Stepper, h: Head)
    requires GoodReader(r) && Reads(r, source, pos, p, step) && pos < |source|
    requires r(source[pos..]) == Some(h) && !h.token.Finish? && step(p, h.token) == None
    ensures Folding(step, START, Walk(r, source).value) == None
  {
    WalkUnfolds(r, source, pos);
    FoldStep(p, h.token, Walk(r, source[pos + h.size..]).value, step);
  }

  lemma SyncAligned(r: Reader, source: Blob, pos: nat, w: Reader, output: Blob, chunks: seq<Blob>, p: Progress,
                    step: Stepper)
    requires GoodReader(r) && GoodReader(w) && Sync(r, source, pos, w, output, chunks, p, step)
    ensures |output| % 4 == 0
  {
    ConcatAligned(w, chunks, p.out);
  }

  /** What the loop leaves behind. */
  ghost predicate Folded(r: Reader, source: Blob, w: Reader, output: Blob, found: set<Key>, step: Stepper)
    requires GoodReader(r) && GoodReader(w)
  {
    && Walk(r, source).Some?
    && Folding(step, START, Walk(r, source).value).Some?
    && Walk(w, output) == Some(Folding(step, START, Walk(r, source).value).value.out)
    && found == Folding(step, START, Walk(r, source).value).value.found
  }

  lemma SyncEnds(r: Reader, source: Blob, pos: nat, w: Reader, output: Blob, chunks: seq<Blob>, p: Progress,
                 step: Stepper)
    requires GoodReader(r) && GoodReader(w) && Sync(r, source, pos, w, output, chunks, p, step) && pos == |source|
    ensures Folded(r, source, w, output, p.found, step)
  {
    assert source[pos..] == [];
    ChunkedWalks(w, chunks, p.out, []);
    assert output + [] == output;
    assert p.out + [] == p.out;
  }

  lemma SyncFinishes(r: Reader, source: Blob, pos: nat, w: Reader, output: Blob, chunks: seq<Blob>, p: Progress,
                     step: Stepper, h: Head, c: Blob)
    requires GoodReader(r) && GoodReader(w) && Sync(r, source, pos, w, output, chunks, p, step) && pos < |source|
    requires r(source[pos..]) == Some(h) && h.token.Finish?
    requires step(p, Finish) == Some(p.(out := p.out + [Finish]))
    requires pos + h.size <= |source| && c == source[pos..pos + h.size]
    ensures Folded(r, source, w, output + c, p.found, step)
  {
    WalkUnfolds(r, source, pos);
    CopyReads(r, source, pos, w, h, c);
    FinishWalks(w, c);
    ChunkedWalks(w, chunks, p.out, c);
    FoldStep(p, Finish, [], step);
    assert [Finish] + [] == [Finish];
  }

  lemma FinishWalks(w: Reader, c: Blob)
    requires Sane(w) && w(c).Some? && w(c).value.token.Finish?
    ensures Walk(w, c) == Some([Finish])
  {
  }
}
