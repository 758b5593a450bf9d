/** The one-pass rewriter itself (tools/emulator_dtb.py:5-70), over bytes. */
module DtbPatch {
  import opened Wrappers
  import opened DtbTokens
  import opened DtbFormat
  import opened DtbTree
  import opened DtbSync

  datatype Error = Truncated | NotVersion17 | UnsupportedLayout | BadToken | Unterminated | UnreadableName
                 | Unencodable | UnbalancedEnd | Overflow | MissingNodes

  const MAGIC: int := 0xd00dfeed

  /** A slice whose bounds are cut off at the end of the data. */
  function Slice(b: Blob, lo: nat, hi: nat): Blob {
    if lo >= |b| || hi <= lo then [] else b[lo..if hi < |b| then hi else |b|]
  }

  function Field(data: Blob, i: nat): (n: nat)
    requires i < 10 && |data| >= 40
  {
    U32(data, 4 * i)
  }

  predicate ValidHeader(data: Blob) {
    && |data| >= 40
    && Field(data, 0) == MAGIC && Field(data, 5) == 17 && Field(data, 1) <= |data|
    && 40 <= Field(data, 4) <= Field(data, 2) <= Field(data, 3) <= Field(data, 1)
  }

  function StructBlock(data: Blob): Blob
    requires |data| >= 40
  {
    Slice(data, Field(data, 2), Field(data, 2) + Field(data, 9))
  }

  function StringsBlock(data: Blob): Blob
    requires |data| >= 40
  {
    Slice(data, Field(data, 3), Field(data, 3) + Field(data, 8))
  }

  /** What a reader of the whole blob sees. */
  ghost function TokensOf(data: Blob): Option<seq<Token>>
    requires |data| >= 40
  {
    Walked(StructBlock(data), StringsBlock(data))
  }

  datatype Block = Block(output: Blob, strings: Blob, found: set<Key>)

  // ----- How far the output can grow -----

  function Size(b: Block): nat {
    |b.output| + |b.strings|
  }

  /** The most bytes that one entry can add at one place. */
  function Heft(entry: Replacement): nat {
    if entry.value.Some? then |entry.key.name| + |entry.value.value| + 17 else 0
  }

  function Weight(repl: Replacements): nat
    decreases |repl|
  {
    if repl == [] then 0 else Heft(repl[0]) + Weight(repl[1..])
  }

  lemma WeightStep(repl: Replacements, k: nat)
    requires k < |repl|
    ensures Weight(repl[k..]) == Heft(repl[k]) + Weight(repl[k + 1..])
  {
    assert repl[k..][1..] == repl[k + 1..];
  }

  lemma {:induction false} HeftWithin(repl: Replacements, entry: Replacement)
    requires entry in repl
    ensures Heft(entry) <= Weight(repl)
    decreases |repl|
  {
    if repl[0] != entry {
      HeftWithin(repl[1..], entry);
    }
  }

  lemma Distributes(a: nat, b: nat, k: nat)
    ensures (a + b) * k == a * k + b * k
  {
  }

  lemma SplitFactor(a: nat, k: nat)
    ensures a * (k + 1) == a * k + a
  {
  }

  lemma NonNegative(a: nat, k: nat)
    ensures a * k >= 0
  {
  }

  lemma GrowthStep(size: nat, size': nat, base: nat, pos: nat, pos': nat, weight: nat)
    requires size <= base + pos * (weight + 1) && pos < pos' && size' <= size + (pos' - pos) + weight
    ensures size' <= base + pos' * (weight + 1)
  {
    Distributes(pos, pos' - pos, weight + 1);
    Distributes(1, pos' - pos - 1, weight);
    Distributes(pos' - pos, 0, weight + 1);
    SplitFactor(pos' - pos, weight);
    NonNegative(pos' - pos - 1, weight);
  }

  // ----- Writing records -----

  /** Writing a property record writes that property, once its name is in the strings block. */
  lemma RecordReads(strings: Blob, name: Blob, value: Blob, offset: nat)
    requires |value| < WORD && offset < WORD && NameAt(strings, offset) == Some(name) && Ascii(name)
    ensures IsToken(ReaderOf(strings), PropBytes(value, offset), Prop(name, value))
  {
    PropBytesDecode(value, offset, strings);
  }

  lemma EmitProp(before: Blob, strings: Blob, chunks: seq<Blob>, tokens: seq<Token>, name: Blob, value: Blob,
                 offset: nat)
    requires before <= strings && Chunked(ReaderOf(before), chunks, tokens)
    requires |value| < WORD && offset < WORD && NameAt(strings, offset) == Some(name) && Ascii(name)
    ensures var c := PropBytes(value, offset);
      Chunked(ReaderOf(strings), chunks + [c], tokens + [Prop(name, value)])
      && Concat(chunks + [c]) == Concat(chunks) + c
  {
    RecordReads(strings, name, value, offset);
    ReaderGrows(before, strings);
    EmitAppends(ReaderOf(before), ReaderOf(strings), chunks, tokens, PropBytes(value, offset), Prop(name, value));
  }

  lemma EmitAppends(before: Reader, after: Reader, chunks: seq<Blob>, tokens: seq<Token>, c: Blob, token: Token)
    requires Chunked(before, chunks, tokens) && Extends(before, after) && IsToken(after, c, token)
    ensures Chunked(after, chunks + [c], tokens + [token]) && Concat(chunks + [c]) == Concat(chunks) + c
  {
    ChunkedGrows(before, after, chunks, tokens);
    AppendChunk(after, chunks, tokens, c, token);
  }

  /** A name appended with its NUL is found at the old end of the block. */
  lemma NewName(strings: Blob, name: Blob)
    requires 0 !in name
    ensures NameAt(strings + name + [0], |strings|) == Some(name)
  {
    var all := strings + name + [0];
    assert all[|strings| + |name|] == 0;
    forall j | |strings| <= j < |strings| + |name| ensures all[j] != 0 {
      assert all[j] == name[j - |strings|];
      assert name[j - |strings|] in name;
    }
    FirstZero(all, |strings|, |strings| + |name|);
    assert all[|strings|..|strings| + |name|] == name;
  }

  lemma {:induction false} FirstZero(b: Blob, at: nat, end: nat)
    requires at <= end < |b| && b[end] == 0 && forall j :: at <= j < end ==> b[j] != 0
    ensures ZeroFrom(b, at) == Some(end)
    decreases end - at
  {
    if at < end {
      FirstZero(b, at + 1, end);
    }
  }

  lemma {:induction false} ZeroShift(b: Blob, pos: nat, at: nat)
    requires pos + at <= |b|
    ensures ZeroFrom(b[pos..], at)
         == if ZeroFrom(b, pos + at).Some? then Some(ZeroFrom(b, pos + at).value - pos) else None
    decreases |b| - at
  {
    if pos + at < |b| && b[pos + at] != 0 {
      ZeroShift(b, pos, at + 1);
    }
  }

  // ----- The inner loop at a node's end -----

  /** One missing property: its name joins the strings block, its record the output. */
  method InsertOne(entry: Replacement, b0: Block, ghost chunks0: seq<Blob>, ghost tokens0: seq<Token>)
    returns (r: Result<Block, Error>, ghost chunks: seq<Blob>)
    requires entry.value.Some?
    ensures r.Ok? ==> b0.strings <= r.value.strings && r.value.found == b0.found
    ensures r.Ok? && Encodable([entry]) && Concat(chunks0) == b0.output
            && Chunked(ReaderOf(b0.strings), chunks0, tokens0) ==>
              && Concat(chunks) == r.value.output
              && Chunked(ReaderOf(r.value.strings), chunks,
                         tokens0 + [Prop(Name(entry.key.name), Terminated(entry.value.value))])
    ensures r.Ok? ==> Size(r.value) <= Size(b0) + Heft(entry)
    ensures r.Err? ==>
            (r.error.Overflow? && Size(b0) + Heft(entry) >= WORD) || (r.error.Unencodable? && !Encodable([entry]))
  {
    chunks := chunks0;
    if !Ascii(entry.key.name) || !Ascii(entry.value.value) {
      assert [entry][0] == entry;
      return Err(Unencodable), chunks;
    }
    var name, value := Encode(entry.key.name), Encode(entry.value.value) + [0];
    var offset := |b0.strings|;
    if |value| >= WORD || offset >= WORD {
      return Err(Overflow), chunks;
    }
    var strings := b0.strings + name + [0];
    if Encodable([entry]) && Chunked(ReaderOf(b0.strings), chunks0, tokens0) {
      assert 0 !in [entry][0].key.name;
      NewName(b0.strings, name);
      EmitProp(b0.strings, strings, chunks0, tokens0, name, value, offset);
    }
    chunks := chunks0 + [PropBytes(value, offset)];
    return Ok(b0.(strings := strings, output := b0.output + PropBytes(value, offset))), chunks;
  }

  /** After `k` entries of the mapping. */
  ghost predicate Inserted(repl: Replacements, k: nat, path: Text, b0: Block, tokens0: seq<Token>,
                           b: Block, chunks: seq<Blob>, tokens: seq<Token>)
    requires k <= |repl|
  {
    && Concat(chunks) == b.output && Chunked(ReaderOf(b.strings), chunks, tokens)
    && tokens + Missing(repl[k..], path, b0.found) == tokens0 + Missing(repl, path, b0.found)
    && b.found == b0.found + KeysAt(repl[..k], path)
  }

  lemma Associative(a: seq<Token>, b: seq<Token>, c: seq<Token>)
    ensures (a + b) + c == a + (b + c)
  {
  }

  lemma InsertedStep(repl: Replacements, k: nat, path: Text, b0: Block, tokens0: seq<Token>,
                     b: Block, chunks: seq<Blob>, tokens: seq<Token>, b': Block, chunks': seq<Blob>)
    requires k < |repl| && DistinctKeys(repl) && Inserted(repl, k, path, b0, tokens0, b, chunks, tokens)
    requires Concat(chunks') == b'.output
    requires Chunked(ReaderOf(b'.strings), chunks', tokens + MissingOne(repl[k], path, b0.found))
    requires b'.found == b.found + if repl[k].key.path == path then {repl[k].key} else {}
    ensures Inserted(repl, k + 1, path, b0, tokens0, b', chunks', tokens + MissingOne(repl[k], path, b0.found))
  {
    KeysAtStep(repl, k, path);
    MissingStep(repl, k, path, b0.found);
    Associative(tokens, MissingOne(repl[k], path, b0.found), Missing(repl[k + 1..], path, b0.found));
    assert b0.found + KeysAt(repl[..k], path) + (if repl[k].key.path == path then {repl[k].key} else {})
        == b0.found + KeysAt(repl[..k + 1], path);
  }

  /** One entry: skipped, marked found, or inserted. */
  method InsertEntry(entry: Replacement, path: Text, b0: Block, ghost chunks0: seq<Blob>, ghost tokens0: seq<Token>)
    returns (r: Result<Block, Error>, ghost chunks: seq<Blob>)
    ensures r.Ok? ==> b0.strings <= r.value.strings
    ensures r.Ok? ==> r.value.found == b0.found + if entry.key.path == path then {entry.key} else {}
    ensures r.Ok? && Encodable([entry]) && Concat(chunks0) == b0.output
            && Chunked(ReaderOf(b0.strings), chunks0, tokens0) ==>
              Concat(chunks) == r.value.output
              && Chunked(ReaderOf(r.value.strings), chunks, tokens0 + MissingOne(entry, path, b0.found))
    ensures r.Ok? ==> Size(r.value) <= Size(b0) + Heft(entry)
    ensures r.Err? ==>
            (r.error.Overflow? && Size(b0) + Heft(entry) >= WORD) || (r.error.Unencodable? && !Encodable([entry]))
  {
    chunks := chunks0;
    assert tokens0 + [] == tokens0;
    if entry.key.path == path && entry.key !in b0.found {
      if entry.value.Some? {
        r, chunks := InsertOne(entry, b0, chunks0, tokens0);
        if r.Err? {
          return;
        }
      } else {
        r := Ok(b0);
      }
      r := Ok(r.value.(found := r.value.found + {entry.key}));
    } else {
      r := Ok(b0);
    }
  }

  method InsertMissing(repl: Replacements, path: Text, b0: Block, ghost chunks0: seq<Blob>, ghost tokens0: seq<Token>)
    returns (r: Result<Block, Error>, ghost chunks: seq<Blob>)
    ensures r.Ok? ==> b0.strings <= r.value.strings
    ensures r.Ok? && DistinctKeys(repl) && Encodable(repl)
            && Chunked(ReaderOf(b0.strings), chunks0, tokens0) && Concat(chunks0) == b0.output ==>
              && Concat(chunks) == r.value.output
              && Chunked(ReaderOf(r.value.strings), chunks, tokens0 + Missing(repl, path, b0.found))
              && r.value.found == b0.found + KeysAt(repl, path)
    ensures r.Ok? ==> Size(r.value) <= Size(b0) + Weight(repl)
    ensures r.Err? ==>
            (r.error.Overflow? && Size(b0) + Weight(repl) >= WORD) || (r.error.Unencodable? && !Encodable(repl))
  {
    var b := b0;
    chunks := chunks0;
    ghost var tokens := tokens0;
    ghost var good := DistinctKeys(repl) && Encodable(repl)
                      && Chunked(ReaderOf(b0.strings), chunks0, tokens0) && Concat(chunks0) == b0.output;
    assert repl[0..] == repl && repl[..0] == [];
    for k := 0 to |repl|
      invariant b0.strings <= b.strings && Size(b) + Weight(repl[k..]) <= Size(b0) + Weight(repl)
      invariant good ==> Inserted(repl, k, path, b0, tokens0, b, chunks, tokens)
    {
      ghost var before, chunks1 := b, chunks;
      EncodableOne(repl, k);
      WeightStep(repl, k);
      var inserted;
      inserted, chunks := InsertEntry(repl[k], path, b, chunks, tokens);
      if inserted.Err? {
        return inserted, chunks;
      }
      b := inserted.value;
      if good {
        KeyIsNew(repl, k, path);
        assert MissingOne(repl[k], path, before.found) == MissingOne(repl[k], path, b0.found);
        InsertedStep(repl, k, path, b0, tokens0, before, chunks1, tokens, b, chunks);
      }
      tokens := tokens + MissingOne(repl[k], path, b0.found);
    }
    assert repl[|repl|..] == [] && repl[..|repl|] == repl;
    assert good ==> tokens + [] == tokens;
    return Ok(b), chunks;
  }

  lemma EncodableOne(repl: Replacements, k: nat)
    requires k < |repl|
    ensures Encodable(repl) ==> Encodable([repl[k]])
  {
    if Encodable(repl) {
      assert forall i :: 0 <= i < 1 ==> [repl[k]][i] == repl[k];
    }
  }

  function MissingOne(entry: Replacement, path: Text, found: set<Key>): seq<Token> {
    if entry.key.path == path && entry.key !in found && entry.value.Some?
    then [Prop(Name(entry.key.name), Terminated(entry.value.value))] else []
  }

  lemma MissingStep(repl: Replacements, k: nat, path: Text, found: set<Key>)
    requires k < |repl|
    ensures Missing(repl[k..], path, found) == MissingOne(repl[k], path, found) + Missing(repl[k + 1..], path, found)
  {
    assert repl[k..][1..] == repl[k + 1..];
  }

  lemma KeyIsNew(repl: Replacements, k: nat, path: Text)
    requires DistinctKeys(repl) && k < |repl|
    ensures repl[k].key !in KeysAt(repl[..k], path)
  {
    forall r | r in repl[..k] ensures r.key != repl[k].key {
      var i :| 0 <= i < k && repl[..k][i] == r;
      assert repl[i] == r;
    }
  }

  lemma KeysAtStep(repl: Replacements, k: nat, path: Text)
    requires k < |repl|
    ensures KeysAt(repl[..k + 1], path) == KeysAt(repl[..k], path) + if repl[k].key.path == path then {repl[k].key}
            else {}
  {
    assert repl[..k + 1] == repl[..k] + [repl[k]];
    assert forall r :: r in repl[..k + 1] <==> r in repl[..k] || r == repl[k];
  }

  // ----- The token loop -----

  lemma WordShift(source: Blob, pos: nat, at: nat)
    requires pos + at + 4 <= |source|
    ensures U32(source[pos..], at) == U32(source, pos + at)
  {
  }

  lemma PaddingShift(end: nat, pos: nat)
    requires pos % 4 == 0
    ensures Padded(end + 1) == (pos + end + 4) / 4 * 4 - pos
  {
  }

  /** A node's name and the position after its padding, or the error that reading it raises. */
  function ReadBegin(source: Blob, pos: nat): Result<(Blob, nat), Error> {
    var end := ZeroFrom(source, pos + 4);
    if end.None? then Err(Unterminated)
    else if !Ascii(source[pos + 4..end.value]) then Err(UnreadableName)
    else Ok((source[pos + 4..end.value], (end.value + 4) / 4 * 4))
  }

  lemma BeginAgrees(source: Blob, pos: nat, block: Blob)
    requires pos + 4 <= |source| && U32(source, pos) == 1 && pos % 4 == 0
    requires ReaderOf(block)(source[pos..]).Some?
    ensures ReadBegin(source, pos).Ok?
    ensures var (name, next) := ReadBegin(source, pos).value;
      next > pos && ReaderOf(block)(source[pos..]) == Some(Head(Begin(name), next - pos))
  {
    var s := source[pos..];
    WordShift(source, pos, 0);
    ZeroShift(source, pos, 4);
    var end := ZeroFrom(s, 4).value;
    assert s[4..end] == source[pos + 4..pos + end];
    PaddingShift(end, pos);
  }

  lemma BeginAdvances(source: Blob, pos: nat)
    requires pos % 4 == 0 && ReadBegin(source, pos).Ok?
    ensures ReadBegin(source, pos).value.1 > pos && ReadBegin(source, pos).value.1 % 4 == 0
  {
  }

  datatype PropRead = PropRead(name: Blob, offset: nat, next: nat)

  /** A property's name, its offset, and the position after its padded value. */
  function ReadProp(source: Blob, pos: nat, strings: Blob): (r: Result<PropRead, Error>)
    requires pos + 4 <= |source|
    ensures r.Ok? ==>
              && r.value.offset < WORD && NameAt(strings, r.value.offset) == Some(r.value.name) && Ascii(r.value.name)
              && pos < r.value.next && (pos % 4 == 0 ==> r.value.next % 4 == 0)
  {
    if pos + 12 > |source| then Err(Truncated)
    else
      var name := NameAt(strings, U32(source, pos + 8));
      if name.None? then Err(Unterminated)
      else if !Ascii(name.value) then Err(UnreadableName)
      else
        var next := pos + 12 + Padded(U32(source, pos + 4));
        AlignedSum(pos + 12, Padded(U32(source, pos + 4)));
        Ok(PropRead(name.value, U32(source, pos + 8), next))
  }

  lemma AlignedSum(a: nat, b: nat)
    requires b % 4 == 0
    ensures a % 4 == 0 ==> (a + b) % 4 == 0
  {
    if a % 4 == 0 {
      var i, j := a / 4, b / 4;
      assert a + b == 4 * (i + j);
    }
  }

  lemma PropAgrees(source: Blob, pos: nat, block: Blob, strings: Blob)
    requires pos + 4 <= |source| && U32(source, pos) == 3 && block <= strings
    requires ReaderOf(block)(source[pos..]).Some?
    ensures ReadProp(source, pos, strings).Ok?
    ensures var read := ReadProp(source, pos, strings).value;
      var h := ReaderOf(block)(source[pos..]).value;
      h.token.Prop? && h.token.name == read.name && h.size == read.next - pos
  {
    WordShift(source, pos, 0);
    WordShift(source, pos, 4);
    WordShift(source, pos, 8);
    NameLocal(block, strings, U32(source, pos + 8));
  }

  lemma PlainAgrees(source: Blob, pos: nat, block: Blob)
    requires pos < |source| && ReaderOf(block)(source[pos..]).Some?
    ensures pos + 4 <= |source|
    ensures var token, h := U32(source, pos), ReaderOf(block)(source[pos..]).value;
      && (token == 1 || token == 2 || token == 3 || token == 4 || token == 9)
      && (token == 2 ==> h == Head(End, 4)) && (token == 4 ==> h == Head(Nop, 4))
      && (token == 9 ==> h == Head(Finish, 4))
  {
    WordShift(source, pos, 0);
  }

  /** The loop's variables. */
  datatype State = State(pos: nat, stack: seq<Blob>, b: Block)

  /** The ghost record of what has been written: the chunks and their tokens. */
  datatype Trace = Trace(chunks: seq<Blob>, out: seq<Token>)

  function Here(s: State, t: Trace): Progress {
    Progress(t.out, s.stack, s.b.found)
  }

  /** The input is readable and the mapping is one the format can carry. */
  ghost predicate Good(source: Blob, block: Blob, repl: Replacements) {
    Walked(source, block).Some? && DistinctKeys(repl) && Encodable(repl)
  }

  ghost predicate Valid(source: Blob, block: Blob, repl: Replacements, s: State, t: Trace) {
    && s.pos % 4 == 0 && block <= s.b.strings
    && (Good(source, block, repl) ==>
          GoodReader(ReaderOf(block))
          && Sync(ReaderOf(block), source, s.pos, ReaderOf(s.b.strings), s.b.output, t.chunks, Here(s, t),
                  StepperOf(repl)))
  }

  /** One turn of the loop adds the bytes it passes and at most the weight of the mapping. */
  predicate Grows(s: State, s': State, repl: Replacements) {
    s.pos < s'.pos && Size(s'.b) <= Size(s.b) + (s'.pos - s.pos) + Weight(repl)
  }

  lemma ExtendsSelf(w: Reader)
    ensures Extends(w, w)
  {
  }

  /** A begin token: push the name, copy the bytes. */
  method BeginNode(source: Blob, block: Blob, repl: Replacements, s: State, ghost t: Trace)
    returns (r: Result<State, Error>, ghost t': Trace)
    requires Valid(source, block, repl, s, t) && s.pos + 4 <= |source| && U32(source, s.pos) == 1
    ensures r.Ok? ==> Valid(source, block, repl, r.value, t') && Grows(s, r.value, repl)
    ensures Good(source, block, repl) ==> r.Ok?
  {
    t' := t;
    if Good(source, block, repl) {
      WalkUnfolds(ReaderOf(block), source, s.pos);
      BeginAgrees(source, s.pos, block);
    }
    var read := ReadBegin(source, s.pos);
    if read.Err? {
      return Err(read.error), t';
    }
    BeginAdvances(source, s.pos);
    r, t' := OpenNode(source, block, repl, s, t, read.value.1, read.value.0);
  }

  /** The bytes from the position up to `next`, copied after `b1`. */
  method Copied(source: Blob, s: State, b1: Block, next: nat, stack: seq<Blob>) returns (s': State)
    requires s.pos < next
    ensures s' == State(next, stack, Block(b1.output + Slice(source, s.pos, next), b1.strings, b1.found))
    ensures s.pos < s'.pos && Size(s'.b) <= Size(b1) + (next - s.pos)
    ensures next <= |source| ==> Slice(source, s.pos, next) == source[s.pos..next]
  {
    s' := State(next, stack, Block(b1.output + Slice(source, s.pos, next), b1.strings, b1.found));
  }

  lemma CopyKeeps(source: Blob, block: Blob, repl: Replacements, s: State, t: Trace, token: Token, next: nat, b1: Block,
                  t1: Trace, s': State, t': Trace)
    requires Good(source, block, repl) && Valid(source, block, repl, s, t)
    requires s'.pos == next && s.pos < next <= |source| && next % 4 == 0 && s.b.strings <= b1.strings
    requires ReaderOf(block)(source[s.pos..]) == Some(Head(token, next - s.pos)) && !token.Finish?
    requires StepperOf(repl)(Here(s, t), token) == Some(Here(s', t'))
    requires Chunked(ReaderOf(b1.strings), t1.chunks, t1.out) && Concat(t1.chunks) == b1.output
    requires s'.b.output == b1.output + source[s.pos..next] && s'.b.strings == b1.strings
    requires t' == Trace(t1.chunks + [source[s.pos..next]], t1.out + [token])
    ensures Valid(source, block, repl, s', t')
  {
    ReaderGrows(s.b.strings, b1.strings);
    CopySyncs(ReaderOf(block), source, s, t, StepperOf(repl), token, b1, t1, s', t',
              ReaderOf(s.b.strings), ReaderOf(b1.strings));
  }

  /** The same for any readers and any step. */
  lemma CopySyncs(r: Reader, source: Blob, s: State, t: Trace, step: Stepper, token: Token, b1: Block, t1: Trace,
                  s': State, t': Trace, w: Reader, w1: Reader)
    requires GoodReader(r) && Sync(r, source, s.pos, w, s.b.output, t.chunks, Here(s, t), step)
    requires s.pos < s'.pos <= |source| && Extends(w, w1)
    requires r(source[s.pos..]) == Some(Head(token, s'.pos - s.pos)) && !token.Finish?
    requires step(Here(s, t), token) == Some(Here(s', t'))
    requires Chunked(w1, t1.chunks, t1.out) && Concat(t1.chunks) == b1.output
    requires s'.b.output == b1.output + source[s.pos..s'.pos]
    requires t' == Trace(t1.chunks + [source[s.pos..s'.pos]], t1.out + [token])
    ensures Sync(r, source, s'.pos, w1, s'.b.output, t'.chunks, Here(s', t'), step)
  {
    CopyMoves(r, source, s.pos, w, s.b.output, t.chunks, Here(s, t), step, token, s'.pos, w1, b1.output, t1.chunks,
              t1.out, Here(s', t'));
  }

  /** Copying with nothing inserted before. */
  lemma CopyOnly(source: Blob, block: Blob, repl: Replacements, s: State, t: Trace, token: Token, next: nat,
                 s': State, t': Trace)
    requires Good(source, block, repl) && Valid(source, block, repl, s, t)
    requires s'.pos == next && s.pos < next <= |source| && next % 4 == 0
    requires ReaderOf(block)(source[s.pos..]) == Some(Head(token, next - s.pos)) && !token.Finish?
    requires StepperOf(repl)(Here(s, t), token) == Some(Here(s', t'))
    requires s'.b.output == s.b.output + source[s.pos..next] && s'.b.strings == s.b.strings
    requires t' == Trace(t.chunks + [source[s.pos..next]], t.out + [token])
    ensures Valid(source, block, repl, s', t')
  {
    CopiedSyncs(ReaderOf(block), ReaderOf(s.b.strings), source, s, t, StepperOf(repl), token, s', t');
  }

  lemma NextAligned(pos: nat)
    requires pos % 4 == 0
    ensures (pos + 4) % 4 == 0
  {
  }

  lemma CopiedSyncs(r: Reader, w: Reader, source: Blob, s: State, t: Trace, step: Stepper, token: Token, s': State,
                    t': Trace)
    requires GoodReader(r) && Sync(r, source, s.pos, w, s.b.output, t.chunks, Here(s, t), step)
    requires s.pos < s'.pos <= |source|
    requires r(source[s.pos..]) == Some(Head(token, s'.pos - s.pos)) && !token.Finish?
    requires step(Here(s, t), token) == Some(Here(s', t'))
    requires s'.b.output == s.b.output + source[s.pos..s'.pos]
    requires t' == Trace(t.chunks + [source[s.pos..s'.pos]], t.out + [token])
    ensures Sync(r, source, s'.pos, w, s'.b.output, t'.chunks, Here(s', t'), step)
  {
    ExtendsSelf(w);
    CopySyncs(r, source, s, t, step, token, s.b, t, s', t', w, w);
  }

  method OpenNode(source: Blob, block: Blob, repl: Replacements, s: State, ghost t: Trace, next: nat, name: Blob)
    returns (r: Result<State, Error>, ghost t': Trace)
    requires Valid(source, block, repl, s, t) && s.pos < next && next % 4 == 0
    requires Good(source, block, repl) ==>
               next <= |source| && ReaderOf(block)(source[s.pos..]) == Some(Head(Begin(name), next - s.pos))
    ensures r.Ok? && Valid(source, block, repl, r.value, t') && Grows(s, r.value, repl)
  {
    var s' := Copied(source, s, s.b, next, s.stack + [name]);
    t' := Trace(t.chunks + [Slice(source, s.pos, next)], t.out + [Begin(name)]);
    r := Ok(s');
    if Good(source, block, repl) {
      assert Slice(source, s.pos, next) == source[s.pos..next];
      CopyOnly(source, block, repl, s, t, Begin(name), next, s', t');
    }
  }

  lemma EndAhead(source: Blob, block: Blob, repl: Replacements, s: State, t: Trace)
    requires Valid(source, block, repl, s, t) && s.pos + 4 <= |source| && U32(source, s.pos) == 2
    ensures Good(source, block, repl) ==> ReaderOf(block)(source[s.pos..]) == Some(Head(End, 4))
    ensures Good(source, block, repl) && s.stack == [] ==> Fold(START, Walked(source, block).value, repl) == None
  {
    if Good(source, block, repl) {
      WalkUnfolds(ReaderOf(block), source, s.pos);
      PlainAgrees(source, s.pos, block);
      if s.stack == [] {
        ReadsUnbalanced(ReaderOf(block), source, s.pos, Here(s, t), StepperOf(repl), Head(End, 4));
        FoldingIsFold(repl, START, Walked(source, block).value);
      }
    }
  }

  /** An end token: insert what the node still lacks, copy the bytes, pop. */
  method EndNode(source: Blob, block: Blob, repl: Replacements, s: State, ghost t: Trace)
    returns (r: Result<State, Error>, ghost t': Trace)
    requires Valid(source, block, repl, s, t) && s.pos + 4 <= |source| && U32(source, s.pos) == 2
    ensures r.Ok? ==> Valid(source, block, repl, r.value, t') && Grows(s, r.value, repl)
    ensures Good(source, block, repl) && r.Err? ==>
              || (r.error.Overflow? && Size(s.b) + Weight(repl) >= WORD)
              || (r.error.UnbalancedEnd? && Fold(START, Walked(source, block).value, repl) == None)
  {
    t' := t;
    ghost var good := Good(source, block, repl);
    EndAhead(source, block, repl, s, t);
    var path := PathOf(s.stack);
    var inserted;
    ghost var chunks1;
    inserted, chunks1 := InsertMissing(repl, path, s.b, t.chunks, t.out);
    if inserted.Err? {
      return Err(inserted.error), t';
    }
    if s.stack == [] {
      return Err(UnbalancedEnd), t';
    }
    ghost var t1 := Trace(chunks1, t.out + Missing(repl, path, s.b.found));
    var s' := Copied(source, s, inserted.value, s.pos + 4, s.stack[..|s.stack| - 1]);
    t' := Trace(t1.chunks + [Slice(source, s.pos, s.pos + 4)], t1.out + [End]);
    r := Ok(s');
    if good {
      NextAligned(s.pos);
      CopyKeeps(source, block, repl, s, t, End, s.pos + 4, inserted.value, t1, s', t');
    }
  }

  ghost function TokenAt(source: Blob, block: Blob, pos: nat): Token {
    if pos <= |source| && ReaderOf(block)(source[pos..]).Some? then ReaderOf(block)(source[pos..]).value.token else Nop
  }

  lemma PropertyAhead(source: Blob, block: Blob, repl: Replacements, s: State, t: Trace)
    requires Valid(source, block, repl, s, t) && s.pos + 4 <= |source| && U32(source, s.pos) == 3
    ensures Good(source, block, repl) ==>
              var read, token := ReadProp(source, s.pos, s.b.strings), TokenAt(source, block, s.pos);
              && read.Ok? && AtProperty(source, block, repl, s, read.value.next, token) && token.name == read.value.name
  {
    if Good(source, block, repl) {
      WalkUnfolds(ReaderOf(block), source, s.pos);
      PropAgrees(source, s.pos, block, s.b.strings);
    }
  }

  /** A property: replace, drop or copy it. */
  method PropertyRecord(source: Blob, block: Blob, repl: Replacements, s: State, ghost t: Trace)
    returns (r: Result<State, Error>, ghost t': Trace)
    requires Valid(source, block, repl, s, t) && s.pos + 4 <= |source| && U32(source, s.pos) == 3
    ensures r.Ok? ==> Valid(source, block, repl, r.value, t') && Grows(s, r.value, repl)
    ensures Good(source, block, repl) && r.Err? ==> r.error.Overflow? && Size(s.b) + Weight(repl) >= WORD
  {
    t' := t;
    PropertyAhead(source, block, repl, s, t);
    ghost var token := TokenAt(source, block, s.pos);
    var read := ReadProp(source, s.pos, s.b.strings);
    if read.Err? {
      return Err(read.error), t';
    }
    var name, next := read.value.name, read.value.next;
    var entry := Find(repl, Key(PathOf(s.stack), name));
    if entry.None? {
      r, t' := CopyProperty(source, block, repl, s, t, next, token);
    } else if entry.value.value.None? {
      r, t' := DropProperty(source, block, repl, s, t, next, entry.value, token);
    } else {
      r, t' := WriteProperty(source, block, repl, s, t, next, read.value.offset, name, entry.value, token);
    }
  }

  /** The property token at hand, as the three cases need it. */
  ghost predicate AtProperty(source: Blob, block: Blob, repl: Replacements, s: State, next: nat, token: Token) {
    Good(source, block, repl) ==>
      && s.pos < next <= |source| && token.Prop?
      && ReaderOf(block)(source[s.pos..]) == Some(Head(token, next - s.pos))
  }

  method CopyProperty(source: Blob, block: Blob, repl: Replacements, s: State, ghost t: Trace, next: nat,
                      ghost token: Token)
    returns (r: Result<State, Error>, ghost t': Trace)
    requires Valid(source, block, repl, s, t) && s.pos < next && next % 4 == 0
    requires AtProperty(source, block, repl, s, next, token)
    requires Good(source, block, repl) ==> Find(repl, Key(PathOf(s.stack), token.name)).None?
    ensures r.Ok? && Valid(source, block, repl, r.value, t') && Grows(s, r.value, repl)
  {
    var s' := Copied(source, s, s.b, next, s.stack);
    t' := Trace(t.chunks + [Slice(source, s.pos, next)], t.out + [token]);
    r := Ok(s');
    if Good(source, block, repl) {
      PropertyCopied(source, block, repl, s, t, next, token, s', t');
    }
  }

  lemma PropertyCopied(source: Blob, block: Blob, repl: Replacements, s: State, t: Trace, next: nat, token: Token,
                       s': State, t': Trace)
    requires Good(source, block, repl) && Valid(source, block, repl, s, t) && next % 4 == 0
    requires AtProperty(source, block, repl, s, next, token)
    requires Find(repl, Key(PathOf(s.stack), token.name)).None?
    requires s' == State(next, s.stack, Block(s.b.output + source[s.pos..next], s.b.strings, s.b.found))
    requires t' == Trace(t.chunks + [source[s.pos..next]], t.out + [token])
    ensures Valid(source, block, repl, s', t')
  {
    StepCopies(s, t, token, repl, s', t');
    CopyOnly(source, block, repl, s, t, token, next, s', t');
  }

  lemma StepCopies(s: State, t: Trace, token: Token, repl: Replacements, s': State, t': Trace)
    requires token.Nop? || (token.Prop? && Find(repl, Key(PathOf(s.stack), token.name)).None?)
    requires s'.stack == s.stack && s'.b.found == s.b.found && t'.out == t.out + [token]
    ensures StepperOf(repl)(Here(s, t), token) == Some(Here(s', t'))
  {
  }

  method DropProperty(source: Blob, block: Blob, repl: Replacements, s: State, ghost t: Trace, next: nat,
                      entry: Replacement, ghost token: Token)
    returns (r: Result<State, Error>, ghost t': Trace)
    requires Valid(source, block, repl, s, t) && s.pos < next && next % 4 == 0
    requires AtProperty(source, block, repl, s, next, token)
    requires Good(source, block, repl) ==> Find(repl, Key(PathOf(s.stack), token.name)) == Some(entry)
    requires entry.value.None?
    ensures r.Ok? && Valid(source, block, repl, r.value, t') && Grows(s, r.value, repl)
  {
    t' := t;
    r := Ok(State(next, s.stack, s.b.(found := s.b.found + {entry.key})));
    if Good(source, block, repl) {
      StepDrops(s, t, token, repl, entry, r.value);
      DropOnly(source, block, repl, s, t, token, next, r.value);
    }
  }

  lemma StepDrops(s: State, t: Trace, token: Token, repl: Replacements, entry: Replacement, s': State)
    requires token.Prop? && Find(repl, Key(PathOf(s.stack), token.name)) == Some(entry) && entry.value.None?
    requires s'.stack == s.stack && s'.b.found == s.b.found + {entry.key}
    ensures StepperOf(repl)(Here(s, t), token) == Some(Here(s', t))
  {
    assert t.out + [] == t.out;
  }

  lemma DropOnly(source: Blob, block: Blob, repl: Replacements, s: State, t: Trace, token: Token, next: nat, s': State)
    requires Good(source, block, repl) && Valid(source, block, repl, s, t)
    requires s'.pos == next && s.pos < next <= |source| && next % 4 == 0
    requires ReaderOf(block)(source[s.pos..]) == Some(Head(token, next - s.pos)) && !token.Finish?
    requires StepperOf(repl)(Here(s, t), token) == Some(Here(s', t))
    requires s'.b.output == s.b.output && s'.b.strings == s.b.strings
    ensures Valid(source, block, repl, s', t)
  {
    DropSyncs(ReaderOf(block), ReaderOf(s.b.strings), source, s, t, StepperOf(repl), token, s');
  }

  /** The same for any readers and any step. */
  lemma DropSyncs(r: Reader, w: Reader, source: Blob, s: State, t: Trace, step: Stepper, token: Token, s': State)
    requires GoodReader(r) && Sync(r, source, s.pos, w, s.b.output, t.chunks, Here(s, t), step)
    requires s.pos < s'.pos && s.pos < |source|
    requires r(source[s.pos..]) == Some(Head(token, s'.pos - s.pos)) && !token.Finish?
    requires step(Here(s, t), token) == Some(Here(s', t)) && s'.b.output == s.b.output
    ensures Sync(r, source, s'.pos, w, s'.b.output, t.chunks, Here(s', t), step)
  {
    DropStep(r, source, s.pos, w, s.b.output, t.chunks, Here(s, t), step, Head(token, s'.pos - s.pos), Here(s', t));
  }

  method WriteProperty(source: Blob, block: Blob, repl: Replacements, s: State, ghost t: Trace, next: nat,
                       offset: nat, name: Blob, entry: Replacement, ghost token: Token)
    returns (r: Result<State, Error>, ghost t': Trace)
    requires Valid(source, block, repl, s, t) && s.pos < next && next % 4 == 0
    requires AtProperty(source, block, repl, s, next, token)
    requires Good(source, block, repl) ==> token.name == name && Find(repl, Key(PathOf(s.stack), name)) == Some(entry)
    requires entry in repl && offset < WORD && entry.value.Some? && NameAt(s.b.strings, offset) == Some(name)
             && Ascii(name)
    ensures r.Ok? ==> Valid(source, block, repl, r.value, t') && Grows(s, r.value, repl)
    ensures Good(source, block, repl) && r.Err? ==> r.error.Overflow? && Size(s.b) + Weight(repl) >= WORD
  {
    t' := t;
    HeftWithin(repl, entry);
    var text := entry.value.value;
    if !Ascii(text) {
      return Err(Unencodable), t';
    }
    var value := Encode(text) + [0];
    if |value| >= WORD {
      return Err(Overflow), t';
    }
    r, t' := WriteRecord(source, block, repl, s, t, next, PropBytes(value, offset), entry, token, name);
    if Good(source, block, repl) {
      RecordReads(s.b.strings, name, value, offset);
      RecordKeeps(source, block, repl, s, t, next, PropBytes(value, offset), entry, token, r.value, t');
    }
  }

  method WriteRecord(source: Blob, block: Blob, repl: Replacements, s: State, ghost t: Trace, next: nat,
                     c: Blob, entry: Replacement, ghost token: Token, ghost name: Blob)
    returns (r: Result<State, Error>, ghost t': Trace)
    requires entry.value.Some?
    ensures r == Ok(State(next, s.stack, Block(s.b.output + c, s.b.strings, s.b.found + {entry.key})))
    ensures t' == Trace(t.chunks + [c], t.out + [Prop(name, Terminated(entry.value.value))])
  {
    t' := Trace(t.chunks + [c], t.out + [Prop(name, Terminated(entry.value.value))]);
    r := Ok(State(next, s.stack, Block(s.b.output + c, s.b.strings, s.b.found + {entry.key})));
  }

  lemma StepWrites(s: State, t: Trace, token: Token, repl: Replacements, entry: Replacement, s': State, t': Trace)
    requires token.Prop? && Find(repl, Key(PathOf(s.stack), token.name)) == Some(entry) && entry.value.Some?
    requires s'.stack == s.stack && s'.b.found == s.b.found + {entry.key}
    requires t'.out == t.out + [Prop(token.name, Terminated(entry.value.value))]
    ensures StepperOf(repl)(Here(s, t), token) == Some(Here(s', t'))
  {
  }

  lemma RecordKeeps(source: Blob, block: Blob, repl: Replacements, s: State, t: Trace, next: nat, c: Blob,
                    entry: Replacement, token: Token, s': State, t': Trace)
    requires Good(source, block, repl) && Valid(source, block, repl, s, t) && next % 4 == 0
    requires AtProperty(source, block, repl, s, next, token)
    requires Find(repl, Key(PathOf(s.stack), token.name)) == Some(entry) && entry.value.Some?
    requires IsToken(ReaderOf(s.b.strings), c, Prop(token.name, Terminated(entry.value.value)))
    requires s' == State(next, s.stack, s'.b) && s'.b == Block(s.b.output + c, s.b.strings, s.b.found + {entry.key})
    requires t' == Trace(t.chunks + [c], t.out + [Prop(token.name, Terminated(entry.value.value))])
    ensures Valid(source, block, repl, s', t')
  {
    StepWrites(s, t, token, repl, entry, s', t');
    RecordOnly(source, block, repl, s, t, token, next, c, Prop(token.name, Terminated(entry.value.value)), s', t');
  }

  lemma RecordOnly(source: Blob, block: Blob, repl: Replacements, s: State, t: Trace, token: Token, next: nat, c: Blob,
                   made: Token, s': State, t': Trace)
    requires Good(source, block, repl) && Valid(source, block, repl, s, t)
    requires s'.pos == next && s.pos < next <= |source| && next % 4 == 0
    requires ReaderOf(block)(source[s.pos..]) == Some(Head(token, next - s.pos)) && !token.Finish?
    requires StepperOf(repl)(Here(s, t), token) == Some(Here(s', t'))
    requires IsToken(ReaderOf(s.b.strings), c, made)
    requires s'.b.output == s.b.output + c && s'.b.strings == s.b.strings
    requires t' == Trace(t.chunks + [c], t.out + [made])
    ensures Valid(source, block, repl, s', t')
  {
    RecordSyncs(ReaderOf(block), ReaderOf(s.b.strings), source, s, t, StepperOf(repl), token, c, made, s', t');
  }

  /** The same for any readers and any step. */
  lemma RecordSyncs(r: Reader, w: Reader, source: Blob, s: State, t: Trace, step: Stepper, token: Token, c: Blob,
                    made: Token, s': State, t': Trace)
    requires GoodReader(r) && Sync(r, source, s.pos, w, s.b.output, t.chunks, Here(s, t), step)
    requires s.pos < s'.pos && s.pos < |source|
    requires r(source[s.pos..]) == Some(Head(token, s'.pos - s.pos)) && !token.Finish?
    requires step(Here(s, t), token) == Some(Here(s', t'))
    requires IsToken(w, c, made) && s'.b.output == s.b.output + c
    requires t' == Trace(t.chunks + [c], t.out + [made])
    ensures Sync(r, source, s'.pos, w, s'.b.output, t'.chunks, Here(s', t'), step)
  {
    ReplaceStep(r, source, s.pos, w, s.b.output, t.chunks, Here(s, t), step, Head(token, s'.pos - s.pos), c, made,
                Here(s', t'));
  }

  method GapToken(source: Blob, block: Blob, repl: Replacements, s: State, ghost t: Trace)
    returns (s': State, ghost t': Trace)
    requires Valid(source, block, repl, s, t) && s.pos + 4 <= |source| && U32(source, s.pos) == 4
    ensures Valid(source, block, repl, s', t') && Grows(s, s', repl)
  {
    NextAligned(s.pos);
    s' := Copied(source, s, s.b, s.pos + 4, s.stack);
    t' := Trace(t.chunks + [Slice(source, s.pos, s.pos + 4)], t.out + [Nop]);
    if Good(source, block, repl) {
      GapAhead(source, block, repl, s, t);
      StepCopies(s, t, Nop, repl, s', t');
      CopyOnly(source, block, repl, s, t, Nop, s.pos + 4, s', t');
    }
  }

  lemma GapAhead(source: Blob, block: Blob, repl: Replacements, s: State, t: Trace)
    requires Valid(source, block, repl, s, t) && s.pos + 4 <= |source| && U32(source, s.pos) == 4
    requires Good(source, block, repl)
    ensures ReaderOf(block)(source[s.pos..]) == Some(Head(Nop, 4))
  {
    WalkUnfolds(ReaderOf(block), source, s.pos);
    PlainAgrees(source, s.pos, block);
  }

  /** What a finished run means for the whole block. */
  ghost predicate Rewrites(source: Blob, block: Blob, b: Block, repl: Replacements) {
    && GoodReader(ReaderOf(block)) && GoodReader(ReaderOf(b.strings)) && |b.output| % 4 == 0
    && Folded(ReaderOf(block), source, ReaderOf(b.strings), b.output, b.found, StepperOf(repl))
  }

  lemma ValidAligned(source: Blob, block: Blob, repl: Replacements, s: State, t: Trace)
    requires Valid(source, block, repl, s, t) && Good(source, block, repl)
    ensures GoodReader(ReaderOf(block)) && GoodReader(ReaderOf(s.b.strings)) && |s.b.output| % 4 == 0
  {
    ReaderGood(s.b.strings);
    SyncAligned(ReaderOf(block), source, s.pos, ReaderOf(s.b.strings), s.b.output, t.chunks, Here(s, t),
                StepperOf(repl));
  }

  lemma EndMarkerEnds(source: Blob, block: Blob, repl: Replacements, s: State, t: Trace)
    requires Valid(source, block, repl, s, t) && s.pos + 4 <= |source| && U32(source, s.pos) == 9
    requires Good(source, block, repl) && GoodReader(ReaderOf(block)) && GoodReader(ReaderOf(s.b.strings))
    ensures Folded(ReaderOf(block), source, ReaderOf(s.b.strings), s.b.output + source[s.pos..s.pos + 4], s.b.found,
                   StepperOf(repl))
  {
    WalkUnfolds(ReaderOf(block), source, s.pos);
    PlainAgrees(source, s.pos, block);
    SyncFinishes(ReaderOf(block), source, s.pos, ReaderOf(s.b.strings), s.b.output, t.chunks, Here(s, t),
                 StepperOf(repl), Head(Finish, 4), source[s.pos..s.pos + 4]);
  }

  lemma StaysAligned(output: Blob, c: Blob)
    requires |output| % 4 == 0 && |c| == 4
    ensures |output + c| % 4 == 0
  {
  }

  lemma EndMarkerRewrites(source: Blob, block: Blob, repl: Replacements, s: State, t: Trace, b: Block)
    requires Valid(source, block, repl, s, t) && s.pos + 4 <= |source| && U32(source, s.pos) == 9
    requires Good(source, block, repl)
    requires b == Block(s.b.output + source[s.pos..s.pos + 4], s.b.strings, s.b.found)
    ensures Rewrites(source, block, b, repl)
  {
    ValidAligned(source, block, repl, s, t);
    EndMarkerEnds(source, block, repl, s, t);
    StaysAligned(s.b.output, source[s.pos..s.pos + 4]);
  }

  /** The end marker is copied and the rest of the block is left unread. */
  method EndMarker(source: Blob, block: Blob, repl: Replacements, s: State, ghost t: Trace) returns (b: Block)
    requires Valid(source, block, repl, s, t) && s.pos + 4 <= |source| && U32(source, s.pos) == 9
    ensures block <= b.strings && Size(b) <= Size(s.b) + 4
    ensures Good(source, block, repl) ==> Rewrites(source, block, b, repl)
  {
    b := Block(s.b.output + source[s.pos..s.pos + 4], s.b.strings, s.b.found);
    if Good(source, block, repl) {
      EndMarkerRewrites(source, block, repl, s, t, b);
    }
  }

  /** Any other token. */
  method OneToken(source: Blob, block: Blob, repl: Replacements, s: State, ghost t: Trace)
    returns (r: Result<State, Error>, ghost t': Trace)
    requires Valid(source, block, repl, s, t) && s.pos + 4 <= |source| && U32(source, s.pos) != 9
    ensures r.Ok? ==> Valid(source, block, repl, r.value, t') && Grows(s, r.value, repl)
    ensures Good(source, block, repl) && r.Err? ==>
              || (r.error.Overflow? && Size(s.b) + Weight(repl) >= WORD)
              || (r.error.UnbalancedEnd? && Fold(START, Walked(source, block).value, repl) == None)
  {
    var token := U32(source, s.pos);
    if token == 1 {
      r, t' := BeginNode(source, block, repl, s, t);
    } else if token == 2 {
      r, t' := EndNode(source, block, repl, s, t);
    } else if token == 3 {
      r, t' := PropertyRecord(source, block, repl, s, t);
    } else if token == 4 {
      var s';
      s', t' := GapToken(source, block, repl, s, t);
      r := Ok(s');
    } else {
      if Good(source, block, repl) {
        WalkUnfolds(ReaderOf(block), source, s.pos);
        PlainAgrees(source, s.pos, block);
      }
      r, t' := Err(BadToken), t;
    }
  }

  /** The most bytes that a finished run can have written. */
  function Bound(source: Blob, block: Blob, repl: Replacements): nat {
    |block| + |source| * (Weight(repl) + 1) + Weight(repl) + 4
  }

  predicate Within(block: Blob, repl: Replacements, s: State) {
    Size(s.b) <= |block| + s.pos * (Weight(repl) + 1)
  }

  lemma WithinStep(block: Blob, repl: Replacements, s: State, s': State)
    requires Within(block, repl, s) && Grows(s, s', repl)
    ensures Within(block, repl, s')
  {
    GrowthStep(Size(s.b), Size(s'.b), |block|, s.pos, s'.pos, Weight(repl));
  }

  lemma WithinEnds(source: Blob, block: Blob, repl: Replacements, s: State)
    requires Within(block, repl, s) && s.pos <= |source|
    ensures Size(s.b) + Weight(repl) + 4 <= Bound(source, block, repl)
  {
    Ordered(s.pos, |source|, Weight(repl) + 1);
  }

  lemma Ordered(a: nat, b: nat, k: nat)
    requires a <= b
    ensures a * k <= b * k
  {
  }

  /** The loop over the structure block, until the end marker or the end of the block. */
  method RewriteBlock(source: Blob, block: Blob, repl: Replacements) returns (r: Result<Block, Error>)
    ensures r.Ok? ==> block <= r.value.strings
    ensures Good(source, block, repl) && r.Ok? ==>
              Rewrites(source, block, r.value, repl) && Size(r.value) <= Bound(source, block, repl)
    ensures Good(source, block, repl) && r.Err? ==>
              || (r.error.Overflow? && Bound(source, block, repl) >= WORD)
              || (r.error.UnbalancedEnd? && Fold(START, Walked(source, block).value, repl) == None)
  {
    var s := State(0, [], Block([], block, {}));
    ghost var t := Trace([], []);
    Started(source, block, repl);
    while s.pos < |source|
      invariant Valid(source, block, repl, s, t) && Within(block, repl, s)
      decreases |source| - s.pos
    {
      WithinEnds(source, block, repl, s);
      if s.pos + 4 > |source| {
        NotTruncated(source, block, repl, s, t);
        return Err(Truncated);
      }
      if U32(source, s.pos) == 9 {
        var b := EndMarker(source, block, repl, s, t);
        return Ok(b);
      }
      var next;
      next, t := OneToken(source, block, repl, s, t);
      if next.Err? {
        return Err(next.error);
      }
      WithinStep(block, repl, s, next.value);
      s := next.value;
    }
    Finished(source, block, repl, s, t);
    return Ok(s.b);
  }

  lemma Started(source: Blob, block: Blob, repl: Replacements)
    ensures Valid(source, block, repl, State(0, [], Block([], block, {})), Trace([], []))
    ensures Within(block, repl, State(0, [], Block([], block, {})))
  {
    if Good(source, block, repl) {
      ReaderGood(block);
      SyncStart(ReaderOf(block), source, StepperOf(repl));
    }
  }

  lemma NotTruncated(source: Blob, block: Blob, repl: Replacements, s: State, t: Trace)
    requires Valid(source, block, repl, s, t) && s.pos < |source| < s.pos + 4
    ensures !Good(source, block, repl)
  {
    if Good(source, block, repl) {
      WalkUnfolds(ReaderOf(block), source, s.pos);
      assert false;
    }
  }

  lemma Finished(source: Blob, block: Blob, repl: Replacements, s: State, t: Trace)
    requires Valid(source, block, repl, s, t) && s.pos >= |source| && Within(block, repl, s)
    ensures Good(source, block, repl) ==>
              Rewrites(source, block, s.b, repl) && Size(s.b) <= Bound(source, block, repl)
  {
    if Good(source, block, repl) {
      ValidAligned(source, block, repl, s, t);
      SyncEnds(ReaderOf(block), source, s.pos, ReaderOf(s.b.strings), s.b.output, t.chunks, Here(s, t),
               StepperOf(repl));
      WithinEnds(source, block, repl, s);
    }
  }
}
