/** The whole blob: header, reservation bytes, structure block, strings block
    (tools/emulator_dtb.py:12-20, 61-70), and what the rewrite means for a tree.
 */
module DtbBlob {
  import opened Wrappers
  import opened DtbTokens
  import opened DtbFormat
  import opened DtbTree
  import opened DtbSync
  import opened DtbPatch

  function Header(fields: seq<nat>): (h: Blob)
    requires forall i :: 0 <= i < |fields| ==> fields[i] < WORD
    ensures |h| == 4 * |fields|
    decreases |fields|
  {
    if fields == [] then [] else Header(fields[..|fields| - 1]) + Pack(fields[|fields| - 1])
  }

  lemma {:induction false} HeaderReads(fields: seq<nat>, rest: Blob, i: nat)
    requires (forall j :: 0 <= j < |fields| ==> fields[j] < WORD) && i < |fields|
    ensures U32(Header(fields) + rest, 4 * i) == fields[i]
    decreases |fields|
  {
    var last := |fields| - 1;
    var before := Header(fields[..last]);
    if i == last {
      assert (Header(fields) + rest)[4 * i..4 * i + 4] == Pack(fields[i]);
      WordAt(Header(fields) + rest, 4 * i, fields[i]);
    } else {
      HeaderReads(fields[..last], Pack(fields[last]) + rest, i);
      assert Header(fields) + rest == before + (Pack(fields[last]) + rest);
    }
  }

  function Fields(data: Blob): (fields: seq<nat>)
    requires |data| >= 40
    ensures |fields| == 10 && forall i :: 0 <= i < 10 ==> fields[i] == Field(data, i)
  {
    seq(10, i requires 0 <= i < 10 => Field(data, i))
  }

  /** The rewritten header: sizes and the offset of the strings block follow the new blocks. */
  function NewFields(data: Blob, b: Block): (fields: seq<nat>)
    requires |data| >= 40
    ensures |fields| == 10
  {
    var strings := Field(data, 2) + |b.output|;
    Fields(data)[3 := strings][9 := |b.output|][8 := |b.strings|][1 := strings + |b.strings|]
  }

  /** The parts that the rewrite carries over or recomputes, for any input it accepts. */
  ghost predicate Reframed(data: Blob, out: Blob)
    requires |data| >= 40 && |out| >= 40
  {
    && ValidHeader(out)
    && (forall i :: 0 <= i < 10 && i != 1 && i != 3 && i != 8 && i != 9 ==> Field(out, i) == Field(data, i))
    && Field(out, 3) == Field(out, 2) + Field(out, 9)
    && Field(out, 1) == Field(out, 3) + Field(out, 8) == |out|
    && Field(data, 2) <= |data| && out[40..Field(out, 2)] == data[40..Field(data, 2)]
    && StringsBlock(data) <= StringsBlock(out)
  }

  /** A version 17 blob whose structure block reads to its end, and a mapping it can carry. */
  ghost predicate Readable(data: Blob, repl: Replacements) {
    |data| >= 40 && ValidHeader(data) && TokensOf(data).Some? && DistinctKeys(repl) && Encodable(repl)
  }

  /** A caller that keeps this below 2^32 never sees an overflow. */
  function Room(data: Blob, repl: Replacements): nat {
    |data| * (Weight(repl) + 3) + Weight(repl) + 4
  }

  ghost predicate Patched(data: Blob, repl: Replacements, out: Blob)
    requires Readable(data, repl)
  {
    var end := Fold(START, TokensOf(data).value, repl);
    && |out| >= 40 && Reframed(data, out) && Field(out, 9) % 4 == 0
    && end.Some? && end.value.found == AllKeys(repl)
    && TokensOf(out) == Some(end.value.out)
  }

  ghost predicate Refused(data: Blob, repl: Replacements, e: Error)
    requires Readable(data, repl)
  {
    var end := Fold(START, TokensOf(data).value, repl);
    match e
    case Overflow => Room(data, repl) >= WORD
    case UnbalancedEnd => end.None?
    case MissingNodes => end.Some? && end.value.found != AllKeys(repl)
    case _ => false
  }

  /** The parts of the new blob, in place. */
  lemma Assembled(data: Blob, b: Block, out: Blob)
    requires |data| >= 40 && ValidHeader(data) && StringsBlock(data) <= b.strings
    requires forall i :: 0 <= i < 10 ==> NewFields(data, b)[i] < WORD
    requires out == Header(NewFields(data, b)) + (data[40..Field(data, 2)] + b.output + b.strings)
    ensures |out| >= 40 && Field(out, 9) == |b.output|
    ensures StructBlock(out) == b.output && StringsBlock(out) == b.strings
    ensures Reframed(data, out)
  {
    var fields := NewFields(data, b);
    var rest := data[40..Field(data, 2)] + b.output + b.strings;
    forall i | 0 <= i < 10 ensures Field(out, i) == fields[i] {
      HeaderReads(fields, rest, i);
    }
    Placed(Header(fields), data[40..Field(data, 2)], b.output, b.strings, out);
  }

  lemma Placed(header: Blob, prefix: Blob, output: Blob, strings: Blob, out: Blob)
    requires |header| == 40 && out == header + (prefix + output + strings)
    ensures var at := 40 + |prefix|;
      && out[40..at] == prefix
      && Slice(out, at, at + |output|) == output
      && Slice(out, at + |output|, at + |output| + |strings|) == strings
      && |out| == at + |output| + |strings|
  {
  }

  lemma RoomCovers(data: Blob, repl: Replacements)
    requires |data| >= 40
    ensures Bound(StructBlock(data), StringsBlock(data), repl) + |data| <= Room(data, repl)
  {
    Ordered(|StructBlock(data)|, |data|, Weight(repl) + 1);
    Distributes(Weight(repl) + 1, 2, |data|);
  }

  /** Write the new header and put the parts together. */
  method Assemble(data: Blob, b: Block) returns (r: Result<Blob, Error>)
    requires |data| >= 40 && ValidHeader(data) && StringsBlock(data) <= b.strings
    ensures r.Ok? ==> |r.value| >= 40 && Reframed(data, r.value) && Field(r.value, 9) == |b.output|
                      && StructBlock(r.value) == b.output && StringsBlock(r.value) == b.strings
    ensures r.Err? ==> r.error.Overflow? && Size(b) + |data| >= WORD
  {
    var fields := NewFields(data, b);
    if !(forall i :: 0 <= i < 10 ==> fields[i] < WORD) {
      return Err(Overflow);
    }
    var out := Header(fields) + (data[40..Field(data, 2)] + b.output + b.strings);
    Assembled(data, b, out);
    return Ok(out);
  }

  lemma RewritesPatch(data: Blob, repl: Replacements, b: Block, out: Blob)
    requires Readable(data, repl) && Rewrites(StructBlock(data), StringsBlock(data), b, repl)
    requires b.found == AllKeys(repl) && |out| >= 40 && Reframed(data, out) && Field(out, 9) == |b.output|
    requires StructBlock(out) == b.output && StringsBlock(out) == b.strings
    ensures Patched(data, repl, out)
  {
    FoldingIsFold(repl, START, TokensOf(data).value);
  }

  lemma RewritesRefuse(data: Blob, repl: Replacements, b: Block, e: Error)
    requires Readable(data, repl) && Rewrites(StructBlock(data), StringsBlock(data), b, repl)
    requires Size(b) <= Bound(StructBlock(data), StringsBlock(data), repl)
    requires (e.Overflow? && Size(b) + |data| >= WORD) || (e.MissingNodes? && b.found != AllKeys(repl))
    ensures Refused(data, repl, e)
  {
    RoomCovers(data, repl);
    FoldingIsFold(repl, START, TokensOf(data).value);
  }

  lemma RewritingRefused(data: Blob, repl: Replacements, e: Error)
    requires Readable(data, repl)
    requires
      || (e.Overflow? && Bound(StructBlock(data), StringsBlock(data), repl) >= WORD)
      || (e.UnbalancedEnd? && Fold(START, Walked(StructBlock(data), StringsBlock(data)).value, repl) == None)
    ensures Refused(data, repl, e)
  {
    RoomCovers(data, repl);
  }

  /** Replace, drop or add the named properties of an emulator's devicetree. */
  method PatchStrings(data: Blob, repl: Replacements) returns (r: Result<Blob, Error>)
    ensures |data| < 40 ==> r == Err(Truncated)
    ensures |data| >= 40 && !ValidHeader(data) ==> r.Err? && (r.error.NotVersion17? || r.error.UnsupportedLayout?)
    ensures r.Ok? ==> |data| >= 40 && |r.value| >= 40 && Reframed(data, r.value)
    ensures Readable(data, repl) ==> if r.Ok? then Patched(data, repl, r.value) else Refused(data, repl, r.error)
  {
    if |data| < 40 {
      return Err(Truncated);
    }
    if Field(data, 0) != MAGIC || Field(data, 5) != 17 || Field(data, 1) > |data| {
      return Err(NotVersion17);
    }
    if !(40 <= Field(data, 4) <= Field(data, 2) <= Field(data, 3) <= Field(data, 1)) {
      return Err(UnsupportedLayout);
    }
    r := PatchBlocks(data, repl);
  }

  /** The rewrite once the header is known to be sound. */
  method PatchBlocks(data: Blob, repl: Replacements) returns (r: Result<Blob, Error>)
    requires |data| >= 40 && ValidHeader(data)
    ensures r.Ok? ==> |r.value| >= 40 && Reframed(data, r.value)
    ensures Readable(data, repl) ==> if r.Ok? then Patched(data, repl, r.value) else Refused(data, repl, r.error)
  {
    var rewritten := RewriteBlock(StructBlock(data), StringsBlock(data), repl);
    if rewritten.Err? {
      if Readable(data, repl) {
        RewritingRefused(data, repl, rewritten.error);
      }
      return Err(rewritten.error);
    }
    if rewritten.value.found != AllKeys(repl) {
      if Readable(data, repl) {
        RewritesRefuse(data, repl, rewritten.value, MissingNodes);
      }
      return Err(MissingNodes);
    }
    r := Assemble(data, rewritten.value);
    if Readable(data, repl) {
      if r.Ok? {
        RewritesPatch(data, repl, rewritten.value, r.value);
      } else {
        RewritesRefuse(data, repl, rewritten.value, r.error);
      }
    }
  }

  // ----- What it means for a tree -----

  /** The blob spells one tree, with or without an end marker. */
  ghost predicate Spells(data: Blob, tree: seq<Item>, ending: seq<Token>) {
    && |data| >= 40 && WellFormed(tree) && (ending == [] || ending == [Finish])
    && TokensOf(data) == Some(Flatten(tree) + ending)
  }

  lemma SpelledFold(tree: seq<Item>, ending: seq<Token>, repl: Replacements)
    requires WellFormed(tree) && (ending == [] || ending == [Finish])
    ensures Fold(START, Flatten(tree) + ending, repl)
         == Some(Progress(Flatten(Rewrite(tree, [], repl)) + ending, [], Reachable(tree, repl)))
  {
    FoldIsRewrite(tree, repl);
    FoldAppend(START, Flatten(tree), ending, repl);
    var out := Flatten(Rewrite(tree, [], repl));
    assert out + [] == out;
    assert ending == [Finish] ==> ending[1..] == [];
  }

  lemma ReachableAll(tree: seq<Item>, repl: Replacements)
    ensures Reachable(tree, repl) == AllKeys(repl) <==> forall r :: r in repl ==> r.key.path in NodePaths(tree, [])
  {
    if Reachable(tree, repl) == AllKeys(repl) {
      forall r | r in repl ensures r.key.path in NodePaths(tree, []) {
        assert r.key in AllKeys(repl);
      }
    }
  }

  /** A blob that spells a tree is patched into one that spells the rewritten tree, exactly when
      every key names a node of the tree and the sizes fit; the nodes stay, each key's values
      become what the mapping promises, and the rest is the same and in the same order. */
  lemma PatchedTree(data: Blob, repl: Replacements, tree: seq<Item>, ending: seq<Token>, r: Result<Blob, Error>,
                    key: Key)
    requires Readable(data, repl) && Spells(data, tree, ending)
    requires if r.Ok? then Patched(data, repl, r.value) else Refused(data, repl, r.error)
    ensures r.Ok? ==>
              && Spells(r.value, Rewrite(tree, [], repl), ending)
              && (forall e :: e in repl ==> e.key.path in NodePaths(tree, []))
    ensures r.Err? ==> if r.error.Overflow? then Room(data, repl) >= WORD
              else r.error.MissingNodes? && exists e :: e in repl && e.key.path !in NodePaths(tree, [])
    ensures NodePaths(Rewrite(tree, [], repl), []) == NodePaths(tree, [])
    ensures Strip(Rewrite(tree, [], repl), [], repl) == Strip(tree, [], repl)
    ensures Promised(Find(repl, key), key.path in NodePaths(tree, []),
                     Values(tree, [], key), Values(Rewrite(tree, [], repl), [], key))
  {
    OthersStay(tree, [], repl);
    RewriteWellFormed(tree, repl);
    SpelledFold(tree, ending, repl);
    ReachableAll(tree, repl);
    LookupAfterRewrite(tree, repl, key);
  }

  /** Reading the new blob back can give no other tree. */
  lemma PatchedTreeUnique(data: Blob, repl: Replacements, tree: seq<Item>, ending: seq<Token>, out: Blob,
                          tree': seq<Item>, ending': seq<Token>)
    requires Readable(data, repl) && Spells(data, tree, ending) && Patched(data, repl, out)
    requires Spells(out, tree', ending')
    ensures tree' == Rewrite(tree, [], repl) && ending' == ending
  {
    SpelledFold(tree, ending, repl);
    FlattenUnique(tree', Rewrite(tree, [], repl), ending', ending);
  }

  /** A name offset that resolved before resolves to the same string after. */
  lemma OldNamesResolve(data: Blob, out: Blob, at: nat)
    requires |data| >= 40 && |out| >= 40 && Reframed(data, out) && NameAt(StringsBlock(data), at).Some?
    ensures NameAt(StringsBlock(out), at) == NameAt(StringsBlock(data), at)
  {
    NameLocal(StringsBlock(data), StringsBlock(out), at);
  }
}
