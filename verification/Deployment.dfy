/** A whole card: deploying a derivative onto it, and restoring the original afterwards
    (tools/forge_recovery_derivative.py:108-173, tools/forge_recovery_restore_chunks.py:21-93).
 */
module Deployment {
  import opened Wrappers
  import opened RestoreChunks
  import opened RestoreRuns
  import opened Derivative

  /** What the system answers during one restore: every write, every synchronization, and the last. */
  datatype Answers = Answers(progress: nat -> (nat -> int), synced: nat -> bool, settled: bool)

  ghost predicate Smooth(a: Answers, chunks: seq<Span>) {
    a.settled && forall i :: 0 <= i < |chunks| ==> a.synced(i) && Progresses(a.progress(i), chunks[i].bytes)
  }

  /** The manifest that the writer holds while a derivative is deployed. */
  function ManifestOf(d: Lineage): Manifest {
    Manifest(d.card, d.root, d.chunks)
  }

  lemma SealedPins(hash: Hash, d: Lineage, image: Bytes)
    requires Seals(hash, d, image)
    ensures Pins(hash, ManifestOf(d), image)
  {
    LineageCuts(d, 0);
  }

  /** A root between two ends of a card. */
  lemma CardIsWhole(card: Bytes, source: Bytes, root: Span)
    requires Holds(source, root) && RootOnly(source, card, root) && Root(card, root) == Root(source, root)
    ensures card == source
  {
    var end := root.offset + root.bytes;
    assert card == card[..root.offset] + Root(card, root) + card[end..];
    assert source == source[..root.offset] + Root(source, root) + source[end..];
  }

  lemma AroundIsRootOnly(source: Bytes, before: Bytes, after: Bytes, root: Span)
    requires Holds(source, root) && RootOnly(source, before, root) && SameAround(before, after, root.offset, root.bytes)
    ensures RootOnly(source, after, root)
  {
  }

  /** A fresh writer, fed a complete stream. */
  method Fill(hash: Hash, m: Manifest, card: array<Byte>, delivered: seq<Delivery>, a: Answers, ghost source: Bytes)
    returns (w: RootChunkWriter, ok: bool)
    requires Injective(hash) && Pins(hash, m, source) && card.Length == |source|
    requires RootOnly(source, card[..], m.root)
    requires delivered == Deliveries(m.chunks, Root(source, m.root), |m.chunks|)
    modifies card
    ensures fresh(w) && w.Valid() && w.hash == hash && w.card == card && w.base == m.root.offset
    ensures w.root == m.root && w.chunks == m.chunks && !w.finished && w.failed == !ok
    ensures RootOnly(source, card[..], m.root)
    ensures ok ==> w.index == |m.chunks| && w.Root() == Root(source, m.root)
    ensures ok ==> w.written == Cost(hash, Root(old(card[..]), m.root), m.chunks, Root(source, m.root), |m.chunks|)
    ensures Smooth(a, m.chunks) ==> ok
  {
    w := new RootChunkWriter(hash, card, m.root.offset, m);
    ghost var before := card[..];
    assert w.Root() == Root(before, m.root);
    ghost var sent;
    ok, sent := Transfer(w, delivered, Root(source, m.root), a.progress, a.synced);
    AroundIsRootOnly(source, before, card[..], m.root);
  }

  /** And finished: success leaves exactly the streamed card and costs the differing chunks; nothing
      outside the root changes in any case. */
  method Restore(hash: Hash, m: Manifest, card: array<Byte>, delivered: seq<Delivery>, a: Answers, ghost source: Bytes)
    returns (ok: bool, written: nat)
    requires Injective(hash) && Pins(hash, m, source) && card.Length == |source|
    requires RootOnly(source, card[..], m.root)
    requires delivered == Deliveries(m.chunks, Root(source, m.root), |m.chunks|)
    modifies card
    ensures RootOnly(source, card[..], m.root)
    ensures ok ==> card[..] == source
    ensures ok ==> written == Cost(hash, Root(old(card[..]), m.root), m.chunks, Root(source, m.root), |m.chunks|)
    ensures Smooth(a, m.chunks) ==> ok
  {
    var w;
    w, ok := Fill(hash, m, card, delivered, a, source);
    written := w.written;
    if ok {
      assert w.Root() == Root(card[..], m.root);
      CardIsWhole(card[..], source, m.root);
      var r := w.Finish(a.settled);
      ok := r.Ok?;
    }
  }

  /** The changed chunks, and no others, were written. */
  ghost predicate WroteChanged(chunks: seq<Span>, changed: seq<nat>, written: nat) {
    Below(changed, |chunks|) && written == TotalBytes(chunks, changed)
  }

  ghost predicate Derived(hash: Hash, d: Lineage, archive: Bytes, image: Bytes) {
    && Pins(hash, d.original, archive) && RootOnly(archive, image, d.original.root) && Seals(hash, d, image)
  }

  lemma CostsBothWays(hash: Hash, d: Lineage, archive: Bytes, image: Bytes)
    requires Injective(hash) && Derived(hash, d, archive, image)
    ensures var a, b := Root(archive, d.original.root), Root(image, d.root);
      && Describes(hash, d.chunks, b) && Describes(hash, d.original.chunks, a)
      && WroteChanged(d.chunks, d.changed, Cost(hash, a, d.chunks, b, |d.chunks|))
      && WroteChanged(d.original.chunks, d.changed, Cost(hash, b, d.original.chunks, a, |d.original.chunks|))
  {
    assert Root(image, d.root) == Root(image, d.original.root) && |d.chunks| == |d.original.chunks|;
    DeployThenRollback(hash, d.original, archive, image, d);
  }

  /** Same geometry, same bounds of the root. */
  lemma SameOutside(d: Lineage, archive: Bytes, card: Bytes, image: Bytes)
    requires ValidLineage(d) && Holds(archive, d.original.root) && RootOnly(archive, image, d.original.root)
    ensures Root(archive, d.root) == Root(archive, d.original.root)
    ensures Holds(image, d.root) && (RootOnly(image, card, d.root) <==> RootOnly(archive, card, d.original.root))
  {
  }

  /** Deploy a derivative onto the original card. */
  method Deploy(hash: Hash, d: Lineage, image: Bytes, card: array<Byte>, a: Answers, ghost archive: Bytes)
    returns (ok: bool, written: nat)
    requires Injective(hash) && Derived(hash, d, archive, image) && card[..] == archive
    modifies card
    ensures RootOnly(archive, card[..], d.original.root)
    ensures ok ==> card[..] == image && WroteChanged(d.chunks, d.changed, written)
    ensures Smooth(a, d.chunks) ==> ok
  {
    CostsBothWays(hash, d, archive, image);
    SealedPins(hash, d, image);
    SameOutside(d, archive, archive, image);
    var sealed, delivered := Stream(hash, d, image);
    ok, written := Restore(hash, ManifestOf(d), card, delivered, a, image);
    SameOutside(d, archive, card[..], image);
  }

  /** Restore the original, whatever the root holds. */
  method RollBack(hash: Hash, d: Lineage, archive: Bytes, card: array<Byte>, a: Answers, ghost image: Bytes)
    returns (ok: bool, written: nat)
    requires Injective(hash) && Derived(hash, d, archive, image) && card.Length == |archive|
    requires RootOnly(archive, card[..], d.original.root)
    modifies card
    ensures RootOnly(archive, card[..], d.original.root)
    ensures ok ==> card[..] == archive
    ensures ok && old(card[..]) == image ==> WroteChanged(d.original.chunks, d.changed, written)
    ensures Smooth(a, d.original.chunks) ==> ok
  {
    CostsBothWays(hash, d, archive, image);
    var root := Root(archive, d.original.root);
    ok, written := Restore(hash, d.original, card, Deliveries(d.original.chunks, root, |d.original.chunks|), a,
                           archive);
  }

  /** The card is the archive's; it is deployed to, and whatever came of that, restored. A
      deployment that succeeds leaves exactly the image, a restoration that succeeds leaves exactly
      the archive, and between them both write exactly the changed chunks. */
  method DeployAndRollBack(hash: Hash, d: Lineage, archive: Bytes, image: Bytes, card: array<Byte>,
                           there: Answers, back: Answers)
    returns (deployed: bool, restored: bool, wroteThere: nat, wroteBack: nat, ghost between: Bytes)
    requires Injective(hash) && Derived(hash, d, archive, image) && card[..] == archive
    modifies card
    ensures deployed ==> between == image && WroteChanged(d.chunks, d.changed, wroteThere)
    ensures restored ==> card[..] == archive
    ensures deployed && restored ==> WroteChanged(d.original.chunks, d.changed, wroteBack)
    ensures RootOnly(archive, between, d.original.root) && RootOnly(archive, card[..], d.original.root)
    ensures Smooth(there, d.chunks) ==> deployed
    ensures Smooth(back, d.original.chunks) ==> restored
  {
    deployed, wroteThere := Deploy(hash, d, image, card, there, archive);
    between := card[..];
    restored, wroteBack := RollBack(hash, d, archive, card, back, image);
  }
}
