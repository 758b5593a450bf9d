/** Whole transfers: any root becomes the source, only differing chunks are written, and a
    transfer cut off anywhere leaves a prefix of the source over the old root.
 */
module RestoreRuns {
  import opened Wrappers
  import opened RestoreChunks

  /** The manifest describes these bytes. */
  ghost predicate Describes(hash: Hash, chunks: seq<Span>, source: Bytes) {
    && Tiled(chunks, |source|)
    && forall i :: 0 <= i < |chunks| ==> Within(source, chunks[i]) && chunks[i].sha == hash(Cut(source, chunks[i]))
  }

  /** The root after the first `n` chunks. */
  function PutAll(hash: Hash, root: Bytes, chunks: seq<Span>, source: Bytes, n: nat): (t: Bytes)
    requires n <= |chunks| && |root| == |source|
    requires forall i :: 0 <= i < |chunks| ==> Within(source, chunks[i])
    ensures |t| == |root|
  {
    if n == 0 then root
    else Put(hash, PutAll(hash, root, chunks, source, n - 1), chunks[n - 1], Cut(source, chunks[n - 1]))
  }

  /** The bytes written for the first `n` chunks. */
  function Cost(hash: Hash, root: Bytes, chunks: seq<Span>, source: Bytes, n: nat): nat
    requires n <= |chunks| && |root| == |source|
    requires forall i :: 0 <= i < |chunks| ==> Within(source, chunks[i])
  {
    if n == 0 then 0
    else
      var before := PutAll(hash, root, chunks, source, n - 1);
      Cost(hash, root, chunks, source, n - 1)
      + if hash(Cut(before, chunks[n - 1])) == chunks[n - 1].sha then 0 else chunks[n - 1].bytes
  }

  /** A prefix of the source over the rest of the old root. */
  function Mixture(root: Bytes, source: Bytes, at: nat): Bytes
    requires at <= |source| == |root|
  {
    source[..at] + root[at..]
  }

  lemma MixtureGrows(root: Bytes, source: Bytes, at: nat, chunk: Span, size: nat)
    requires at <= |source| == |root| && chunk.offset == at && Within(source, chunk) && size <= chunk.bytes
    ensures Overlay(Mixture(root, source, at), at, Cut(source, chunk)[..size]) == Mixture(root, source, at + size)
  {
    var data := Cut(source, chunk)[..size];
    var left, right := Overlay(Mixture(root, source, at), at, data), Mixture(root, source, at + size);
    forall i | 0 <= i < |source| ensures left[i] == right[i] {
      OverlayAt(Mixture(root, source, at), at, data, i);
      assert at <= i < at + size ==> data[i - at] == source[i];
    }
  }

  lemma MixtureNone(root: Bytes, source: Bytes)
    requires |source| == |root|
    ensures Mixture(root, source, 0) == root
  {
  }

  lemma MixtureCut(root: Bytes, source: Bytes, at: nat, chunk: Span)
    requires at <= |source| == |root| && chunk.offset == at && Within(source, chunk)
    ensures Cut(Mixture(root, source, at), chunk) == Cut(root, chunk)
  {
  }

  lemma MixtureMatches(root: Bytes, source: Bytes, at: nat, chunk: Span)
    requires at <= |source| == |root| && chunk.offset == at && Within(source, chunk)
    requires Cut(root, chunk) == Cut(source, chunk)
    ensures Mixture(root, source, at) == Mixture(root, source, at + chunk.bytes)
  {
    var end := at + chunk.bytes;
    assert root[at..] == Cut(root, chunk) + root[end..];
    assert source[..end] == source[..at] + Cut(source, chunk);
    Regroup(source[..at], Cut(source, chunk), root[end..]);
  }

  lemma MixtureWhole(root: Bytes, source: Bytes, at: nat, chunk: Span)
    requires at <= |source| == |root| && chunk.offset == at && Within(source, chunk)
    ensures Overlay(Mixture(root, source, at), at, Cut(source, chunk)) == Mixture(root, source, at + chunk.bytes)
  {
    MixtureGrows(root, source, at, chunk, chunk.bytes);
    assert Cut(source, chunk)[..chunk.bytes] == Cut(source, chunk);
  }

  /** After `n` chunks everything before the edge is the source and everything after it is old. */
  lemma {:induction false} PutAllIsMixture(hash: Hash, root: Bytes, chunks: seq<Span>, source: Bytes, n: nat)
    requires Injective(hash) && Describes(hash, chunks, source) && |root| == |source| && n <= |chunks|
    ensures PutAll(hash, root, chunks, source, n) == Mixture(root, source, Edge(chunks, |source|, n))
  {
    MixtureNone(root, source);
    if n > 0 {
      PutAllIsMixture(hash, root, chunks, source, n - 1);
      DescribedChunk(hash, chunks, source, n - 1);
      PutNext(hash, root, chunks, source, n - 1, Edge(chunks, |source|, n - 1), Edge(chunks, |source|, n));
    }
  }

  lemma PutNext(hash: Hash, root: Bytes, chunks: seq<Span>, source: Bytes, i: nat, at: nat, end: nat)
    requires Injective(hash) && |root| == |source| && i < |chunks| && end <= |source|
    requires forall i :: 0 <= i < |chunks| ==> Within(source, chunks[i])
    requires chunks[i].sha == hash(Cut(source, chunks[i])) && chunks[i].offset == at && at + chunks[i].bytes == end
    requires PutAll(hash, root, chunks, source, i) == Mixture(root, source, at)
    ensures PutAll(hash, root, chunks, source, i + 1) == Mixture(root, source, end)
  {
    PutGrows(hash, root, source, at, chunks[i]);
  }

  /** A described chunk begins where the ones before it end, and carries its own digest. */
  lemma DescribedChunk(hash: Hash, chunks: seq<Span>, source: Bytes, i: nat)
    requires Describes(hash, chunks, source) && i < |chunks|
    ensures Within(source, chunks[i]) && chunks[i].sha == hash(Cut(source, chunks[i]))
    ensures chunks[i].offset == Edge(chunks, |source|, i) <= |source|
    ensures Edge(chunks, |source|, i) + chunks[i].bytes == Edge(chunks, |source|, i + 1) <= |source|
  {
    TiledEdges(chunks, |source|, i);
  }

  lemma PutGrows(hash: Hash, root: Bytes, source: Bytes, at: nat, chunk: Span)
    requires Injective(hash) && at <= |source| == |root| && chunk.offset == at && Within(source, chunk)
    requires chunk.sha == hash(Cut(source, chunk))
    ensures Put(hash, Mixture(root, source, at), chunk, Cut(source, chunk)) == Mixture(root, source, at + chunk.bytes)
    ensures hash(Cut(Mixture(root, source, at), chunk)) == chunk.sha <==> Cut(root, chunk) == Cut(source, chunk)
  {
    MixtureCut(root, source, at, chunk);
    SameDigest(hash, Cut(root, chunk), Cut(source, chunk));
    if Cut(root, chunk) == Cut(source, chunk) {
      MixtureMatches(root, source, at, chunk);
    } else {
      MixtureWhole(root, source, at, chunk);
    }
  }

  /** Whatever the root held, the whole transfer leaves exactly the source. */
  lemma TransferIsSource(hash: Hash, root: Bytes, chunks: seq<Span>, source: Bytes)
    requires Injective(hash) && Describes(hash, chunks, source) && |root| == |source|
    ensures PutAll(hash, root, chunks, source, |chunks|) == source
  {
    PutAllIsMixture(hash, root, chunks, source, |chunks|);
    TiledEdges(chunks, |source|, |chunks|);
    assert Mixture(root, source, |source|) == source;
  }

  /** The chunks in which two roots differ, in order. */
  function Differing(a: Bytes, b: Bytes, chunks: seq<Span>, n: nat): seq<nat>
    requires n <= |chunks| && |a| == |b| && forall i :: 0 <= i < |chunks| ==> Within(a, chunks[i])
  {
    if n == 0 then []
    else Differing(a, b, chunks, n - 1) + if Cut(a, chunks[n - 1]) != Cut(b, chunks[n - 1]) then [n - 1] else []
  }

  predicate Below(indexes: seq<nat>, n: nat) {
    forall k :: 0 <= k < |indexes| ==> indexes[k] < n
  }

  function TotalBytes(chunks: seq<Span>, indexes: seq<nat>): nat
    requires Below(indexes, |chunks|)
    decreases |indexes|
  {
    if indexes == [] then 0
    else TotalBytes(chunks, indexes[..|indexes| - 1]) + chunks[indexes[|indexes| - 1]].bytes
  }

  lemma {:induction false} DifferingBelow(a: Bytes, b: Bytes, chunks: seq<Span>, n: nat)
    requires n <= |chunks| && |a| == |b| && forall i :: 0 <= i < |chunks| ==> Within(a, chunks[i])
    ensures Below(Differing(a, b, chunks, n), n)
  {
    if n > 0 {
      DifferingBelow(a, b, chunks, n - 1);
    }
  }

  lemma {:induction false} DifferingHas(a: Bytes, b: Bytes, chunks: seq<Span>, n: nat, i: nat)
    requires n <= |chunks| && |a| == |b| && forall i :: 0 <= i < |chunks| ==> Within(a, chunks[i])
    requires i < |chunks|
    ensures i in Differing(a, b, chunks, n) <==> i < n && Cut(a, chunks[i]) != Cut(b, chunks[i])
  {
    if n > 0 {
      DifferingHas(a, b, chunks, n - 1, i);
    }
  }

  lemma {:induction false} DifferingSwaps(a: Bytes, b: Bytes, chunks: seq<Span>, n: nat)
    requires n <= |chunks| && |a| == |b| && forall i :: 0 <= i < |chunks| ==> Within(a, chunks[i])
    ensures Differing(a, b, chunks, n) == Differing(b, a, chunks, n)
  {
    if n > 0 {
      DifferingSwaps(a, b, chunks, n - 1);
    }
  }

  lemma TotalSnoc(chunks: seq<Span>, indexes: seq<nat>, i: nat)
    requires Below(indexes, |chunks|) && i < |chunks|
    ensures TotalBytes(chunks, indexes + [i]) == TotalBytes(chunks, indexes) + chunks[i].bytes
  {
    assert (indexes + [i])[..|indexes|] == indexes;
  }

  /** Only differing chunks cost anything, and each costs its length once. */
  lemma {:induction false} CostIsDifference(hash: Hash, root: Bytes, chunks: seq<Span>, source: Bytes, n: nat)
    requires Injective(hash) && Describes(hash, chunks, source) && |root| == |source| && n <= |chunks|
    ensures Below(Differing(root, source, chunks, n), |chunks|)
    ensures Cost(hash, root, chunks, source, n) == TotalBytes(chunks, Differing(root, source, chunks, n))
  {
    DifferingBelow(root, source, chunks, n);
    if n > 0 {
      CostIsDifference(hash, root, chunks, source, n - 1);
      CostStep(hash, root, chunks, source, n);
      TotalStep(root, source, chunks, n);
    }
  }

  lemma TotalStep(a: Bytes, b: Bytes, chunks: seq<Span>, n: nat)
    requires 0 < n <= |chunks| && |a| == |b| && forall i :: 0 <= i < |chunks| ==> Within(a, chunks[i])
    requires Below(Differing(a, b, chunks, n - 1), |chunks|) && Below(Differing(a, b, chunks, n), |chunks|)
    ensures TotalBytes(chunks, Differing(a, b, chunks, n))
         == TotalBytes(chunks, Differing(a, b, chunks, n - 1))
            + if Cut(a, chunks[n - 1]) == Cut(b, chunks[n - 1]) then 0 else chunks[n - 1].bytes
  {
    var before := Differing(a, b, chunks, n - 1);
    TotalSnoc(chunks, before, n - 1);
    assert before + [] == before;
  }

  lemma CostStep(hash: Hash, root: Bytes, chunks: seq<Span>, source: Bytes, n: nat)
    requires Injective(hash) && Describes(hash, chunks, source) && |root| == |source| && 0 < n <= |chunks|
    ensures Cost(hash, root, chunks, source, n)
         == Cost(hash, root, chunks, source, n - 1)
            + if Cut(root, chunks[n - 1]) == Cut(source, chunks[n - 1]) then 0 else chunks[n - 1].bytes
  {
    PutAllIsMixture(hash, root, chunks, source, n - 1);
    TiledEdges(chunks, |source|, n - 1);
    PutGrows(hash, root, source, Edge(chunks, |source|, n - 1), chunks[n - 1]);
  }

  // ----- The loop that feeds the writer -----

  /** The card outside the root. */
  ghost predicate SameAround(before: Bytes, after: Bytes, base: nat, size: nat) {
    |before| == |after| && base + size <= |before|
    && after[..base] == before[..base] && after[base + size..] == before[base + size..]
  }

  lemma AroundOverlay(card: Bytes, s: Bytes, t: Bytes, base: nat, piece: Bytes)
    requires SameAround(card, s, base, |piece|) && t == Overlay(s, base, piece)
    ensures SameAround(card, t, base, |piece|)
  {
    assert t[..base] == s[..base] && t[base + |piece|..] == s[base + |piece|..];
  }

  /** What the root holds after `n` chunks, and after `sent` bytes of the next one. */
  ghost predicate Reached(w: RootChunkWriter, root0: Bytes, source: Bytes, n: nat, sent: nat)
    requires w.base + w.root.bytes <= w.card.Length && |root0| == |source|
    reads w, w.card
  {
    && n <= |w.chunks| && (sent > 0 ==> n < |w.chunks| && sent <= w.chunks[n].bytes)
    && Edge(w.chunks, |source|, n) + sent <= |source|
    && w.Root() == Mixture(root0, source, Edge(w.chunks, |source|, n) + sent)
  }

  datatype Delivery = Delivery(chunk: Span, data: Bytes)

  /** What a complete stream delivers. */
  function Deliveries(chunks: seq<Span>, source: Bytes, n: nat): seq<Delivery>
    requires n <= |chunks| && forall i :: 0 <= i < |chunks| ==> Within(source, chunks[i])
  {
    if n == 0 then []
    else Deliveries(chunks, source, n - 1) + [Delivery(chunks[n - 1], Cut(source, chunks[n - 1]))]
  }

  lemma {:induction false} DeliveriesAt(chunks: seq<Span>, source: Bytes, n: nat, i: nat)
    requires n <= |chunks| && forall i :: 0 <= i < |chunks| ==> Within(source, chunks[i])
    ensures |Deliveries(chunks, source, n)| == n
    ensures i < n ==> Deliveries(chunks, source, n)[i] == Delivery(chunks[i], Cut(source, chunks[i]))
  {
    if n > 0 {
      DeliveriesAt(chunks, source, n - 1, i);
    }
  }

  /** Feed a fresh writer what a stream delivers; `progress` and `synced` are the system's
      answers for each chunk. Wherever it stops, the root is a prefix of the source over the old
      root, and the card outside the root is as it was. */
  method Transfer(w: RootChunkWriter, delivered: seq<Delivery>, ghost source: Bytes, progress: nat -> (nat -> int),
                  synced: nat -> bool)
    returns (complete: bool, ghost sent: nat)
    requires w.Valid() && w.index == 0 && w.written == 0 && !w.failed && !w.finished
    requires |source| == w.root.bytes && Injective(w.hash) && Describes(w.hash, w.chunks, source)
    requires delivered == Deliveries(w.chunks, source, |w.chunks|)
    modifies w`index, w`failed, w`written, w`matched, w.card
    ensures w.Valid() && SameAround(old(w.card[..]), w.card[..], w.base, w.root.bytes)
    ensures Reached(w, old(w.Root()), source, w.index, sent) && w.failed == !complete
    ensures complete ==> w.index == |w.chunks| && w.Root() == source
    ensures w.written == Cost(w.hash, old(w.Root()), w.chunks, source, w.index)
    ensures (forall i :: 0 <= i < |w.chunks| ==> synced(i) && Progresses(progress(i), w.chunks[i].bytes)) ==> complete
  {
    ghost var root0, card0 := w.Root(), w.card[..];
    complete, sent := true, 0;
    while complete && w.index < |w.chunks|
      invariant w.Valid() && !w.finished && w.failed == !complete
      invariant SameAround(card0, w.card[..], w.base, w.root.bytes)
      invariant complete ==> sent == 0 && w.Root() == PutAll(w.hash, root0, w.chunks, source, w.index)
      invariant !complete ==> Reached(w, root0, source, w.index, sent)
      invariant w.written == Cost(w.hash, root0, w.chunks, source, w.index)
      invariant (forall i :: 0 <= i < |w.chunks| ==> synced(i) && Progresses(progress(i), w.chunks[i].bytes)) ==>
                complete
      decreases |w.chunks| - w.index, complete
    {
      DeliveriesAt(w.chunks, source, |w.chunks|, w.index);
      complete, sent := TransferOne(w, delivered[w.index], source, progress(w.index), synced(w.index), root0, card0);
    }
    if complete {
      PutAllIsMixture(w.hash, root0, w.chunks, source, w.index);
      TransferIsSource(w.hash, root0, w.chunks, source);
      TiledEdges(w.chunks, |source|, w.index);
    }
  }

  lemma NextChunk(hash: Hash, root: Bytes, chunks: seq<Span>, source: Bytes, i: nat)
    requires Injective(hash) && Describes(hash, chunks, source) && |root| == |source| && i < |chunks|
    ensures var at := Edge(chunks, |source|, i);
      && PutAll(hash, root, chunks, source, i) == Mixture(root, source, at)
      && chunks[i].offset == at && Within(source, chunks[i]) && chunks[i].sha == hash(Cut(source, chunks[i]))
      && at + chunks[i].bytes <= |source|
  {
    PutAllIsMixture(hash, root, chunks, source, i);
    DescribedChunk(hash, chunks, source, i);
  }

  lemma NextPut(hash: Hash, root: Bytes, chunks: seq<Span>, source: Bytes, i: nat)
    requires |root| == |source| && i < |chunks| && forall i :: 0 <= i < |chunks| ==> Within(source, chunks[i])
    ensures var before, chunk := PutAll(hash, root, chunks, source, i), chunks[i];
      && PutAll(hash, root, chunks, source, i + 1) == Put(hash, before, chunk, Cut(source, chunk))
      && Cost(hash, root, chunks, source, i + 1)
         == Cost(hash, root, chunks, source, i) + if hash(Cut(before, chunk)) == chunk.sha then 0 else chunk.bytes
  {
  }

  method TransferOne(w: RootChunkWriter, next: Delivery, ghost source: Bytes, progress: nat -> int, synced: bool,
                     ghost root0: Bytes, ghost card0: Bytes)
    returns (complete: bool, ghost sent: nat)
    requires w.Valid() && !w.failed && !w.finished && w.index < |w.chunks|
    requires |source| == w.root.bytes == |root0| && Injective(w.hash) && Describes(w.hash, w.chunks, source)
    requires w.Root() == PutAll(w.hash, root0, w.chunks, source, w.index)
    requires w.written == Cost(w.hash, root0, w.chunks, source, w.index)
    requires SameAround(card0, w.card[..], w.base, w.root.bytes)
    requires Within(source, w.chunks[w.index])
             && next == Delivery(w.chunks[w.index], Cut(source, w.chunks[w.index]))
    modifies w`index, w`failed, w`written, w`matched, w.card
    ensures w.Valid() && w.failed == !complete && SameAround(card0, w.card[..], w.base, w.root.bytes)
    ensures complete ==> sent == 0 && w.index == old(w.index) + 1
                         && w.Root() == PutAll(w.hash, root0, w.chunks, source, w.index)
    ensures !complete ==> w.index == old(w.index) && Reached(w, root0, source, w.index, sent)
    ensures w.written == Cost(w.hash, root0, w.chunks, source, w.index)
    ensures synced && Progresses(progress, w.chunks[old(w.index)].bytes) ==> complete
  {
    ghost var i, chunk := w.index, w.chunks[w.index];
    NextChunk(w.hash, root0, w.chunks, source, i);
    NextPut(w.hash, root0, w.chunks, source, i);
    complete, sent := Send(w, next, source, progress, synced, card0);
    if !complete {
      MixtureGrows(root0, source, Edge(w.chunks, |source|, i), chunk, sent);
    }
  }

  /** Hand the writer its next delivery. */
  method Send(w: RootChunkWriter, next: Delivery, ghost source: Bytes, progress: nat -> int, synced: bool,
              ghost card0: Bytes)
    returns (complete: bool, ghost sent: nat)
    requires w.Valid() && !w.failed && !w.finished && w.index < |w.chunks|
    requires |source| == w.root.bytes && Describes(w.hash, w.chunks, source)
    requires SameAround(card0, w.card[..], w.base, w.root.bytes)
    requires Within(source, w.chunks[w.index])
             && next == Delivery(w.chunks[w.index], Cut(source, w.chunks[w.index]))
    modifies w`index, w`failed, w`written, w`matched, w.card
    ensures w.Valid() && w.failed == !complete && SameAround(card0, w.card[..], w.base, w.root.bytes)
    ensures var chunk, root := w.chunks[old(w.index)], old(w.Root());
      && Within(source, chunk) && sent <= chunk.bytes
      && if complete then
           && w.index == old(w.index) + 1 && w.Root() == Put(w.hash, root, chunk, Cut(source, chunk)) && sent == 0
           && w.written == old(w.written) + if w.hash(Cut(root, chunk)) == chunk.sha then 0 else chunk.bytes
         else
           && w.index == old(w.index) && w.written == old(w.written)
           && w.Root() == Overlay(root, chunk.offset, Cut(source, chunk)[..sent])
    ensures synced && Progresses(progress, w.chunks[old(w.index)].bytes) ==> complete
  {
    ghost var before := w.card[..];
    DescribedChunk(w.hash, w.chunks, source, w.index);
    var r;
    r, sent := w.Apply(next.chunk, next.data, progress, synced);
    AroundOverlay(card0, before, w.card[..], w.base, w.Root());
    complete := r.Ok?;
    if complete {
      sent := 0;
    }
  }

  /** A writer started afresh on whatever an interrupted transfer left behind converges: it ends
      at the source and pays only for what still differs, none of it before the interruption. */
  lemma Converges(hash: Hash, root: Bytes, chunks: seq<Span>, source: Bytes, at: nat)
    requires Injective(hash) && Describes(hash, chunks, source) && |root| == |source| && at <= |source|
    ensures var left := Mixture(root, source, at);
      var dirty := Differing(left, source, chunks, |chunks|);
      && PutAll(hash, left, chunks, source, |chunks|) == source
      && Below(dirty, |chunks|)
      && Cost(hash, left, chunks, source, |chunks|) == TotalBytes(chunks, dirty)
      && forall i :: i in dirty ==> i < |chunks| && at < chunks[i].offset + chunks[i].bytes
  {
    var left := Mixture(root, source, at);
    TransferIsSource(hash, left, chunks, source);
    CostIsDifference(hash, left, chunks, source, |chunks|);
    forall i | i in Differing(left, source, chunks, |chunks|)
      ensures i < |chunks| && at < chunks[i].offset + chunks[i].bytes
    {
      DifferingHas(left, source, chunks, |chunks|, i);
      if chunks[i].offset + chunks[i].bytes <= at {
        MixtureBefore(root, source, at, chunks[i]);
      }
    }
  }

  lemma MixtureBefore(root: Bytes, source: Bytes, at: nat, chunk: Span)
    requires at <= |source| == |root| && chunk.offset + chunk.bytes <= at
    ensures Cut(Mixture(root, source, at), chunk) == Cut(source, chunk)
  {
  }
}
