/** A root-only derivative of a backed-up card: qualifying it, streaming it, and what deploying
    it and rolling it back do (tools/forge_recovery_derivative.py).
 */
module Derivative {
  import opened Wrappers
  import opened RestoreChunks
  import opened RestoreRuns

  const BLOCK_BYTES: nat := 1048576

  datatype Lineage = Lineage(original: Manifest, card: Card, root: Span, prefix: Span, suffix: Span,
                             chunks: seq<Span>, changed: seq<nat>)

  datatype Error = InvalidOriginal | SizeDiffers | EndedEarly | ProtectedChanged | ChunkChanged | ExceedsCard
                 | ChecksumDiffers | InvalidLineage | ProtectedDiffers

  /** The indexes at which two chunk maps differ, among the first `n`. */
  function ChangedIndexes(chunks: seq<Span>, before: seq<Span>, n: nat): seq<nat>
    requires n <= |chunks| && n <= |before|
  {
    if n == 0 then []
    else ChangedIndexes(chunks, before, n - 1) + if chunks[n - 1] != before[n - 1] then [n - 1] else []
  }

  predicate SameGeometry(chunks: seq<Span>, before: seq<Span>) {
    && |chunks| == |before|
    && forall i :: 0 <= i < |chunks| ==> chunks[i].offset == before[i].offset && chunks[i].bytes == before[i].bytes
  }

  predicate ValidLineage(d: Lineage) {
    && ValidBackup(d.original) && d.card.bytes == d.original.card.bytes
    && RootChecked(d.root, d.card.bytes)
    && d.root.offset == d.original.root.offset && d.root.bytes == d.original.root.bytes
    && d.prefix.offset == 0 && d.prefix.bytes == d.root.offset
    && d.suffix.offset == d.root.offset + d.root.bytes
    && d.suffix.bytes == d.card.bytes - d.root.offset - d.root.bytes
    && SameGeometry(d.chunks, d.original.chunks)
    && d.changed == ChangedIndexes(d.chunks, d.original.chunks, |d.chunks|)
    && (d.changed == [] ==> d.card == d.original.card && d.root == d.original.root)
  }

  /** The check every consumer of a manifest runs first. */
  method Validate(d: Lineage) returns (ok: bool)
    ensures ok == ValidLineage(d)
  {
    if !(ValidBackup(d.original) && d.card.bytes == d.original.card.bytes && RootChecked(d.root, d.card.bytes)
         && d.root.offset == d.original.root.offset && d.root.bytes == d.original.root.bytes
         && d.prefix.offset == 0 && d.prefix.bytes == d.root.offset
         && d.suffix.offset == d.root.offset + d.root.bytes
         && d.suffix.bytes == d.card.bytes - d.root.offset - d.root.bytes
         && |d.chunks| == |d.original.chunks|) {
      return false;
    }
    var changed: seq<nat> := [];
    for i := 0 to |d.chunks|
      invariant forall k :: 0 <= k < i ==>
                  d.chunks[k].offset == d.original.chunks[k].offset && d.chunks[k].bytes == d.original.chunks[k].bytes
      invariant changed == ChangedIndexes(d.chunks, d.original.chunks, i)
    {
      if d.chunks[i].offset != d.original.chunks[i].offset || d.chunks[i].bytes != d.original.chunks[i].bytes {
        return false;
      }
      if d.chunks[i] != d.original.chunks[i] {
        changed := changed + [i];
      }
    }
    return changed == d.changed && (changed != [] || (d.card == d.original.card && d.root == d.original.root));
  }

  // ----- Which bytes a manifest speaks of -----

  predicate Holds(card: Bytes, root: Span) {
    root.offset + root.bytes <= |card|
  }

  function Root(card: Bytes, root: Span): (r: Bytes)
    requires Holds(card, root)
    ensures |r| == root.bytes
  {
    card[root.offset..root.offset + root.bytes]
  }

  /** The retained backup is the card the manifest pins. */
  ghost predicate Pins(hash: Hash, m: Manifest, card: Bytes) {
    && ValidBackup(m) && |card| == m.card.bytes && hash(card) == m.card.sha
    && hash(Root(card, m.root)) == m.root.sha && Describes(hash, m.chunks, Root(card, m.root))
  }

  /** The image differs from the card inside the root only. */
  predicate RootOnly(card: Bytes, image: Bytes, root: Span)
    requires Holds(card, root)
  {
    && |image| == |card| && image[..root.offset] == card[..root.offset]
    && image[root.offset + root.bytes..] == card[root.offset + root.bytes..]
  }

  /** The lineage is the image's. */
  ghost predicate Seals(hash: Hash, d: Lineage, image: Bytes) {
    && ValidLineage(d) && |image| == d.card.bytes && hash(image) == d.card.sha
    && hash(Root(image, d.root)) == d.root.sha && Describes(hash, d.chunks, Root(image, d.root))
    && d.prefix.sha == hash(image[..d.root.offset]) && d.suffix.sha == hash(image[d.suffix.offset..])
  }

  // ----- Qualifying an image -----

  predicate SameRange(archive: Bytes, image: Bytes, start: nat, length: nat)
    requires start + length <= |image|
  {
    start + length <= |archive| && archive[start..start + length] == image[start..start + length]
  }

  lemma SameGrows(archive: Bytes, image: Bytes, start: nat, offset: nat, count: nat, length: nat)
    requires offset + count <= length && start + length <= |image| && SameRange(archive, image, start, offset)
    ensures SameRange(archive, image, start, length) ==> SameRange(archive, image, start + offset, count)
    ensures SameRange(archive, image, start + offset, count) ==> SameRange(archive, image, start, offset + count)
  {
    if SameRange(archive, image, start, length) {
      SubRange(archive, start, offset, count, length);
      SubRange(image, start, offset, count, length);
    }
    if SameRange(archive, image, start + offset, count) {
      Joined(archive, start, offset, count);
      Joined(image, start, offset, count);
    }
  }

  lemma SubRange(s: Bytes, start: nat, offset: nat, count: nat, length: nat)
    requires offset + count <= length && start + length <= |s|
    ensures s[start + offset..start + offset + count] == s[start..start + length][offset..offset + count]
  {
    var t, u := s[start..start + length], s[start + offset..start + offset + count];
    forall i | 0 <= i < count ensures u[i] == t[offset..offset + count][i] {
      assert u[i] == s[start + offset + i] == t[offset + i];
    }
    assert u == t[offset..offset + count];
  }

  lemma Joined(s: Bytes, start: nat, offset: nat, count: nat)
    requires start + offset + count <= |s|
    ensures s[start..start + offset + count] == s[start..start + offset] + s[start + offset..start + offset + count]
  {
  }

  /** A protected range of archive and image, block by block. */
  method CompareProtected(archive: Bytes, image: Bytes, start: nat, length: nat) returns (r: Result<(), Error>)
    requires start + length <= |image| && start <= |archive|
    ensures r.Ok? <==> SameRange(archive, image, start, length)
  {
    var offset := 0;
    r := Ok(());
    while r.Ok? && offset < length
      invariant offset <= length
      invariant r.Ok? ==> SameRange(archive, image, start, offset)
      invariant r.Err? ==> !SameRange(archive, image, start, length)
      decreases length - offset, r.Ok?
    {
      var count := BlockSize(length - offset, BLOCK_BYTES);
      SameGrows(archive, image, start, offset, count, length);
      if start + offset + count > |archive| {
        r := Err(EndedEarly);
      } else if archive[start + offset..start + offset + count] != image[start + offset..start + offset + count] {
        r := Err(ProtectedChanged);
      } else {
        offset := offset + count;
      }
    }
  }

  method BlockSize(left: nat, most: nat) returns (count: nat)
    requires left > 0 && most > 0
    ensures 0 < count <= left && count == Min(most, left)
  {
    count := if left < most then left else most;
  }

  /** The chunk map of a root, up to chunk `n`. */
  ghost predicate Mapped(hash: Hash, chunks: seq<Span>, before: seq<Span>, root: Bytes, n: nat) {
    && |chunks| == n <= |before|
    && forall i :: 0 <= i < n ==>
         && Within(root, before[i])
         && chunks[i] == Span(before[i].offset, before[i].bytes, hash(Cut(root, before[i])))
  }

  lemma {:induction false} ChangedPrefix(chunks: seq<Span>, more: seq<Span>, before: seq<Span>, n: nat)
    requires n <= |chunks| && n <= |before|
    ensures ChangedIndexes(chunks + more, before, n) == ChangedIndexes(chunks, before, n)
  {
    if n > 0 {
      ChangedPrefix(chunks, more, before, n - 1);
    }
  }

  /** A scan of the root that has mapped the chunks before `index`. */
  ghost predicate Mapping(hash: Hash, m: Manifest, archive: Bytes, image: Bytes, index: nat,
                          chunks: seq<Span>, changed: seq<nat>)
    requires Holds(image, m.root)
  {
    && Mapped(hash, chunks, m.chunks, Root(image, m.root), index)
    && changed == ChangedIndexes(chunks, m.chunks, index)
    && PinnedTo(hash, m, archive, index)
  }

  /** The archive holds the root up to chunk `index`, with the pinned digests. */
  ghost predicate PinnedTo(hash: Hash, m: Manifest, archive: Bytes, index: nat) {
    && index <= |m.chunks|
    && forall i :: 0 <= i < index ==> PinnedAt(hash, m, archive, m.chunks[i])
  }

  predicate PinnedAt(hash: Hash, m: Manifest, archive: Bytes, chunk: Span) {
    var at := m.root.offset + chunk.offset;
    at + chunk.bytes <= |archive| && chunk.sha == hash(archive[at..at + chunk.bytes])
  }

  lemma RootCut(card: Bytes, root: Span, chunk: Span)
    requires Holds(card, root) && chunk.offset + chunk.bytes <= root.bytes
    ensures Cut(Root(card, root), chunk) == card[root.offset + chunk.offset..root.offset + chunk.offset + chunk.bytes]
  {
    SubRange(card, root.offset, chunk.offset, chunk.bytes, root.bytes);
  }

  method MapChunk(hash: Hash, m: Manifest, archive: Bytes, image: Bytes, offset: nat, index: nat,
                  chunks: seq<Span>, changed: seq<nat>)
    returns (r: Result<(seq<Span>, seq<nat>), Error>, count: nat)
    requires ValidBackup(m) && Holds(image, m.root) && index < |m.chunks| && offset == m.chunks[index].offset
    requires Mapping(hash, m, archive, image, index, chunks, changed)
    ensures count == m.chunks[index].bytes && (r.Ok? <==> PinnedAt(hash, m, archive, m.chunks[index]))
    ensures r.Ok? ==> Mapping(hash, m, archive, image, index + 1, r.value.0, r.value.1)
  {
    TiledEdges(m.chunks, m.root.bytes, index);
    assert ChunkAt(m.chunks[index], index, m.root.bytes);
    count := BlockSize(m.root.bytes - offset, CHUNK_BYTES);
    var at := m.root.offset + offset;
    if at + count > |archive| {
      return Err(EndedEarly), count;
    }
    var before := Span(offset, count, hash(archive[at..at + count]));
    if before != m.chunks[index] {
      return Err(ChunkChanged), count;
    }
    var chunk := Span(offset, count, hash(image[at..at + count]));
    RootCut(image, m.root, m.chunks[index]);
    ChangedPrefix(chunks, [chunk], m.chunks, index);
    return Ok((chunks + [chunk], changed + if chunk != before then [index] else [])), count;
  }

  /** The root, chunk by chunk: the archive must match its manifest, the image is mapped. */
  method MapRoot(hash: Hash, m: Manifest, archive: Bytes, image: Bytes)
    returns (r: Result<(seq<Span>, seq<nat>), Error>)
    requires ValidBackup(m) && Holds(image, m.root)
    ensures r.Ok? <==> PinnedTo(hash, m, archive, |m.chunks|)
    ensures r.Ok? ==> Mapping(hash, m, archive, image, |m.chunks|, r.value.0, r.value.1)
  {
    var offset, index := 0, 0;
    r := Ok(([], []));
    while r.Ok? && offset < m.root.bytes
      invariant index <= |m.chunks| && offset == Edge(m.chunks, m.root.bytes, index)
      invariant r.Ok? ==> Mapping(hash, m, archive, image, index, r.value.0, r.value.1)
      invariant r.Err? ==> !PinnedTo(hash, m, archive, |m.chunks|)
      decreases |m.chunks| - index, r.Ok?
    {
      TiledEdges(m.chunks, m.root.bytes, index);
      var count;
      r, count := MapChunk(hash, m, archive, image, offset, index, r.value.0, r.value.1);
      if r.Ok? {
        offset := offset + count;
        index := index + 1;
      }
    }
    if r.Ok? {
      EdgeReached(m.chunks, m.root.bytes, index);
    }
  }

  lemma EdgeReached(chunks: seq<Span>, length: nat, index: nat)
    requires Tiled(chunks, length) && index <= |chunks| && length > 0 && Edge(chunks, length, index) >= length
    ensures index == |chunks|
  {
    TiledEdges(chunks, length, index);
  }

  /** The whole check of an image against its backup, and the sealed lineage. Only bytes of the
      root may differ. */
  method Prepare(hash: Hash, original: Manifest, archive: Bytes, image: Bytes) returns (r: Result<Lineage, Error>)
    ensures r.Ok? ==>
              && Pins(hash, original, archive) && RootOnly(archive, image, original.root)
              && r.value.original == original && Seals(hash, r.value, image)
    ensures Injective(hash) && Pins(hash, original, archive) && RootOnly(archive, image, original.root) ==> r.Ok?
  {
    if ValidBackup(original) && |image| == original.card.bytes {
      ComparableIff(hash, original, archive, image);
    }
    if !ValidBackup(original) {
      return Err(InvalidOriginal);
    }
    if |image| != original.card.bytes {
      return Err(SizeDiffers);
    }
    r := Compare(hash, original, archive, image);
    if r.Ok? {
      var valid := Validate(r.value);
      Sealed(hash, original, archive, image, r.value);
      if !valid {
        r := Err(InvalidLineage);
      }
    }
  }

  /** The lineage that the comparison computes. */
  function LineageOf(hash: Hash, original: Manifest, image: Bytes, chunks: seq<Span>, changed: seq<nat>): Lineage
    requires Holds(image, original.root)
  {
    var root := original.root;
    var end := root.offset + root.bytes;
    Lineage(original, Card(|image|, hash(image)), Span(root.offset, root.bytes, hash(Root(image, root))),
            Span(0, root.offset, hash(image[..root.offset])), Span(end, |image| - end, hash(image[end..])),
            chunks, changed)
  }

  /** Everything the comparison can require of the archive and the image. */
  ghost predicate Comparable(hash: Hash, m: Manifest, archive: Bytes, image: Bytes)
    requires Holds(image, m.root)
  {
    && SameRange(archive, image, 0, m.root.offset) && PinnedTo(hash, m, archive, |m.chunks|)
    && Holds(archive, m.root)
    && SameRange(archive, image, m.root.offset + m.root.bytes, |image| - m.root.offset - m.root.bytes)
    && |archive| == |image| && hash(archive) == m.card.sha && hash(Root(archive, m.root)) == m.root.sha
  }

  method Compare(hash: Hash, original: Manifest, archive: Bytes, image: Bytes) returns (r: Result<Lineage, Error>)
    requires ValidBackup(original) && |image| == original.card.bytes
    ensures r.Ok? <==> Comparable(hash, original, archive, image)
    ensures r.Ok? ==> exists chunks, changed ::
              && Mapping(hash, original, archive, image, |original.chunks|, chunks, changed)
              && r.value == LineageOf(hash, original, image, chunks, changed)
  {
    var root := original.root;
    var end := root.offset + root.bytes;
    var prefix := CompareProtected(archive, image, 0, root.offset);
    if prefix.Err? {
      return Err(prefix.error);
    }
    var mapped := MapRoot(hash, original, archive, image);
    if mapped.Err? {
      return Err(mapped.error);
    }
    PinnedHolds(hash, original, archive);
    var suffix := CompareProtected(archive, image, end, |image| - end);
    if suffix.Err? {
      return Err(suffix.error);
    }
    if |archive| > |image| {
      return Err(ExceedsCard);
    }
    assert archive[..|archive|] == archive;
    if hash(archive) != original.card.sha || hash(Root(archive, root)) != root.sha {
      return Err(ChecksumDiffers);
    }
    return Ok(LineageOf(hash, original, image, mapped.value.0, mapped.value.1));
  }

  lemma PinnedHolds(hash: Hash, m: Manifest, archive: Bytes)
    requires ValidBackup(m) && PinnedTo(hash, m, archive, |m.chunks|)
    ensures Holds(archive, m.root)
  {
    var last := |m.chunks| - 1;
    TiledEdges(m.chunks, m.root.bytes, last);
    TiledEdges(m.chunks, m.root.bytes, last + 1);
    assert PinnedAt(hash, m, archive, m.chunks[last]);
  }

  // ----- What the comparison establishes -----

  lemma PinnedDescribes(hash: Hash, m: Manifest, archive: Bytes)
    requires ValidBackup(m) && Holds(archive, m.root)
    ensures PinnedTo(hash, m, archive, |m.chunks|) <==> Describes(hash, m.chunks, Root(archive, m.root))
  {
    forall i | 0 <= i < |m.chunks|
      ensures PinnedAt(hash, m, archive, m.chunks[i])
         <==> Within(Root(archive, m.root), m.chunks[i])
              && m.chunks[i].sha == hash(Cut(Root(archive, m.root), m.chunks[i]))
    {
      TiledEdges(m.chunks, m.root.bytes, i);
      RootCut(archive, m.root, m.chunks[i]);
    }
  }

  lemma ComparableIff(hash: Hash, m: Manifest, archive: Bytes, image: Bytes)
    requires ValidBackup(m) && |image| == m.card.bytes
    ensures Comparable(hash, m, archive, image) <==> Pins(hash, m, archive) && RootOnly(archive, image, m.root)
  {
    if Holds(archive, m.root) {
      PinnedDescribes(hash, m, archive);
    }
    assert image[..m.root.offset] == image[0..0 + m.root.offset];
  }

  /** The mapped chunks describe the image's root. */
  lemma MappedDescribes(hash: Hash, m: Manifest, archive: Bytes, image: Bytes, chunks: seq<Span>, changed: seq<nat>)
    requires ValidBackup(m) && Holds(image, m.root)
    requires Mapping(hash, m, archive, image, |m.chunks|, chunks, changed)
    ensures SameGeometry(chunks, m.chunks) && Describes(hash, chunks, Root(image, m.root))
  {
    forall i | 0 <= i < |chunks|
      ensures ChunkAt(chunks[i], i, m.root.bytes) && chunks[i].sha == hash(Cut(Root(image, m.root), chunks[i]))
    {
      assert ChunkAt(m.chunks[i], i, m.root.bytes);
      assert chunks[i] == Span(m.chunks[i].offset, m.chunks[i].bytes, hash(Cut(Root(image, m.root), m.chunks[i])));
    }
  }

  lemma {:induction false} UnchangedMap(chunks: seq<Span>, before: seq<Span>, n: nat)
    requires n <= |chunks| && n <= |before| && ChangedIndexes(chunks, before, n) == []
    ensures chunks[..n] == before[..n]
  {
    if n > 0 {
      UnchangedMap(chunks, before, n - 1);
      assert chunks[..n] == chunks[..n - 1] + [chunks[n - 1]] && before[..n] == before[..n - 1] + [before[n - 1]];
    }
  }

  /** An image whose chunk map did not change is the card itself, so its digests agree too. */
  lemma UnchangedImage(hash: Hash, m: Manifest, archive: Bytes, image: Bytes, chunks: seq<Span>)
    requires Injective(hash) && Pins(hash, m, archive) && RootOnly(archive, image, m.root)
    requires Describes(hash, chunks, Root(image, m.root)) && chunks == m.chunks
    ensures image == archive
  {
    var a, b := Root(archive, m.root), Root(image, m.root);
    TransferIsSource(hash, a, chunks, a);
    TransferIsSource(hash, a, chunks, b);
    SamePut(hash, a, chunks, a, b, |chunks|);
    assert archive == archive[..m.root.offset] + a + archive[m.root.offset + m.root.bytes..];
    assert image == image[..m.root.offset] + b + image[m.root.offset + m.root.bytes..];
  }

  /** Two sources with one map leave the same root. */
  lemma {:induction false} SamePut(hash: Hash, root: Bytes, chunks: seq<Span>, a: Bytes, b: Bytes, n: nat)
    requires Injective(hash) && Describes(hash, chunks, a) && Describes(hash, chunks, b)
    requires n <= |chunks| && |root| == |a| == |b|
    ensures PutAll(hash, root, chunks, a, n) == PutAll(hash, root, chunks, b, n)
  {
    if n > 0 {
      SamePut(hash, root, chunks, a, b, n - 1);
      SameDigest(hash, Cut(a, chunks[n - 1]), Cut(b, chunks[n - 1]));
    }
  }

  lemma Sealed(hash: Hash, m: Manifest, archive: Bytes, image: Bytes, d: Lineage)
    requires ValidBackup(m) && |image| == m.card.bytes && Comparable(hash, m, archive, image)
    requires exists chunks, changed ::
      && Mapping(hash, m, archive, image, |m.chunks|, chunks, changed)
      && d == LineageOf(hash, m, image, chunks, changed)
    ensures Pins(hash, m, archive) && RootOnly(archive, image, m.root)
    ensures ValidLineage(d) ==> Seals(hash, d, image)
    ensures Injective(hash) ==> ValidLineage(d)
  {
    ComparableIff(hash, m, archive, image);
    MappedDescribes(hash, m, archive, image, d.chunks, d.changed);
    if d.changed == [] {
      UnchangedMap(d.chunks, m.chunks, |d.chunks|);
      assert d.chunks == m.chunks by {
        assert d.chunks[..|d.chunks|] == d.chunks && m.chunks[..|d.chunks|] == m.chunks;
      }
      if Injective(hash) {
        UnchangedImage(hash, m, archive, image, d.chunks);
      }
    }
  }

  // ----- Streaming the image -----

  lemma LineageCuts(d: Lineage, i: nat)
    requires ValidLineage(d) && i < |d.chunks|
    ensures d.chunks[i].offset + d.chunks[i].bytes <= d.root.bytes && d.chunks[i].bytes > 0
    ensures Tiled(d.chunks, d.root.bytes)
  {
    forall k | 0 <= k < |d.chunks| ensures ChunkAt(d.chunks[k], k, d.root.bytes) {
      assert ChunkAt(d.original.chunks[k], k, d.root.bytes);
    }
    TiledEdges(d.chunks, d.root.bytes, i);
  }

  /** A protected range of the image, read block by block and hashed. */
  method HashProtected(hash: Hash, image: Bytes, span: Span) returns (r: Result<(), Error>)
    ensures r.Ok? <==> (span.bytes == 0 || span.offset + span.bytes <= |image|)
                       && hash(if span.bytes == 0 then [] else image[span.offset..span.offset + span.bytes]) == span.sha
  {
    var hashed: Bytes := [];
    r := Ok(());
    while r.Ok? && |hashed| < span.bytes
      invariant |hashed| <= span.bytes
      invariant r.Ok? && hashed != [] ==>
                  span.offset + |hashed| <= |image| && hashed == image[span.offset..span.offset + |hashed|]
      invariant r.Err? ==> span.bytes != 0 && span.offset + span.bytes > |image|
      decreases span.bytes - |hashed|, r.Ok?
    {
      var count := BlockSize(span.bytes - |hashed|, BLOCK_BYTES);
      var at := span.offset + |hashed|;
      if at + count > |image| {
        r := Err(EndedEarly);
      } else {
        Joined(image, span.offset, |hashed|, count);
        hashed := hashed + image[at..at + count];
      }
    }
    if r.Ok? && hash(hashed) != span.sha {
      r := Err(ProtectedDiffers);
    }
  }

  /** Each delivered chunk is the manifest's next one and has its digest. */
  ghost predicate Checked(hash: Hash, d: Lineage, delivered: seq<Delivery>) {
    && |delivered| <= |d.chunks|
    && forall i :: 0 <= i < |delivered| ==>
         && delivered[i].chunk == d.chunks[i] && |delivered[i].data| == d.chunks[i].bytes
         && hash(delivered[i].data) == d.chunks[i].sha
  }

  /** And was read from the image. */
  ghost predicate TakenFrom(d: Lineage, image: Bytes, delivered: seq<Delivery>) {
    forall i :: 0 <= i < |delivered| ==>
      var at := d.root.offset + delivered[i].chunk.offset;
      at + delivered[i].chunk.bytes <= |image| && delivered[i].data == image[at..at + delivered[i].chunk.bytes]
  }

  /** The image holds the lineage's chunks. */
  ghost predicate ReadAt(hash: Hash, d: Lineage, image: Bytes, chunk: Span) {
    var at := d.root.offset + chunk.offset;
    at + chunk.bytes <= |image| && chunk.sha == hash(image[at..at + chunk.bytes])
  }

  ghost predicate ReadAll(hash: Hash, d: Lineage, image: Bytes) {
    forall i :: 0 <= i < |d.chunks| ==> ReadAt(hash, d, image, d.chunks[i])
  }

  method StreamRoot(hash: Hash, d: Lineage, image: Bytes) returns (r: Result<(), Error>, delivered: seq<Delivery>)
    ensures Checked(hash, d, delivered) && TakenFrom(d, image, delivered)
    ensures r.Ok? ==> |delivered| == |d.chunks|
    ensures r.Err? ==> !ReadAll(hash, d, image)
  {
    delivered := [];
    r := Ok(());
    while r.Ok? && |delivered| < |d.chunks|
      invariant Checked(hash, d, delivered) && TakenFrom(d, image, delivered)
      invariant r.Err? ==> !ReadAll(hash, d, image)
      decreases |d.chunks| - |delivered|, r.Ok?
    {
      var chunk := d.chunks[|delivered|];
      var at := d.root.offset + chunk.offset;
      if at + chunk.bytes > |image| {
        r := Err(EndedEarly);
      } else if hash(image[at..at + chunk.bytes]) != chunk.sha {
        r := Err(ChunkChanged);
      } else {
        delivered := delivered + [Delivery(chunk, image[at..at + chunk.bytes])];
      }
    }
  }

  lemma DeliveredRead(hash: Hash, d: Lineage, image: Bytes, delivered: seq<Delivery>)
    requires Checked(hash, d, delivered) && TakenFrom(d, image, delivered) && |delivered| == |d.chunks|
    ensures ReadAll(hash, d, image)
  {
    forall i | 0 <= i < |d.chunks| ensures ReadAt(hash, d, image, d.chunks[i]) {
      assert delivered[i].chunk == d.chunks[i];
    }
  }

  lemma LineageRead(hash: Hash, d: Lineage, image: Bytes)
    requires ValidLineage(d)
    ensures ReadAll(hash, d, image) <==> Holds(image, d.root) && Describes(hash, d.chunks, Root(image, d.root))
  {
    LineageCuts(d, 0);
    TiledEdges(d.chunks, d.root.bytes, |d.chunks|);
    TiledEdges(d.chunks, d.root.bytes, |d.chunks| - 1);
    if ReadAll(hash, d, image) {
      assert ReadAt(hash, d, image, d.chunks[|d.chunks| - 1]);
    }
    if Holds(image, d.root) {
      forall i | 0 <= i < |d.chunks|
        ensures Within(Root(image, d.root), d.chunks[i])
        ensures ReadAt(hash, d, image, d.chunks[i]) <==> d.chunks[i].sha == hash(Cut(Root(image, d.root), d.chunks[i]))
      {
        LineageCuts(d, i);
        RootCut(image, d.root, d.chunks[i]);
      }
    }
  }

  lemma {:induction false} DeliveriesAre(hash: Hash, d: Lineage, image: Bytes, delivered: seq<Delivery>, n: nat)
    requires Checked(hash, d, delivered) && TakenFrom(d, image, delivered) && n <= |delivered| == |d.chunks|
    requires Holds(image, d.root) && forall i :: 0 <= i < |d.chunks| ==> Within(Root(image, d.root), d.chunks[i])
    ensures delivered[..n] == Deliveries(d.chunks, Root(image, d.root), n)
  {
    if n > 0 {
      DeliveriesAre(hash, d, image, delivered, n - 1);
      RootCut(image, d.root, d.chunks[n - 1]);
      assert delivered[..n] == delivered[..n - 1] + [delivered[n - 1]];
    }
  }

  /** Both protected ranges, as the reading loops see them. */
  lemma ProtectedRead(d: Lineage, image: Bytes)
    requires ValidLineage(d) && |image| == d.card.bytes
    ensures d.prefix.offset + d.prefix.bytes <= |image|
    ensures image[d.prefix.offset..d.prefix.offset + d.prefix.bytes] == image[..d.root.offset]
    ensures image[d.suffix.offset..d.suffix.offset + d.suffix.bytes] == image[d.suffix.offset..]
  {
  }

  /** Deliver the root's chunks, each one checked first; success means the whole image was the
      sealed one. */
  method Stream(hash: Hash, d: Lineage, image: Bytes) returns (r: Result<(), Error>, delivered: seq<Delivery>)
    requires ValidLineage(d)
    ensures Checked(hash, d, delivered)
    ensures r.Ok? <==> Seals(hash, d, image)
    ensures r.Ok? ==> (forall i :: 0 <= i < |d.chunks| ==> Within(Root(image, d.root), d.chunks[i]))
                      && delivered == Deliveries(d.chunks, Root(image, d.root), |d.chunks|)
  {
    delivered := [];
    if |image| == d.card.bytes {
      ProtectedRead(d, image);
    }
    LineageRead(hash, d, image);
    r := HashProtected(hash, image, d.prefix);
    if r.Ok? {
      r, delivered := StreamRoot(hash, d, image);
      if r.Ok? {
        DeliveredRead(hash, d, image, delivered);
        DeliveriesAre(hash, d, image, delivered, |d.chunks|);
        assert delivered[..|d.chunks|] == delivered;
        r := HashProtected(hash, image, d.suffix);
      }
    }
    if r.Ok? && (|image| != d.card.bytes || hash(image) != d.card.sha || hash(Root(image, d.root)) != d.root.sha) {
      r := Err(ChecksumDiffers);
    }
  }

  // ----- Deploying and rolling back -----

  /** The sealed index lists exactly the chunks in which the image differs from the card. */
  lemma {:induction false} ChangedIsDiffering(hash: Hash, m: Manifest, chunks: seq<Span>, a: Bytes, b: Bytes, n: nat)
    requires Injective(hash) && |a| == |b| && n <= |chunks| && SameGeometry(chunks, m.chunks)
    requires Describes(hash, m.chunks, a) && Describes(hash, chunks, b)
    ensures forall i :: 0 <= i < |m.chunks| ==> Within(a, m.chunks[i])
    ensures ChangedIndexes(chunks, m.chunks, n) == Differing(a, b, m.chunks, n)
  {
    if n > 0 {
      ChangedIsDiffering(hash, m, chunks, a, b, n - 1);
      var i := n - 1;
      assert Cut(b, chunks[i]) == Cut(b, m.chunks[i]);
      SameDigest(hash, Cut(a, m.chunks[i]), Cut(b, m.chunks[i]));
    }
  }

  /** Deploying a derivative onto the card's root gives the image's root, streaming the original
      back restores the card's, and both directions write exactly the changed chunks. */
  lemma DeployThenRollback(hash: Hash, original: Manifest, archive: Bytes, image: Bytes, d: Lineage)
    requires Injective(hash) && Pins(hash, original, archive) && RootOnly(archive, image, original.root)
    requires Seals(hash, d, image) && d.original == original
    ensures var a, b, n := Root(archive, original.root), Root(image, original.root), |d.chunks|;
      && Describes(hash, d.chunks, b) && Describes(hash, original.chunks, a)
      && PutAll(hash, a, d.chunks, b, n) == b
      && PutAll(hash, b, original.chunks, a, n) == a
      && Below(d.changed, n)
      && (forall i :: 0 <= i < n ==>
            (i in d.changed <==> Cut(a, original.chunks[i]) != Cut(b, original.chunks[i])))
      && Cost(hash, a, d.chunks, b, n) == TotalBytes(d.chunks, d.changed)
      && Cost(hash, b, original.chunks, a, n) == TotalBytes(original.chunks, d.changed)
  {
    var a, b, n := Root(archive, original.root), Root(image, original.root), |d.chunks|;
    TransferIsSource(hash, a, d.chunks, b);
    TransferIsSource(hash, b, original.chunks, a);
    ChangedIsDiffering(hash, original, d.chunks, a, b, n);
    DifferingGeometry(a, b, d.chunks, original.chunks, n);
    DifferingSwaps(a, b, original.chunks, n);
    DifferingBelow(a, b, original.chunks, n);
    CostIsDifference(hash, a, d.chunks, b, n);
    CostIsDifference(hash, b, original.chunks, a, n);
    forall i | 0 <= i < n ensures i in d.changed <==> Cut(a, original.chunks[i]) != Cut(b, original.chunks[i]) {
      DifferingHas(a, b, original.chunks, n, i);
    }
  }

  lemma {:induction false} DifferingGeometry(a: Bytes, b: Bytes, chunks: seq<Span>, before: seq<Span>, n: nat)
    requires SameGeometry(chunks, before) && n <= |chunks| && |a| == |b|
    requires forall i :: 0 <= i < |chunks| ==> Within(a, chunks[i])
    ensures forall i :: 0 <= i < |before| ==> Within(a, before[i])
    ensures Differing(a, b, chunks, n) == Differing(a, b, before, n)
  {
    if n > 0 {
      DifferingGeometry(a, b, chunks, before, n - 1);
    }
  }
}
