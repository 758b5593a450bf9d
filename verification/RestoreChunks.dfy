/** Writing a root partition chunk by chunk against a pinned manifest
    (tools/forge_recovery_restore_chunks.py; the manifest of
    tools/forge_recovery_restore_source.py:33-68).

    The digest is a parameter. Where two byte strings of one length must not collide, that is a
    stated hypothesis.
 */
module RestoreChunks {
  import opened Wrappers

  type Digest = string
  type Hash = Bytes -> Digest

  const CHUNK_BYTES: nat := 4194304
  const MAX_CHUNKS: nat := 131072

  datatype Span = Span(offset: nat, bytes: nat, sha: Digest)

  datatype Card = Card(bytes: nat, sha: Digest)

  datatype Manifest = Manifest(card: Card, root: Span, chunks: seq<Span>)

  predicate Collide(hash: Hash, a: Bytes, b: Bytes) {
    |a| == |b| && hash(a) == hash(b) && a != b
  }

  ghost predicate Injective(hash: Hash) {
    forall a, b :: !Collide(hash, a, b)
  }

  lemma SameDigest(hash: Hash, a: Bytes, b: Bytes)
    requires Injective(hash) && |a| == |b|
    ensures hash(a) == hash(b) <==> a == b
  {
    assert !Collide(hash, a, b);
  }

  predicate RootChecked(root: Span, cardBytes: nat) {
    && root.offset > 0 && root.offset % 512 == 0 && root.bytes > 0 && root.bytes % 512 == 0
    && root.offset + root.bytes <= cardBytes && root.bytes <= CHUNK_BYTES * MAX_CHUNKS
  }

  predicate ChunkAt(chunk: Span, i: nat, length: nat) {
    && chunk.offset == i * CHUNK_BYTES && chunk.offset < length
    && chunk.bytes == Min(CHUNK_BYTES, length - chunk.offset)
  }

  /** The chunks lie end to end and cover the root. */
  predicate Tiled(chunks: seq<Span>, length: nat) {
    && |chunks| == (length + CHUNK_BYTES - 1) / CHUNK_BYTES
    && forall i :: 0 <= i < |chunks| ==> ChunkAt(chunks[i], i, length)
  }

  predicate ValidBackup(m: Manifest) {
    && m.card.bytes > 0 && m.card.bytes % 512 == 0
    && RootChecked(m.root, m.card.bytes) && Tiled(m.chunks, m.root.bytes)
  }

  /** Where the chunks before `i` end. */
  function Edge(chunks: seq<Span>, length: nat, i: nat): nat {
    Min(i * CHUNK_BYTES, length)
  }

  lemma TiledEdges(chunks: seq<Span>, length: nat, i: nat)
    requires Tiled(chunks, length) && i <= |chunks|
    ensures i < |chunks| ==> chunks[i].offset == Edge(chunks, length, i)
                             && chunks[i].offset + chunks[i].bytes == Edge(chunks, length, i + 1) <= length
                             && chunks[i].bytes > 0
    ensures i == |chunks| ==> Edge(chunks, length, i) == length
  {
    if i < |chunks| {
      assert ChunkAt(chunks[i], i, length);
    }
  }

  // ----- Bytes -----

  function Overlay(s: Bytes, at: nat, data: Bytes): (t: Bytes)
    requires at + |data| <= |s|
    ensures |t| == |s|
  {
    s[..at] + data + s[at + |data|..]
  }

  /** The first `n` bytes of `data` have been laid over `before`. */
  predicate Overlaid(before: Bytes, at: nat, data: Bytes, n: nat, now: Bytes) {
    at + n <= |before| && n <= |data| && now == Overlay(before, at, data[..n])
  }

  predicate Within(s: Bytes, chunk: Span) {
    chunk.offset + chunk.bytes <= |s|
  }

  function Cut(s: Bytes, chunk: Span): (c: Bytes)
    requires Within(s, chunk)
    ensures |c| == chunk.bytes
  {
    s[chunk.offset..chunk.offset + chunk.bytes]
  }

  /** What one accepted chunk does to the root: nothing when the digest already matches. */
  function Put(hash: Hash, root: Bytes, chunk: Span, data: Bytes): (t: Bytes)
    requires Within(root, chunk) && |data| == chunk.bytes
    ensures |t| == |root|
  {
    if hash(Cut(root, chunk)) == chunk.sha then root else Overlay(root, chunk.offset, data)
  }

  /** Every write makes some progress and no more than it was asked for. */
  ghost predicate Progresses(progress: nat -> int, length: nat) {
    forall k :: 0 <= k < length ==> 0 < progress(k) <= length - k
  }

  datatype Error = Terminal | ExtraChunk | ChunkDiffers | NoProgress | SyncFailed | ReadbackDiffers | Incomplete
                 | RootDiffers

  datatype Receipt = Receipt(index: nat, chunk: Span, written: nat)

  datatype Summary = Summary(root: Span, chunks: nat, written: nat, matched: nat)

  class RootChunkWriter {
    const hash: Hash
    const card: array<Byte>
    const base: nat
    const root: Span
    const chunks: seq<Span>
    var index: nat
    var failed: bool
    var finished: bool
    var written: nat
    var matched: nat

    /** The writer holds the root partition of a card: `root.bytes` bytes from `base`. */
    constructor (hash: Hash, card: array<Byte>, base: nat, m: Manifest)
      requires ValidBackup(m) && base + m.root.bytes <= card.Length
      ensures Valid() && this.hash == hash && this.card == card && this.base == base
      ensures root == m.root && chunks == m.chunks
      ensures index == 0 && written == 0 && matched == 0 && !failed && !finished
    {
      this.hash, this.card, this.base, root, chunks := hash, card, base, m.root, m.chunks;
      index, written, matched, failed, finished := 0, 0, 0, false, false;
    }

    ghost predicate Valid()
      reads this
    {
      base + root.bytes <= card.Length && Tiled(chunks, root.bytes) && index <= |chunks|
    }

    function Root(): (r: Bytes)
      requires base + root.bytes <= card.Length
      reads card
      ensures |r| == root.bytes
    {
      card[base..base + root.bytes]
    }

    predicate Expects(chunk: Span, data: Bytes)
      reads this
    {
      index < |chunks| && chunk == chunks[index] && |data| == chunk.bytes && hash(data) == chunk.sha
    }

    /** Nothing outside the root changed, and the root changed as said. */
    twostate predicate RootBecame(after: Bytes)
      requires base + root.bytes <= card.Length && |after| == root.bytes
      reads card
    {
      card[..] == Overlay(old(card[..]), base, after)
    }

    /** One system call after another, each writing as much as `progress` says. */
    method WriteOut(at: nat, data: Bytes, progress: nat -> int) returns (done: nat)
      requires at + |data| <= card.Length
      modifies card
      ensures done <= |data| && Overlaid(old(card[..]), at, data, done, card[..])
      ensures done < |data| ==> !(0 < progress(done) <= |data| - done)
    {
      ghost var before := card[..];
      done := 0;
      OverlayNothing(before, at, data);
      while done < |data| && 0 < progress(done) <= |data| - done
        invariant done <= |data| && Overlaid(before, at, data, done, card[..])
        decreases |data| - done
      {
        var count := progress(done);
        WriteNext(at, data, done, count, before);
        done := done + count;
      }
    }

    method WriteOnce(at: nat, piece: Bytes)
      requires at + |piece| <= card.Length
      modifies card
      ensures card[..] == Overlay(old(card[..]), at, piece)
    {
      ghost var before := card[..];
      forall i | 0 <= i < |piece| {
        card[at + i] := piece[i];
      }
      assert card[..] == Overlay(before, at, piece);
    }

    method WriteNext(at: nat, data: Bytes, done: nat, count: nat, ghost before: Bytes)
      requires at + |data| <= card.Length == |before| && done + count <= |data|
      requires Overlaid(before, at, data, done, card[..])
      modifies card
      ensures Overlaid(before, at, data, done + count, card[..])
    {
      ghost var was := card[..];
      WriteOnce(at + done, data[done..done + count]);
      OverlaidGrows(before, at, data, done, count, was, card[..]);
    }

    /** The same, seen from the root. */
    method WriteRoot(offset: nat, data: Bytes, progress: nat -> int) returns (done: nat)
      requires base + root.bytes <= card.Length && offset + |data| <= root.bytes
      modifies card
      ensures done <= |data| && (done < |data| ==> !(0 < progress(done) <= |data| - done))
      ensures Root() == Overlay(old(Root()), offset, data[..done]) && RootBecame(Root())
    {
      ghost var before, root0 := card[..], Root();
      done := WriteOut(base + offset, data, progress);
      InsideOverlaid(before, base, offset, data, done, card[..], root0, Root());
    }

    /** Write what differs of an expected chunk; `done` bytes of it reach the card. */
    method Rewrite(chunk: Span, data: Bytes, progress: nat -> int) returns (existing: bool, done: nat)
      requires Valid() && Expects(chunk, data)
      modifies card
      ensures existing == (hash(Cut(old(Root()), chunk)) == chunk.sha)
      ensures done <= |data| && (existing ==> done == 0)
      ensures Root() == Overlay(old(Root()), chunk.offset, data[..done]) && RootBecame(Root())
      ensures !existing && done < |data| ==> !(0 < progress(done) <= |data| - done)
    {
      TiledEdges(chunks, root.bytes, index);
      OverlaySame(card[..], base, root.bytes);
      OverlayNothing(Root(), chunk.offset, data);
      existing, done := hash(Cut(Root(), chunk)) == chunk.sha, 0;
      if !existing {
        done := WriteRoot(chunk.offset, data, progress);
      }
    }

    /** One chunk: refused before any write unless it is the next one of the manifest; otherwise
        written where it differs, synchronized and read back. Any failure is terminal. */
    method Apply(chunk: Span, data: Bytes, progress: nat -> int, synced: bool)
      returns (r: Result<Receipt, Error>, ghost done: nat)
      requires Valid()
      modifies this`index, this`failed, this`written, this`matched, card
      ensures Valid() && RootBecame(Root()) && done <= |data|
      ensures old(failed || finished) ==> r == Err(Terminal) && failed == old(failed)
      ensures !old(failed || finished) ==> failed == r.Err?
      ensures r.Err? ==> index == old(index) && written == old(written) && matched == old(matched)
      ensures r.Err? && (old(failed || finished) || !old(Expects(chunk, data))) ==> done == 0 && Root() == old(Root())
      ensures r.Err? && old(Expects(chunk, data)) ==>
                Within(old(Root()), chunk) && Root() == Overlay(old(Root()), chunk.offset, data[..done])
      ensures r.Ok? ==>
                && !old(failed || finished) && old(Expects(chunk, data)) && Within(old(Root()), chunk)
                && Root() == Put(hash, old(Root()), chunk, data)
                && r.value
                   == Receipt(old(index), chunk, if hash(Cut(old(Root()), chunk)) == chunk.sha then 0 else |data|)
                && index == old(index) + 1 && written == old(written) + r.value.written
                && matched == old(matched) + if r.value.written == 0 then 1 else 0
      ensures !old(failed || finished) && old(Expects(chunk, data)) && synced && Progresses(progress, |data|) ==> r.Ok?
    {
      done := 0;
      OverlaySame(card[..], base, root.bytes);
      if failed || finished {
        return Err(Terminal), 0;
      }
      if index >= |chunks| {
        failed := true;
        return Err(ExtraChunk), 0;
      }
      if chunk != chunks[index] || |data| != chunk.bytes || hash(data) != chunk.sha {
        failed := true;
        return Err(ChunkDiffers), 0;
      }
      r, done := ApplyExpected(chunk, data, progress, synced);
    }

    /** The next chunk of the manifest, already checked. */
    method ApplyExpected(chunk: Span, data: Bytes, progress: nat -> int, synced: bool)
      returns (r: Result<Receipt, Error>, ghost done: nat)
      requires Valid() && Expects(chunk, data) && !failed && !finished
      modifies this`index, this`failed, this`written, this`matched, card
      ensures Valid() && RootBecame(Root()) && done <= |data| && failed == r.Err?
      ensures Within(old(Root()), chunk) && Root() == Overlay(old(Root()), chunk.offset, data[..done])
      ensures r.Err? ==> index == old(index) && written == old(written) && matched == old(matched)
      ensures r.Ok? ==>
                && Root() == Put(hash, old(Root()), chunk, data)
                && r.value
                   == Receipt(old(index), chunk, if hash(Cut(old(Root()), chunk)) == chunk.sha then 0 else |data|)
                && index == old(index) + 1 && written == old(written) + r.value.written
                && matched == old(matched) + if r.value.written == 0 then 1 else 0
      ensures synced && Progresses(progress, |data|) ==> r.Ok?
    {
      TiledEdges(chunks, root.bytes, index);
      ghost var root0 := Root();
      var existing, sent := Rewrite(chunk, data, progress);
      done := sent;
      PutOrKeep(hash, root0, chunk, data, existing, sent);
      r := Ok(Receipt(index, chunk, sent));
      if !existing && sent < |data| {
        r := Err(NoProgress);
      } else if !synced {
        r := Err(SyncFailed);
      } else if hash(Cut(Root(), chunk)) != chunk.sha {
        r := Err(ReadbackDiffers);
      }
      failed := r.Err?;
      if r.Ok? {
        index, written, matched := index + 1, written + sent, matched + if sent == 0 then 1 else 0;
      }
    }

    /** The transfer is complete only when every chunk was applied and the whole root matches. */
    method Finish(synced: bool) returns (r: Result<Summary, Error>)
      requires Valid()
      modifies this`failed, this`finished
      ensures old(failed || finished) ==> r == Err(Terminal) && failed == old(failed) && finished == old(finished)
      ensures !old(failed || finished) ==> finished == r.Ok? && failed == r.Err?
      ensures r.Ok? <==> !old(failed || finished) && index == |chunks| && synced && hash(Root()) == root.sha
      ensures r.Ok? ==> r.value == Summary(root, index, written, matched)
    {
      if failed || finished {
        return Err(Terminal);
      }
      if index != |chunks| {
        failed := true;
        return Err(Incomplete);
      }
      if !synced {
        failed := true;
        return Err(SyncFailed);
      }
      if hash(Root()) != root.sha {
        failed := true;
        return Err(RootDiffers);
      }
      finished := true;
      return Ok(Summary(root, index, written, matched));
    }
  }

  lemma OverlayAt(s: Bytes, at: nat, data: Bytes, i: nat)
    requires at + |data| <= |s| && i < |s|
    ensures Overlay(s, at, data)[i] == if at <= i < at + |data| then data[i - at] else s[i]
  {
  }

  lemma OverlayNothing(s: Bytes, at: nat, data: Bytes)
    requires at <= |s|
    ensures Overlay(s, at, data[..0]) == s
  {
    assert data[..0] == [];
    assert s[..at] + [] == s[..at];
  }

  lemma InsideCard(s: Bytes, base: nat, size: nat, offset: nat, piece: Bytes)
    requires base + size <= |s| && offset + |piece| <= size
    ensures var t := Overlay(s, base + offset, piece);
      && t[base..base + size] == Overlay(s[base..base + size], offset, piece)
      && t == Overlay(s, base, t[base..base + size])
  {
    var t, r := Overlay(s, base + offset, piece), s[base..base + size];
    var u := t[base..base + size];
    forall i | 0 <= i < size ensures u[i] == Overlay(r, offset, piece)[i] {
      OverlayAt(s, base + offset, piece, base + i);
      OverlayAt(r, offset, piece, i);
    }
    assert u == Overlay(r, offset, piece);
    forall i | 0 <= i < |s| ensures t[i] == Overlay(s, base, u)[i] {
      OverlayAt(s, base + offset, piece, i);
      OverlayAt(s, base, u, i);
    }
    assert t == Overlay(s, base, u);
  }

  lemma InsideOverlaid(before: Bytes, base: nat, offset: nat, data: Bytes, n: nat, now: Bytes, root0: Bytes,
                       root1: Bytes)
    requires base + |root0| <= |before| && |root0| == |root1| && offset + |data| <= |root0|
    requires Overlaid(before, base + offset, data, n, now)
    requires |now| == |before| ==> root1 == now[base..base + |root0|]
    requires root0 == before[base..base + |root0|]
    ensures root1 == Overlay(root0, offset, data[..n]) && now == Overlay(before, base, root1)
  {
    InsideCard(before, base, |root0|, offset, data[..n]);
  }

  lemma OverlaySame(s: Bytes, base: nat, size: nat)
    requires base + size <= |s|
    ensures Overlay(s, base, s[base..base + size]) == s
  {
    forall i | 0 <= i < |s| ensures Overlay(s, base, s[base..base + size])[i] == s[i] {
      OverlayAt(s, base, s[base..base + size], i);
    }
  }

  lemma PutOrKeep(hash: Hash, root: Bytes, chunk: Span, data: Bytes, existing: bool, sent: nat)
    requires Within(root, chunk) && |data| == chunk.bytes && chunk.bytes > 0 && sent <= |data|
    requires existing == (hash(Cut(root, chunk)) == chunk.sha) && (existing ==> sent == 0)
    requires hash(data) == chunk.sha
    ensures var t := Overlay(root, chunk.offset, data[..sent]);
      && (existing || sent == |data| ==> t == Put(hash, root, chunk, data) && hash(Cut(t, chunk)) == chunk.sha)
  {
    if existing {
      assert Overlay(root, chunk.offset, data[..0]) == root;
    } else if sent == |data| {
      assert data[..sent] == data;
      assert Cut(Overlay(root, chunk.offset, data), chunk) == data;
    }
  }

  lemma OverlaidGrows(before: Bytes, at: nat, data: Bytes, done: nat, count: nat, was: Bytes, now: Bytes)
    requires at + |data| <= |before| && done + count <= |data| && Overlaid(before, at, data, done, was)
    requires now == Overlay(was, at + done, data[done..done + count])
    ensures Overlaid(before, at, data, done + count, now)
  {
    OverlayGrows(before, at, data, done, done + count);
  }

  lemma OverlayGrows(s: Bytes, at: nat, data: Bytes, a: nat, b: nat)
    requires a <= b <= |data| && at + |data| <= |s|
    ensures Overlay(Overlay(s, at, data[..a]), at + a, data[a..b]) == Overlay(s, at, data[..b])
  {
    var first := Overlay(s, at, data[..a]);
    var left, right := Overlay(first, at + a, data[a..b]), Overlay(s, at, data[..b]);
    forall i | 0 <= i < |s| ensures left[i] == right[i] {
      OverlayAt(first, at + a, data[a..b], i);
      OverlayAt(s, at, data[..a], i);
      OverlayAt(s, at, data[..b], i);
    }
  }
}
