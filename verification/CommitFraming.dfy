/** Reassembling protocol lines from whatever the pipe delivers
    (tools/forge_recovery_commit_transport.py:72-91).
 */
module CommitFraming {
  import opened Wrappers

  const NEWLINE: Byte := 10
  const LINE_LIMIT := 4096

  predicate Unbroken(line: Bytes) {
    forall j :: 0 <= j < |line| ==> line[j] != NEWLINE
  }

  /** Where the first newline is, or the length. */
  function Cut(b: Bytes): (at: nat)
    ensures at <= |b| && (forall j :: 0 <= j < at ==> b[j] != NEWLINE) && (at < |b| ==> b[at] == NEWLINE)
    decreases |b|
  {
    if b == [] || b[0] == NEWLINE then 0 else Cut(b[1..]) + 1
  }

  /** Complete lines handed on, bytes kept, and whether every line was within the limit. */
  datatype Drained = Drained(lines: seq<Bytes>, rest: Bytes, ok: bool)

  function Drain(b: Bytes): Drained
    decreases |b|
  {
    var at := Cut(b);
    if at == |b| then Drained([], b, |b| <= LINE_LIMIT)
    else if at > LINE_LIMIT then Drained([], b[at + 1..], false)
    else
      var tail := Drain(b[at + 1..]);
      Drained([b[..at]] + tail.lines, tail.rest, tail.ok)
  }

  /** The buffer of the transport's read loop. */
  class LineBuffer {
    var pending: Bytes

    constructor ()
      ensures pending == []
    {
      pending := [];
    }

    /** One read: every complete line is handed on until one is too long. */
    method Feed(data: Bytes) returns (lines: seq<Bytes>, ok: bool)
      modifies this
      ensures var d := Drain(old(pending) + data); lines == d.lines && ok == d.ok && pending == d.rest
    {
      pending := pending + data;
      ghost var whole := Drain(pending);
      lines, ok := [], true;
      EmptyFirst(whole.lines);
      while ok && Cut(pending) < |pending|
        invariant ok ==> Remains(whole, lines, Drain(pending))
        invariant !ok ==> whole == Drained(lines, pending, false)
        decreases |pending|
      {
        var at := Cut(pending);
        var line := pending[..at];
        pending := pending[at + 1..];
        if |line| > LINE_LIMIT {
          LastEmpty(lines);
          ok := false;
        } else {
          Regroup(lines, [line], Drain(pending).lines);
          lines := lines + [line];
        }
      }
      LastEmpty(lines);
      ok := ok && |pending| <= LINE_LIMIT;
    }
  }

  /** `lines` have been handed on and `left` is still to come. */
  predicate Remains(whole: Drained, lines: seq<Bytes>, left: Drained) {
    whole == Drained(lines + left.lines, left.rest, left.ok)
  }

  lemma LastEmpty<T>(a: seq<T>)
    ensures a + [] == a
  {
  }

  /** Feeding read after read, until one fails. */
  function FeedAll(pending: Bytes, chunks: seq<Bytes>): Drained
    decreases |chunks|
  {
    if chunks == [] then Drained([], pending, true)
    else
      var d := Drain(pending + chunks[0]);
      if !d.ok then d
      else
        var tail := FeedAll(d.rest, chunks[1..]);
        Drained(d.lines + tail.lines, tail.rest, tail.ok)
  }

  lemma EmptyFirst<T>(a: seq<T>)
    ensures [] + a == a
  {
  }

  /** A line and its newline are cut off the front. */
  lemma DrainLine(line: Bytes, rest: Bytes)
    requires Unbroken(line)
    ensures Drain(line + [NEWLINE] + rest)
         == if |line| > LINE_LIMIT then Drained([], rest, false)
            else Drained([line] + Drain(rest).lines, Drain(rest).rest, Drain(rest).ok)
  {
    var b := line + [NEWLINE] + rest;
    CutLine(line, rest);
    assert b[..|line|] == line && b[|line| + 1..] == rest;
  }

  lemma CutLine(line: Bytes, rest: Bytes)
    requires Unbroken(line)
    ensures Cut(line + [NEWLINE] + rest) == |line|
  {
    var b := line + [NEWLINE] + rest;
    assert forall j :: 0 <= j < |line| ==> b[j] == line[j];
    assert b[|line|] == NEWLINE;
  }

  lemma Split(a: Bytes) returns (line: Bytes, rest: Bytes)
    requires Cut(a) < |a|
    ensures a == line + [NEWLINE] + rest && Unbroken(line)
  {
    line, rest := a[..Cut(a)], a[Cut(a) + 1..];
  }

  /** What has been read already decides how more bytes are cut. */
  ghost predicate Appends(a: Bytes, b: Bytes) {
    var d, all := Drain(a), Drain(a + b);
    if d.ok then
      var e := Drain(d.rest + b);
      all.lines == d.lines + e.lines && all.rest == e.rest && all.ok == e.ok
    else all.lines == d.lines && !all.ok
  }

  lemma AppendsLine(line: Bytes, rest: Bytes, b: Bytes)
    requires Unbroken(line) && Appends(rest, b)
    ensures Appends(line + [NEWLINE] + rest, b)
  {
    DrainLine(line, rest);
    DrainLine(line, rest + b);
    Regroup(line + [NEWLINE], rest, b);
    Regroup([line], Drain(rest).lines, Drain(Drain(rest).rest + b).lines);
  }

  lemma {:induction false} DrainAppend(a: Bytes, b: Bytes)
    ensures Appends(a, b)
    decreases |a|
  {
    if Cut(a) < |a| {
      var line, rest := Split(a);
      DrainAppend(rest, b);
      AppendsLine(line, rest, b);
    } else {
      AppendsRest(a, b);
    }
  }

  lemma AppendsRest(a: Bytes, b: Bytes)
    requires Cut(a) == |a|
    ensures Appends(a, b)
  {
    assert [] + Drain(a + b).lines == Drain(a + b).lines;
    LateCut(a, b);
  }

  lemma LateCut(a: Bytes, b: Bytes)
    requires Cut(a) == |a|
    ensures Cut(a + b) >= |a|
  {
    assert forall j :: 0 <= j < |a| ==> (a + b)[j] == a[j];
  }

  lemma {:induction false} DrainRest(b: Bytes)
    requires Drain(b).ok
    ensures Drain(Drain(b).rest) == Drained([], Drain(b).rest, true)
    decreases |b|
  {
    if Cut(b) < |b| {
      DrainRest(b[Cut(b) + 1..]);
    }
  }

  /** However the pipe cuts the stream, the same lines arrive and the same streams are refused. */
  lemma {:induction false} AnyChunking(pending: Bytes, chunks: seq<Bytes>)
    requires Drain(pending) == Drained([], pending, true)
    ensures var whole, fed := Drain(pending + Concat(chunks)), FeedAll(pending, chunks);
      fed.lines == whole.lines && fed.ok == whole.ok && (whole.ok ==> fed.rest == whole.rest)
    decreases |chunks|
  {
    if chunks == [] {
      assert pending + [] == pending;
    } else {
      var d := Drain(pending + chunks[0]);
      assert pending + Concat(chunks) == pending + chunks[0] + Concat(chunks[1..]);
      DrainAppend(pending + chunks[0], Concat(chunks[1..]));
      if d.ok {
        DrainRest(pending + chunks[0]);
        AnyChunking(d.rest, chunks[1..]);
      }
    }
  }

  /** Lines as the worker prints them. */
  function Printed(lines: seq<Bytes>): Bytes
    decreases |lines|
  {
    if lines == [] then [] else lines[0] + [NEWLINE] + Printed(lines[1..])
  }

  /** Printed lines arrive whole and in order, followed by what the rest yields. */
  lemma {:induction false} PrintedArrives(lines: seq<Bytes>, tail: Bytes)
    requires forall i :: 0 <= i < |lines| ==> Unbroken(lines[i]) && |lines[i]| <= LINE_LIMIT
    ensures Drain(Printed(lines) + tail) == Drained(lines + Drain(tail).lines, Drain(tail).rest, Drain(tail).ok)
    decreases |lines|
  {
    if lines == [] {
      EmptyFirst(tail);
      EmptyFirst(Drain(tail).lines);
    } else {
      PrintedArrives(lines[1..], tail);
      Regroup(lines[0] + [NEWLINE], Printed(lines[1..]), tail);
      DrainLine(lines[0], Printed(lines[1..]) + tail);
      Regroup([lines[0]], lines[1..], Drain(tail).lines);
      assert [lines[0]] + lines[1..] == lines;
    }
  }
}
