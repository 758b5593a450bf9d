/** The commit channel completes: for every job, request and approval there is a run in which the
    worker finishes and the host holds the receipt.
 */
module CommitRuns {
  import opened Wrappers
  import opened CommitProtocol
  import opened CommitFraming
  import opened CommitWorker
  import opened CommitChannel
  import opened CommitSafety

  lemma {:induction false} ExecuteAppend(job: Job, s: System, a: seq<Action>, b: seq<Action>)
    ensures Execute(job, s, a + b) == Execute(job, Execute(job, s, a), b)
    decreases |b|
  {
    if b == [] {
      assert a + b == a;
    } else {
      assert (a + b)[..|a + b| - 1] == a + b[..|b| - 1];
      ExecuteAppend(job, s, a, b[..|b| - 1]);
    }
  }

  lemma ExecuteOne(job: Job, s: System, a: Action)
    ensures Execute(job, s, [a]) == Next(job, s, a)
  {
    assert [a][..0] == [];
  }

  lemma ExecuteTwo(job: Job, s: System, a: Action, b: Action)
    ensures Execute(job, s, [a, b]) == Next(job, Next(job, s, a), b)
  {
    assert [a, b][..1] == [a];
    ExecuteOne(job, s, a);
  }

  /** Two steps, and then the rest. */
  lemma TwoThen(job: Job, s: System, a: Action, b: Action, rest: seq<Action>)
    ensures Execute(job, s, [a, b] + rest) == Execute(job, Next(job, Next(job, s, a), b), rest)
  {
    ExecuteTwo(job, s, a, b);
    ExecuteAppend(job, s, [a, b], rest);
  }

  /** Nothing is in flight, and the host listens. */
  predicate Calm(s: System) {
    s.side.live && s.up == [] && s.down == []
  }

  // ----- The request -----

  lemma LineEnds(line: Bytes, k: nat)
    requires IsLine(line) && k <= |line|
    ensures NEWLINE in line[..k] <==> k == |line|
    ensures k > 0 ==> (line[..k][k - 1] == NEWLINE <==> k == |line|)
  {
    assert forall j :: 0 <= j < |line| - 1 ==> line[..|line| - 1][j] == line[j];
    if k == |line| {
      assert line[..k][k - 1] == NEWLINE;
    } else {
      assert forall j :: 0 <= j < k ==> line[..k][j] == line[j];
    }
  }

  lemma Piece(b: Bytes, k: nat, size: nat)
    requires k + size <= |b|
    ensures b[..k] + b[k..k + size] == b[..k + size]
  {
  }

  /** A worker that has the first `k` bytes of the request. */
  ghost predicate Requesting(s: System, request: Bytes, k: nat) {
    && Calm(s) && k < |request| && s.worker == Starting(request[..k])
    && s.side.pending == request && s.side.offset == k
  }

  lemma RequestRound(job: Job, s: System, request: Bytes, k: nat)
    requires IsLine(request) && Requesting(s, request, k)
    ensures var size := Min(WRITE_CHUNK, |request| - k);
      var s' := Next(job, Next(job, s, Write(WRITE_CHUNK)), Fetch(WRITE_CHUNK));
      && Calm(s') && s'.side.host == s.side.host && s'.side.approval == s.side.approval
      && s'.side.wire == s.side.wire + request[k..k + size]
      && if k + size == |request| then s'.worker == Reading(true, 0, 0, map[])
         else Requesting(s', request, k + size)
  {
    var size := Min(WRITE_CHUNK, |request| - k);
    Piece(request, k, size);
    LineEnds(request, k + size);
    var piece := request[k..k + size];
    var s1 := Next(job, s, Write(WRITE_CHUNK));
    assert s1.down == [] + piece == piece && s1.worker == s.worker;
    assert piece[..size] == piece && piece[size..] == [];
  }

  lemma {:induction false} RequestArrives(job: Job, s: System, request: Bytes, k: nat) returns (actions: seq<Action>)
    requires IsLine(request) && Requesting(s, request, k)
    ensures var s' := Execute(job, s, actions);
      && Calm(s') && s'.worker == Reading(true, 0, 0, map[]) && s'.side.approval == s.side.approval
      && s'.side.wire == s.side.wire + request[k..]
    decreases |request| - k
  {
    var size := Min(WRITE_CHUNK, |request| - k);
    RequestRound(job, s, request, k);
    var s' := Next(job, Next(job, s, Write(WRITE_CHUNK)), Fetch(WRITE_CHUNK));
    var more: seq<Action> := [];
    if k + size < |request| {
      more := RequestArrives(job, s', request, k + size);
    }
    actions := [Write(WRITE_CHUNK), Fetch(WRITE_CHUNK)] + more;
    TwoThen(job, s, Write(WRITE_CHUNK), Fetch(WRITE_CHUNK), more);
    assert request[k..] == request[k..k + size] + request[k + size..];
    Regroup(s.side.wire, request[k..k + size], request[k + size..]);
    assert s.side.wire + request[k..k + size] + [] == s.side.wire + request[k..k + size];
  }

  // ----- The approval -----

  ghost predicate Approving(s: System, line: Bytes, k: nat) {
    && Calm(s) && k < |line| && s.worker == Asking(line[..k])
    && s.side.pending == line && s.side.offset == k && s.side.approval == Some(line)
  }

  lemma ByteFetched(line: Bytes, k: nat)
    requires IsLine(line) && |line| <= APPROVAL_LIMIT && k < |line|
    ensures FetchStage(Asking(line[..k]), line[k..k + 1])
         == if k + 1 == |line| then Allowed(line) else Asking(line[..k + 1])
  {
    Piece(line, k, 1);
    LineEnds(line, k + 1);
    assert line[..|line|] == line;
  }

  lemma ByteSent(job: Job, s: System, line: Bytes, k: nat)
    requires Approving(s, line, k)
    ensures Next(job, s, Write(1))
         == s.(side := s.side.(offset := k + 1, wire := s.side.wire + line[k..k + 1]), down := line[k..k + 1])
  {
    assert [] + line[k..k + 1] == line[k..k + 1];
  }

  lemma ApprovalRound(job: Job, s: System, line: Bytes, k: nat)
    requires IsLine(line) && |line| <= APPROVAL_LIMIT && Approving(s, line, k)
    ensures var s' := Next(job, Next(job, s, Write(1)), Fetch(1));
      && Calm(s') && s'.side.host == s.side.host && s'.side.wire == s.side.wire + line[k..k + 1]
      && if k + 1 == |line| then s'.worker == Allowed(line) && s'.side.approval == Some(line)
         else Approving(s', line, k + 1)
  {
    ByteSent(job, s, line, k);
    ByteFetched(line, k);
    assert line[k..k + 1][..1] == line[k..k + 1] && line[k..k + 1][1..] == [];
  }

  lemma {:induction false} ApprovalArrives(job: Job, s: System, line: Bytes, k: nat) returns (actions: seq<Action>)
    requires IsLine(line) && |line| <= APPROVAL_LIMIT && Approving(s, line, k)
    ensures var s' := Execute(job, s, actions);
      && Calm(s') && s'.worker == Allowed(line) && s'.side.host == s.side.host && s'.side.approval == Some(line)
      && s'.side.wire == s.side.wire + line[k..]
    decreases |line| - k
  {
    ApprovalRound(job, s, line, k);
    var s' := Next(job, Next(job, s, Write(1)), Fetch(1));
    var more: seq<Action> := [];
    if k + 1 < |line| {
      more := ApprovalArrives(job, s', line, k + 1);
    }
    actions := [Write(1), Fetch(1)] + more;
    TwoThen(job, s, Write(1), Fetch(1), more);
    assert line[k..] == line[k..k + 1] + line[k + 1..];
    Regroup(s.side.wire, line[k..k + 1], line[k + 1..]);
    assert s.side.wire + line[k..k + 1] + [] == s.side.wire + line[k..k + 1];
  }

  // ----- A pass -----

  /** The down side of the channel is the same. */
  predicate SameDown(s: System, s': System) {
    && s'.side.pending == s.side.pending && s'.side.offset == s.side.offset && s'.side.wire == s.side.wire
    && s'.side.approval == s.side.approval && s'.down == s.down
  }

  /** How much a reading worker still has to do. */
  function Left(job: Job, worker: Stage): nat
    requires worker.Reading?
  {
    if worker.i >= 3 then 0
    else
      (if worker.at < job.plan.Bytes(RangeAt(worker.i)) then job.plan.Bytes(RangeAt(worker.i)) - worker.at else 0)
      + (if worker.i < 2 then job.plan.Bytes(RangeAt(worker.i + 1)) else 0)
      + (if worker.i < 1 then job.plan.Bytes(RangeAt(worker.i + 2)) else 0)
      + (3 - worker.i)
  }

  /** One full read, heard at once. */
  lemma ReadHeard(job: Job, request: Bytes, s: System)
    requires IsLine(request) && Inv(job, request, s) && Calm(s) && s.worker.Reading? && s.worker.i < 3
    ensures var s' := Next(job, Next(job, s, Read(READ_CHUNK)), Listen(None));
      && Inv(job, request, s') && Calm(s') && s'.worker.Reading? && s'.worker.first == s.worker.first && SameDown(s, s')
      && Left(job, s'.worker) < Left(job, s.worker)
  {
    var read := Next(job, s, Read(READ_CHUNK));
    StepKeeps(job, request, s, Read(READ_CHUNK));
    StepKeeps(job, request, read, Listen(None));
    ReadMoves(job, s);
    if read.up != [] {
      ListenKeeps(job, read.side, read.up, read.worker, None);
    }
  }

  lemma ReadMoves(job: Job, s: System)
    requires s.worker.Reading? && s.worker.i < 3 && s.up == []
    ensures var read := Next(job, s, Read(READ_CHUNK));
      && read.side == s.side && read.down == s.down && read.worker.Reading? && read.worker.first == s.worker.first
      && Left(job, read.worker) < Left(job, s.worker)
      && |read.up| <= 1 && (read.up != [] ==> read.up[0].body.Progress?)
  {
  }

  lemma {:induction false} PassReads(job: Job, request: Bytes, s: System) returns (actions: seq<Action>)
    requires IsLine(request) && Inv(job, request, s) && Calm(s) && s.worker.Reading?
    ensures var s' := Execute(job, s, actions);
      && Inv(job, request, s') && Calm(s') && s'.worker.Reading? && s'.worker.first == s.worker.first && SameDown(s, s')
      && s'.worker.i >= 3
    decreases Left(job, s.worker)
  {
    if s.worker.i >= 3 {
      actions := [];
    } else {
      ReadHeard(job, request, s);
      var s' := Next(job, Next(job, s, Read(READ_CHUNK)), Listen(None));
      var more := PassReads(job, request, s');
      actions := [Read(READ_CHUNK), Listen(None)] + more;
      TwoThen(job, s, Read(READ_CHUNK), Listen(None), more);
    }
  }

  // ----- The whole run -----

  lemma {:induction false} ExecuteKeeps(job: Job, request: Bytes, s: System, actions: seq<Action>)
    requires IsLine(request) && Inv(job, request, s)
    ensures Inv(job, request, Execute(job, s, actions))
    decreases |actions|
  {
    if actions != [] {
      ExecuteKeeps(job, request, s, actions[..|actions| - 1]);
      StepKeeps(job, request, Execute(job, s, actions[..|actions| - 1]), actions[|actions| - 1]);
    }
  }

  /** Up to the question: the request delivered and the first pass heard. */
  lemma FirstPass(job: Job, request: Bytes) returns (actions: seq<Action>)
    requires IsLine(request)
    ensures var s := Execute(job, Initial(request), actions);
      && Inv(job, request, s) && Calm(s) && s.worker.Reading? && s.worker.first && s.worker.i >= 3
      && s.side.approval.None? && s.side.wire == request
  {
    var s0 := Initial(request);
    assert request[..0] == [] && request[0..] == request;
    RunKeeps(job, request, []);
    var sent := RequestArrives(job, s0, request, 0);
    ExecuteKeeps(job, request, s0, sent);
    var read := PassReads(job, request, Execute(job, s0, sent));
    ExecuteAppend(job, s0, sent, read);
    actions := sent + read;
  }

  /** The question, and the owner's line. */
  lemma Questioned(job: Job, request: Bytes, s: System, line: Bytes) returns (actions: seq<Action>)
    requires IsLine(request) && IsLine(line) && |line| <= APPROVAL_LIMIT
    requires Inv(job, request, s) && Calm(s) && s.worker.Reading? && s.worker.first && s.worker.i >= 3
    requires s.side.approval.None?
    ensures var s' := Execute(job, s, actions);
      && Inv(job, request, s') && Calm(s') && s'.worker == Allowed(line) && s'.side.approval == Some(line)
      && s'.side.wire == s.side.wire + line
  {
    var asking := Next(job, s, Read(0));
    StepKeeps(job, request, s, Read(0));
    assert asking.up == [Message(job.attempt, Prepared(job.pin, job.plan.binding))] && asking.worker == Asking([]);
    ListenKeeps(job, asking.side, asking.up, asking.worker, Some(line));
    StepKeeps(job, request, asking, Listen(Some(line)));
    var approving := Next(job, asking, Listen(Some(line)));
    assert line[..0] == [] && line[0..] == line;
    assert Approving(approving, line, 0);
    var more := ApprovalArrives(job, approving, line, 0);
    actions := [Read(0), Listen(Some(line))] + more;
    TwoThen(job, s, Read(0), Listen(Some(line)), more);
    ExecuteKeeps(job, request, s, actions);
  }

  /** The commit itself, up to the word that boot storage is unmounted. */
  lemma Committed(job: Job, request: Bytes, s: System, line: Bytes) returns (actions: seq<Action>)
    requires IsLine(request) && Inv(job, request, s) && Calm(s) && s.worker == Allowed(line)
    ensures var s' := Execute(job, s, actions);
      && Inv(job, request, s') && Calm(s') && s'.worker == Reading(false, 0, 0, map[]) && SameDown(s, s')
  {
    var mounted := Next(job, s, Mount);
    var dismounted := Next(job, mounted, Unmount);
    StepKeeps(job, request, s, Mount);
    StepKeeps(job, request, mounted, Unmount);
    var told := Next(job, dismounted, Tell);
    StepKeeps(job, request, dismounted, Tell);
    assert told.up == [Message(job.attempt, Unmounted(job.pin, job.plan.binding.bootId))];
    ListenKeeps(job, told.side, told.up, told.worker, None);
    StepKeeps(job, request, told, Listen(None));
    actions := [Mount, Unmount] + [Tell, Listen(None)];
    TwoThen(job, s, Mount, Unmount, [Tell, Listen(None)]);
    ExecuteTwo(job, dismounted, Tell, Listen(None));
  }

  /** The second pass, and the receipt. */
  lemma SecondPass(job: Job, request: Bytes, s: System) returns (actions: seq<Action>)
    requires IsLine(request) && Inv(job, request, s) && Calm(s) && s.worker == Reading(false, 0, 0, map[])
    ensures var s' := Execute(job, s, actions);
      && Inv(job, request, s') && Calm(s') && s'.worker == Done && SameDown(s, s')
  {
    var read := PassReads(job, request, s);
    var over := Execute(job, s, read);
    var done := Next(job, over, Read(0));
    StepKeeps(job, request, over, Read(0));
    assert done.up == [Message(job.attempt, Complete(ReceiptFor(job, APPLIED)))] && done.worker == Done;
    ListenKeeps(job, done.side, done.up, done.worker, None);
    StepKeeps(job, request, done, Listen(None));
    actions := read + [Read(0), Listen(None)];
    ExecuteAppend(job, s, read, [Read(0), Listen(None)]);
    ExecuteTwo(job, over, Read(0), Listen(None));
  }

  /** Whatever the job, the request line and the owner's line, there is a run that ends with the
      worker done, nothing in flight, exactly both lines sent, and the host holding the receipt. */
  lemma Completes(job: Job, request: Bytes, line: Bytes) returns (actions: seq<Action>)
    requires IsLine(request) && IsLine(line) && |line| <= APPROVAL_LIMIT
    ensures var s := Execute(job, Initial(request), actions);
      && s.worker == Done && s.up == [] && s.down == [] && s.side.live && s.side.wire == request + line
      && s.side.host.phase.Finished? && s.side.host.result == Some(ReceiptFor(job, APPLIED))
  {
    var first := FirstPass(job, request);
    var s1 := Execute(job, Initial(request), first);
    var asked := Questioned(job, request, s1, line);
    var s2 := Execute(job, s1, asked);
    var committed := Committed(job, request, s2, line);
    var s3 := Execute(job, s2, committed);
    var second := SecondPass(job, request, s3);
    ExecuteAppend(job, Initial(request), first, asked);
    ExecuteAppend(job, Initial(request), first + asked, committed);
    ExecuteAppend(job, Initial(request), first + asked + committed, second);
    actions := first + asked + committed + second;
  }
}
