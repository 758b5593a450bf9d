/** What every run of the commit channel keeps. */
module CommitSafety {
  import opened Wrappers
  import opened CommitProtocol
  import opened CommitFraming
  import opened CommitWorker
  import opened CommitChannel

  // ----- What is in flight -----

  /** The host's view of one message that it takes and, if it is the preparation, answers. */
  function HearOne(job: Job, h: Host, m: Message): Result<Host, CommitProtocol.Error> {
    var next := Consume(job, h, m);
    if next.Err? then next else if m.body.Prepared? then Ok(next.value.(phase := Committing)) else next
  }

  /** The host once it has heard everything in flight. */
  function Heard(job: Job, h: Host, up: seq<Message>): Result<Host, CommitProtocol.Error>
    decreases |up|
  {
    if up == [] then Ok(h)
    else
      var before := Heard(job, h, up[..|up| - 1]);
      if before.Err? then before else HearOne(job, before.value, up[|up| - 1])
  }

  lemma HeardSnoc(job: Job, h: Host, up: seq<Message>, m: Message)
    ensures Heard(job, h, up + [m])
         == if Heard(job, h, up).Ok? then HearOne(job, Heard(job, h, up).value, m) else Heard(job, h, up)
  {
    assert (up + [m])[..|up|] == up;
  }

  lemma {:induction false} HeardHead(job: Job, h: Host, up: seq<Message>)
    requires up != [] && Heard(job, h, up).Ok?
    ensures HearOne(job, h, up[0]).Ok?
    ensures Heard(job, HearOne(job, h, up[0]).value, up[1..]) == Heard(job, h, up)
    decreases |up|
  {
    var n := |up| - 1;
    assert up == up[..n] + [up[n]];
    HeardSnoc(job, h, up[..n], up[n]);
    if n == 0 {
      assert up[..n] == [] && up[1..] == [];
    } else {
      HeardHead(job, h, up[..n]);
      assert up[1..] == up[..n][1..] + [up[n]];
      HeardSnoc(job, HearOne(job, h, up[0]).value, up[..n][1..], up[n]);
    }
  }

  // ----- The worker's place in its reads -----

  function Place(range: Range): nat {
    match range
    case Root => 0
    case Prefix => 1
    case Suffix => 2
  }

  predicate Placed(plan: Plan, first: bool, i: nat, at: nat, last: map<Range, int>, range: Range) {
    if !Hashed(first, range) || i < Place(range) then range !in last
    else if Place(range) < i then plan.Bytes(range) != 0 ==> range in last && last[range] == plan.Bytes(range)
    else
      && at <= plan.Bytes(range)
      && (if at == 0 then range !in last
          else range in last && 0 < last[range] <= at && (at == plan.Bytes(range) ==> last[range] == at))
  }

  predicate Position(plan: Plan, first: bool, i: nat, at: nat, last: map<Range, int>) {
    i <= 3 && Placed(plan, first, i, at, last, Root) && Placed(plan, first, i, at, last, Prefix)
    && Placed(plan, first, i, at, last, Suffix)
  }

  // ----- The invariant -----

  predicate Unprepared(up: seq<Message>) {
    forall i :: 0 <= i < |up| ==> !up[i].body.Prepared?
  }

  predicate PreparedLast(up: seq<Message>) {
    forall i :: 0 <= i < |up| - 1 ==> !up[i].body.Prepared?
  }

  predicate PastCommit(h: Host) {
    h.phase.Committing? || h.phase.Checking? || h.phase.Finished?
  }

  /** The host, what is in flight and the worker's stage, in step. */
  ghost predicate Phased(job: Job, host: Host, live: bool, up: seq<Message>, approved: bool, worker: Stage) {
    var end := Heard(job, host, up);
    && end.Ok? && PreparedLast(up) && (approved ==> PastCommit(host) && Unprepared(up))
    && match worker
       case Starting(_) => host == FRESH && up == [] && !approved
       case Reading(first, i, at, last) =>
         && Position(job.plan, first, i, at, last) && end.value.progress == last && Unprepared(up) && approved == !first
         && (if first then host.phase.Hashing? && end.value.phase.Hashing? else end.value.phase.Checking?)
       case Asking(_) =>
         if approved then up == [] && host.phase.Committing?
         else (host.phase.Hashing? && end.value.phase.Committing?) || (!live && host.phase.Awaiting? && up == [])
       case Allowed(_) => Held(host, up, approved)
       case Mounted(_) => Held(host, up, approved)
       case Dismounted(_) => Held(host, up, approved)
       case Done =>
         approved && end.value.phase.Finished? && end.value.result == Some(ReceiptFor(job, APPLIED))
       case Dead(mounted) => mounted ==> Held(host, up, approved)
  }

  /** From the approval to the word that boot storage is unmounted. */
  predicate Held(host: Host, up: seq<Message>, approved: bool) {
    approved && up == [] && host.phase.Committing?
  }

  /** The bytes written, those in the pipe and those the worker holds. */
  predicate Piped(request: Bytes, approval: Option<Bytes>, pending: Bytes,
                  offset: nat, wire: Bytes, down: Bytes, worker: Stage) {
    && pending == (if approval.Some? then approval.value else request) && offset <= |pending|
    && wire == (if approval.Some? then request else []) + pending[..offset]
    && (approval.Some? ==> IsLine(approval.value) && |approval.value| <= APPROVAL_LIMIT)
    && match worker
       case Starting(got) => approval.None? && Unbroken(got) && got + down == pending[..offset]
       case Reading(first, _, _, _) => if first then Flushed(approval, pending, offset, down) else approval.Some?
       case Asking(got) =>
         if approval.None? then got == [] && Flushed(approval, pending, offset, down)
         else got + down == pending[..offset] && Unbroken(got)
       case Allowed(line) => approval == Some(line)
       case Mounted(line) => approval == Some(line)
       case Dismounted(line) => approval == Some(line)
       case Done => approval.Some?
       case Dead(_) => true
  }

  predicate Flushed(approval: Option<Bytes>, pending: Bytes, offset: nat,
                     down: Bytes) {
    approval.None? && down == [] && offset == |pending|
  }

  ghost predicate Inv(job: Job, request: Bytes, s: System) {
    && Phased(job, s.side.host, s.side.live, s.up, s.side.approval.Some?, s.worker)
    && Piped(request, s.side.approval, s.side.pending, s.side.offset, s.side.wire, s.down, s.worker)
    && s.mountedRenewals == 0
  }

  // ----- Reading -----

  lemma PlacedMoves(plan: Plan, first: bool, i: nat, at: nat, last: map<Range, int>, range: Range)
    requires i < 3 && Placed(plan, first, i, at, last, range)
    requires !Hashed(first, RangeAt(i)) || at >= plan.Bytes(RangeAt(i))
    ensures Placed(plan, first, i + 1, 0, last, range)
  {
  }

  lemma PlacedReads(plan: Plan, first: bool, i: nat, at: nat, last: map<Range, int>, done: nat, last': map<Range, int>,
                    range: Range)
    requires i < 3 && Placed(plan, first, i, at, last, range) && Placed(plan, first, i, at, last, RangeAt(i))
    requires Hashed(first, RangeAt(i)) && at < done <= plan.Bytes(RangeAt(i))
    requires last' == (if Due(if RangeAt(i) in last then Some(last[RangeAt(i)]) else None, done, plan.Bytes(RangeAt(i)))
                       then last[RangeAt(i) := done] else last)
    ensures Placed(plan, first, i, done, last', range)
  {
  }

  lemma AfterNone(job: Job, up: seq<Message>)
    ensures After(job, up, []) == up
  {
  }

  lemma AfterOne(job: Job, up: seq<Message>, body: Body)
    ensures After(job, up, [body]) == up + [Message(job.attempt, body)]
  {
  }

  lemma ReadEnds(job: Job, host: Host, live: bool, up: seq<Message>, approved: bool, worker: Stage, n: nat)
    requires worker.Reading? && worker.i >= 3 && Phased(job, host, live, up, approved, worker)
    ensures var t := ReadTurn(job, worker.first, worker.i, worker.at, worker.last, n);
      Phased(job, host, live, After(job, up, t.sent), approved, t.stage)
  {
    var t := ReadTurn(job, worker.first, worker.i, worker.at, worker.last, n);
    AfterOne(job, up, t.sent[0]);
    HeardSnoc(job, host, up, Message(job.attempt, t.sent[0]));
  }

  lemma ReadMoves(job: Job, host: Host, live: bool, up: seq<Message>, approved: bool, worker: Stage, n: nat)
    requires worker.Reading? && worker.i < 3 && Phased(job, host, live, up, approved, worker)
    requires !Hashed(worker.first, RangeAt(worker.i)) || worker.at >= job.plan.Bytes(RangeAt(worker.i))
    ensures var t := ReadTurn(job, worker.first, worker.i, worker.at, worker.last, n);
      Phased(job, host, live, After(job, up, t.sent), approved, t.stage)
  {
    AfterNone(job, up);
    PlacedMoves(job.plan, worker.first, worker.i, worker.at, worker.last, Root);
    PlacedMoves(job.plan, worker.first, worker.i, worker.at, worker.last, Prefix);
    PlacedMoves(job.plan, worker.first, worker.i, worker.at, worker.last, Suffix);
  }

  lemma PositionReads(job: Job, first: bool, i: nat, at: nat, last: map<Range, int>, n: nat)
    requires i < 3 && Position(job.plan, first, i, at, last)
    requires Hashed(first, RangeAt(i)) && at < job.plan.Bytes(RangeAt(i))
    ensures var range, total, t := RangeAt(i), job.plan.Bytes(RangeAt(i)), ReadTurn(job, first, i, at, last, n);
      || t == Turn(Dead(false), [])
      || (&& t.stage.Reading? && t.stage.first == first
          && Position(job.plan, first, t.stage.i, t.stage.at, t.stage.last)
          && (|| (t.sent == [] && t.stage.last == last)
              || (&& t.sent == [Progress(range, t.stage.at, total)] && t.stage.last == last[range := t.stage.at]
                  && (if range in last then last[range] else 0) < t.stage.at <= total)))
  {
    var t := ReadTurn(job, first, i, at, last, n);
    if t.stage.Reading? {
      PlacedReads(job.plan, first, i, at, last, t.stage.at, t.stage.last, Root);
      PlacedReads(job.plan, first, i, at, last, t.stage.at, t.stage.last, Prefix);
      PlacedReads(job.plan, first, i, at, last, t.stage.at, t.stage.last, Suffix);
    }
  }

  /** A report beyond the last one is taken. */
  lemma ReportHeard(job: Job, host: Host, up: seq<Message>, range: Range, done: int)
    requires Heard(job, host, up).Ok? && Heard(job, host, up).value.MayRenew()
    requires Hashed(Heard(job, host, up).value.phase.Hashing?, range)
    requires Heard(job, host, up).value.Seen(range) < done <= job.plan.Bytes(range)
    ensures var h := Heard(job, host, up).value;
      Heard(job, host, up + [Message(job.attempt, Progress(range, done, job.plan.Bytes(range)))])
      == Ok(h.(progress := h.progress[range := done]))
  {
    HeardSnoc(job, host, up, Message(job.attempt, Progress(range, done, job.plan.Bytes(range))));
  }

  lemma ReadReads(job: Job, host: Host, live: bool, up: seq<Message>, approved: bool, worker: Stage, n: nat)
    requires worker.Reading? && worker.i < 3 && Phased(job, host, live, up, approved, worker)
    requires Hashed(worker.first, RangeAt(worker.i)) && worker.at < job.plan.Bytes(RangeAt(worker.i))
    ensures var t := ReadTurn(job, worker.first, worker.i, worker.at, worker.last, n);
      Phased(job, host, live, After(job, up, t.sent), approved, t.stage)
  {
    var t := ReadTurn(job, worker.first, worker.i, worker.at, worker.last, n);
    PositionReads(job, worker.first, worker.i, worker.at, worker.last, n);
    AfterNone(job, up);
    if t.sent != [] {
      AfterOne(job, up, t.sent[0]);
      ReportHeard(job, host, up, RangeAt(worker.i), t.stage.at);
    }
  }

  /** A turn of the reading worker leaves its position sound, and the host will take what it says. */
  lemma ReadKeeps(job: Job, host: Host, live: bool, up: seq<Message>, approved: bool, worker: Stage, n: nat)
    requires worker.Reading? && Phased(job, host, live, up, approved, worker)
    ensures var t := ReadTurn(job, worker.first, worker.i, worker.at, worker.last, n);
      Phased(job, host, live, After(job, up, t.sent), approved, t.stage)
  {
    if worker.i >= 3 {
      ReadEnds(job, host, live, up, approved, worker, n);
    } else if !Hashed(worker.first, RangeAt(worker.i)) || worker.at >= job.plan.Bytes(RangeAt(worker.i)) {
      ReadMoves(job, host, live, up, approved, worker, n);
    } else {
      ReadReads(job, host, live, up, approved, worker, n);
    }
  }

  lemma ReadPipes(job: Job, request: Bytes, approval: Option<Bytes>,
                  pending: Bytes, offset: nat, wire: Bytes, down: Bytes,
                  worker: Stage, n: nat)
    requires worker.Reading? && Piped(request, approval, pending, offset, wire, down, worker)
    ensures var t := ReadTurn(job, worker.first, worker.i, worker.at, worker.last, n);
      Piped(request, approval, pending, offset, wire, down, t.stage)
  {
  }

  // ----- Listening -----

  /** The host takes the next message of an honest worker; only the approval can go wrong. */
  lemma ListenKeeps(job: Job, side: Side, up: seq<Message>, worker: Stage, answer: Option<Bytes>)
    requires side.live && up != [] && Phased(job, side.host, true, up, side.approval.Some?, worker)
    ensures Consume(job, side.host, up[0]).Ok?
    ensures var next := Hear(job, side, up[0], answer);
      Phased(job, next.host, next.live, up[1..], next.approval.Some?, worker)
  {
    var host, m := side.host, up[0];
    HeardHead(job, host, up);
    assert forall i :: 0 <= i < |up[1..]| ==> up[1..][i] == up[i + 1];
    if m.body.Prepared? {
      PreparedAlone(job, host, up, side.approval.Some?, worker);
    }
  }

  /** The preparation is the last thing said before the approval. */
  lemma PreparedAlone(job: Job, host: Host, up: seq<Message>, approved: bool, worker: Stage)
    requires up != [] && Phased(job, host, true, up, approved, worker) && up[0].body.Prepared?
    ensures up == [up[0]] && !approved && (worker.Asking? || worker.Dead?)
    ensures worker.Dead? ==> !worker.mounted
  {
  }

  lemma ListenPipes(job: Job, request: Bytes, side: Side, up: seq<Message>, down: Bytes,
                    worker: Stage, answer: Option<Bytes>)
    requires side.live && up != [] && Phased(job, side.host, true, up, side.approval.Some?, worker)
    requires Piped(request, side.approval, side.pending, side.offset, side.wire, down, worker)
    ensures var next := Hear(job, side, up[0], answer);
      Piped(request, next.approval, next.pending, next.offset, next.wire, down, worker)
  {
    if up[0].body.Prepared? {
      PreparedAlone(job, side.host, up, side.approval.Some?, worker);
      assert side.pending[..|side.pending|] == side.pending;
    }
  }

  // ----- The pipes -----

  lemma WritePipes(request: Bytes, side: Side, down: Bytes, worker: Stage, n: nat)
    requires Piped(request, side.approval, side.pending, side.offset, side.wire, down, worker)
    ensures var next := Send(side, n);
      Piped(request, next.approval, next.pending, next.offset, next.wire, down + Sending(side, n), worker)
  {
    var sent := Sending(side, n);
    var before := side.pending[..side.offset];
    Taken(side.pending, side.offset, |sent|, sent);
    Regroup(if side.approval.Some? then request else [], before, sent);
    match worker {
      case Starting(got) => Regroup(got, down, sent);
      case Asking(got) => Regroup(got, down, sent);
      case _ =>
    }
  }

  lemma Taken(b: Bytes, at: nat, size: nat, sent: Bytes)
    requires at <= |b| && (at + size <= |b| ==> sent == b[at..at + size]) && |sent| == size && at + size <= |b|
    ensures b[..at] + sent == b[..at + size]
  {
  }

  /** Bytes already written never contain a newline before the line's end. */
  lemma LineSoFar(line: Bytes, offset: nat, got: Bytes, rest: Bytes)
    requires IsLine(line) && offset <= |line| && got + rest == line[..offset]
    ensures NEWLINE in got <==> got == line
    ensures NEWLINE in got ==> rest == [] && offset == |line|
    ensures NEWLINE !in got ==> Unbroken(got)
    ensures got != [] && got[|got| - 1] == NEWLINE <==> NEWLINE in got
  {
    assert forall j :: 0 <= j < |got| ==> got[j] == (got + rest)[j] == line[j];
    assert forall j :: 0 <= j < |line| - 1 ==> line[..|line| - 1][j] == line[j];
    if NEWLINE in got {
      var j :| 0 <= j < |got| && got[j] == NEWLINE;
      assert j == |line| - 1;
      assert |got + rest| == |got| + |rest|;
    }
  }

  lemma FetchPipes(request: Bytes, approval: Option<Bytes>, pending: Bytes,
                   offset: nat, wire: Bytes, down: Bytes, worker: Stage, size: nat)
    requires IsLine(request) && Piped(request, approval, pending, offset, wire, down, worker)
    requires (worker.Starting? || worker.Asking?) && 0 < size <= |down|
    ensures Piped(request, approval, pending, offset, wire, down[size..], FetchStage(worker, down[..size]))
    ensures FetchStage(worker, down[..size]).Dead? ==> !FetchStage(worker, down[..size]).mounted
    ensures worker.Asking? ==> approval.Some?
  {
    assert down == down[..size] + down[size..];
    Regroup(worker.got, down[..size], down[size..]);
    LineSoFar(pending, offset, worker.got + down[..size], down[size..]);
  }

  lemma FetchPhases(job: Job, host: Host, live: bool, up: seq<Message>, approved: bool, worker: Stage, got: Bytes)
    requires (worker.Starting? || worker.Asking?) && Phased(job, host, live, up, approved, worker)
    requires worker.Asking? ==> approved
    ensures Phased(job, host, live, up, approved, FetchStage(worker, got))
  {
  }

  // ----- Every step -----

  lemma TellKeeps(job: Job, request: Bytes, s: System)
    requires Inv(job, request, s) && s.worker.Dismounted?
    ensures Inv(job, request, Next(job, s, Tell))
  {
    HeardSnoc(job, s.side.host, s.up, Message(job.attempt, Unmounted(job.pin, job.plan.binding.bootId)));
    AfterOne(job, s.up, Unmounted(job.pin, job.plan.binding.bootId));
  }

  lemma ListenStep(job: Job, request: Bytes, s: System, answer: Option<Bytes>)
    requires Inv(job, request, s) && s.side.live && s.up != []
    ensures Inv(job, request, Next(job, s, Listen(answer)))
  {
    ListenKeeps(job, s.side, s.up, s.worker, answer);
    ListenPipes(job, request, s.side, s.up, s.down, s.worker, answer);
  }

  lemma FetchStep(job: Job, request: Bytes, s: System, n: nat)
    requires IsLine(request) && Inv(job, request, s)
    ensures Inv(job, request, Next(job, s, Fetch(n)))
  {
    var size := Min(if s.worker.Asking? then Min(n, 1) else n, |s.down|);
    if (s.worker.Starting? || s.worker.Asking?) && size > 0 {
      FetchPipes(request, s.side.approval, s.side.pending, s.side.offset, s.side.wire, s.down, s.worker, size);
      FetchPhases(job, s.side.host, s.side.live, s.up, s.side.approval.Some?, s.worker, s.down[..size]);
    }
  }

  lemma WriteStep(job: Job, request: Bytes, s: System, n: nat)
    requires Inv(job, request, s)
    ensures Inv(job, request, Next(job, s, Write(n)))
  {
    WritePipes(request, s.side, s.down, s.worker, n);
  }

  lemma ReadStep(job: Job, request: Bytes, s: System, n: nat)
    requires Inv(job, request, s) && s.worker.Reading?
    ensures Inv(job, request, Next(job, s, Read(n)))
  {
    SayKeeps(job, request, s, ReadTurn(job, s.worker.first, s.worker.i, s.worker.at, s.worker.last, n), n);
  }

  lemma SayKeeps(job: Job, request: Bytes, s: System, t: Turn, n: nat)
    requires Inv(job, request, s) && s.worker.Reading?
    requires t == ReadTurn(job, s.worker.first, s.worker.i, s.worker.at, s.worker.last, n)
    ensures Inv(job, request, Say(job, s, t))
  {
    ReadKeeps(job, s.side.host, s.side.live, s.up, s.side.approval.Some?, s.worker, n);
    ReadPipes(job, request, s.side.approval, s.side.pending, s.side.offset, s.side.wire, s.down, s.worker, n);
  }

  lemma PlainStep(job: Job, request: Bytes, s: System, a: Action)
    requires Inv(job, request, s) && (a.Beat? || a.Quit? || a.Mount? || a.Unmount? || a.Fail?)
    ensures Inv(job, request, Next(job, s, a))
  {
    match a
    case Beat =>
    case Quit =>
    case Mount =>
    case Unmount =>
    case Fail(_) =>
  }

  /** No step of either side, in any state they can reach, breaks the invariant. */
  lemma StepKeeps(job: Job, request: Bytes, s: System, a: Action)
    requires IsLine(request) && Inv(job, request, s)
    ensures Inv(job, request, Next(job, s, a))
  {
    match a {
      case Write(n) => WriteStep(job, request, s, n);
      case Listen(answer) =>
        if s.side.live && s.up != [] {
          ListenStep(job, request, s, answer);
        }
      case Fetch(n) => FetchStep(job, request, s, n);
      case Read(n) =>
        if s.worker.Reading? {
          ReadStep(job, request, s, n);
        }
      case Tell =>
        if s.worker.Dismounted? {
          TellKeeps(job, request, s);
        }
      case _ => PlainStep(job, request, s, a);
    }
  }

  lemma {:induction false} RunKeeps(job: Job, request: Bytes, actions: seq<Action>)
    requires IsLine(request)
    ensures Inv(job, request, Execute(job, Initial(request), actions))
    decreases |actions|
  {
    if actions != [] {
      RunKeeps(job, request, actions[..|actions| - 1]);
      StepKeeps(job, request, Execute(job, Initial(request), actions[..|actions| - 1]), actions[|actions| - 1]);
    } else {
      assert request[..0] == [];
    }
  }

  // ----- What it buys -----

  /** Whenever the worker holds boot storage, the host is between its commit and the word that it
      is unmounted, so it sends no heartbeat; and no lease was ever renewed while it was held. */
  lemma MountExclusion(job: Job, request: Bytes, actions: seq<Action>)
    requires IsLine(request)
    ensures var s := Execute(job, Initial(request), actions);
      && s.mountedRenewals == 0
      && (s.worker.HoldsBoot() ==> s.side.host.phase.Committing? && !s.side.host.MayRenew() && s.up == [])
  {
    RunKeeps(job, request, actions);
  }

  /** A byte beyond the request is on the wire only after the machine has committed, and the
      worker mounts only on exactly the line the owner's callback returned. */
  lemma ApprovalAfterCommit(job: Job, request: Bytes, actions: seq<Action>)
    requires IsLine(request)
    ensures var s := Execute(job, Initial(request), actions);
      && (|s.side.wire| > |request| ==> PastCommit(s.side.host) && s.side.approval.Some?)
      && (s.side.approval.None? ==> s.side.wire <= request)
      && (s.side.approval.Some? ==> s.side.wire <= request + s.side.approval.value)
      && (s.worker.Mounted? ==> s.side.approval == Some(s.worker.line))
  {
    RunKeeps(job, request, actions);
  }

  /** The host never refuses what the worker says: hearing the next message moves the machine,
      and ends the loop only at the approval itself. */
  lemma NeverRefused(job: Job, request: Bytes, actions: seq<Action>, answer: Option<Bytes>)
    requires IsLine(request)
    ensures var s := Execute(job, Initial(request), actions);
      s.side.live && s.up != [] ==>
        && Consume(job, s.side.host, s.up[0]).Ok?
        && (!s.up[0].body.Prepared? ==> Hear(job, s.side, s.up[0], answer).live)
        && (s.up[0].body.Prepared? && !s.worker.Dead? ==>
              s.side.offset == |s.side.pending|
              && (Hear(job, s.side, s.up[0], answer).live
                  <==> answer.Some? && IsLine(answer.value) && |answer.value| <= APPROVAL_LIMIT))
  {
    RunKeeps(job, request, actions);
    var s := Execute(job, Initial(request), actions);
    if s.side.live && s.up != [] {
      HeardHead(job, s.side.host, s.up);
      if s.up[0].body.Prepared? {
        PreparedAlone(job, s.side.host, s.up, s.side.approval.Some?, s.worker);
      }
    }
  }

  /** Once the worker has said everything and the host has heard it, the exchange is complete. */
  lemma EndsComplete(job: Job, request: Bytes, actions: seq<Action>)
    requires IsLine(request)
    ensures var s := Execute(job, Initial(request), actions);
      s.worker.Done? && s.up == [] ==>
        s.side.host.phase.Finished? && s.side.host.result == Some(ReceiptFor(job, APPLIED))
  {
    RunKeeps(job, request, actions);
  }
}
