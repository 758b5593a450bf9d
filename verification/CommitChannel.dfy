/** The host's exchange loop against the worker, over two pipes
    (tools/forge_recovery_commit_transport.py:46-97, tools/forge_recovery_commit_worker.py:62-106,
    tools/forge_recovery_bootcommit.py:207-224).

    Messages go up, bytes go down. Either side may stop at any moment, reads and writes are of
    any size, and disabled actions change nothing. That lines arrive whole is CommitFraming.
 */
module CommitChannel {
  import opened Wrappers
  import opened CommitProtocol
  import opened CommitFraming
  import opened CommitWorker

  const APPROVAL_LIMIT := 4096
  const WRITE_CHUNK := 65536

  predicate IsLine(b: Bytes) {
    b != [] && b[|b| - 1] == NEWLINE && Unbroken(b[..|b| - 1])
  }

  // ----- The host -----

  /** The variables of the loop: what is still to be written, and whether the loop still runs. */
  datatype Side = Side(host: Host, live: bool, pending: Bytes, offset: nat, wire: Bytes,
                       approval: Option<Bytes>)

  /** One complete line has been decoded to `m`; `answer` is what the approval callback returns,
      or nothing if it raises. */
  function Hear(job: Job, s: Side, m: Message, answer: Option<Bytes>): Side {
    var next := Consume(job, s.host, m);
    if next.Err? then s.(live := false)
    else if !m.body.Prepared? then s.(host := next.value)
    else if s.offset != |s.pending| || answer.None? || !IsLine(answer.value) || |answer.value| > APPROVAL_LIMIT
    then s.(host := next.value, live := false)
    else s.(host := next.value.(phase := Committing), pending := answer.value, offset := 0, approval := answer)
  }

  /** Up to `n` bytes of what is pending go down the pipe. */
  function Sending(s: Side, n: nat): Bytes {
    if !s.live || s.offset >= |s.pending| then []
    else s.pending[s.offset..s.offset + Min(Min(n, WRITE_CHUNK), |s.pending| - s.offset)]
  }

  function Send(s: Side, n: nat): Side {
    s.(offset := s.offset + |Sending(s, n)|, wire := s.wire + Sending(s, n))
  }

  /** The loop as the program runs it. */
  class Exchange {
    const job: Job
    const protocol: Protocol
    var live: bool
    var pending: Bytes
    var offset: nat
    ghost var wire: Bytes
    ghost var approval: Option<Bytes>

    ghost predicate Valid()
      reads this, protocol
    {
      protocol.job == job && offset <= |pending|
    }

    ghost function State(): Side
      reads this, protocol
    {
      Side(protocol.State(), live, pending, offset, wire, approval)
    }

    constructor (job: Job, request: Bytes)
      ensures Valid() && this.job == job && fresh(protocol)
      ensures State() == Side(FRESH, true, request, 0, [], None)
    {
      this.job := job;
      protocol := new Protocol(job);
      live, pending, offset, wire, approval := true, request, 0, [], None;
    }

    /** One line from the worker. The reply is queued only after the machine has committed. */
    method OnLine(m: Message, answer: Option<Bytes>)
      requires Valid() && live
      modifies this, protocol
      ensures Valid() && State() == Hear(job, old(State()), m, answer)
    {
      var taken := protocol.Take(m);
      if taken.Err? {
        live := false;
        return;
      }
      if taken.value.Prepared? {
        if offset != |pending| || answer.None? || !IsLine(answer.value) || |answer.value| > APPROVAL_LIMIT {
          live := false;
          return;
        }
        pending, offset := answer.value, 0;
        var committed := protocol.Commit();
        approval := answer;
      }
    }

    /** The pipe accepts up to `n` bytes. */
    method OnWritable(n: nat)
      requires Valid() && live
      modifies this
      ensures Valid() && State() == Send(old(State()), n)
      ensures pending == old(pending) && protocol.State() == old(protocol.State())
      ensures old(offset) < |pending| && n > 0 ==>
                && old(offset) < offset <= old(offset) + 65536 && offset <= old(offset) + n
                && (offset == |pending| || offset == old(offset) + 65536 || offset == old(offset) + n)
      ensures wire == old(wire) + pending[old(offset)..offset]
    {
      var size := Min(Min(n, WRITE_CHUNK), |pending| - offset);
      if size > 0 {
        wire := wire + pending[offset..offset + size];
        offset := offset + size;
      } else {
        assert wire + [] == wire;
      }
    }
  }

  // ----- The worker -----

  /** How far the worker is. A reading worker has finished the ranges before `i` and `at` bytes
      of range `i`. */
  datatype Stage = Starting(got: Bytes)
                 | Reading(first: bool, i: nat, at: nat, last: map<Range, int>)
                 | Asking(got: Bytes)
                 | Allowed(line: Bytes)
                 | Mounted(line: Bytes)
                 | Dismounted(line: Bytes)
                 | Done
                 | Dead(mounted: bool)
  {
    predicate HoldsBoot() {
      Mounted? || (Dead? && mounted)
    }
  }

  function RangeAt(i: nat): Range {
    if i == 0 then Root else if i == 1 then Prefix else Suffix
  }

  datatype Turn = Turn(stage: Stage, sent: seq<Body>)

  /** One read of the current range, or the move to the next one. */
  function ReadTurn(job: Job, first: bool, i: nat, at: nat, last: map<Range, int>, n: nat): Turn {
    var range := RangeAt(i);
    var total := job.plan.Bytes(range);
    if i >= 3 then
      if first then Turn(Asking([]), [Prepared(job.pin, job.plan.binding)])
      else Turn(Done, [Complete(ReceiptFor(job, APPLIED))])
    else if !Hashed(first, range) || at >= total then Turn(Reading(first, i + 1, 0, last), [])
    else
      var done := at + Min(Min(READ_CHUNK, total - at), n);
      if done <= at then Turn(Dead(false), [])
      else if Due(if range in last then Some(last[range]) else None, done, total)
      then Turn(Reading(first, i, done, last[range := done]), [Progress(range, done, total)])
      else Turn(Reading(first, i, done, last), [])
  }

  // ----- Both -----

  datatype System = System(side: Side, up: seq<Message>, down: Bytes, worker: Stage,
                           renewals: nat, mountedRenewals: nat)

  datatype Action = Beat | Write(n: nat) | Listen(answer: Option<Bytes>) | Quit
                  | Fetch(n: nat) | Read(n: nat) | Mount | Unmount | Tell | Fail(unmounts: bool)

  function Initial(request: Bytes): System {
    System(Side(FRESH, true, request, 0, [], None), [], [], Starting([]), 0, 0)
  }

  function Renewed(s: System): System {
    s.(renewals := s.renewals + 1, mountedRenewals := s.mountedRenewals + if s.worker.HoldsBoot() then 1 else 0)
  }

  function After(job: Job, up: seq<Message>, sent: seq<Body>): seq<Message> {
    up + seq(|sent|, i requires 0 <= i < |sent| => Message(job.attempt, sent[i]))
  }

  function Say(job: Job, s: System, t: Turn): System {
    s.(worker := t.stage, up := After(job, s.up, t.sent))
  }

  /** Bytes from the pipe: the request in reads of any size, the approval byte by byte. */
  function FetchStage(stage: Stage, got: Bytes): Stage {
    match stage
    case Starting(before) => if NEWLINE in before + got then Reading(true, 0, 0, map[]) else Starting(before + got)
    case Asking(before) =>
      var line := before + got;
      if |line| > APPROVAL_LIMIT then Dead(false)
      else if line != [] && line[|line| - 1] == NEWLINE then Allowed(line) else Asking(line)
    case _ => stage
  }

  function Next(job: Job, s: System, a: Action): System {
    match a
    case Beat => if s.side.live && s.side.host.MayRenew() then Renewed(s) else s
    case Write(n) =>
      s.(side := Send(s.side, n), down := s.down + Sending(s.side, n))
    case Listen(answer) =>
      if !s.side.live || s.up == [] then s
      else
        var m := s.up[0];
        // The approval callback renews the lease itself.
        var asked := if Consume(job, s.side.host, m).Ok? && m.body.Prepared? then Renewed(s) else s;
        asked.(side := Hear(job, s.side, m, answer), up := s.up[1..])
    case Quit => s.(side := s.side.(live := false))
    case Fetch(n) =>
      var size := Min(if s.worker.Asking? then Min(n, 1) else n, |s.down|);
      if (s.worker.Starting? || s.worker.Asking?) && size > 0
      then s.(worker := FetchStage(s.worker, s.down[..size]), down := s.down[size..])
      else s
    case Read(n) =>
      if s.worker.Reading? then Say(job, s, ReadTurn(job, s.worker.first, s.worker.i, s.worker.at, s.worker.last, n))
      else s
    case Mount => if s.worker.Allowed? then s.(worker := Mounted(s.worker.line)) else s
    case Unmount => if s.worker.Mounted? then s.(worker := Dismounted(s.worker.line)) else s
    case Tell =>
      if s.worker.Dismounted?
      then Say(job, s, Turn(Reading(false, 0, 0, map[]), [Unmounted(job.pin, job.plan.binding.bootId)])) else s
    case Fail(unmounts) => s.(worker := Dead(s.worker.HoldsBoot() && !unmounts))
  }

  function Execute(job: Job, s: System, actions: seq<Action>): System
    decreases |actions|
  {
    if actions == [] then s else Next(job, Execute(job, s, actions[..|actions| - 1]), actions[|actions| - 1])
  }
}
