/** Publishing a lease before acknowledging it, reading it independently, and asking for it:
    the endpoint, the timers and the host client (tools/forge_recovery_lease_socket.py:65-104,
    tools/forge_recovery_deadline.py:46-130, tools/forge_recovery_lease_timer.py,
    tools/forge_recovery_lease_watchdog.py:82-116, tools/forge_recovery_lease_client.py).
 */
module LeaseService {
  import opened Wrappers
  import opened LeaseCore

  // ----- The publishing endpoint -----

  /** The endpoint's lease, the publisher's last accepted lease and the file all readers see. */
  datatype Server = Server(lease: Lease, writer: Lease, file: Lease, failed: bool)

  function Opened(initial: Lease): Server {
    Server(initial, initial, initial, false)
  }

  datatype Packet = Nothing | OtherPeer | Unreadable | Packet(request: Request)

  /** How the replacement of the file ends. */
  datatype Fate = Replaced | NotReplaced | ReplacedThenRaised

  /** One poll: clock samples in the order they are taken, what arrives, how publication ends. */
  datatype Poll = Poll(first: real, packet: Packet, second: real, third: real, fate: Fate, last: real)

  function Checked(s: Server, now: real): Server {
    if Live(s.lease, now) then s else s.(failed := true)
  }

  function Publish(s: Server, candidate: Lease, p: Poll): Server {
    if !Acceptable(s.writer, candidate, p.third) || p.fate.NotReplaced? then s.(failed := true)
    else if p.fate.ReplacedThenRaised? then s.(failed := true, file := candidate)
    else if !Live(candidate, p.last) then s.(failed := true, file := candidate, writer := candidate)
    else Server(candidate, candidate, candidate, false)
  }

  function Serve(s: Server, p: Poll): Server {
    if s.failed then s
    else if !Live(s.lease, p.first) then s.(failed := true)
    else
      match p.packet
      case Nothing => Checked(s, p.second)
      case OtherPeer => s
      case Unreadable => Checked(s, p.second)
      case Packet(r) =>
        var renewed := Renew(s.lease, r, p.second);
        if renewed.Err? then Checked(s, p.third) else Publish(s, renewed.value, p)
  }

  /** A receipt is sent only for a lease that was published and is still live. */
  function Reply(s: Server, p: Poll): Option<Receipt> {
    if !s.failed && p.packet.Packet? && Live(s.lease, p.first) && Renew(s.lease, p.packet.request, p.second).Ok?
       && !Serve(s, p).failed
    then Some(ReceiptOf(Serve(s, p).lease)) else None
  }

  /** Once it has failed an endpoint does nothing. Otherwise it fails when the lease runs out at a
      sample that it takes, or when a granted renewal cannot be published in time; a renewal that can
      is adopted, published and answered; and nothing else changes the lease or the file. */
  ghost predicate PollTold(s: Server, p: Poll, after: Server, reply: Option<Receipt>) {
    if s.failed then after == s && reply.None?
    else if !Live(s.lease, p.first) then after == s.(failed := true) && reply.None?
    else if p.packet.Packet? && Renew(s.lease, p.packet.request, p.second).Ok? then
      GrantTold(s, Renew(s.lease, p.packet.request, p.second).value, p, after, reply)
    else
      && reply.None? && after == s.(failed := after.failed)
      && match p.packet
         case OtherPeer => !after.failed
         case Packet(_) => after.failed <==> !Live(s.lease, p.third)
         case _ => after.failed <==> !Live(s.lease, p.second)
  }

  ghost predicate GrantTold(s: Server, granted: Lease, p: Poll, after: Server, reply: Option<Receipt>) {
    var accepted := Acceptable(s.writer, granted, p.third);
    && (after.failed <==> !accepted || !p.fate.Replaced? || !Live(granted, p.last))
    && after.file == (if accepted && !p.fate.NotReplaced? then granted else s.file)
    && (after.lease == if after.failed then s.lease else granted)
    && (!after.failed ==> after.writer == granted
                          && reply == Some(Receipt(granted.session, granted.sequence, granted.deadline,
                                                   granted.started + 86400.0, false, false)))
    && (after.failed ==> reply.None?)
  }

  lemma PollTells(s: Server, p: Poll)
    ensures PollTold(s, p, Serve(s, p), Reply(s, p))
  {
  }

  /** The atomically replaced file; one publisher and any number of readers refer to it. */
  class DeadlineSlot {
    var content: Lease

    constructor (initial: Lease)
      ensures content == initial
    {
      content := initial;
    }
  }

  class DeadlineFile {
    const slot: DeadlineSlot
    var state: Lease

    constructor (slot: DeadlineSlot, initial: Lease)
      ensures this.slot == slot && state == initial
    {
      this.slot, state := slot, initial;
    }

    /** Accept a candidate and replace the file with it; nothing is replaced if it is refused. */
    method Publish(candidate: Lease, now: real, fate: Fate) returns (ok: bool)
      modifies this, slot
      ensures ok == (Acceptable(old(state), candidate, now) && fate.Replaced?)
      ensures slot.content == if Acceptable(old(state), candidate, now) && !fate.NotReplaced? then candidate
                              else old(slot.content)
      ensures state == if ok then candidate else old(state)
    {
      if !Acceptable(state, candidate, now) || fate.NotReplaced? {
        return false;
      }
      slot.content := candidate;
      if fate.ReplacedThenRaised? {
        return false;
      }
      state := candidate;
      return true;
    }

    /** Accept the snapshot in the file, or keep the last one. */
    method Read(now: real) returns (r: Option<Lease>)
      modifies this
      ensures r == if Acceptable(old(state), slot.content, now) then Some(slot.content) else None
      ensures state == if r.Some? then slot.content else old(state)
    {
      if !Acceptable(state, slot.content, now) {
        return None;
      }
      state := slot.content;
      return Some(state);
    }
  }

  class LeaseEndpoint {
    const writer: DeadlineFile
    var lease: Lease
    var failed: bool

    constructor (writer: DeadlineFile, initial: Lease)
      ensures this.writer == writer && lease == initial && !failed
    {
      this.writer, lease, failed := writer, initial, false;
    }

    function State(): Server
      reads this, writer, writer.slot
    {
      Server(lease, writer.state, writer.slot.content, failed)
    }

    /** Serve at most one packet. The candidate becomes the endpoint's lease, and a receipt goes
        out, only after the publisher has replaced the file with it. */
    method Poll(p: Poll) returns (reply: Option<Receipt>)
      modifies this, writer, writer.slot
      ensures State() == Serve(old(State()), p) && reply == Reply(old(State()), p)
      ensures PollTold(old(State()), p, State(), reply)
    {
      PollTells(State(), p);
      reply := None;
      if failed {
        return;
      }
      if !Live(lease, p.first) {
        failed := true;
        return;
      }
      match p.packet
      case Nothing => failed := !Live(lease, p.second);
      case OtherPeer =>
      case Unreadable => failed := !Live(lease, p.second);
      case Packet(request) =>
        var renewed := Renew(lease, request, p.second);
        if renewed.Err? {
          failed := !Live(lease, p.third);
        } else {
          var published := writer.Publish(renewed.value, p.third, p.fate);
          if !published || !Live(renewed.value, p.last) {
            failed := true;
          } else {
            lease := renewed.value;
            reply := Some(ReceiptOf(lease));
          }
        }
    }
  }

  // ----- Independent timers -----

  datatype Timer = Timer(state: Lease, previous: real, terminal: bool)

  /** Three samples of the clock around one read of the file, which may fail. */
  datatype Tick = Tick(before: real, snapshot: real, after: real, readable: bool)

  function Armed(initial: Lease): Timer {
    Timer(initial, initial.started, false)
  }

  predicate Reads(t: Timer, file: Lease, k: Tick) {
    k.before >= 0.0 && k.before >= t.previous && k.readable && k.snapshot >= k.before
    && Acceptable(t.state, file, k.snapshot)
  }

  predicate Passes(t: Timer, file: Lease, k: Tick) {
    !t.terminal && Reads(t, file, k) && k.after >= k.snapshot && Live(file, k.after)
  }

  function Advance(t: Timer, file: Lease, k: Tick): Timer {
    if t.terminal then t
    else if Passes(t, file, k) then Timer(file, k.after, false)
    else Timer(if Reads(t, file, k) then file else t.state,
               if k.before >= 0.0 && k.before >= t.previous then k.before else t.previous, true)
  }

  /** How long a passing step lets its caller sleep. */
  function Delay(file: Lease, k: Tick): real {
    Least(0.2, file.deadline - k.after)
  }

  class SoftwareTimer {
    const reader: DeadlineFile
    var previous: real
    var terminal: bool
    var expiries: nat

    constructor (slot: DeadlineSlot, initial: Lease)
      ensures reader.slot == slot && fresh(reader) && State() == Armed(initial) && expiries == 0
    {
      reader := new DeadlineFile(slot, initial);
      previous, terminal, expiries := initial.started, false, 0;
    }

    function State(): Timer
      reads this, reader
    {
      Timer(reader.state, previous, terminal)
    }

    /** A failed step runs the expiry action once and is the last. */
    method Step(k: Tick) returns (delay: Option<real>)
      modifies this, reader
      ensures State() == Advance(old(State()), reader.slot.content, k)
      ensures delay == if Passes(old(State()), reader.slot.content, k) then Some(Delay(reader.slot.content, k))
              else None
      ensures expiries == old(expiries) + if old(terminal) || delay.Some? then 0 else 1
      ensures delay.Some? ==> 0.0 < delay.value <= 0.2 && k.after + delay.value <= reader.slot.content.deadline
                              && (delay.value == 0.2 || k.after + delay.value == reader.slot.content.deadline)
    {
      if terminal {
        return None;
      }
      delay := None;
      if k.before >= 0.0 && k.before >= previous {
        previous := k.before;
        if k.readable && k.snapshot >= k.before {
          var lease := reader.Read(k.snapshot);
          if lease.Some? && k.after >= k.snapshot && Live(lease.value, k.after) {
            previous := k.after;
            delay := Some(Delay(lease.value, k));
          }
        }
      }
      if delay.None? {
        terminal := true;
        expiries := expiries + 1;
      }
    }
  }

  /** A watchdog pet, and the sample that authorised it. */
  datatype Ping = Ping(lease: Lease, sample: real)

  datatype Dog = Dog(timer: Timer, failed: bool, pings: seq<Ping>)

  function StepDog(d: Dog, file: Lease, k: Tick, petted: bool): Dog {
    if d.failed then d
    else
      var timer := Advance(d.timer, file, k);
      if Passes(d.timer, file, k) then Dog(timer, !petted, d.pings + [Ping(file, k.after)])
      else Dog(timer, true, d.pings)
  }

  class LeaseWatchdog {
    const timer: SoftwareTimer
    var failed: bool
    var pings: seq<Ping>
    var open: bool

    constructor (slot: DeadlineSlot, initial: Lease)
      ensures timer.reader.slot == slot && fresh(timer) && fresh(timer.reader)
      ensures State() == Dog(Armed(initial), false, []) && open
    {
      timer := new SoftwareTimer(slot, initial);
      failed, pings, open := false, [], true;
    }

    function State(): Dog
      reads this, timer, timer.reader
    {
      Dog(timer.State(), failed, pings)
    }

    /** Pet the device after a passing step only; anything else closes it for good. */
    method Step(k: Tick, petted: bool) returns (delay: Option<real>)
      modifies this, timer, timer.reader
      ensures State() == StepDog(old(State()), timer.reader.slot.content, k, petted)
      ensures failed ==> delay.None? && (old(failed) || !open)
      ensures !failed <==> !old(failed) && petted && Passes(old(timer.State()), timer.reader.slot.content, k)
      ensures !failed ==> delay.Some? && pings == old(pings) + [Ping(timer.reader.slot.content, k.after)]
    {
      if failed {
        return None;
      }
      ghost var before := timer.State();
      delay := timer.Step(k);
      if delay.Some? {
        pings := pings + [Ping(timer.reader.slot.content, k.after)];
      }
      if delay.None? || !petted {
        failed, open, delay := true, false, None;
      }
    }
  }

  // ----- The host client -----

  datatype Client = Client(session: Session, pending: Option<Request>, accepted: Option<Receipt>)

  function NextSequence(c: Client): int {
    if c.accepted.None? then 1 else c.accepted.value.sequence + 1
  }

  /** Ask for a renewal: the pending request is repeated exactly, never replaced. */
  function Ask(c: Client, seconds: int): Client {
    if !(1 <= seconds <= 300) || c.pending.Some? then c
    else c.(pending := Some(Request(1, "offline-backup", c.session, NextSequence(c), seconds)))
  }

  predicate MaySend(c: Client, seconds: int) {
    1 <= seconds <= 300 && (c.pending.Some? ==> c.pending.value.seconds == seconds)
  }

  /** The host's check of a receipt against its request and the last accepted one. */
  predicate ReceiptOk(r: Receipt, now: real, request: Request, previous: Option<Receipt>) {
    && r.session == request.session && r.sequence == request.sequence && !r.rootWrite && !r.bootRelease
    && now >= 0.0 && r.deadline >= 0.0 && r.hard >= 0.0
    && now < r.deadline <= Least(now + LONGEST, r.hard) && r.hard <= now + HARD_LIFE
    && (previous.Some? ==> r.hard == previous.value.hard && previous.value.deadline <= r.deadline)
  }

  function Hear(c: Client, r: Receipt, now: real, inspected: bool): Client {
    if c.pending.None? || !ReceiptOk(r, now, c.pending.value, c.accepted) || !inspected then c
    else c.(accepted := Some(r), pending := None)
  }

  class BackupLeaseClient {
    const session: Session
    var pending: Option<Request>
    var accepted: Option<Receipt>

    constructor (session: Session)
      ensures State() == Client(session, None, None)
    {
      this.session, pending, accepted := session, None, None;
    }

    function State(): Client
      reads this
    {
      Client(session, pending, accepted)
    }

    /** What one call sends, before any reply. */
    method Prepare(seconds: int) returns (sent: Option<Request>)
      modifies this
      ensures State() == Ask(old(State()), seconds)
      ensures sent == if MaySend(old(State()), seconds) then pending else None
    {
      if !(1 <= seconds <= 300) || (pending.Some? && pending.value.seconds != seconds) {
        return None;
      }
      if pending.None? {
        var sequence := if accepted.None? then 1 else accepted.value.sequence + 1;
        pending := Some(Request(1, "offline-backup", session, sequence, seconds));
      }
      return pending;
    }

    /** What it does with a reply; a lost or refused one leaves the request pending. */
    method Accept(receipt: Receipt, now: real, inspected: bool) returns (ok: bool)
      modifies this
      ensures State() == Hear(old(State()), receipt, now, inspected)
      ensures ok == (old(pending).Some? && ReceiptOk(receipt, now, old(pending).value, old(accepted)) && inspected)
    {
      ok := pending.Some? && ReceiptOk(receipt, now, pending.value, accepted) && inspected;
      if ok {
        accepted, pending := Some(receipt), None;
      }
    }
  }

  datatype Pulse = Pulse(previous: real, due: real)

  /** What one beat asks of its client, and whether it passes. */
  datatype Beaten = Beaten(pulse: Pulse, asked: bool, ok: bool)

  /** The clock sample of one beat, and whether a renewal, if one is due, comes back without an
      error. */
  datatype Sample = Sample(at: real, answered: bool)

  function Beating(p: Pulse, s: Sample): Beaten {
    if s.at < 0.0 || s.at < p.previous then Beaten(p, false, false)
    else if s.at < p.due then Beaten(p.(previous := s.at), false, true)
    else if s.answered then Beaten(Pulse(s.at, s.at + 60.0), true, true)
    else Beaten(p.(previous := s.at), true, false)
  }

  /** The pulse after the first `n` beats. */
  function PulseAt(now: real, samples: seq<Sample>, n: nat): Pulse
    requires n <= |samples|
  {
    if n == 0 then Pulse(now, now) else Beating(PulseAt(now, samples, n - 1), samples[n - 1]).pulse
  }

  predicate Asks(now: real, samples: seq<Sample>, i: nat)
    requires i < |samples|
  {
    Beating(PulseAt(now, samples, i), samples[i]).asked
  }

  /** After a renewal that was answered, none is due for a minute from its dispatch. */
  lemma {:induction false} DueAfter(now: real, samples: seq<Sample>, i: nat, n: nat)
    requires i < n <= |samples| && Asks(now, samples, i) && samples[i].answered
    ensures PulseAt(now, samples, n).due >= samples[i].at + 60.0
    ensures PulseAt(now, samples, n).previous >= samples[i].at
    decreases n
  {
    if i + 1 < n {
      DueAfter(now, samples, i, n - 1);
    }
  }

  /** Over any beats, a renewal is dispatched at least a minute after every earlier one that was
      answered, whatever the replies took. */
  lemma RenewalsApart(now: real, samples: seq<Sample>, i: nat, j: nat)
    requires i < j < |samples| && Asks(now, samples, i) && samples[i].answered && Asks(now, samples, j)
    ensures samples[j].at >= samples[i].at + 60.0
  {
    DueAfter(now, samples, i, j);
  }

  /** And a renewal that was not answered is due at once, as is the first; no beat at or after the
      minute goes by without one. */
  lemma RenewalsKeepUp(now: real, samples: seq<Sample>, j: nat)
    requires j < |samples| && 0.0 <= samples[j].at && samples[j].at >= PulseAt(now, samples, j).previous
             && samples[j].at >= now
    requires forall i :: 0 <= i < j && Asks(now, samples, i) && samples[i].answered ==>
             samples[j].at >= samples[i].at + 60.0
    ensures Asks(now, samples, j)
  {
    DueFrom(now, samples, j);
  }

  /** The next renewal is due from the start, or a minute after some answered one. */
  lemma {:induction false} DueFrom(now: real, samples: seq<Sample>, n: nat)
    requires n <= |samples|
    ensures PulseAt(now, samples, n).due == now
         || exists i :: 0 <= i < n && Asks(now, samples, i) && samples[i].answered
                        && PulseAt(now, samples, n).due == samples[i].at + 60.0
    decreases n
  {
    if n > 0 {
      DueFrom(now, samples, n - 1);
    }
  }

  /** The host's pulse: at most one renewal a minute, counted from dispatch. */
  class LeasePulse {
    var previous: real
    var due: real

    constructor (now: real)
      ensures previous == now && due == now
    {
      previous, due := now, now;
    }

    function Value(): Pulse
      reads this
    {
      Pulse(previous, due)
    }

    /** `answered` says whether the renewal, if one is due, came back without an error; one that
        did not leaves the next renewal due at once. */
    method Beat(sampled: real, answered: bool) returns (asked: bool, ok: bool)
      modifies this
      ensures Beaten(Value(), asked, ok) == Beating(old(Value()), Sample(sampled, answered))
    {
      asked, ok := false, false;
      if sampled < 0.0 || sampled < previous {
        return;
      }
      previous := sampled;
      asked := sampled >= due;
      ok := !asked || answered;
      if asked && answered {
        due := sampled + 60.0;
      }
    }
  }
}
