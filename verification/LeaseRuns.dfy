/** The lease in every run: a publishing server, an independent timer and watchdog, and a host
    client over a channel that loses, repeats and delays. Clock samples are adversarial.
 */
module LeaseRuns {
  import opened Wrappers
  import opened LeaseCore
  import opened LeaseService

  /** `published` is everything the deadline file ever held; `requests` and `receipts` are
      everything ever sent, any of which may still arrive, any number of times. */
  datatype System = System(server: Server, published: seq<Lease>, dog: Dog, timer: Timer, client: Client,
                           requests: set<Request>, receipts: set<Receipt>)

  datatype Action = ServerPolls(p: Poll) | DogSteps(k: Tick, petted: bool) | TimerSteps(k: Tick)
                  | ClientAsks(seconds: int) | ClientHears(receipt: Receipt, now: real, inspected: bool)

  function Begin(session: Session, now: real): System
    requires now >= 0.0
  {
    var l := Start(session, now);
    System(Opened(l), [l], Dog(Armed(l), false, []), Armed(l), Client(session, None, None), {}, {})
  }

  /** A packet is one the client sent, or is not bound to the session. */
  predicate Arrives(s: System, packet: Packet) {
    packet.Packet? ==> packet.request in s.requests || packet.request.session != s.client.session
  }

  function Next(s: System, a: Action): System {
    match a
    case ServerPolls(p) =>
      if !Arrives(s, p.packet) then s
      else
        var server := Serve(s.server, p);
        s.(server := server,
           published := if server.file == s.server.file then s.published else s.published + [server.file],
           receipts := if Reply(s.server, p).None? then s.receipts else s.receipts + {Reply(s.server, p).value})
    case DogSteps(k, petted) => s.(dog := StepDog(s.dog, s.server.file, k, petted))
    case TimerSteps(k) => s.(timer := Advance(s.timer, s.server.file, k))
    case ClientAsks(seconds) =>
      var client := Ask(s.client, seconds);
      if MaySend(s.client, seconds) then s.(client := client, requests := s.requests + {client.pending.value})
      else s.(client := client)
    case ClientHears(receipt, now, inspected) =>
      if receipt in s.receipts then s.(client := Hear(s.client, receipt, now, inspected)) else s
  }

  function Execute(s: System, actions: seq<Action>): System
    decreases |actions|
  {
    if actions == [] then s else Next(Execute(s, actions[..|actions| - 1]), actions[|actions| - 1])
  }

  // ----- The invariant -----

  predicate ServerInv(server: Server, published: seq<Lease>) {
    && IsChain(published) && server.file == published[|published| - 1]
    && (!server.failed ==> server.lease == server.file && server.writer == server.file)
  }

  function AcceptedSequence(c: Client): int {
    NextSequence(c) - 1
  }

  /** Every request in flight is old, except that the pending one may be among them. */
  predicate RequestInv(client: Client, requests: set<Request>) {
    && (client.pending.Some? ==>
          client.pending.value
             == Request(1, "offline-backup", client.session, NextSequence(client), client.pending.value.seconds)
          && 1 <= client.pending.value.seconds <= 300)
    && forall r :: r in requests ==>
         && r.session == client.session && 1 <= r.sequence <= NextSequence(client)
         && (r.sequence == NextSequence(client) ==> client.pending == Some(r))
  }

  /** The server has granted what the client accepted, and at most the pending request beyond it. */
  predicate InStep(client: Client, newest: Lease) {
    && newest.session == client.session
    && (|| newest.sequence == AcceptedSequence(client)
        || (&& newest.sequence == NextSequence(client)
            && client.pending.Some? && client.pending.value.seconds == newest.lastSeconds))
  }

  ghost predicate ReceiptInv(published: seq<Lease>, receipts: set<Receipt>, accepted: Option<Receipt>) {
    && (forall r :: r in receipts ==> Named(published, r))
    && (accepted.Some? ==> Named(published, accepted.value) && accepted.value.sequence >= 1)
  }

  /** The receipt of a lease that was published. */
  predicate Named(published: seq<Lease>, r: Receipt) {
    exists k :: 0 <= k < |published| && ReceiptOf(published[k]) == r
  }

  predicate Member(published: seq<Lease>, l: Lease) {
    exists k :: 0 <= k < |published| && published[k] == l
  }

  predicate PingInv(published: seq<Lease>, pings: seq<Ping>) {
    forall i :: 0 <= i < |pings| ==> Member(published, pings[i].lease) && Live(pings[i].lease, pings[i].sample)
  }

  ghost predicate Inv(s: System) {
    && ServerInv(s.server, s.published)
    && RequestInv(s.client, s.requests) && InStep(s.client, s.server.file)
    && ReceiptInv(s.published, s.receipts, s.client.accepted)
    && Member(s.published, s.dog.timer.state) && Member(s.published, s.timer.state)
    && PingInv(s.published, s.dog.pings)
  }

  // ----- Steps -----

  lemma NamedGrows(published: seq<Lease>, l: Lease, r: Receipt)
    requires Named(published, r)
    ensures Named(published + [l], r)
  {
    var k :| 0 <= k < |published| && ReceiptOf(published[k]) == r;
    assert (published + [l])[k] == published[k];
  }

  lemma MemberGrows(published: seq<Lease>, l: Lease, m: Lease)
    requires Member(published, m)
    ensures Member(published + [l], m)
  {
    var k :| 0 <= k < |published| && published[k] == m;
    assert (published + [l])[k] == m;
  }

  lemma ChainGrows(c: seq<Lease>, next: Lease)
    requires IsChain(c) && Follows(c[|c| - 1], next)
    ensures IsChain(c + [next])
  {
    var d := c + [next];
    forall k | 0 < k < |d| ensures Follows(d[k - 1], d[k]) {
      assert k < |c| ==> d[k] == c[k] && d[k - 1] == c[k - 1];
    }
  }

  /** The file changes only to a renewal of what it held. */
  lemma ServeFollows(server: Server, published: seq<Lease>, p: Poll)
    requires ServerInv(server, published)
    ensures var next := Serve(server, p);
      && (next.file == server.file || (!server.failed && p.packet.Packet? && Follows(server.file, next.file)
                                       && Renew(server.lease, p.packet.request, p.second) == Ok(next.file)))
      && ServerInv(next, if next.file == server.file then published else published + [next.file])
      && (Reply(server, p).Some? ==> !next.failed && Reply(server, p).value == ReceiptOf(next.file))
  {
    var next := Serve(server, p);
    if next.file != server.file {
      RenewFollows(server.lease, p.packet.request, p.second);
      ChainGrows(published, next.file);
    }
  }

  /** A request that moves the sequence is the pending one. */
  lemma GrantKeepsStep(s: System, p: Poll)
    requires Inv(s) && Arrives(s, p.packet)
    ensures InStep(s.client, Serve(s.server, p).file)
  {
    ServeFollows(s.server, s.published, p);
  }

  lemma PollKeeps(s: System, p: Poll)
    requires Inv(s) && Arrives(s, p.packet)
    ensures Inv(Next(s, ServerPolls(p)))
  {
    ServeFollows(s.server, s.published, p);
    GrantKeepsStep(s, p);
    var server := Serve(s.server, p);
    var published := Next(s, ServerPolls(p)).published;
    if server.file != s.server.file {
      PublishedGrows(s, server.file);
    }
    if Reply(s.server, p).Some? {
      assert published[|published| - 1] == server.file;
      assert Named(published, ReceiptOf(server.file));
    }
  }

  lemma PublishedGrows(s: System, l: Lease)
    requires Inv(s)
    ensures ReceiptInv(s.published + [l], s.receipts, s.client.accepted)
    ensures Member(s.published + [l], s.dog.timer.state) && Member(s.published + [l], s.timer.state)
    ensures PingInv(s.published + [l], s.dog.pings)
  {
    forall r | r in s.receipts ensures Named(s.published + [l], r) {
      NamedGrows(s.published, l, r);
    }
    if s.client.accepted.Some? {
      NamedGrows(s.published, l, s.client.accepted.value);
    }
    MemberGrows(s.published, l, s.dog.timer.state);
    MemberGrows(s.published, l, s.timer.state);
    forall i | 0 <= i < |s.dog.pings| ensures Member(s.published + [l], s.dog.pings[i].lease) {
      MemberGrows(s.published, l, s.dog.pings[i].lease);
    }
  }

  lemma FileIsMember(s: System)
    requires ServerInv(s.server, s.published)
    ensures Member(s.published, s.server.file)
  {
    assert s.published[|s.published| - 1] == s.server.file;
  }

  lemma AskKeeps(s: System, seconds: int)
    requires Inv(s)
    ensures Inv(Next(s, ClientAsks(seconds)))
  {
  }

  lemma HearKeeps(s: System, receipt: Receipt, now: real, inspected: bool)
    requires Inv(s) && receipt in s.receipts
    ensures Inv(Next(s, ClientHears(receipt, now, inspected)))
  {
    var k :| 0 <= k < |s.published| && ReceiptOf(s.published[k]) == receipt;
    ChainDescends(s.published, k, |s.published| - 1);
  }

  lemma StepKeeps(s: System, a: Action)
    requires Inv(s)
    ensures Inv(Next(s, a))
  {
    FileIsMember(s);
    match a {
      case ServerPolls(p) =>
        if Arrives(s, p.packet) {
          PollKeeps(s, p);
        }
      case ClientAsks(seconds) => AskKeeps(s, seconds);
      case ClientHears(receipt, now, inspected) =>
        if receipt in s.receipts {
          HearKeeps(s, receipt, now, inspected);
        }
      case _ =>
    }
  }

  lemma {:induction false} RunKeeps(session: Session, now: real, actions: seq<Action>)
    requires now >= 0.0
    ensures Inv(Execute(Begin(session, now), actions))
    decreases |actions|
  {
    if actions == [] {
      assert Begin(session, now).published[0] == Start(session, now);
    } else {
      RunKeeps(session, now, actions[..|actions| - 1]);
      StepKeeps(Execute(Begin(session, now), actions[..|actions| - 1]), actions[|actions| - 1]);
    }
  }

  // ----- What it buys -----

  /** At every reachable state the newest published sequence is the one the client accepted or
      one more, and then it answers exactly the pending request. */
  lemma AheadByAtMostOne(session: Session, now: real, actions: seq<Action>)
    requires now >= 0.0
    ensures var s := Execute(Begin(session, now), actions);
      && InStep(s.client, s.server.file)
      && (!s.server.failed ==> s.server.lease == s.server.file)
  {
    RunKeeps(session, now, actions);
  }

  /** Repeating the pending request is granted, or acknowledged again, for as long as the lease
      lives and sequence numbers last. */
  lemma RetryGranted(session: Session, now: real, actions: seq<Action>, later: real)
    requires now >= 0.0
    ensures var s := Execute(Begin(session, now), actions);
      !s.server.failed && s.client.pending.Some? && Live(s.server.lease, later) ==>
        (Renew(s.server.lease, s.client.pending.value, later).Ok? <==> s.client.pending.value.sequence <= MAX_SEQUENCE)
  {
    RunKeeps(session, now, actions);
  }

  /** Over a whole run each sequence sets one deadline: any two published leases with the same
      sequence have the same one, and it lies within 300 seconds of the grant. */
  lemma OneDeadlineEach(session: Session, now: real, actions: seq<Action>, i: nat, j: nat)
    requires now >= 0.0
    ensures var c := Execute(Begin(session, now), actions).published;
      i <= j < |c| ==>
        && Descends(c[i], c[j]) && (c[i].sequence == c[j].sequence ==> c[i].deadline == c[j].deadline)
        && c[j].deadline <= Least(GrantedAt(c, j) + LONGEST, c[0].started + HARD_LIFE)
  {
    RunKeeps(session, now, actions);
    var c := Execute(Begin(session, now), actions).published;
    if i <= j < |c| {
      ChainDescends(c, i, j);
      DeadlineFromGrant(c, j);
    }
  }

  /** Every receipt ever sent names a lease that had been published; and for a receipt answering
      the pending request, read at any time after its lease was sampled, the client's check
      passes exactly when the lease has not expired. */
  lemma HonestReceipts(session: Session, start: real, actions: seq<Action>, receipt: Receipt, now: real)
    returns (k: nat)
    requires start >= 0.0
    requires receipt in Execute(Begin(session, start), actions).receipts
    ensures var s := Execute(Begin(session, start), actions);
      && k < |s.published| && ReceiptOf(s.published[k]) == receipt
      && (s.client.pending.Some? && receipt.sequence == s.client.pending.value.sequence
          && now >= s.published[k].sampled ==>
            (ReceiptOk(receipt, now, s.client.pending.value, s.client.accepted) <==> now < receipt.deadline))
  {
    RunKeeps(session, start, actions);
    var s := Execute(Begin(session, start), actions);
    assert Named(s.published, receipt);
    k :| 0 <= k < |s.published| && ReceiptOf(s.published[k]) == receipt;
    ChainSound(s.published, k);
    ChainDescends(s.published, k, |s.published| - 1);
    if s.client.accepted.Some? {
      var j :| 0 <= j < |s.published| && ReceiptOf(s.published[j]) == s.client.accepted.value;
      SessionOrder(s.published, j, k);
    }
  }

  /** The later of two sequences has the later deadline. */
  lemma SessionOrder(c: seq<Lease>, j: nat, k: nat)
    requires IsChain(c) && j < |c| && k < |c|
    ensures c[j].started == c[k].started && (c[j].sequence < c[k].sequence ==> c[j].deadline <= c[k].deadline)
  {
    if j <= k {
      ChainDescends(c, j, k);
    } else {
      ChainDescends(c, k, j);
    }
  }

  /** Every pet of the watchdog, in any run, was authorised by a sample below the deadline of a
      published lease: less than 300 seconds after that lease's sequence was granted, and less
      than a day after the start. */
  lemma BoundedLife(session: Session, now: real, actions: seq<Action>, i: nat) returns (k: nat)
    requires now >= 0.0 && i < |Execute(Begin(session, now), actions).dog.pings|
    ensures var s := Execute(Begin(session, now), actions);
      && k < |s.published| && s.published[k] == s.dog.pings[i].lease
      && s.dog.pings[i].sample < Least(GrantedAt(s.published, k) + LONGEST, s.published[0].started + HARD_LIFE)
  {
    RunKeeps(session, now, actions);
    var s := Execute(Begin(session, now), actions);
    assert Member(s.published, s.dog.pings[i].lease);
    k :| 0 <= k < |s.published| && s.published[k] == s.dog.pings[i].lease;
    DeadlineFromGrant(s.published, k);
    ChainDescends(s.published, 0, k);
  }

  /** A reader is turned away only for a reason: its clock ran backwards, the file could not be
      read, the lease has expired, or it was renewed after the reader's own lease had run out. */
  lemma NoFalseExpiry(session: Session, now: real, actions: seq<Action>, k: Tick)
    requires now >= 0.0
    ensures var s := Execute(Begin(session, now), actions);
      var t, file := s.timer, s.server.file;
      Passes(t, file, k)
      <==> && !t.terminal && k.readable && 0.0 <= k.before && t.previous <= k.before <= k.snapshot <= k.after
           && Live(file, k.snapshot) && Live(file, k.after)
           && (file.sequence == t.state.sequence || file.sampled < t.state.deadline)
  {
    RunKeeps(session, now, actions);
    var s := Execute(Begin(session, now), actions);
    var c := s.published;
    var i :| 0 <= i < |c| && c[i] == s.timer.state;
    SkippedPublications(c, i, |c| - 1, k.snapshot);
  }

  lemma {:induction false} FailedStays(s: System, actions: seq<Action>)
    requires s.dog.failed
    ensures Execute(s, actions).dog == s.dog
    decreases |actions|
  {
    if actions != [] {
      FailedStays(s, actions[..|actions| - 1]);
    }
  }

  /** A step that fails, on its clock, its reading or its lease, feeds nothing, and neither does
      anything after it; a step whose feeding fails is the last to try. */
  lemma FailureIsFinal(s: System, k: Tick, petted: bool, actions: seq<Action>)
    requires s.dog.failed || !(Passes(s.dog.timer, s.server.file, k) && petted)
    ensures var after := Next(s, DogSteps(k, petted));
      && after.dog.failed && Execute(after, actions).dog == after.dog
      && after.dog.pings
         == s.dog.pings + if !s.dog.failed && Passes(s.dog.timer, s.server.file, k) then [Ping(s.server.file, k.after)]
           else []
  {
    FailedStays(Next(s, DogSteps(k, petted)), actions);
    assert s.dog.pings + [] == s.dog.pings;
  }

  // ----- The software expiry action -----

  /** The timer after the first `n` ticks, each against what the file then held. */
  function TimerAfter(t: Timer, files: seq<Lease>, ticks: seq<Tick>, n: nat): Timer
    requires n <= |ticks| == |files|
  {
    if n == 0 then t else Advance(TimerAfter(t, files, ticks, n - 1), files[n - 1], ticks[n - 1])
  }

  /** Each wake-up is at most `e` later than the step before it asked for. */
  predicate WakesInTime(files: seq<Lease>, ticks: seq<Tick>, e: real)
    requires |ticks| == |files|
  {
    forall n :: 0 < n < |ticks| ==> ticks[n].before <= ticks[n - 1].after + Delay(files[n - 1], ticks[n - 1]) + e
  }

  lemma {:induction false} TerminalStays(t: Timer, files: seq<Lease>, ticks: seq<Tick>, m: nat, n: nat)
    requires m <= n <= |ticks| == |files| && TimerAfter(t, files, ticks, m).terminal
    ensures TimerAfter(t, files, ticks, n) == TimerAfter(t, files, ticks, m)
    decreases n
  {
    if m < n {
      TerminalStays(t, files, ticks, m, n - 1);
    }
  }

  /** The step at which the expiry action runs: the first that fails. */
  lemma {:induction false} FirstFailure(t: Timer, files: seq<Lease>, ticks: seq<Tick>, n: nat) returns (m: nat)
    requires n <= |ticks| == |files| && !t.terminal && TimerAfter(t, files, ticks, n).terminal
    ensures m < n && !TimerAfter(t, files, ticks, m).terminal && TimerAfter(t, files, ticks, m + 1).terminal
    decreases n
  {
    if TimerAfter(t, files, ticks, n - 1).terminal {
      m := FirstFailure(t, files, ticks, n - 1);
    } else {
      m := n - 1;
    }
  }

  /** If the timer wakes within `e` of its schedule and ever wakes past the last deadline, its
      expiry action runs, at a step that began no later than that deadline plus `e`, and only then. */
  lemma ExpiryFires(t: Timer, files: seq<Lease>, ticks: seq<Tick>, last: real, e: real) returns (m: nat)
    requires |ticks| == |files| > 0 && !t.terminal && e >= 0.0 && WakesInTime(files, ticks, e)
    requires forall n :: 0 <= n < |files| ==> files[n].deadline <= last
    requires ticks[0].before <= last + e && ticks[|ticks| - 1].before >= last
    ensures m < |ticks| && ticks[m].before <= last + e
    ensures !TimerAfter(t, files, ticks, m).terminal && TimerAfter(t, files, ticks, m + 1).terminal
    ensures forall k :: m < k <= |ticks| ==> TimerAfter(t, files, ticks, k) == TimerAfter(t, files, ticks, m + 1)
  {
    var n := |ticks| - 1;
    assert TimerAfter(t, files, ticks, n + 1).terminal;
    m := FirstFailure(t, files, ticks, n + 1);
    if m > 0 {
      assert ticks[m].before <= ticks[m - 1].after + Delay(files[m - 1], ticks[m - 1]) + e;
      assert files[m - 1].deadline <= last;
    }
    forall k | m < k <= |ticks| ensures TimerAfter(t, files, ticks, k) == TimerAfter(t, files, ticks, m + 1) {
      TerminalStays(t, files, ticks, m + 1, k);
    }
  }

  // ----- What is asked for is granted -----

  /** The pending request has been sent. */
  lemma {:induction false} PendingSent(session: Session, now: real, actions: seq<Action>)
    requires now >= 0.0
    ensures var s := Execute(Begin(session, now), actions);
      s.client.session == session && (s.client.pending.Some? ==> s.client.pending.value in s.requests)
    decreases |actions|
  {
    if actions != [] {
      PendingSent(session, now, actions[..|actions| - 1]);
    }
  }

  /** Clock samples in order, all within the lease. */
  predicate InTime(l: Lease, p: Poll) {
    Live(l, p.first) && p.first <= p.second <= p.third <= p.last && Live(l, p.last)
  }

  /** The next lease is what the request asks for. */
  ghost predicate Grants(l: Lease, r: Request, now: real, next: Lease) {
    && next.session == l.session && next.started == l.started && next.sampled == now
    && next.sequence == r.sequence && next.lastSeconds == r.seconds
    && if r.sequence == l.sequence then next.deadline == l.deadline
       else Extended(l, now + r.seconds as real, next.deadline)
  }

  /** In every reachable state that has not failed, polling the pending request in time publishes the
      lease it asks for, adopts it and answers it. */
  lemma PendingIsServed(session: Session, now: real, actions: seq<Action>, p: Poll)
    requires now >= 0.0
    ensures var s := Execute(Begin(session, now), actions);
      !s.server.failed && s.client.pending.Some? && s.client.pending.value.sequence <= MAX_SEQUENCE
      && InTime(s.server.lease, p) && p.packet == Packet(s.client.pending.value) && p.fate.Replaced? ==>
        var after := Next(s, ServerPolls(p));
        && !after.server.failed && after.server.lease == after.server.file
        && Grants(s.server.lease, s.client.pending.value, p.second, after.server.file)
        && Reply(s.server, p) == Some(ReceiptOf(after.server.file)) && ReceiptOf(after.server.file) in after.receipts
        && Member(after.published, after.server.file)
  {
    var s := Execute(Begin(session, now), actions);
    RunKeeps(session, now, actions);
    PendingSent(session, now, actions);
    if !s.server.failed && s.client.pending.Some? && s.client.pending.value.sequence <= MAX_SEQUENCE
       && InTime(s.server.lease, p) && p.packet == Packet(s.client.pending.value) && p.fate.Replaced? {
      ServedInTime(s, p);
    }
  }

  lemma ServedInTime(s: System, p: Poll)
    requires Inv(s) && !s.server.failed && s.client.pending.Some? && s.client.pending.value in s.requests
    requires s.client.pending.value.sequence <= MAX_SEQUENCE && InTime(s.server.lease, p)
    requires p.packet == Packet(s.client.pending.value) && p.fate.Replaced?
    ensures var after := Next(s, ServerPolls(p));
      && !after.server.failed && after.server.lease == after.server.file
      && Grants(s.server.lease, s.client.pending.value, p.second, after.server.file)
      && Reply(s.server, p) == Some(ReceiptOf(after.server.file)) && ReceiptOf(after.server.file) in after.receipts
      && Member(after.published, after.server.file)
  {
    var l, r := s.server.lease, s.client.pending.value;
    ChainSound(s.published, |s.published| - 1);
    GrantedIff(l, r, p.second);
    var next := Renew(l, r, p.second).value;
    PublisherAccepts(s.published, r, p.second, p.third);
    assert Live(next, p.third) && Live(next, p.last);
    StepKeeps(s, ServerPolls(p));
    FileIsMember(Next(s, ServerPolls(p)));
  }

  /** And so a renewal completes: asked for, polled and heard in time, it leaves nothing pending and
      its sequence accepted, with the deadline it asked for. */
  lemma RenewalCompletes(session: Session, now: real, actions: seq<Action>, seconds: int, p: Poll, heard: real)
    requires now >= 0.0
    ensures var s := Execute(Begin(session, now), actions);
      var asked := Next(s, ClientAsks(seconds));
      && (!s.server.failed && MaySend(s.client, seconds) && NextSequence(s.client) <= MAX_SEQUENCE
          && InTime(s.server.lease, p) && p.packet.Packet? && Some(p.packet.request) == asked.client.pending
          && p.fate.Replaced? && p.last <= heard && Live(s.server.lease, heard) ==>
            var served := Next(asked, ServerPolls(p));
            var done := Next(served, ClientHears(ReceiptOf(served.server.file), heard, true));
            && done.client.pending.None? && done.client.accepted == Some(ReceiptOf(served.server.file))
            && done.client.accepted.value.sequence == NextSequence(s.client)
            && Grants(s.server.lease, p.packet.request, p.second, served.server.file)
            && p.packet.request.seconds == seconds)
  {
    var s := Execute(Begin(session, now), actions);
    var asked := Next(s, ClientAsks(seconds));
    if !s.server.failed && MaySend(s.client, seconds) && NextSequence(s.client) <= MAX_SEQUENCE
       && InTime(s.server.lease, p) && p.packet.Packet? && Some(p.packet.request) == asked.client.pending
       && p.fate.Replaced? && p.last <= heard && Live(s.server.lease, heard) {
      RunKeeps(session, now, actions);
      PendingSent(session, now, actions);
      StepKeeps(s, ClientAsks(seconds));
      ServedInTime(asked, p);
      var served := Next(asked, ServerPolls(p));
      StepKeeps(asked, ServerPolls(p));
      HeardInTime(served, heard);
    }
  }

  /** The receipt of the newest lease, if it answers the pending request and is read in time. */
  lemma HeardInTime(s: System, heard: real)
    requires Inv(s) && s.client.pending.Some? && s.server.file.sequence == s.client.pending.value.sequence
    requires ReceiptOf(s.server.file) in s.receipts && s.server.file.sampled <= heard < s.server.file.deadline
    ensures var done := Next(s, ClientHears(ReceiptOf(s.server.file), heard, true));
      done.client.pending.None? && done.client.accepted == Some(ReceiptOf(s.server.file))
  {
    var c, n := s.published, |s.published| - 1;
    ChainSound(c, n);
    if s.client.accepted.Some? {
      var j :| 0 <= j < |c| && ReceiptOf(c[j]) == s.client.accepted.value;
      ChainDescends(c, j, n);
    }
  }
}
