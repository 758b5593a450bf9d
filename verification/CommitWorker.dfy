/** The worker's side of a boot-file commit: hashing with throttled reports, and the order of
    its effects (tools/forge_recovery_commit_worker.py:62-87,
    tools/forge_recovery_bootcommit.py:192-228, tools/forge_recovery_claim.py:30-86).
 */
module CommitWorker {
  import opened Wrappers
  import opened CommitProtocol

  type Digest = string

  const REPORT_STEP := 64 * 1024 * 1024
  const READ_CHUNK := 1024 * 1024

  datatype Extent = Extent(offset: nat, length: nat, disk: nat) {
    predicate Fits(card: seq<Byte>) {
      offset + length <= disk == |card|
    }

    function Low(range: Range): nat {
      match range
      case Root => offset
      case Prefix => 0
      case Suffix => offset + length
    }

    function High(range: Range): nat {
      match range
      case Root => offset + length
      case Prefix => offset
      case Suffix => if disk < offset + length then offset + length else disk
    }
  }

  function RangeBytes(card: seq<Byte>, extent: Extent, range: Range): seq<Byte>
    requires extent.Fits(card)
  {
    card[extent.Low(range)..extent.High(range)]
  }

  // ----- Throttling -----

  /** A position is reported when it is the first, far enough from the last report, or final. */
  predicate Due(last: Option<int>, done: int, total: int) {
    last.None? || done - last.value >= REPORT_STEP || done == total
  }

  function LastOf(last: Option<int>, reported: seq<int>): Option<int> {
    if reported == [] then last else Some(reported[|reported| - 1])
  }

  /** The reported ones among the positions of a read loop. */
  function Reported(last: Option<int>, positions: seq<int>, total: int): seq<int>
    decreases |positions|
  {
    if positions == [] then []
    else
      var before := Reported(last, positions[..|positions| - 1], total);
      var done := positions[|positions| - 1];
      before + if Due(LastOf(last, before), done, total) then [done] else []
  }

  lemma ReportedSnoc(last: Option<int>, positions: seq<int>, done: int, total: int)
    ensures var before := Reported(last, positions, total);
      Reported(last, positions + [done], total)
      == before + if Due(LastOf(last, before), done, total) then [done] else []
  {
    assert (positions + [done])[..|positions|] == positions;
  }

  /** The last report lies at or before the last position, and at the end if that is the end. */
  ghost predicate Ends(reported: seq<int>, positions: seq<int>, total: nat) {
    positions != [] ==>
      && reported != [] && reported[|reported| - 1] <= positions[|positions| - 1]
      && (positions[|positions| - 1] == total ==> reported[|reported| - 1] == total)
  }

  lemma EndsSnoc(reported: seq<int>, positions: seq<int>, done: int, total: nat)
    requires Rising(positions + [done], total) && Ends(reported, positions, total)
    requires positions == [] ==> reported == []
    ensures Ends(reported + if Due(LastOf(None, reported), done, total) then [done] else [], positions + [done], total)
    ensures reported != [] ==> reported[|reported| - 1] < done <= total
  {
    var n := |positions|;
    assert (positions + [done])[n] == done;
    if n > 0 {
      assert (positions + [done])[n - 1] == positions[n - 1] < done;
    }
  }

  lemma RisesSnoc(reported: seq<int>, done: int, total: nat)
    requires Rising(reported, total) && 0 < done <= total && (reported != [] ==> reported[|reported| - 1] < done)
    ensures Rising(reported + if Due(LastOf(None, reported), done, total) then [done] else [], total)
  {
    RisingSnoc(reported, done, total);
    assert reported + [] == reported;
  }

  /** The reports rise, and reach the end whenever the reads do. */
  lemma {:induction false} ReportedClimbs(positions: seq<int>, total: nat)
    requires Rising(positions, total)
    ensures Rising(Reported(None, positions, total), total)
    ensures Ends(Reported(None, positions, total), positions, total)
    decreases |positions|
  {
    if positions != [] {
      var n := |positions| - 1;
      var before, done := positions[..n], positions[n];
      assert positions == before + [done];
      RisingPrefix(before, [done], total);
      ReportedClimbs(before, total);
      ReportedSnoc(None, before, done, total);
      EndsSnoc(Reported(None, before, total), before, done, total);
      RisesSnoc(Reported(None, before, total), done, total);
    }
  }

  /** All but one of the reports lie 64 MiB apart, and the one is at the end. */
  ghost predicate Few(reported: seq<int>, total: int) {
    var last := if reported == [] then 0 else reported[|reported| - 1];
    reported != [] && (|reported| - 1) * REPORT_STEP <= last + (if last == total then REPORT_STEP else 0)
  }

  lemma OneStepMore(n: nat)
    ensures (n + 1) * REPORT_STEP == n * REPORT_STEP + REPORT_STEP
  {
  }

  lemma FewSnoc(reported: seq<int>, done: int, total: int)
    requires 0 < done <= total && (reported != [] ==> Few(reported, total) && reported[|reported| - 1] < done)
    ensures Few(reported + if Due(LastOf(None, reported), done, total) then [done] else [], total)
  {
    if reported != [] {
      OneStepMore(|reported| - 1);
      assert reported + [] == reported;
    }
  }

  /** Between the first and the last report there is one per 64 MiB at most. */
  lemma {:induction false} FewReports(positions: seq<int>, total: nat)
    requires Rising(positions, total) && positions != []
    ensures var s := Reported(None, positions, total);
      s != [] && (|s| - 1) * REPORT_STEP <= s[|s| - 1] + (if s[|s| - 1] == total then REPORT_STEP else 0)
    decreases |positions|
  {
    FewHold(positions, total);
  }

  lemma {:induction false} FewHold(positions: seq<int>, total: nat)
    requires Rising(positions, total) && positions != []
    ensures Few(Reported(None, positions, total), total)
    decreases |positions|
  {
    var n := |positions| - 1;
    var before, done := positions[..n], positions[n];
    assert positions == before + [done];
    RisingPrefix(before, [done], total);
    ReportedSnoc(None, before, done, total);
    ReportedClimbs(before, total);
    if n > 0 {
      FewHold(before, total);
      assert before[n - 1] == positions[n - 1] < done;
    }
    FewSnoc(Reported(None, before, total), done, total);
  }

  // ----- Effects, in order -----

  datatype Effect = Sent(body: Body) | Approved | MountBoot | WriteFile | UnmountBoot

  /** What the host sees of an effect: a message, or the approval that follows its own commit. */
  function Seen(job: Job, effect: Effect): seq<Event> {
    match effect
    case Sent(body) => [Receive(Message(job.attempt, body))]
    case Approved => [Commit]
    case _ => []
  }

  function SeenAll(job: Job, log: seq<Effect>): seq<Event>
    decreases |log|
  {
    if log == [] then [] else SeenAll(job, log[..|log| - 1]) + Seen(job, log[|log| - 1])
  }

  lemma SeenSnoc(job: Job, log: seq<Effect>, effect: Effect)
    ensures SeenAll(job, log + [effect]) == SeenAll(job, log) + Seen(job, effect)
  {
    assert (log + [effect])[..|log|] == log;
  }

  /** The reports of one range, as effects. */
  function Block(range: Range, reported: seq<int>, total: int): seq<Effect> {
    seq(|reported|, i requires 0 <= i < |reported| => Sent(Progress(range, reported[i], total)))
  }

  lemma BlockSnoc(range: Range, reported: seq<int>, done: int, total: int)
    ensures Block(range, reported + [done], total)
         == Block(range, reported, total) + [Sent(Progress(range, done, total))]
  {
  }

  /** Appending a block of reports adds its positions to its range and to no other. */
  lemma {:induction false} BlockDone(job: Job, events: seq<Event>, range: Range, reported: seq<int>,
                                     first: bool, other: Range)
    requires Hashed(first, range) && AllReports(job, events, first)
    ensures var seen := events + SeenAll(job, Block(range, reported, job.plan.Bytes(range)));
      && AllReports(job, seen, first)
      && DoneOf(seen, other) == DoneOf(events, other) + if other == range then reported else []
    decreases |reported|
  {
    var total := job.plan.Bytes(range);
    if reported == [] {
      assert events + SeenAll(job, Block(range, reported, total)) == events;
      assert DoneOf(events, other) + [] == DoneOf(events, other);
    } else {
      var n := |reported| - 1;
      var before, done := reported[..n], reported[n];
      assert reported == before + [done];
      BlockDone(job, events, range, before, first, other);
      BlockSeen(job, events, range, before, done);
      ReportDone(job, events + SeenAll(job, Block(range, before, total)), range, done, first, other);
      Regroup(DoneOf(events, other), before, [done]);
    }
  }

  /** What a block shows with one report more. */
  lemma BlockSeen(job: Job, events: seq<Event>, range: Range, before: seq<int>, done: int)
    ensures var total := job.plan.Bytes(range);
      events + SeenAll(job, Block(range, before + [done], total))
      == events + SeenAll(job, Block(range, before, total))
         + [Receive(Message(job.attempt, Progress(range, done, total)))]
  {
    var total := job.plan.Bytes(range);
    BlockSnoc(range, before, done, total);
    SeenSnoc(job, Block(range, before, total), Sent(Progress(range, done, total)));
    Regroup(events, SeenAll(job, Block(range, before, total)),
            [Receive(Message(job.attempt, Progress(range, done, total)))]);
  }

  lemma ReportDone(job: Job, seen: seq<Event>, range: Range, done: int, first: bool, other: Range)
    requires Hashed(first, range) && AllReports(job, seen, first)
    ensures var e := Receive(Message(job.attempt, Progress(range, done, job.plan.Bytes(range))));
      && AllReports(job, seen + [e], first)
      && DoneOf(seen + [e], other) == DoneOf(seen, other) + if other == range then [done] else []
  {
    DoneSnoc(seen, Receive(Message(job.attempt, Progress(range, done, job.plan.Bytes(range)))), other);
  }

  lemma {:induction false} SeenAppend(job: Job, a: seq<Effect>, b: seq<Effect>)
    ensures SeenAll(job, a + b) == SeenAll(job, a) + SeenAll(job, b)
    decreases |b|
  {
    if b == [] {
      assert a + b == a;
    } else {
      assert (a + b)[..|a| + |b| - 1] == a + b[..|b| - 1];
      SeenAppend(job, a, b[..|b| - 1]);
    }
  }

  /** Hashed to its end, or not started. */
  ghost predicate RangeState(job: Job, events: seq<Event>, range: Range, done: bool) {
    if done then ClimbsIn(job, events, range) else DoneOf(events, range) == []
  }

  /** The reports of one pass so far: the flagged ranges have been hashed to their end, the rest
      have not been started. */
  ghost predicate InPass(job: Job, first: bool, events: seq<Event>, root: bool, prefix: bool, suffix: bool) {
    && Partial(job, events, first)
    && RangeState(job, events, Root, root) && RangeState(job, events, Prefix, prefix)
    && RangeState(job, events, Suffix, suffix)
  }

  /** `seen` adds the positions `reported` of one range to `events`. */
  ghost predicate Adds(events: seq<Event>, seen: seq<Event>, range: Range, reported: seq<int>, other: Range) {
    DoneOf(seen, other) == if other == range then reported else DoneOf(events, other)
  }

  lemma AddsState(job: Job, events: seq<Event>, seen: seq<Event>, range: Range, reported: seq<int>, other: Range,
                  done: bool)
    requires Adds(events, seen, range, reported, other) && RangeState(job, events, other, done)
    requires RisesIn(job, events, other) && Rising(reported, job.plan.Bytes(range))
    ensures RisesIn(job, seen, other)
    ensures Climbs(reported, job.plan.Bytes(range)) ==> RangeState(job, seen, other, done || other == range)
  {
  }

  lemma PassStep(job: Job, first: bool, events: seq<Event>, seen: seq<Event>, range: Range, reported: seq<int>,
                 root: bool, prefix: bool, suffix: bool)
    requires InPass(job, first, events, root, prefix, suffix) && AllReports(job, seen, first)
    requires Adds(events, seen, range, reported, Root) && Adds(events, seen, range, reported, Prefix)
    requires Adds(events, seen, range, reported, Suffix) && Rising(reported, job.plan.Bytes(range))
    ensures Partial(job, seen, first)
    ensures Climbs(reported, job.plan.Bytes(range)) ==>
              InPass(job, first, seen, root || range.Root?, prefix || range.Prefix?, suffix || range.Suffix?)
  {
    AddsState(job, events, seen, range, reported, Root, root);
    AddsState(job, events, seen, range, reported, Prefix, prefix);
    AddsState(job, events, seen, range, reported, Suffix, suffix);
  }

  lemma PassDone(job: Job, first: bool, events: seq<Event>)
    ensures InPass(job, first, events, true, first, true) ==> Hashes(job, events, first)
  {
  }

  lemma BlockAdds(job: Job, first: bool, events: seq<Event>, range: Range, reported: seq<int>, other: Range)
    requires AllReports(job, events, first) && Hashed(first, range)
    requires other == range ==> DoneOf(events, other) == []
    ensures var seen := events + SeenAll(job, Block(range, reported, job.plan.Bytes(range)));
      AllReports(job, seen, first) && Adds(events, seen, range, reported, other)
  {
    BlockDone(job, events, range, reported, first, other);
    assert [] + reported == reported;
    assert DoneOf(events, other) + [] == DoneOf(events, other);
  }

  /** One range read, completely or not, after some others. */
  lemma BlockStep(job: Job, first: bool, events: seq<Event>, range: Range, positions: seq<int>, seen: seq<Event>,
                  root: bool, prefix: bool, suffix: bool)
    requires InPass(job, first, events, root, prefix, suffix) && Hashed(first, range)
    requires match range case Root => !root case Prefix => !prefix case Suffix => !suffix
    requires Rising(positions, job.plan.Bytes(range))
    requires var total := job.plan.Bytes(range);
      seen == events + SeenAll(job, Block(range, Reported(None, positions, total), total))
    ensures Partial(job, seen, first)
    ensures Climbs(positions, job.plan.Bytes(range)) ==>
              InPass(job, first, seen, root || range.Root?, prefix || range.Prefix?, suffix || range.Suffix?)
  {
    var total := job.plan.Bytes(range);
    var reported := Reported(None, positions, total);
    ReportedClimbs(positions, total);
    BlockAdds(job, first, events, range, reported, Root);
    BlockAdds(job, first, events, range, reported, Prefix);
    BlockAdds(job, first, events, range, reported, Suffix);
    PassStep(job, first, events, seen, range, reported, root, prefix, suffix);
  }

  predicate AllSent(log: seq<Effect>) {
    forall i :: 0 <= i < |log| ==> log[i].Sent?
  }

  lemma SentBlock(log: seq<Effect>, range: Range, reported: seq<int>, total: int)
    ensures AllSent(log) ==> AllSent(log + Block(range, reported, total))
  {
  }

  lemma NoneSent(log: seq<Effect>)
    requires AllSent(log)
    ensures Approved !in log && MountBoot !in log && UnmountBoot !in log
  {
  }

  /** Whether boot storage is mounted after these effects. */
  function Mounted(log: seq<Effect>): bool
    decreases |log|
  {
    if log == [] then false
    else
      var e := log[|log| - 1];
      if e.MountBoot? then true else if e.UnmountBoot? then false else Mounted(log[..|log| - 1])
  }

  /** Nothing is said to the host, and no approval is taken, while boot storage is mounted; the
      file is written only while it is. */
  predicate Bracketed(log: seq<Effect>)
    decreases |log|
  {
    log == [] ||
    var before, e := log[..|log| - 1], log[|log| - 1];
    && Bracketed(before)
    && (e.Sent? || e.Approved? || e.MountBoot? ==> !Mounted(before))
    && (e.WriteFile? || e.UnmountBoot? ==> Mounted(before))
  }

  lemma MountedSnoc(log: seq<Effect>, e: Effect)
    ensures Mounted(log + [e]) == (if e.MountBoot? then true else if e.UnmountBoot? then false else Mounted(log))
    ensures Bracketed(log + [e])
         == (Bracketed(log) && (if e.WriteFile? || e.UnmountBoot? then Mounted(log) else !Mounted(log)))
  {
    assert (log + [e])[..|log|] == log;
  }

  lemma {:induction false} SendingKeepsBracket(log: seq<Effect>, sent: seq<Effect>)
    requires Bracketed(log) && !Mounted(log) && AllSent(sent)
    ensures Bracketed(log + sent) && !Mounted(log + sent)
    decreases |sent|
  {
    if sent == [] {
      assert log + sent == log;
    } else {
      var n := |sent| - 1;
      SendingKeepsBracket(log, sent[..n]);
      MountedSnoc(log + sent[..n], sent[n]);
      assert log + sent == log + sent[..n] + [sent[n]];
    }
  }

  /** What the worker meets outside its own code. */
  datatype World = World(extent: Extent, before: seq<Byte>, after: seq<Byte>, pinned: Range -> Digest,
                         hash: seq<Byte> -> Digest, short: bool -> Range -> nat -> nat,
                         identity: bool, approved: bool, live: bool, layout: bool, mounts: bool,
                         file: Option<FileResult>, unmounts: bool, settled: bool, released: bool) {
    predicate Fits() {
      extent.Fits(before) && extent.Fits(after)
    }

    /** The card as the first pass meets it, and as the second does. */
    function Card(first: bool): seq<Byte> {
      if first then before else after
    }
  }

  /** One pass: every range it covers can be read to its end and matches. */
  predicate Passes(first: bool, plan: Plan, world: World)
    requires world.Fits()
  {
    && AllGuarded(first, plan, world.Card(first), world.extent, world.pinned, world.hash)
    && AllRead(first, plan, world.short(first))
  }

  /** The host is asked and approves. */
  predicate Ready(plan: Plan, world: World)
    requires world.Fits()
  {
    world.identity && Passes(true, plan, world) && world.approved
  }

  predicate Mounts(plan: Plan, world: World)
    requires world.Fits()
  {
    Ready(plan, world) && world.live && world.layout && world.mounts
  }

  /** Nothing goes wrong from beginning to end. */
  predicate Sound(plan: Plan, world: World)
    requires world.Fits()
  {
    && Mounts(plan, world) && world.file.Some? && world.unmounts && world.settled
    && Passes(false, plan, world) && world.released
  }

  /** Nothing goes wrong, reading apart. */
  predicate Untroubled(plan: Plan, world: World)
    requires world.Fits()
  {
    && world.identity && world.approved && world.live && world.layout && world.mounts && world.file.Some?
    && world.unmounts && world.settled && world.released
    && AllGuarded(true, plan, world.before, world.extent, world.pinned, world.hash)
    && AllGuarded(false, plan, world.after, world.extent, world.pinned, world.hash)
  }

  /** A read asks for at most a chunk and gets at most what it asks for. */
  function ReadSize(left: nat, given: nat): (size: nat)
    ensures size <= left && size <= given && size <= READ_CHUNK
    ensures size == left || size == given || size == READ_CHUNK
  {
    var asked := if left < READ_CHUNK then left else READ_CHUNK;
    if given < asked then given else asked
  }

  /** Reads from `at` on reach the end; `short` says how much the device has for each. */
  predicate ReadsThrough(short: nat -> nat, at: nat, total: nat)
    requires at <= total
    decreases total - at
  {
    at == total
    || (0 < short(at) && ReadsThrough(short, at + ReadSize(total - at, short(at)), total))
  }

  /** It is enough that no read comes back empty. */
  lemma {:induction false} ProgressReadsThrough(short: nat -> nat, at: nat, total: nat)
    requires at <= total && forall k :: at <= k < total ==> 0 < short(k)
    ensures ReadsThrough(short, at, total)
    decreases total - at
  {
    if at < total {
      ProgressReadsThrough(short, at + ReadSize(total - at, short(at)), total);
    }
  }

  ghost predicate NoEmptyRead(short: bool -> Range -> nat -> nat) {
    forall first, range, at :: 0 < short(first)(range)(at)
  }

  lemma SoundReads(plan: Plan, world: World)
    requires world.Fits()
    ensures NoEmptyRead(world.short) ==> (Sound(plan, world) <==> Untroubled(plan, world))
  {
    if NoEmptyRead(world.short) {
      forall first, range ensures ReadsThrough(world.short(first)(range), 0, plan.Bytes(range)) {
        ProgressReadsThrough(world.short(first)(range), 0, plan.Bytes(range));
      }
    }
  }

  predicate AllRead(first: bool, plan: Plan, short: Range -> nat -> nat) {
    && ReadsThrough(short(Root), 0, plan.root) && ReadsThrough(short(Suffix), 0, plan.suffix)
    && (first ==> ReadsThrough(short(Prefix), 0, plan.prefix))
  }

  predicate Sized(plan: Plan, card: seq<Byte>, extent: Extent, range: Range)
    requires extent.Fits(card)
  {
    |RangeBytes(card, extent, range)| == plan.Bytes(range)
  }

  predicate AllSized(first: bool, plan: Plan, card: seq<Byte>, extent: Extent)
    requires extent.Fits(card)
  {
    && Sized(plan, card, extent, Root) && (first ==> Sized(plan, card, extent, Prefix))
    && Sized(plan, card, extent, Suffix)
  }

  predicate AllGuarded(first: bool, plan: Plan, card: seq<Byte>, extent: Extent, pinned: Range -> Digest,
                       hash: seq<Byte> -> Digest)
    requires extent.Fits(card)
  {
    && Guarded(plan, card, extent, pinned, hash, Root) && Guarded(plan, card, extent, pinned, hash, Suffix)
    && (first ==> Guarded(plan, card, extent, pinned, hash, Prefix))
  }

  predicate Guarded(plan: Plan, card: seq<Byte>, extent: Extent, pinned: Range -> Digest, hash: seq<Byte> -> Digest,
                    range: Range)
    requires extent.Fits(card)
  {
    Sized(plan, card, extent, range) && hash(RangeBytes(card, extent, range)) == pinned(range)
  }

  /** The card holds what the plan pinned: the root, everything after it and, before the commit,
      everything before it. */
  predicate AsPinned(first: bool, plan: Plan, card: seq<Byte>, extent: Extent, pinned: Range -> Digest,
                     hash: seq<Byte> -> Digest)
    requires extent.Fits(card)
  {
    var root, end := extent.offset, extent.offset + extent.length;
    && plan.root == extent.length && hash(card[root..end]) == pinned(Root)
    && plan.suffix == |card| - end && hash(card[end..]) == pinned(Suffix)
    && (first ==> plan.prefix == root && hash(card[..root]) == pinned(Prefix))
  }

  lemma GuardedMeans(first: bool, plan: Plan, card: seq<Byte>, extent: Extent, pinned: Range -> Digest,
                     hash: seq<Byte> -> Digest)
    requires extent.Fits(card)
    ensures AllGuarded(first, plan, card, extent, pinned, hash) <==> AsPinned(first, plan, card, extent, pinned, hash)
  {
    var end := extent.offset + extent.length;
    assert card[end..|card|] == card[end..] && card[0..extent.offset] == card[..extent.offset];
  }

  lemma SoundPinned(plan: Plan, world: World)
    requires world.Fits()
    ensures Sound(plan, world) ==>
              && AsPinned(true, plan, world.before, world.extent, world.pinned, world.hash)
              && AsPinned(false, plan, world.after, world.extent, world.pinned, world.hash)
  {
    GuardedMeans(true, plan, world.before, world.extent, world.pinned, world.hash);
    GuardedMeans(false, plan, world.after, world.extent, world.pinned, world.hash);
  }

  lemma NothingSeen(job: Job, first: bool)
    ensures InPass(job, first, SeenAll(job, []), false, false, false)
  {
  }

  // ----- What the host makes of it -----

  /** The host accepts a run of the worker up to any point it may stop at. */
  lemma StagesAccepted(job: Job, first: seq<Event>, second: seq<Event>)
    requires Hashes(job, first, true) && Partial(job, second, false)
    ensures Run(job, FRESH, first).Ok? && Run(job, FRESH, first + [PreparedEvent(job)]).Ok?
    ensures Run(job, FRESH, first + [PreparedEvent(job)] + [Commit]).Ok?
    ensures Run(job, FRESH, Opening(job, first) + second).Ok?
  {
    OpeningAccepted(job, first);
    RunSnoc(job, FRESH, first, PreparedEvent(job));
    RunSnoc(job, FRESH, first + [PreparedEvent(job)], Commit);
    RunSnoc(job, FRESH, first + [PreparedEvent(job)] + [Commit], UnmountedEvent(job));
    ReportsAccepted(job, Host(Checking, map[], None), second, false);
    RunAppend(job, FRESH, Opening(job, first), second);
  }

  ghost predicate Verdict(job: Job, events: seq<Event>, file: FileResult) {
    var end := Run(job, FRESH, events);
    && (end.Ok? <==> file == APPLIED)
    && (end.Ok? ==> end.value.phase.Finished? && end.value.result == Some(ReceiptFor(job, APPLIED)))
    && (end.Err? ==> end.error.CompletionDiffers?)
  }

  /** A full conversation ends complete exactly when the file was newly applied. */
  lemma WholeVerdict(job: Job, first: seq<Event>, second: seq<Event>, file: FileResult)
    requires Hashes(job, first, true) && Hashes(job, second, false)
    ensures Verdict(job, Whole(job, first, second, file), file)
  {
    Accepts(job, first, second);
    StagesAccepted(job, first, second);
    RunSnoc(job, FRESH, Opening(job, first) + second, CompleteEvent(job, file));
  }

  lemma SeenOne(job: Job, log: seq<Effect>, e: Effect)
    ensures SeenAll(job, log + [e]) == SeenAll(job, log) + Seen(job, e)
  {
    SeenSnoc(job, log, e);
  }

  /** The log up to the moment the host hears that boot storage is unmounted. */
  function OpeningLog(job: Job, first: seq<Effect>): seq<Effect> {
    first + [Sent(Prepared(job.pin, job.plan.binding))] + [Approved] + [MountBoot] + [WriteFile] + [UnmountBoot]
    + [Sent(Unmounted(job.pin, job.plan.binding.bootId))]
  }

  lemma OpeningSeen(job: Job, first: seq<Effect>)
    requires AllSent(first)
    ensures SeenAll(job, OpeningLog(job, first)) == Opening(job, SeenAll(job, first))
    ensures Bracketed(OpeningLog(job, first)) && !Mounted(OpeningLog(job, first))
  {
    var l1 := first + [Sent(Prepared(job.pin, job.plan.binding))];
    var l2 := l1 + [Approved];
    var l3 := l2 + [MountBoot];
    var l4 := l3 + [WriteFile];
    var l5 := l4 + [UnmountBoot];
    SeenOne(job, first, Sent(Prepared(job.pin, job.plan.binding)));
    SeenOne(job, l1, Approved);
    SeenOne(job, l2, MountBoot);
    SeenOne(job, l3, WriteFile);
    SeenOne(job, l4, UnmountBoot);
    SeenOne(job, l5, Sent(Unmounted(job.pin, job.plan.binding.bootId)));
    assert [] + first == first;
    SendingKeepsBracket([], first);
    MountedSnoc(first, Sent(Prepared(job.pin, job.plan.binding)));
    MountedSnoc(l1, Approved);
    MountedSnoc(l2, MountBoot);
    MountedSnoc(l3, WriteFile);
    MountedSnoc(l4, UnmountBoot);
    MountedSnoc(l5, Sent(Unmounted(job.pin, job.plan.binding.bootId)));
  }

  /** While preparing: the host has accepted all of it, and boot is not mounted. */
  lemma PreparingSeen(job: Job, first: seq<Effect>)
    requires AllSent(first) && Partial(job, SeenAll(job, first), true)
    ensures Run(job, FRESH, SeenAll(job, first)).Ok? && Bracketed(first)
    ensures var l1 := first + [Sent(Prepared(job.pin, job.plan.binding))];
      Hashes(job, SeenAll(job, first), true) ==>
        && Run(job, FRESH, SeenAll(job, l1)).Ok? && Bracketed(l1)
        && Run(job, FRESH, SeenAll(job, l1 + [Approved])).Ok? && Bracketed(l1 + [Approved])
  {
    var l1 := first + [Sent(Prepared(job.pin, job.plan.binding))];
    ReportsAccepted(job, FRESH, SeenAll(job, first), true);
    assert [] + first == first;
    SendingKeepsBracket([], first);
    SeenOne(job, first, Sent(Prepared(job.pin, job.plan.binding)));
    SeenOne(job, l1, Approved);
    MountedSnoc(first, Sent(Prepared(job.pin, job.plan.binding)));
    MountedSnoc(l1, Approved);
    if Hashes(job, SeenAll(job, first), true) {
      NothingSeen(job, false);
      StagesAccepted(job, SeenAll(job, first), []);
    }
  }

  lemma NotMountedYet(job: Job, first: seq<Effect>)
    requires AllSent(first)
    ensures !Mounted(first + [Sent(Prepared(job.pin, job.plan.binding))] + [Approved])
  {
    assert [] + first == first;
    SendingKeepsBracket([], first);
    MountedSnoc(first, Sent(Prepared(job.pin, job.plan.binding)));
    MountedSnoc(first + [Sent(Prepared(job.pin, job.plan.binding))], Approved);
  }

  /** While checking again. */
  lemma CheckingSeen(job: Job, first: seq<Effect>, second: seq<Effect>)
    requires AllSent(first) && Hashes(job, SeenAll(job, first), true)
    requires AllSent(second) && Partial(job, SeenAll(job, second), false)
    ensures var log := OpeningLog(job, first) + second;
      && Run(job, FRESH, SeenAll(job, log)).Ok? && Bracketed(log) && !Mounted(log)
      && SeenAll(job, log) == Opening(job, SeenAll(job, first)) + SeenAll(job, second)
  {
    OpeningSeen(job, first);
    SeenAppend(job, OpeningLog(job, first), second);
    StagesAccepted(job, SeenAll(job, first), SeenAll(job, second));
    SendingKeepsBracket(OpeningLog(job, first), second);
  }

  lemma FinishedSeen(job: Job, first: seq<Effect>, second: seq<Effect>, file: FileResult)
    requires AllSent(first) && Hashes(job, SeenAll(job, first), true)
    requires AllSent(second) && Hashes(job, SeenAll(job, second), false)
    ensures var log := OpeningLog(job, first) + second + [Sent(Complete(ReceiptFor(job, file)))];
      && SeenAll(job, log) == Whole(job, SeenAll(job, first), SeenAll(job, second), file)
      && Bracketed(log) && Verdict(job, SeenAll(job, log), file)
  {
    CheckingSeen(job, first, second);
    SeenOne(job, OpeningLog(job, first) + second, Sent(Complete(ReceiptFor(job, file))));
    MountedSnoc(OpeningLog(job, first) + second, Sent(Complete(ReceiptFor(job, file))));
    WholeVerdict(job, SeenAll(job, first), SeenAll(job, second), file);
  }

  function LookUp(last: map<Range, int>, range: Range): Option<int> {
    if range in last then Some(last[range]) else None
  }

  function LastAfter(last: map<Range, int>, range: Range, reported: seq<int>): map<Range, int> {
    if reported == [] then last else last[range := reported[|reported| - 1]]
  }

  /** A scan that has read `consumed` bytes of `total`. */
  ghost predicate Scanned(last: Option<int>, positions: seq<int>, reported: seq<int>, consumed: int, total: nat) {
    && Rising(positions, total) && consumed == (if positions == [] then 0 else positions[|positions| - 1])
    && reported == Reported(last, positions, total)
  }

  lemma ScanStep(last: Option<int>, positions: seq<int>, reported: seq<int>, consumed: int, done: int, total: nat)
    requires Scanned(last, positions, reported, consumed, total) && consumed < done <= total
    ensures Scanned(last, positions + [done],
                    reported + (if Due(LastOf(last, reported), done, total) then [done] else []), done, total)
  {
    ReportedSnoc(last, positions, done, total);
    RisingSnoc(positions, done, total);
  }

  lemma ScanLogs(log: seq<Effect>, last: map<Range, int>, range: Range, reported: seq<int>, done: int, total: int)
    ensures LookUp(LastAfter(last, range, reported), range) == LastOf(LookUp(last, range), reported)
    ensures LastAfter(last, range, reported + [done]) == LastAfter(last, range, reported)[range := done]
    ensures log + Block(range, reported + [done], total)
         == log + Block(range, reported, total) + [Sent(Progress(range, done, total))]
  {
    BlockSnoc(range, reported, done, total);
  }

  class Worker {
    const job: Job
    var last: map<Range, int>
    var log: seq<Effect>

    constructor (job: Job)
      ensures this.job == job && last == map[] && log == []
    {
      this.job, last, log := job, map[], [];
    }

    function Last(range: Range): Option<int>
      reads this
    {
      LookUp(last, range)
    }

    method Emit(body: Body)
      modifies this`log
      ensures log == old(log) + [Sent(body)]
    {
      log := log + [Sent(body)];
    }

    method Report(range: Range, done: int, total: int)
      modifies this
      ensures var due := Due(old(Last(range)), done, total);
        && log == old(log) + (if due then [Sent(Progress(range, done, total))] else [])
        && last == if due then old(last)[range := done] else old(last)
    {
      if range !in last || done - last[range] >= REPORT_STEP || done == total {
        last := last[range := done];
        Emit(Progress(range, done, total));
      }
    }

    /** The effects of a scan so far, and the table of last reports. */
    ghost predicate Logged(range: Range, reported: seq<int>, total: nat, last0: map<Range, int>, log0: seq<Effect>)
      reads this
    {
      log == log0 + Block(range, reported, total) && last == LastAfter(last0, range, reported)
    }

    /** Report a new position of a scan. */
    method ScanTo(range: Range, done: int, total: nat, ghost last0: map<Range, int>, ghost log0: seq<Effect>,
                  ghost positions: seq<int>, ghost reported: seq<int>, ghost consumed: int)
      returns (ghost positions': seq<int>, ghost reported': seq<int>)
      requires consumed < done <= total && Scanned(LookUp(last0, range), positions, reported, consumed, total)
      requires Logged(range, reported, total, last0, log0)
      modifies this
      ensures Scanned(LookUp(last0, range), positions', reported', done, total)
      ensures Logged(range, reported', total, last0, log0)
    {
      ScanStep(LookUp(last0, range), positions, reported, consumed, done, total);
      ScanLogs(log0, last0, range, reported, done, total);
      positions' := positions + [done];
      reported' := reported + (if Due(Last(range), done, total) then [done] else []);
      assert reported + [] == reported;
      Report(range, done, total);
    }

    /** Read a range to its end in reads of any size; `short` says how much each read returns. */
    method Scan(range: Range, data: seq<Byte>, short: nat -> nat)
      returns (consumed: nat, read: seq<Byte>, ghost positions: seq<int>, ghost reported: seq<int>)
      requires |data| == job.plan.Bytes(range)
      modifies this
      ensures consumed <= |data| && read == data[..consumed]
      ensures Scanned(LookUp(old(last), range), positions, reported, consumed, |data|)
      ensures Logged(range, reported, |data|, old(last), old(log))
      ensures consumed == |data| <==> ReadsThrough(short, 0, |data|)
    {
      ghost var last0, log0 := last, log;
      consumed, read, positions, reported := 0, [], [], [];
      NothingLogged(range, |data|);
      while consumed < |data|
        invariant consumed <= |data| && read == data[..consumed]
        invariant Scanned(LookUp(last0, range), positions, reported, consumed, |data|)
        invariant Logged(range, reported, |data|, last0, log0)
        invariant ReadsThrough(short, 0, |data|) <==> ReadsThrough(short, consumed, |data|)
      {
        var size := ReadNext(consumed, |data|, short);
        if size == 0 {
          break;
        }
        read := Extended(data, read, consumed, size);
        positions, reported := ScanTo(range, consumed + size, |data|, last0, log0, positions, reported, consumed);
        consumed := consumed + size;
      }
    }

    lemma NothingLogged(range: Range, total: nat)
      ensures Logged(range, [], total, last, log) && Scanned(LookUp(last, range), [], [], 0, total)
    {
      assert log + Block(range, [], total) == log;
    }

    /** The size of the next read; none means that the range cannot be read to its end. */
    static method ReadNext(consumed: nat, total: nat, short: nat -> nat) returns (size: nat)
      requires consumed < total
      ensures consumed + size <= total
      ensures if size == 0 then !ReadsThrough(short, consumed, total)
              else ReadsThrough(short, consumed, total) <==> ReadsThrough(short, consumed + size, total)
    {
      size := ReadSize(total - consumed, short(consumed));
    }

    static method Extended(data: seq<Byte>, read: seq<Byte>, consumed: nat, got: nat) returns (more: seq<Byte>)
      requires consumed + got <= |data| && read == data[..consumed]
      ensures more == data[..consumed + got]
    {
      more := read + data[consumed..consumed + got];
    }

    method RangeDigest(range: Range, card: seq<Byte>, extent: Extent, hash: seq<Byte> -> Digest, short: nat -> nat)
      returns (digest: Option<Digest>, ghost positions: seq<int>)
      requires extent.Fits(card) && |RangeBytes(card, extent, range)| == job.plan.Bytes(range)
      modifies this
      ensures Rising(positions, job.plan.Bytes(range))
      ensures var total := job.plan.Bytes(range);
        var reported := Reported(old(Last(range)), positions, total);
        log == old(log) + Block(range, reported, total) && last == LastAfter(old(last), range, reported)
      ensures digest.Some? ==>
                digest.value == hash(RangeBytes(card, extent, range)) && Climbs(positions, job.plan.Bytes(range))
      ensures digest.Some? <==> ReadsThrough(short, 0, job.plan.Bytes(range))
    {
      var data := RangeBytes(card, extent, range);
      var consumed, read;
      ghost var reported;
      consumed, read, positions, reported := Scan(range, data, short);
      assert data[..|data|] == data;
      digest := if consumed == |data| then Some(hash(read)) else None;
    }

    /** One guarded range, after the ranges that `root`, `prefix` and `suffix` say are done. */
    method CheckRange(first: bool, range: Range, card: seq<Byte>, extent: Extent, pinned: Range -> Digest,
                      hash: seq<Byte> -> Digest, short: Range -> nat -> nat,
                      ghost pass: seq<Effect>, ghost root: bool, ghost prefix: bool, ghost suffix: bool)
      returns (ok: bool, ghost pass': seq<Effect>)
      requires extent.Fits(card) && |RangeBytes(card, extent, range)| == job.plan.Bytes(range) && Hashed(first, range)
      requires match range case Root => !root case Prefix => !prefix case Suffix => !suffix
      modifies this
      ensures pass <= pass' && log == old(log) + pass'[|pass|..] && (AllSent(pass) ==> AllSent(pass'))
      ensures ok <==> Guarded(job.plan, card, extent, pinned, hash, range)
                      && ReadsThrough(short(range), 0, job.plan.Bytes(range))
      ensures last.Keys <= old(last).Keys + {range}
      ensures range !in old(last) && InPass(job, first, SeenAll(job, pass), root, prefix, suffix) ==>
                && Partial(job, SeenAll(job, pass'), first)
                && (ok ==> InPass(job, first, SeenAll(job, pass'),
                                  root || range.Root?, prefix || range.Prefix?, suffix || range.Suffix?))
    {
      ghost var last0, total := Last(range), job.plan.Bytes(range);
      var digest;
      ghost var positions;
      digest, positions := RangeDigest(range, card, extent, hash, short(range));
      ghost var block := Block(range, Reported(last0, positions, total), total);
      pass' := pass + block;
      SeenAppend(job, pass, block);
      SentBlock(pass, range, Reported(last0, positions, total), total);
      if last0 == None && InPass(job, first, SeenAll(job, pass), root, prefix, suffix) {
        BlockStep(job, first, SeenAll(job, pass), range, positions, SeenAll(job, pass'), root, prefix, suffix);
      }
      ok := digest.Some? && digest.value == pinned(range);
    }

    /** Every guarded range holds the bytes the plan pinned. */
    method VerifyGuards(first: bool, world: World) returns (ok: bool, ghost pass: seq<Effect>)
      requires world.Fits()
      modifies this
      ensures log == old(log) + pass && AllSent(pass)
      ensures ok <==> Passes(first, job.plan, world)
      ensures ok <==> AsPinned(first, job.plan, world.Card(first), world.extent, world.pinned, world.hash)
                      && AllRead(first, job.plan, world.short(first))
      ensures old(last) == map[] ==>
                Partial(job, SeenAll(job, pass), first) && (ok ==> Hashes(job, SeenAll(job, pass), first))
    {
      var card := world.Card(first);
      GuardedMeans(first, job.plan, card, world.extent, world.pinned, world.hash);
      ok, pass := false, [];
      NothingSeen(job, first);
      if AllSized(first, job.plan, card, world.extent) {
        ok, pass := CheckRanges(first, card, world.extent, world.pinned, world.hash, world.short(first));
      }
    }

    /** The ranges of a pass, in the plan's order. */
    method CheckRanges(first: bool, card: seq<Byte>, extent: Extent, pinned: Range -> Digest,
                       hash: seq<Byte> -> Digest, short: Range -> nat -> nat)
      returns (ok: bool, ghost pass: seq<Effect>)
      requires extent.Fits(card) && AllSized(first, job.plan, card, extent)
      modifies this
      ensures log == old(log) + pass && AllSent(pass)
      ensures ok <==> AllGuarded(first, job.plan, card, extent, pinned, hash) && AllRead(first, job.plan, short)
      ensures old(last) == map[] ==>
                Partial(job, SeenAll(job, pass), first) && (ok ==> Hashes(job, SeenAll(job, pass), first))
    {
      NothingSeen(job, first);
      ok, pass := CheckRange(first, Root, card, extent, pinned, hash, short, [], false, false, false);
      if ok {
        ok, pass := CheckRest(first, card, extent, pinned, hash, short, pass);
      }
    }

    /** The ranges after the root. */
    method CheckRest(first: bool, card: seq<Byte>, extent: Extent, pinned: Range -> Digest,
                     hash: seq<Byte> -> Digest, short: Range -> nat -> nat, ghost pass: seq<Effect>)
      returns (ok: bool, ghost pass': seq<Effect>)
      requires extent.Fits(card) && AllSized(first, job.plan, card, extent)
      modifies this
      ensures pass <= pass' && log == old(log) + pass'[|pass|..] && (AllSent(pass) ==> AllSent(pass'))
      ensures ok <==> && (first ==> Guarded(job.plan, card, extent, pinned, hash, Prefix)
                                    && ReadsThrough(short(Prefix), 0, job.plan.prefix))
                      && Guarded(job.plan, card, extent, pinned, hash, Suffix)
                      && ReadsThrough(short(Suffix), 0, job.plan.suffix)
      ensures Prefix !in old(last) && Suffix !in old(last)
              && InPass(job, first, SeenAll(job, pass), true, false, false) ==>
                Partial(job, SeenAll(job, pass'), first) && (ok ==> Hashes(job, SeenAll(job, pass'), first))
    {
      ok, pass' := true, pass;
      if first {
        ok, pass' := CheckRange(first, Prefix, card, extent, pinned, hash, short, pass, true, false, false);
      }
      if ok {
        ok, pass' := CheckSuffix(first, card, extent, pinned, hash, short, pass');
      }
    }

    /** The last range of a pass. */
    method CheckSuffix(first: bool, card: seq<Byte>, extent: Extent, pinned: Range -> Digest,
                       hash: seq<Byte> -> Digest, short: Range -> nat -> nat, ghost pass: seq<Effect>)
      returns (ok: bool, ghost pass': seq<Effect>)
      requires extent.Fits(card) && Sized(job.plan, card, extent, Suffix)
      modifies this
      ensures pass <= pass' && log == old(log) + pass'[|pass|..] && (AllSent(pass) ==> AllSent(pass'))
      ensures ok <==> Guarded(job.plan, card, extent, pinned, hash, Suffix)
                      && ReadsThrough(short(Suffix), 0, job.plan.suffix)
      ensures Suffix !in old(last) && InPass(job, first, SeenAll(job, pass), true, first, false) ==>
                Partial(job, SeenAll(job, pass'), first) && (ok ==> Hashes(job, SeenAll(job, pass'), first))
    {
      ok, pass' := CheckRange(first, Suffix, card, extent, pinned, hash, short, pass, true, first, false);
      PassDone(job, first, SeenAll(job, pass'));
    }

    /** The host has accepted all it has been told, and was told nothing while boot was mounted. */
    ghost predicate InStep()
      reads this
    {
      Run(job, FRESH, SeenAll(job, log)).Ok? && Bracketed(log)
    }

    /** Hash everything, then ask for approval. */
    method Prepare(world: World) returns (ok: bool, ghost first: seq<Effect>)
      requires world.Fits() && last == map[] && log == []
      modifies this
      ensures InStep() && AllSent(first)
      ensures ok ==> log == first + [Sent(Prepared(job.pin, job.plan.binding))] + [Approved]
                     && Hashes(job, SeenAll(job, first), true)
      ensures ok <==> Ready(job.plan, world)
      ensures Approved in log <==> ok
      ensures MountBoot !in log && UnmountBoot !in log
    {
      ok, first := false, [];
      NothingSeen(job, true);
      if world.identity {
        ok, first := VerifyGuards(true, world);
        assert log == first;
      }
      PreparingSeen(job, first);
      NoneSent(first);
      if ok {
        ok := Approve(world, first);
      }
    }

    /** Say that all is prepared, and wait for the owner's answer. */
    method Approve(world: World, ghost first: seq<Effect>) returns (ok: bool)
      requires log == first && AllSent(first) && Hashes(job, SeenAll(job, first), true)
      modifies this`log
      ensures InStep() && ok == world.approved
      ensures log == first + [Sent(Prepared(job.pin, job.plan.binding))] + if ok then [Approved] else []
    {
      PreparingSeen(job, first);
      Emit(Prepared(job.pin, job.plan.binding));
      ok := world.approved;
      if ok {
        log := log + [Approved];
      }
    }

    /** The mounted phase: nothing is said until boot storage is unmounted again. */
    method CommitFile(world: World) returns (file: Option<FileResult>)
      requires InStep() && !Mounted(log) && MountBoot !in log && UnmountBoot !in log
      modifies this`log
      ensures InStep()
      ensures file.Some? ==> log == old(log) + [MountBoot] + [WriteFile] + [UnmountBoot] && file == world.file
      ensures file.Some?
              <==> world.live && world.layout && world.mounts && world.file.Some? && world.unmounts && world.settled
      ensures old(log) <= log
      ensures MountBoot in log <==> world.live && world.layout && world.mounts
      ensures UnmountBoot in log <==> world.live && world.layout && world.mounts && world.unmounts
    {
      file := None;
      if world.live && world.layout && world.mounts {
        file := CommitMounted(world);
      }
    }

    method CommitMounted(world: World) returns (file: Option<FileResult>)
      requires InStep() && !Mounted(log) && MountBoot !in log && UnmountBoot !in log
      modifies this`log
      ensures InStep() && old(log) <= log
      ensures file.Some? ==> log == old(log) + [MountBoot] + [WriteFile] + [UnmountBoot] && file == world.file
      ensures file.Some? <==> world.file.Some? && world.unmounts && world.settled
      ensures MountBoot in log && (UnmountBoot in log <==> world.unmounts)
    {
      Silently(MountBoot);
      if world.file.Some? {
        Silently(WriteFile);
      }
      file := None;
      if world.unmounts {
        Silently(UnmountBoot);
        if world.settled {
          file := world.file;
        }
      }
    }

    method Silently(e: Effect)
      requires InStep() && !e.Sent? && !e.Approved? && (e.MountBoot? <==> !Mounted(log))
      modifies this`log
      ensures InStep() && log == old(log) + [e]
      ensures Mounted(log) == !e.UnmountBoot?
      ensures e in log && old(log) <= log && (MountBoot in old(log) ==> MountBoot in log)
      ensures !e.UnmountBoot? ==> (UnmountBoot in log <==> UnmountBoot in old(log))
    {
      SeenOne(job, log, e);
      MountedSnoc(log, e);
      assert SeenAll(job, log) + [] == SeenAll(job, log);
      log := log + [e];
    }

    /** After the unmount: say so, hash again, report. */
    method Finish(world: World, file: FileResult, ghost first: seq<Effect>)
      returns (receipt: Option<Receipt>, ghost second: seq<Effect>)
      requires world.Fits() && AllSent(first) && Hashes(job, SeenAll(job, first), true)
      requires log + [Sent(Unmounted(job.pin, job.plan.binding.bootId))] == OpeningLog(job, first)
      modifies this
      ensures Bracketed(log)
      ensures receipt.None? ==> InStep()
      ensures receipt.Some? ==> SentReceipt(file, receipt.value, first, second)
      ensures receipt.Some? <==> Passes(false, job.plan, world) && world.released
      ensures old(log) <= log
    {
      var ok;
      ok, second := Recheck(world, first);
      receipt := None;
      if ok && world.released {
        receipt := Conclude(file, first, second);
      }
    }

    method Recheck(world: World, ghost first: seq<Effect>) returns (ok: bool, ghost second: seq<Effect>)
      requires world.Fits() && AllSent(first) && Hashes(job, SeenAll(job, first), true)
      requires log + [Sent(Unmounted(job.pin, job.plan.binding.bootId))] == OpeningLog(job, first)
      modifies this
      ensures log == OpeningLog(job, first) + second && AllSent(second) && InStep() && old(log) <= log
      ensures ok <==> Passes(false, job.plan, world)
      ensures ok ==> Hashes(job, SeenAll(job, second), false)
    {
      last := map[];
      Emit(Unmounted(job.pin, job.plan.binding.bootId));
      ok, second := VerifyGuards(false, world);
      CheckingSeen(job, first, second);
    }

    method Conclude(file: FileResult, ghost first: seq<Effect>, ghost second: seq<Effect>)
      returns (receipt: Option<Receipt>)
      requires AllSent(first) && Hashes(job, SeenAll(job, first), true)
      requires AllSent(second) && Hashes(job, SeenAll(job, second), false)
      requires log == OpeningLog(job, first) + second
      modifies this`log
      ensures log == old(log) + [Sent(Complete(ReceiptFor(job, file)))] && Bracketed(log)
      ensures receipt.Some? && SentReceipt(file, receipt.value, first, second)
    {
      Emit(Complete(ReceiptFor(job, file)));
      FinishedSeen(job, first, second, file);
      receipt := Some(ReceiptFor(job, file));
    }

    /** A receipt was sent, after two complete passes. */
    ghost predicate SentReceipt(file: FileResult, receipt: Receipt, first: seq<Effect>, second: seq<Effect>)
      reads this
    {
      && receipt == ReceiptFor(job, file)
      && SeenAll(job, log) == Whole(job, SeenAll(job, first), SeenAll(job, second), file)
      && Hashes(job, SeenAll(job, first), true) && Hashes(job, SeenAll(job, second), false)
      && Verdict(job, SeenAll(job, log), file)
    }

    /** The whole worker. A receipt is sent exactly when nothing goes wrong, after both passes,
        and the host takes it and finishes exactly when the file was newly applied. Whatever goes
        wrong, the host has accepted everything it was told. */
    method Execute(world: World) returns (receipt: Option<Receipt>, ghost first: seq<Effect>, ghost second: seq<Effect>)
      requires world.Fits() && last == map[] && log == []
      modifies this
      ensures Bracketed(log)
      ensures receipt.None? ==> InStep()
      ensures receipt.Some? <==> Sound(job.plan, world)
      ensures NoEmptyRead(world.short) ==> (receipt.Some? <==> Untroubled(job.plan, world))
      ensures receipt.Some? ==> SentReceipt(world.file.value, receipt.value, first, second)
      ensures receipt.Some? ==> AsPinned(true, job.plan, world.before, world.extent, world.pinned, world.hash)
                                && AsPinned(false, job.plan, world.after, world.extent, world.pinned, world.hash)
      ensures Approved in log <==> Ready(job.plan, world)
      ensures MountBoot in log <==> Mounts(job.plan, world)
      ensures UnmountBoot in log <==> Mounts(job.plan, world) && world.unmounts
    {
      receipt, second := None, [];
      SoundReads(job.plan, world);
      SoundPinned(job.plan, world);
      var ok;
      ok, first := Prepare(world);
      if !ok {
        return;
      }
      NotMountedYet(job, first);
      var file := CommitFile(world);
      if file.Some? {
        receipt, second := Finish(world, file.value, first);
      }
    }
  }
}
