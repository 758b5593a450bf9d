/** The host's phase machine for a boot-file commit (tools/forge_recovery_commit_protocol.py). */
module CommitProtocol {
  import opened Wrappers

  datatype Range = Root | Prefix | Suffix

  datatype Binding = Binding(bootId: string, details: string)

  datatype Plan = Plan(root: nat, prefix: nat, suffix: nat, binding: Binding, operation: string) {
    /** The length of a guarded range. */
    function Bytes(range: Range): nat {
      match range
      case Root => root
      case Prefix => prefix
      case Suffix => suffix
    }
  }

  datatype Job = Job(plan: Plan, pin: string, attempt: string)

  datatype FileResult = FileResult(status: string, path: string)

  datatype Receipt = Receipt(status: string, plan: string, bootId: string, operation: string, file: FileResult,
                             rootWritten: bool, bootUnmounted: bool, rebootPerformed: bool, qualified: bool)

  /** What the worker reports when it has finished. */
  function ReceiptFor(job: Job, file: FileResult): Receipt {
    Receipt("boot-file-commit-verified", job.pin, job.plan.binding.bootId, job.plan.operation, file, false, true,
            false, false)
  }

  const APPLIED := FileResult("applied", "/boot/firmware/config.txt")

  /** A reply; `Other` is any other kind, field set or field type. */
  datatype Body = Progress(range: Range, done: int, total: int)
                | Prepared(pin: string, binding: Binding)
                | Unmounted(pin: string, bootId: string)
                | Complete(result: Receipt)
                | Other

  datatype Message = Message(attempt: string, body: Body)

  datatype Phase = Hashing | Awaiting | Committing | Checking | Finished

  datatype Error = AnotherAttempt | UnexpectedProgress | InvalidProgress | PreparedDiffers | MissingProgress
                 | UnmountDiffers | CompletionDiffers | UnknownMessage | WrongPhase

  datatype Host = Host(phase: Phase, progress: map<Range, int>, result: Option<Receipt>) {
    predicate MayRenew() {
      phase.Hashing? || phase.Checking?
    }

    function Seen(range: Range): int {
      if range in progress then progress[range] else 0
    }

    predicate Covered(plan: Plan, range: Range) {
      plan.Bytes(range) != 0 ==> range in progress && progress[range] == plan.Bytes(range)
    }

    /** The prefix is hashed before the commit only. */
    predicate Covers(plan: Plan, first: bool) {
      Covered(plan, Root) && (first ==> Covered(plan, Prefix)) && Covered(plan, Suffix)
    }
  }

  const FRESH := Host(Hashing, map[], None)

  /** The ranges hashed before the commit, and again after it. */
  predicate Hashed(first: bool, range: Range) {
    first || !range.Prefix?
  }

  function Consume(job: Job, h: Host, m: Message): Result<Host, Error> {
    if m.attempt != job.attempt then Err(AnotherAttempt)
    else
      match m.body
      case Progress(range, done, total) =>
        if !h.MayRenew() || !Hashed(h.phase.Hashing?, range) then Err(UnexpectedProgress)
        else if total != job.plan.Bytes(range) || !(h.Seen(range) < done <= total) then Err(InvalidProgress)
        else Ok(h.(progress := h.progress[range := done]))
      case Prepared(pin, binding) =>
        if !h.phase.Hashing? || pin != job.pin || binding != job.plan.binding then Err(PreparedDiffers)
        else if !h.Covers(job.plan, true) then Err(MissingProgress)
        else Ok(h.(phase := Awaiting))
      case Unmounted(pin, bootId) =>
        if !h.phase.Committing? || pin != job.pin || bootId != job.plan.binding.bootId then Err(UnmountDiffers)
        else Ok(h.(phase := Checking, progress := map[]))
      case Complete(result) =>
        if !h.phase.Checking? || result != ReceiptFor(job, APPLIED) then Err(CompletionDiffers)
        else if !h.Covers(job.plan, false) then Err(MissingProgress)
        else Ok(h.(phase := Finished, result := Some(result)))
      case Other => Err(UnknownMessage)
  }

  function Committed(h: Host): Result<Host, Error> {
    if h.phase.Awaiting? then Ok(h.(phase := Committing)) else Err(WrongPhase)
  }

  /** The object the transport drives. */
  class Protocol {
    const job: Job
    var phase: Phase
    var progress: map<Range, int>
    var result: Option<Receipt>

    constructor (job: Job)
      ensures this.job == job && State() == FRESH
    {
      this.job, phase, progress, result := job, Hashing, map[], None;
    }

    function State(): Host
      reads this
    {
      Host(phase, progress, result)
    }

    method CompleteRanges(names: seq<Range>) returns (ok: bool)
      ensures ok <==> forall k :: 0 <= k < |names| ==> State().Covered(job.plan, names[k])
    {
      for i := 0 to |names|
        invariant forall k :: 0 <= k < i ==> State().Covered(job.plan, names[k])
      {
        var length := job.plan.Bytes(names[i]);
        if length != 0 && (names[i] !in progress || progress[names[i]] != length) {
          return false;
        }
      }
      return true;
    }

    /** A reply either moves the machine or is refused and leaves it as it was. */
    method Take(m: Message) returns (r: Result<Body, Error>)
      modifies this
      ensures var next := Consume(job, old(State()), m);
        && State() == (if next.Ok? then next.value else old(State()))
        && r == if next.Ok? then Ok(m.body) else Err(next.error)
    {
      if m.attempt != job.attempt {
        return Err(AnotherAttempt);
      }
      match m.body {
        case Progress(range, done, total) =>
          var names := if phase.Hashing? then [Root, Prefix, Suffix] else [Root, Suffix];
          if !(phase.Hashing? || phase.Checking?) || range !in names {
            return Err(UnexpectedProgress);
          }
          var seen := if range in progress then progress[range] else 0;
          if total != job.plan.Bytes(range) || !(seen < done <= total) {
            return Err(InvalidProgress);
          }
          progress := progress[range := done];
        case Prepared(pin, binding) =>
          if !phase.Hashing? || pin != job.pin || binding != job.plan.binding {
            return Err(PreparedDiffers);
          }
          var names := [Root, Prefix, Suffix];
          var covered := CompleteRanges(names);
          assert covered <==> State().Covered(job.plan, names[0]) && State().Covered(job.plan, names[1])
                              && State().Covered(job.plan, names[2]);
          if !covered {
            return Err(MissingProgress);
          }
          phase := Awaiting;
        case Unmounted(pin, bootId) =>
          if !phase.Committing? || pin != job.pin || bootId != job.plan.binding.bootId {
            return Err(UnmountDiffers);
          }
          phase, progress := Checking, map[];
        case Complete(receipt) =>
          if !phase.Checking? || receipt != ReceiptFor(job, APPLIED) {
            return Err(CompletionDiffers);
          }
          var names := [Root, Suffix];
          var covered := CompleteRanges(names);
          assert covered <==> State().Covered(job.plan, names[0]) && State().Covered(job.plan, names[1]);
          if !covered {
            return Err(MissingProgress);
          }
          phase, result := Finished, Some(receipt);
        case Other => return Err(UnknownMessage);
      }
      return Ok(m.body);
    }

    method Commit() returns (r: Result<(), Error>)
      modifies this`phase
      ensures var next := Committed(old(State()));
        && State() == (if next.Ok? then next.value else old(State()))
        && r.Ok? == next.Ok?
    {
      if !phase.Awaiting? {
        return Err(WrongPhase);
      }
      phase := Committing;
      return Ok(());
    }
  }

  // ----- Which traces the machine accepts -----

  datatype Event = Receive(message: Message) | Commit

  function Step(job: Job, h: Host, e: Event): Result<Host, Error> {
    match e
    case Receive(m) => Consume(job, h, m)
    case Commit => Committed(h)
  }

  /** Fold of the events; the last one is the outermost. */
  function Run(job: Job, h: Host, events: seq<Event>): Result<Host, Error>
    decreases |events|
  {
    if events == [] then Ok(h)
    else
      var before := Run(job, h, events[..|events| - 1]);
      if before.Err? then before else Step(job, before.value, events[|events| - 1])
  }

  /** The positions reported for one range, in order. */
  function DoneOf(events: seq<Event>, range: Range): seq<int>
    decreases |events|
  {
    if events == [] then []
    else
      var e := events[|events| - 1];
      DoneOf(events[..|events| - 1], range)
      + if e.Receive? && e.message.body.Progress? && e.message.body.range == range then [e.message.body.done] else []
  }

  /** Strictly rising positions within a range of `total` bytes. */
  ghost predicate Rising(s: seq<int>, total: nat) {
    && (forall i :: 0 <= i < |s| ==> 0 < s[i] <= total)
    && (forall i, j :: 0 <= i < j < |s| ==> s[i] < s[j])
  }

  /** Positions that reach the end of a nonempty range. */
  ghost predicate Climbs(s: seq<int>, total: nat) {
    Rising(s, total) && (total != 0 ==> s != [] && s[|s| - 1] == total)
  }

  predicate Reports(job: Job, e: Event, first: bool) {
    && e.Receive? && e.message.attempt == job.attempt && e.message.body.Progress?
    && Hashed(first, e.message.body.range) && e.message.body.total == job.plan.Bytes(e.message.body.range)
  }

  ghost predicate RisesIn(job: Job, events: seq<Event>, range: Range) {
    Rising(DoneOf(events, range), job.plan.Bytes(range))
  }

  ghost predicate ClimbsIn(job: Job, events: seq<Event>, range: Range) {
    Climbs(DoneOf(events, range), job.plan.Bytes(range))
  }

  ghost predicate AllReports(job: Job, events: seq<Event>, first: bool) {
    forall i :: 0 <= i < |events| ==> Reports(job, events[i], first)
  }

  /** Progress reports, rising in each range. */
  ghost predicate Partial(job: Job, events: seq<Event>, first: bool) {
    && AllReports(job, events, first)
    && RisesIn(job, events, Root) && RisesIn(job, events, Prefix) && RisesIn(job, events, Suffix)
  }

  /** Progress reports that cover the ranges of their pass. */
  ghost predicate Hashes(job: Job, events: seq<Event>, first: bool) {
    && Partial(job, events, first)
    && ClimbsIn(job, events, Root) && (first ==> ClimbsIn(job, events, Prefix)) && ClimbsIn(job, events, Suffix)
  }

  function PreparedEvent(job: Job): Event {
    Receive(Message(job.attempt, Prepared(job.pin, job.plan.binding)))
  }

  function UnmountedEvent(job: Job): Event {
    Receive(Message(job.attempt, Unmounted(job.pin, job.plan.binding.bootId)))
  }

  function CompleteEvent(job: Job, file: FileResult): Event {
    Receive(Message(job.attempt, Complete(ReceiptFor(job, file))))
  }

  /** A whole conversation: hash everything, commit, unmount, hash again, finish. */
  function Whole(job: Job, first: seq<Event>, second: seq<Event>, file: FileResult): seq<Event> {
    Opening(job, first) + second + [CompleteEvent(job, file)]
  }

  function Opening(job: Job, first: seq<Event>): seq<Event> {
    first + [PreparedEvent(job)] + [Commit] + [UnmountedEvent(job)]
  }

  ghost predicate TracksIn(h: Host, events: seq<Event>, range: Range) {
    var s := DoneOf(events, range);
    (range in h.progress <==> s != []) && (range in h.progress ==> h.progress[range] == s[|s| - 1])
  }

  /** The progress table holds the last position of every range. */
  ghost predicate Tracks(h: Host, events: seq<Event>) {
    TracksIn(h, events, Root) && TracksIn(h, events, Prefix) && TracksIn(h, events, Suffix)
  }

  lemma RunSnoc(job: Job, h: Host, events: seq<Event>, e: Event)
    ensures Run(job, h, events + [e])
         == if Run(job, h, events).Ok? then Step(job, Run(job, h, events).value, e) else Run(job, h, events)
  {
    assert (events + [e])[..|events|] == events;
  }

  lemma DoneSnoc(events: seq<Event>, e: Event, range: Range)
    ensures DoneOf(events + [e], range)
         == DoneOf(events, range)
            + if e.Receive? && e.message.body.Progress? && e.message.body.range == range then [e.message.body.done]
              else []
  {
    assert (events + [e])[..|events|] == events;
  }

  lemma RisingSnoc(s: seq<int>, done: int, total: nat)
    requires Rising(s, total)
    ensures Rising(s + [done], total) <==> (if s == [] then 0 else s[|s| - 1]) < done <= total
  {
    var t := s + [done];
    if s != [] {
      assert t[|s| - 1] == s[|s| - 1] && t[|s|] == done;
    }
    if (if s == [] then 0 else s[|s| - 1]) < done <= total {
      forall i, j | 0 <= i < j < |t| ensures t[i] < t[j] {
        assert j == |s| ==> t[i] == s[i];
      }
    } else {
      assert t[|s|] == done;
    }
  }

  lemma RisingPrefix(s: seq<int>, more: seq<int>, total: nat)
    requires Rising(s + more, total)
    ensures Rising(s, total)
  {
    forall i | 0 <= i < |s| ensures 0 < s[i] <= total {
      assert (s + more)[i] == s[i];
    }
    forall i, j | 0 <= i < j < |s| ensures s[i] < s[j] {
      assert (s + more)[i] == s[i] && (s + more)[j] == s[j];
    }
  }

  lemma ReportHere(job: Job, h: Host, events: seq<Event>, e: Event)
    requires e.Receive? && e.message.body.Progress? && e.message.body.total == job.plan.Bytes(e.message.body.range)
    requires TracksIn(h, events, e.message.body.range) && RisesIn(job, events, e.message.body.range)
    ensures var range, done := e.message.body.range, e.message.body.done;
      && (RisesIn(job, events + [e], range) <==> h.Seen(range) < done <= job.plan.Bytes(range))
      && TracksIn(h.(progress := h.progress[range := done]), events + [e], range)
  {
    var range, done := e.message.body.range, e.message.body.done;
    DoneSnoc(events, e, range);
    RisingSnoc(DoneOf(events, range), done, job.plan.Bytes(range));
  }

  lemma ReportElsewhere(job: Job, h: Host, events: seq<Event>, e: Event, range: Range)
    requires e.Receive? && e.message.body.Progress? && e.message.body.range != range
    requires TracksIn(h, events, range) && RisesIn(job, events, range)
    ensures RisesIn(job, events + [e], range)
    ensures TracksIn(h.(progress := h.progress[e.message.body.range := e.message.body.done]), events + [e], range)
  {
    DoneSnoc(events, e, range);
    assert DoneOf(events, range) + [] == DoneOf(events, range);
  }

  lemma ReportRange(job: Job, h: Host, events: seq<Event>, e: Event, range: Range)
    requires TracksIn(h, events, range) && RisesIn(job, events, range)
    requires e.Receive? && e.message.body.Progress? && e.message.body.total == job.plan.Bytes(e.message.body.range)
    ensures var done := e.message.body.done;
      RisesIn(job, events + [e], range)
      <==> (e.message.body.range == range ==> h.Seen(range) < done <= job.plan.Bytes(range))
    ensures TracksIn(h.(progress := h.progress[e.message.body.range := e.message.body.done]), events + [e], range)
  {
    if e.message.body.range == range {
      ReportHere(job, h, events, e);
    } else {
      ReportElsewhere(job, h, events, e, range);
    }
  }

  /** One more report keeps the reports rising exactly when the machine takes it. */
  lemma ReportStep(job: Job, h: Host, events: seq<Event>, e: Event, first: bool)
    requires h.MayRenew() && first == h.phase.Hashing?
    requires Partial(job, events, first) && Tracks(h, events) && Reports(job, e, first)
    ensures Partial(job, events + [e], first) <==> Step(job, h, e).Ok?
    ensures var next := Step(job, h, e);
      next.Ok? ==> Tracks(next.value, events + [e]) && next.value == h.(progress := next.value.progress)
  {
    ReportRange(job, h, events, e, Root);
    ReportRange(job, h, events, e, Prefix);
    ReportRange(job, h, events, e, Suffix);
    assert AllReports(job, events + [e], first);
  }

  /** Rising reports are all accepted. */
  lemma {:induction false} ReportsAccepted(job: Job, h: Host, events: seq<Event>, first: bool)
    requires h.MayRenew() && first == h.phase.Hashing? && h.progress == map[]
    requires Partial(job, events, first)
    ensures var end := Run(job, h, events);
      end.Ok? && end.value == h.(progress := end.value.progress) && Tracks(end.value, events)
    decreases |events|
  {
    if events == [] {
    } else {
      var n := |events| - 1;
      var before, e := events[..n], events[n];
      assert events == before + [e];
      PartialPrefix(job, before, e, first);
      ReportsAccepted(job, h, before, first);
      ReportStep(job, Run(job, h, before).value, before, e, first);
      RunSnoc(job, h, before, e);
    }
  }

  lemma PrefixRange(job: Job, events: seq<Event>, e: Event, range: Range)
    requires RisesIn(job, events + [e], range)
    ensures RisesIn(job, events, range)
  {
    DoneSnoc(events, e, range);
    assert DoneOf(events, range) + [] == DoneOf(events, range);
    if DoneOf(events + [e], range) != DoneOf(events, range) {
      RisingPrefix(DoneOf(events, range), [e.message.body.done], job.plan.Bytes(range));
    }
  }

  lemma PartialPrefix(job: Job, events: seq<Event>, e: Event, first: bool)
    requires Partial(job, events + [e], first)
    ensures Partial(job, events, first) && Reports(job, e, first)
  {
    forall i | 0 <= i < |events| ensures Reports(job, events[i], first) {
      assert (events + [e])[i] == events[i];
    }
    assert (events + [e])[|events|] == e;
    PrefixRange(job, events, e, Root);
    PrefixRange(job, events, e, Prefix);
    PrefixRange(job, events, e, Suffix);
  }

  lemma CoveredIffClimbed(job: Job, h: Host, events: seq<Event>, range: Range)
    requires RisesIn(job, events, range) && TracksIn(h, events, range)
    ensures h.Covered(job.plan, range) <==> ClimbsIn(job, events, range)
  {
  }

  /** The ranges are covered exactly when every nonempty one has been climbed. */
  lemma CoversIffClimbed(job: Job, h: Host, events: seq<Event>, first: bool)
    requires Partial(job, events, first) && Tracks(h, events)
    ensures h.Covers(job.plan, first) <==> Hashes(job, events, first)
  {
    CoveredIffClimbed(job, h, events, Root);
    CoveredIffClimbed(job, h, events, Prefix);
    CoveredIffClimbed(job, h, events, Suffix);
  }

  lemma {:induction false} RunAppend(job: Job, h: Host, a: seq<Event>, b: seq<Event>)
    requires Run(job, h, a).Ok?
    ensures Run(job, h, a + b) == Run(job, Run(job, h, a).value, b)
    decreases |b|
  {
    if b == [] {
      assert a + b == a;
    } else {
      var n := |b| - 1;
      assert (a + b)[..|a| + n] == a + b[..n];
      RunAppend(job, h, a, b[..n]);
    }
  }

  /** Every conversation of that shape is accepted and ends complete, when the file was applied. */
  lemma Accepts(job: Job, first: seq<Event>, second: seq<Event>)
    requires Hashes(job, first, true) && Hashes(job, second, false)
    ensures Run(job, FRESH, Opening(job, first)) == Ok(Host(Checking, map[], None))
    ensures var end := Run(job, FRESH, Whole(job, first, second, APPLIED));
      end.Ok? && end.value.phase.Finished? && end.value.result == Some(ReceiptFor(job, APPLIED))
  {
    OpeningAccepted(job, first);
    var checking := Host(Checking, map[], None);
    ReportsAccepted(job, checking, second, false);
    CoversIffClimbed(job, Run(job, checking, second).value, second, false);
    RunAppend(job, FRESH, Opening(job, first), second);
    RunSnoc(job, FRESH, Opening(job, first) + second, CompleteEvent(job, APPLIED));
  }

  lemma OpeningAccepted(job: Job, first: seq<Event>)
    requires Hashes(job, first, true)
    ensures Run(job, FRESH, Opening(job, first)) == Ok(Host(Checking, map[], None))
  {
    ReportsAccepted(job, FRESH, first, true);
    CoversIffClimbed(job, Run(job, FRESH, first).value, first, true);
    RunSnoc(job, FRESH, first, PreparedEvent(job));
    RunSnoc(job, FRESH, first + [PreparedEvent(job)], Commit);
    RunSnoc(job, FRESH, first + [PreparedEvent(job)] + [Commit], UnmountedEvent(job));
  }

  /** The shape of an accepted trace, phase by phase. */
  ghost predicate Explains(job: Job, events: seq<Event>, h: Host, first: seq<Event>, second: seq<Event>) {
    match h.phase
    case Hashing => events == first && Partial(job, first, true) && Tracks(h, first)
    case Awaiting => events == first + [PreparedEvent(job)] && Hashes(job, first, true)
    case Committing => events == first + [PreparedEvent(job)] + [Commit] && Hashes(job, first, true)
    case Checking =>
      && events == Opening(job, first) + second && Hashes(job, first, true)
      && Partial(job, second, false) && Tracks(h, second)
    case Finished =>
      && events == Whole(job, first, second, APPLIED) && Hashes(job, first, true) && Hashes(job, second, false)
  }

  lemma ExplainStep(job: Job, events: seq<Event>, h: Host, first: seq<Event>, second: seq<Event>, e: Event)
    returns (first': seq<Event>, second': seq<Event>)
    requires Explains(job, events, h, first, second) && Step(job, h, e).Ok?
    ensures Explains(job, events + [e], Step(job, h, e).value, first', second')
  {
    first', second' := first, second;
    match h.phase {
      case Hashing =>
        if e.message.body.Progress? {
          ReportStep(job, h, first, e, true);
          first' := first + [e];
        } else {
          CoversIffClimbed(job, h, first, true);
        }
      case Awaiting =>
      case Committing =>
        second' := [];
        assert Opening(job, first) + [] == Opening(job, first);
      case Checking =>
        if e.message.body.Progress? {
          ReportStep(job, h, second, e, false);
          second' := second + [e];
          assert Opening(job, first) + second + [e] == Opening(job, first) + (second + [e]);
        } else {
          CoversIffClimbed(job, h, second, false);
        }
      case Finished =>
    }
  }

  /** Whatever the machine accepts up to completion has exactly that shape. */
  lemma {:induction false} OnlyAccepts(job: Job, events: seq<Event>) returns (first: seq<Event>, second: seq<Event>)
    requires Run(job, FRESH, events).Ok?
    ensures Explains(job, events, Run(job, FRESH, events).value, first, second)
    decreases |events|
  {
    if events == [] {
      first, second := [], [];
    } else {
      var n := |events| - 1;
      first, second := OnlyAccepts(job, events[..n]);
      assert events == events[..n] + [events[n]];
      first, second := ExplainStep(job, events[..n], Run(job, FRESH, events[..n]).value, first, second, events[n]);
    }
  }
}
