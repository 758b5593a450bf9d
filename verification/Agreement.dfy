/** Host journal and target ledger as one distributed system.

    The host sends requests that the transport may deliver arbitrarily late, any number of
    times or never; replies may be lost; either side may stop between any two durable writes.
    `base` marks where the newest group of the history begins.
 */
module Agreement {
  import opened Wrappers
  import opened Ledger
  import opened Journal
  import LR = LedgerRuns

  datatype Host = Idle | Dispatching(intent: Intent) | Fencing(intent: Intent)

  datatype System = System(
    plan: Plan,
    events: seq<Event>,
    resolutions: Resolutions,
    host: Host,
    base: nat,
    runsSent: set<Request>,
    fencesSent: set<Request>,
    runReplies: set<(string, Value)>,
    fenceReplies: set<FenceReply>,
    target: LR.Target)

  datatype Action =
    | DispatchBegins(direction: Direction, nonce: string, fate: Fate)
    | SendRun
    | AcknowledgementArrives(value: Value, ackFate: Fate, uncertainFate: Fate)
    | DispatchFails(fate: Fate)
    | ReconcileBegins(fate: Fate)
    | SendFence
    | FenceReplyArrives(reply: FenceReply, fate: Fate)
    | HostStops
    | TargetActs(action: LR.Action)

  function Initial(plan: Plan): System {
    System(plan, [], map[], Idle, 0, {}, {}, {}, {}, LR.EMPTY)
  }

  /** Nonces are fresh random tokens. */
  predicate Fresh(events: seq<Event>, nonce: string) {
    forall i :: 0 <= i < |events| && events[i].Dispatched? ==> events[i].intent.nonce != nonce
  }

  function BeginDispatch(s: System, direction: Direction, nonce: string, fate: Fate): System {
    var verdict := Check(s.events, s.resolutions, s.plan, false);
    if !s.host.Idle? || !Hex(nonce, 32) || !Fresh(s.events, nonce)
       || !verdict.Agreed? || verdict.previous == direction then s
    else
      var intent := Intent(direction, nonce);
      var begun := Append(s.events, Dispatched(intent), fate);
      s.(events := begun, base := if begun == s.events then s.base else |s.events|,
         host := if fate.Written? then Dispatching(intent) else Idle)
  }

  function FinishDispatch(s: System, value: Value, ackFate: Fate, uncertainFate: Fate): System {
    if s.host.Dispatching? && (s.host.intent.nonce, value) in s.runReplies
       && value == Report(Acknowledge(s.plan, s.host.intent)) then
      s.(events := AfterAcknowledgement(s.events, s.host.intent, value, ackFate, uncertainFate), host := Idle)
    else s
  }

  function FailDispatch(s: System, fate: Fate): System {
    if s.host.Dispatching? then s.(events := Append(s.events, Uncertain(s.host.intent), fate), host := Idle) else s
  }

  function BeginReconcile(s: System, fate: Fate): System {
    var verdict := Check(s.events, s.resolutions, s.plan, true);
    if !s.host.Idle? || !verdict.Waiting? then s
    else if |s.events| % 2 == 1 then
      s.(events := Append(s.events, Uncertain(verdict.intent), fate),
         host := if fate.Written? then Fencing(verdict.intent) else Idle)
    else s.(host := Fencing(verdict.intent))
  }

  function FinishReconcile(s: System, reply: FenceReply, fate: Fate): System {
    if !s.host.Fencing? || reply !in s.fenceReplies then s
    else match FenceChecked(reply, s.plan, s.host.intent)
      case None => s.(host := Idle)
      case Some(IsIncomplete) => s.(host := Idle)
      case Some(_) => s.(resolutions := Resolve(s.resolutions, s.host.intent.nonce, reply, fate), host := Idle)
  }

  /** The target only sees requests that were sent; what it answers becomes a reply in flight. */
  function ActTarget(s: System, action: LR.Action): System {
    match action
    case Fence(nonce, request, fate) =>
      if request !in s.fencesSent || s.target.active.Some? then s
      else
        var acted := s.(target := LR.Step(s.target, action));
        var answer := FenceCall(s.target.files, nonce, request, fate).1;
        if answer.Ok? then
          acted.(fenceReplies := s.fenceReplies + {FenceReply(nonce, s.plan.digest, s.plan.machine, answer.value)})
        else acted
    case Run(nonce, request, fate) =>
      if request !in s.runsSent || s.target.active.Some? then s
      else
        var acted := s.(target := LR.Step(s.target, action));
        var admission := Admit(s.target.files, nonce, request);
        if admission.Replay? then acted.(runReplies := s.runReplies + {(nonce, admission.result)}) else acted
    case WriteReceipt(fate) =>
      var acted := s.(target := LR.Step(s.target, action));
      if s.target.active.Some? && s.target.active.value.stage.Returned? && fate.Written? then
        var active := s.target.active.value;
        acted.(runReplies := s.runReplies + {(active.request.nonce, active.stage.result)})
      else acted
    case _ => s.(target := LR.Step(s.target, action))
  }

  function Next(s: System, a: Action): System {
    match a
    case DispatchBegins(direction, nonce, fate) => BeginDispatch(s, direction, nonce, fate)
    case SendRun =>
      if s.host.Dispatching? then s.(runsSent := s.runsSent + {RequestOf(s.plan, s.host.intent)}) else s
    case AcknowledgementArrives(value, ackFate, uncertainFate) => FinishDispatch(s, value, ackFate, uncertainFate)
    case DispatchFails(fate) => FailDispatch(s, fate)
    case ReconcileBegins(fate) => BeginReconcile(s, fate)
    case SendFence =>
      if s.host.Fencing? then s.(fencesSent := s.fencesSent + {RequestOf(s.plan, s.host.intent)}) else s
    case FenceReplyArrives(reply, fate) => FinishReconcile(s, reply, fate)
    case HostStops => s.(host := Idle)
    case TargetActs(action) => ActTarget(s, action)
  }

  function Execute(s: System, actions: seq<Action>): System
    decreases actions
  {
    if actions == [] then s else Execute(Next(s, actions[0]), actions[1..])
  }

  // ----- What the settled part of a history says -----

  /** The requests that the groups before `n` record as completed, oldest first. */
  ghost function Done(events: seq<Event>, n: nat, resolutions: Resolutions, plan: Plan): seq<Request>
    requires n % 2 == 0 && n <= |events|
    requires forall i :: 0 <= i < n && i % 2 == 0 ==> events[i].Dispatched?
  {
    if n == 0 then []
    else
      var intent := events[n - 2].intent;
      Done(events, n - 2, resolutions, plan)
      + if CountsAsDone(events[n - 1], intent, resolutions) then [RequestOf(plan, intent)] else []
  }

  ghost predicate CountsAsDone(outcome: Event, intent: Intent, resolutions: Resolutions) {
    || outcome.Acknowledged?
    || (intent.nonce in resolutions && resolutions[intent.nonce].Resolved?
        && resolutions[intent.nonce].reply.outcome.Completed?)
  }

  ghost predicate Alternates(requests: seq<Request>) {
    && (requests != [] ==> requests[0].direction == Apply)
    && (forall i :: 0 <= i < |requests| - 1 ==> requests[i].direction != requests[i + 1].direction)
  }

  function LastDirection(requests: seq<Request>): Direction {
    if requests == [] then Restore else requests[|requests| - 1].direction
  }

  lemma {:induction false} AgreedShape(events: seq<Event>, n: nat, resolutions: Resolutions, plan: Plan, mayWait: bool)
    requires n % 2 == 0 && n <= |events| && CheckTo(events, n, resolutions, plan, mayWait).Agreed?
    ensures forall i :: 0 <= i < n && i % 2 == 0 ==> events[i].Dispatched?
    decreases n
  {
    if n > 0 {
      AgreedShape(events, n - 2, resolutions, plan, mayWait);
    }
  }

  /** The returned direction is that of the last completed group, and completed groups alternate. */
  lemma {:induction false} AgreedMeansDone(events: seq<Event>, n: nat, resolutions: Resolutions, plan: Plan,
                                           mayWait: bool)
    requires n % 2 == 0 && n <= |events| && CheckTo(events, n, resolutions, plan, mayWait).Agreed?
    ensures forall i :: 0 <= i < n && i % 2 == 0 ==> events[i].Dispatched?
    ensures CheckTo(events, n, resolutions, plan, mayWait).previous == LastDirection(Done(events, n, resolutions, plan))
    ensures Alternates(Done(events, n, resolutions, plan))
    decreases n
  {
    AgreedShape(events, n, resolutions, plan, mayWait);
    if n > 0 {
      AgreedMeansDone(events, n - 2, resolutions, plan, mayWait);
    }
  }

  /** The resolutions of the groups before `n` are the same in both maps. */
  ghost predicate SameResolutions(events: seq<Event>, n: nat, resolutions: Resolutions, resolutions': Resolutions)
    requires n <= |events|
  {
    forall i :: 0 <= i < n && events[i].Dispatched? ==> SameAt(events[i].intent.nonce, resolutions, resolutions')
  }

  ghost predicate SameAt(nonce: string, resolutions: Resolutions, resolutions': Resolutions) {
    && (nonce in resolutions <==> nonce in resolutions')
    && (nonce in resolutions ==> resolutions[nonce] == resolutions'[nonce])
  }

  lemma GroupFrame(events: seq<Event>, events': seq<Event>, at: nat, previous: Direction, resolutions: Resolutions,
                   resolutions': Resolutions, plan: Plan, mayWait: bool, mayWait': bool)
    requires at + 1 < |events| && at + 1 < |events'| && events[at] == events'[at] && events[at + 1] == events'[at + 1]
    requires events[at].Dispatched? ==> SameAt(events[at].intent.nonce, resolutions, resolutions')
    requires CheckGroup(events, at, previous, resolutions, plan, mayWait).Agreed?
    ensures CheckGroup(events', at, previous, resolutions', plan, mayWait')
         == CheckGroup(events, at, previous, resolutions, plan, mayWait)
    ensures CountsAsDone(events'[at + 1], events'[at].intent, resolutions')
         == CountsAsDone(events[at + 1], events[at].intent, resolutions)
  {
  }

  /** Settled groups keep their verdict when events are appended and when a resolution for
      another nonce appears. */
  lemma {:induction false} CheckFrame(events: seq<Event>, events': seq<Event>, n: nat, resolutions: Resolutions,
                                      resolutions': Resolutions, plan: Plan, mayWait: bool, mayWait': bool)
    requires n % 2 == 0 && n <= |events| && n <= |events'| && events[..n] == events'[..n]
    requires SameResolutions(events, n, resolutions, resolutions')
    requires CheckTo(events, n, resolutions, plan, mayWait).Agreed?
    ensures CheckTo(events', n, resolutions', plan, mayWait') == CheckTo(events, n, resolutions, plan, mayWait)
    ensures forall i :: 0 <= i < n && i % 2 == 0 ==> events[i].Dispatched? && events'[i].Dispatched?
    ensures Done(events', n, resolutions', plan) == Done(events, n, resolutions, plan)
    decreases n
  {
    AgreedShape(events, n, resolutions, plan, mayWait);
    if n > 0 {
      assert events[n - 2] == events[..n][n - 2] == events'[n - 2];
      assert events[n - 1] == events[..n][n - 1] == events'[n - 1];
      assert events[..n - 2] == events[..n][..n - 2] == events'[..n - 2];
      CheckFrame(events, events', n - 2, resolutions, resolutions', plan, mayWait, mayWait');
      GroupFrame(events, events', n - 2, CheckTo(events, n - 2, resolutions, plan, mayWait).previous,
                 resolutions, resolutions', plan, mayWait, mayWait');
      AgreedShape(events', n, resolutions', plan, mayWait');
    }
  }

  // ----- The invariant -----

  /** How the newest group can look. */
  datatype Shape = NoGroup | TornHead | Headed | Acked | Unsure | TornTail | AckedTorn | AckedUnsure {
    predicate HasIntent() {
      !NoGroup? && !TornHead?
    }

    predicate HasAcknowledgement() {
      Acked? || AckedTorn? || AckedUnsure?
    }

    predicate HasTear() {
      TornHead? || TornTail? || AckedTorn?
    }
  }

  ghost function ShapeOf(events: seq<Event>, base: nat): Option<Shape> {
    if |events| == base then Some(NoGroup)
    else if |events| < base then None
    else if |events| == base + 1 && events[base].TornEvent? then Some(TornHead)
    else if !events[base].Dispatched? then None
    else if |events| == base + 1 then Some(Headed)
    else if |events| == base + 2 then
      match events[base + 1]
      case TornEvent => Some(TornTail)
      case Acknowledged(intent, _) => if intent == events[base].intent then Some(Acked) else None
      case Uncertain(intent) => if intent == events[base].intent then Some(Unsure) else None
      case Dispatched(_) => None
    else if |events| == base + 3 && events[base + 1].Acknowledged?
            && events[base + 1].intent == events[base].intent then
      if events[base + 2].TornEvent? then Some(AckedTorn)
      else if events[base + 2] == Uncertain(events[base].intent) then Some(AckedUnsure)
      else None
    else None
  }

  ghost predicate KnownNonce(events: seq<Event>, nonce: string) {
    Dispatched(Intent(Apply, nonce)) in events || Dispatched(Intent(Restore, nonce)) in events
  }

  ghost predicate KnownRequest(events: seq<Event>, plan: Plan, request: Request) {
    request.plan == plan.digest && Dispatched(Intent(request.direction, request.nonce)) in events
  }

  /** The part before `base` is readable and settled. */
  ghost predicate Grounded(events: seq<Event>, base: nat, resolutions: Resolutions, plan: Plan) {
    && base % 2 == 0 && base <= |events|
    && Readable(events[..base])
    && CheckTo(events, base, resolutions, plan, false).Agreed?
  }

  ghost predicate Positions(events: seq<Event>, base: nat) {
    && ShapeOf(events, base).Some?
    && (|events| == base ==> base == 0)
    && (forall i :: 0 <= i < |events| && events[i].Dispatched? ==> i <= base && i % 2 == 0)
  }

  ghost predicate DistinctNonces(events: seq<Event>) {
    forall i, j :: 0 <= i < j < |events| && events[i].Dispatched? && events[j].Dispatched? ==>
      events[i].intent.nonce != events[j].intent.nonce
  }

  ghost predicate ResolutionsKnown(events: seq<Event>, resolutions: Resolutions) {
    forall nonce :: nonce in resolutions ==> KnownNonce(events, nonce)
  }

  ghost predicate HistoryInv(s: System) {
    && Grounded(s.events, s.base, s.resolutions, s.plan)
    && Positions(s.events, s.base)
    && DistinctNonces(s.events)
    && ResolutionsKnown(s.events, s.resolutions)
  }

  ghost predicate Settles(status: Option<Status>) {
    status == Some(IsCompleted) || status == Some(IsFenced)
  }

  /** What the host process is doing fits the newest group. */
  ghost predicate HostInv(host: Host, events: seq<Event>, base: nat, resolutions: Resolutions) {
    && (host.Dispatching? ==>
          ShapeOf(events, base) == Some(Headed) && host.intent == events[base].intent)
    && (host.Fencing? ==>
          ShapeOf(events, base) == Some(Unsure) && host.intent == events[base].intent
          && host.intent.nonce !in resolutions)
  }

  /** The newest group follows the settled part, and only a fence answer resolves it. */
  ghost predicate NewestInv(events: seq<Event>, base: nat, resolutions: Resolutions, plan: Plan)
    requires Grounded(events, base, resolutions, plan)
  {
    ShapeOf(events, base).Some? && ShapeOf(events, base).value.HasIntent() ==>
      var intent := events[base].intent;
      && Hex(intent.nonce, 32)
      && CheckTo(events, base, resolutions, plan, false).previous != intent.direction
      && (intent.nonce in resolutions ==> ShapeOf(events, base).value.Unsure?)
      && (intent.nonce in resolutions && resolutions[intent.nonce].Resolved? ==>
            Settles(FenceChecked(resolutions[intent.nonce].reply, plan, intent)))
      && (ShapeOf(events, base).value.HasAcknowledgement() ==>
            events[base + 1].result == Report(Acknowledge(plan, intent)))
  }

  /** What the newest group records was really answered by the target. */
  ghost predicate NewestGrounded(events: seq<Event>, base: nat, resolutions: Resolutions,
                                 runReplies: set<(string, Value)>, fenceReplies: set<FenceReply>)
  {
    ShapeOf(events, base).Some? && ShapeOf(events, base).value.HasIntent() ==>
      var nonce := events[base].intent.nonce;
      && (nonce in resolutions && resolutions[nonce].Resolved? ==> resolutions[nonce].reply in fenceReplies)
      && (ShapeOf(events, base).value.HasAcknowledgement() ==> (nonce, events[base + 1].result) in runReplies)
  }

  ghost predicate GroupInv(s: System)
    requires HistoryInv(s)
  {
    && HostInv(s.host, s.events, s.base, s.resolutions)
    && NewestInv(s.events, s.base, s.resolutions, s.plan)
    && NewestGrounded(s.events, s.base, s.resolutions, s.runReplies, s.fenceReplies)
  }

  ghost predicate RequestsKnown(events: seq<Event>, plan: Plan, requests: set<Request>) {
    forall request :: request in requests ==> KnownRequest(events, plan, request)
  }

  ghost predicate RunRepliesHonest(replies: set<(string, Value)>, files: Files) {
    forall nonce, value :: (nonce, value) in replies ==> HasReceipt(files, nonce, value)
  }

  ghost predicate HasReceipt(files: Files, nonce: string, value: Value) {
    ReceiptName(nonce) in files && files[ReceiptName(nonce)].ReceiptRecord? && files[ReceiptName(nonce)].result == value
  }

  ghost predicate FenceRepliesHonest(replies: set<FenceReply>, files: Files) {
    forall reply :: reply in replies ==> Honest(reply, files)
  }

  ghost predicate Honest(reply: FenceReply, files: Files) {
    match reply.outcome
    case Completed(request, result) =>
      && request.nonce == reply.nonce && ReceiptName(reply.nonce) in files
      && files[ReceiptName(reply.nonce)] == ReceiptRecord(request, result) && !result.NotMapping?
    case FencedNotStarted(request) => request.nonce == reply.nonce && FenceName(reply.nonce) in files
    case Incomplete(_) => true
  }

  /** Requests in flight come from the history, and replies tell the truth about the directory. */
  ghost predicate WireInv(s: System) {
    && RequestsKnown(s.events, s.plan, s.runsSent)
    && RequestsKnown(s.events, s.plan, s.fencesSent)
    && RunRepliesHonest(s.runReplies, s.target.files)
    && FenceRepliesHonest(s.fenceReplies, s.target.files)
  }

  /** A group is answered on the target by a receipt or by a fence. */
  ghost predicate Answered(files: Files, nonce: string) {
    LR.Settled(files, nonce) || FenceName(nonce) in files
  }

  ghost predicate AllAnswered(events: seq<Event>, files: Files) {
    forall intent :: Dispatched(intent) in events ==> Answered(files, intent.nonce)
  }

  ghost predicate NamesKnown(events: seq<Event>, files: Files) {
    forall name :: name in files ==> !name.Stray? && KnownNonce(events, name.nonce)
  }

  ghost predicate ActiveKnown(active: Option<LR.Active>, runsSent: set<Request>) {
    active.Some? ==> active.value.request in runsSent
  }

  /** The effects begun are the completed groups, and at most one more: the newest intent's. */
  ghost predicate StartsMatch(starts: seq<Request>, events: seq<Event>, base: nat, resolutions: Resolutions, plan: Plan)
    requires Grounded(events, base, resolutions, plan)
  {
    var done := DoneBefore(events, base, resolutions, plan);
    || starts == done
    || (base < |events| && events[base].Dispatched? && starts == done + [RequestOf(plan, events[base].intent)])
  }

  ghost function DoneBefore(events: seq<Event>, base: nat, resolutions: Resolutions, plan: Plan): seq<Request>
    requires Grounded(events, base, resolutions, plan)
  {
    AgreedShape(events, base, resolutions, plan, false);
    Done(events, base, resolutions, plan)
  }

  ghost predicate TargetInv(s: System)
    requires HistoryInv(s)
  {
    && LR.Safe(s.target)
    && NamesKnown(s.events, s.target.files)
    && AllAnswered(s.events[..s.base], s.target.files)
    && ActiveKnown(s.target.active, s.runsSent)
    && StartsMatch(s.target.starts, s.events, s.base, s.resolutions, s.plan)
  }

  ghost predicate Inv(s: System) {
    HistoryInv(s) && GroupInv(s) && WireInv(s) && TargetInv(s)
  }

  // ----- What a verdict means in a reachable state -----

  /** The verdict that the shape of the newest group calls for. */
  ghost function Expected(events: seq<Event>, base: nat, resolutions: Resolutions, plan: Plan, mayWait: bool): Verdict
    requires Grounded(events, base, resolutions, plan) && Positions(events, base)
  {
    var previous := CheckTo(events, base, resolutions, plan, false).previous;
    match ShapeOf(events, base).value
    case NoGroup => Agreed(Restore)
    case Acked => Agreed(events[base].intent.direction)
    case TornHead => Rejected(UnreadableHistory)
    case TornTail => Rejected(UnreadableHistory)
    case AckedTorn => Rejected(UnreadableHistory)
    case AckedUnsure => Rejected(MalformedHistory)
    case Headed => if mayWait then Waiting(events[base].intent, previous) else Rejected(NeedsReconciliation)
    case Unsure =>
      var intent := events[base].intent;
      if intent.nonce !in resolutions then
        if mayWait then Waiting(intent, previous) else Rejected(NeedsReconciliation)
      else if resolutions[intent.nonce].TornResolution? then Rejected(UnreadableResolution)
      else if resolutions[intent.nonce].reply.outcome.Completed? then Agreed(intent.direction)
      else Agreed(previous)
  }

  lemma TornShapes(events: seq<Event>, base: nat)
    requires base <= |events| && Readable(events[..base]) && Positions(events, base)
    ensures ShapeOf(events, base).value.HasTear() <==> !Readable(events)
  {
    assert forall i :: 0 <= i < base ==> events[i] == events[..base][i];
    match ShapeOf(events, base).value
    case TornHead => assert events[base] == TornEvent;
    case TornTail => assert events[base + 1] == TornEvent;
    case AckedTorn => assert events[base + 2] == TornEvent;
    case _ =>
  }

  lemma AckedVerdict(events: seq<Event>, base: nat, resolutions: Resolutions, plan: Plan, mayWait: bool)
    requires Grounded(events, base, resolutions, plan) && Positions(events, base)
    requires NewestInv(events, base, resolutions, plan)
    requires ShapeOf(events, base).value.Acked? || ShapeOf(events, base).value.AckedUnsure?
    ensures CheckGroup(events, base, CheckTo(events, base, resolutions, plan, false).previous, resolutions, plan,
                       mayWait)
         == Agreed(events[base].intent.direction)
  {
  }

  lemma UnansweredVerdict(events: seq<Event>, base: nat, resolutions: Resolutions, plan: Plan, mayWait: bool)
    requires Grounded(events, base, resolutions, plan) && Positions(events, base)
    requires NewestInv(events, base, resolutions, plan)
    requires ShapeOf(events, base).value.Headed? || ShapeOf(events, base).value.Unsure?
    ensures CheckGroup(events, base, CheckTo(events, base, resolutions, plan, false).previous, resolutions, plan,
                       mayWait)
         == Expected(events, base, resolutions, plan, mayWait)
  {
  }

  /** In a reachable state the verdict is decided by the newest group alone. */
  lemma Verdicts(events: seq<Event>, base: nat, resolutions: Resolutions, plan: Plan, mayWait: bool)
    requires Grounded(events, base, resolutions, plan) && Positions(events, base)
    requires NewestInv(events, base, resolutions, plan)
    ensures Check(events, resolutions, plan, mayWait) == Expected(events, base, resolutions, plan, mayWait)
  {
    TornShapes(events, base);
    CheckFrame(events, events, base, resolutions, resolutions, plan, false, mayWait);
    var shape := ShapeOf(events, base).value;
    if shape.HasIntent() && !shape.HasTear() {
      if shape.Acked? || shape.AckedUnsure? {
        AckedVerdict(events, base, resolutions, plan, mayWait);
        assert CheckTo(events, base + 2, resolutions, plan, mayWait) == Agreed(events[base].intent.direction);
        assert Even(|events|) == if shape.Acked? then base + 2 else base + 4;
      } else {
        UnansweredVerdict(events, base, resolutions, plan, mayWait);
        assert Even(|events|) == base + 2;
      }
    }
  }

  /** Only an acknowledged or a resolved group lets the history agree. */
  lemma NewestCounts(events: seq<Event>, base: nat, resolutions: Resolutions, plan: Plan)
    requires Grounded(events, base, resolutions, plan) && Positions(events, base)
    requires NewestInv(events, base, resolutions, plan)
    requires Expected(events, base, resolutions, plan, false).Agreed? && base < |events|
    ensures |events| == base + 2 && events[base].Dispatched?
    ensures var intent := events[base].intent;
      if ShapeOf(events, base).value.Acked? then CountsAsDone(events[base + 1], intent, resolutions)
      else && ShapeOf(events, base).value.Unsure?
           && intent.nonce in resolutions && resolutions[intent.nonce].Resolved?
           && (CountsAsDone(events[base + 1], intent, resolutions)
               <==> resolutions[intent.nonce].reply.outcome.Completed?)
  {
  }

  lemma ReceiptSettles(target: LR.Target, nonce: string, value: Value)
    requires LR.Safe(target) && HasReceipt(target.files, nonce, value) && !value.NotMapping?
    ensures LR.Settled(target.files, nonce)
  {
  }

  lemma HonestAnswers(target: LR.Target, reply: FenceReply)
    requires LR.Safe(target) && Honest(reply, target.files) && !reply.outcome.Incomplete?
    ensures if reply.outcome.Completed? then LR.Settled(target.files, reply.nonce)
            else FenceName(reply.nonce) in target.files
  {
  }

  lemma NewestAnswered(s: System)
    requires Inv(s) && Expected(s.events, s.base, s.resolutions, s.plan, false).Agreed? && s.base < |s.events|
    ensures |s.events| == s.base + 2 && s.events[s.base].Dispatched?
    ensures if CountsAsDone(s.events[s.base + 1], s.events[s.base].intent, s.resolutions)
            then LR.Settled(s.target.files, s.events[s.base].intent.nonce)
            else FenceName(s.events[s.base].intent.nonce) in s.target.files
  {
    NewestCounts(s.events, s.base, s.resolutions, s.plan);
    if ShapeOf(s.events, s.base).value.Acked? {
      AckedAnswered(s);
    } else {
      UnsureAnswered(s, s.events[s.base].intent.nonce);
    }
  }

  lemma AckedAnswered(s: System)
    requires Inv(s) && s.base + 1 < |s.events| && s.events[s.base].Dispatched? && ShapeOf(s.events, s.base).value.Acked?
    ensures LR.Settled(s.target.files, s.events[s.base].intent.nonce)
  {
    assert (s.events[s.base].intent.nonce, s.events[s.base + 1].result) in s.runReplies;
    ReceiptSettles(s.target, s.events[s.base].intent.nonce, s.events[s.base + 1].result);
  }

  lemma UnsureAnswered(s: System, nonce: string)
    requires Inv(s) && s.base + 1 < |s.events| && s.events[s.base].Dispatched? && nonce == s.events[s.base].intent.nonce
    requires ShapeOf(s.events, s.base).value.Unsure? && nonce in s.resolutions && s.resolutions[nonce].Resolved?
    requires !s.resolutions[nonce].reply.outcome.Incomplete? && s.resolutions[nonce].reply.nonce == nonce
    ensures if s.resolutions[nonce].reply.outcome.Completed? then LR.Settled(s.target.files, nonce)
            else FenceName(nonce) in s.target.files
  {
    assert s.resolutions[nonce].reply in s.fenceReplies;
    HonestAnswers(s.target, s.resolutions[nonce].reply);
  }

  /** An agreed history has no dangling group, and the target has answered each of its groups. */
  lemma AgreedIsSettled(s: System)
    requires Inv(s) && Check(s.events, s.resolutions, s.plan, false).Agreed?
    ensures |s.events| == s.base || |s.events| == s.base + 2
    ensures CheckTo(s.events, |s.events|, s.resolutions, s.plan, false) == Check(s.events, s.resolutions, s.plan, false)
    ensures Readable(s.events)
    ensures AllAnswered(s.events, s.target.files)
  {
    Verdicts(s.events, s.base, s.resolutions, s.plan, false);
    TornShapes(s.events, s.base);
    assert Even(|s.events|) == |s.events| by {
      if s.base < |s.events| {
        NewestAnswered(s);
      }
    }
    if s.base < |s.events| {
      NewestAnswered(s);
      PairAnswered(s.events, s.base, s.target.files);
    } else {
      assert s.events == s.events[..s.base];
    }
  }

  lemma PairAnswered(events: seq<Event>, base: nat, files: Files)
    requires |events| == base + 2 && Positions(events, base) && events[base].Dispatched?
    requires AllAnswered(events[..base], files) && Answered(files, events[base].intent.nonce)
    ensures AllAnswered(events, files)
  {
    assert events == events[..base] + [events[base], events[base + 1]];
    assert !events[base + 1].Dispatched?;
  }

  lemma {:induction false} DoneFromHistory(events: seq<Event>, n: nat, resolutions: Resolutions, plan: Plan)
    requires n % 2 == 0 && n <= |events|
    requires forall i :: 0 <= i < n && i % 2 == 0 ==> events[i].Dispatched?
    ensures forall request :: request in Done(events, n, resolutions, plan) ==>
              Dispatched(Intent(request.direction, request.nonce)) in events[..n]
    decreases n
  {
    if n > 0 {
      DoneFromHistory(events, n - 2, resolutions, plan);
      assert events[..n] == events[..n - 2] + [events[n - 2], events[n - 1]];
    }
  }

  /** A nonce recorded before `base` is not the newest one. */
  lemma NewestIsNew(events: seq<Event>, base: nat, intent: Intent)
    requires DistinctNonces(events) && base < |events| && events[base].Dispatched?
    requires Dispatched(intent) in events[..base]
    ensures intent.nonce != events[base].intent.nonce
  {
    var i :| 0 <= i < base && events[..base][i] == Dispatched(intent);
    assert events[i] == Dispatched(intent);
  }

  /** Whether the newest effect has begun shows in its receipt or its fence. */
  lemma NewestBegun(s: System)
    requires Inv(s) && s.base < |s.events| && s.events[s.base].Dispatched?
    ensures LR.Settled(s.target.files, s.events[s.base].intent.nonce) ==>
              s.target.starts
              == DoneBefore(s.events, s.base, s.resolutions, s.plan) + [RequestOf(s.plan, s.events[s.base].intent)]
    ensures FenceName(s.events[s.base].intent.nonce) in s.target.files ==>
              s.target.starts == DoneBefore(s.events, s.base, s.resolutions, s.plan)
  {
    AgreedShape(s.events, s.base, s.resolutions, s.plan, false);
    var current := RequestOf(s.plan, s.events[s.base].intent);
    var done := DoneBefore(s.events, s.base, s.resolutions, s.plan);
    DoneFromHistory(s.events, s.base, s.resolutions, s.plan);
    if LR.Settled(s.target.files, current.nonce) {
      var i :| 0 <= i < |s.target.completions| && s.target.completions[i].nonce == current.nonce;
      var request := s.target.starts[i];
      assert request.nonce == current.nonce && request in s.target.starts;
      if request in done {
        NewestIsNew(s.events, s.base, Intent(request.direction, request.nonce));
      }
    }
    if s.target.starts == done + [current] {
      assert s.target.starts[|done|] == current;
      assert IntentName(current.nonce) in s.target.files;
    }
  }

  /** With every group answered, the effects begun are exactly the completed groups. */
  lemma AgreedStarts(s: System)
    requires Inv(s) && Check(s.events, s.resolutions, s.plan, false).Agreed?
    ensures |s.events| % 2 == 0
    ensures forall i :: 0 <= i < |s.events| && i % 2 == 0 ==> s.events[i].Dispatched?
    ensures s.target.starts == Done(s.events, |s.events|, s.resolutions, s.plan)
  {
    AgreedIsSettled(s);
    AgreedShape(s.events, |s.events|, s.resolutions, s.plan, false);
    if |s.events| > s.base {
      Verdicts(s.events, s.base, s.resolutions, s.plan, false);
      NewestAnswered(s);
      NewestBegun(s);
    }
  }

  lemma AnsweredIsClosed(events: seq<Event>, files: Files, nonce: string)
    requires AllAnswered(events, files) && NamesKnown(events, files) && LR.NamesSafe(files)
    ensures !LR.Open(files, nonce)
  {
    if IntentName(nonce) in files {
      assert KnownNonce(events, IntentName(nonce).nonce);
      assert Answered(files, Intent(Apply, nonce).nonce);
    }
  }

  lemma AnsweredIsDenied(files: Files, nonce: string, request: Request)
    requires Answered(files, request.nonce)
    ensures !Admit(files, nonce, request).Start?
  {
  }

  /** No lock holder and no sent request that could still start an effect. */
  lemma AgreedIsQuiet(s: System)
    requires Inv(s) && Check(s.events, s.resolutions, s.plan, false).Agreed?
    ensures s.target.active.None?
    ensures forall nonce :: !LR.Open(s.target.files, nonce)
    ensures forall nonce, request :: request in s.runsSent ==> !Admit(s.target.files, nonce, request).Start?
    ensures s.target.completions == s.target.starts
  {
    AgreedIsSettled(s);
    forall nonce ensures !LR.Open(s.target.files, nonce) {
      AnsweredIsClosed(s.events, s.target.files, nonce);
    }
    assert s.target.active.Some? ==> LR.Open(s.target.files, s.target.active.value.request.nonce);
    forall nonce, request | request in s.runsSent ensures !Admit(s.target.files, nonce, request).Start? {
      assert KnownRequest(s.events, s.plan, request);
      assert Answered(s.target.files, Intent(request.direction, request.nonce).nonce);
      AnsweredIsDenied(s.target.files, nonce, request);
    }
    var n := |s.target.starts|;
    assert n > 0 ==> !LR.Open(s.target.files, s.target.starts[n - 1].nonce);
  }
}
