/** The host's append-only operation journal (tools/forge_recovery_journal.py).

    Events sit in numbered files, read back in order; a torn event file makes the whole
    history unreadable from then on (tools/forge_target_journal.py:109-125). Resolutions are
    separate records, one per nonce.
 */
module Journal {
  import opened Wrappers
  import Ledger
  import opened L = Ledger

  datatype Plan = Plan(schema: int, digest: string, machine: string, sha256: string, size: int)

  datatype Intent = Intent(direction: Direction, nonce: string)

  datatype Event =
    | Dispatched(intent: Intent)
    | Acknowledged(intent: Intent, result: Value)
    | Uncertain(intent: Intent)
    | TornEvent

  /** The target's envelope around a fence outcome. */
  datatype FenceReply = FenceReply(nonce: string, plan: string, machine: string, outcome: Outcome)

  datatype Resolution = Resolved(reply: FenceReply) | TornResolution

  type Resolutions = map<string, Resolution>

  datatype Refusal =
    | LegacyPlan | NotApproved | UnreadableHistory | MalformedHistory | MismatchedOutcome | MalformedOutcome
    | NeedsReconciliation | UnreadableResolution | InvalidFence | CannotResolve | InvalidAcknowledgement
    | AlreadyCompleted | NothingPending | AppendFailed | RecordFailed | TransportFailed

  datatype Verdict = Agreed(previous: Direction) | Waiting(intent: Intent, previous: Direction)
                   | Rejected(refusal: Refusal)

  datatype Status = IsCompleted | IsFenced | IsIncomplete

  function Acknowledge(plan: Plan, intent: Intent): Acknowledgement {
    Acknowledgement(intent.direction, intent.nonce, plan.digest, plan.machine, plan.sha256, plan.size,
                    intent.direction.Apply?)
  }

  function RequestOf(plan: Plan, intent: Intent): Request {
    Request(plan.digest, intent.direction, intent.nonce)
  }

  function FenceChecked(reply: FenceReply, plan: Plan, intent: Intent): Option<Status> {
    if reply.nonce != intent.nonce || reply.plan != plan.digest || reply.machine != plan.machine then None
    else if reply.outcome.request != RequestOf(plan, intent) then None
    else match reply.outcome
      case Completed(_, result) => if result == Report(Acknowledge(plan, intent)) then Some(IsCompleted) else None
      case FencedNotStarted(_) => Some(IsFenced)
      case Incomplete(_) => Some(IsIncomplete)
  }

  /** An appended event is one numbered file; a torn predecessor makes the append raise
      before it writes. */
  function Append(events: seq<Event>, event: Event, fate: Fate): seq<Event> {
    if !Readable(events) || fate.NotWritten? then events
    else if fate.Torn? then events + [TornEvent]
    else events + [event]
  }

  /** Whether an append returns: it raises on a torn predecessor too. */
  predicate Appended(events: seq<Event>, fate: Fate) {
    Readable(events) && fate.Written?
  }

  predicate Readable(events: seq<Event>) {
    TornEvent !in events
  }

  /** One intent with its outcome, or with none if the host stopped in between. */
  function CheckGroup(events: seq<Event>, at: nat, previous: Direction, resolutions: Resolutions, plan: Plan,
                      mayWait: bool): Verdict
    requires at < |events|
  {
    var head := events[at];
    if !head.Dispatched? || head.intent.direction == previous || !Hex(head.intent.nonce, 32) then
      Rejected(MalformedHistory)
    else
      var intent := head.intent;
      var outcome := if at + 1 < |events| then events[at + 1] else Uncertain(intent);
      if outcome.TornEvent? || outcome.intent != intent then Rejected(MismatchedOutcome)
      else match outcome
        case Dispatched(_) => Rejected(MalformedOutcome)
        case Acknowledged(_, result) =>
          if result == Report(Acknowledge(plan, intent)) then Agreed(intent.direction)
          else Rejected(InvalidAcknowledgement)
        case Uncertain(_) =>
          if intent.nonce !in resolutions then
            if mayWait && at + 2 >= |events| then Waiting(intent, previous) else Rejected(NeedsReconciliation)
          else match resolutions[intent.nonce]
            case TornResolution => Rejected(UnreadableResolution)
            case Resolved(reply) =>
              match FenceChecked(reply, plan, intent)
              case None => Rejected(InvalidFence)
              case Some(IsIncomplete) => Rejected(CannotResolve)
              case Some(IsCompleted) => Agreed(intent.direction)
              case Some(IsFenced) => Agreed(previous)
  }

  /** The verdict on the groups that begin before `n`. */
  function CheckTo(events: seq<Event>, n: nat, resolutions: Resolutions, plan: Plan, mayWait: bool): Verdict
    requires n % 2 == 0 && n <= |events| + 1
  {
    if n == 0 then Agreed(Restore)
    else match CheckTo(events, n - 2, resolutions, plan, mayWait)
      case Agreed(previous) => CheckGroup(events, n - 2, previous, resolutions, plan, mayWait)
      case other => other
  }

  function Even(n: nat): (m: nat)
    ensures m % 2 == 0 && n <= m <= n + 1
  {
    n + n % 2
  }

  function Check(events: seq<Event>, resolutions: Resolutions, plan: Plan, mayWait: bool): Verdict {
    if !Readable(events) then Rejected(UnreadableHistory)
    else CheckTo(events, Even(|events|), resolutions, plan, mayWait)
  }

  /** Rejection is final: the loop raises at the first bad group. */
  lemma {:induction false} StopsEarly(events: seq<Event>, n: nat, m: nat, resolutions: Resolutions, plan: Plan,
                                      mayWait: bool)
    requires n % 2 == 0 && m % 2 == 0 && n <= m <= |events| + 1
    requires !CheckTo(events, n, resolutions, plan, mayWait).Agreed?
    ensures CheckTo(events, m, resolutions, plan, mayWait) == CheckTo(events, n, resolutions, plan, mayWait)
    decreases m
  {
    if n < m {
      StopsEarly(events, n, m - 2, resolutions, plan, mayWait);
    }
  }

  datatype Transport<T> = Replied(reply: T) | Failed

  class HostJournal {
    const plan: Plan
    var events: seq<Event>
    var resolutions: Resolutions

    constructor (plan: Plan)
      ensures this.plan == plan && events == [] && resolutions == map[]
    {
      this.plan := plan;
      events := [];
      resolutions := map[];
    }

    /** The folding loop; `mayWait` is the caller's pending list. */
    method HistoryChecked(mayWait: bool) returns (v: Verdict)
      ensures v == Check(events, resolutions, plan, mayWait)
    {
      if !Readable(events) {
        return Rejected(UnreadableHistory);
      }
      var previous := Restore;
      var index := 0;
      while index < |events|
        invariant index % 2 == 0 && index <= Even(|events|)
        invariant CheckTo(events, index, resolutions, plan, mayWait) == Agreed(previous)
      {
        var verdict := GroupChecked(index, previous, mayWait);
        if !verdict.Agreed? {
          StopsEarly(events, index + 2, Even(|events|), resolutions, plan, mayWait);
          return verdict;
        }
        previous := verdict.previous;
        index := index + 2;
      }
      return Agreed(previous);
    }

    method GroupChecked(index: nat, previous: Direction, mayWait: bool) returns (v: Verdict)
      requires index < |events|
      ensures v == CheckGroup(events, index, previous, resolutions, plan, mayWait)
    {
      if !events[index].Dispatched? || events[index].intent.direction == previous
         || !Hex(events[index].intent.nonce, 32) {
        return Rejected(MalformedHistory);
      }
      var intent := events[index].intent;
      var outcome := if index + 1 < |events| then events[index + 1] else Uncertain(intent);
      if outcome.TornEvent? || outcome.intent != intent {
        return Rejected(MismatchedOutcome);
      }
      if outcome.Uncertain? {
        if intent.nonce !in resolutions {
          if mayWait && index + 2 >= |events| {
            return Waiting(intent, previous);
          }
          return Rejected(NeedsReconciliation);
        }
        if resolutions[intent.nonce].TornResolution? {
          return Rejected(UnreadableResolution);
        }
        var status := FenceChecked(resolutions[intent.nonce].reply, plan, intent);
        if status.None? {
          return Rejected(InvalidFence);
        }
        if status.value.IsIncomplete? {
          return Rejected(CannotResolve);
        }
        if status.value.IsCompleted? {
          return Agreed(intent.direction);
        }
        return Agreed(previous);
      }
      if !outcome.Acknowledged? {
        return Rejected(MalformedOutcome);
      }
      if outcome.result != Report(Acknowledge(plan, intent)) {
        return Rejected(InvalidAcknowledgement);
      }
      return Agreed(intent.direction);
    }

    /** One dispatch, with the fate of each append and the transport's answer as inputs. */
    method Dispatch(direction: Direction, approved: string, nonce: string, intentFate: Fate,
                    transport: Transport<Value>, ackFate: Fate, uncertainFate: Fate)
      returns (r: Result<Acknowledgement, Refusal>)
      modifies this
      ensures resolutions == old(resolutions)
      ensures var call := DispatchCall(plan, old(events), resolutions, direction, approved, nonce, intentFate,
                                       transport, ackFate, uncertainFate);
              events == call.0 && r == call.1
      ensures DispatchTold(plan, old(events), resolutions, direction, approved, Intent(direction, nonce), intentFate,
                           transport, ackFate, uncertainFate, events, r)
    {
      DispatchTells(plan, events, resolutions, direction, approved, nonce, intentFate, transport, ackFate,
                    uncertainFate);
      if plan.schema != 2 {
        return Err(LegacyPlan);
      }
      if approved != plan.digest {
        return Err(NotApproved);
      }
      var verdict := HistoryChecked(false);
      if !verdict.Agreed? {
        return Err(RefusalOf(verdict));
      }
      if verdict.previous == direction {
        return Err(AlreadyCompleted);
      }
      var intent := Intent(direction, nonce);
      events := Append(events, Dispatched(intent), intentFate);
      if !intentFate.Written? {
        return Err(AppendFailed);
      }
      r := Transmit(intent, transport, ackFate, uncertainFate);
    }

    /** The part inside the exception handler. */
    method Transmit(intent: Intent, transport: Transport<Value>, ackFate: Fate, uncertainFate: Fate)
      returns (r: Result<Acknowledgement, Refusal>)
      modifies this`events
      ensures var call := TransmitCall(plan, old(events), intent, transport, ackFate, uncertainFate);
              events == call.0 && r == call.1
    {
      var refusal := TransportFailed;
      if transport.Replied? {
        var expected := Acknowledge(plan, intent);
        if transport.reply == Report(expected) {
          events := Append(events, Acknowledged(intent, transport.reply), ackFate);
          if ackFate.Written? {
            return Ok(expected);
          }
          refusal := AppendFailed;
        } else {
          refusal := InvalidAcknowledgement;
        }
      }
      if !Appended(events, uncertainFate) {
        refusal := AppendFailed;
      }
      events := Append(events, Uncertain(intent), uncertainFate);
      return Err(refusal);
    }

    method Reconcile(approved: string, uncertainFate: Fate, noteFate: Fate, transport: Transport<FenceReply>,
                     observationFate: Fate, resolutionFate: Fate)
      returns (r: Result<FenceReply, Refusal>)
      modifies this
      ensures var call := ReconcileCall(plan, old(events), old(resolutions), approved, uncertainFate,
                                        noteFate, transport, observationFate, resolutionFate);
              events == call.0 && resolutions == call.1 && r == call.2
      ensures ReconcileTold(plan, old(events), old(resolutions), approved, uncertainFate, noteFate, transport,
                            observationFate, resolutionFate, events, resolutions, r)
    {
      ReconcileTells(plan, events, resolutions, approved, uncertainFate, noteFate, transport, observationFate,
                     resolutionFate);
      if plan.schema != 2 {
        return Err(LegacyPlan);
      }
      if approved != plan.digest {
        return Err(NotApproved);
      }
      var verdict := HistoryChecked(true);
      if !verdict.Waiting? {
        return Err(RefusalOf(verdict));
      }
      r := Pursue(verdict.intent, uncertainFate, noteFate, transport, observationFate, resolutionFate);
    }

    /** Close the open group, note the attempt, then ask the target. */
    method Pursue(intent: Intent, uncertainFate: Fate, noteFate: Fate, transport: Transport<FenceReply>,
                  observationFate: Fate, resolutionFate: Fate)
      returns (r: Result<FenceReply, Refusal>)
      modifies this
      ensures var call := PursueCall(plan, old(events), old(resolutions), intent, uncertainFate,
                                     noteFate, transport, observationFate, resolutionFate);
              events == call.0 && resolutions == call.1 && r == call.2
    {
      if |events| % 2 == 1 {
        events := Append(events, Uncertain(intent), uncertainFate);
        if !uncertainFate.Written? {
          return Err(AppendFailed);
        }
      }
      if !noteFate.Written? {
        return Err(RecordFailed);
      }
      r := Settle(intent, transport, observationFate, resolutionFate);
    }

    /** What the fence's answer leaves behind. */
    method Settle(intent: Intent, transport: Transport<FenceReply>, observationFate: Fate, resolutionFate: Fate)
      returns (r: Result<FenceReply, Refusal>)
      modifies this`resolutions
      ensures var call := SettleCall(plan, old(resolutions), intent, transport, observationFate, resolutionFate);
              resolutions == call.0 && r == call.1
    {
      if transport.Failed? {
        return Err(TransportFailed);
      }
      var status := FenceChecked(transport.reply, plan, intent);
      if status.None? {
        return Err(InvalidFence);
      }
      if !observationFate.Written? {
        return Err(RecordFailed);
      }
      if !status.value.IsIncomplete? {
        resolutions := Resolve(resolutions, intent.nonce, transport.reply, resolutionFate);
        if !resolutionFate.Written? {
          return Err(RecordFailed);
        }
      }
      return Ok(transport.reply);
    }
  }

  function RefusalOf(verdict: Verdict): Refusal {
    match verdict
    case Rejected(refusal) => refusal
    case Waiting(_, _) => NeedsReconciliation
    case Agreed(_) => NothingPending
  }

  function Resolve(resolutions: Resolutions, nonce: string, reply: FenceReply, fate: Fate): Resolutions {
    match fate
    case NotWritten => resolutions
    case Torn => resolutions[nonce := TornResolution]
    case WrittenThenRaised => resolutions[nonce := Resolved(reply)]
    case Written => resolutions[nonce := Resolved(reply)]
  }

  /** The events after the acknowledgement of `intent` was tried: its own append, and the
      handler's 'uncertain' when that append raised. */
  function AfterAcknowledgement(events: seq<Event>, intent: Intent, value: Value, ackFate: Fate, uncertainFate: Fate)
    : seq<Event>
  {
    var acked := Append(events, Acknowledged(intent, value), ackFate);
    if ackFate.Written? then acked else Append(acked, Uncertain(intent), uncertainFate)
  }

  function TransmitCall(plan: Plan, begun: seq<Event>, intent: Intent, transport: Transport<Value>,
                        ackFate: Fate, uncertainFate: Fate): (seq<Event>, Result<Acknowledgement, Refusal>)
  {
    var expected := Acknowledge(plan, intent);
    if transport == Replied(Report(expected)) then
      (AfterAcknowledgement(begun, intent, Report(expected), ackFate, uncertainFate),
       if ackFate.Written? then Ok(expected) else Err(AppendFailed))
    else
      (Append(begun, Uncertain(intent), uncertainFate),
       Err(if !Appended(begun, uncertainFate) then AppendFailed
           else if transport.Replied? then InvalidAcknowledgement else TransportFailed))
  }

  function DispatchCall(plan: Plan, events: seq<Event>, resolutions: Resolutions, direction: Direction,
                        approved: string, nonce: string, intentFate: Fate, transport: Transport<Value>,
                        ackFate: Fate, uncertainFate: Fate): (seq<Event>, Result<Acknowledgement, Refusal>)
  {
    var verdict := Check(events, resolutions, plan, false);
    var begun := Append(events, Dispatched(Intent(direction, nonce)), intentFate);
    if plan.schema != 2 then (events, Err(LegacyPlan))
    else if approved != plan.digest then (events, Err(NotApproved))
    else if !verdict.Agreed? then (events, Err(RefusalOf(verdict)))
    else if verdict.previous == direction then (events, Err(AlreadyCompleted))
    else if !intentFate.Written? then (begun, Err(AppendFailed))
    else TransmitCall(plan, begun, Intent(direction, nonce), transport, ackFate, uncertainFate)
  }

  function SettleCall(plan: Plan, resolutions: Resolutions, intent: Intent, transport: Transport<FenceReply>,
                      observationFate: Fate, resolutionFate: Fate): (Resolutions, Result<FenceReply, Refusal>)
  {
    if transport.Failed? then (resolutions, Err(TransportFailed))
    else match FenceChecked(transport.reply, plan, intent)
      case None => (resolutions, Err(InvalidFence))
      case Some(status) =>
        if !observationFate.Written? then (resolutions, Err(RecordFailed))
        else if status.IsIncomplete? then (resolutions, Ok(transport.reply))
        else (Resolve(resolutions, intent.nonce, transport.reply, resolutionFate),
              if resolutionFate.Written? then Ok(transport.reply) else Err(RecordFailed))
  }

  function PursueCall(plan: Plan, events: seq<Event>, resolutions: Resolutions, intent: Intent,
                      uncertainFate: Fate, noteFate: Fate, transport: Transport<FenceReply>,
                      observationFate: Fate, resolutionFate: Fate)
    : (seq<Event>, Resolutions, Result<FenceReply, Refusal>)
  {
    var odd := |events| % 2 == 1;
    var closed := if odd then Append(events, Uncertain(intent), uncertainFate) else events;
    if odd && !uncertainFate.Written? then (closed, resolutions, Err(AppendFailed))
    else if !noteFate.Written? then (closed, resolutions, Err(RecordFailed))
    else
      var settled := SettleCall(plan, resolutions, intent, transport, observationFate, resolutionFate);
      (closed, settled.0, settled.1)
  }

  function ReconcileCall(plan: Plan, events: seq<Event>, resolutions: Resolutions, approved: string,
                         uncertainFate: Fate, noteFate: Fate, transport: Transport<FenceReply>,
                         observationFate: Fate, resolutionFate: Fate)
    : (seq<Event>, Resolutions, Result<FenceReply, Refusal>)
  {
    var verdict := Check(events, resolutions, plan, true);
    if plan.schema != 2 then (events, resolutions, Err(LegacyPlan))
    else if approved != plan.digest then (events, resolutions, Err(NotApproved))
    else if !verdict.Waiting? then (events, resolutions, Err(RefusalOf(verdict)))
    else PursueCall(plan, events, resolutions, verdict.intent, uncertainFate, noteFate, transport,
                    observationFate, resolutionFate)
  }

  // ----- What a call tells its caller -----

  /** The history agrees, and on the other direction. */
  predicate MaySend(plan: Plan, events: seq<Event>, resolutions: Resolutions, direction: Direction, approved: string) {
    && plan.schema == 2 && approved == plan.digest
    && Check(events, resolutions, plan, false).Agreed? && Check(events, resolutions, plan, false).previous != direction
  }

  /** A dispatch succeeds only if everything did, and then its history ends in the acknowledged
      group; every refusal has its cause, and its trace in the history. */
  ghost predicate DispatchTold(plan: Plan, events: seq<Event>, resolutions: Resolutions, direction: Direction,
                               approved: string, intent: Intent, intentFate: Fate, transport: Transport<Value>,
                               ackFate: Fate, uncertainFate: Fate, after: seq<Event>,
                               r: Result<Acknowledgement, Refusal>)
  {
    var ready := MaySend(plan, events, resolutions, direction, approved);
    && (r.Ok? <==> ready && intentFate.Written? && ackFate.Written?
                   && transport == Replied(Report(Acknowledge(plan, intent))))
    && if !ready then after == events && UnreadyTold(plan, events, resolutions, direction, approved, r)
       else if !intentFate.Written? then r == Err(AppendFailed)
       else SentTold(plan, events, intent, transport, ackFate, uncertainFate, after, r)
  }

  ghost predicate UnreadyTold(plan: Plan, events: seq<Event>, resolutions: Resolutions, direction: Direction,
                              approved: string, r: Result<Acknowledgement, Refusal>)
  {
    && (r == Err(LegacyPlan) <==> plan.schema != 2)
    && (r == Err(NotApproved) <==> plan.schema == 2 && approved != plan.digest)
    && (r == Err(AlreadyCompleted) <==>
          plan.schema == 2 && approved == plan.digest && Check(events, resolutions, plan, false) == Agreed(direction))
    && (r.Err? && OfHistory(r.error) ==> Check(events, resolutions, plan, false) == Rejected(r.error))
    && r.Err?
  }

  ghost predicate SentTold(plan: Plan, events: seq<Event>, intent: Intent, transport: Transport<Value>, ackFate: Fate,
                           uncertainFate: Fate, after: seq<Event>, r: Result<Acknowledgement, Refusal>)
  {
    var answered := transport == Replied(Report(Acknowledge(plan, intent)));
    && (r.Ok? ==> r.value == Acknowledge(plan, intent)
                  && after == events + [Dispatched(intent), Acknowledged(intent, Report(r.value))])
    && (r == Err(AppendFailed) <==> if answered then !ackFate.Written? else !uncertainFate.Written?)
    && (r == Err(TransportFailed) <==> transport.Failed? && uncertainFate.Written?)
    && (r == Err(InvalidAcknowledgement) <==> transport.Replied? && !answered && uncertainFate.Written?)
    && (r.Err? && !r.error.AppendFailed? ==> after == events + [Dispatched(intent), Uncertain(intent)])
    && (r.Err? ==> r.error.AppendFailed? || r.error.TransportFailed? || r.error.InvalidAcknowledgement?)
  }

  /** Why a history can be refused, as opposed to a call. */
  predicate OfHistory(refusal: Refusal) {
    || refusal.UnreadableHistory? || refusal.MalformedHistory? || refusal.MismatchedOutcome?
    || refusal.MalformedOutcome?
    || refusal.NeedsReconciliation? || refusal.UnreadableResolution? || refusal.InvalidFence? || refusal.CannotResolve?
    || refusal.InvalidAcknowledgement?
  }

  lemma {:induction false} VerdictKinds(events: seq<Event>, n: nat, resolutions: Resolutions, plan: Plan, mayWait: bool)
    requires n % 2 == 0 && n <= |events| + 1
    ensures var verdict := CheckTo(events, n, resolutions, plan, mayWait);
      && (verdict.Rejected? ==> OfHistory(verdict.refusal)) && (verdict.Waiting? ==> mayWait)
  {
    if n > 0 {
      VerdictKinds(events, n - 2, resolutions, plan, mayWait);
    }
  }

  lemma DispatchTells(plan: Plan, events: seq<Event>, resolutions: Resolutions, direction: Direction, approved: string,
                      nonce: string, intentFate: Fate, transport: Transport<Value>, ackFate: Fate, uncertainFate: Fate)
    ensures var call := DispatchCall(plan, events, resolutions, direction, approved, nonce, intentFate, transport,
                                     ackFate, uncertainFate);
      DispatchTold(plan, events, resolutions, direction, approved, Intent(direction, nonce), intentFate, transport,
                   ackFate, uncertainFate, call.0, call.1)
  {
    VerdictKinds(events, Even(|events|), resolutions, plan, false);
    if MaySend(plan, events, resolutions, direction, approved) && intentFate.Written? {
      TransmitTells(plan, events, Intent(direction, nonce), transport, ackFate, uncertainFate);
    }
  }

  lemma TransmitTells(plan: Plan, events: seq<Event>, intent: Intent, transport: Transport<Value>, ackFate: Fate,
                      uncertainFate: Fate)
    requires Readable(events)
    ensures var call := TransmitCall(plan, events + [Dispatched(intent)], intent, transport, ackFate, uncertainFate);
      && SentTold(plan, events, intent, transport, ackFate, uncertainFate, call.0, call.1)
      && (call.1.Ok? <==> transport == Replied(Report(Acknowledge(plan, intent))) && ackFate.Written?)
  {
    var begun := events + [Dispatched(intent)];
    assert Readable(begun);
    assert begun + [Uncertain(intent)] == events + [Dispatched(intent), Uncertain(intent)];
    var expected := Report(Acknowledge(plan, intent));
    assert begun + [Acknowledged(intent, expected)] == events + [Dispatched(intent), Acknowledged(intent, expected)];
  }

  /** A fence reply settles or leaves open exactly what it names, and only as these very records. */
  lemma FenceCheckedIff(reply: FenceReply, plan: Plan, intent: Intent)
    ensures FenceChecked(reply, plan, intent) == Some(IsCompleted) <==>
              reply == FenceReply(intent.nonce, plan.digest, plan.machine,
                                  Completed(Request(plan.digest, intent.direction, intent.nonce),
                                            Report(Acknowledge(plan, intent))))
    ensures FenceChecked(reply, plan, intent) == Some(IsFenced) <==>
              reply == FenceReply(intent.nonce, plan.digest, plan.machine,
                                  FencedNotStarted(Request(plan.digest, intent.direction, intent.nonce)))
    ensures FenceChecked(reply, plan, intent) == Some(IsIncomplete) <==>
              reply == FenceReply(intent.nonce, plan.digest, plan.machine,
                                  Incomplete(Request(plan.digest, intent.direction, intent.nonce)))
  {
  }

  /** The target's answer is returned if it is one and everything was recorded; a final answer is
      then the resolution; every refusal has its cause. */
  ghost predicate SettleTold(plan: Plan, resolutions: Resolutions, intent: Intent, transport: Transport<FenceReply>,
                             observationFate: Fate, resolutionFate: Fate, resolved: Resolutions,
                             r: Result<FenceReply, Refusal>)
  {
    var status := if transport.Replied? then FenceChecked(transport.reply, plan, intent) else None;
    && (r.Ok?
        <==> status.Some? && observationFate.Written? && (status == Some(IsIncomplete) || resolutionFate.Written?))
    && (r.Ok? ==> transport == Replied(r.value)
                  && resolved == if status == Some(IsIncomplete) then resolutions
                                 else resolutions[intent.nonce := Resolved(r.value)])
    && (r == Err(TransportFailed) <==> transport.Failed?)
    && (r == Err(InvalidFence) <==> transport.Replied? && status.None?)
    && (r.Err? ==> r.error.TransportFailed? || r.error.InvalidFence? || r.error.RecordFailed?)
    && (forall other :: other in resolved && other != intent.nonce ==>
          other in resolutions && resolved[other] == resolutions[other])
  }

  lemma SettleTells(plan: Plan, resolutions: Resolutions, intent: Intent, transport: Transport<FenceReply>,
                    observationFate: Fate, resolutionFate: Fate)
    ensures var call := SettleCall(plan, resolutions, intent, transport, observationFate, resolutionFate);
      SettleTold(plan, resolutions, intent, transport, observationFate, resolutionFate, call.0, call.1)
  {
  }

  /** The open group is closed first, then the attempt is noted, and only then the target is asked. */
  ghost predicate PursuitTold(plan: Plan, events: seq<Event>, resolutions: Resolutions, intent: Intent,
                              uncertainFate: Fate, noteFate: Fate, transport: Transport<FenceReply>,
                              observationFate: Fate, resolutionFate: Fate, after: seq<Event>, resolved: Resolutions,
                              r: Result<FenceReply, Refusal>)
  {
    if |events| % 2 == 1 && !uncertainFate.Written? then r == Err(AppendFailed) && resolved == resolutions
    else
      && after == (if |events| % 2 == 1 then events + [Uncertain(intent)] else events)
      && if !noteFate.Written? then r == Err(RecordFailed) && resolved == resolutions
         else SettleTold(plan, resolutions, intent, transport, observationFate, resolutionFate, resolved, r)
  }

  lemma PursueTells(plan: Plan, events: seq<Event>, resolutions: Resolutions, intent: Intent, uncertainFate: Fate,
                    noteFate: Fate, transport: Transport<FenceReply>, observationFate: Fate, resolutionFate: Fate)
    requires Readable(events)
    ensures var call := PursueCall(plan, events, resolutions, intent, uncertainFate, noteFate, transport,
                                   observationFate, resolutionFate);
      PursuitTold(plan, events, resolutions, intent, uncertainFate, noteFate, transport, observationFate,
                  resolutionFate, call.0, call.1, call.2)
  {
    SettleTells(plan, resolutions, intent, transport, observationFate, resolutionFate);
  }

  /** A call that has nothing to pursue says why, and changes nothing. */
  ghost predicate IdleTold(plan: Plan, approved: string, verdict: Verdict, r: Result<FenceReply, Refusal>) {
    r == Err(if plan.schema != 2 then LegacyPlan else if approved != plan.digest then NotApproved
             else if verdict.Rejected? then verdict.refusal else NothingPending)
  }

  /** A reconciliation refuses before it does anything, or pursues the pending intent. */
  ghost predicate ReconcileTold(plan: Plan, events: seq<Event>, resolutions: Resolutions, approved: string,
                                uncertainFate: Fate, noteFate: Fate, transport: Transport<FenceReply>,
                                observationFate: Fate, resolutionFate: Fate, after: seq<Event>, resolved: Resolutions,
                                r: Result<FenceReply, Refusal>)
  {
    var verdict := Check(events, resolutions, plan, true);
    if plan.schema == 2 && approved == plan.digest && verdict.Waiting? then
      PursuitTold(plan, events, resolutions, verdict.intent, uncertainFate, noteFate, transport, observationFate,
                  resolutionFate, after, resolved, r)
    else after == events && resolved == resolutions && IdleTold(plan, approved, verdict, r)
  }

  lemma ReconcileTells(plan: Plan, events: seq<Event>, resolutions: Resolutions, approved: string, uncertainFate: Fate,
                       noteFate: Fate, transport: Transport<FenceReply>, observationFate: Fate, resolutionFate: Fate)
    ensures var call := ReconcileCall(plan, events, resolutions, approved, uncertainFate, noteFate, transport,
                                      observationFate, resolutionFate);
      ReconcileTold(plan, events, resolutions, approved, uncertainFate, noteFate, transport, observationFate,
                    resolutionFate, call.0, call.1, call.2)
  {
    var verdict := Check(events, resolutions, plan, true);
    if plan.schema == 2 && approved == plan.digest && verdict.Waiting? {
      PursueTells(plan, events, resolutions, verdict.intent, uncertainFate, noteFate, transport, observationFate,
                  resolutionFate);
    }
  }

  // ----- Histories that agree -----

  /** How an attempt was settled: acknowledged, found completed by a fence, or fenced before it began. */
  datatype Ending = InTime | FoundDone | FencedOff

  datatype Attempt = Attempt(nonce: string, ending: Ending)

  function Opposite(direction: Direction): Direction {
    if direction == Apply then Restore else Apply
  }

  /** The direction after the first `n` attempts: each one that was not fenced off turned it. */
  function Settled(attempts: seq<Attempt>, n: nat): Direction
    requires n <= |attempts|
  {
    if n == 0 then Restore
    else if attempts[n - 1].ending.FencedOff? then Settled(attempts, n - 1)
    else Opposite(Settled(attempts, n - 1))
  }

  function IntentAt(attempts: seq<Attempt>, i: nat): Intent
    requires i < |attempts|
  {
    Intent(Opposite(Settled(attempts, i)), attempts[i].nonce)
  }

  function OutcomeAt(plan: Plan, attempts: seq<Attempt>, i: nat): Event
    requires i < |attempts|
  {
    var intent := IntentAt(attempts, i);
    if attempts[i].ending.InTime? then Acknowledged(intent, Report(Acknowledge(plan, intent))) else Uncertain(intent)
  }

  /** What the host recorded of the attempts. */
  function Recorded(plan: Plan, attempts: seq<Attempt>): seq<Event> {
    seq(2 * |attempts|, i requires 0 <= i < 2 * |attempts| =>
      if i % 2 == 0 then Dispatched(IntentAt(attempts, i / 2)) else OutcomeAt(plan, attempts, i / 2))
  }

  /** The resolution that a fence of this attempt leaves. */
  function ResolutionAt(plan: Plan, attempts: seq<Attempt>, i: nat): Resolution
    requires i < |attempts|
  {
    var intent := IntentAt(attempts, i);
    var request := Request(plan.digest, intent.direction, intent.nonce);
    Resolved(FenceReply(intent.nonce, plan.digest, plan.machine,
                        if attempts[i].ending.FencedOff? then FencedNotStarted(request)
                        else Completed(request, Report(Acknowledge(plan, intent)))))
  }

  /** Well-formed attempts, each with the resolution that its fence left. */
  ghost predicate Kept(plan: Plan, attempts: seq<Attempt>, resolutions: Resolutions) {
    forall i :: 0 <= i < |attempts| ==> KeptAt(plan, attempts, resolutions, i)
  }

  ghost predicate KeptAt(plan: Plan, attempts: seq<Attempt>, resolutions: Resolutions, i: nat)
    requires i < |attempts|
  {
    && Hex(attempts[i].nonce, 32)
    && (!attempts[i].ending.InTime? ==>
          attempts[i].nonce in resolutions && resolutions[attempts[i].nonce] == ResolutionAt(plan, attempts, i))
  }

  lemma RecordedAt(plan: Plan, attempts: seq<Attempt>, i: nat)
    requires i < |attempts|
    ensures Recorded(plan, attempts)[2 * i] == Dispatched(IntentAt(attempts, i))
    ensures Recorded(plan, attempts)[2 * i + 1] == OutcomeAt(plan, attempts, i)
  {
  }

  /** Every history of settled attempts agrees, on the direction of the last one that took effect. */
  lemma SettledAgrees(plan: Plan, attempts: seq<Attempt>, resolutions: Resolutions, mayWait: bool)
    requires Kept(plan, attempts, resolutions)
    ensures Check(Recorded(plan, attempts), resolutions, plan, mayWait) == Agreed(Settled(attempts, |attempts|))
  {
    var events := Recorded(plan, attempts);
    RecordedReadable(plan, attempts);
    EvenTwice(|attempts|);
    GroupsAgree(plan, attempts, events, |attempts|, resolutions, mayWait);
  }

  lemma RecordedReadable(plan: Plan, attempts: seq<Attempt>)
    ensures Readable(Recorded(plan, attempts)) && |Recorded(plan, attempts)| == 2 * |attempts|
  {
    forall i | 0 <= i < 2 * |attempts| ensures Recorded(plan, attempts)[i] != TornEvent {
    }
  }

  lemma EvenTwice(n: nat)
    ensures Even(2 * n) == 2 * n
  {
  }

  lemma {:induction false} GroupsAgree(plan: Plan, attempts: seq<Attempt>, events: seq<Event>, n: nat,
                                       resolutions: Resolutions, mayWait: bool)
    requires n <= |attempts| && Kept(plan, attempts, resolutions) && events == Recorded(plan, attempts)
    ensures CheckTo(events, 2 * n, resolutions, plan, mayWait) == Agreed(Settled(attempts, n))
  {
    if n > 0 {
      GroupsAgree(plan, attempts, events, n - 1, resolutions, mayWait);
      RecordedAt(plan, attempts, n - 1);
      assert KeptAt(plan, attempts, resolutions, n - 1);
      GroupAgrees(plan, attempts, events, n - 1, 2 * n - 2, resolutions, mayWait);
    }
  }

  lemma GroupAgrees(plan: Plan, attempts: seq<Attempt>, events: seq<Event>, i: nat, at: nat, resolutions: Resolutions,
                    mayWait: bool)
    requires i < |attempts| && KeptAt(plan, attempts, resolutions, i) && at + 1 < |events|
    requires events[at] == Dispatched(IntentAt(attempts, i)) && events[at + 1] == OutcomeAt(plan, attempts, i)
    ensures CheckGroup(events, at, Settled(attempts, i), resolutions, plan, mayWait) == Agreed(Settled(attempts, i + 1))
  {
    if !attempts[i].ending.InTime? {
      FenceCheckedIff(ResolutionAt(plan, attempts, i).reply, plan, IntentAt(attempts, i));
    }
  }
}
