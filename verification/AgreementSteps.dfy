/** Every step of the host, the network and the target keeps the invariant of Agreement,
    and what follows for whole runs. */
module AgreementSteps {
  import opened Wrappers
  import opened Ledger
  import opened Journal
  import opened Agreement
  import LR = LedgerRuns

  // ----- Appending to the history -----

  ghost predicate NoDispatch(events: seq<Event>) {
    forall i :: 0 <= i < |events| ==> !events[i].Dispatched?
  }

  lemma TailIndex(events: seq<Event>, tail: seq<Event>, i: nat)
    requires NoDispatch(tail) && i < |events + tail|
    ensures if i < |events| then (events + tail)[i] == events[i] else !(events + tail)[i].Dispatched?
  {
  }

  lemma PositionsClose(events: seq<Event>, base: nat, tail: seq<Event>)
    requires Positions(events, base) && NoDispatch(tail) && base < |events|
    requires ShapeOf(events + tail, base).Some?
    ensures Positions(events + tail, base)
  {
    forall i | 0 <= i < |events + tail| && (events + tail)[i].Dispatched? ensures i <= base && i % 2 == 0 {
      TailIndex(events, tail, i);
    }
  }

  lemma NoncesClose(events: seq<Event>, tail: seq<Event>)
    requires DistinctNonces(events) && NoDispatch(tail)
    ensures DistinctNonces(events + tail)
  {
    forall i | 0 <= i < |events + tail| && (events + tail)[i].Dispatched?
      ensures i < |events| && (events + tail)[i] == events[i] {
      TailIndex(events, tail, i);
    }
  }

  lemma NoncesOpen(events: seq<Event>, added: Event)
    requires DistinctNonces(events) && (added.Dispatched? ==> Fresh(events, added.intent.nonce))
    ensures DistinctNonces(events + [added])
  {
  }

  lemma KnownGrows(events: seq<Event>, tail: seq<Event>, plan: Plan, requests: set<Request>, resolutions: Resolutions,
                   files: Files)
    ensures RequestsKnown(events, plan, requests) ==> RequestsKnown(events + tail, plan, requests)
    ensures ResolutionsKnown(events, resolutions) ==> ResolutionsKnown(events + tail, resolutions)
    ensures NamesKnown(events, files) ==> NamesKnown(events + tail, files)
  {
  }

  lemma GroundedGrows(events: seq<Event>, base: nat, tail: seq<Event>, resolutions: Resolutions, plan: Plan)
    requires Grounded(events, base, resolutions, plan)
    ensures Grounded(events + tail, base, resolutions, plan)
    ensures CheckTo(events + tail, base, resolutions, plan, false) == CheckTo(events, base, resolutions, plan, false)
    ensures DoneBefore(events + tail, base, resolutions, plan) == DoneBefore(events, base, resolutions, plan)
  {
    assert (events + tail)[..base] == events[..base];
    CheckFrame(events, events + tail, base, resolutions, resolutions, plan, false, false);
  }

  /** Closing events change neither the settled part nor anything on the wire. */
  lemma CloseKeeps(s: System, tail: seq<Event>, host: Host)
    requires Inv(s) && NoDispatch(tail) && s.base < |s.events|
    requires ShapeOf(s.events + tail, s.base).Some?
    ensures var s' := s.(events := s.events + tail, host := host);
      HistoryInv(s') && WireInv(s') && TargetInv(s')
  {
    PositionsClose(s.events, s.base, tail);
    NoncesClose(s.events, tail);
    KnownGrows(s.events, tail, s.plan, s.runsSent, s.resolutions, s.target.files);
    KnownGrows(s.events, tail, s.plan, s.fencesSent, s.resolutions, s.target.files);
    GroundedGrows(s.events, s.base, tail, s.resolutions, s.plan);
    assert (s.events + tail)[..s.base] == s.events[..s.base];
    assert (s.events + tail)[s.base] == s.events[s.base];
  }

  // ----- Host steps -----

  /** The events that one append adds. */
  ghost function Added(event: Event, fate: Fate): seq<Event> {
    match fate
    case NotWritten => []
    case Torn => [TornEvent]
    case WrittenThenRaised => [event]
    case Written => [event]
  }

  lemma AppendAdds(events: seq<Event>, event: Event, fate: Fate)
    requires Readable(events)
    ensures Append(events, event, fate) == events + Added(event, fate)
  {
  }

  /** From a headed group, the shapes that closing it can give. */
  lemma ClosedShapes(events: seq<Event>, base: nat, outcome: Event, fate: Fate)
    requires ShapeOf(events, base) == Some(Headed)
    requires outcome.Acknowledged? || outcome.Uncertain?
    requires outcome.intent == events[base].intent
    ensures ShapeOf(events + Added(outcome, fate), base)
         == Some(if fate.NotWritten? then Headed else if fate.Torn? then TornTail
                 else if outcome.Acknowledged? then Acked else Unsure)
  {
    assert (events + Added(outcome, fate))[base] == events[base];
  }

  lemma ThirdShapes(events: seq<Event>, base: nat, fate: Fate)
    requires ShapeOf(events, base) == Some(Acked)
    ensures ShapeOf(events + Added(Uncertain(events[base].intent), fate), base)
         == Some(if fate.NotWritten? then Acked else if fate.Torn? then AckedTorn else AckedUnsure)
  {
    var events' := events + Added(Uncertain(events[base].intent), fate);
    assert events'[base] == events[base] && events'[base + 1] == events[base + 1];
  }

  lemma NewestCloses(events: seq<Event>, base: nat, tail: seq<Event>, resolutions: Resolutions, plan: Plan)
    requires Grounded(events, base, resolutions, plan) && NewestInv(events, base, resolutions, plan)
    requires ShapeOf(events, base) == Some(Headed)
    requires ShapeOf(events + tail, base).Some? && ShapeOf(events + tail, base).value.HasIntent()
    requires ShapeOf(events + tail, base).value.HasAcknowledgement() ==>
               (events + tail)[base + 1].result == Report(Acknowledge(plan, events[base].intent))
    ensures Grounded(events + tail, base, resolutions, plan)
    ensures NewestInv(events + tail, base, resolutions, plan)
  {
    GroundedGrows(events, base, tail, resolutions, plan);
    assert (events + tail)[base] == events[base];
  }

  lemma NewestGroundedCloses(events: seq<Event>, base: nat, tail: seq<Event>, resolutions: Resolutions, plan: Plan,
                             runReplies: set<(string, Value)>, fenceReplies: set<FenceReply>)
    requires Grounded(events, base, resolutions, plan) && NewestInv(events, base, resolutions, plan)
    requires ShapeOf(events, base) == Some(Headed)
    requires ShapeOf(events + tail, base).Some? && ShapeOf(events + tail, base).value.HasIntent()
    requires ShapeOf(events + tail, base).value.HasAcknowledgement() ==>
               (events[base].intent.nonce, (events + tail)[base + 1].result) in runReplies
    ensures NewestGrounded(events + tail, base, resolutions, runReplies, fenceReplies)
  {
    assert (events + tail)[base] == events[base];
  }

  lemma FinishDispatchKeeps(s: System, value: Value, ackFate: Fate, uncertainFate: Fate)
    requires Inv(s)
    ensures Inv(FinishDispatch(s, value, ackFate, uncertainFate))
  {
    if FinishDispatch(s, value, ackFate, uncertainFate) != s {
      var tail := ClosingEvents(s.events, s.base, s.host.intent, value, ackFate, uncertainFate);
      ClosedKeeps(s, tail, value);
    }
  }

  /** The shape that closing events give the newest group, and what an acknowledgement in it says. */
  ghost predicate Closes(events: seq<Event>, base: nat, tail: seq<Event>, value: Value) {
    && ShapeOf(events, base) == Some(Headed)
    && ShapeOf(events + tail, base).Some? && ShapeOf(events + tail, base).value.HasIntent()
    && (ShapeOf(events + tail, base).value.HasAcknowledgement() ==>
          (events + tail)[base + 1] == Acknowledged(events[base].intent, value))
  }

  lemma ClosedKeeps(s: System, tail: seq<Event>, value: Value)
    requires Inv(s) && NoDispatch(tail) && Closes(s.events, s.base, tail, value)
    requires (s.events[s.base].intent.nonce, value) in s.runReplies
    requires value == Report(Acknowledge(s.plan, s.events[s.base].intent))
    ensures Inv(s.(events := s.events + tail, host := Idle))
  {
    CloseKeeps(s, tail, Idle);
    ClosedGroup(s, tail, value);
  }

  lemma ClosedGroup(s: System, tail: seq<Event>, value: Value)
    requires Inv(s) && Closes(s.events, s.base, tail, value)
    requires (s.events[s.base].intent.nonce, value) in s.runReplies
    requires value == Report(Acknowledge(s.plan, s.events[s.base].intent))
    requires HistoryInv(s.(events := s.events + tail, host := Idle))
    ensures GroupInv(s.(events := s.events + tail, host := Idle))
  {
    NewestCloses(s.events, s.base, tail, s.resolutions, s.plan);
    NewestGroundedCloses(s.events, s.base, tail, s.resolutions, s.plan, s.runReplies, s.fenceReplies);
  }

  lemma ClosingEvents(events: seq<Event>, base: nat, intent: Intent, value: Value, ackFate: Fate, uncertainFate: Fate)
    returns (tail: seq<Event>)
    requires ShapeOf(events, base) == Some(Headed) && events[base].intent == intent
    requires base <= |events| && Readable(events[..base]) && Positions(events, base)
    ensures AfterAcknowledgement(events, intent, value, ackFate, uncertainFate) == events + tail
    ensures NoDispatch(tail)
    ensures ShapeOf(events + tail, base).Some? && ShapeOf(events + tail, base).value.HasIntent()
    ensures ShapeOf(events + tail, base).value.HasAcknowledgement() ==>
            (events + tail)[base + 1] == Acknowledged(intent, value)
    ensures ShapeOf(events + tail, base) == Some(AckedUnsure) <==> ackFate.WrittenThenRaised? && uncertainFate.Durable()
  {
    TornShapes(events, base);
    var first := Added(Acknowledged(intent, value), ackFate);
    AppendAdds(events, Acknowledged(intent, value), ackFate);
    ClosedShapes(events, base, Acknowledged(intent, value), ackFate);
    if ackFate.Written? {
      tail := first;
    } else if ackFate.Torn? {
      tail := first;
      assert TornEvent in events + first;
    } else if ackFate.NotWritten? {
      tail := Added(Uncertain(intent), uncertainFate);
      assert events + first == events;
      AppendAdds(events, Uncertain(intent), uncertainFate);
      ClosedShapes(events, base, Uncertain(intent), uncertainFate);
    } else {
      var second := Added(Uncertain(intent), uncertainFate);
      assert (events + first)[base] == events[base];
      AppendAdds(events + first, Uncertain(intent), uncertainFate);
      ThirdShapes(events + first, base, uncertainFate);
      tail := first + second;
      assert events + tail == (events + first) + second;
    }
  }

  lemma FailDispatchKeeps(s: System, fate: Fate)
    requires Inv(s)
    ensures Inv(FailDispatch(s, fate))
  {
    if s.host.Dispatching? {
      UncertainKeeps(s, fate, Idle);
    }
  }

  lemma UncertainKeeps(s: System, fate: Fate, host: Host)
    requires Inv(s) && ShapeOf(s.events, s.base) == Some(Headed)
    requires host == Idle || (fate.Written? && host == Fencing(s.events[s.base].intent))
    ensures Inv(s.(events := Append(s.events, Uncertain(s.events[s.base].intent), fate), host := host))
  {
    TornShapes(s.events, s.base);
    var outcome := Uncertain(s.events[s.base].intent);
    AppendAdds(s.events, outcome, fate);
    ClosedShapes(s.events, s.base, outcome, fate);
    CloseKeeps(s, Added(outcome, fate), host);
    NewestCloses(s.events, s.base, Added(outcome, fate), s.resolutions, s.plan);
    NewestGroundedCloses(s.events, s.base, Added(outcome, fate), s.resolutions, s.plan, s.runReplies, s.fenceReplies);
    assert (s.events + Added(outcome, fate))[s.base] == s.events[s.base];
  }

  lemma HostKeeps(s: System, host: Host)
    requires Inv(s) && HostInv(host, s.events, s.base, s.resolutions)
    ensures Inv(s.(host := host))
  {
  }

  lemma ExpectedWaiting(events: seq<Event>, base: nat, resolutions: Resolutions, plan: Plan)
    requires Grounded(events, base, resolutions, plan) && Positions(events, base)
    requires Expected(events, base, resolutions, plan, true).Waiting?
    ensures base < |events| && events[base] == Dispatched(Expected(events, base, resolutions, plan, true).intent)
    ensures if |events| % 2 == 1 then ShapeOf(events, base) == Some(Headed)
            else ShapeOf(events, base) == Some(Unsure) && events[base].intent.nonce !in resolutions
  {
  }

  lemma WaitingShape(s: System)
    requires Inv(s) && Check(s.events, s.resolutions, s.plan, true).Waiting?
    ensures s.base < |s.events| && s.events[s.base] == Dispatched(Check(s.events, s.resolutions, s.plan, true).intent)
    ensures if |s.events| % 2 == 1 then ShapeOf(s.events, s.base) == Some(Headed)
            else ShapeOf(s.events, s.base) == Some(Unsure) && s.events[s.base].intent.nonce !in s.resolutions
  {
    Verdicts(s.events, s.base, s.resolutions, s.plan, true);
    ExpectedWaiting(s.events, s.base, s.resolutions, s.plan);
  }

  lemma BeginReconcileKeeps(s: System, fate: Fate)
    requires Inv(s)
    ensures Inv(BeginReconcile(s, fate))
  {
    if s.host.Idle? && Check(s.events, s.resolutions, s.plan, true).Waiting? {
      WaitingShape(s);
      if |s.events| % 2 == 1 {
        UncertainKeeps(s, fate, if fate.Written? then Fencing(s.events[s.base].intent) else Idle);
      } else {
        HostKeeps(s, Fencing(s.events[s.base].intent));
      }
    }
  }

  lemma FinishReconcileKeeps(s: System, reply: FenceReply, fate: Fate)
    requires Inv(s)
    ensures Inv(FinishReconcile(s, reply, fate))
  {
    if s.host.Fencing? && reply in s.fenceReplies {
      if Settles(FenceChecked(reply, s.plan, s.host.intent)) {
        ResolvedKeeps(s, reply, fate);
      } else {
        HostKeeps(s, Idle);
      }
    }
  }

  lemma ResolvedKeeps(s: System, reply: FenceReply, fate: Fate)
    requires Inv(s) && s.host.Fencing? && reply in s.fenceReplies
    requires Settles(FenceChecked(reply, s.plan, s.host.intent))
    ensures Inv(s.(resolutions := Resolve(s.resolutions, s.host.intent.nonce, reply, fate), host := Idle))
  {
    var resolutions' := Resolve(s.resolutions, s.host.intent.nonce, reply, fate);
    ResolveElsewhere(s.resolutions, s.host.intent.nonce, reply, fate);
    ResolveGrounded(s.events, s.base, s.resolutions, resolutions', s.plan);
    ResolveKnown(s.events, s.resolutions, s.host.intent, reply, fate);
    ResolveNewest(s, reply, fate);
    ResolvedTarget(s, resolutions');
  }

  lemma ResolvedTarget(s: System, resolutions': Resolutions)
    requires Inv(s) && Grounded(s.events, s.base, resolutions', s.plan) && ResolutionsKnown(s.events, resolutions')
    requires DoneBefore(s.events, s.base, resolutions', s.plan) == DoneBefore(s.events, s.base, s.resolutions, s.plan)
    ensures TargetInv(s.(resolutions := resolutions', host := Idle))
  {
  }

  lemma ResolveElsewhere(resolutions: Resolutions, nonce: string, reply: FenceReply, fate: Fate)
    ensures forall other :: other != nonce ==> SameAt(other, resolutions, Resolve(resolutions, nonce, reply, fate))
  {
  }

  lemma ResolveGrounded(events: seq<Event>, base: nat, resolutions: Resolutions, resolutions': Resolutions, plan: Plan)
    requires Grounded(events, base, resolutions, plan) && DistinctNonces(events)
    requires base < |events| && events[base].Dispatched?
    requires forall nonce :: nonce != events[base].intent.nonce ==> SameAt(nonce, resolutions, resolutions')
    ensures Grounded(events, base, resolutions', plan)
    ensures CheckTo(events, base, resolutions', plan, false) == CheckTo(events, base, resolutions, plan, false)
    ensures DoneBefore(events, base, resolutions', plan) == DoneBefore(events, base, resolutions, plan)
  {
    CheckFrame(events, events, base, resolutions, resolutions', plan, false, false);
  }

  lemma ResolveKnown(events: seq<Event>, resolutions: Resolutions, intent: Intent, reply: FenceReply, fate: Fate)
    requires ResolutionsKnown(events, resolutions) && Dispatched(Intent(intent.direction, intent.nonce)) in events
    ensures ResolutionsKnown(events, Resolve(resolutions, intent.nonce, reply, fate))
  {
    KnownDirection(events, intent.direction, intent.nonce);
  }

  lemma ResolveNewest(s: System, reply: FenceReply, fate: Fate)
    requires Inv(s) && s.host.Fencing? && reply in s.fenceReplies
    requires Settles(FenceChecked(reply, s.plan, s.host.intent))
    requires Grounded(s.events, s.base, Resolve(s.resolutions, s.host.intent.nonce, reply, fate), s.plan)
    requires CheckTo(s.events, s.base, Resolve(s.resolutions, s.host.intent.nonce, reply, fate), s.plan, false)
          == CheckTo(s.events, s.base, s.resolutions, s.plan, false)
    ensures var resolutions' := Resolve(s.resolutions, s.host.intent.nonce, reply, fate);
      && NewestInv(s.events, s.base, resolutions', s.plan)
      && NewestGrounded(s.events, s.base, resolutions', s.runReplies, s.fenceReplies)
  {
  }

  /** An agreed history is settled to its end, and the effects begun are its completed groups. */
  lemma AgreedGrounded(s: System)
    requires Inv(s) && Check(s.events, s.resolutions, s.plan, false).Agreed?
    ensures Grounded(s.events, |s.events|, s.resolutions, s.plan)
    ensures CheckTo(s.events, |s.events|, s.resolutions, s.plan, false) == Check(s.events, s.resolutions, s.plan, false)
    ensures s.target.starts == DoneBefore(s.events, |s.events|, s.resolutions, s.plan)
    ensures AllAnswered(s.events, s.target.files)
    ensures |s.events| <= s.base + 2
  {
    AgreedIsSettled(s);
    AgreedStarts(s);
    assert s.events[..|s.events|] == s.events;
  }

  ghost function Opened(s: System, added: Event, host: Host): System {
    s.(events := s.events + [added], base := |s.events|, host := host)
  }

  /** A new group is opened only on top of a settled history, which then becomes the base. */
  lemma BeginDispatchKeeps(s: System, direction: Direction, nonce: string, fate: Fate)
    requires Inv(s)
    ensures Inv(BeginDispatch(s, direction, nonce, fate))
  {
    var s' := BeginDispatch(s, direction, nonce, fate);
    if s'.events != s.events {
      AgreedGrounded(s);
      var added := if fate.Torn? then TornEvent else Dispatched(Intent(direction, nonce));
      assert s' == Opened(s, added, s'.host);
      OpenHistory(s, added, s'.host);
      OpenNewest(s, added, s'.host, nonce);
      OpenRest(s, added, s'.host);
    }
  }

  lemma OpenHistory(s: System, added: Event, host: Host)
    requires HistoryInv(s) && Grounded(s.events, |s.events|, s.resolutions, s.plan) && |s.events| <= s.base + 2
    requires added == TornEvent || (added.Dispatched? && Fresh(s.events, added.intent.nonce))
    ensures HistoryInv(Opened(s, added, host))
    ensures CheckTo(s.events + [added], |s.events|, s.resolutions, s.plan, false)
         == CheckTo(s.events, |s.events|, s.resolutions, s.plan, false)
    ensures DoneBefore(s.events + [added], |s.events|, s.resolutions, s.plan)
         == DoneBefore(s.events, |s.events|, s.resolutions, s.plan)
  {
    GroundedGrows(s.events, |s.events|, [added], s.resolutions, s.plan);
    NoncesOpen(s.events, added);
    KnownGrows(s.events, [added], s.plan, {}, s.resolutions, map[]);
    assert (s.events + [added])[|s.events|] == added;
    assert forall i :: 0 <= i < |s.events| ==> (s.events + [added])[i] == s.events[i];
  }

  lemma OpenNewest(s: System, added: Event, host: Host, nonce: string)
    requires HistoryInv(s) && Fresh(s.events, nonce) && Hex(nonce, 32)
    requires HistoryInv(Opened(s, added, host))
    requires added == TornEvent || (added.Dispatched? && added.intent.nonce == nonce
               && added.intent.direction != CheckTo(s.events + [added], |s.events|, s.resolutions, s.plan,
                                                    false).previous)
    requires host.Idle? || (added.Dispatched? && host == Dispatching(added.intent))
    ensures GroupInv(Opened(s, added, host))
  {
    FreshUnresolved(s.events, s.resolutions, nonce);
    assert (s.events + [added])[|s.events|] == added;
  }

  lemma FreshUnresolved(events: seq<Event>, resolutions: Resolutions, nonce: string)
    requires Fresh(events, nonce) && ResolutionsKnown(events, resolutions)
    ensures nonce !in resolutions
  {
  }

  lemma OpenRest(s: System, added: Event, host: Host)
    requires Inv(s) && Grounded(s.events, |s.events|, s.resolutions, s.plan)
    requires HistoryInv(Opened(s, added, host))
    requires DoneBefore(s.events + [added], |s.events|, s.resolutions, s.plan)
          == DoneBefore(s.events, |s.events|, s.resolutions, s.plan) == s.target.starts
    requires AllAnswered(s.events, s.target.files)
    ensures WireInv(Opened(s, added, host)) && TargetInv(Opened(s, added, host))
  {
    KnownGrows(s.events, [added], s.plan, s.runsSent, s.resolutions, s.target.files);
    KnownGrows(s.events, [added], s.plan, s.fencesSent, s.resolutions, s.target.files);
    assert (s.events + [added])[..|s.events|] == s.events;
  }

  lemma SendKeeps(s: System, request: Request)
    requires Inv(s) && KnownRequest(s.events, s.plan, request)
    ensures Inv(s.(runsSent := s.runsSent + {request}))
    ensures Inv(s.(fencesSent := s.fencesSent + {request}))
  {
  }

  // ----- Target steps -----

  lemma HonestGrows(reply: FenceReply, before: LR.Target, after: LR.Target)
    requires LR.Extends(before, after) && Honest(reply, before.files)
    ensures Honest(reply, after.files)
  {
  }

  lemma RepliesGrow(s: System, after: LR.Target)
    requires WireInv(s) && LR.Extends(s.target, after)
    ensures RunRepliesHonest(s.runReplies, after.files) && FenceRepliesHonest(s.fenceReplies, after.files)
  {
    forall reply | reply in s.fenceReplies ensures Honest(reply, after.files) {
      HonestGrows(reply, s.target, after);
    }
    forall nonce, value | (nonce, value) in s.runReplies ensures HasReceipt(after.files, nonce, value) {
      assert HasReceipt(s.target.files, nonce, value);
    }
  }

  lemma AnsweredGrows(events: seq<Event>, before: LR.Target, after: LR.Target)
    requires LR.Extends(before, after) && AllAnswered(events, before.files)
    ensures AllAnswered(events, after.files)
  {
    forall intent | Dispatched(intent) in events ensures Answered(after.files, intent.nonce) {
      assert Answered(before.files, intent.nonce);
    }
  }

  /** A step touches at most one new name, under the nonce of the request it serves. */
  lemma NewNames(t: LR.Target, action: LR.Action, name: Name)
    requires name in LR.Step(t, action).files && name !in t.files
    ensures !name.Stray?
    ensures match action
            case Fence(nonce, request, _) => ValidRequest(nonce, request) && name.nonce == request.nonce
            case Run(nonce, request, _) => ValidRequest(nonce, request) && name.nonce == request.nonce
            case WriteReceipt(_) => t.active.Some? && name.nonce == t.active.value.request.nonce
            case _ => false
  {
  }

  lemma NamesGrow(s: System, action: LR.Action)
    requires WireInv(s) && NamesKnown(s.events, s.target.files) && ActiveKnown(s.target.active, s.runsSent)
    requires action.Fence? ==> action.request in s.fencesSent
    requires action.Run? ==> action.request in s.runsSent
    ensures NamesKnown(s.events, LR.Step(s.target, action).files)
  {
    forall name | name in LR.Step(s.target, action).files ensures !name.Stray? && KnownNonce(s.events, name.nonce) {
      if name !in s.target.files {
        NewNames(s.target, action, name);
        var request := if action.WriteReceipt? then s.target.active.value.request else action.request;
        assert KnownRequest(s.events, s.plan, request);
        KnownDirection(s.events, request.direction, request.nonce);
      }
    }
  }

  lemma KnownDirection(events: seq<Event>, direction: Direction, nonce: string)
    requires Dispatched(Intent(direction, nonce)) in events
    ensures KnownNonce(events, nonce)
  {
    match direction
    case Apply =>
    case Restore =>
  }

  lemma PrefixHas(events: seq<Event>, base: nat, i: nat)
    requires base <= |events| && i < |events|
    ensures i < base ==> events[i] in events[..base]
  {
    if i < base {
      assert events[..base][i] == events[i];
    }
  }

  /** A known request whose nonce the target has not answered is the newest one. */
  lemma UnansweredIsNewest(s: System, request: Request)
    requires Inv(s) && KnownRequest(s.events, s.plan, request) && !Answered(s.target.files, request.nonce)
    ensures s.base < |s.events| && s.events[s.base] == Dispatched(Intent(request.direction, request.nonce))
    ensures request == RequestOf(s.plan, s.events[s.base].intent)
  {
    var intent := Intent(request.direction, request.nonce);
    var i :| 0 <= i < |s.events| && s.events[i] == Dispatched(intent);
    PrefixHas(s.events, s.base, i);
  }

  /** An effect can only begin for the newest intent, and only if it has not begun. */
  lemma StartsStayMatched(s: System, action: LR.Action)
    requires Inv(s)
    ensures StartsMatch(LR.Step(s.target, action).starts, s.events, s.base, s.resolutions, s.plan)
  {
    if action.EffectBegins? && s.target.active.Some? && s.target.active.value.stage.Intended? {
      StartMatches(s, s.target.active.value.request);
    } else {
      StartsStay(s.target, action);
    }
  }

  lemma StartsStay(t: LR.Target, action: LR.Action)
    requires !(action.EffectBegins? && t.active.Some? && t.active.value.stage.Intended?)
    ensures LR.Step(t, action).starts == t.starts
  {
  }

  lemma StartMatches(s: System, request: Request)
    requires Inv(s) && s.target.active == Some(LR.Active(request, LR.Intended))
    ensures StartsMatch(s.target.starts + [request], s.events, s.base, s.resolutions, s.plan)
  {
    assert KnownRequest(s.events, s.plan, request);
    UnansweredIsNewest(s, request);
    var done := DoneBefore(s.events, s.base, s.resolutions, s.plan);
    assert (done + [request])[|done|] == request;
  }

  /** Growing the target and telling the truth about it keeps the whole invariant. */
  lemma GrowthKeeps(s: System, action: LR.Action, runReplies: set<(string, Value)>, fenceReplies: set<FenceReply>)
    requires Inv(s)
    requires action.Fence? ==> action.request in s.fencesSent
    requires action.Run? ==> action.request in s.runsSent
    requires s.runReplies <= runReplies && RunRepliesHonest(runReplies - s.runReplies, LR.Step(s.target, action).files)
    requires s.fenceReplies <= fenceReplies
             && FenceRepliesHonest(fenceReplies - s.fenceReplies, LR.Step(s.target, action).files)
    ensures Inv(s.(target := LR.Step(s.target, action), runReplies := runReplies, fenceReplies := fenceReplies))
  {
    var t := LR.Step(s.target, action);
    LR.StepSafe(s.target, action);
    LR.StepExtends(s.target, action);
    RepliesGrow(s, t);
    AnsweredGrows(s.events[..s.base], s.target, t);
    NamesGrow(s, action);
    StartsStayMatched(s, action);
    ActiveStaysKnown(s.target, s.runsSent, action);
    TruthJoins(s.runReplies, runReplies, s.fenceReplies, fenceReplies, t.files);
    NewestGroundedGrows(s.events, s.base, s.resolutions, s.runReplies, s.fenceReplies, runReplies, fenceReplies);
  }

  lemma ActiveStaysKnown(t: LR.Target, runsSent: set<Request>, action: LR.Action)
    requires ActiveKnown(t.active, runsSent) && (action.Run? ==> action.request in runsSent)
    ensures ActiveKnown(LR.Step(t, action).active, runsSent)
  {
  }

  lemma TruthJoins(runs: set<(string, Value)>, runs': set<(string, Value)>, fences: set<FenceReply>,
                   fences': set<FenceReply>, files: Files)
    requires RunRepliesHonest(runs, files) && RunRepliesHonest(runs' - runs, files)
    requires FenceRepliesHonest(fences, files) && FenceRepliesHonest(fences' - fences, files)
    ensures RunRepliesHonest(runs', files) && FenceRepliesHonest(fences', files)
  {
    forall nonce, value | (nonce, value) in runs' ensures HasReceipt(files, nonce, value) {
      assert (nonce, value) in runs || (nonce, value) in runs' - runs;
    }
    forall reply | reply in fences' ensures Honest(reply, files) {
      assert reply in fences || reply in fences' - fences;
    }
  }

  lemma NewestGroundedGrows(events: seq<Event>, base: nat, resolutions: Resolutions, runs: set<(string, Value)>,
                            fences: set<FenceReply>, runs': set<(string, Value)>, fences': set<FenceReply>)
    requires NewestGrounded(events, base, resolutions, runs, fences) && runs <= runs' && fences <= fences'
    ensures NewestGrounded(events, base, resolutions, runs', fences')
  {
  }

  lemma FenceHonest(t: LR.Target, plan: Plan, nonce: string, request: Request, fate: Fate, outcome: Outcome)
    requires FenceCall(t.files, nonce, request, fate).1 == Ok(outcome)
    ensures Honest(FenceReply(nonce, plan.digest, plan.machine, outcome), FenceCall(t.files, nonce, request, fate).0)
  {
  }

  lemma FenceKeeps(s: System, nonce: string, request: Request, fate: Fate)
    requires Inv(s)
    ensures Inv(ActTarget(s, LR.Fence(nonce, request, fate)))
  {
    if request in s.fencesSent && s.target.active.None? {
      var answer := FenceCall(s.target.files, nonce, request, fate).1;
      if answer.Ok? {
        FenceHonest(s.target, s.plan, nonce, request, fate, answer.value);
      }
      GrowthKeeps(s, LR.Fence(nonce, request, fate), s.runReplies,
                  ActTarget(s, LR.Fence(nonce, request, fate)).fenceReplies);
    }
  }

  lemma RunKeeps(s: System, nonce: string, request: Request, fate: Fate)
    requires Inv(s)
    ensures Inv(ActTarget(s, LR.Run(nonce, request, fate)))
  {
    if request in s.runsSent && s.target.active.None? {
      var admission := Admit(s.target.files, nonce, request);
      if admission.Replay? {
        ReplayIsReceipt(s.target.files, nonce, request);
        GrowthKeeps(s, LR.Run(nonce, request, fate), s.runReplies + {(nonce, admission.result)}, s.fenceReplies);
      } else {
        GrowthKeeps(s, LR.Run(nonce, request, fate), s.runReplies, s.fenceReplies);
      }
    }
  }

  lemma ReplayIsReceipt(files: Files, nonce: string, request: Request)
    requires Admit(files, nonce, request).Replay?
    ensures HasReceipt(files, nonce, Admit(files, nonce, request).result)
  {
  }

  lemma ReceiptKeeps(s: System, fate: Fate)
    requires Inv(s)
    ensures Inv(ActTarget(s, LR.WriteReceipt(fate)))
  {
    GrowthKeeps(s, LR.WriteReceipt(fate), ActTarget(s, LR.WriteReceipt(fate)).runReplies, s.fenceReplies);
  }

  lemma TargetKeeps(s: System, action: LR.Action)
    requires Inv(s)
    ensures Inv(ActTarget(s, action))
  {
    match action
    case Fence(nonce, request, fate) => FenceKeeps(s, nonce, request, fate);
    case Run(nonce, request, fate) => RunKeeps(s, nonce, request, fate);
    case WriteReceipt(fate) => ReceiptKeeps(s, fate);
    case _ => GrowthKeeps(s, action, s.runReplies, s.fenceReplies);
  }

  // ----- Whole runs -----

  lemma NextKeeps(s: System, a: Action)
    requires Inv(s)
    ensures Inv(Next(s, a))
  {
    match a
    case DispatchBegins(direction, nonce, fate) => BeginDispatchKeeps(s, direction, nonce, fate);
    case AcknowledgementArrives(value, ackFate, uncertainFate) => FinishDispatchKeeps(s, value, ackFate, uncertainFate);
    case DispatchFails(fate) => FailDispatchKeeps(s, fate);
    case ReconcileBegins(fate) => BeginReconcileKeeps(s, fate);
    case FenceReplyArrives(reply, fate) => FinishReconcileKeeps(s, reply, fate);
    case TargetActs(action) => TargetKeeps(s, action);
    case SendRun => SendingKeeps(s, a);
    case SendFence => SendingKeeps(s, a);
    case HostStops => HostKeeps(s, Idle);
  }

  lemma SendingKeeps(s: System, a: Action)
    requires Inv(s) && (a.SendRun? || a.SendFence?)
    ensures Inv(Next(s, a))
  {
    if s.host.Dispatching? || s.host.Fencing? {
      SendKeeps(s, RequestOf(s.plan, s.host.intent));
    }
  }

  lemma PlanFixed(s: System, a: Action)
    ensures Next(s, a).plan == s.plan
  {
  }

  lemma {:induction false} ExecuteKeeps(s: System, actions: seq<Action>)
    requires Inv(s)
    ensures Inv(Execute(s, actions)) && Execute(s, actions).plan == s.plan
    decreases actions
  {
    if actions != [] {
      NextKeeps(s, actions[0]);
      PlanFixed(s, actions[0]);
      ExecuteKeeps(Next(s, actions[0]), actions[1..]);
    }
  }

  lemma InitialInv(plan: Plan)
    ensures Inv(Initial(plan))
  {
  }

  /** Host and target agree: whenever the host's fold over its own journal returns, the target
      holds no lock, has no incomplete attempt, would start none of the requests ever sent, and
      the returned direction is that of the last effect that ran to completion. */
  lemma HostAndTargetAgree(plan: Plan, actions: seq<Action>)
    ensures var s := Execute(Initial(plan), actions);
      var verdict := Check(s.events, s.resolutions, plan, false);
      verdict.Agreed? ==>
        && s.target.active.None?
        && (forall nonce :: !LR.Open(s.target.files, nonce))
        && (forall nonce, request :: request in s.runsSent ==> !Admit(s.target.files, nonce, request).Start?)
        && s.target.completions == s.target.starts
        && verdict.previous == LastDirection(s.target.completions)
  {
    var s := Execute(Initial(plan), actions);
    InitialInv(plan);
    ExecuteKeeps(Initial(plan), actions);
    if Check(s.events, s.resolutions, plan, false).Agreed? {
      AgreedIsSettled(s);
      AgreedStarts(s);
      AgreedIsQuiet(s);
      AgreedMeansDone(s.events, |s.events|, s.resolutions, s.plan, false);
    }
  }

  /** In every reachable state, whatever the host believes, effects begin in strict alternation,
      apply first: never twice in one direction, however late a worker starts. */
  lemma EffectsAlternate(plan: Plan, actions: seq<Action>)
    ensures Alternates(Execute(Initial(plan), actions).target.starts)
    ensures Alternates(Execute(Initial(plan), actions).target.completions)
  {
    var s := Execute(Initial(plan), actions);
    InitialInv(plan);
    ExecuteKeeps(Initial(plan), actions);
    MatchedAlternates(s.target.starts, s.events, s.base, s.resolutions, s.plan);
    assert s.target.completions == s.target.starts[..|s.target.completions|];
  }

  lemma MatchedAlternates(starts: seq<Request>, events: seq<Event>, base: nat, resolutions: Resolutions, plan: Plan)
    requires Grounded(events, base, resolutions, plan) && Positions(events, base)
    requires NewestInv(events, base, resolutions, plan) && StartsMatch(starts, events, base, resolutions, plan)
    ensures Alternates(starts)
  {
    AgreedMeansDone(events, base, resolutions, plan, false);
    var done := DoneBefore(events, base, resolutions, plan);
    if starts != done {
      assert starts[|done|].direction != LastDirection(done);
      assert forall i :: 0 <= i < |done| ==> starts[i] == done[i];
    }
  }

  /** The only rejections a host-built history can meet: work left to reconcile, a torn file,
      or a group that grew a third event. */
  ghost predicate KnownRejection(verdict: Verdict) {
    verdict.Rejected? ==>
      || verdict.refusal.NeedsReconciliation? || verdict.refusal.UnreadableHistory?
      || verdict.refusal.UnreadableResolution? || verdict.refusal.MalformedHistory?
  }

  lemma ExpectedRejections(events: seq<Event>, base: nat, resolutions: Resolutions, plan: Plan, mayWait: bool)
    requires Grounded(events, base, resolutions, plan) && Positions(events, base)
    requires NewestInv(events, base, resolutions, plan)
    ensures KnownRejection(Check(events, resolutions, plan, mayWait))
    ensures Check(events, resolutions, plan, mayWait) == Rejected(MalformedHistory)
       <==> ShapeOf(events, base) == Some(AckedUnsure)
  {
    Verdicts(events, base, resolutions, plan, mayWait);
  }

  lemma RejectionsOfReachable(plan: Plan, actions: seq<Action>, mayWait: bool)
    ensures var s := Execute(Initial(plan), actions);
      KnownRejection(Check(s.events, s.resolutions, plan, mayWait))
  {
    var s := Execute(Initial(plan), actions);
    InitialInv(plan);
    ExecuteKeeps(Initial(plan), actions);
    ExpectedRejections(s.events, s.base, s.resolutions, s.plan, mayWait);
  }

  ghost predicate Broken(s: System) {
    ShapeOf(s.events, s.base) == Some(AckedUnsure)
  }

  /** The acknowledgement's append raises although the event is already durable, and the
      handler's own append then lands too: the source's `except BaseException` cannot tell
      that the acknowledgement was recorded. */
  ghost predicate LateInterrupt(s: System, a: Action) {
    && a.AcknowledgementArrives? && s.host.Dispatching?
    && (s.host.intent.nonce, a.value) in s.runReplies && a.value == Report(Acknowledge(s.plan, s.host.intent))
    && a.ackFate.WrittenThenRaised? && a.uncertainFate.Durable()
  }

  /** A history is broken by exactly that step, and stays broken. */
  lemma BrokenExactly(s: System, a: Action)
    requires Inv(s)
    ensures Broken(Next(s, a)) <==> Broken(s) || LateInterrupt(s, a)
  {
    match a
    case AcknowledgementArrives(value, ackFate, uncertainFate) =>
      BrokenByAcknowledgement(s, value, ackFate, uncertainFate);
    case DispatchFails(fate) =>
      if s.host.Dispatching? {
        BrokenNotByUncertain(s, fate);
      }
    case ReconcileBegins(fate) => BrokenNotByReconcile(s, fate);
    case DispatchBegins(direction, nonce, fate) => BrokenNotByDispatch(s, direction, nonce, fate);
    case _ => OthersKeepEvents(s, a);
  }

  lemma OthersKeepEvents(s: System, a: Action)
    requires a.FenceReplyArrives? || a.TargetActs? || a.SendRun? || a.SendFence? || a.HostStops?
    ensures Next(s, a).events == s.events && Next(s, a).base == s.base
  {
  }

  lemma BrokenByAcknowledgement(s: System, value: Value, ackFate: Fate, uncertainFate: Fate)
    requires Inv(s)
    ensures Broken(FinishDispatch(s, value, ackFate, uncertainFate))
       <==> Broken(s) || LateInterrupt(s, AcknowledgementArrives(value, ackFate, uncertainFate))
  {
    if s.host.Dispatching? {
      var tail := ClosingEvents(s.events, s.base, s.host.intent, value, ackFate, uncertainFate);
    }
  }

  lemma BrokenNotByReconcile(s: System, fate: Fate)
    requires Inv(s)
    ensures Broken(BeginReconcile(s, fate)) <==> Broken(s)
  {
    if s.host.Idle? && Check(s.events, s.resolutions, s.plan, true).Waiting? {
      WaitingShape(s);
      if |s.events| % 2 == 1 {
        BrokenNotByUncertain(s, fate);
      }
    }
  }

  lemma BrokenNotByDispatch(s: System, direction: Direction, nonce: string, fate: Fate)
    requires Inv(s)
    ensures Broken(BeginDispatch(s, direction, nonce, fate)) <==> Broken(s)
  {
    ExpectedRejections(s.events, s.base, s.resolutions, s.plan, false);
    var s' := BeginDispatch(s, direction, nonce, fate);
    if s'.events != s.events {
      assert |s'.events| == s'.base + 1;
    }
  }

  lemma BrokenNotByUncertain(s: System, fate: Fate)
    requires Inv(s) && ShapeOf(s.events, s.base) == Some(Headed)
    ensures !Broken(s.(events := Append(s.events, Uncertain(s.events[s.base].intent), fate)))
  {
    TornShapes(s.events, s.base);
    AppendAdds(s.events, Uncertain(s.events[s.base].intent), fate);
    ClosedShapes(s.events, s.base, Uncertain(s.events[s.base].intent), fate);
  }

  /** Whether some step of the run is a late interrupt. */
  ghost predicate Interrupted(s: System, actions: seq<Action>)
    decreases actions
  {
    actions != [] && (LateInterrupt(s, actions[0]) || Interrupted(Next(s, actions[0]), actions[1..]))
  }

  lemma {:induction false} BrokenByInterrupt(s: System, actions: seq<Action>)
    requires Inv(s)
    ensures Broken(Execute(s, actions)) <==> Broken(s) || Interrupted(s, actions)
    decreases actions
  {
    if actions != [] {
      NextKeeps(s, actions[0]);
      BrokenExactly(s, actions[0]);
      BrokenByInterrupt(Next(s, actions[0]), actions[1..]);
    }
  }

  /** A host-built history is rejected as malformed if and only if the run had a late interrupt. */
  lemma MalformedIffInterrupted(plan: Plan, actions: seq<Action>, mayWait: bool)
    ensures var s := Execute(Initial(plan), actions);
      Check(s.events, s.resolutions, plan, mayWait) == Rejected(MalformedHistory)
      <==> Interrupted(Initial(plan), actions)
  {
    var s := Execute(Initial(plan), actions);
    InitialInv(plan);
    ExecuteKeeps(Initial(plan), actions);
    BrokenByInterrupt(Initial(plan), actions);
    ExpectedRejections(s.events, s.base, s.resolutions, s.plan, mayWait);
  }

  /** The failing family has members: a first dispatch whose every step succeeds, except that the
      acknowledgement's append raises after it has become durable. */
  function InterruptedRun(plan: Plan, nonce: string): seq<Action> {
    var intent := Intent(Apply, nonce);
    var value := Report(Acknowledge(plan, intent));
    [DispatchBegins(Apply, nonce, Written), SendRun, TargetActs(LR.Run(nonce, RequestOf(plan, intent), Written)),
     TargetActs(LR.EffectBegins), TargetActs(LR.EffectReturns(value)), TargetActs(LR.WriteReceipt(Written)),
     AcknowledgementArrives(value, WrittenThenRaised, Written)]
  }

  /** Just before that run's last step the right acknowledgement is in flight. */
  lemma AcknowledgementInFlight(plan: Plan, nonce: string) returns (s: System)
    requires Hex(plan.digest, 64) && Hex(nonce, 32)
    ensures var actions := InterruptedRun(plan, nonce);
      && s == Execute(Initial(plan), actions[..6])
      && s.host == Dispatching(Intent(Apply, nonce)) && s.plan == plan
      && (nonce, Report(Acknowledge(plan, Intent(Apply, nonce)))) in s.runReplies
  {
    var actions := InterruptedRun(plan, nonce)[..6];
    var request := RequestOf(plan, Intent(Apply, nonce));
    var s1 := Next(Initial(plan), actions[0]);
    var s2 := Next(s1, actions[1]);
    assert s2.host == Dispatching(Intent(Apply, nonce)) && s2.runsSent == {request} && s2.target == LR.EMPTY;
    assert Admit(s2.target.files, nonce, request).Start?;
    var s3 := Next(s2, actions[2]);
    assert s3.target.active == Some(LR.Active(request, LR.Intended));
    var s4, s5;
    s4, s5, s := TargetAnswers(s3, request, Report(Acknowledge(plan, Intent(Apply, nonce))));
    assert actions[0..] == actions;
    OneMore(Initial(plan), actions, 0);
    OneMore(s1, actions, 1);
    OneMore(s2, actions, 2);
    OneMore(s3, actions, 3);
    OneMore(s4, actions, 4);
    OneMore(s5, actions, 5);
  }

  lemma TargetAnswers(s: System, request: Request, value: Value) returns (begun: System, done: System, answered: System)
    requires s.target.active == Some(LR.Active(request, LR.Intended))
    ensures begun == Next(s, TargetActs(LR.EffectBegins)) && done == Next(begun, TargetActs(LR.EffectReturns(value)))
    ensures answered == Next(done, TargetActs(LR.WriteReceipt(Written)))
    ensures answered.host == s.host && answered.plan == s.plan && (request.nonce, value) in answered.runReplies
  {
    begun := Next(s, TargetActs(LR.EffectBegins));
    assert begun.target.active == Some(LR.Active(request, LR.Running));
    done := Next(begun, TargetActs(LR.EffectReturns(value)));
    assert done.target.active == Some(LR.Active(request, LR.Returned(value)));
    answered := Next(done, TargetActs(LR.WriteReceipt(Written)));
  }

  lemma OneMore(s: System, actions: seq<Action>, n: nat)
    requires n < |actions|
    ensures Execute(s, actions[n..]) == Execute(Next(s, actions[n]), actions[n + 1..])
  {
  }

  lemma {:induction false} InterruptedLater(s: System, actions: seq<Action>, n: nat)
    requires n < |actions| && LateInterrupt(Execute(s, actions[..n]), actions[n])
    ensures Interrupted(s, actions)
    decreases n
  {
    if n > 0 {
      assert actions[1..][..n - 1] == actions[..n][1..];
      InterruptedLater(Next(s, actions[0]), actions[1..], n - 1);
    }
  }

  /** So a history that only the host's own code wrote can be refused as malformed, for any plan. */
  lemma InterruptHappens(plan: Plan, nonce: string, mayWait: bool)
    requires Hex(plan.digest, 64) && Hex(nonce, 32)
    ensures var s := Execute(Initial(plan), InterruptedRun(plan, nonce));
      Check(s.events, s.resolutions, plan, mayWait) == Rejected(MalformedHistory)
  {
    var s := AcknowledgementInFlight(plan, nonce);
    InterruptedLater(Initial(plan), InterruptedRun(plan, nonce), 6);
    MalformedIffInterrupted(plan, InterruptedRun(plan, nonce), mayWait);
  }

  // ----- The class methods are runs of these steps -----

  lemma {:induction false} ExecuteAppend(s: System, a: seq<Action>, b: seq<Action>)
    ensures Execute(s, a + b) == Execute(Execute(s, a), b)
    decreases a
  {
    if a == [] {
      assert a + b == b;
    } else {
      assert (a + b)[1..] == a[1..] + b;
      ExecuteAppend(Next(s, a[0]), a[1..], b);
    }
  }

  /** What can happen while the host waits for its transport. */
  ghost predicate Elsewhere(actions: seq<Action>) {
    forall i :: 0 <= i < |actions| ==> actions[i].SendRun? || actions[i].SendFence? || actions[i].TargetActs?
  }

  /** The host's side of the system is the same. */
  ghost predicate SameHost(s: System, s': System) {
    s'.plan == s.plan && s'.events == s.events && s'.resolutions == s.resolutions && s'.host == s.host
    && s'.base == s.base
  }

  lemma {:induction false} ElsewhereKeepsHost(s: System, actions: seq<Action>)
    requires Elsewhere(actions)
    ensures SameHost(s, Execute(s, actions))
    decreases actions
  {
    if actions != [] {
      assert SameHost(s, Next(s, actions[0]));
      ElsewhereKeepsHost(Next(s, actions[0]), actions[1..]);
    }
  }

  /** A call's first step, what happens meanwhile, and its last step. */
  lemma ThreeParts(s: System, first: Action, meanwhile: seq<Action>, last: Action)
    requires Elsewhere(meanwhile)
    ensures var waiting := Execute(Next(s, first), meanwhile);
      && SameHost(Next(s, first), waiting)
      && Execute(s, [first] + meanwhile + [last]) == Next(waiting, last)
  {
    ElsewhereKeepsHost(Next(s, first), meanwhile);
    ExecuteAppend(s, [first] + meanwhile, [last]);
    ExecuteAppend(s, [first], meanwhile);
  }

  /** The last step of a dispatch. */
  function DispatchEnd(plan: Plan, intent: Intent, transport: Transport<Value>, ackFate: Fate,
                       uncertainFate: Fate): Action {
    if transport == Replied(Report(Acknowledge(plan, intent))) then
      AcknowledgementArrives(transport.reply, ackFate, uncertainFate)
    else DispatchFails(uncertainFate)
  }

  /** A whole dispatch, with whatever the target does meanwhile: the host's records are those of
      a run, for every fate of every append and every answer of the transport. A reply must have
      been given by the time it arrives. */
  lemma DispatchCallIsARun(s: System, direction: Direction, nonce: string, intentFate: Fate, meanwhile: seq<Action>,
                           transport: Transport<Value>, ackFate: Fate, uncertainFate: Fate)
    requires s.host.Idle? && s.plan.schema == 2 && Hex(nonce, 32) && Fresh(s.events, nonce) && Elsewhere(meanwhile)
    requires var waiting := Execute(Next(s, DispatchBegins(direction, nonce, intentFate)), meanwhile);
      waiting.host.Dispatching? && transport.Replied? ==> (nonce, transport.reply) in waiting.runReplies
    ensures var last := DispatchEnd(s.plan, Intent(direction, nonce), transport, ackFate, uncertainFate);
      var ended := Execute(s, [DispatchBegins(direction, nonce, intentFate)] + meanwhile + [last]);
      var call := DispatchCall(s.plan, s.events, s.resolutions, direction, s.plan.digest, nonce, intentFate,
                               transport, ackFate, uncertainFate);
      call.0 == ended.events && s.resolutions == ended.resolutions && ended.host.Idle?
  {
    var last := DispatchEnd(s.plan, Intent(direction, nonce), transport, ackFate, uncertainFate);
    ThreeParts(s, DispatchBegins(direction, nonce, intentFate), meanwhile, last);
    DispatchCallBegins(s, direction, nonce, intentFate, transport, ackFate, uncertainFate);
    var waiting := Execute(Next(s, DispatchBegins(direction, nonce, intentFate)), meanwhile);
    if waiting.host.Dispatching? {
      TransmitCallEnds(waiting, transport, ackFate, uncertainFate);
    }
  }

  lemma DispatchCallBegins(s: System, direction: Direction, nonce: string, intentFate: Fate,
                           transport: Transport<Value>, ackFate: Fate, uncertainFate: Fate)
    requires s.host.Idle? && s.plan.schema == 2 && Hex(nonce, 32) && Fresh(s.events, nonce)
    ensures var begun := BeginDispatch(s, direction, nonce, intentFate);
      && (begun.host.Dispatching? ==> begun.host.intent == Intent(direction, nonce))
      && (begun.host.Dispatching? || begun.host.Idle?) && begun.plan == s.plan && begun.resolutions == s.resolutions
      && DispatchCall(s.plan, s.events, s.resolutions, direction, s.plan.digest, nonce, intentFate,
                      transport, ackFate, uncertainFate).0
         == if begun.host.Dispatching?
            then TransmitCall(s.plan, begun.events, Intent(direction, nonce), transport, ackFate, uncertainFate).0
            else begun.events
  {
  }

  lemma TransmitCallEnds(s: System, transport: Transport<Value>, ackFate: Fate, uncertainFate: Fate)
    requires s.host.Dispatching?
    requires transport.Replied? ==> (s.host.intent.nonce, transport.reply) in s.runReplies
    ensures var ended := Next(s, DispatchEnd(s.plan, s.host.intent, transport, ackFate, uncertainFate));
      && TransmitCall(s.plan, s.events, s.host.intent, transport, ackFate, uncertainFate).0 == ended.events
      && ended.host.Idle? && ended.resolutions == s.resolutions
  {
  }

  /** The last step of a reconciliation: the reply is acted on only once the attempt and the
      observation are on record. */
  function ReconcileEnd(noteFate: Fate, transport: Transport<FenceReply>, observationFate: Fate,
                        resolutionFate: Fate): Action {
    if noteFate.Written? && transport.Replied? && observationFate.Written? then
      FenceReplyArrives(transport.reply, resolutionFate)
    else HostStops
  }

  /** A whole reconciliation likewise. */
  lemma ReconcileCallIsARun(s: System, uncertainFate: Fate, noteFate: Fate, meanwhile: seq<Action>,
                            transport: Transport<FenceReply>, observationFate: Fate, resolutionFate: Fate)
    requires s.host.Idle? && s.plan.schema == 2 && Elsewhere(meanwhile)
    requires var waiting := Execute(Next(s, ReconcileBegins(uncertainFate)), meanwhile);
      waiting.host.Fencing? && transport.Replied? ==> transport.reply in waiting.fenceReplies
    ensures var last := ReconcileEnd(noteFate, transport, observationFate, resolutionFate);
      var ended := Execute(s, [ReconcileBegins(uncertainFate)] + meanwhile + [last]);
      var call := ReconcileCall(s.plan, s.events, s.resolutions, s.plan.digest, uncertainFate, noteFate,
                                transport, observationFate, resolutionFate);
      call.0 == ended.events && call.1 == ended.resolutions && ended.host.Idle?
  {
    ThreeParts(s, ReconcileBegins(uncertainFate), meanwhile,
               ReconcileEnd(noteFate, transport, observationFate, resolutionFate));
    ReconcileCallBegins(s, uncertainFate, noteFate, transport, observationFate, resolutionFate);
    SettleCallEnds(Execute(Next(s, ReconcileBegins(uncertainFate)), meanwhile), noteFate, transport, observationFate,
                   resolutionFate);
  }

  lemma ReconcileCallBegins(s: System, uncertainFate: Fate, noteFate: Fate, transport: Transport<FenceReply>,
                            observationFate: Fate, resolutionFate: Fate)
    requires s.host.Idle? && s.plan.schema == 2
    ensures var begun := BeginReconcile(s, uncertainFate);
      var call := ReconcileCall(s.plan, s.events, s.resolutions, s.plan.digest, uncertainFate, noteFate,
                                transport, observationFate, resolutionFate);
      && (begun.host.Idle? || begun.host.Fencing?) && begun.plan == s.plan && begun.resolutions == s.resolutions
      && call.0 == begun.events
      && call.1 == if begun.host.Fencing? && noteFate.Written?
                   then SettleCall(s.plan, s.resolutions, begun.host.intent, transport, observationFate,
                                   resolutionFate).0
                   else s.resolutions
  {
    var verdict := Check(s.events, s.resolutions, s.plan, true);
    if verdict.Waiting? {
      PursueCallBegins(s, verdict.intent, uncertainFate, noteFate, transport, observationFate, resolutionFate);
    }
  }

  lemma PursueCallBegins(s: System, intent: Intent, uncertainFate: Fate, noteFate: Fate,
                         transport: Transport<FenceReply>, observationFate: Fate, resolutionFate: Fate)
    ensures var odd := |s.events| % 2 == 1;
      var call := PursueCall(s.plan, s.events, s.resolutions, intent, uncertainFate, noteFate, transport,
                             observationFate, resolutionFate);
      && call.0 == (if odd then Append(s.events, Uncertain(intent), uncertainFate) else s.events)
      && call.1 == if (odd ==> uncertainFate.Written?) && noteFate.Written?
                   then SettleCall(s.plan, s.resolutions, intent, transport, observationFate, resolutionFate).0
                   else s.resolutions
  {
  }

  lemma SettleCallEnds(s: System, noteFate: Fate, transport: Transport<FenceReply>, observationFate: Fate,
                       resolutionFate: Fate)
    requires s.host.Idle? || s.host.Fencing?
    requires s.host.Fencing? && transport.Replied? ==> transport.reply in s.fenceReplies
    ensures var ended := Next(s, ReconcileEnd(noteFate, transport, observationFate, resolutionFate));
      && ended.events == s.events && ended.host.Idle?
      && ended.resolutions
         == if s.host.Fencing? && noteFate.Written?
            then SettleCall(s.plan, s.resolutions, s.host.intent, transport, observationFate, resolutionFate).0
            else s.resolutions
  {
  }
}
