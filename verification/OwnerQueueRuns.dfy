/** The owner queue in every interleaving of callers, timeouts, draining and closing. */
module OwnerQueueRuns {
  import opened Wrappers
  import opened OwnerQueue

  // ----- The invariant -----

  predicate Distinct(order: seq<Id>) {
    forall i, j :: 0 <= i < j < |order| ==> order[i] != order[j]
  }

  /** Positions before the head have left the queue. */
  predicate InHand(hand: Hand, p: nat) {
    !hand.Empty? && hand.at == p
  }

  predicate HasRun(ran: seq<nat>, p: nat) {
    exists i :: 0 <= i < |ran| && ran[i] == p
  }

  /** How the future of position `p` stands, given where the head and the hand are. */
  predicate Standing(f: Future, id: Id, left: bool, hand: Hand, p: nat, begun: bool) {
    match f
    case Waiting => !begun && (!left || InHand(hand, p))
    case Active => begun && hand == Begun(p)
    case Dropped => !begun
    case Resolved(answer) => left && hand != Taken(p) && hand != Begun(p)
                             && (if begun then answer.ResultOf? && answer.id == id else answer.ClosedBefore?)
  }

  ghost predicate StandingAt(order: seq<Id>, futures: map<Id, Future>, head: nat, hand: Hand, ran: seq<nat>, p: nat)
    requires p < |order|
  {
    order[p] in futures && Standing(futures[order[p]], order[p], p < head, hand, p, HasRun(ran, p))
  }

  ghost predicate AllStanding(order: seq<Id>, futures: map<Id, Future>, head: nat, hand: Hand, ran: seq<nat>) {
    forall p :: 0 <= p < |order| ==> StandingAt(order, futures, head, hand, ran, p)
  }

  /** Functions begin in the order of acceptance, each at most once, and only after being taken. */
  predicate RanInOrder(ran: seq<nat>, head: nat, hand: Hand) {
    && (forall i, j :: 0 <= i < j < |ran| ==> ran[i] < ran[j])
    && (forall i :: 0 <= i < |ran| ==> ran[i] < head)
    && (hand.Taken? ==> hand.at < head && forall i :: 0 <= i < |ran| ==> ran[i] < hand.at)
    && (hand.Begun? ==> hand.at < head && ran != [] && ran[|ran| - 1] == hand.at)
  }

  predicate Truly(told: Told, f: Future) {
    match told
    case NotStarted => f.Dropped?
    case Got(answer) => f == Resolved(answer)
  }

  predicate ToldTruly(told: map<Id, Told>, futures: map<Id, Future>) {
    forall id :: id in told ==> id in futures && Truly(told[id], futures[id])
  }

  predicate WithinLimit(pending: nat, limit: nat) {
    limit != 0 ==> pending <= limit
  }

  ghost predicate Inv(q: Queue) {
    && Fifo(q) && WithinLimit(|q.pending|, q.limit) && Distinct(q.order)
    && (forall id :: id in q.futures ==> id in q.order)
    && AllStanding(q.order, q.futures, Head(q), q.hand, q.ran) && RanInOrder(q.ran, Head(q), q.hand)
    && ToldTruly(q.told, q.futures)
    && (q.closing ==> q.closed) && (q.closed && !q.closing ==> q.pending == [])
  }

  // ----- Steps -----

  lemma EnterKeeps(q: Queue, id: Id)
    requires Inv(q) && Accepts(q, id)
    ensures Inv(Enter(q, id))
  {
    var r := Enter(q, id);
    assert r.order[|r.order| - |r.pending|..] == r.pending;
    forall p | 0 <= p < |r.order| ensures StandingAt(r.order, r.futures, Head(r), r.hand, r.ran, p) {
      if p < |q.order| {
        assert r.order[p] == q.order[p] && StandingAt(q.order, q.futures, Head(q), q.hand, q.ran, p);
      }
    }
    assert r.order[|q.order|] == id;
    assert forall k :: k in q.order ==> k in r.order;
  }

  lemma TakeKeeps(q: Queue)
    requires Inv(q) && q.hand.Empty? && q.pending != []
    ensures Inv(Take(q))
  {
    var r := Take(q);
    assert r.order[|r.order| - |r.pending|..] == q.order[|q.order| - |q.pending|..][1..];
    forall p | 0 <= p < |r.order| ensures StandingAt(r.order, r.futures, Head(r), r.hand, r.ran, p) {
      assert StandingAt(q.order, q.futures, Head(q), q.hand, q.ran, p);
    }
  }

  lemma RunSnoc(ran: seq<nat>, at: nat, p: nat)
    ensures HasRun(ran + [at], p) <==> HasRun(ran, p) || p == at
  {
    if HasRun(ran, p) {
      var i :| 0 <= i < |ran| && ran[i] == p;
      assert (ran + [at])[i] == p;
    }
    if p == at {
      assert (ran + [at])[|ran|] == p;
    }
  }

  /** The taken request's function begins. */
  lemma BegunStands(order: seq<Id>, futures: map<Id, Future>, head: nat, ran: seq<nat>, at: nat)
    requires Distinct(order) && at < |order| && AllStanding(order, futures, head, Taken(at), ran)
    requires order[at] in futures && futures[order[at]].Waiting?
    ensures AllStanding(order, futures[order[at] := Active], head, Begun(at), ran + [at])
  {
    var after, run := futures[order[at] := Active], ran + [at];
    forall p | 0 <= p < |order| ensures StandingAt(order, after, head, Begun(at), run, p) {
      RunSnoc(ran, at, p);
      assert StandingAt(order, futures, head, Taken(at), ran, p);
    }
  }

  /** The taken request's caller has gone. */
  lemma SkippedStands(order: seq<Id>, futures: map<Id, Future>, head: nat, ran: seq<nat>, at: nat)
    requires at < |order| && AllStanding(order, futures, head, Taken(at), ran)
    requires order[at] in futures && !futures[order[at]].Waiting?
    ensures AllStanding(order, futures, head, Empty, ran)
  {
    assert StandingAt(order, futures, head, Taken(at), ran, at);
    forall p | 0 <= p < |order| ensures StandingAt(order, futures, head, Empty, ran, p) {
      assert StandingAt(order, futures, head, Taken(at), ran, p);
    }
  }

  lemma BegunInOrder(ran: seq<nat>, head: nat, at: nat)
    requires RanInOrder(ran, head, Taken(at))
    ensures RanInOrder(ran + [at], head, Begun(at))
  {
  }

  lemma ToldStill(told: map<Id, Told>, futures: map<Id, Future>, id: Id, f: Future)
    requires ToldTruly(told, futures) && id in futures && !futures[id].Resolved? && !futures[id].Dropped?
    ensures ToldTruly(told, futures[id := f])
  {
  }

  lemma BeginRuns(q: Queue)
    requires Inv(q) && q.hand.Taken? && q.futures[q.order[q.hand.at]].Waiting?
    ensures Inv(Begin(q))
  {
    var at := q.hand.at;
    BegunStands(q.order, q.futures, Head(q), q.ran, at);
    BegunInOrder(q.ran, Head(q), at);
    ToldStill(q.told, q.futures, q.order[at], Active);
    KeysStay(q.futures, q.order[at], Active);
  }

  lemma KeysStay(futures: map<Id, Future>, id: Id, f: Future)
    requires id in futures
    ensures futures[id := f].Keys == futures.Keys
  {
  }

  lemma BeginKeeps(q: Queue)
    requires Inv(q) && q.hand.Taken?
    ensures Inv(Begin(q))
  {
    var at := q.hand.at;
    assert StandingAt(q.order, q.futures, Head(q), q.hand, q.ran, at);
    if q.futures[q.order[at]].Waiting? {
      BeginRuns(q);
    } else {
      SkippedStands(q.order, q.futures, Head(q), q.ran, at);
    }
  }

  /** The function in hand ends, and its caller gets its result. */
  lemma EndedStands(order: seq<Id>, futures: map<Id, Future>, head: nat, ran: seq<nat>, at: nat, ok: bool)
    requires Distinct(order) && at < head && at < |order| && AllStanding(order, futures, head, Begun(at), ran)
    requires HasRun(ran, at)
    ensures AllStanding(order, futures[order[at] := Resolved(ResultOf(order[at], ok))], head, Empty, ran)
  {
    var after := futures[order[at] := Resolved(ResultOf(order[at], ok))];
    forall p | 0 <= p < |order| ensures StandingAt(order, after, head, Empty, ran, p) {
      assert StandingAt(order, futures, head, Begun(at), ran, p);
    }
  }

  lemma EndedInOrder(ran: seq<nat>, head: nat, at: nat)
    requires RanInOrder(ran, head, Begun(at))
    ensures RanInOrder(ran, head, Empty) && at < head && HasRun(ran, at)
  {
    assert ran[|ran| - 1] == at;
  }

  lemma EndKeeps(q: Queue, ok: bool)
    requires Inv(q) && q.hand.Begun?
    ensures Inv(End(q, ok))
  {
    var at := q.hand.at;
    var f := Resolved(ResultOf(q.order[at], ok));
    EndedInOrder(q.ran, Head(q), at);
    assert StandingAt(q.order, q.futures, Head(q), q.hand, q.ran, at);
    EndedStands(q.order, q.futures, Head(q), q.ran, at, ok);
    ToldStill(q.told, q.futures, q.order[at], f);
    KeysStay(q.futures, q.order[at], f);
  }

  lemma TimeOutKeeps(q: Queue, id: Id)
    requires Inv(q) && id in q.futures && q.futures[id].Waiting?
    ensures Inv(TimeOut(q, id))
  {
    var r := TimeOut(q, id);
    forall p | 0 <= p < |q.order| ensures StandingAt(r.order, r.futures, Head(r), r.hand, r.ran, p) {
      assert StandingAt(q.order, q.futures, Head(q), q.hand, q.ran, p);
    }
  }

  /** The oldest pending request leaves the queue unrun. */
  lemma DiscardStands(order: seq<Id>, futures: map<Id, Future>, head: nat, hand: Hand, ran: seq<nat>)
    requires Distinct(order) && head < |order| && AllStanding(order, futures, head, hand, ran)
    requires !hand.Empty? ==> hand.at < head
    ensures var id := order[head];
      id in futures
      && AllStanding(order, if futures[id].Waiting? then futures[id := Resolved(ClosedBefore)] else futures,
                     head + 1, hand, ran)
  {
    assert StandingAt(order, futures, head, hand, ran, head);
    var id := order[head];
    var after := if futures[id].Waiting? then futures[id := Resolved(ClosedBefore)] else futures;
    var next := head + 1;
    forall p | 0 <= p < |order| ensures StandingAt(order, after, next, hand, ran, p) {
      assert StandingAt(order, futures, head, hand, ran, p);
    }
  }

  lemma DiscardKeeps(q: Queue)
    requires Inv(q) && q.closing && q.pending != []
    ensures Inv(CloseTakes(q))
  {
    var r := CloseTakes(q);
    var at := Head(q);
    assert q.order[at] == q.order[at..][0] == q.pending[0];
    assert r.order[|r.order| - |r.pending|..] == q.order[at..][1..];
    DiscardStands(q.order, q.futures, at, q.hand, q.ran);
  }

  lemma StepKeeps(q: Queue, a: Action)
    requires Inv(q)
    ensures Inv(Next(q, a))
  {
    match a {
      case Calls(id) => if Accepts(q, id) { EnterKeeps(q, id); }
      case Takes => if q.hand.Empty? && q.pending != [] { TakeKeeps(q); }
      case Begins => if q.hand.Taken? { BeginKeeps(q); }
      case Ends(ok) => if q.hand.Begun? { EndKeeps(q, ok); }
      case TimesOut(id) => if id in q.futures && q.futures[id].Waiting? { TimeOutKeeps(q, id); }
      case Discards => if q.closing && q.pending != [] { DiscardKeeps(q); }
      case _ =>
    }
  }

  lemma {:induction false} RunKeeps(limit: nat, actions: seq<Action>)
    ensures Inv(Execute(Open(limit), actions))
    decreases |actions|
  {
    if actions != [] {
      RunKeeps(limit, actions[..|actions| - 1]);
      StepKeeps(Execute(Open(limit), actions[..|actions| - 1]), actions[|actions| - 1]);
    }
  }

  lemma LimitKept(q: Queue, a: Action)
    ensures Next(q, a).limit == q.limit
  {
  }

  lemma {:induction false} LimitFixed(q: Queue, actions: seq<Action>)
    ensures Execute(q, actions).limit == q.limit
    decreases |actions|
  {
    if actions != [] {
      LimitFixed(q, actions[..|actions| - 1]);
      LimitKept(Execute(q, actions[..|actions| - 1]), actions[|actions| - 1]);
    }
  }

  // ----- What it buys -----

  /** Every function begins at most once, in the order the requests were accepted, and the queue
      never holds more than its limit. */
  lemma OnceInOrder(limit: nat, actions: seq<Action>)
    ensures var q := Execute(Open(limit), actions);
      && (forall i, j :: 0 <= i < j < |q.ran| ==> q.ran[i] < q.ran[j])
      && (forall i :: 0 <= i < |q.ran| ==> q.ran[i] < |q.order|)
      && Distinct(q.order) && (limit != 0 ==> |q.pending| <= limit)
  {
    RunKeeps(limit, actions);
    LimitFixed(Open(limit), actions);
  }

  /** A caller told that no operation started has a function that has not run; any other answer
      is that function's own, or that the queue closed before it ran. */
  lemma ToldTheTruth(limit: nat, actions: seq<Action>, p: nat)
    ensures var q := Execute(Open(limit), actions);
      p < |q.order| && q.order[p] in q.told ==>
        match q.told[q.order[p]]
        case NotStarted => !HasRun(q.ran, p)
        case Got(answer) =>
          if HasRun(q.ran, p) then answer.ResultOf? && answer.id == q.order[p] else answer.ClosedBefore?
  {
    RunKeeps(limit, actions);
    var q := Execute(Open(limit), actions);
    if p < |q.order| {
      assert StandingAt(q.order, q.futures, Head(q), q.hand, q.ran, p);
    }
  }

  /** What a caller was told stays told: a withdrawn request never begins later. */
  lemma {:induction false} WithdrawnForever(q: Queue, actions: seq<Action>, p: nat)
    requires Inv(q) && p < |q.order| && q.futures[q.order[p]].Dropped?
    ensures var r := Execute(q, actions);
      Inv(r) && q.order <= r.order && r.futures[q.order[p]].Dropped? && !HasRun(r.ran, p)
    decreases |actions|
  {
    assert StandingAt(q.order, q.futures, Head(q), q.hand, q.ran, p);
    if actions != [] {
      WithdrawnForever(q, actions[..|actions| - 1], p);
      var r := Execute(q, actions[..|actions| - 1]);
      StepKeeps(r, actions[|actions| - 1]);
      DroppedStays(r, actions[|actions| - 1], p);
    }
  }

  lemma DroppedStays(q: Queue, a: Action, p: nat)
    requires Inv(q) && Inv(Next(q, a)) && p < |q.order| && q.futures[q.order[p]].Dropped?
    ensures var r := Next(q, a);
      q.order <= r.order && r.futures[q.order[p]].Dropped? && !HasRun(r.ran, p)
  {
    var r := Next(q, a);
    assert StandingAt(q.order, q.futures, Head(q), q.hand, q.ran, p);
    FutureKept(q, a, p);
    assert StandingAt(r.order, r.futures, Head(r), r.hand, r.ran, p);
  }

  lemma FutureKept(q: Queue, a: Action, p: nat)
    requires Distinct(q.order) && p < |q.order| && q.order[p] in q.futures && q.futures[q.order[p]].Dropped?
    requires RanInOrder(q.ran, Head(q), q.hand) && !HasRun(q.ran, p)
    ensures var r := Next(q, a);
      q.order <= r.order && q.order[p] in r.futures && r.futures[q.order[p]].Dropped?
  {
    if a.Ends? && q.hand.Begun? {
      assert HasRun(q.ran, q.hand.at);
    }
  }

  /** Once closing is done, nothing is accepted any more, and every request has its answer or was
      withdrawn, except one that the owner still has in hand. */
  lemma ClosedIsFinal(limit: nat, actions: seq<Action>, p: nat, id: Id)
    ensures var q := Execute(Open(limit), actions);
      q.closed && !q.closing ==>
        && !Accepts(q, id) && q.pending == []
        && (p < |q.order| && !InHand(q.hand, p) ==>
              q.order[p] in q.futures && (q.futures[q.order[p]].Resolved? || q.futures[q.order[p]].Dropped?))
  {
    RunKeeps(limit, actions);
    var q := Execute(Open(limit), actions);
    if p < |q.order| {
      assert StandingAt(q.order, q.futures, Head(q), q.hand, q.ran, p);
    }
  }
}
