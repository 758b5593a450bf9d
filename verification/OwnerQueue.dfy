/** Handing requests from client threads to the owning thread (tools/forge_dispatch.py:7-51).

    Requests are numbered by acceptance. The owner drains one request at a time; callers time out
    and the queue closes at any moment in between.
 */
module OwnerQueue {
  import opened Wrappers

  type Id = string

  datatype Answer = ResultOf(id: Id, ok: bool) | ClosedBefore

  datatype Future = Waiting | Active | Resolved(answer: Answer) | Dropped

  /** What the owner has in hand: taken off the queue, or its function begun. */
  datatype Hand = Empty | Taken(at: nat) | Begun(at: nat)

  datatype Told = NotStarted | Got(answer: Answer)

  /** `order` holds every accepted request, `ran` the positions whose function was begun. */
  datatype Queue = Queue(limit: nat, order: seq<Id>, pending: seq<Id>, closed: bool, closing: bool, hand: Hand,
                         futures: map<Id, Future>, ran: seq<nat>, told: map<Id, Told>)

  function Open(limit: nat): Queue {
    Queue(limit, [], [], false, false, Empty, map[], [], map[])
  }

  function Head(q: Queue): nat {
    if |q.pending| <= |q.order| then |q.order| - |q.pending| else 0
  }

  /** A limit of zero is no limit. */
  predicate Room(pending: nat, limit: nat) {
    limit == 0 || pending < limit
  }

  predicate Accepts(q: Queue, id: Id) {
    !q.closed && !q.closing && Room(|q.pending|, q.limit) && id !in q.futures
  }

  function Enter(q: Queue, id: Id): Queue {
    if !Accepts(q, id) then q
    else q.(order := q.order + [id], pending := q.pending + [id], futures := q.futures[id := Waiting])
  }

  function Take(q: Queue): Queue {
    if q.hand.Empty? && q.pending != [] then q.(hand := Taken(Head(q)), pending := q.pending[1..]) else q
  }

  /** Begin the function unless its caller has gone. */
  function Begin(q: Queue): Queue {
    if !q.hand.Taken? || q.hand.at >= |q.order| || q.order[q.hand.at] !in q.futures then q
    else if !q.futures[q.order[q.hand.at]].Waiting? then q.(hand := Empty)
    else q.(hand := Begun(q.hand.at), ran := q.ran + [q.hand.at], futures := q.futures[q.order[q.hand.at] := Active])
  }

  function End(q: Queue, ok: bool): Queue {
    if !q.hand.Begun? || q.hand.at >= |q.order| then q
    else
      var id := q.order[q.hand.at];
      q.(hand := Empty, futures := q.futures[id := Resolved(ResultOf(id, ok))])
  }

  /** A caller stops waiting: it withdraws a request that has not begun, and is told so. */
  function TimeOut(q: Queue, id: Id): Queue {
    if id in q.futures && q.futures[id].Waiting?
    then q.(futures := q.futures[id := Dropped], told := q.told[id := NotStarted]) else q
  }

  function Return(q: Queue, id: Id): Queue {
    if id in q.futures && q.futures[id].Resolved? && id !in q.told
    then q.(told := q.told[id := Got(q.futures[id].answer)]) else q
  }

  function CloseBegins(q: Queue): Queue {
    q.(closed := true, closing := true)
  }

  /** Closing answers the oldest pending request, unless its caller has gone. */
  function CloseTakes(q: Queue): Queue {
    if !q.closing || q.pending == [] then q
    else
      var id := q.pending[0];
      q.(pending := q.pending[1..],
         futures := if id in q.futures && q.futures[id].Waiting? then q.futures[id := Resolved(ClosedBefore)]
           else q.futures)
  }

  function CloseEnds(q: Queue): Queue {
    if q.closing && q.pending == [] then q.(closing := false) else q
  }

  datatype Action = Calls(id: Id) | Takes | Begins | Ends(ok: bool) | TimesOut(id: Id) | Returns(id: Id)
                  | StartsClosing | Discards | StopsClosing

  function Next(q: Queue, a: Action): Queue {
    match a
    case Calls(id) => Enter(q, id)
    case Takes => Take(q)
    case Begins => Begin(q)
    case Ends(ok) => End(q, ok)
    case TimesOut(id) => TimeOut(q, id)
    case Returns(id) => Return(q, id)
    case StartsClosing => CloseBegins(q)
    case Discards => CloseTakes(q)
    case StopsClosing => CloseEnds(q)
  }

  function Execute(q: Queue, actions: seq<Action>): Queue
    decreases |actions|
  {
    if actions == [] then q else Next(Execute(q, actions[..|actions| - 1]), actions[|actions| - 1])
  }

  // ----- The queue as an object, one call at a time -----

  /** One whole turn of the owner's loop. */
  function Turn(q: Queue, ok: bool): Queue {
    End(Begin(Take(q)), ok)
  }

  /** The queue holds the newest accepted requests, oldest first. */
  predicate Fifo(q: Queue) {
    && |q.pending| <= |q.order| && q.order[|q.order| - |q.pending|..] == q.pending
    && (forall i :: 0 <= i < |q.order| ==> q.order[i] in q.futures)
  }

  /** Those of the pending requests whose callers still waited were told the queue closed. */
  predicate Answered(before: map<Id, Future>, pending: seq<Id>, after: map<Id, Future>) {
    forall id :: id in before ==>
      && id in after
      && after[id] == if id in pending && before[id].Waiting? then Resolved(ClosedBefore) else before[id]
  }

  /** A request's future after the owner's turn: carried out if its caller still waited. */
  function Settled(futures: map<Id, Future>, id: Id, ok: bool): map<Id, Future> {
    if id in futures && futures[id].Waiting? then futures[id := Resolved(ResultOf(id, ok))] else futures
  }

  /** The futures after the first `n` pending requests have had their turn. */
  function SettledAll(futures: map<Id, Future>, pending: seq<Id>, oks: nat -> bool, n: nat): map<Id, Future>
    requires n <= |pending|
  {
    if n == 0 then futures else Settled(SettledAll(futures, pending, oks, n - 1), pending[n - 1], oks(n - 1))
  }

  class OwnerQueue {
    const limit: nat
    var pending: seq<Id>
    var closed: bool
    var futures: map<Id, Future>

    ghost predicate Valid()
      reads this
    {
      (limit != 0 ==> |pending| <= limit) && forall i :: 0 <= i < |pending| ==> pending[i] in futures
    }

    constructor (limit: nat)
      ensures Valid() && this.limit == limit && pending == [] && !closed && futures == map[]
    {
      this.limit, pending, closed, futures := limit, [], false, map[];
    }

    /** The client's half: refused when closing or full. */
    method Submit(id: Id) returns (accepted: bool)
      requires Valid()
      modifies this
      ensures Valid() && accepted == (!closed && Room(|old(pending)|, limit) && id !in old(futures))
              && closed == old(closed)
      ensures pending == (if accepted then old(pending) + [id] else old(pending))
      ensures futures == if accepted then old(futures)[id := Waiting] else old(futures)
    {
      accepted := !closed && Room(|pending|, limit) && id !in futures;
      if accepted {
        pending, futures := pending + [id], futures[id := Waiting];
      }
    }

    /** The owner takes one request and, if its caller still waits, carries it out. */
    method TurnOnce(ok: bool)
      requires Valid() && pending != []
      modifies this`pending, this`futures
      ensures Valid() && pending == old(pending)[1..] && futures == Settled(old(futures), old(pending)[0], ok)
    {
      var id := pending[0];
      pending := pending[1..];
      if futures[id].Waiting? {
        futures := futures[id := Active];
        futures := futures[id := Resolved(ResultOf(id, ok))];
      }
    }

    /** At most as many turns as the queue can hold, oldest first, until it is empty; a queue
        without a limit gets no turn at all. */
    method Drain(oks: nat -> bool)
      requires Valid()
      modifies this`pending, this`futures
      ensures Valid() && pending == if limit == 0 then old(pending) else []
      ensures futures == SettledAll(old(futures), old(pending), oks, if limit == 0 then 0 else |old(pending)|)
    {
      ghost var pending0, futures0 := pending, futures;
      var turns := 0;
      while turns < limit && pending != []
        invariant turns <= |pending0| && turns <= limit && (limit != 0 ==> |pending0| <= limit) && Valid()
                  && pending == pending0[turns..]
        invariant futures == SettledAll(futures0, pending0, oks, turns)
      {
        TurnOnce(oks(turns));
        turns := turns + 1;
      }
    }

    /** Refuse new requests and answer every one still pending. */
    method Close()
      requires Valid()
      modifies this
      ensures closed && pending == [] && Answered(old(futures), old(pending), futures)
    {
      closed := true;
      ghost var n := 0;
      assert pending == old(pending)[0..];
      while pending != []
        invariant n <= |old(pending)| && pending == old(pending)[n..] && closed
        invariant forall i :: 0 <= i < |pending| ==> pending[i] in futures
        invariant Answered(old(futures), old(pending)[..n], futures)
        decreases |pending|
      {
        var id := pending[0];
        assert old(pending)[..n + 1] == old(pending)[..n] + [id];
        pending := pending[1..];
        if futures[id].Waiting? {
          futures := futures[id := Resolved(ClosedBefore)];
        }
        n := n + 1;
      }
      assert old(pending)[..n] == old(pending);
    }
  }

  /** The owner's turn, taken without interruption, is what the three steps do. */
  lemma TurnSettles(q: Queue, ok: bool)
    requires Fifo(q) && q.hand.Empty? && q.pending != []
    ensures Turn(q, ok) == q.(pending := q.pending[1..], futures := Settled(q.futures, q.pending[0], ok),
                              ran := if q.futures[q.pending[0]].Waiting? then q.ran + [Head(q)] else q.ran)
  {
    assert q.order[Head(q)] == q.order[Head(q)..][0] == q.pending[0];
    var id := q.pending[0];
    assert q.futures[id := Active][id := Resolved(ResultOf(id, ok))] == q.futures[id := Resolved(ResultOf(id, ok))];
  }

  /** The steps of `n` turns. */
  function Turns(oks: nat -> bool, n: nat): seq<Action> {
    if n == 0 then [] else Turns(oks, n - 1) + [Takes, Begins, Ends(oks(n - 1))]
  }

  lemma ExecuteSnoc(q: Queue, before: seq<Action>, a: Action)
    ensures Execute(q, before + [a]) == Next(Execute(q, before), a)
  {
    assert (before + [a])[..|before|] == before;
  }

  lemma ExecuteTurn(q: Queue, before: seq<Action>, ok: bool)
    ensures Execute(q, before + [Takes, Begins, Ends(ok)]) == Turn(Execute(q, before), ok)
  {
    ExecuteSnoc(q, before, Takes);
    ExecuteSnoc(q, before + [Takes], Begins);
    ExecuteSnoc(q, before + [Takes] + [Begins], Ends(ok));
    assert before + [Takes, Begins, Ends(ok)] == before + [Takes] + [Begins] + [Ends(ok)];
  }

  lemma TurnFifo(q: Queue, ok: bool)
    requires Fifo(q) && q.hand.Empty? && q.pending != []
    ensures Fifo(Turn(q, ok)) && Turn(q, ok).hand.Empty?
  {
    var r := Turn(q, ok);
    TurnSettles(q, ok);
    assert r.order[|r.order| - |r.pending|..] == q.order[|q.order| - |q.pending|..][1..];
    forall i | 0 <= i < |q.order| ensures q.order[i] in r.futures {
      assert q.order[i] in q.futures;
    }
  }

  /** `r` is what `n` turns, one after another, make of `q`. */
  ghost predicate Drained(q: Queue, oks: nat -> bool, n: nat, r: Queue)
    requires n <= |q.pending|
  {
    && Fifo(r) && r.hand.Empty? && r.pending == q.pending[n..]
    && r.futures == SettledAll(q.futures, q.pending, oks, n)
    && r == q.(pending := r.pending, futures := r.futures, ran := r.ran)
  }

  lemma DrainedStep(q: Queue, oks: nat -> bool, n: nat, r: Queue)
    requires n < |q.pending| && Drained(q, oks, n, r)
    ensures Drained(q, oks, n + 1, Turn(r, oks(n)))
  {
    TurnFifo(r, oks(n));
    TurnSettles(r, oks(n));
    assert r.pending[0] == q.pending[n] && r.pending[1..] == q.pending[n + 1..];
  }

  /** A drain that nothing interrupts is a run of the interleaved steps, turn after turn. */
  lemma {:induction false} DrainIsARun(q: Queue, oks: nat -> bool, n: nat)
    requires Fifo(q) && q.hand.Empty? && n <= |q.pending|
    ensures Drained(q, oks, n, Execute(q, Turns(oks, n)))
  {
    if n > 0 {
      DrainIsARun(q, oks, n - 1);
      ExecuteTurn(q, Turns(oks, n - 1), oks(n - 1));
      DrainedStep(q, oks, n - 1, Execute(q, Turns(oks, n - 1)));
    }
  }

  /** Nobody is settled twice and nobody's answer is another's. */
  lemma {:induction false} SettledOnce(futures: map<Id, Future>, pending: seq<Id>, oks: nat -> bool, n: nat, k: nat)
    requires n <= |pending| && k < |pending| && (forall i :: 0 <= i < |pending| ==> pending[i] in futures)
    requires forall i, j :: 0 <= i < j < |pending| ==> pending[i] != pending[j]
    ensures var after := SettledAll(futures, pending, oks, n);
      && pending[k] in after
      && after[pending[k]] == if k < n && futures[pending[k]].Waiting? then Resolved(ResultOf(pending[k], oks(k)))
                              else futures[pending[k]]
  {
    if n > 0 {
      SettledOnce(futures, pending, oks, n - 1, k);
      SettledOnce(futures, pending, oks, n - 1, n - 1);
    }
  }
}
