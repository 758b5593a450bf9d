/** What every run of the two-port modem keeps. */
module ModemRuns {
  import opened Wrappers
  import opened ModemCore
  import opened ModemPort
  import opened Modem

  datatype Action = Typed(channel: Channel, b: Byte) | Scenario(changes: Changes)

  function Act(grammar: Grammar, listener: Listener, m: State, a: Action): Outcome {
    match a
    case Typed(channel, b) => TakeByte(grammar, listener, m, channel, b)
    case Scenario(changes) => Rescenario(listener, m, changes)
  }

  /** A run, what each port has said, and the readiness and registration after each action that
      got as far as the link. */
  datatype Trace = Trace(modem: State, primary: seq<Item>, secondary: seq<Item>, readies: seq<bool>,
                         registrations: seq<nat>)

  function Start(listener: Listener, radio: Radio): Trace {
    Trace(Switched(listener, radio), [], [], [radio.NetworkReady()], [radio.Registered()])
  }

  /** Whether an action changes anything at all. */
  predicate Proceeds(m: State, a: Action) {
    !m.poisoned && (a.Scenario? ==> a.changes != NO_CHANGES && InRange(Changing(m.radio, a.changes)))
  }

  /** The trace after an action with this outcome. */
  function Extended(t: Trace, r: Outcome): Trace {
    Trace(r.modem, t.primary + (if r.said.None? then [] else r.said.value.primary),
          t.secondary + (if r.said.None? then [] else r.said.value.secondary),
          t.readies + [r.modem.radio.NetworkReady()], t.registrations + [r.modem.radio.Registered()])
  }

  function Next(grammar: Grammar, listener: Listener, t: Trace, a: Action): Trace {
    if Proceeds(t.modem, a) then Extended(t, Act(grammar, listener, t.modem, a)) else t
  }

  function Execute(grammar: Grammar, listener: Listener, t: Trace, actions: seq<Action>): Trace
    decreases |actions|
  {
    if actions == [] then t
    else Next(grammar, listener, Execute(grammar, listener, t, actions[..|actions| - 1]), actions[|actions| - 1])
  }

  /** A sequence without its repetitions: what is left is the changes. */
  function Edges<T(==)>(s: seq<T>): seq<T>
    decreases |s|
  {
    if |s| <= 1 then s
    else
      var before := Edges(s[..|s| - 1]);
      if s[|s| - 1] == s[|s| - 2] then before else before + [s[|s| - 1]]
  }

  lemma ChangesSnoc<T>(s: seq<T>, x: T)
    ensures Edges(s + [x]) == if s == [] then [x] else if x == s[|s| - 1] then Edges(s) else Edges(s) + [x]
  {
    assert (s + [x])[..|s|] == s;
  }

  lemma {:induction false} ChangesEnd<T>(s: seq<T>)
    requires s != []
    ensures Edges(s) != [] && Edges(s)[|Edges(s)| - 1] == s[|s| - 1]
    ensures forall i :: 0 < i < |Edges(s)| ==> Edges(s)[i - 1] != Edges(s)[i]
    decreases |s|
  {
    if |s| > 1 {
      ChangesEnd(s[..|s| - 1]);
    }
  }

  /** The state is sound, the link tells the truth, and the listener heard exactly the changes. */
  ghost predicate Inv(t: Trace) {
    && Sound(t.modem.radio) && t.readies != [] && t.registrations != []
    && t.readies[|t.readies| - 1] == t.modem.radio.NetworkReady()
    && t.registrations[|t.registrations| - 1] == t.modem.radio.Registered()
    && (!t.modem.poisoned ==> t.modem.link == Some(t.modem.radio.NetworkReady()))
    && t.modem.calls == Edges(t.readies)
  }

  lemma ActRadio(grammar: Grammar, listener: Listener, m: State, a: Action)
    requires Sound(m.radio) && Proceeds(m, a)
    ensures Sound(Act(grammar, listener, m, a).modem.radio)
  {
    match a {
      case Typed(channel, b) =>
        var port := PortOf(m, channel);
        if b == CR && port.pending != [] && Ascii(port.pending) {
          PerformSound(m.radio, port.settings, grammar(port.pending));
        }
      case Scenario(changes) =>
    }
  }

  /** The link report of one action. */
  ghost predicate LinkTold(m: State, r: Outcome) {
    var up := r.modem.radio.NetworkReady();
    && r.modem.calls == m.calls + (if m.link == Some(up) then [] else [up])
    && (!r.modem.poisoned ==> r.modem.link == Some(up)) && (r.modem.poisoned <==> r.said.None?)
  }

  lemma ActLink(grammar: Grammar, listener: Listener, m: State, a: Action)
    requires Proceeds(m, a) && m.link.Some?
    ensures LinkTold(m, Act(grammar, listener, m, a))
  {
    assert m.calls + [] == m.calls;
  }

  lemma StepKeeps(grammar: Grammar, listener: Listener, t: Trace, a: Action)
    requires Inv(t)
    ensures Inv(Next(grammar, listener, t, a))
  {
    if Proceeds(t.modem, a) {
      ActRadio(grammar, listener, t.modem, a);
      ActLink(grammar, listener, t.modem, a);
      OutcomeKeeps(t, Act(grammar, listener, t.modem, a));
    }
  }

  lemma OutcomeKeeps(t: Trace, r: Outcome)
    requires Inv(t) && !t.modem.poisoned && Sound(r.modem.radio) && LinkTold(t.modem, r)
    ensures Inv(Extended(t, r))
  {
    ChangesSnoc(t.readies, r.modem.radio.NetworkReady());
    assert Edges(t.readies) + [] == Edges(t.readies);
  }

  lemma {:induction false} RunKeeps(grammar: Grammar, listener: Listener, radio: Radio, actions: seq<Action>)
    requires Sound(radio)
    ensures Inv(Execute(grammar, listener, Start(listener, radio), actions))
    decreases |actions|
  {
    if actions != [] {
      RunKeeps(grammar, listener, radio, actions[..|actions| - 1]);
      StepKeeps(grammar, listener, Execute(grammar, listener, Start(listener, radio), actions[..|actions| - 1]),
                actions[|actions| - 1]);
    }
  }

  /** In every run: no undefined context is active, a SIM waiting for a PIN has an attempt left,
      the reported link is the modem's readiness unless a report failed, and the listener was told
      of every change of readiness exactly once, in order. */
  lemma ModemInvariants(grammar: Grammar, listener: Listener, radio: Radio, actions: seq<Action>)
    requires Sound(radio)
    ensures var t := Execute(grammar, listener, Start(listener, radio), actions);
      && t.modem.radio.packet.active <= t.modem.radio.packet.contexts.Keys
      && (t.modem.radio.sim.NeedsPin? ==> t.modem.radio.attempts >= 1)
      && (!t.modem.poisoned ==> t.modem.link == Some(t.modem.radio.NetworkReady()))
      && (!t.modem.poisoned ==>
            (t.modem.link == Some(true)
             <==> Online(t.modem.radio) && t.modem.radio.packet.attached && t.modem.radio.packet.active != {}))
      && t.modem.calls == Edges(t.readies)
      && forall i :: 0 < i < |t.modem.calls| ==> t.modem.calls[i - 1] != t.modem.calls[i]
  {
    RunKeeps(grammar, listener, radio, actions);
    ChangesEnd(Execute(grammar, listener, Start(listener, radio), actions).readies);
    OnlineMeans(Execute(grammar, listener, Start(listener, radio), actions).modem.radio);
  }

  // ----- Notices -----

  /** The registrations that notices of one class carry, in order. */
  function Heard(items: seq<Item>, kind: Class): seq<nat>
    decreases |items|
  {
    if items == [] then []
    else
      Heard(items[..|items| - 1], kind)
      + match items[|items| - 1]
        case Notice(c, registered) => if c == kind then [registered] else []
        case _ => []
  }

  lemma HeardSnoc(items: seq<Item>, item: Item, kind: Class)
    ensures Heard(items + [item], kind)
         == Heard(items, kind) + match item
                                   case Notice(c, registered) => if c == kind then [registered] else []
                                   case _ => []
  {
    assert (items + [item])[..|items|] == items;
  }

  lemma {:induction false} HeardAppend(a: seq<Item>, b: seq<Item>, kind: Class)
    ensures Heard(a + b, kind) == Heard(a, kind) + Heard(b, kind)
    decreases |b|
  {
    if b == [] {
      assert a + b == a;
    } else {
      HeardAppend(a, b[..|b| - 1], kind);
      HeardSnoc(a + b[..|b| - 1], b[|b| - 1], kind);
      assert a + b == a + b[..|b| - 1] + [b[|b| - 1]];
    }
  }

  lemma {:induction false} Noticeless(items: seq<Item>, kind: Class)
    requires forall i :: 0 <= i < |items| ==> !items[i].Notice?
    ensures Heard(items, kind) == []
    decreases |items|
  {
    if items != [] {
      Noticeless(items[..|items| - 1], kind);
    }
  }

  /** What a byte makes a port say contains no notices. */
  lemma RepliesAreNotNotices(grammar: Grammar, radio: Radio, port: Port, b: Byte, kind: Class)
    ensures Heard(ModemPort.FeedByte(grammar, radio, port, b).said, kind) == []
  {
    Noticeless(ModemPort.FeedByte(grammar, radio, port, b).said, kind);
  }

  /** A registration change reaches a port as exactly one notice of each class it subscribes to. */
  lemma NoticesHeard(settings: Settings, registered: nat, kind: Class)
    ensures Heard(NoticesOf(settings, registered), kind) == if settings.Reports(kind) then [registered] else []
  {
    var a := if settings.Reports(Creg) then [Notice(Creg, registered)] else [];
    var b := if settings.Reports(Cgreg) then [Notice(Cgreg, registered)] else [];
    var c := if settings.Reports(Cereg) then [Notice(Cereg, registered)] else [];
    HeardAppend(a + b, c, kind);
    HeardAppend(a, b, kind);
    HeardOne(Creg, registered, kind);
    HeardOne(Cgreg, registered, kind);
    HeardOne(Cereg, registered, kind);
  }

  lemma HeardOne(c: Class, registered: nat, kind: Class)
    ensures Heard([Notice(c, registered)], kind) == if c == kind then [registered] else []
  {
    HeardSnoc([], Notice(c, registered), kind);
    assert [] + [Notice(c, registered)] == [Notice(c, registered)];
  }

  function SaidBy(said: Output, channel: Channel): seq<Item> {
    if channel.Primary? then said.primary else said.secondary
  }

  function SaidIn(t: Trace, channel: Channel): seq<Item> {
    if channel.Primary? then t.primary else t.secondary
  }

  lemma ActNotices(grammar: Grammar, listener: Listener, m: State, a: Action, channel: Channel, kind: Class)
    requires Proceeds(m, a) && Act(grammar, listener, m, a).said.Some?
    ensures var r := Act(grammar, listener, m, a);
      var now := r.modem.radio.Registered();
      Heard(SaidBy(r.said.value, channel), kind)
      == if now != m.radio.Registered() && PortOf(r.modem, channel).settings.Reports(kind) then [now] else []
  {
    var r := Act(grammar, listener, m, a);
    var now := r.modem.radio.Registered();
    var spoken: seq<Item> := [];
    if a.Typed? {
      RepliesAreNotNotices(grammar, m.radio, PortOf(m, a.channel), a.b, kind);
      if a.channel == channel {
        spoken := ModemPort.FeedByte(grammar, m.radio, PortOf(m, a.channel), a.b).said;
      }
    }
    var notices := if m.radio.Registered() == now then [] else NoticesOf(PortOf(r.modem, channel).settings, now);
    assert SaidBy(r.said.value, channel) == spoken + notices;
    HeardAppend(spoken, notices, kind);
    NoticesHeard(PortOf(r.modem, channel).settings, now, kind);
  }

  /** The port subscribes to the class after every action, and no link report fails. */
  predicate Subscribed(grammar: Grammar, listener: Listener, t: Trace, actions: seq<Action>, channel: Channel,
                       kind: Class)
    decreases |actions|
  {
    var m := Execute(grammar, listener, t, actions).modem;
    && !m.poisoned && PortOf(m, channel).settings.Reports(kind)
    && (actions != [] ==> Subscribed(grammar, listener, t, actions[..|actions| - 1], channel, kind))
  }

  /** From `t` to `end` a port heard `more`: the changes of registration in between. */
  ghost predicate HeardChanges(t: Trace, end: Trace, channel: Channel, kind: Class, more: seq<nat>) {
    Changes(Heard(SaidIn(t, channel), kind), t.registrations, Heard(SaidIn(end, channel), kind), end.registrations,
            more)
  }

  ghost predicate Changes(said: seq<nat>, registrations: seq<nat>, heard: seq<nat>, since: seq<nat>, more: seq<nat>) {
    var n := |registrations|;
    && heard == said + more && 0 < n <= |since| && since[..n] == registrations
    && [registrations[n - 1]] + more == Edges(since[n - 1..])
  }

  lemma NothingHeard(t: Trace, channel: Channel, kind: Class)
    requires t.registrations != []
    ensures HeardChanges(t, t, channel, kind, [])
  {
    var n := |t.registrations|;
    assert Heard(SaidIn(t, channel), kind) + [] == Heard(SaidIn(t, channel), kind);
    assert t.registrations[n - 1..] == [t.registrations[n - 1]];
  }

  /** While a port subscribes, it hears exactly the changes of registration since, once each and
      in order. */
  lemma {:induction false} NoticesAreChanges(grammar: Grammar, listener: Listener, t: Trace, actions: seq<Action>,
                                             channel: Channel, kind: Class)
    returns (more: seq<nat>)
    requires Inv(t) && Subscribed(grammar, listener, t, actions, channel, kind)
    ensures Inv(Execute(grammar, listener, t, actions))
    ensures HeardChanges(t, Execute(grammar, listener, t, actions), channel, kind, more)
    decreases |actions|
  {
    if actions == [] {
      more := [];
      NothingHeard(t, channel, kind);
    } else {
      var last := |actions| - 1;
      more := NoticesAreChanges(grammar, listener, t, actions[..last], channel, kind);
      var before := Execute(grammar, listener, t, actions[..last]);
      StepKeeps(grammar, listener, before, actions[last]);
      if Proceeds(before.modem, actions[last]) {
        more := HearsOneMore(grammar, listener, t, before, actions[last], channel, kind, more);
      }
    }
  }

  lemma HearsOneMore(grammar: Grammar, listener: Listener, t: Trace, before: Trace, a: Action, channel: Channel,
                     kind: Class, more: seq<nat>)
    returns (more': seq<nat>)
    requires Inv(before) && Proceeds(before.modem, a) && HeardChanges(t, before, channel, kind, more)
    requires var m := Next(grammar, listener, before, a).modem; !m.poisoned && PortOf(m, channel).settings.Reports(kind)
    ensures HeardChanges(t, Next(grammar, listener, before, a), channel, kind, more')
  {
    ActLink(grammar, listener, before.modem, a);
    ActNotices(grammar, listener, before.modem, a, channel, kind);
    more' := HearsOutcome(t, before, Act(grammar, listener, before.modem, a), channel, kind, more);
  }

  /** The notices of one action are the change of registration it made, if any. */
  ghost predicate NoticesTold(m: State, r: Outcome, channel: Channel, kind: Class) {
    && r.said.Some?
    && Heard(SaidBy(r.said.value, channel), kind)
       == if r.modem.radio.Registered() != m.radio.Registered() then [r.modem.radio.Registered()] else []
  }

  lemma SaidGrows(before: Trace, r: Outcome, channel: Channel, kind: Class)
    requires r.said.Some?
    ensures Heard(SaidIn(Extended(before, r), channel), kind)
         == Heard(SaidIn(before, channel), kind) + Heard(SaidBy(r.said.value, channel), kind)
  {
    HeardAppend(SaidIn(before, channel), SaidBy(r.said.value, channel), kind);
  }

  lemma HearsOutcome(t: Trace, before: Trace, r: Outcome, channel: Channel, kind: Class, more: seq<nat>)
    returns (more': seq<nat>)
    requires before.registrations != []
    requires before.modem.radio.Registered() == before.registrations[|before.registrations| - 1]
    requires HeardChanges(t, before, channel, kind, more) && NoticesTold(before.modem, r, channel, kind)
    ensures HeardChanges(t, Extended(before, r), channel, kind, more')
  {
    SaidGrows(before, r, channel, kind);
    more' := NoticesStep(Heard(SaidIn(t, channel), kind), Heard(SaidIn(before, channel), kind), more,
                         Heard(SaidBy(r.said.value, channel), kind), t.registrations, before.registrations,
                         r.modem.radio.Registered());
  }

  lemma {:induction false} ExecuteAppend(grammar: Grammar, listener: Listener, t: Trace, a: seq<Action>, b: seq<Action>)
    ensures Execute(grammar, listener, t, a + b) == Execute(grammar, listener, Execute(grammar, listener, t, a), b)
    decreases |b|
  {
    if b == [] {
      assert a + b == a;
    } else {
      assert (a + b)[..|a + b| - 1] == a + b[..|b| - 1];
      ExecuteAppend(grammar, listener, t, a, b[..|b| - 1]);
    }
  }

  /** From the beginning: once a port has subscribed, after any actions `a`, then for as long as it
      stays subscribed it hears the changes of registration since, once each and in order. */
  lemma NoticesSinceSubscribed(grammar: Grammar, listener: Listener, radio: Radio, a: seq<Action>, b: seq<Action>,
                               channel: Channel, kind: Class)
    returns (more: seq<nat>)
    requires Sound(radio)
    requires Subscribed(grammar, listener, Execute(grammar, listener, Start(listener, radio), a), b, channel, kind)
    ensures HeardChanges(Execute(grammar, listener, Start(listener, radio), a),
                         Execute(grammar, listener, Start(listener, radio), a + b), channel, kind, more)
  {
    RunKeeps(grammar, listener, radio, a);
    ExecuteAppend(grammar, listener, Start(listener, radio), a, b);
    more := NoticesAreChanges(grammar, listener, Execute(grammar, listener, Start(listener, radio), a), b, channel,
                              kind);
  }

  /** One more action, seen as sequences of registrations. */
  lemma NoticesStep(said: seq<nat>, heard: seq<nat>, more: seq<nat>, items: seq<nat>, registrations: seq<nat>,
                    since: seq<nat>, now: nat)
    returns (more': seq<nat>)
    requires Changes(said, registrations, heard, since, more)
    requires items == if now != since[|since| - 1] then [now] else []
    ensures Changes(said, registrations, heard + items, since + [now], more')
  {
    var n := |registrations|;
    more' := more + items;
    assert said + more + items == said + more';
    assert (since + [now])[n - 1..] == since[n - 1..] + [now];
    assert (since + [now])[..n] == since[..n];
    EdgesStep(registrations[n - 1], more, items, since[n - 1..], now);
  }

  lemma EdgesStep(first: nat, heard: seq<nat>, more: seq<nat>, registrations: seq<nat>, now: nat)
    requires registrations != [] && [first] + heard == Edges(registrations)
    requires more == if now != registrations[|registrations| - 1] then [now] else []
    ensures [first] + (heard + more) == Edges(registrations + [now])
  {
    ChangesSnoc(registrations, now);
    if now == registrations[|registrations| - 1] {
      assert heard + more == heard;
    } else {
      Regroup([first], heard, [now]);
    }
  }

  // ----- Chunks on a channel -----

  lemma JoinRegroups(a: Output, b: Output, c: Output)
    ensures Join(Join(a, b), c) == Join(a, Join(b, c))
  {
    assert a.primary + b.primary + c.primary == a.primary + (b.primary + c.primary);
    assert a.secondary + b.secondary + c.secondary == a.secondary + (b.secondary + c.secondary);
  }

  /** Two feeds in sequence: nothing is read after a failed report. */
  function ThenTake(first: Outcome, second: Outcome): Outcome {
    if first.said.None? then first
    else if second.said.None? then second
    else Outcome(second.modem, Some(Join(first.said.value, second.said.value)))
  }

  lemma TakeByteThen(grammar: Grammar, listener: Listener, m: State, channel: Channel, data: Bytes, b: Byte)
    ensures var before := Take(grammar, listener, m, channel, data);
      Take(grammar, listener, m, channel, data + [b])
      == ThenTake(before, TakeByte(grammar, listener, before.modem, channel, b))
  {
    TakeSnoc(grammar, listener, m, channel, data, b);
  }

  /** Feeding `a` then `b` on a channel is feeding `a + b`, for both ports' output. */
  lemma {:induction false} TakeAppend(grammar: Grammar, listener: Listener, m: State, channel: Channel, a: Bytes,
                                      b: Bytes)
    ensures var first := Take(grammar, listener, m, channel, a);
      Take(grammar, listener, m, channel, a + b) == ThenTake(first, Take(grammar, listener, first.modem, channel, b))
    decreases |b|
  {
    var first := Take(grammar, listener, m, channel, a);
    if b == [] {
      assert a + b == a;
      if first.said.Some? {
        TakeUnpoisoned(grammar, listener, m, channel, a);
        JoinQuiet(first.said.value);
      }
    } else {
      var n := |b| - 1;
      TakeAppend(grammar, listener, m, channel, a, b[..n]);
      assert b == b[..n] + [b[n]] && a + b == a + b[..n] + [b[n]];
      TakeByteThen(grammar, listener, m, channel, a + b[..n], b[n]);
      TakeByteThen(grammar, listener, first.modem, channel, b[..n], b[n]);
      var middle := Take(grammar, listener, first.modem, channel, b[..n]);
      ThenTakeRegroups(first, middle, TakeByte(grammar, listener, middle.modem, channel, b[n]));
    }
  }

  lemma ThenTakeRegroups(a: Outcome, b: Outcome, c: Outcome)
    ensures ThenTake(ThenTake(a, b), c) == ThenTake(a, ThenTake(b, c))
  {
    if a.said.Some? && b.said.Some? && c.said.Some? {
      JoinRegroups(a.said.value, b.said.value, c.said.value);
    }
  }

  lemma {:induction false} TakeUnpoisoned(grammar: Grammar, listener: Listener, m: State, channel: Channel, data: Bytes)
    requires Take(grammar, listener, m, channel, data).said.Some?
    ensures !Take(grammar, listener, m, channel, data).modem.poisoned
    decreases |data|
  {
    if data != [] {
      TakeUnpoisoned(grammar, listener, m, channel, data[..|data| - 1]);
    }
  }

  /** What a port says in reply, without the notices in between. */
  function Replies(items: seq<Item>): seq<Item>
    decreases |items|
  {
    if items == [] then []
    else Replies(items[..|items| - 1]) + if items[|items| - 1].Notice? then [] else [items[|items| - 1]]
  }

  lemma {:induction false} RepliesAppend(a: seq<Item>, b: seq<Item>)
    ensures Replies(a + b) == Replies(a) + Replies(b)
    decreases |b|
  {
    if b == [] {
      assert a + b == a;
    } else {
      RepliesAppend(a, b[..|b| - 1]);
      assert (a + b)[..|a + b| - 1] == a + b[..|b| - 1];
    }
  }

  lemma {:induction false} AllReplies(items: seq<Item>)
    requires forall i :: 0 <= i < |items| ==> !items[i].Notice?
    ensures Replies(items) == items
    decreases |items|
  {
    if items != [] {
      AllReplies(items[..|items| - 1]);
    }
  }

  lemma {:induction false} NoReplies(items: seq<Item>)
    requires forall i :: 0 <= i < |items| ==> items[i].Notice?
    ensures Replies(items) == []
    decreases |items|
  {
    if items != [] {
      NoReplies(items[..|items| - 1]);
    }
  }

  function Other(channel: Channel): Channel {
    if channel.Primary? then Secondary else Primary
  }

  /** The modem after a feed, as the single port's automaton sees it. */
  ghost predicate Refines(m: State, channel: Channel, t: Turn, r: Outcome) {
    && r.said.Some? && r.modem.radio == t.radio && PortOf(r.modem, channel) == t.port
    && PortOf(r.modem, Other(channel)) == PortOf(m, Other(channel))
    && Replies(SaidBy(r.said.value, channel)) == t.said && Replies(SaidBy(r.said.value, Other(channel))) == []
  }

  function NoticePart(m: State, channel: Channel, before: nat): seq<Item> {
    var now := m.radio.Registered();
    if before == now then [] else NoticesOf(PortOf(m, channel).settings, now)
  }

  lemma ByteShape(grammar: Grammar, listener: Listener, m: State, channel: Channel, b: Byte)
    requires TakeByte(grammar, listener, m, channel, b).said.Some?
    ensures var t := ModemPort.FeedByte(grammar, m.radio, PortOf(m, channel), b);
      var r := TakeByte(grammar, listener, m, channel, b);
      && r.modem.radio == t.radio && PortOf(r.modem, channel) == t.port
      && PortOf(r.modem, Other(channel)) == PortOf(m, Other(channel))
      && SaidBy(r.said.value, channel) == t.said + NoticePart(r.modem, channel, m.radio.Registered())
      && SaidBy(r.said.value, Other(channel)) == NoticePart(r.modem, Other(channel), m.radio.Registered())
  {
    var theirs := NoticePart(TakeByte(grammar, listener, m, channel, b).modem, Other(channel), m.radio.Registered());
    assert [] + theirs == theirs;
  }

  lemma OnlyNotices(m: State, channel: Channel, before: nat, said: seq<Item>)
    requires forall i :: 0 <= i < |said| ==> !said[i].Notice?
    ensures Replies(said + NoticePart(m, channel, before)) == said && Replies(NoticePart(m, channel, before)) == []
  {
    var notices := NoticePart(m, channel, before);
    AllNotices(PortOf(m, channel).settings, m.radio.Registered());
    RepliesBefore(said, notices);
  }

  lemma AllNotices(settings: Settings, registered: nat)
    ensures var notices := NoticesOf(settings, registered);
      forall i :: 0 <= i < |notices| ==> notices[i].Notice?
  {
  }

  lemma RepliesBefore(said: seq<Item>, notices: seq<Item>)
    requires forall i :: 0 <= i < |said| ==> !said[i].Notice?
    requires forall i :: 0 <= i < |notices| ==> notices[i].Notice?
    ensures Replies(said + notices) == said && Replies(notices) == []
  {
    RepliesAppend(said, notices);
    AllReplies(said);
    NoReplies(notices);
    assert said + [] == said;
  }

  lemma ByteRefines(grammar: Grammar, listener: Listener, m: State, channel: Channel, b: Byte)
    requires TakeByte(grammar, listener, m, channel, b).said.Some?
    ensures Refines(m, channel, ModemPort.FeedByte(grammar, m.radio, PortOf(m, channel), b),
                    TakeByte(grammar, listener, m, channel, b))
  {
    ByteShape(grammar, listener, m, channel, b);
    var r := TakeByte(grammar, listener, m, channel, b);
    ByteSaysNoNotice(grammar, m.radio, PortOf(m, channel), b);
    OnlyNotices(r.modem, channel, m.radio.Registered(),
                ModemPort.FeedByte(grammar, m.radio, PortOf(m, channel), b).said);
    OnlyNotices(r.modem, Other(channel), m.radio.Registered(), []);
  }

  lemma ByteSaysNoNotice(grammar: Grammar, radio: Radio, port: Port, b: Byte)
    ensures var said := ModemPort.FeedByte(grammar, radio, port, b).said;
      forall i :: 0 <= i < |said| ==> !said[i].Notice?
  {
  }

  /** Unless a link report fails, what one channel does to the modem and says in reply is exactly
      what the byte automaton does on its own, hence what its lines do one after another; the other
      channel only hears notices. */
  lemma {:induction false} TakeRefines(grammar: Grammar, listener: Listener, m: State, channel: Channel, data: Bytes)
    requires Take(grammar, listener, m, channel, data).said.Some?
    ensures Refines(m, channel, FeedAll(grammar, m.radio, PortOf(m, channel), data),
                    Take(grammar, listener, m, channel, data))
    decreases |data|
  {
    if data != [] {
      var n := |data| - 1;
      assert data == data[..n] + [data[n]];
      TakeRefines(grammar, listener, m, channel, data[..n]);
      var before := Take(grammar, listener, m, channel, data[..n]);
      ByteRefines(grammar, listener, before.modem, channel, data[n]);
      var last := TakeByte(grammar, listener, before.modem, channel, data[n]);
      RefinesThen(channel, before, last);
    }
  }

  lemma RefinesThen(channel: Channel, a: Outcome, b: Outcome)
    requires a.said.Some? && b.said.Some?
    ensures Replies(SaidBy(Join(a.said.value, b.said.value), channel))
         == Replies(SaidBy(a.said.value, channel)) + Replies(SaidBy(b.said.value, channel))
    ensures Replies(SaidBy(Join(a.said.value, b.said.value), Other(channel)))
         == Replies(SaidBy(a.said.value, Other(channel))) + Replies(SaidBy(b.said.value, Other(channel)))
  {
    RepliesAppend(SaidBy(a.said.value, channel), SaidBy(b.said.value, channel));
    RepliesAppend(SaidBy(a.said.value, Other(channel)), SaidBy(b.said.value, Other(channel)));
  }

  // ----- How a SIM becomes ready -----

  /** The action ends a line that enters the stored PIN, on a SIM that waits for it. */
  predicate Unlocks(grammar: Grammar, m: State, a: Action) {
    && a.Typed? && a.b == CR && !PortOf(m, a.channel).overflow && PortOf(m, a.channel).pending != []
    && Ascii(PortOf(m, a.channel).pending) && m.radio.sim.NeedsPin?
    && grammar(PortOf(m, a.channel).pending) == EnterPin(m.radio.pin)
  }

  /** The scenario says that the SIM is ready. */
  predicate Declares(a: Action) {
    a.Scenario? && a.changes.sim == Some(Ready)
  }

  /** One action makes a SIM ready only as its PIN, or as a scenario. */
  lemma ReadyStep(grammar: Grammar, listener: Listener, t: Trace, a: Action)
    requires Inv(t) && !t.modem.radio.sim.Ready? && Next(grammar, listener, t, a).modem.radio.sim.Ready?
    ensures Unlocks(grammar, t.modem, a) || Declares(a)
  {
    match a {
      case Typed(channel, b) => TypedReady(grammar, listener, t.modem, channel, b);
      case Scenario(changes) =>
    }
  }

  lemma TypedReady(grammar: Grammar, listener: Listener, m: State, channel: Channel, b: Byte)
    requires Sound(m.radio) && !m.poisoned && !m.radio.sim.Ready?
    requires TakeByte(grammar, listener, m, channel, b).modem.radio.sim.Ready?
    ensures Unlocks(grammar, m, Typed(channel, b))
  {
    var port := PortOf(m, channel);
    assert TakeByte(grammar, listener, m, channel, b).modem.radio
         == ModemPort.FeedByte(grammar, m.radio, port, b).radio;
    ByteReady(grammar, m.radio, port, b);
  }

  lemma ByteReady(grammar: Grammar, radio: Radio, port: Port, b: Byte)
    requires Sound(radio) && !radio.sim.Ready? && ModemPort.FeedByte(grammar, radio, port, b).radio.sim.Ready?
    ensures b == CR && !port.overflow && port.pending != [] && Ascii(port.pending) && radio.sim.NeedsPin?
    ensures grammar(port.pending) == EnterPin(radio.pin)
  {
    PerformMeans(radio, port.settings, grammar(port.pending));
  }

  /** Over a run: between a state where the SIM is not ready and one where it is, its PIN was entered or
      a scenario said so. */
  lemma {:induction false} ReadyByPinOrScenario(grammar: Grammar, listener: Listener, t: Trace, actions: seq<Action>)
    returns (i: nat)
    requires Inv(t) && !t.modem.radio.sim.Ready? && Execute(grammar, listener, t, actions).modem.radio.sim.Ready?
    ensures i < |actions|
    ensures Unlocks(grammar, Execute(grammar, listener, t, actions[..i]).modem, actions[i]) || Declares(actions[i])
    decreases |actions|
  {
    var n := |actions| - 1;
    assert actions != [];
    var before := Execute(grammar, listener, t, actions[..n]);
    if before.modem.radio.sim.Ready? {
      i := ReadyByPinOrScenario(grammar, listener, t, actions[..n]);
      assert actions[..n][..i] == actions[..i];
    } else {
      InvKept(grammar, listener, t, actions[..n]);
      ReadyStep(grammar, listener, before, actions[n]);
      i := n;
    }
  }

  lemma {:induction false} InvKept(grammar: Grammar, listener: Listener, t: Trace, actions: seq<Action>)
    requires Inv(t)
    ensures Inv(Execute(grammar, listener, t, actions))
    decreases |actions|
  {
    if actions != [] {
      InvKept(grammar, listener, t, actions[..|actions| - 1]);
      StepKeeps(grammar, listener, Execute(grammar, listener, t, actions[..|actions| - 1]), actions[|actions| - 1]);
    }
  }

  /** And the right PIN does make it ready: the line's end unlocks the SIM and answers OK. */
  lemma PinUnlocks(grammar: Grammar, listener: Listener, t: Trace, channel: Channel)
    requires Inv(t) && !t.modem.poisoned && Unlocks(grammar, t.modem, Typed(channel, CR))
    ensures var r := Act(grammar, listener, t.modem, Typed(channel, CR));
      && r.modem.radio.sim.Ready? && r.modem.radio.attempts == 3
      && (r.said.Some? ==> ReplyOf(Done) in SaidBy(r.said.value, channel))
      && (PortOf(t.modem, channel).settings.echo && r.said.Some? ==>
            SaidBy(r.said.value, channel) != []
            && SaidBy(r.said.value, channel)[0] == EchoOf(PortOf(t.modem, channel).pending))
  {
    var port := PortOf(t.modem, channel);
    PerformMeans(t.modem.radio, port.settings, grammar(port.pending));
    var turn := ModemPort.FeedByte(grammar, t.modem.radio, port, CR);
    assert turn.said == (if port.settings.echo then [EchoOf(port.pending)] else []) + [ReplyOf(Done)];
    assert turn.said[|turn.said| - 1] == ReplyOf(Done);
    var r := Act(grammar, listener, t.modem, Typed(channel, CR));
    if r.said.Some? {
      ByteShape(grammar, listener, t.modem, channel, CR);
      var notices := NoticePart(r.modem, channel, t.modem.radio.Registered());
      assert SaidBy(r.said.value, channel) == turn.said + notices;
      assert SaidBy(r.said.value, channel)[|turn.said| - 1] == ReplyOf(Done);
    }
  }
}
