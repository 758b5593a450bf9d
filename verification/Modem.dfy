/** One modem, two AT channels and the link they bring up and down
    (tools/forge_modem_at.py:148-215).
 */
module Modem {
  import opened Wrappers
  import opened ModemCore
  import opened ModemPort

  datatype Channel = Primary | Secondary

  /** What each port says. */
  datatype Output = Output(primary: seq<Item>, secondary: seq<Item>)

  const QUIET := Output([], [])

  function Join(a: Output, b: Output): Output {
    Output(a.primary + b.primary, a.secondary + b.secondary)
  }

  /** The link is unknown until first reported; `calls` are the reports made so far. */
  datatype State = State(radio: Radio, primary: Port, secondary: Port, link: Option<bool>, poisoned: bool,
                         calls: seq<bool>)

  /** Whether the listener accepts its next report. */
  type Listener = nat -> bool

  function SyncLink(listener: Listener, m: State): State {
    var up := m.radio.NetworkReady();
    if m.poisoned || m.link == Some(up) then m
    else if !listener(|m.calls|) then m.(poisoned := true, calls := m.calls + [up])
    else m.(link := Some(up), calls := m.calls + [up])
  }

  function Notices(m: State, before: nat): Output {
    var now := m.radio.Registered();
    if before == now then QUIET else Output(NoticesOf(m.primary.settings, now), NoticesOf(m.secondary.settings, now))
  }

  /** The new state and, unless the link report failed, what the ports say. */
  datatype Outcome = Outcome(modem: State, said: Option<Output>)

  /** Synchronise before anything that was said gets out. */
  function Changed(listener: Listener, m: State, before: nat, said: Output): Outcome {
    var synced := SyncLink(listener, m);
    if synced.poisoned then Outcome(synced, None) else Outcome(synced, Some(Join(said, Notices(synced, before))))
  }

  function PortOf(m: State, channel: Channel): Port {
    if channel.Primary? then m.primary else m.secondary
  }

  function Said(channel: Channel, items: seq<Item>): Output {
    if channel.Primary? then Output(items, []) else Output([], items)
  }

  function TakeByte(grammar: Grammar, listener: Listener, m: State, channel: Channel, b: Byte): Outcome {
    if m.poisoned then Outcome(m, None)
    else
      var t := ModemPort.FeedByte(grammar, m.radio, PortOf(m, channel), b);
      var m' := if channel.Primary? then m.(radio := t.radio, primary := t.port)
                else m.(radio := t.radio, secondary := t.port);
      Changed(listener, m', m.radio.Registered(), Said(channel, t.said))
  }

  function Take(grammar: Grammar, listener: Listener, m: State, channel: Channel, data: Bytes): Outcome
    decreases |data|
  {
    if m.poisoned then Outcome(m, None)
    else if data == [] then Outcome(m, Some(QUIET))
    else
      var before := Take(grammar, listener, m, channel, data[..|data| - 1]);
      if before.said.None? then before
      else
        var last := TakeByte(grammar, listener, before.modem, channel, data[|data| - 1]);
        if last.said.None? then last else Outcome(last.modem, Some(Join(before.said.value, last.said.value)))
  }

  /** A scenario change: the fields that are given. */
  datatype Changes = Changes(sim: Option<Sim>, pin: Option<Bytes>, attempts: Option<nat>, power: Option<nat>,
                             registration: Option<nat>, rssi: Option<nat>, ber: Option<nat>)

  const NO_CHANGES := Changes(None, None, None, None, None, None, None)

  function Or<T>(change: Option<T>, former: T): T {
    if change.Some? then change.value else former
  }

  function Changing(r: Radio, c: Changes): Radio {
    Radio(Or(c.sim, r.sim), Or(c.pin, r.pin), Or(c.attempts, r.attempts), Or(c.power, r.power),
          Or(c.registration, r.registration), Or(c.rssi, r.rssi), Or(c.ber, r.ber), r.packet)
  }

  /** Validated as a whole before anything changes, then applied as a whole. */
  function Rescenario(listener: Listener, m: State, c: Changes): Outcome {
    if m.poisoned || c == NO_CHANGES || !InRange(Changing(m.radio, c)) then Outcome(m, None)
    else Changed(listener, m.(radio := Changing(m.radio, c)), m.radio.Registered(), QUIET)
  }

  /** The radio with exactly the given fields changed. */
  ghost predicate Sets(r: Radio, c: Changes, candidate: Radio) {
    && Given(c.sim, r.sim, candidate.sim) && Given(c.pin, r.pin, candidate.pin)
    && Given(c.attempts, r.attempts, candidate.attempts) && Given(c.power, r.power, candidate.power)
    && Given(c.registration, r.registration, candidate.registration) && Given(c.rssi, r.rssi, candidate.rssi)
    && Given(c.ber, r.ber, candidate.ber) && candidate.packet == r.packet
  }

  /** A change that says nothing, or that would leave the ranges, is refused whole; any other sets
      exactly the fields it gives. */
  ghost predicate ScenarioTold(m: State, c: Changes, after: State, r: Option<Output>) {
    var says := c.sim.Some? || c.pin.Some? || c.attempts.Some? || c.power.Some? || c.registration.Some?
                || c.rssi.Some? || c.ber.Some?;
    forall candidate :: Sets(m.radio, c, candidate) ==>
      if m.poisoned || !says || !InRange(candidate) then after == m && r.None?
      else && after.radio == candidate && after.primary == m.primary && after.secondary == m.secondary
           && (r.None? <==> after.poisoned)
  }

  lemma ScenarioTells(listener: Listener, m: State, c: Changes)
    ensures ScenarioTold(m, c, Rescenario(listener, m, c).modem, Rescenario(listener, m, c).said)
  {
    forall candidate | Sets(m.radio, c, candidate) ensures candidate == Changing(m.radio, c) {
    }
  }

  predicate Given<T(==)>(change: Option<T>, before: T, after: T) {
    after == if change.Some? then change.value else before
  }

  function Switched(listener: Listener, radio: Radio): State {
    SyncLink(listener, State(radio, FRESH, FRESH, None, false, []))
  }

  // ----- The modem as an object -----

  class TwoPortModem {
    const state: ModemState
    const primary: ATPort
    const secondary: ATPort
    const listener: Listener
    var link: Option<bool>
    var poisoned: bool
    var calls: seq<bool>

    ghost predicate Valid()
      reads this
    {
      primary.state == state && secondary.state == state && primary != secondary && primary.grammar == secondary.grammar
    }

    function Value(): State
      reads this, primary, secondary, state, state.packet
    {
      State(state.Value(), primary.Value(), secondary.Value(), link, poisoned, calls)
    }

    constructor (grammar: Grammar, listener: Listener, radio: Radio)
      ensures Valid() && this.listener == listener && primary.grammar == grammar
      ensures fresh(primary) && fresh(secondary) && fresh(state) && fresh(state.packet)
      ensures Value() == Switched(listener, radio)
    {
      var s := new ModemState(radio);
      state := s;
      primary := new ATPort(s, grammar);
      secondary := new ATPort(s, grammar);
      this.listener, link, poisoned, calls := listener, None, false, [];
      new;
      var ok := Sync();
    }

    /** Report the link if it changed; a report that fails poisons the modem. */
    method Sync() returns (ok: bool)
      requires Valid() && !poisoned
      modifies this`link, this`poisoned, this`calls
      ensures Valid() && Value() == SyncLink(listener, old(Value())) && ok == !poisoned
    {
      ok := true;
      var up := state.Value().NetworkReady();
      if link != Some(up) {
        var n := |calls|;
        calls := calls + [up];
        if !listener(n) {
          poisoned := true;
          return false;
        }
        link := Some(up);
      }
    }

    /** After a change: the link first, then the notices. */
    method AfterChange(before: nat, said: Output) returns (r: Option<Output>)
      requires Valid() && !poisoned
      modifies this`link, this`poisoned, this`calls
      ensures Valid() && Outcome(Value(), r) == Changed(listener, old(Value()), before, said)
    {
      var ok := Sync();
      if !ok {
        return None;
      }
      if before == state.Value().Registered() {
        JoinQuiet(said);
        return Some(said);
      }
      var first := primary.Notifications();
      var second := secondary.Notifications();
      return Some(Output(said.primary + first, said.secondary + second));
    }

    method FeedOne(channel: Channel, b: Byte) returns (r: Option<Output>)
      requires Valid() && !poisoned
      modifies this`link, this`poisoned, this`calls, primary, secondary, state, state.packet
      ensures Valid() && Outcome(Value(), r) == TakeByte(primary.grammar, listener, old(Value()), channel, b)
    {
      var before := state.Value().Registered();
      var items;
      if channel.Primary? {
        items := primary.Consume(b);
      } else {
        items := secondary.Consume(b);
      }
      r := AfterChange(before, Said(channel, items));
    }

    method Feed(channel: Channel, data: Bytes) returns (r: Option<Output>)
      requires Valid()
      modifies this`link, this`poisoned, this`calls, primary, secondary, state, state.packet
      ensures Valid() && Outcome(Value(), r) == Take(primary.grammar, listener, old(Value()), channel, data)
    {
      if poisoned {
        return None;
      }
      var said := QUIET;
      ghost var m0 := Value();
      r := Some(QUIET);
      assert data[..0] == [];
      var i := 0;
      while r.Some? && i < |data|
        invariant i <= |data| && Valid() && (r.Some? ==> !poisoned)
        invariant Outcome(Value(), r) == Take(primary.grammar, listener, m0, channel, data[..i])
      {
        TakeSnoc(primary.grammar, listener, m0, channel, data[..i], data[i]);
        assert data[..i + 1] == data[..i] + [data[i]];
        var before := r.value;
        var more := FeedOne(channel, data[i]);
        r := if more.None? then None else Some(Join(before, more.value));
        i := i + 1;
      }
      TakeStops(primary.grammar, listener, m0, channel, data, i);
    }

    method SetScenario(c: Changes) returns (r: Option<Output>)
      requires Valid()
      modifies this`link, this`poisoned, this`calls, state
      ensures Valid() && Outcome(Value(), r) == Rescenario(listener, old(Value()), c)
      ensures ScenarioTold(old(Value()), c, Value(), r)
    {
      ScenarioTells(listener, Value(), c);
      var candidate := Changing(state.Value(), c);
      if poisoned || c == NO_CHANGES || !InRange(candidate) {
        return None;
      }
      var before := state.Value().Registered();
      state.sim, state.pin, state.attempts, state.power := candidate.sim, candidate.pin, candidate.attempts,
        candidate.power;
      state.registration, state.rssi, state.ber := candidate.registration, candidate.rssi, candidate.ber;
      r := AfterChange(before, QUIET);
    }
  }

  lemma JoinQuiet(a: Output)
    ensures Join(a, QUIET) == a && Join(QUIET, a) == a
  {
  }

  lemma TakeSnoc(grammar: Grammar, listener: Listener, m: State, channel: Channel, data: Bytes, b: Byte)
    ensures var before := Take(grammar, listener, m, channel, data);
      Take(grammar, listener, m, channel, data + [b])
      == if before.said.None? then before
         else
           var last := TakeByte(grammar, listener, before.modem, channel, b);
           if last.said.None? then last else Outcome(last.modem, Some(Join(before.said.value, last.said.value)))
  {
    assert (data + [b])[..|data|] == data;
  }

  /** After a failure nothing more is read. */
  lemma {:induction false} TakeStops(grammar: Grammar, listener: Listener, m: State, channel: Channel, data: Bytes,
                                     i: nat)
    requires i <= |data|
    ensures i == |data| ==> data[..i] == data
    ensures Take(grammar, listener, m, channel, data[..i]).said.None? ==>
              Take(grammar, listener, m, channel, data) == Take(grammar, listener, m, channel, data[..i])
    decreases |data| - i
  {
    if i < |data| {
      TakeSnoc(grammar, listener, m, channel, data[..i], data[i]);
      assert data[..i + 1] == data[..i] + [data[i]];
      TakeStops(grammar, listener, m, channel, data, i + 1);
    } else {
      assert data[..i] == data;
    }
  }
}
