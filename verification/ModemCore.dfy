/** The simulated modem's SIM, radio and packet data, and what its commands do to them
    (tools/forge_modem_at.py:14-115, tools/forge_modem_pdp.py).

    The grammar is a parameter: any function from the bytes of a line to a command. Reply texts
    are reduced to their class.
 */
module ModemCore {
  import opened Wrappers

  datatype Sim = Ready | Absent | NeedsPin | NeedsPuk

  datatype Packet = Packet(contexts: map<nat, Bytes>, active: set<nat>, attached: bool)

  datatype Radio = Radio(sim: Sim, pin: Bytes, attempts: nat, power: nat, registration: nat, rssi: nat, ber: nat,
                         packet: Packet)
  {
    function Registered(): nat {
      if sim.Ready? && power == 1 then registration else 0
    }

    predicate OnNetwork() {
      Registered() == 1 || Registered() == 5
    }

    predicate NetworkReady() {
      OnNetwork() && packet.attached && packet.active != {}
    }
  }

  datatype Class = Creg | Cgreg | Cereg

  /** What a port keeps besides its framing. */
  datatype Settings = Settings(echo: bool, errors: nat, reports: map<Class, bool>) {
    predicate Reports(kind: Class) {
      kind in reports && reports[kind]
    }
  }

  const PLAIN := Settings(true, 0, map[Creg := false, Cgreg := false, Cereg := false])

  datatype Command =
    | Attention
    | SetEcho(on: bool)
    | SetErrors(mode: nat)
    | EnterPin(digits: Bytes)
    | AskPin
    | SetPower(mode: nat)
    | SetReport(kind: Class, on: bool)
    | Query
    | DefineContext(cid: nat, apn: Option<Bytes>)
    | Activate(on: bool, target: Option<nat>)
    | Attach(on: bool)
    | Unknown

  /** A reply's class: done, an error with a code (shown as the port's error mode asks), or plain. */
  datatype Reply = Done | Refused(code: nat, mode: nat) | Plain

  const NOT_ALLOWED := 3
  const NO_SIM := 10
  const PUK_REQUIRED := 12
  const WRONG_PIN := 16

  predicate ValidCid(cid: nat) {
    1 <= cid <= 24 || 100 <= cid <= 179
  }

  // ----- Packet data -----

  datatype PacketResult = PacketResult(packet: Packet, ok: bool)

  function Define(p: Packet, cid: nat, apn: Option<Bytes>): PacketResult {
    if !ValidCid(cid) || cid in p.active then PacketResult(p, false)
    else PacketResult(p.(contexts := if apn.None? then p.contexts - {cid} else p.contexts[cid := apn.value]), true)
  }

  function Targets(p: Packet, target: Option<nat>): set<nat> {
    if target.None? then p.contexts.Keys else {target.value}
  }

  function SetActive(p: Packet, on: bool, target: Option<nat>, registered: bool): PacketResult {
    var targets := Targets(p, target);
    if targets == {} || !(targets <= p.contexts.Keys) || (on && (!registered || !p.attached))
    then PacketResult(p, false)
    else PacketResult(p.(active := if on then p.active + targets else p.active - targets), true)
  }

  function SetAttached(p: Packet, on: bool, registered: bool): PacketResult {
    if on && !registered then PacketResult(p, false)
    else PacketResult(p.(attached := on, active := if on then p.active else {}), true)
  }

  class PacketData {
    var contexts: map<nat, Bytes>
    var active: set<nat>
    var attached: bool

    constructor (p: Packet)
      ensures Value() == p
    {
      contexts, active, attached := p.contexts, p.active, p.attached;
    }

    function Value(): Packet
      reads this
    {
      Packet(contexts, active, attached)
    }

    method DefineContext(cid: nat, apn: Option<Bytes>) returns (ok: bool)
      modifies this
      ensures PacketResult(Value(), ok) == Define(old(Value()), cid, apn)
    {
      if !ValidCid(cid) || cid in active {
        return false;
      }
      if apn.None? {
        contexts := contexts - {cid};
      } else {
        contexts := contexts[cid := apn.value];
      }
      return true;
    }

    method Activate(on: bool, target: Option<nat>, registered: bool) returns (ok: bool)
      modifies this
      ensures PacketResult(Value(), ok) == SetActive(old(Value()), on, target, registered)
    {
      var targets := if target.None? then contexts.Keys else {target.value};
      if targets == {} || !(targets <= contexts.Keys) {
        return false;
      }
      if on {
        if !registered || !attached {
          return false;
        }
        active := active + targets;
      } else {
        active := active - targets;
      }
      return true;
    }

    method Attach(on: bool, registered: bool) returns (ok: bool)
      modifies this
      ensures PacketResult(Value(), ok) == SetAttached(old(Value()), on, registered)
    {
      if on && !registered {
        return false;
      }
      attached := on;
      if !attached {
        active := {};
      }
      return true;
    }
  }

  /** The state both ports share. */
  class ModemState {
    var sim: Sim
    var pin: Bytes
    var attempts: nat
    var power: nat
    var registration: nat
    var rssi: nat
    var ber: nat
    const packet: PacketData

    constructor (r: Radio)
      ensures fresh(packet) && Value() == r
    {
      sim, pin, attempts, power, registration, rssi, ber := r.sim, r.pin, r.attempts, r.power, r.registration, r.rssi,
        r.ber;
      packet := new PacketData(r.packet);
    }

    function Value(): Radio
      reads this, packet
    {
      Radio(sim, pin, attempts, power, registration, rssi, ber, packet.Value())
    }

    /** One PIN: right, wrong, or not wanted. */
    method EnterPin(digits: Bytes, settings: Settings) returns (reply: Reply)
      modifies this
      ensures Effect(Value(), settings, reply) == TryPin(old(Value()), settings, digits)
    {
      match sim
      case Absent => return Refused(NO_SIM, settings.errors);
      case Ready => return Refused(NOT_ALLOWED, settings.errors);
      case NeedsPuk => return Refused(PUK_REQUIRED, settings.errors);
      case NeedsPin =>
        if digits == pin {
          sim, attempts := Ready, 3;
          return Done;
        }
        attempts := if attempts > 0 then attempts - 1 else 0;
        if attempts == 0 {
          sim := NeedsPuk;
        }
        return Refused(WRONG_PIN, settings.errors);
    }
  }

  // ----- Commands -----

  /** The shared state, one port's settings and the reply. */
  datatype Effect = Effect(radio: Radio, settings: Settings, reply: Reply)

  function Refuse(radio: Radio, settings: Settings, code: nat): Effect {
    Effect(radio, settings, Refused(code, settings.errors))
  }

  function Packets(radio: Radio, settings: Settings, r: PacketResult): Effect {
    if r.ok then Effect(radio.(packet := r.packet), settings, Done) else Refuse(radio, settings, NOT_ALLOWED)
  }

  function TryPin(radio: Radio, settings: Settings, digits: Bytes): Effect {
    if !radio.sim.NeedsPin? then
      Refuse(radio, settings, if radio.sim.Absent? then NO_SIM else if radio.sim.Ready? then NOT_ALLOWED
             else PUK_REQUIRED)
    else if digits == radio.pin then Effect(radio.(sim := Ready, attempts := 3), settings, Done)
    else
      var left := if radio.attempts > 0 then radio.attempts - 1 else 0;
      Refuse(radio.(attempts := left, sim := if left == 0 then NeedsPuk else NeedsPin), settings, WRONG_PIN)
  }

  function Perform(radio: Radio, settings: Settings, c: Command): Effect {
    match c
    case Attention => Effect(radio, settings, Done)
    case SetEcho(on) => Effect(radio, settings.(echo := on), Done)
    case SetErrors(mode) =>
      if mode <= 2 then Effect(radio, settings.(errors := mode), Done) else Effect(radio, settings, Plain)
    case EnterPin(digits) => TryPin(radio, settings, digits)
    case AskPin => if radio.sim.Absent? then Refuse(radio, settings, NO_SIM) else Effect(radio, settings, Done)
    case SetPower(mode) =>
      if mode == 0 || mode == 1 || mode == 4 then Effect(radio.(power := mode), settings, Done)
      else Effect(radio, settings, Plain)
    case SetReport(kind, on) => Effect(radio, settings.(reports := settings.reports[kind := on]), Done)
    case Query => Effect(radio, settings, Done)
    case DefineContext(cid, apn) => Packets(radio, settings, Define(radio.packet, cid, apn))
    case Activate(on, target) => Packets(radio, settings, SetActive(radio.packet, on, target, radio.OnNetwork()))
    case Attach(on) => Packets(radio, settings, SetAttached(radio.packet, on, radio.OnNetwork()))
    case Unknown => Effect(radio, settings, Plain)
  }

  // ----- What commands keep -----

  predicate PinText(pin: Bytes) {
    4 <= |pin| <= 8 && forall i :: 0 <= i < |pin| ==> 48 <= pin[i] <= 57
  }

  /** The values a scenario may have. */
  predicate InRange(r: Radio) {
    && PinText(r.pin) && r.attempts <= 3 && (r.power == 0 || r.power == 1 || r.power == 4) && r.registration <= 5
    && (r.rssi <= 31 || r.rssi == 99) && (r.ber <= 7 || r.ber == 99)
    && (r.sim.NeedsPin? ==> r.attempts >= 1)
  }

  predicate Sound(r: Radio) {
    InRange(r) && r.packet.active <= r.packet.contexts.Keys
  }

  /** No command leaves the ranges, activates an undefined context, or leaves a SIM waiting for a
      PIN without an attempt. */
  lemma PerformSound(radio: Radio, settings: Settings, c: Command)
    requires Sound(radio)
    ensures Sound(Perform(radio, settings, c).radio)
  {
  }

  // ----- What each command does, field by field -----

  /** Only a PIN moves a SIM, and only one that waits for it: the stored PIN makes it ready with all
      attempts back; any other costs an attempt, and the last one locks it. */
  ghost predicate SimMoved(c: Command, before: Radio, after: Radio, errors: nat, reply: Reply) {
    && (!(c.EnterPin? && before.sim.NeedsPin?) ==> after.sim == before.sim && after.attempts == before.attempts)
    && (before.sim.NeedsPin? ==> (after.sim.Ready? <==> c == EnterPin(before.pin)))
    && (!before.sim.Ready? && after.sim.Ready? ==> after.attempts == 3 && reply == Done)
    && (c.EnterPin? && before.sim.NeedsPin? && c.digits != before.pin ==>
          && after.attempts + 1 == before.attempts && reply == Refused(16, errors)
          && (after.sim.NeedsPuk? <==> after.attempts == 0) && (after.sim.NeedsPin? <==> after.attempts > 0))
    && (c.EnterPin? && before.sim.Absent? ==> reply == Refused(10, errors))
    && (c.EnterPin? && before.sim.Ready? ==> reply == Refused(3, errors))
    && (c.EnterPin? && before.sim.NeedsPuk? ==> reply == Refused(12, errors))
    && (c.AskPin? ==> reply == if before.sim.Absent? then Refused(10, errors) else Done)
  }

  /** Registered with the home network or roaming: the SIM is ready and the radio is fully on. */
  ghost predicate Online(r: Radio) {
    r.sim.Ready? && r.power == 1 && (r.registration == 1 || r.registration == 5)
  }

  /** The contexts that a command speaks of. */
  ghost predicate Meant(r: Radio, target: Option<nat>, cid: nat) {
    if target.None? then cid in r.packet.contexts else cid == target.value
  }

  /** Whether there is anything to activate or deactivate, and all of it is defined. */
  ghost predicate Addressed(r: Radio, target: Option<nat>) {
    if target.None? then r.packet.contexts != map[] else target.value in r.packet.contexts
  }

  /** Defining and deleting one context, one that is not in use. */
  ghost predicate ContextsMoved(c: Command, before: Radio, after: Radio, errors: nat, reply: Reply) {
    var ok := c.DefineContext? && (1 <= c.cid <= 24 || 100 <= c.cid <= 179) && c.cid !in before.packet.active;
    && (!ok ==> after.packet.contexts == before.packet.contexts)
    && (ok ==> after.packet.contexts == if c.apn.Some? then before.packet.contexts[c.cid := c.apn.value]
                                        else before.packet.contexts - {c.cid})
    && (c.DefineContext? ==> reply == if ok then Done else Refused(3, errors))
  }

  /** Activating adds exactly the contexts meant, deactivating removes exactly those, detaching removes
      all; nothing else changes what is active. */
  ghost predicate ActivityMoved(c: Command, before: Radio, after: Radio, errors: nat, reply: Reply) {
    var ok := c.Activate? && Addressed(before, c.target) && (c.on ==> Online(before) && before.packet.attached);
    && (forall cid :: cid in after.packet.active <==>
          if ok && Meant(before, c.target, cid) then c.on else cid in before.packet.active && !(c.Attach? && !c.on))
    && (c.Activate? ==> reply == if ok then Done else Refused(3, errors))
  }

  ghost predicate AttachmentMoved(c: Command, before: Radio, after: Radio, errors: nat, reply: Reply) {
    var ok := c.Attach? && (c.on ==> Online(before));
    && after.packet.attached == (if ok then c.on else before.packet.attached)
    && (c.Attach? ==> reply == if ok then Done else Refused(3, errors))
  }

  /** The radio takes the power modes it has, and no command touches the rest. */
  ghost predicate RadioMoved(c: Command, before: Radio, after: Radio, reply: Reply) {
    var ok := c.SetPower? && c.mode in {0, 1, 4};
    && after.power == (if ok then c.mode else before.power)
    && (c.SetPower? ==> reply == if ok then Done else Plain)
    && after.pin == before.pin && after.registration == before.registration
    && after.rssi == before.rssi && after.ber == before.ber
    && (c.Attention? || c.Query? ==> after == before && reply == Done)
    && (c.Unknown? ==> after == before && reply == Plain)
  }

  ghost predicate SettingsMoved(c: Command, before: Settings, after: Settings, reply: Reply) {
    && after.echo == (if c.SetEcho? then c.on else before.echo)
    && after.errors == (if c.SetErrors? && c.mode <= 2 then c.mode else before.errors)
    && (forall kind :: after.Reports(kind) <==> if c.SetReport? && c.kind == kind then c.on else before.Reports(kind))
    && (c.SetEcho? || c.SetReport? ==> reply == Done) && (c.SetErrors? ==> reply == if c.mode <= 2 then Done else Plain)
  }

  ghost predicate Commanded(c: Command, before: Radio, settings0: Settings, after: Radio, settings1: Settings,
                            reply: Reply) {
    && SimMoved(c, before, after, settings0.errors, reply) && RadioMoved(c, before, after, reply)
    && ContextsMoved(c, before, after, settings0.errors, reply)
    && ActivityMoved(c, before, after, settings0.errors, reply)
    && AttachmentMoved(c, before, after, settings0.errors, reply)
    && SettingsMoved(c, settings0, settings1, reply)
  }

  lemma PerformMeans(radio: Radio, settings: Settings, c: Command)
    requires Sound(radio)
    ensures var e := Perform(radio, settings, c); Commanded(c, radio, settings, e.radio, e.settings, e.reply)
  {
    SimMeans(radio, settings, c);
    RadioMeans(radio, settings, c);
    PacketMeans(radio, settings, c);
    SettingsMean(radio, settings, c);
  }

  lemma SimMeans(radio: Radio, settings: Settings, c: Command)
    requires Sound(radio)
    ensures var e := Perform(radio, settings, c); SimMoved(c, radio, e.radio, settings.errors, e.reply)
  {
  }

  lemma RadioMeans(radio: Radio, settings: Settings, c: Command)
    ensures var e := Perform(radio, settings, c); RadioMoved(c, radio, e.radio, e.reply)
  {
  }

  lemma SettingsMean(radio: Radio, settings: Settings, c: Command)
    ensures var e := Perform(radio, settings, c); SettingsMoved(c, settings, e.settings, e.reply)
  {
  }

  lemma PacketMeans(radio: Radio, settings: Settings, c: Command)
    ensures var e := Perform(radio, settings, c);
      && ContextsMoved(c, radio, e.radio, settings.errors, e.reply)
      && ActivityMoved(c, radio, e.radio, settings.errors, e.reply)
      && AttachmentMoved(c, radio, e.radio, settings.errors, e.reply)
  {
    OnlineMeans(radio);
    if c.Activate? {
      ActivateMeans(radio, settings, c.on, c.target);
    }
  }

  lemma OnlineMeans(radio: Radio)
    ensures radio.OnNetwork() <==> Online(radio)
    ensures radio.NetworkReady() <==> Online(radio) && radio.packet.attached && exists cid :: cid in radio.packet.active
  {
    assert radio.packet.active == {} <==> forall cid :: cid !in radio.packet.active;
  }

  lemma ActivateMeans(radio: Radio, settings: Settings, on: bool, target: Option<nat>)
    ensures var e := Perform(radio, settings, Activate(on, target));
      && ActivityMoved(Activate(on, target), radio, e.radio, settings.errors, e.reply)
      && e.radio == radio.(packet := radio.packet.(active := e.radio.packet.active)) && e.settings == settings
  {
    OnlineMeans(radio);
    var targets := Targets(radio.packet, target);
    assert radio.packet.contexts == map[] <==> radio.packet.contexts.Keys == {};
    assert target.Some? ==> targets == {target.value} && target.value in targets;
    assert Addressed(radio, target) <==> targets != {} && targets <= radio.packet.contexts.Keys;
    assert forall cid :: cid in targets <==> Meant(radio, target, cid);
  }
}
