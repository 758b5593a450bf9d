/** One AT channel: bytes into command lines, lines into state changes
    (tools/forge_modem_at.py:46-145; the command line of section 5.2 of ITU-T V.250).
 */
module ModemPort {
  import opened Wrappers
  import opened ModemCore

  const CR: Byte := 13
  const LF: Byte := 10
  const LIMIT: nat := 1024

  /** What a port sends back, in order. */
  datatype Item = EchoOf(line: Bytes) | ReplyOf(reply: Reply) | Garbled | Notice(kind: Class, registered: nat)

  /** The grammar, as any function of the line. */
  type Grammar = Bytes -> Command

  datatype Port = Port(settings: Settings, pending: Bytes, overflow: bool)

  const FRESH := Port(PLAIN, [], false)

  /** The shared state, a port, and what it said. */
  datatype Turn = Turn(radio: Radio, port: Port, said: seq<Item>)

  predicate Ascii(line: Bytes) {
    forall i :: 0 <= i < |line| ==> line[i] < 128
  }

  /** A complete line: echoed if asked for, then carried out. */
  function RunLine(grammar: Grammar, radio: Radio, settings: Settings, line: Bytes): Turn {
    var e := if Ascii(line) then Perform(radio, settings, grammar(line)) else Effect(radio, settings, Plain);
    Turn(e.radio, Port(e.settings, [], false), (if settings.echo then [EchoOf(line)] else []) + [ReplyOf(e.reply)])
  }

  /** A line is echoed as it came if echo was on, and answered once; one that is not ASCII does nothing. */
  lemma LineMeans(grammar: Grammar, radio: Radio, settings: Settings, line: Bytes)
    requires Sound(radio)
    ensures var t := RunLine(grammar, radio, settings, line);
      && t.port.pending == [] && !t.port.overflow
      && t.said != [] && t.said[|t.said| - 1].ReplyOf?
      && t.said[..|t.said| - 1] == (if settings.echo then [EchoOf(line)] else [])
      && var reply := t.said[|t.said| - 1].reply;
         if forall i :: 0 <= i < |line| ==> line[i] < 128
         then Commanded(grammar(line), radio, settings, t.radio, t.port.settings, reply)
         else t.radio == radio && t.port.settings == settings && reply == Plain
  {
    PerformMeans(radio, settings, grammar(line));
  }

  // ----- Byte by byte -----

  function FeedByte(grammar: Grammar, radio: Radio, port: Port, b: Byte): Turn {
    if b == LF then
      Turn(radio, if port.pending != [] then Port(port.settings, [], true) else port, [])
    else if b == CR then
      if port.overflow then Turn(radio, Port(port.settings, [], false), [Garbled])
      else if port.pending != [] then RunLine(grammar, radio, port.settings, port.pending)
      else Turn(radio, Port(port.settings, [], false), [])
    else if port.overflow then Turn(radio, port, [])
    else if |port.pending| >= LIMIT then Turn(radio, Port(port.settings, [], true), [])
    else Turn(radio, Port(port.settings, port.pending + [b], false), [])
  }

  function FeedAll(grammar: Grammar, radio: Radio, port: Port, data: Bytes): Turn
    decreases |data|
  {
    if data == [] then Turn(radio, port, [])
    else
      var before := FeedAll(grammar, radio, port, data[..|data| - 1]);
      var last := FeedByte(grammar, before.radio, before.port, data[|data| - 1]);
      Turn(last.radio, last.port, before.said + last.said)
  }

  // ----- Line by line -----

  /** The lines of a stream: what each carriage return ended, and what none has ended yet. */
  datatype Lines = Lines(ended: seq<Bytes>, open: Bytes)

  function Split(data: Bytes): Lines
    decreases |data|
  {
    if data == [] then Lines([], [])
    else
      var before := Split(data[..|data| - 1]);
      var b := data[|data| - 1];
      if b == CR then Lines(before.ended + [before.open], []) else Lines(before.ended, before.open + [b])
  }

  /** A line without the line feeds before it. */
  function Stripped(line: Bytes): Bytes
    decreases |line|
  {
    if line != [] && line[0] == LF then Stripped(line[1..]) else line
  }

  /** Two lines run together, or a line over the limit. */
  predicate Bad(line: Bytes) {
    LF in Stripped(line) || |Stripped(line)| > LIMIT
  }

  /** One line of the batch: an error, nothing, or the command. */
  function BatchLine(grammar: Grammar, radio: Radio, settings: Settings, line: Bytes): Turn {
    if Bad(line) then Turn(radio, Port(settings, [], false), [Garbled])
    else if Stripped(line) == [] then Turn(radio, Port(settings, [], false), [])
    else RunLine(grammar, radio, settings, Stripped(line))
  }

  function Batch(grammar: Grammar, radio: Radio, settings: Settings, lines: seq<Bytes>): Turn
    decreases |lines|
  {
    if lines == [] then Turn(radio, Port(settings, [], false), [])
    else
      var before := Batch(grammar, radio, settings, lines[..|lines| - 1]);
      var last := BatchLine(grammar, before.radio, before.port.settings, lines[|lines| - 1]);
      Turn(last.radio, last.port, before.said + last.said)
  }

  /** What an unfinished line leaves in the port. */
  function Carrying(settings: Settings, open: Bytes): Port {
    if Bad(open) then Port(settings, [], true) else Port(settings, Stripped(open), false)
  }

  // ----- The byte automaton is the batch -----

  lemma {:induction false} StrippedSnoc(line: Bytes, b: Byte)
    ensures Stripped(line + [b]) == if Stripped(line) == [] && b == LF then [] else Stripped(line) + [b]
    ensures Stripped(line) != [] ==> Stripped(line)[0] != LF
    decreases |line|
  {
    if line == [] {
      assert (line + [b])[1..] == [];
    } else if line[0] == LF {
      StrippedSnoc(line[1..], b);
      assert (line + [b])[1..] == line[1..] + [b];
    }
  }

  lemma CarryStep(grammar: Grammar, radio: Radio, settings: Settings, open: Bytes, b: Byte)
    requires b != CR
    ensures FeedByte(grammar, radio, Carrying(settings, open), b) == Turn(radio, Carrying(settings, open + [b]), [])
  {
    StrippedSnoc(open, b);
    var s := Stripped(open);
    assert LF in s + [b] <==> LF in s || b == LF;
  }

  lemma EndStep(grammar: Grammar, radio: Radio, settings: Settings, open: Bytes)
    ensures FeedByte(grammar, radio, Carrying(settings, open), CR) == BatchLine(grammar, radio, settings, open)
  {
  }

  lemma SplitSnoc(data: Bytes, b: Byte)
    ensures Split(data + [b]) == if b == CR then Lines(Split(data).ended + [Split(data).open], [])
                                 else Lines(Split(data).ended, Split(data).open + [b])
  {
    assert (data + [b])[..|data|] == data;
  }

  lemma BatchSnoc(grammar: Grammar, radio: Radio, settings: Settings, lines: seq<Bytes>, line: Bytes)
    ensures var before := Batch(grammar, radio, settings, lines);
      var last := BatchLine(grammar, before.radio, before.port.settings, line);
      Batch(grammar, radio, settings, lines + [line]) == Turn(last.radio, last.port, before.said + last.said)
  {
    assert (lines + [line])[..|lines|] == lines;
  }

  lemma FeedSnoc(grammar: Grammar, radio: Radio, port: Port, data: Bytes, b: Byte)
    ensures var before := FeedAll(grammar, radio, port, data);
      var last := FeedByte(grammar, before.radio, before.port, b);
      FeedAll(grammar, radio, port, data + [b]) == Turn(last.radio, last.port, before.said + last.said)
  {
    assert (data + [b])[..|data|] == data;
  }

  /** Any stream, byte by byte, is its lines one after another and the unfinished line carried. */
  lemma {:induction false} FeedIsBatch(grammar: Grammar, radio: Radio, settings: Settings, data: Bytes)
    ensures var t := Batch(grammar, radio, settings, Split(data).ended);
      FeedAll(grammar, radio, Port(settings, [], false), data)
      == Turn(t.radio, Carrying(t.port.settings, Split(data).open), t.said)
    decreases |data|
  {
    if data != [] {
      var n := |data| - 1;
      var before, b := data[..n], data[n];
      assert data == before + [b];
      FeedIsBatch(grammar, radio, settings, before);
      SplitSnoc(before, b);
      FeedSnoc(grammar, radio, Port(settings, [], false), before, b);
      var t := Batch(grammar, radio, settings, Split(before).ended);
      if b == CR {
        EndStep(grammar, t.radio, t.port.settings, Split(before).open);
        BatchSnoc(grammar, radio, settings, Split(before).ended, Split(before).open);
        BatchLineClears(grammar, t.radio, t.port.settings, Split(before).open);
      } else {
        CarryStep(grammar, t.radio, t.port.settings, Split(before).open, b);
        assert t.said + [] == t.said;
      }
    }
  }

  lemma BatchLineClears(grammar: Grammar, radio: Radio, settings: Settings, line: Bytes)
    ensures var t := BatchLine(grammar, radio, settings, line); t.port == Carrying(t.port.settings, [])
  {
  }

  /** One turn after another. */
  function Then(a: Turn, b: Turn): Turn {
    Turn(b.radio, b.port, a.said + b.said)
  }

  lemma ThenRegroups(a: Turn, b: Turn, c: Turn)
    ensures Then(Then(a, b), c) == Then(a, Then(b, c))
  {
    assert a.said + b.said + c.said == a.said + (b.said + c.said);
  }

  lemma FeedThen(grammar: Grammar, radio: Radio, port: Port, data: Bytes, b: Byte)
    ensures var before := FeedAll(grammar, radio, port, data);
      FeedAll(grammar, radio, port, data + [b]) == Then(before, FeedByte(grammar, before.radio, before.port, b))
  {
    FeedSnoc(grammar, radio, port, data, b);
  }

  /** However a stream is cut, feeding the pieces is feeding the whole. */
  lemma {:induction false} FeedAppend(grammar: Grammar, radio: Radio, port: Port, a: Bytes, b: Bytes)
    ensures var first := FeedAll(grammar, radio, port, a);
      FeedAll(grammar, radio, port, a + b) == Then(first, FeedAll(grammar, first.radio, first.port, b))
    decreases |b|
  {
    var first := FeedAll(grammar, radio, port, a);
    if b == [] {
      assert a + b == a && first.said + [] == first.said;
    } else {
      var n := |b| - 1;
      FeedAppend(grammar, radio, port, a, b[..n]);
      assert b == b[..n] + [b[n]] && a + b == a + b[..n] + [b[n]];
      FeedThen(grammar, radio, port, a + b[..n], b[n]);
      FeedThen(grammar, first.radio, first.port, b[..n], b[n]);
      var middle := FeedAll(grammar, first.radio, first.port, b[..n]);
      ThenRegroups(first, middle, FeedByte(grammar, middle.radio, middle.port, b[n]));
    }
  }

  // ----- The port as an object -----

  class ATPort {
    const state: ModemState
    const grammar: Grammar
    var settings: Settings
    var pending: Bytes
    var overflow: bool

    constructor (state: ModemState, grammar: Grammar)
      ensures this.state == state && this.grammar == grammar && Value() == FRESH
    {
      this.state, this.grammar, settings, pending, overflow := state, grammar, PLAIN, [], false;
    }

    function Value(): Port
      reads this
    {
      Port(settings, pending, overflow)
    }

    method ExecutePacket(c: Command) returns (reply: Reply)
      requires c.DefineContext? || c.Activate? || c.Attach?
      modifies state.packet
      ensures Effect(state.Value(), settings, reply) == Perform(old(state.Value()), settings, c)
    {
      var registered := state.Value().OnNetwork();
      var ok;
      match c {
        case DefineContext(cid, apn) => ok := state.packet.DefineContext(cid, apn);
        case Activate(on, target) => ok := state.packet.Activate(on, target, registered);
        case Attach(on) => ok := state.packet.Attach(on, registered);
      }
      return if ok then Done else Refused(NOT_ALLOWED, settings.errors);
    }

    method Execute(c: Command) returns (reply: Reply)
      modifies this`settings, state, state.packet
      ensures Effect(state.Value(), settings, reply) == Perform(old(state.Value()), old(settings), c)
      ensures Sound(old(state.Value())) ==>
                Commanded(c, old(state.Value()), old(settings), state.Value(), settings, reply)
    {
      ghost var sound := Sound(state.Value());
      if sound {
        PerformMeans(state.Value(), settings, c);
      }
      reply := Done;
      match c {
        case Attention =>
        case Query =>
        case SetEcho(on) => settings := settings.(echo := on);
        case SetErrors(mode) =>
          if mode <= 2 {
            settings := settings.(errors := mode);
          } else {
            reply := Plain;
          }
        case EnterPin(digits) => reply := state.EnterPin(digits, settings);
        case AskPin =>
          if state.sim.Absent? {
            reply := Refused(NO_SIM, settings.errors);
          }
        case SetPower(mode) =>
          if mode == 0 || mode == 1 || mode == 4 {
            state.power := mode;
          } else {
            reply := Plain;
          }
        case SetReport(kind, on) => settings := settings.(reports := settings.reports[kind := on]);
        case Unknown => reply := Plain;
        case _ => reply := ExecutePacket(c);
      }
    }

    /** One byte of a chunk. */
    method Consume(b: Byte) returns (said: seq<Item>)
      modifies this, state, state.packet
      ensures Turn(state.Value(), Value(), said) == FeedByte(grammar, old(state.Value()), old(Value()), b)
    {
      said := [];
      if b == LF {
        if pending != [] {
          pending, overflow := [], true;
        }
      } else if b == CR {
        if overflow {
          said := [Garbled];
        } else if pending != [] {
          if settings.echo {
            said := [EchoOf(pending)];
          }
          var reply := Plain;
          if Ascii(pending) {
            reply := Execute(grammar(pending));
          }
          said := said + [ReplyOf(reply)];
        }
        pending, overflow := [], false;
      } else if !overflow {
        if |pending| >= LIMIT {
          pending, overflow := [], true;
        } else {
          pending := pending + [b];
        }
      }
    }

    /** A chunk of any size. */
    method Feed(data: Bytes) returns (said: seq<Item>)
      modifies this, state, state.packet
      ensures Turn(state.Value(), Value(), said) == FeedAll(grammar, old(state.Value()), old(Value()), data)
    {
      said := [];
      ghost var radio0, port0 := state.Value(), Value();
      assert data[..0] == [];
      for i := 0 to |data|
        invariant Turn(state.Value(), Value(), said) == FeedAll(grammar, radio0, port0, data[..i])
      {
        assert data[..i + 1] == data[..i] + [data[i]];
        FeedSnoc(grammar, radio0, port0, data[..i], data[i]);
        var more := Consume(data[i]);
        said := said + more;
      }
      assert data[..|data|] == data;
    }

    /** One notice for each class the port subscribes to. */
    method Notifications() returns (notices: seq<Item>)
      ensures notices == NoticesOf(settings, state.Value().Registered())
    {
      var registered := state.Value().Registered();
      notices := [];
      if settings.Reports(Creg) {
        notices := notices + [Notice(Creg, registered)];
      }
      if settings.Reports(Cgreg) {
        notices := notices + [Notice(Cgreg, registered)];
      }
      if settings.Reports(Cereg) {
        notices := notices + [Notice(Cereg, registered)];
      }
    }
  }

  function NoticesOf(settings: Settings, registered: nat): seq<Item> {
    (if settings.Reports(Creg) then [Notice(Creg, registered)] else [])
    + (if settings.Reports(Cgreg) then [Notice(Cgreg, registered)] else [])
    + (if settings.Reports(Cereg) then [Notice(Cereg, registered)] else [])
  }
}
