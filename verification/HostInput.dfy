/** Host keys and pointer motion as firmware commands (tools/forge_keyboard_host.py:59-124, with
    the limit of tools/forge_keyboard.py:39-53).
 */
module HostInput {
  import opened Wrappers

  const COMMAND_LIMIT := 64
  const HELD_LIMIT := 32

  datatype Contact = KeyLine(n: nat) | Matrix(row: nat, column: nat)

  type Line = c: Contact | Small(c) witness KeyLine(0)

  predicate Small(c: Contact) {
    match c
    case KeyLine(n) => n <= 16
    case Matrix(row, column) => row < 8 && column < 8
  }

  datatype Command = Set(contact: Line, on: bool) | Run(ticks: nat) | Edge(direction: nat)

  type Keycode = int
  type Keysym = string

  /** Fn and the six modifier lines. */
  predicate Modifier(c: Line) {
    c == Matrix(7, 2) || (c.KeyLine? && c.n in {8, 9, 10, 11, 12, 14})
  }

  /** The order of contacts; key lines sort before the matrix. */
  function Code(c: Line): nat {
    match c
    case KeyLine(n) => n
    case Matrix(row, column) => 64 + row * 8 + column
  }

  /** Releases let modifiers go last; presses take them first. */
  function Rank(pressing: bool, c: Line): nat {
    Code(c) + if Modifier(c) == pressing then 0 else 1000
  }

  lemma RankInjective(pressing: bool, a: Line, b: Line)
    requires Rank(pressing, a) == Rank(pressing, b)
    ensures a == b
  {
    if a.Matrix? && b.Matrix? {
      assert a.row * 8 + a.column == b.row * 8 + b.column;
      assert a.row == b.row;
    }
  }

  predicate Ascending(pressing: bool, s: seq<Line>) {
    forall i, j :: 0 <= i < j < |s| ==> Rank(pressing, s[i]) < Rank(pressing, s[j])
  }

  function Elements(s: seq<Line>): set<Line> {
    set c | c in s
  }

  lemma ElementsSnoc(s: seq<Line>, c: Line)
    ensures Elements(s + [c]) == Elements(s) + {c}
  {
    assert (s + [c])[|s|] == c;
  }

  lemma AscendingSnoc(pressing: bool, s: seq<Line>, c: Line)
    requires Ascending(pressing, s) && forall i :: 0 <= i < |s| ==> Rank(pressing, s[i]) < Rank(pressing, c)
    ensures Ascending(pressing, s + [c])
  {
  }

  // ----- Held keys -----

  type Down = map<Keycode, set<Line>>

  /** Every contact that some held key maps to. */
  function Held(down: Down): set<Line> {
    set key, c | key in down && c in down[key] :: c
  }

  datatype Change = Clear | Release(key: Keycode) | Press(key: Keycode, sym: Keysym)

  /** A released key lets go of what it took, and a repeated press takes nothing new. */
  function Updated(contacts: Keysym -> set<Line>, down: Down, change: Change): Down {
    match change
    case Clear => map[]
    case Release(key) => down - {key}
    case Press(key, sym) => if key in down || contacts(sym) == {} then down else down[key := contacts(sym)]
  }

  function Moves(s: seq<Line>, on: bool): seq<Command>
    decreases |s|
  {
    if s == [] then [] else Moves(s[..|s| - 1], on) + [Set(s[|s| - 1], on), Run(10)]
  }

  /** What the firmware holds after the commands. */
  function Replay(held: set<Line>, commands: seq<Command>): set<Line>
    decreases |commands|
  {
    if commands == [] then held
    else
      var before := Replay(held, commands[..|commands| - 1]);
      match commands[|commands| - 1]
      case Set(c, on) => if on then before + {c} else before - {c}
      case _ => before
  }

  lemma ReplayStep(held: set<Line>, commands: seq<Command>, c: Line, on: bool)
    ensures Replay(held, commands + [Set(c, on), Run(10)])
         == if on then Replay(held, commands) + {c} else Replay(held, commands) - {c}
  {
    var one := commands + [Set(c, on)];
    assert one[..|commands|] == commands;
    assert commands + [Set(c, on), Run(10)] == one + [Run(10)];
    assert (one + [Run(10)])[..|one|] == one;
  }

  lemma {:induction false} MovesReplay(held: set<Line>, first: seq<Command>, s: seq<Line>, on: bool)
    ensures Replay(held, first + Moves(s, on))
         == if on then Replay(held, first) + Elements(s) else Replay(held, first) - Elements(s)
    ensures |Moves(s, on)| == 2 * |s|
    decreases |s|
  {
    if s == [] {
      assert first + Moves(s, on) == first;
    } else {
      var n := |s| - 1;
      MovesReplay(held, first, s[..n], on);
      ReplayStep(held, first + Moves(s[..n], on), s[n], on);
      assert first + Moves(s, on) == first + Moves(s[..n], on) + [Set(s[n], on), Run(10)];
      assert s == s[..n] + [s[n]];
      ElementsSnoc(s[..n], s[n]);
    }
  }

  /** The commands of one change: releases in order, then presses in order. */
  ghost predicate Carries(before: set<Line>, after: set<Line>, releases: seq<Line>, presses: seq<Line>) {
    && Elements(releases) == before - after && Ascending(false, releases) && |releases| == |before - after|
    && Elements(presses) == after - before && Ascending(true, presses) && |presses| == |after - before|
  }

  lemma CarriesReplay(before: set<Line>, after: set<Line>, releases: seq<Line>, presses: seq<Line>)
    requires Carries(before, after, releases, presses)
    ensures Replay(before, Moves(releases, false) + Moves(presses, true)) == after
    ensures |Moves(releases, false) + Moves(presses, true)| == 2 * (|before - after| + |after - before|)
  {
    MovesReplay(before, [], releases, false);
    assert [] + Moves(releases, false) == Moves(releases, false);
    MovesReplay(before, Moves(releases, false), presses, true);
    assert before - (before - after) + (after - before) == after;
  }

  /** Within the limits, one change moves at most thirty-two contacts. */
  lemma FewMoves(contacts: Keysym -> set<Line>, down: Down, change: Change)
    requires |Held(down)| <= HELD_LIMIT && (change.Press? ==> |contacts(change.sym)| <= HELD_LIMIT)
    ensures var before, after := Held(down), Held(Updated(contacts, down, change));
      2 * (|before - after| + |after - before|) <= COMMAND_LIMIT
  {
    var before, after := Held(down), Held(Updated(contacts, down, change));
    if change.Press? {
      forall c | c in before ensures c in after {
        var key :| key in down && c in down[key];
        assert key in Updated(contacts, down, change) && c in Updated(contacts, down, change)[key];
      }
      assert before - after == {};
      assert after - before <= contacts(change.sym);
      SubsetSize(after - before, contacts(change.sym));
    } else {
      assert after <= before;
      assert after - before == {};
      SubsetSize(before - after, before);
    }
  }

  lemma SubsetSize<T>(a: set<T>, b: set<T>)
    requires a <= b
    ensures |a| <= |b|
  {
    assert b == a + (b - a);
  }

  /** A change touches one key at most, or all of them: a key goes with its release, comes with its
      press, and keeps the contacts it came with. */
  ghost predicate KeysTold(contacts: Keysym -> set<Line>, before: Down, change: Change, after: Down) {
    match change
    case Clear => forall k :: k !in after
    case Release(key) =>
      key !in after && forall k :: k != key ==> (k in after <==> k in before) && (k in after ==> after[k] == before[k])
    case Press(key, sym) =>
      && (forall k :: k in before ==> k in after && after[k] == before[k])
      && (forall k :: k in after && k !in before ==> k == key && after[k] == contacts(sym))
      && (key in after <==> key in before || contacts(sym) != {})
  }

  lemma UpdatedTells(contacts: Keysym -> set<Line>, down: Down, change: Change)
    ensures KeysTold(contacts, down, change, Updated(contacts, down, change))
  {
  }

  /** Key lines by number, then the matrix by row and column. */
  predicate Before(a: Line, b: Line) {
    match (a, b)
    case (KeyLine(m), KeyLine(n)) => m < n
    case (KeyLine(_), Matrix(_, _)) => true
    case (Matrix(_, _), KeyLine(_)) => false
    case (Matrix(r, c), Matrix(s, d)) => r < s || (r == s && c < d)
  }

  /** Modifiers are let go after everything else, and taken before it. */
  ghost predicate LetGoInOrder(s: seq<Line>) {
    forall i, j :: 0 <= i < j < |s| ==> if Modifier(s[i]) == Modifier(s[j]) then Before(s[i], s[j]) else Modifier(s[j])
  }

  ghost predicate TakenInOrder(s: seq<Line>) {
    forall i, j :: 0 <= i < j < |s| ==> if Modifier(s[i]) == Modifier(s[j]) then Before(s[i], s[j]) else Modifier(s[i])
  }

  lemma RankMeans(pressing: bool, a: Line, b: Line)
    requires Rank(pressing, a) < Rank(pressing, b)
    ensures if Modifier(a) == Modifier(b) then Before(a, b) else Modifier(if pressing then a else b)
  {
  }

  lemma AscendingMeans(releases: seq<Line>, presses: seq<Line>)
    requires Ascending(false, releases) && Ascending(true, presses)
    ensures LetGoInOrder(releases) && TakenInOrder(presses)
  {
    forall i, j | 0 <= i < j < |releases|
      ensures if Modifier(releases[i]) == Modifier(releases[j]) then Before(releases[i], releases[j])
              else Modifier(releases[j])
    {
      RankMeans(false, releases[i], releases[j]);
    }
    forall i, j | 0 <= i < j < |presses|
      ensures if Modifier(presses[i]) == Modifier(presses[j]) then Before(presses[i], presses[j])
              else Modifier(presses[i])
    {
      RankMeans(true, presses[i], presses[j]);
    }
  }

  /** A contact is let go only when no key still held maps to it. */
  predicate Unheld(down: Down, c: Line) {
    forall key :: key in down ==> c !in down[key]
  }

  lemma ReleasedMeansUnheld(down: Down, next: Down, releases: seq<Line>)
    requires Elements(releases) == Held(down) - Held(next)
    ensures forall i :: 0 <= i < |releases| ==> Unheld(next, releases[i])
  {
    forall i | 0 <= i < |releases| ensures Unheld(next, releases[i]) {
      assert releases[i] in Elements(releases);
    }
  }

  class HostKeys {
    const contacts: Keysym -> set<Line>
    var down: Down

    ghost predicate Valid()
      reads this
    {
      |Held(down)| <= HELD_LIMIT && |down| <= HELD_LIMIT
    }

    constructor (contacts: Keysym -> set<Line>)
      ensures Valid() && down == map[] && this.contacts == contacts
    {
      this.contacts, down := contacts, map[];
    }

    static method Sort(pressing: bool, contacts: set<Line>) returns (s: seq<Line>)
      ensures Elements(s) == contacts && Ascending(pressing, s) && |s| == |contacts|
    {
      var rest := contacts;
      s := [];
      while rest != {}
        invariant rest <= contacts && Elements(s) == contacts - rest && |s| + |rest| == |contacts|
        invariant Ascending(pressing, s)
        invariant forall i, c :: 0 <= i < |s| && c in rest ==> Rank(pressing, s[i]) < Rank(pressing, c)
        decreases |rest|
      {
        var least := Least(pressing, rest);
        ElementsSnoc(s, least);
        AscendingSnoc(pressing, s, least);
        s := s + [least];
        rest := rest - {least};
      }
    }

    static method Least(pressing: bool, contacts: set<Line>) returns (least: Line)
      requires contacts != {}
      ensures least in contacts
      ensures forall c :: c in contacts && c != least ==> Rank(pressing, least) < Rank(pressing, c)
    {
      least :| least in contacts;
      var rest := contacts - {least};
      while rest != {}
        invariant rest <= contacts && least in contacts && least !in rest
        invariant forall c :: c in contacts - rest && c != least ==> Rank(pressing, least) < Rank(pressing, c)
        decreases |rest|
      {
        var c :| c in rest;
        if Rank(pressing, c) <= Rank(pressing, least) {
          if Rank(pressing, c) == Rank(pressing, least) {
            RankInjective(pressing, c, least);
          }
          least := c;
        }
        rest := rest - {c};
      }
    }

    /** The commands take the firmware from what was held to what is held, releasing first, with
        modifiers let go last and taken first; they always fit one submission. */
    method Change(change: Change) returns (r: Option<seq<Command>>, ghost releases: seq<Line>, ghost presses: seq<Line>)
      requires Valid() && (change.Press? ==> |contacts(change.sym)| <= 2)
      modifies this
      ensures Valid()
      ensures var next := Updated(contacts, old(down), change);
        && (r.Some? <==> |Held(next)| <= HELD_LIMIT && |next| <= HELD_LIMIT)
        && down == (if r.Some? then next else old(down))
        && (r.Some? ==>
              && Carries(old(Held(down)), Held(next), releases, presses)
              && r.value == Moves(releases, false) + Moves(presses, true)
              && Replay(old(Held(down)), r.value) == Held(down) && |r.value| <= COMMAND_LIMIT
              && forall i :: 0 <= i < |releases| ==> Unheld(down, releases[i]))
      ensures r.Some? ==> KeysTold(contacts, old(down), change, down) && LetGoInOrder(releases) && TakenInOrder(presses)
    {
      releases, presses := [], [];
      var next := Updated(contacts, down, change);
      var before, after := Held(down), Held(next);
      if |next| > HELD_LIMIT || |after| > HELD_LIMIT {
        return None, releases, presses;
      }
      var gone := Sort(false, before - after);
      var taken := Sort(true, after - before);
      releases, presses := gone, taken;
      CarriesReplay(before, after, releases, presses);
      ReleasedMeansUnheld(down, next, releases);
      UpdatedTells(contacts, down, change);
      AscendingMeans(releases, presses);
      FewMoves(contacts, down, change);
      down := next;
      return Some(Moves(gone, false) + Moves(taken, true)), releases, presses;
    }
  }

  /** Thirty-two keys of the matrix: its two top rows, and the two with the letters q to h. */
  function KeyAt(k: nat): Line
    requires k < HELD_LIMIT
  {
    Matrix(if k < 16 then k / 8 else k / 8 + 1, k % 8)
  }

  function Keys(n: nat): set<Line>
    requires n <= HELD_LIMIT
  {
    if n == 0 then {} else Keys(n - 1) + {KeyAt(n - 1)}
  }

  lemma {:induction false} KeysApart(n: nat, k: nat)
    requires n <= k < HELD_LIMIT
    ensures KeyAt(k) !in Keys(n)
  {
    if n > 0 {
      KeysApart(n - 1, k);
    }
  }

  lemma {:induction false} KeysSize(n: nat)
    requires n <= HELD_LIMIT
    ensures |Keys(n)| == n
  {
    if n > 0 {
      KeysSize(n - 1);
      KeysApart(n - 1, n - 1);
    }
  }

  /** The held keys after pressing one key after another. */
  function Pressed(contacts: Keysym -> set<Line>, syms: seq<Keysym>, n: nat): Down
    requires n <= |syms|
  {
    if n == 0 then map[] else Updated(contacts, Pressed(contacts, syms, n - 1), Press(n - 1, syms[n - 1]))
  }

  predicate KeysBelow(down: Down, n: nat) {
    forall key :: key in down ==> 0 <= key < n
  }

  lemma {:induction false} PressedHolds(contacts: Keysym -> set<Line>, syms: seq<Keysym>, n: nat)
    requires n <= |syms| == HELD_LIMIT && forall k :: 0 <= k < HELD_LIMIT ==> contacts(syms[k]) == {KeyAt(k)}
    ensures Held(Pressed(contacts, syms, n)) == Keys(n) && |Pressed(contacts, syms, n)| == n
    ensures KeysBelow(Pressed(contacts, syms, n), n)
  {
    if n > 0 {
      PressedHolds(contacts, syms, n - 1);
      assert contacts(syms[n - 1]) == {KeyAt(n - 1)};
      PressedStep(contacts, syms, n, KeyAt(n - 1));
    }
  }

  lemma PressedStep(contacts: Keysym -> set<Line>, syms: seq<Keysym>, n: nat, c: Line)
    requires 0 < n <= |syms| && contacts(syms[n - 1]) == {c}
    requires KeysBelow(Pressed(contacts, syms, n - 1), n - 1)
    ensures Held(Pressed(contacts, syms, n)) == Held(Pressed(contacts, syms, n - 1)) + {c}
    ensures |Pressed(contacts, syms, n)| == |Pressed(contacts, syms, n - 1)| + 1
    ensures KeysBelow(Pressed(contacts, syms, n), n)
  {
    var before := Pressed(contacts, syms, n - 1);
    assert Pressed(contacts, syms, n) == before[n - 1 := {c}];
    HeldGrows(before, n - 1, {c});
  }

  lemma HeldGrows(down: Down, key: Keycode, more: set<Line>)
    requires key !in down
    ensures Held(down[key := more]) == Held(down) + more && |down[key := more]| == |down| + 1
  {
    var after := down[key := more];
    forall c | c in Held(down) + more ensures c in Held(after) {
      if c in more {
        assert key in after && c in after[key];
      } else {
        var k :| k in down && c in down[k];
        assert k in after && c in after[k];
      }
    }
    assert after.Keys == down.Keys + {key};
    assert |after| == |after.Keys| && |down| == |down.Keys|;
  }

  /** The limit is reached: thirty-two keys with one contact each can be held, and letting go of
      them all takes exactly the sixty-four commands that one submission may have. */
  lemma LimitIsTight(contacts: Keysym -> set<Line>, syms: seq<Keysym>, releases: seq<Line>, presses: seq<Line>)
    requires |syms| == HELD_LIMIT && forall k :: 0 <= k < HELD_LIMIT ==> contacts(syms[k]) == {KeyAt(k)}
    requires var down := Pressed(contacts, syms, HELD_LIMIT);
      Carries(Held(down), Held(Updated(contacts, down, Clear)), releases, presses)
    ensures |Pressed(contacts, syms, HELD_LIMIT)| == |Held(Pressed(contacts, syms, HELD_LIMIT))| == HELD_LIMIT
    ensures |Moves(releases, false) + Moves(presses, true)| == COMMAND_LIMIT
  {
    KeysSize(HELD_LIMIT);
    PressedHolds(contacts, syms, HELD_LIMIT);
    AllLetGo(Held(Pressed(contacts, syms, HELD_LIMIT)), releases, presses);
  }

  lemma AllLetGo(held: set<Line>, releases: seq<Line>, presses: seq<Line>)
    requires Carries(held, {}, releases, presses)
    ensures |Moves(releases, false) + Moves(presses, true)| == 2 * |held|
  {
    CarriesReplay(held, {}, releases, presses);
    assert held - {} == held && {} - held == {};
  }

  // ----- The pointer -----

  const JUMP_LIMIT := 128
  const BATCH_EDGES := 31

  function Abs(n: int): nat {
    if n < 0 then -n else n
  }

  /** Whole edges in a displacement, towards zero. */
  function Edges(d: int): int {
    if d < 0 then -(-d / 4) else d / 4
  }

  function Repeated(direction: nat, n: nat): (s: seq<nat>)
    ensures |s| == n && forall i :: 0 <= i < n ==> s[i] == direction
  {
    seq(n, _ => direction)
  }

  /** Horizontal edges, then vertical ones. */
  function Directions(dx: int, dy: int): seq<nat> {
    Repeated(if dx < 0 then 0 else 1, Abs(Edges(dx))) + Repeated(if dy < 0 then 2 else 3, Abs(Edges(dy)))
  }

  function Steps(directions: seq<nat>): seq<Command>
    decreases |directions|
  {
    if directions == [] then []
    else Steps(directions[..|directions| - 1]) + [Edge(directions[|directions| - 1]), Run(1)]
  }

  lemma {:induction false} StepsLength(directions: seq<nat>)
    ensures |Steps(directions)| == 2 * |directions|
    decreases |directions|
  {
    if directions != [] {
      StepsLength(directions[..|directions| - 1]);
    }
  }

  /** How far the edges of one axis carry: up for `plus`, down for `minus`. */
  function Net(directions: seq<nat>, minus: nat, plus: nat): int
    decreases |directions|
  {
    if directions == [] then 0
    else
      var d := directions[|directions| - 1];
      Net(directions[..|directions| - 1], minus, plus) + (if d == plus then 1 else if d == minus then -1 else 0)
  }

  lemma {:induction false} NetAppend(a: seq<nat>, b: seq<nat>, minus: nat, plus: nat)
    ensures Net(a + b, minus, plus) == Net(a, minus, plus) + Net(b, minus, plus)
    decreases |b|
  {
    if b == [] {
      assert a + b == a;
    } else {
      NetAppend(a, b[..|b| - 1], minus, plus);
      assert (a + b)[..|a + b| - 1] == a + b[..|b| - 1];
    }
  }

  lemma {:induction false} NetRepeated(direction: nat, n: nat, minus: nat, plus: nat)
    ensures Net(Repeated(direction, n), minus, plus)
         == if direction == plus then n as int else if direction == minus then -(n as int) else 0
  {
    if n > 0 {
      NetRepeated(direction, n - 1, minus, plus);
      assert Repeated(direction, n)[..n - 1] == Repeated(direction, n - 1);
    }
  }

  /** The edges of a displacement carry exactly its whole edges on each axis. */
  lemma DirectionsNet(dx: int, dy: int)
    ensures Net(Directions(dx, dy), 0, 1) == Edges(dx) && Net(Directions(dx, dy), 2, 3) == Edges(dy)
  {
    var a := Repeated(if dx < 0 then 0 else 1, Abs(Edges(dx)));
    var b := Repeated(if dy < 0 then 2 else 3, Abs(Edges(dy)));
    NetAppend(a, b, 0, 1);
    NetAppend(a, b, 2, 3);
    NetRepeated(if dx < 0 then 0 else 1, Abs(Edges(dx)), 0, 1);
    NetRepeated(if dx < 0 then 0 else 1, Abs(Edges(dx)), 2, 3);
    NetRepeated(if dy < 0 then 2 else 3, Abs(Edges(dy)), 0, 1);
    NetRepeated(if dy < 0 then 2 else 3, Abs(Edges(dy)), 2, 3);
  }

  /** Batches of directions, each closed by a longer run. */
  function Batches(parts: seq<seq<nat>>): seq<seq<Command>> {
    seq(|parts|, i requires 0 <= i < |parts| => Steps(parts[i]) + [Run(10)])
  }

  function Flat(parts: seq<seq<nat>>): seq<nat>
    decreases |parts|
  {
    if parts == [] then [] else Flat(parts[..|parts| - 1]) + parts[|parts| - 1]
  }

  datatype Point = Point(x: int, y: int)

  class HostPointer {
    var anchor: Option<Point>
    var remainder: Point

    ghost predicate Valid()
      reads this
    {
      -4 < remainder.x < 4 && -4 < remainder.y < 4
    }

    constructor ()
      ensures Valid() && anchor == None && remainder == Point(0, 0)
    {
      anchor, remainder := None, Point(0, 0);
    }

    method Reset()
      modifies this
      ensures Valid() && anchor == None && remainder == Point(0, 0)
    {
      anchor, remainder := None, Point(0, 0);
    }

    /** Cut the edges into batches of at most thirty-one. */
    static method Cut(directions: seq<nat>) returns (batches: seq<seq<Command>>, ghost parts: seq<seq<nat>>)
      ensures batches == Batches(parts) && Flat(parts) == directions
      ensures forall i :: 0 <= i < |batches| ==> |batches[i]| <= 63
    {
      batches, parts := [], [];
      var offset := 0;
      while offset < |directions|
        invariant offset <= |directions| && batches == Batches(parts) && Flat(parts) == directions[..offset]
        invariant forall i :: 0 <= i < |batches| ==> |batches[i]| <= 63
      {
        var end := if offset + BATCH_EDGES < |directions| then offset + BATCH_EDGES else |directions|;
        var part := directions[offset..end];
        StepsLength(part);
        assert (parts + [part])[..|parts|] == parts;
        assert directions[..end] == directions[..offset] + part;
        batches := batches + [Steps(part) + [Run(10)]];
        parts := parts + [part];
        offset := end;
      }
      assert directions[..|directions|] == directions;
    }

    /** Motion since the anchor, in edges of four pixels; what is left over is kept. */
    method Move(p: Point) returns (r: Option<seq<seq<Command>>>, ghost parts: seq<seq<nat>>)
      requires Valid()
      modifies this
      ensures Valid()
      ensures var next := Moved(Pointer(old(anchor), old(remainder), []), p);
        && (r.Some? <==> next.Some?)
        && anchor == (if next.Some? then next.value.anchor else old(anchor))
        && remainder == (if next.Some? then next.value.remainder else old(remainder))
        && (next.Some? ==> r.value == Batches(parts) && Flat(parts) == next.value.sent)
      ensures r.Some? ==> forall i :: 0 <= i < |r.value| ==> |r.value[i]| <= 63
      ensures r.None? <==>
                && old(anchor).Some?
                && Abs(p.x - old(anchor).value.x + old(remainder).x) / 4
                   + Abs(p.y - old(anchor).value.y + old(remainder).y) / 4 > 128
    {
      parts := [];
      if anchor.None? {
        anchor := Some(p);
        assert Batches([]) == [];
        return Some([]), parts;
      }
      var dx, dy := p.x - anchor.value.x + remainder.x, p.y - anchor.value.y + remainder.y;
      if Abs(Edges(dx)) + Abs(Edges(dy)) > JUMP_LIMIT {
        return None, parts;
      }
      assert [] + Directions(dx, dy) == Directions(dx, dy);
      var batches;
      batches, parts := Cut(Directions(dx, dy));
      anchor, remainder := Some(p), Point(dx - 4 * Edges(dx), dy - 4 * Edges(dy));
      return Some(batches), parts;
    }
  }

  // ----- Runs of motion -----

  /** A pointer, and the directions it has sent. */
  datatype Pointer = Pointer(anchor: Option<Point>, remainder: Point, sent: seq<nat>)

  const STILL := Pointer(None, Point(0, 0), [])

  /** One move, or nothing for a jump. */
  function Moved(s: Pointer, p: Point): Option<Pointer> {
    if s.anchor.None? then Some(s.(anchor := Some(p)))
    else
      var dx, dy := p.x - s.anchor.value.x + s.remainder.x, p.y - s.anchor.value.y + s.remainder.y;
      if Abs(Edges(dx)) + Abs(Edges(dy)) > JUMP_LIMIT then None
      else Some(Pointer(Some(p), Point(dx - 4 * Edges(dx), dy - 4 * Edges(dy)), s.sent + Directions(dx, dy)))
  }

  function MovedAll(s: Pointer, points: seq<Point>): Option<Pointer>
    decreases |points|
  {
    if points == [] then Some(s)
    else
      var before := MovedAll(s, points[..|points| - 1]);
      if before.None? then None else Moved(before.value, points[|points| - 1])
  }

  /** Over any run of motion without a jump, on each axis, four pixels for every net edge sent and
      the remainder make up the whole displacement; the remainder is less than an edge. */
  lemma {:induction false} MotionBalances(points: seq<Point>)
    requires points != [] && MovedAll(STILL, points).Some?
    ensures var t := MovedAll(STILL, points).value;
      var end := points[|points| - 1];
      && t.anchor == Some(end) && -4 < t.remainder.x < 4 && -4 < t.remainder.y < 4
      && 4 * Net(t.sent, 0, 1) + t.remainder.x == end.x - points[0].x
      && 4 * Net(t.sent, 2, 3) + t.remainder.y == end.y - points[0].y
    decreases |points|
  {
    var n := |points| - 1;
    if n > 0 {
      MotionBalances(points[..n]);
      var s := MovedAll(STILL, points[..n]).value;
      var dx := points[n].x - s.anchor.value.x + s.remainder.x;
      var dy := points[n].y - s.anchor.value.y + s.remainder.y;
      DirectionsNet(dx, dy);
      NetAppend(s.sent, Directions(dx, dy), 0, 1);
      NetAppend(s.sent, Directions(dx, dy), 2, 3);
    } else {
      assert points[..0] == [];
    }
  }
}
