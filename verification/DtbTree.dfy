/** What the property rewriter of tools/emulator_dtb.py means: a transformation of trees, and
    the one-pass fold over tokens that carries it out. */
module DtbTree {
  import opened Wrappers
  import opened DtbTokens
  import opened DtbFormat

  type Text = seq<int>  // code points

  datatype Key = Key(path: Text, name: Text)

  /** One entry of the replacement mapping; no value means delete. */
  datatype Replacement = Replacement(key: Key, value: Option<Text>)

  type Replacements = seq<Replacement>

  const SLASH: Byte := 47

  /** A mapping has each key once. */
  ghost predicate DistinctKeys(repl: Replacements) {
    forall i, j :: 0 <= i < j < |repl| ==> repl[i].key != repl[j].key
  }

  /** Values and added names are ASCII, and an added name has no NUL inside. */
  ghost predicate Encodable(repl: Replacements) {
    forall i :: 0 <= i < |repl| && repl[i].value.Some? ==>
      Ascii(repl[i].value.value) && Ascii(repl[i].key.name) && 0 !in repl[i].key.name
  }

  function Find(repl: Replacements, key: Key): (r: Option<Replacement>)
    ensures r.Some? ==> r.value in repl && r.value.key == key
    ensures r.None? ==> forall i :: 0 <= i < |repl| ==> repl[i].key != key
  {
    if repl == [] then None else if repl[0].key == key then Some(repl[0]) else Find(repl[1..], key)
  }

  function Encode(text: Text): (b: Blob)
    requires Ascii(text)
    ensures b == text
  {
    text
  }

  function Terminated(text: Text): Blob {
    if Ascii(text) then Encode(text) + [0] else [0]
  }

  function Name(text: Text): Blob {
    if Ascii(text) then Encode(text) else []
  }

  /** '/'.join of the open node names. */
  function Join(stack: seq<Blob>): Blob
    decreases |stack|
  {
    if stack == [] then [] else if |stack| == 1 then stack[0]
    else Join(stack[..|stack| - 1]) + [SLASH] + stack[|stack| - 1]
  }

  function PathOf(stack: seq<Blob>): Text {
    if Join(stack) == [] then [SLASH] else Join(stack)
  }

  // ----- The fold over tokens -----

  datatype Progress = Progress(out: seq<Token>, stack: seq<Blob>, found: set<Key>)

  /** The properties inserted before a node's end: its keys not yet found, in mapping order. */
  function Missing(repl: Replacements, path: Text, found: set<Key>): seq<Token>
    decreases |repl|
  {
    if repl == [] then []
    else
      (if repl[0].key.path == path && repl[0].key !in found && repl[0].value.Some?
       then [Prop(Name(repl[0].key.name), Terminated(repl[0].value.value))] else [])
      + Missing(repl[1..], path, found)
  }

  function KeysAt(repl: Replacements, path: Text): set<Key> {
    set r | r in repl && r.key.path == path :: r.key
  }

  function AllKeys(repl: Replacements): set<Key> {
    set r | r in repl :: r.key
  }

  function StepToken(p: Progress, t: Token, repl: Replacements): Option<Progress> {
    match t
    case Begin(name) => Some(p.(out := p.out + [t], stack := p.stack + [name]))
    case End =>
      if p.stack == [] then None
      else
        var path := PathOf(p.stack);
        Some(Progress(p.out + Missing(repl, path, p.found) + [End], p.stack[..|p.stack| - 1],
                      p.found + KeysAt(repl, path)))
    case Prop(name, value) =>
      var r := Find(repl, Key(PathOf(p.stack), name));
      if r.None? then Some(p.(out := p.out + [t]))
      else Some(p.(out := p.out + Replaced(name, r.value), found := p.found + {r.value.key}))
    case Nop => Some(p.(out := p.out + [t]))
    case Finish => Some(p.(out := p.out + [t]))
  }

  function Replaced(name: Blob, r: Replacement): seq<Token> {
    if r.value.Some? then [Prop(name, Terminated(r.value.value))] else []
  }

  function Fold(p: Progress, tokens: seq<Token>, repl: Replacements): Option<Progress>
    decreases |tokens|
  {
    if tokens == [] then Some(p)
    else
      var next := StepToken(p, tokens[0], repl);
      if next.None? then None else Fold(next.value, tokens[1..], repl)
  }

  const START := Progress([], [], {})

  lemma {:induction false} FoldAppend(p: Progress, a: seq<Token>, b: seq<Token>, repl: Replacements)
    requires Fold(p, a, repl).Some?
    ensures Fold(p, a + b, repl) == Fold(Fold(p, a, repl).value, b, repl)
    decreases |a|
  {
    if a == [] {
      assert a + b == b;
    } else {
      assert (a + b)[1..] == a[1..] + b;
      FoldAppend(StepToken(p, a[0], repl).value, a[1..], b, repl);
    }
  }

  // ----- Trees -----

  datatype Item = Property(name: Blob, value: Blob) | Gap | Node(name: Blob, items: seq<Item>)

  function Flatten(items: seq<Item>): seq<Token> {
    if items == [] then [] else FlattenItem(items[0]) + Flatten(items[1..])
  }

  function FlattenItem(item: Item): seq<Token> {
    match item
    case Property(name, value) => [Prop(name, value)]
    case Gap => [Nop]
    case Node(name, items) => [Begin(name)] + Flatten(items) + [End]
  }

  function PropertyNames(items: seq<Item>): set<Blob> {
    set item | item in items && item.Property? :: item.name
  }

  /** The paths of all nodes, in document order. */
  function NodePaths(items: seq<Item>, stack: seq<Blob>): seq<Text> {
    if items == [] then [] else ItemPaths(items[0], stack) + NodePaths(items[1..], stack)
  }

  function ItemPaths(item: Item, stack: seq<Blob>): seq<Text> {
    match item
    case Property(_, _) => []
    case Gap => []
    case Node(name, items) => [PathOf(stack + [name])] + NodePaths(items, stack + [name])
  }

  /** The meaning of the mapping: existing properties are replaced or dropped in place, and the
      keys of a node that it lacks are added after its other items. */
  function Rewrite(items: seq<Item>, stack: seq<Blob>, repl: Replacements): seq<Item> {
    if items == [] then [] else RewriteItem(items[0], stack, repl) + Rewrite(items[1..], stack, repl)
  }

  function RewriteItem(item: Item, stack: seq<Blob>, repl: Replacements): seq<Item> {
    match item
    case Property(name, value) =>
      var r := Find(repl, Key(PathOf(stack), name));
      if r.None? then [item]
      else if r.value.value.Some? then [Property(name, Terminated(r.value.value.value))]
      else []
    case Gap => [item]
    case Node(name, items) =>
      [Node(name, Rewrite(items, stack + [name], repl)
                  + Additions(repl, PathOf(stack + [name]), PropertyNames(items)))]
  }

  function Additions(repl: Replacements, path: Text, names: set<Blob>): seq<Item>
    decreases |repl|
  {
    if repl == [] then []
    else
      (if repl[0].key.path == path && repl[0].key.name !in names && repl[0].value.Some?
       then [Property(Name(repl[0].key.name), Terminated(repl[0].value.value))] else [])
      + Additions(repl[1..], path, names)
  }

  ghost predicate NoDuplicates(paths: seq<Text>) {
    forall i, j :: 0 <= i < j < |paths| ==> paths[i] != paths[j]
  }

  /** A devicetree: nodes with distinct paths, and no property outside a node. */
  ghost predicate WellFormed(tree: seq<Item>) {
    && (forall i :: 0 <= i < |tree| ==> !tree[i].Property?)
    && NoDuplicates(NodePaths(tree, []))
  }

  /** The keys that a walk over `items` touches. */
  function Touched(items: seq<Item>, stack: seq<Blob>, repl: Replacements): set<Key> {
    set r | r in repl && (r.key.path in NodePaths(items, stack)
                          || (r.key.path == PathOf(stack) && r.key.name in PropertyNames(items))) :: r.key
  }

  // ----- The fold carries out the transformation -----

  lemma {:induction false} FlattenAppend(a: seq<Item>, b: seq<Item>)
    ensures Flatten(a + b) == Flatten(a) + Flatten(b)
    decreases |a|
  {
    if a == [] {
      assert a + b == b;
    } else {
      assert (a + b)[1..] == a[1..] + b;
      FlattenAppend(a[1..], b);
    }
  }

  lemma {:induction false} MissingIsAdditions(repl: Replacements, path: Text, found: set<Key>, names: set<Blob>)
    requires forall r :: r in repl && r.key.path == path ==> (r.key in found <==> r.key.name in names)
    ensures Missing(repl, path, found) == Flatten(Additions(repl, path, names))
    decreases |repl|
  {
    if repl != [] {
      MissingIsAdditions(repl[1..], path, found, names);
      var head := if repl[0].key.path == path && repl[0].key.name !in names && repl[0].value.Some?
                  then [Property(Name(repl[0].key.name), Terminated(repl[0].value.value))] else [];
      FlattenAppend(head, Additions(repl[1..], path, names));
      FlattenHead(head);
    }
  }

  lemma FlattenHead(head: seq<Item>)
    requires |head| <= 1
    ensures head == [] ==> Flatten(head) == []
    ensures |head| == 1 ==> Flatten(head) == FlattenItem(head[0])
  {
    if |head| == 1 {
      assert head[1..] == [];
      assert Flatten(head) == FlattenItem(head[0]) + [];
    }
  }

  lemma DuplicateFree(a: seq<Text>, b: seq<Text>)
    requires NoDuplicates(a + b)
    ensures NoDuplicates(a) && NoDuplicates(b)
    ensures forall path :: path in a ==> path !in b
  {
    forall i, j | 0 <= i < j < |a| ensures a[i] != a[j] {
      assert (a + b)[i] == a[i] && (a + b)[j] == a[j];
    }
    forall i, j | 0 <= i < j < |b| ensures b[i] != b[j] {
      assert (a + b)[|a| + i] == b[i] && (a + b)[|a| + j] == b[j];
    }
    forall i, j | 0 <= i < |a| && 0 <= j < |b| ensures a[i] != b[j] {
      assert (a + b)[i] == a[i] && (a + b)[|a| + j] == b[j];
    }
  }

  /** What is known about the keys found before a walk over `items`. */
  ghost predicate Apart(found: set<Key>, items: seq<Item>, stack: seq<Blob>) {
    && (forall key :: key in found ==> key.path !in NodePaths(items, stack))
    && (PropertyNames(items) != {} ==> PathOf(stack) !in NodePaths(items, stack))
  }

  lemma {:induction false} FoldRewrites(items: seq<Item>, repl: Replacements, p: Progress)
    requires NoDuplicates(NodePaths(items, p.stack)) && Apart(p.found, items, p.stack)
    ensures Fold(p, Flatten(items), repl)
         == Some(Progress(p.out + Flatten(Rewrite(items, p.stack, repl)), p.stack,
                          p.found + Touched(items, p.stack, repl)))
    decreases items, 0
  {
    if items == [] {
      assert p.out + Flatten(Rewrite(items, p.stack, repl)) == p.out;
      assert p.found + Touched(items, p.stack, repl) == p.found;
    } else {
      var first, rest := items[0], items[1..];
      DuplicateFree(ItemPaths(first, p.stack), NodePaths(rest, p.stack));
      FoldRewritesItem(first, repl, p);
      var q := Fold(p, FlattenItem(first), repl).value;
      FoldAppend(p, FlattenItem(first), Flatten(rest), repl);
      ApartRest(items, repl, p, q);
      FoldRewrites(rest, repl, q);
      RewriteSplit(p.out, items, p.stack, repl);
      TouchedSplit(p.found, items, p.stack, repl);
    }
  }

  lemma RewriteSplit(out: seq<Token>, items: seq<Item>, stack: seq<Blob>, repl: Replacements)
    requires items != []
    ensures out + Flatten(RewriteItem(items[0], stack, repl)) + Flatten(Rewrite(items[1..], stack, repl))
         == out + Flatten(Rewrite(items, stack, repl))
  {
    FlattenAppend(RewriteItem(items[0], stack, repl), Rewrite(items[1..], stack, repl));
  }

  lemma ApartRest(items: seq<Item>, repl: Replacements, p: Progress, q: Progress)
    requires items != [] && NoDuplicates(NodePaths(items, p.stack)) && Apart(p.found, items, p.stack)
    requires q.stack == p.stack && q.found == p.found + TouchedItem(items[0], p.stack, repl)
    ensures Apart(q.found, items[1..], q.stack)
  {
    DuplicateFree(ItemPaths(items[0], p.stack), NodePaths(items[1..], p.stack));
    assert items[0].Property? ==> items[0].name in PropertyNames(items);
    assert forall item :: item in items[1..] ==> item in items;
    if PropertyNames(items[1..]) != {} {
      var name :| name in PropertyNames(items[1..]);
      assert name in PropertyNames(items);
    }
  }

  function TouchedItem(item: Item, stack: seq<Blob>, repl: Replacements): set<Key> {
    set r | r in repl && (r.key.path in ItemPaths(item, stack)
                          || (item.Property? && r.key.path == PathOf(stack) && r.key.name == item.name)) :: r.key
  }

  lemma TouchedSplit(found: set<Key>, items: seq<Item>, stack: seq<Blob>, repl: Replacements)
    requires items != []
    ensures found + TouchedItem(items[0], stack, repl) + Touched(items[1..], stack, repl)
         == found + Touched(items, stack, repl)
  {
    assert NodePaths(items, stack) == ItemPaths(items[0], stack) + NodePaths(items[1..], stack);
    PropertyNamesSplit(items);
  }

  lemma {:induction false} FoldRewritesItem(item: Item, repl: Replacements, p: Progress)
    requires NoDuplicates(ItemPaths(item, p.stack))
    requires forall key :: key in p.found ==> key.path !in ItemPaths(item, p.stack)
    ensures Fold(p, FlattenItem(item), repl)
         == Some(Progress(p.out + Flatten(RewriteItem(item, p.stack, repl)), p.stack,
                          p.found + TouchedItem(item, p.stack, repl)))
    decreases item, 1
  {
    match item
    case Property(name, value) =>
      FoldOne(p, Prop(name, value), repl);
      FlattenHead(RewriteItem(item, p.stack, repl));
      var r := Find(repl, Key(PathOf(p.stack), name));
      if r.None? {
        assert p.found + TouchedItem(item, p.stack, repl) == p.found;
      } else {
        assert TouchedItem(item, p.stack, repl) == {r.value.key};
      }
    case Gap =>
      FoldOne(p, Nop, repl);
      FlattenHead(RewriteItem(item, p.stack, repl));
      assert p.found + TouchedItem(item, p.stack, repl) == p.found;
    case Node(name, items) => FoldRewritesNode(name, items, repl, p);
  }

  lemma FoldOne(p: Progress, t: Token, repl: Replacements)
    ensures Fold(p, [t], repl) == StepToken(p, t, repl)
  {
    assert [t][1..] == [];
  }

  lemma {:induction false} FoldRewritesNode(name: Blob, items: seq<Item>, repl: Replacements, p: Progress)
    requires NoDuplicates(ItemPaths(Node(name, items), p.stack))
    requires forall key :: key in p.found ==> key.path !in ItemPaths(Node(name, items), p.stack)
    ensures Fold(p, FlattenItem(Node(name, items)), repl)
         == Some(Progress(p.out + Flatten(RewriteItem(Node(name, items), p.stack, repl)), p.stack,
                          p.found + TouchedItem(Node(name, items), p.stack, repl)))
    decreases items, 1
  {
    var inner := p.stack + [name];
    DuplicateFree([PathOf(inner)], NodePaths(items, inner));
    assert PathOf(inner) in [PathOf(inner)];
    var p1 := p.(out := p.out + [Begin(name)], stack := inner);
    FoldRewrites(items, repl, p1);
    var p2 := Fold(p1, Flatten(items), repl).value;
    FoldBrackets(p, p1, p2, name, Flatten(items), repl);
    EndInserts(items, repl, PathOf(inner), inner, p1, p2);
    NodeFlattens(p.out, name, items, inner, repl);
    TouchedNode(name, items, p.stack, repl, p.found);
    assert inner[..|inner| - 1] == p.stack;
  }

  lemma FoldBrackets(p: Progress, p1: Progress, p2: Progress, name: Blob, middle: seq<Token>, repl: Replacements)
    requires p1 == p.(out := p.out + [Begin(name)], stack := p.stack + [name])
    requires Fold(p1, middle, repl) == Some(p2)
    ensures Fold(p, [Begin(name)] + middle + [End], repl) == StepToken(p2, End, repl)
  {
    FoldOne(p, Begin(name), repl);
    FoldAppend(p, [Begin(name)], middle, repl);
    FoldAppend(p, [Begin(name)] + middle, [End], repl);
    FoldOne(p2, End, repl);
  }

  lemma NodeFlattens(out: seq<Token>, name: Blob, items: seq<Item>, inner: seq<Blob>, repl: Replacements)
    requires inner != []
    ensures var kept, added := Rewrite(items, inner, repl), Additions(repl, PathOf(inner), PropertyNames(items));
      out + [Begin(name)] + Flatten(kept) + Flatten(added) + [End] == out + Flatten([Node(name, kept + added)])
  {
    var kept, added := Rewrite(items, inner, repl), Additions(repl, PathOf(inner), PropertyNames(items));
    FlattenAppend(kept, added);
    FlattenHead([Node(name, kept + added)]);
    Bracket(out, [Begin(name)], Flatten(kept), Flatten(added), [End]);
  }

  lemma Bracket(out: seq<Token>, left: seq<Token>, a: seq<Token>, b: seq<Token>, right: seq<Token>)
    ensures out + left + a + b + right == out + (left + (a + b) + right)
  {
  }

  lemma TouchedNode(name: Blob, items: seq<Item>, stack: seq<Blob>, repl: Replacements, found: set<Key>)
    ensures found + Touched(items, stack + [name], repl) + KeysAt(repl, PathOf(stack + [name]))
         == found + TouchedItem(Node(name, items), stack, repl)
  {
    var path := PathOf(stack + [name]);
    var inside := NodePaths(items, stack + [name]);
    assert ItemPaths(Node(name, items), stack) == [path] + inside;
    forall r | r in repl
      ensures r.key.path in [path] + inside <==> r.key.path == path || r.key.path in inside
    {
    }
  }

  lemma EndInserts(items: seq<Item>, repl: Replacements, path: Text, inner: seq<Blob>, p1: Progress, p2: Progress)
    requires path == PathOf(inner) && path !in NodePaths(items, inner)
    requires forall key :: key in p1.found ==> key.path != path
    requires p2.found == p1.found + Touched(items, inner, repl)
    ensures Missing(repl, path, p2.found) == Flatten(Additions(repl, path, PropertyNames(items)))
  {
    forall r | r in repl && r.key.path == path ensures r.key in p2.found <==> r.key.name in PropertyNames(items) {
    }
    MissingIsAdditions(repl, path, p2.found, PropertyNames(items));
  }

  /** The one-pass rewriting of a whole tree: its tokens are those of the rewritten tree, and the
      keys found are exactly those whose node exists. */
  lemma FoldIsRewrite(tree: seq<Item>, repl: Replacements)
    requires WellFormed(tree)
    ensures Fold(START, Flatten(tree), repl)
         == Some(Progress(Flatten(Rewrite(tree, [], repl)), [], Reachable(tree, repl)))
  {
    assert PropertyNames(tree) == {};
    FoldRewrites(tree, repl, START);
    assert [] + Flatten(Rewrite(tree, [], repl)) == Flatten(Rewrite(tree, [], repl));
    assert {} + Touched(tree, [], repl) == Reachable(tree, repl);
  }

  /** The keys whose node exists. */
  function Reachable(tree: seq<Item>, repl: Replacements): set<Key> {
    set r | r in repl && r.key.path in NodePaths(tree, []) :: r.key
  }

  // ----- What a reader of the rewritten tree finds -----

  /** The values stored under a key, in document order. */
  function Values(items: seq<Item>, stack: seq<Blob>, key: Key): seq<Blob> {
    if items == [] then [] else ItemValues(items[0], stack, key) + Values(items[1..], stack, key)
  }

  function ItemValues(item: Item, stack: seq<Blob>, key: Key): seq<Blob> {
    match item
    case Property(name, value) => if key == Key(PathOf(stack), name) then [value] else []
    case Gap => []
    case Node(name, items) => Values(items, stack + [name], key)
  }

  lemma {:induction false} ValuesAppend(a: seq<Item>, b: seq<Item>, stack: seq<Blob>, key: Key)
    ensures Values(a + b, stack, key) == Values(a, stack, key) + Values(b, stack, key)
    decreases |a|
  {
    if a == [] {
      assert a + b == b;
    } else {
      assert (a + b)[1..] == a[1..] + b;
      ValuesAppend(a[1..], b, stack, key);
    }
  }

  lemma {:induction false} PathsAppend(a: seq<Item>, b: seq<Item>, stack: seq<Blob>)
    ensures NodePaths(a + b, stack) == NodePaths(a, stack) + NodePaths(b, stack)
    decreases |a|
  {
    if a == [] {
      assert a + b == b;
    } else {
      assert (a + b)[1..] == a[1..] + b;
      PathsAppend(a[1..], b, stack);
    }
  }

  lemma OneItem(item: Item, stack: seq<Blob>, key: Key)
    ensures Values([item], stack, key) == ItemValues(item, stack, key)
    ensures NodePaths([item], stack) == ItemPaths(item, stack)
  {
    assert [item][1..] == [];
    assert Values([item], stack, key) == ItemValues(item, stack, key) + [];
    assert NodePaths([item], stack) == ItemPaths(item, stack) + [];
  }

  /** Values are only found under existing nodes. */
  lemma {:induction false} ValuesHaveNodes(items: seq<Item>, stack: seq<Blob>, key: Key)
    ensures Values(items, stack, key) != [] ==>
              key.path in NodePaths(items, stack) || (key.path == PathOf(stack) && key.name in PropertyNames(items))
    ensures key.path == PathOf(stack) && key.name in PropertyNames(items) ==> Values(items, stack, key) != []
    decreases items
  {
    if items != [] {
      var first, rest := items[0], items[1..];
      ValuesHaveNodes(rest, stack, key);
      PropertyNamesSplit(items);
      assert NodePaths(items, stack) == ItemPaths(first, stack) + NodePaths(rest, stack);
      assert Values(items, stack, key) == ItemValues(first, stack, key) + Values(rest, stack, key);
      if first.Node? {
        ValuesHaveNodes(first.items, stack + [first.name], key);
        assert ItemPaths(first, stack) == [PathOf(stack + [first.name])] + NodePaths(first.items, stack + [first.name]);
      }
    }
  }

  lemma PropertyNamesSplit(items: seq<Item>)
    requires items != []
    ensures PropertyNames(items) == (if items[0].Property? then {items[0].name} else {}) + PropertyNames(items[1..])
  {
    assert forall item :: item in items <==> item == items[0] || item in items[1..];
  }

  lemma {:induction false} AdditionsValues(repl: Replacements, path: Text, names: set<Blob>, stack: seq<Blob>, key: Key)
    requires DistinctKeys(repl) && Encodable(repl) && path == PathOf(stack)
    ensures NodePaths(Additions(repl, path, names), stack) == []
    ensures var r := Find(repl, key);
      Values(Additions(repl, path, names), stack, key)
      == if key.path == path && key.name !in names && r.Some? && r.value.value.Some?
         then [Terminated(r.value.value.value)] else []
    decreases |repl|
  {
    if repl != [] {
      assert DistinctKeys(repl[1..]) && Encodable(repl[1..]) by {
        assert forall i :: 0 <= i < |repl| - 1 ==> repl[1..][i] == repl[i + 1];
      }
      AdditionsValues(repl[1..], path, names, stack, key);
      AdditionsHead(repl, path, names, stack, key);
      if repl[0].key == key {
        FindDistinct(repl);
      }
    }
  }

  lemma FindDistinct(repl: Replacements)
    requires DistinctKeys(repl) && repl != []
    ensures Find(repl[1..], repl[0].key) == None
  {
    forall i | 0 <= i < |repl[1..]| ensures repl[1..][i].key != repl[0].key {
      assert repl[1..][i] == repl[i + 1];
    }
  }

  lemma AdditionsHead(repl: Replacements, path: Text, names: set<Blob>, stack: seq<Blob>, key: Key)
    requires repl != [] && Encodable(repl) && path == PathOf(stack)
    ensures var hit := repl[0].key.path == path && repl[0].key.name !in names && repl[0].value.Some?;
      Values(Additions(repl, path, names), stack, key)
      == (if hit && repl[0].key == key then [Terminated(repl[0].value.value)] else [])
         + Values(Additions(repl[1..], path, names), stack, key)
    ensures NodePaths(Additions(repl, path, names), stack) == NodePaths(Additions(repl[1..], path, names), stack)
  {
    var rest := Additions(repl[1..], path, names);
    if repl[0].key.path == path && repl[0].key.name !in names && repl[0].value.Some? {
      var item := Property(Name(repl[0].key.name), Terminated(repl[0].value.value));
      assert Additions(repl, path, names) == [item] + rest;
      ValuesAppend([item], rest, stack, key);
      PathsAppend([item], rest, stack);
      OneItem(item, stack, key);
      assert [] + NodePaths(rest, stack) == NodePaths(rest, stack);
    } else {
      assert Additions(repl, path, names) == [] + rest == rest;
      assert [] + Values(rest, stack, key) == Values(rest, stack, key);
    }
  }

  /** The rewriting keeps every node where it was. */
  lemma {:induction false} RewriteKeepsNodes(items: seq<Item>, stack: seq<Blob>, repl: Replacements)
    requires DistinctKeys(repl) && Encodable(repl)
    ensures NodePaths(Rewrite(items, stack, repl), stack) == NodePaths(items, stack)
    decreases items
  {
    if items != [] {
      var first := items[0];
      PathsAppend(RewriteItem(first, stack, repl), Rewrite(items[1..], stack, repl), stack);
      RewriteKeepsNodes(items[1..], stack, repl);
      var key := Key([], []);
      match first
      case Property(name, value) =>
        if RewriteItem(first, stack, repl) != [] {
          OneItem(RewriteItem(first, stack, repl)[0], stack, key);
        }
      case Gap => OneItem(Gap, stack, key);
      case Node(name, sub) =>
        var inner := stack + [name];
        var added := Additions(repl, PathOf(inner), PropertyNames(sub));
        RewriteKeepsNodes(sub, inner, repl);
        PathsAppend(Rewrite(sub, inner, repl), added, inner);
        AdditionsValues(repl, PathOf(inner), PropertyNames(sub), inner, key);
        OneItem(Node(name, Rewrite(sub, inner, repl) + added), stack, key);
        assert NodePaths(sub, inner) + [] == NodePaths(sub, inner);
    }
  }

  /** What the mapping promises for one key: `before` values become `after`. */
  ghost predicate Promised(r: Option<Replacement>, present: bool, before: seq<Blob>, after: seq<Blob>) {
    if r.None? then after == before
    else if r.value.value.None? then after == []
    else && |after| == (if present && before == [] then 1 else |before|)
         && forall i :: 0 <= i < |after| ==> after[i] == Terminated(r.value.value.value)
  }

  lemma {:induction false} RewriteValues(items: seq<Item>, stack: seq<Blob>, repl: Replacements, key: Key)
    requires DistinctKeys(repl) && Encodable(repl)
    requires NoDuplicates(NodePaths(items, stack))
    requires PropertyNames(items) != {} ==> PathOf(stack) !in NodePaths(items, stack)
    ensures Promised(Find(repl, key), key.path in NodePaths(items, stack),
                     Values(items, stack, key), Values(Rewrite(items, stack, repl), stack, key))
    decreases items, 0
  {
    if items != [] {
      var first, rest := items[0], items[1..];
      assert items == [first] + rest;
      DuplicateFree(ItemPaths(first, stack), NodePaths(rest, stack));
      assert PropertyNames(items) == PropertyNames([first]) + PropertyNames(rest);
      RewriteItemValues(first, stack, repl, key);
      RewriteValues(rest, stack, repl, key);
      ValuesAppend(RewriteItem(first, stack, repl), Rewrite(rest, stack, repl), stack, key);
      ValuesHaveNodes([first], stack, key);
      ValuesHaveNodes(rest, stack, key);
      OneItem(first, stack, key);
    }
  }

  lemma {:induction false} RewriteItemValues(item: Item, stack: seq<Blob>, repl: Replacements, key: Key)
    requires DistinctKeys(repl) && Encodable(repl) && NoDuplicates(ItemPaths(item, stack))
    ensures Promised(Find(repl, key), key.path in ItemPaths(item, stack),
                     ItemValues(item, stack, key), Values(RewriteItem(item, stack, repl), stack, key))
    decreases item, 1
  {
    match item
    case Property(name, value) =>
      if RewriteItem(item, stack, repl) != [] {
        OneItem(RewriteItem(item, stack, repl)[0], stack, key);
      }
    case Gap => OneItem(item, stack, key);
    case Node(name, sub) =>
      var inner := stack + [name];
      DuplicateFree([PathOf(inner)], NodePaths(sub, inner));
      assert PathOf(inner) in [PathOf(inner)];
      RewriteValues(sub, inner, repl, key);
      RewriteNodeValues(name, sub, stack, repl, key);
  }

  /** Inside a node: what its items promise, and what is added at its end. */
  lemma RewriteNodeValues(name: Blob, sub: seq<Item>, stack: seq<Blob>, repl: Replacements, key: Key)
    requires DistinctKeys(repl) && Encodable(repl)
    requires var inner := stack + [name];
      && PathOf(inner) !in NodePaths(sub, inner)
      && Promised(Find(repl, key), key.path in NodePaths(sub, inner),
                  Values(sub, inner, key), Values(Rewrite(sub, inner, repl), inner, key))
    ensures Promised(Find(repl, key), key.path in ItemPaths(Node(name, sub), stack),
                     Values(sub, stack + [name], key), Values(RewriteItem(Node(name, sub), stack, repl), stack, key))
  {
    var inner := stack + [name];
    var path := PathOf(inner);
    var added := Additions(repl, path, PropertyNames(sub));
    ValuesAppend(Rewrite(sub, inner, repl), added, inner, key);
    AdditionsValues(repl, path, PropertyNames(sub), inner, key);
    ValuesHaveNodes(sub, inner, key);
    OneItem(Node(name, Rewrite(sub, inner, repl) + added), stack, key);
    NodeKey(sub, inner, key);
  }

  lemma NodeKey(sub: seq<Item>, inner: seq<Blob>, key: Key)
    ensures key.path in [PathOf(inner)] + NodePaths(sub, inner)
            <==> key.path == PathOf(inner) || key.path in NodePaths(sub, inner)
  {
  }

  /** The whole tree: nodes stay, and each key's values become what the mapping promises. */
  lemma LookupAfterRewrite(tree: seq<Item>, repl: Replacements, key: Key)
    requires WellFormed(tree) && DistinctKeys(repl) && Encodable(repl)
    ensures NodePaths(Rewrite(tree, [], repl), []) == NodePaths(tree, [])
    ensures Promised(Find(repl, key), key.path in NodePaths(tree, []),
                     Values(tree, [], key), Values(Rewrite(tree, [], repl), [], key))
  {
    assert PropertyNames(tree) == {};
    RewriteKeepsNodes(tree, [], repl);
    RewriteValues(tree, [], repl, key);
  }

  /** No property comes to stand outside a node. */
  lemma {:induction false} RewriteKeepsOutside(items: seq<Item>, stack: seq<Blob>, repl: Replacements)
    requires forall i :: 0 <= i < |items| ==> !items[i].Property?
    ensures forall i :: 0 <= i < |Rewrite(items, stack, repl)| ==> !Rewrite(items, stack, repl)[i].Property?
    decreases |items|
  {
    if items != [] {
      RewriteKeepsOutside(items[1..], stack, repl);
    }
  }

  /** The rewriting of a devicetree is one again. */
  lemma RewriteWellFormed(tree: seq<Item>, repl: Replacements)
    requires WellFormed(tree) && DistinctKeys(repl) && Encodable(repl)
    ensures WellFormed(Rewrite(tree, [], repl))
  {
    RewriteKeepsOutside(tree, [], repl);
    RewriteKeepsNodes(tree, [], repl);
  }

  // ----- What the mapping does not name -----

  /** The tree without the properties that the mapping names. */
  function Strip(items: seq<Item>, stack: seq<Blob>, repl: Replacements): seq<Item> {
    if items == [] then [] else StripItem(items[0], stack, repl) + Strip(items[1..], stack, repl)
  }

  function StripItem(item: Item, stack: seq<Blob>, repl: Replacements): seq<Item> {
    match item
    case Property(name, _) => if Find(repl, Key(PathOf(stack), name)).None? then [item] else []
    case Gap => [item]
    case Node(name, items) => [Node(name, Strip(items, stack + [name], repl))]
  }

  lemma {:induction false} StripAppend(a: seq<Item>, b: seq<Item>, stack: seq<Blob>, repl: Replacements)
    ensures Strip(a + b, stack, repl) == Strip(a, stack, repl) + Strip(b, stack, repl)
    decreases |a|
  {
    if a == [] {
      assert a + b == b;
    } else {
      assert (a + b)[1..] == a[1..] + b;
      StripAppend(a[1..], b, stack, repl);
    }
  }

  lemma StripOne(item: Item, stack: seq<Blob>, repl: Replacements)
    ensures Strip([item], stack, repl) == StripItem(item, stack, repl)
  {
    assert [item][1..] == [];
    assert StripItem(item, stack, repl) + [] == StripItem(item, stack, repl);
  }

  /** Whatever is added, the mapping names. */
  lemma {:induction false} AdditionsStripped(some: Replacements, path: Text, names: set<Blob>, stack: seq<Blob>,
                                             repl: Replacements)
    requires path == PathOf(stack) && Encodable(some) && forall i :: 0 <= i < |some| ==> some[i] in repl
    ensures Strip(Additions(some, path, names), stack, repl) == []
    decreases |some|
  {
    if some != [] {
      assert forall i :: 0 <= i < |some| - 1 ==> some[1..][i] == some[i + 1];
      AdditionsStripped(some[1..], path, names, stack, repl);
      var rest := Additions(some[1..], path, names);
      if some[0].key.path == path && some[0].key.name !in names && some[0].value.Some? {
        var item := Property(Name(some[0].key.name), Terminated(some[0].value.value));
        StripAppend([item], rest, stack, repl);
        StripOne(item, stack, repl);
        assert some[0] in repl && some[0].key == Key(PathOf(stack), item.name);
      } else {
        assert Additions(some, path, names) == [] + rest == rest;
      }
    }
  }

  /** Everything the mapping does not name stays as it is, where it is: in the same node and in
      the same order. */
  lemma {:induction false} OthersStay(items: seq<Item>, stack: seq<Blob>, repl: Replacements)
    requires Encodable(repl)
    ensures Strip(Rewrite(items, stack, repl), stack, repl) == Strip(items, stack, repl)
    decreases items
  {
    if items != [] {
      var first := items[0];
      StripAppend(RewriteItem(first, stack, repl), Rewrite(items[1..], stack, repl), stack, repl);
      OthersStay(items[1..], stack, repl);
      match first
      case Property(name, value) =>
        if RewriteItem(first, stack, repl) != [] {
          StripOne(RewriteItem(first, stack, repl)[0], stack, repl);
        }
      case Gap => StripOne(Gap, stack, repl);
      case Node(name, sub) =>
        var inner := stack + [name];
        var added := Additions(repl, PathOf(inner), PropertyNames(sub));
        OthersStay(sub, inner, repl);
        StripAppend(Rewrite(sub, inner, repl), added, inner, repl);
        AdditionsStripped(repl, PathOf(inner), PropertyNames(sub), inner, repl);
        StripOne(Node(name, Rewrite(sub, inner, repl) + added), stack, repl);
        assert Strip(sub, inner, repl) + [] == Strip(sub, inner, repl);
    }
  }

  /** Empty, or the end of the node that encloses the items before it. */
  predicate Closes(rest: seq<Token>) {
    rest == [] || rest[0].End? || rest[0].Finish?
  }

  /** A token stream is that of at most one tree, so reading a block has one meaning. */
  lemma {:induction false} FlattenUnique(a: seq<Item>, b: seq<Item>, u: seq<Token>, w: seq<Token>)
    requires Closes(u) && Closes(w) && Flatten(a) + u == Flatten(b) + w
    ensures a == b && u == w
    decreases a
  {
    var all := Flatten(a) + u;
    if a == [] {
      assert all == u;
      if b != [] {
        FlattenOpens(b, w);
      }
      assert Flatten(b) + w == w;
    } else {
      FlattenOpens(a, u);
      assert b == [] ==> Flatten(b) + w == w;
      FlattenOpens(b, w);
      assert all == FlattenItem(a[0]) + (Flatten(a[1..]) + u);
      assert all == FlattenItem(b[0]) + (Flatten(b[1..]) + w);
      assert all[0] == FlattenItem(a[0])[0] == FlattenItem(b[0])[0];
      match a[0] {
      case Node(name, sub) =>
        NodeUnique(sub, b[0].items, Flatten(a[1..]) + u, Flatten(b[1..]) + w, all, name);
        FlattenUnique(sub, b[0].items, [End] + (Flatten(a[1..]) + u), [End] + (Flatten(b[1..]) + w));
        assert ([End] + (Flatten(a[1..]) + u))[1..] == Flatten(a[1..]) + u;
        assert ([End] + (Flatten(b[1..]) + w))[1..] == Flatten(b[1..]) + w;
      case _ =>
        assert all[1..] == Flatten(a[1..]) + u == Flatten(b[1..]) + w;
      }
      FlattenUnique(a[1..], b[1..], u, w);
      assert a == [a[0]] + a[1..] && b == [b[0]] + b[1..];
    }
  }

  lemma NodeUnique(sub: seq<Item>, sub': seq<Item>, x: seq<Token>, y: seq<Token>, all: seq<Token>, name: Blob)
    requires all == FlattenItem(Node(name, sub)) + x == FlattenItem(Node(name, sub')) + y
    ensures Flatten(sub) + ([End] + x) == Flatten(sub') + ([End] + y)
  {
    Inside(Begin(name), Flatten(sub), End, x);
    Inside(Begin(name), Flatten(sub'), End, y);
  }

  lemma Inside(first: Token, inner: seq<Token>, last: Token, rest: seq<Token>)
    ensures ([first] + inner + [last] + rest)[1..] == inner + ([last] + rest)
  {
  }

  /** A nonempty forest never starts like a closing. */
  lemma FlattenOpens(items: seq<Item>, rest: seq<Token>)
    requires items != []
    ensures Flatten(items) + rest == FlattenItem(items[0]) + (Flatten(items[1..]) + rest)
    ensures |FlattenItem(items[0])| > 0 && !Closes(FlattenItem(items[0]))
    ensures !Closes(Flatten(items) + rest)
  {
  }
}
