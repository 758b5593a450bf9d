/** What a key's path means: splitting it at its slashes and descending from the root leads to the
    node whose property is changed (tools/emulator_dtb.py:5-58).
 */
module DtbPaths {
  import opened Wrappers
  import opened DtbTokens
  import opened DtbFormat
  import opened DtbTree
  import DtbBlob
  import DtbPatch

  /** A node name other than the root's. */
  predicate Named(name: Blob) {
    name != [] && forall i :: 0 <= i < |name| ==> name[i] != 47
  }

  /** The names of the open nodes, the root's empty one first. */
  predicate Absolute(stack: seq<Blob>) {
    stack != [] && stack[0] == [] && forall i :: 1 <= i < |stack| ==> Named(stack[i])
  }

  lemma JoinSnoc(stack: seq<Blob>, name: Blob)
    requires stack != []
    ensures Join(stack + [name]) == Join(stack) + [47] + name
  {
    assert (stack + [name])[..|stack|] == stack;
  }

  /** The root is "/", its children are "/" and their name, and below them a node's path is its
      parent's, "/" and its own name. */
  lemma PathsAre(stack: seq<Blob>, name: Blob)
    requires Absolute(stack) && Named(name)
    ensures PathOf([[]]) == [47] && PathOf([[], name]) == [47] + name
    ensures |stack| > 1 ==> PathOf(stack + [name]) == PathOf(stack) + [47] + name
  {
    JoinSnoc([[]], name);
    assert [[]] + [name] == [[], name];
    assert [] + [47] + name == [47] + name;
    JoinSnoc(stack, name);
    if |stack| > 1 {
      JoinSnoc(stack[..|stack| - 1], stack[|stack| - 1]);
      assert stack == stack[..|stack| - 1] + [stack[|stack| - 1]];
    }
  }

  // ----- Splitting a path -----

  /** The parts between slashes, of which there is always one. */
  function Split(text: Text): (parts: seq<Text>)
    ensures parts != []
    decreases |text|
  {
    if text == [] then [[]]
    else
      var before, c := Split(text[..|text| - 1]), text[|text| - 1];
      if c == 47 then before + [[]] else before[..|before| - 1] + [before[|before| - 1] + [c]]
  }

  function StackOf(path: Text): seq<Text> {
    if path == [47] then [[]] else Split(path)
  }

  lemma {:induction false} SplitName(text: Text, name: Text)
    requires forall i :: 0 <= i < |name| ==> name[i] != 47
    ensures Split(text + [47] + name) == Split(text) + [name]
    decreases |name|
  {
    var whole := text + [47] + name;
    if name == [] {
      assert whole[..|whole| - 1] == text;
    } else {
      var n := |name| - 1;
      SplitName(text, name[..n]);
      assert whole[..|whole| - 1] == text + [47] + name[..n];
      assert name == name[..n] + [name[n]];
      var before := Split(text) + [name[..n]];
      assert before[..|before| - 1] == Split(text);
    }
  }

  lemma SplitJoinSnoc(stack: seq<Blob>, name: Blob)
    requires stack != [] && Split(Join(stack)) == stack && Named(name)
    ensures Split(Join(stack + [name])) == stack + [name] && |Join(stack + [name])| > 1
  {
    JoinSnoc(stack, name);
    SplitName(Join(stack), name);
  }

  lemma {:induction false} SplitJoin(stack: seq<Blob>)
    requires Absolute(stack)
    ensures Split(Join(stack)) == stack
    ensures |stack| > 1 ==> |Join(stack)| > 1
    decreases |stack|
  {
    if |stack| > 1 {
      var before, name := stack[..|stack| - 1], stack[|stack| - 1];
      assert stack == before + [name];
      SplitJoin(before);
      SplitJoinSnoc(before, name);
    } else {
      assert stack == [[]];
    }
  }

  /** Splitting undoes joining, so different nodes have different paths. */
  lemma StackOfPath(stack: seq<Blob>)
    requires Absolute(stack)
    ensures StackOf(PathOf(stack)) == stack
  {
    SplitJoin(stack);
    if |stack| == 1 {
      assert stack == [[]];
    }
  }

  lemma PathInjective(a: seq<Blob>, b: seq<Blob>)
    requires Absolute(a) && Absolute(b)
    ensures PathOf(a) == PathOf(b) <==> a == b
  {
    StackOfPath(a);
    StackOfPath(b);
  }

  // ----- Descending -----

  /** The items of the node that the names lead to. */
  function Descend(items: seq<Item>, names: seq<Text>): Option<seq<Item>>
    decreases |names|, |items|
  {
    if names == [] then Some(items)
    else if items == [] then None
    else if items[0].Node? && items[0].name == names[0] then Descend(items[0].items, names[1..])
    else Descend(items[1..], names)
  }

  /** The values of the properties of that name among a node's own items. */
  function Direct(items: seq<Item>, name: Text): seq<Blob> {
    if items == [] then []
    else (if items[0].Property? && items[0].name == name then [items[0].value] else []) + Direct(items[1..], name)
  }

  predicate NamesGood(items: seq<Item>) {
    forall item :: item in items && item.Node? ==> Named(item.name) && NamesGood(item.items)
  }

  /** A devicetree as the specification has it: one root with the empty name, and names without
      slashes below it. */
  ghost predicate Conforms(tree: seq<Item>) {
    && WellFormed(tree)
    && forall item :: item in tree && item.Node? ==> item.name == [] && NamesGood(item.items)
  }

  predicate Under(prefix: seq<Blob>, stack: seq<Blob>) {
    |prefix| <= |stack| && stack[..|prefix|] == prefix
  }

  lemma AbsoluteSnoc(stack: seq<Blob>, name: Blob)
    requires Absolute(stack) && Named(name)
    ensures Absolute(stack + [name])
  {
  }

  lemma NotUnder(prefix: seq<Blob>, name: Blob, stack: seq<Blob>)
    ensures Under(prefix + [name], stack) ==> Under(prefix, stack) && stack[|prefix|] == name
  {
    if Under(prefix + [name], stack) {
      assert stack[..|prefix|] == stack[..|prefix| + 1][..|prefix|];
      assert stack[|prefix|] == stack[..|prefix| + 1][|prefix|];
    }
  }

  /** Nothing outside a node has a path below it. */
  lemma {:induction false} NothingElsewhere(items: seq<Item>, stack: seq<Blob>, target: seq<Blob>, key: Key)
    requires Absolute(stack) && Absolute(target) && key.path == PathOf(target) && !Under(stack, target)
    requires NamesGood(items)
    ensures Values(items, stack, key) == [] && key.path !in NodePaths(items, stack)
    decreases items
  {
    if items != [] {
      var first := items[0];
      assert first in items && forall item :: item in items[1..] ==> item in items;
      NothingElsewhere(items[1..], stack, target, key);
      PathInjective(stack, target);
      if first.Node? {
        AbsoluteSnoc(stack, first.name);
        NotUnder(stack, first.name, target);
        NothingElsewhere(first.items, stack + [first.name], target, key);
        PathInjective(stack + [first.name], target);
      }
    }
  }

  /** Descending passes through a child's path. */
  lemma {:induction false} ChildHasPath(items: seq<Item>, stack: seq<Blob>, names: seq<Blob>)
    requires names != [] && Descend(items, names).Some?
    ensures PathOf(stack + [names[0]]) in NodePaths(items, stack)
    decreases items
  {
    assert NodePaths(items, stack) == ItemPaths(items[0], stack) + NodePaths(items[1..], stack);
    if items[0].Node? && items[0].name == names[0] {
      assert ItemPaths(items[0], stack)[0] == PathOf(stack + [names[0]]);
    } else {
      ChildHasPath(items[1..], stack, names);
    }
  }

  /** What `Values` and `NodePaths` say of a path is what descending finds. */
  ghost predicate Found(items: seq<Item>, stack: seq<Blob>, names: seq<Text>, key: Key) {
    var node := Descend(items, names);
    && Values(items, stack, key) == (if node.Some? then Direct(node.value, key.name) else [])
    && (key.path in NodePaths(items, stack) <==> names != [] && node.Some?)
  }

  lemma {:induction false} DescendFinds(items: seq<Item>, stack: seq<Blob>, names: seq<Blob>, key: Key)
    requires Absolute(stack) && Absolute(stack + names) && key.path == PathOf(stack + names)
    requires NamesGood(items) && NoDuplicates(NodePaths(items, stack))
    ensures Found(items, stack, names, key)
    decreases items, 0
  {
    PathInjective(stack, stack + names);
    if items != [] {
      var first, rest := items[0], items[1..];
      assert first in items && forall item :: item in rest ==> item in items;
      assert NodePaths(items, stack) == ItemPaths(first, stack) + NodePaths(rest, stack);
      DuplicateFree(ItemPaths(first, stack), NodePaths(rest, stack));
      DescendFinds(rest, stack, names, key);
      if first.Node? {
        NodeFinds(items, first.name, first.items, stack, names, key);
      } else {
        LeafFinds(items, stack, names, key);
      }
    }
  }

  lemma LeafPaths(items: seq<Item>, stack: seq<Blob>, key: Key)
    requires items != [] && !items[0].Node?
    ensures NodePaths(items, stack) == NodePaths(items[1..], stack)
    ensures Values(items, stack, key)
         == (if items[0].Property? && key == Key(PathOf(stack), items[0].name) then [items[0].value] else [])
            + Values(items[1..], stack, key)
  {
    assert NodePaths(items, stack) == [] + NodePaths(items[1..], stack);
  }

  lemma LeafFinds(items: seq<Item>, stack: seq<Blob>, names: seq<Blob>, key: Key)
    requires items != [] && !items[0].Node? && Found(items[1..], stack, names, key)
    requires key.path == PathOf(stack) <==> names == []
    ensures Found(items, stack, names, key)
  {
    LeafPaths(items, stack, key);
    if names == [] {
      assert Descend(items, names) == Some(items) && Descend(items[1..], names) == Some(items[1..]);
    } else {
      assert [] + Values(items[1..], stack, key) == Values(items[1..], stack, key);
    }
  }

  lemma NodeParts(items: seq<Item>, name: Blob, sub: seq<Item>, stack: seq<Blob>, key: Key)
    requires items != [] && items[0] == Node(name, sub)
    ensures Values(items, stack, key) == Values(sub, stack + [name], key) + Values(items[1..], stack, key)
    ensures key.path in NodePaths(items, stack) <==>
              || key.path == PathOf(stack + [name]) || key.path in NodePaths(sub, stack + [name])
              || key.path in NodePaths(items[1..], stack)
  {
    assert ItemPaths(items[0], stack) == [PathOf(stack + [name])] + NodePaths(sub, stack + [name]);
  }

  lemma NodeApart(name: Blob, sub: seq<Item>, stack: seq<Blob>)
    requires NoDuplicates(ItemPaths(Node(name, sub), stack))
    ensures NoDuplicates(NodePaths(sub, stack + [name]))
    ensures PathOf(stack + [name]) in ItemPaths(Node(name, sub), stack)
  {
    var inner := stack + [name];
    assert ItemPaths(Node(name, sub), stack) == [PathOf(inner)] + NodePaths(sub, inner);
    assert ItemPaths(Node(name, sub), stack)[0] == PathOf(inner);
    DuplicateFree([PathOf(inner)], NodePaths(sub, inner));
  }

  lemma {:induction false} NodeFinds(items: seq<Item>, name: Blob, sub: seq<Item>, stack: seq<Blob>, names: seq<Blob>,
                                     key: Key)
    requires items != [] && items[0] == Node(name, sub) && Found(items[1..], stack, names, key)
    requires Absolute(stack) && Absolute(stack + names) && key.path == PathOf(stack + names)
    requires Named(name) && NamesGood(sub) && NoDuplicates(ItemPaths(items[0], stack))
    requires forall path :: path in ItemPaths(items[0], stack) ==> path !in NodePaths(items[1..], stack)
    ensures Found(items, stack, names, key)
    decreases sub, 1
  {
    NodeApart(name, sub, stack);
    AbsoluteSnoc(stack, name);
    if names != [] && names[0] == name {
      Onwards(stack, names);
      DescendFinds(sub, stack + [name], names[1..], key);
      PathInjective(stack + [name], stack + names);
      NoSecond(items[1..], stack, names);
      ThisNodeFinds(items, sub, stack, names, key);
    } else {
      Aside(name, sub, stack, names, key);
      OtherNodeFinds(items, name, sub, stack, names, key);
    }
  }

  lemma Onwards(stack: seq<Blob>, names: seq<Blob>)
    requires names != []
    ensures stack + names == stack + [names[0]] + names[1..]
    ensures names[1..] == [] <==> stack + [names[0]] == stack + names
  {
  }

  lemma NoSecond(items: seq<Item>, stack: seq<Blob>, names: seq<Blob>)
    requires names != [] && PathOf(stack + [names[0]]) !in NodePaths(items, stack)
    ensures Descend(items, names).None?
  {
    if Descend(items, names).Some? {
      ChildHasPath(items, stack, names);
    }
  }

  lemma Aside(name: Blob, sub: seq<Item>, stack: seq<Blob>, names: seq<Blob>, key: Key)
    requires Absolute(stack + [name]) && Absolute(stack + names) && key.path == PathOf(stack + names)
    requires NamesGood(sub) && (names == [] || names[0] != name)
    ensures Values(sub, stack + [name], key) == [] && key.path !in NodePaths(sub, stack + [name])
    ensures key.path != PathOf(stack + [name])
  {
    NotUnder(stack, name, stack + names);
    NothingElsewhere(sub, stack + [name], stack + names, key);
    PathInjective(stack + [name], stack + names);
  }

  lemma ThisNodeFinds(items: seq<Item>, sub: seq<Item>, stack: seq<Blob>, names: seq<Blob>, key: Key)
    requires items != [] && names != [] && items[0] == Node(names[0], sub)
    requires Found(items[1..], stack, names, key) && Descend(items[1..], names).None?
    requires Found(sub, stack + [names[0]], names[1..], key)
    requires key.path == PathOf(stack + [names[0]]) <==> names[1..] == []
    ensures Found(items, stack, names, key)
  {
    NodeParts(items, names[0], sub, stack, key);
    assert Values(sub, stack + [names[0]], key) + [] == Values(sub, stack + [names[0]], key);
  }

  lemma OtherNodeFinds(items: seq<Item>, name: Blob, sub: seq<Item>, stack: seq<Blob>, names: seq<Blob>, key: Key)
    requires items != [] && items[0] == Node(name, sub) && (names == [] || names[0] != name)
    requires Found(items[1..], stack, names, key)
    requires Values(sub, stack + [name], key) == [] && key.path !in NodePaths(sub, stack + [name])
    requires key.path != PathOf(stack + [name])
    ensures Found(items, stack, names, key)
  {
    NodeParts(items, name, sub, stack, key);
    assert [] + Values(items[1..], stack, key) == Values(items[1..], stack, key);
    if names == [] {
      assert Descend(items, names) == Some(items) && Descend(items[1..], names) == Some(items[1..]);
      assert [] + Direct(items[1..], key.name) == Direct(items[1..], key.name);
    }
  }

  // ----- From the top -----

  /** Only gaps and nodes with the empty name. */
  predicate TopLevel(items: seq<Item>) {
    forall item :: item in items ==> item.Gap? || (item.Node? && item.name == [] && NamesGood(item.items))
  }

  lemma GapFinds(items: seq<Item>, stack: seq<Blob>, names: seq<Blob>, key: Key)
    requires items != [] && items[0].Gap? && names != [] && Found(items[1..], stack, names, key)
    ensures Found(items, stack, names, key)
  {
    LeafPaths(items, stack, key);
    assert [] + Values(items[1..], stack, key) == Values(items[1..], stack, key);
  }

  lemma {:induction false} TopFinds(items: seq<Item>, names: seq<Blob>, key: Key)
    requires TopLevel(items) && NoDuplicates(NodePaths(items, []))
    requires Absolute(names) && key.path == PathOf(names)
    ensures Found(items, [], names, key)
    decreases |items|
  {
    if items != [] {
      var first, rest := items[0], items[1..];
      assert first in items && forall item :: item in rest ==> item in items;
      assert NodePaths(items, []) == ItemPaths(first, []) + NodePaths(rest, []);
      DuplicateFree(ItemPaths(first, []), NodePaths(rest, []));
      TopFinds(rest, names, key);
      if first.Gap? {
        GapFinds(items, [], names, key);
      } else {
        RootFinds(items, first.items, names, key);
      }
    }
  }

  lemma RootFinds(items: seq<Item>, sub: seq<Item>, names: seq<Blob>, key: Key)
    requires items != [] && items[0] == Node([], sub) && NamesGood(sub) && Found(items[1..], [], names, key)
    requires NoDuplicates(ItemPaths(items[0], []))
    requires forall path :: path in ItemPaths(items[0], []) ==> path !in NodePaths(items[1..], [])
    requires Absolute(names) && key.path == PathOf(names)
    ensures Found(items, [], names, key)
  {
    NodeApart([], sub, []);
    Onwards([], names);
    assert [] + names == names && [] + [names[0]] == [[]];
    DescendFinds(sub, [[]], names[1..], key);
    PathInjective([[]], names);
    NoSecond(items[1..], [], names);
    ThisNodeFinds(items, sub, [], names, key);
  }

  lemma ConformingTop(tree: seq<Item>)
    requires Conforms(tree)
    ensures TopLevel(tree) && PropertyNames(tree) == {}
  {
  }

  /** Names that lead somewhere are names of nodes. */
  lemma {:induction false} LeadingNames(items: seq<Item>, names: seq<Text>) returns (stack: seq<Blob>)
    requires NamesGood(items) && Descend(items, names).Some?
    ensures stack == names && forall i :: 0 <= i < |stack| ==> Named(stack[i])
    decreases |names|, |items|
  {
    if names == [] {
      stack := [];
    } else {
      assert items[0] in items && forall item :: item in items[1..] ==> item in items;
      if items[0].Node? && items[0].name == names[0] {
        stack := LeadingNames(items[0].items, names[1..]);
        stack := [items[0].name] + stack;
      } else {
        stack := LeadingNames(items[1..], names);
      }
    }
  }

  lemma {:induction false} LeadingStack(tree: seq<Item>, names: seq<Text>) returns (stack: seq<Blob>)
    requires TopLevel(tree) && names != [] && Descend(tree, names).Some?
    ensures stack == names && Absolute(stack)
    decreases |tree|
  {
    assert tree[0] in tree && forall item :: item in tree[1..] ==> item in tree;
    if tree[0].Node? && tree[0].name == names[0] {
      var below := LeadingNames(tree[0].items, names[1..]);
      stack := [[]] + below;
      assert stack == names;
    } else {
      stack := LeadingStack(tree[1..], names);
    }
  }

  /** Joining undoes splitting. */
  lemma {:induction false} JoinSplit(text: Text, parts: seq<Blob>)
    requires Split(text) == parts
    ensures Join(parts) == text
    decreases |text|
  {
    if text != [] {
      var n, m := |text| - 1, |parts| - 1;
      var c, last := text[n], parts[m];
      assert text == text[..n] + [c];
      if c == 47 {
        JoinSplit(text[..n], parts[..m]);
        JoinSnoc(parts[..m], []);
        assert parts == parts[..m] + [[]];
      } else {
        var shorter: seq<Blob> := parts[..m] + [last[..|last| - 1]];
        assert Split(text[..n]) == shorter;
        JoinSplit(text[..n], shorter);
        JoinLonger(parts, shorter);
      }
    }
  }

  /** One more character at the end of the last name. */
  lemma JoinLonger(parts: seq<Blob>, shorter: seq<Blob>)
    requires |parts| == |shorter| > 0 && parts[..|parts| - 1] == shorter[..|parts| - 1]
    requires parts[|parts| - 1] != []
    requires shorter[|parts| - 1] == parts[|parts| - 1][..|parts[|parts| - 1]| - 1]
    ensures Join(parts) == Join(shorter) + [parts[|parts| - 1][|parts[|parts| - 1]| - 1]]
  {
    var m := |parts| - 1;
    var last := parts[m];
    assert last == last[..|last| - 1] + [last[|last| - 1]];
    if m > 0 {
      JoinSnoc(parts[..m], last);
      JoinSnoc(shorter[..m], shorter[m]);
      assert parts == parts[..m] + [last] && shorter == shorter[..m] + [shorter[m]];
    }
  }

  lemma {:induction false} PathsAreAbsolute(items: seq<Item>, stack: seq<Blob>, path: Text) returns (names: seq<Blob>)
    requires NamesGood(items) && Absolute(stack) && path in NodePaths(items, stack)
    ensures Absolute(names) && path == PathOf(names)
    decreases items
  {
    var first := items[0];
    assert first in items && forall item :: item in items[1..] ==> item in items;
    if path in NodePaths(items[1..], stack) {
      names := PathsAreAbsolute(items[1..], stack, path);
    } else {
      AbsoluteSnoc(stack, first.name);
      if path == PathOf(stack + [first.name]) {
        names := stack + [first.name];
      } else {
        names := PathsAreAbsolute(first.items, stack + [first.name], path);
      }
    }
  }

  lemma {:induction false} TopPathsAreAbsolute(tree: seq<Item>, path: Text) returns (names: seq<Blob>)
    requires TopLevel(tree) && path in NodePaths(tree, [])
    ensures Absolute(names) && path == PathOf(names)
    decreases |tree|
  {
    var first := tree[0];
    assert first in tree && forall item :: item in tree[1..] ==> item in tree;
    if path in NodePaths(tree[1..], []) {
      names := TopPathsAreAbsolute(tree[1..], path);
    } else {
      assert [] + [first.name] == [[]];
      if path == PathOf([[]]) {
        names := [[]];
      } else {
        names := PathsAreAbsolute(first.items, [[]], path);
      }
    }
  }

  /** For any path but the empty one: it names a node exactly when splitting it and descending finds
      one, and what is stored under a key is stored in that node. */
  lemma PathFinds(tree: seq<Item>, key: Key)
    requires Conforms(tree) && key.path != []
    ensures var node := Descend(tree, StackOf(key.path));
      && (key.path in NodePaths(tree, []) <==> node.Some?)
      && Values(tree, [], key) == if node.Some? then Direct(node.value, key.name) else []
  {
    ConformingTop(tree);
    var names := StackOf(key.path);
    if key.path in NodePaths(tree, []) {
      var stack := TopPathsAreAbsolute(tree, key.path);
      StackOfPath(stack);
      TopFinds(tree, stack, key);
    } else {
      ValuesHaveNodes(tree, [], key);
      if Descend(tree, names).Some? {
        var stack := LeadingStack(tree, names);
        if key.path != [47] {
          JoinSplit(key.path, stack);
        }
        TopFinds(tree, stack, key);
      }
    }
  }

  // ----- The rewriting, seen by descending -----

  lemma AdditionsAreProperties(repl: Replacements, path: Text, names: set<Blob>)
    ensures forall item :: item in Additions(repl, path, names) ==> item.Property?
    decreases |repl|
  {
    if repl != [] {
      AdditionsAreProperties(repl[1..], path, names);
    }
  }

  /** The rewriting changes no name of a node. */
  lemma {:induction false} RewriteNames(items: seq<Item>, stack: seq<Blob>, repl: Replacements)
    requires NamesGood(items)
    ensures NamesGood(Rewrite(items, stack, repl))
    decreases items, 0
  {
    if items != [] {
      var first := items[0];
      assert first in items && forall item :: item in items[1..] ==> item in items;
      RewriteNames(items[1..], stack, repl);
      if first.Node? {
        RewriteNodeNames(first.name, first.items, stack, repl);
      }
      assert forall item :: item in RewriteItem(first, stack, repl) && item.Node? ==>
               Named(item.name) && NamesGood(item.items);
    }
  }

  lemma {:induction false} RewriteNodeNames(name: Blob, sub: seq<Item>, stack: seq<Blob>, repl: Replacements)
    requires NamesGood(sub)
    ensures forall item :: item in RewriteItem(Node(name, sub), stack, repl) ==>
              item.Node? && item.name == name && NamesGood(item.items)
    decreases sub, 1
  {
    var inner := stack + [name];
    RewriteNames(sub, inner, repl);
    AdditionsAreProperties(repl, PathOf(inner), PropertyNames(sub));
  }

  lemma {:induction false} RewriteTop(items: seq<Item>, repl: Replacements)
    requires TopLevel(items)
    ensures TopLevel(Rewrite(items, [], repl))
    decreases |items|
  {
    if items != [] {
      var first := items[0];
      assert first in items && forall item :: item in items[1..] ==> item in items;
      RewriteTop(items[1..], repl);
      if first.Node? {
        RewriteNodeNames(first.name, first.items, [], repl);
      }
    }
  }

  lemma RewriteConforms(tree: seq<Item>, repl: Replacements)
    requires Conforms(tree) && DistinctKeys(repl) && Encodable(repl)
    ensures Conforms(Rewrite(tree, [], repl))
  {
    ConformingTop(tree);
    RewriteTop(tree, repl);
    RewriteWellFormed(tree, repl);
  }

  /** What becomes of the properties of one name in one node. */
  ghost predicate Becomes(repl: Replacements, key: Key, before: seq<Blob>, after: seq<Blob>) {
    && ((forall e :: e in repl ==> e.key != key) ==> after == before)
    && (forall e :: e in repl && e.key == key && e.value.None? ==> after == [])
    && (forall e :: e in repl && e.key == key && e.value.Some? ==>
          && |after| == (if before == [] then 1 else |before|)
          && forall i :: 0 <= i < |after| ==> after[i] == e.value.value + [0])
  }

  lemma FindIs(repl: Replacements, e: Replacement)
    requires DistinctKeys(repl) && e in repl
    ensures Find(repl, e.key) == Some(e)
  {
    var r := Find(repl, e.key);
    var i :| 0 <= i < |repl| && repl[i] == e;
    if r.Some? {
      var j :| 0 <= j < |repl| && repl[j] == r.value;
      assert i < j || j < i || i == j;
    }
  }

  lemma PromisedIsReplaced(repl: Replacements, key: Key, before: seq<Blob>, after: seq<Blob>)
    requires DistinctKeys(repl) && Encodable(repl) && Promised(Find(repl, key), true, before, after)
    ensures Becomes(repl, key, before, after)
  {
    forall e | e in repl && e.key == key
      ensures e.value.None? ==> after == []
      ensures e.value.Some? ==> && |after| == (if before == [] then 1 else |before|)
                                && forall i :: 0 <= i < |after| ==> after[i] == e.value.value + [0]
    {
      FindIs(repl, e);
    }
  }

  /** A patched blob, read back: the node that a key's path leads to is still there, and in it
      exactly that property is replaced by the text and a NUL, dropped, or added. The patch fails for
      a missing node exactly if some path leads nowhere. */
  lemma PatchedByPath(data: Blob, repl: Replacements, tree: seq<Item>, ending: seq<Token>,
                      r: Result<Blob, DtbPatch.Error>, key: Key)
    requires DtbBlob.Readable(data, repl) && DtbBlob.Spells(data, tree, ending) && Conforms(tree)
    requires if r.Ok? then DtbBlob.Patched(data, repl, r.value) else DtbBlob.Refused(data, repl, r.error)
    requires key.path != [] && forall e :: e in repl ==> e.key.path != []
    ensures r.Err? && !r.error.Overflow? ==>
              r.error.MissingNodes? && exists e :: e in repl && Descend(tree, StackOf(e.key.path)).None?
    ensures r.Ok? ==>
              var after := Rewrite(tree, [], repl);
              && DtbBlob.Spells(r.value, after, ending)
              && (forall e :: e in repl ==> Descend(tree, StackOf(e.key.path)).Some?)
              && var node, node' := Descend(tree, StackOf(key.path)), Descend(after, StackOf(key.path));
                 && (node.Some? <==> node'.Some?)
                 && (node.Some? ==> Becomes(repl, key, Direct(node.value, key.name), Direct(node'.value, key.name)))
  {
    DtbBlob.PatchedTree(data, repl, tree, ending, r, key);
    RewriteConforms(tree, repl);
    PathFinds(tree, key);
    PathFinds(Rewrite(tree, [], repl), key);
    forall e | e in repl ensures e.key.path in NodePaths(tree, []) <==> Descend(tree, StackOf(e.key.path)).Some? {
      PathFinds(tree, e.key);
    }
    if key.path in NodePaths(tree, []) {
      PromisedIsReplaced(repl, key, Values(tree, [], key), Values(Rewrite(tree, [], repl), [], key));
    }
  }
}
