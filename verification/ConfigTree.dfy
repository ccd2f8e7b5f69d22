/** Configuration trees and their flattening to dotted names (src/config.cpp:24-37). */
module ConfigTree {
  import opened Pattern

  /** What yaml-cpp hands over. A key that is not a scalar reads as the empty string. */
  datatype Yaml = Null | Scalar(text: string) | Seq(items: seq<Yaml>) | Map(pairs: seq<Entry>)

  datatype Entry = Entry(key: string, value: Yaml)

  type Node = (string, Yaml)

  predicate NameChar(c: char) {
    'a' <= c <= 'z' || c == '.' || c == '_' || '0' <= c <= '9'
  }

  /** Lower-case ASCII letters, digits, '.' and '_'. */
  lemma NameCharacters(c: char)
    ensures NameChar(c) <==> 97 <= c as int <= 122 || 48 <= c as int <= 57 || c as int == 46 || c as int == 95
  {}

  predicate ValidName(s: string) {
    forall i :: 0 <= i < |s| ==> NameChar(s[i])
  }

  function Join(prefix: string, key: string): string {
    if prefix == "" then key else prefix + "." + key
  }

  /** What ListAllMember adds to its output. */
  function Flatten(prefix: string, node: Yaml): seq<Node>
    decreases node
  {
    if !ValidName(prefix) then []
    else [(prefix, node)] + if node.Map? then FlattenPairs(prefix, node.pairs) else []
  }

  function FlattenPairs(prefix: string, pairs: seq<Entry>): seq<Node>
    decreases pairs
  {
    if pairs == [] then []
    else Flatten(Join(prefix, pairs[0].key), pairs[0].value) + FlattenPairs(prefix, pairs[1..])
  }

  /** Every node reachable through maps, in pre-order, with its dotted path. */
  function PreOrder(prefix: string, node: Yaml): seq<Node>
    decreases node
  {
    [(prefix, node)] + if node.Map? then PreOrderPairs(prefix, node.pairs) else []
  }

  function PreOrderPairs(prefix: string, pairs: seq<Entry>): seq<Node>
    decreases pairs
  {
    if pairs == [] then [] else PreOrder(Join(prefix, pairs[0].key), pairs[0].value) + PreOrderPairs(prefix, pairs[1..])
  }

  function Named(nodes: seq<Node>): seq<Node> {
    if nodes == [] then [] else (if ValidName(nodes[0].0) then [nodes[0]] else []) + Named(nodes[1..])
  }

  lemma {:induction false} NamedAppend(a: seq<Node>, b: seq<Node>)
    ensures Named(a + b) == Named(a) + Named(b)
  {
    if a == [] {
      assert a + b == b;
    } else {
      assert (a + b)[0] == a[0] && (a + b)[1..] == a[1..] + b;
      NamedAppend(a[1..], b);
    }
  }

  lemma InvalidPathsGoOn(prefix: string, key: string)
    requires !ValidName(prefix)
    ensures !ValidName(Join(prefix, key))
  {
    var i :| 0 <= i < |prefix| && !NameChar(prefix[i]);
    assert Join(prefix, key)[i] == prefix[i];
  }

  lemma {:induction false} NothingBelowInvalid(prefix: string, node: Yaml)
    requires !ValidName(prefix)
    ensures Named(PreOrder(prefix, node)) == []
    decreases node
  {
    if node.Map? {
      NothingBelowInvalidPairs(prefix, node.pairs);
    }
  }

  lemma {:induction false} NothingBelowInvalidPairs(prefix: string, pairs: seq<Entry>)
    requires !ValidName(prefix)
    ensures Named(PreOrderPairs(prefix, pairs)) == []
    decreases pairs
  {
    if pairs != [] {
      var path := Join(prefix, pairs[0].key);
      InvalidPathsGoOn(prefix, pairs[0].key);
      NothingBelowInvalid(path, pairs[0].value);
      NothingBelowInvalidPairs(prefix, pairs[1..]);
      NamedAppend(PreOrder(path, pairs[0].value), PreOrderPairs(prefix, pairs[1..]));
    }
  }

  /** Stopping at the first bad prefix loses nothing: the output is the pre-order of all nodes with a valid path, and
      the ancestors of such a node have valid paths as well. */
  lemma {:induction false} FlattenIsPreOrder(prefix: string, node: Yaml)
    ensures Flatten(prefix, node) == Named(PreOrder(prefix, node))
    decreases node
  {
    if !ValidName(prefix) {
      NothingBelowInvalid(prefix, node);
    } else if node.Map? {
      FlattenPairsIsPreOrder(prefix, node.pairs);
    }
  }

  lemma {:induction false} FlattenPairsIsPreOrder(prefix: string, pairs: seq<Entry>)
    ensures FlattenPairs(prefix, pairs) == Named(PreOrderPairs(prefix, pairs))
    decreases pairs
  {
    if pairs != [] {
      var path := Join(prefix, pairs[0].key);
      FlattenIsPreOrder(path, pairs[0].value);
      FlattenPairsIsPreOrder(prefix, pairs[1..]);
      NamedAppend(PreOrder(path, pairs[0].value), PreOrderPairs(prefix, pairs[1..]));
    }
  }

  // ---------------------------------------------------------------- lower case

  function ToLower(s: string): (r: string)
    ensures |r| == |s|
    ensures forall i :: 0 <= i < |s| ==>
      r[i] == if 'A' <= s[i] <= 'Z' then (s[i] as int + 32) as char else s[i]
  {
    if s == "" then ""
    else [if 'A' <= s[0] <= 'Z' then (s[0] as int + 32) as char else s[0]] + ToLower(s[1..])
  }

  /** Keys reach std::transform only in lower case, so the loader never folds an upper-case key to a variable. */
  lemma ListedNamesAreLower(prefix: string, node: Yaml, n: Node)
    requires n in Flatten(prefix, node)
    ensures ValidName(n.0) && ToLower(n.0) == n.0
  {
    FlattenIsPreOrder(prefix, node);
    NamedAreValid(PreOrder(prefix, node), n);
  }

  lemma {:induction false} NamedAreValid(nodes: seq<Node>, n: Node)
    ensures n in Named(nodes) <==> n in nodes && ValidName(n.0)
  {
    if nodes != [] {
      NamedAreValid(nodes[1..], n);
    }
  }

  // ---------------------------------------------------------------- the recursive method

  class NodeList {
    var items: seq<Node>

    constructor ()
      ensures items == []
    {
      items := [];
    }
  }

  lemma FlattenFrom(prefix: string, pairs: seq<Entry>, k: nat)
    requires k < |pairs|
    ensures FlattenPairs(prefix, pairs[k..]) ==
            Flatten(Join(prefix, pairs[k].key), pairs[k].value) + FlattenPairs(prefix, pairs[k+1..])
  {
  }

  method ListAllMember(prefix: string, node: Yaml, output: NodeList)
    modifies output
    ensures output.items == old(output.items) + Flatten(prefix, node)
    decreases node
  {
    if !ValidName(prefix) {
      return;
    }
    output.items := output.items + [(prefix, node)];
    if node.Map? {
      assert node.pairs[0..] == node.pairs && FlattenPairs(prefix, []) == [];
      Assoc(old(output.items), [(prefix, node)], FlattenPairs(prefix, node.pairs));
      assert Flatten(prefix, node) == [(prefix, node)] + FlattenPairs(prefix, node.pairs);
      hide Flatten, FlattenPairs, ValidName;
      ghost var before := output.items;
      var k := 0;
      while k < |node.pairs|
        invariant 0 <= k <= |node.pairs|
        invariant output.items + FlattenPairs(prefix, node.pairs[k..]) == before + FlattenPairs(prefix, node.pairs)
      {
        var path := if prefix == "" then node.pairs[k].key else prefix + "." + node.pairs[k].key;
        FlattenFrom(prefix, node.pairs, k);
        Assoc(output.items, Flatten(path, node.pairs[k].value), FlattenPairs(prefix, node.pairs[k+1..]));
        ListAllMember(path, node.pairs[k].value, output);
        k := k + 1;
      }
      assert node.pairs[k..] == [];
    }
  }
}
