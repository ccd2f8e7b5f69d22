/** Which node a dotted name stands for: key paths through the maps of a tree, spelled with dots
    (src/config.cpp:24-62). */
module ConfigPaths {
  import opened Pattern
  import opened ConfigTree
  import opened ConfigVars
  import opened ConfigLoading

  type Keys = seq<string>

  /** Going down from root by the keys, one map after the other, can end at node. */
  ghost predicate Reaches(root: Yaml, keys: Keys, node: Yaml)
    decreases |keys|
  {
    if keys == [] then node == root
    else root.Map? && exists e :: e in root.pairs && e.key == keys[0] && Reaches(e.value, keys[1..], node)
  }

  /** The keys with dots between them. */
  function Dotted(keys: Keys): string {
    if |keys| == 0 then ""
    else if |keys| == 1 then keys[0]
    else keys[0] + "." + Dotted(keys[1..])
  }

  /** Empty keys at the start leave no trace. */
  function Spelled(keys: Keys): string {
    if |keys| > 0 && keys[0] == "" then Spelled(keys[1..]) else Dotted(keys)
  }

  // ---------------------------------------------------------------- what is listed

  /** The listing's own way of building a path, key by key from the left. */
  function Extend(prefix: string, keys: Keys): string
    decreases |keys|
  {
    if keys == [] then prefix else Extend(Join(prefix, keys[0]), keys[1..])
  }

  lemma {:induction false} ExtendAfter(prefix: string, keys: Keys)
    requires prefix != "" && keys != []
    ensures Extend(prefix, keys) == prefix + "." + Dotted(keys)
    decreases |keys|
  {
    if |keys| > 1 {
      ExtendAfter(Join(prefix, keys[0]), keys[1..]);
      assert prefix + "." + keys[0] + "." + Dotted(keys[1..]) == prefix + "." + (keys[0] + "." + Dotted(keys[1..]));
    }
  }

  lemma {:induction false} ExtendSpells(keys: Keys)
    ensures Extend("", keys) == Spelled(keys)
  {
    if keys != [] {
      if keys[0] == "" {
        ExtendSpells(keys[1..]);
      } else if |keys| > 1 {
        ExtendAfter(keys[0], keys[1..]);
      }
    }
  }

  /** Some keys lead from node to n and extend the prefix to its name. */
  ghost predicate Leads(prefix: string, node: Yaml, n: Node) {
    exists keys :: Reaches(node, keys, n.1) && n.0 == Extend(prefix, keys)
  }

  ghost predicate Under(prefix: string, pairs: seq<Entry>, n: Node) {
    exists e :: e in pairs && Leads(Join(prefix, e.key), e.value, n)
  }

  lemma UnderFirst(prefix: string, pairs: seq<Entry>, n: Node)
    requires pairs != []
    ensures Under(prefix, pairs, n) <==> Leads(Join(prefix, pairs[0].key), pairs[0].value, n) || Under(prefix, pairs[1..], n)
    ensures n in PreOrderPairs(prefix, pairs) <==>
            n in PreOrder(Join(prefix, pairs[0].key), pairs[0].value) || n in PreOrderPairs(prefix, pairs[1..])
  {
    hide Leads, PreOrder, Join;
    assert pairs == [pairs[0]] + pairs[1..];
  }

  lemma {:induction false} ListedUnder(prefix: string, pairs: seq<Entry>, n: Node)
    ensures n in PreOrderPairs(prefix, pairs) <==> Under(prefix, pairs, n)
    decreases pairs
  {
    hide PreOrder, Under, Join, Leads;
    if pairs != [] {
      var e := pairs[0];
      Listed(Join(prefix, e.key), e.value, n);
      ListedUnder(prefix, pairs[1..], n);
      UnderFirst(prefix, pairs, n);
      hide PreOrderPairs;
    } else {
      NothingUnder(prefix, n);
    }
  }

  lemma NothingUnder(prefix: string, n: Node)
    ensures !Under(prefix, [], n)
  {}

  lemma {:induction false} Listed(prefix: string, node: Yaml, n: Node)
    ensures n in PreOrder(prefix, node) <==> Leads(prefix, node, n)
    decreases node
  {
    if node.Map? {
      ListedUnder(prefix, node.pairs, n);
    }
    if keys :| Reaches(node, keys, n.1) && n.0 == Extend(prefix, keys) {
      if keys != [] {
        var e :| e in node.pairs && e.key == keys[0] && Reaches(e.value, keys[1..], n.1);
        assert Leads(Join(prefix, e.key), e.value, n);
      }
    }
    if n == (prefix, node) {
      assert Reaches(node, [], n.1) && n.0 == Extend(prefix, []);
    } else if node.Map? && Under(prefix, node.pairs, n) {
      var e :| e in node.pairs && Leads(Join(prefix, e.key), e.value, n);
      var keys :| Reaches(e.value, keys, n.1) && n.0 == Extend(Join(prefix, e.key), keys);
      var ks := [e.key] + keys;
      assert ks[1..] == keys;
      assert Reaches(node, ks, n.1) && n.0 == Extend(prefix, ks);
    }
  }

  /** The naming law: a node is listed under a name exactly when that name is the dotted spelling of keys that lead to it. */
  lemma PathsExactly(root: Yaml, name: string, node: Yaml)
    ensures (name, node) in PreOrder("", root) <==> exists keys :: Reaches(root, keys, node) && name == Spelled(keys)
    ensures (name, node) in Flatten("", root) <==>
            ValidName(name) && exists keys :: Reaches(root, keys, node) && name == Spelled(keys)
  {
    hide Reaches, PreOrder, Flatten, ValidName, Leads, Spelled;
    Listed("", root, (name, node));
    FlattenIsPreOrder("", root);
    NamedAreValid(PreOrder("", root), (name, node));
    LeadsSpelled(root, name, node);
  }

  lemma LeadsSpelled(root: Yaml, name: string, node: Yaml)
    ensures Leads("", root, (name, node)) <==> exists keys :: Reaches(root, keys, node) && name == Spelled(keys)
  {
    if keys :| Reaches(root, keys, node) && name == Extend("", keys) {
      ExtendSpells(keys);
      assert Reaches(root, keys, node) && name == Spelled(keys);
    }
    if keys :| Reaches(root, keys, node) && name == Spelled(keys) {
      ExtendSpells(keys);
      assert Reaches(root, keys, node) && name == Extend("", keys);
    }
  }

  // ---------------------------------------------------------------- names give the path back

  /** A key that a dotted name can show. */
  predicate Plain(key: string) {
    |key| > 0 && forall i :: 0 <= i < |key| ==> key[i] != '.'
  }

  predicate AllPlain(keys: Keys) {
    forall k :: k in keys ==> Plain(k)
  }

  function Split(s: string, part: string): Keys {
    if s == "" then [part]
    else if s[0] == '.' then [part] + Split(s[1..], "")
    else Split(s[1..], part + [s[0]])
  }

  lemma {:induction false} SplitKey(key: string, rest: string, part: string)
    requires forall i :: 0 <= i < |key| ==> key[i] != '.'
    ensures Split(key, part) == [part + key]
    ensures Split(key + "." + rest, part) == [part + key] + Split(rest, "")
    decreases |key|
  {
    var s := key + "." + rest;
    if key == "" {
      assert s[1..] == rest && part + key == part;
    } else {
      SplitKey(key[1..], rest, part + [key[0]]);
      assert part + [key[0]] + key[1..] == part + key;
      assert s[1..] == key[1..] + "." + rest && s[0] == key[0];
    }
  }

  /** Splitting at the dots is the inverse of spelling. */
  lemma {:induction false} SplitSpelled(keys: Keys)
    requires keys != [] && AllPlain(keys)
    ensures Split(Spelled(keys), "") == keys && Spelled(keys) == Dotted(keys) != ""
  {
    var k := keys[0];
    assert k in keys && "" + k == k;
    if |keys| == 1 {
      SplitKey(k, "", "");
      assert keys == [k];
    } else {
      assert forall x :: x in keys[1..] ==> x in keys;
      SplitSpelled(keys[1..]);
      SplitKey(k, Dotted(keys[1..]), "");
      assert keys == [k] + keys[1..];
    }
  }

  // ---------------------------------------------------------------- trees without ambiguous names

  /** In every map the keys are different, non-empty and free of dots. */
  predicate Clean(node: Yaml)
    decreases node
  {
    node.Map? ==>
      && (forall i, j :: 0 <= i < j < |node.pairs| ==> node.pairs[i].key != node.pairs[j].key)
      && CleanPairs(node.pairs)
  }

  predicate CleanPairs(pairs: seq<Entry>)
    decreases pairs
  {
    pairs != [] ==> Plain(pairs[0].key) && Clean(pairs[0].value) && CleanPairs(pairs[1..])
  }

  lemma {:induction false} CleanMember(pairs: seq<Entry>, e: Entry)
    requires CleanPairs(pairs) && e in pairs
    ensures Plain(e.key) && Clean(e.value)
  {
    if e != pairs[0] {
      assert pairs == [pairs[0]] + pairs[1..];
      CleanMember(pairs[1..], e);
    }
  }

  lemma {:induction false} CleanPaths(root: Yaml, keys: Keys, a: Yaml, b: Yaml)
    requires Clean(root) && Reaches(root, keys, a) && Reaches(root, keys, b)
    ensures AllPlain(keys) && a == b
    decreases |keys|
  {
    hide Plain;
    if keys != [] {
      var e :| e in root.pairs && e.key == keys[0] && Reaches(e.value, keys[1..], a);
      var d :| d in root.pairs && d.key == keys[0] && Reaches(d.value, keys[1..], b);
      CleanMember(root.pairs, e);
      CleanPaths(e.value, keys[1..], a, b);
      assert keys == [keys[0]] + keys[1..];
    }
  }

  /** In such a tree a name stands for one node only. */
  lemma OneNodePerName(root: Yaml, keys: Keys, node: Yaml, other: Yaml)
    requires Clean(root) && Reaches(root, keys, node) && keys != []
    requires (Spelled(keys), other) in PreOrder("", root)
    ensures other == node
  {
    PathsExactly(root, Spelled(keys), other);
    hide Clean, Reaches, PreOrder, Spelled, Flatten;
    CleanPaths(root, keys, node, node);
    SplitSpelled(keys);
    var ks :| Reaches(root, ks, other) && Spelled(keys) == Spelled(ks);
    CleanPaths(root, ks, other, other);
    assert ks != [] by { NoKeys(); }
    SplitSpelled(ks);
    CleanPaths(root, keys, node, other);
  }

  lemma NoKeys()
    ensures Spelled([]) == ""
  {}

  // ---------------------------------------------------------------- what the loader takes

  /** The value that a node offers: a scalar's text as it stands, anything else printed again. */
  function Offered<V>(node: Yaml, emit: Yaml -> string, parse: string -> Option<V>): Option<V> {
    match node
    case Scalar(text) => parse(text)
    case _ => parse(emit(node))
  }

  ghost predicate Offers<V>(root: Yaml, keys: Keys, node: Yaml, name: string, emit: Yaml -> string,
                            parse: string -> Option<V>)
  {
    Reaches(root, keys, node) && Spelled(keys) == name && Offered(node, emit, parse).Some?
  }

  lemma GivesOffers<V>(root: Yaml, i: nat, name: string, emit: Yaml -> string, parse: string -> Option<V>)
    requires Gives(PreOrder("", root), i, name, emit, parse)
    ensures exists keys, node :: Offers(root, keys, node, name, emit, parse)
                                 && Offered(node, emit, parse) == parse(TextOf(PreOrder("", root)[i].1, emit))
  {
    hide Reaches, PreOrder, Spelled, Flatten;
    var n := PreOrder("", root)[i];
    assert n in PreOrder("", root) && n == (n.0, n.1);
    PathsExactly(root, n.0, n.1);
    var keys :| Reaches(root, keys, n.1) && n.0 == Spelled(keys);
    assert Offers(root, keys, n.1, name, emit, parse);
  }

  lemma OffersGives<V>(root: Yaml, keys: Keys, node: Yaml, name: string, emit: Yaml -> string,
                       parse: string -> Option<V>)
    requires Offers(root, keys, node, name, emit, parse) && name != ""
    ensures exists i: nat :: Gives(PreOrder("", root), i, name, emit, parse)
  {
    hide Reaches, PreOrder, Spelled, Flatten;
    PathsExactly(root, name, node);
    assert Reaches(root, keys, node) && Spelled(keys) == name;
    assert (name, node) in PreOrder("", root);
    var i :| 0 <= i < |PreOrder("", root)| && PreOrder("", root)[i] == (name, node);
    assert Gives(PreOrder("", root), i, name, emit, parse);
  }

  lemma {:induction false} LastGiver<V>(nodes: seq<Node>, i: nat, name: string, emit: Yaml -> string,
                                        parse: string -> Option<V>) returns (k: nat)
    requires Gives(nodes, i, name, emit, parse)
    ensures Gives(nodes, k, name, emit, parse)
    ensures forall j: nat :: j > k ==> !Gives(nodes, j, name, emit, parse)
    decreases |nodes| - i
  {
    if j: nat :| j > i && Gives(nodes, j, name, emit, parse) {
      k := LastGiver(nodes, j, name, emit, parse);
    } else {
      k := i;
    }
  }

  /** For any tree: the variable ends with the value of a node that its name is a spelling for, or as it was if no such
      node has a text that converts. */
  lemma LoadedFromPath<V>(s: Var<V>, root: Yaml, name: string, emit: Yaml -> string, parse: string -> Option<V>)
    requires name != ""
    ensures var t := Loaded(s, PreOrder("", root), name, emit, parse);
      if exists keys, node :: Offers(root, keys, node, name, emit, parse)
      then exists keys, node :: Offers(root, keys, node, name, emit, parse) && Offered(node, emit, parse) == Some(t.val)
      else t == s
  {
    hide Offers, Offered, Gives, Loaded, PreOrder;
    var nodes := PreOrder("", root);
    if keys, node :| Offers(root, keys, node, name, emit, parse) {
      OffersGives(root, keys, node, name, emit, parse);
      var i: nat :| Gives(nodes, i, name, emit, parse);
      var k := LastGiver(nodes, i, name, emit, parse);
      LastOneWins(s, nodes, k, name, emit, parse);
      GivesOffers(root, k, name, emit, parse);
      GivesConverts(nodes, k, name, emit, parse);
    } else {
      forall i: nat ensures !Gives(nodes, i, name, emit, parse) {
        if Gives(nodes, i, name, emit, parse) {
          GivesOffers(root, i, name, emit, parse);
        }
      }
      NoneGives(s, nodes, name, emit, parse);
    }
  }

  lemma GivesConverts<V>(nodes: seq<Node>, k: nat, name: string, emit: Yaml -> string, parse: string -> Option<V>)
    requires Gives(nodes, k, name, emit, parse)
    ensures k < |nodes| && parse(TextOf(nodes[k].1, emit)).Some?
  {}

  /** In a tree without ambiguous names the variable called k1.k2...kn takes the value of the node under k1, then k2, to kn. */
  lemma LoadedByPath<V>(s: Var<V>, root: Yaml, keys: Keys, node: Yaml, emit: Yaml -> string, parse: string -> Option<V>)
    requires Clean(root) && keys != [] && Reaches(root, keys, node)
    ensures var t := Loaded(s, PreOrder("", root), Dotted(keys), emit, parse);
      if Offered(node, emit, parse).Some? then t.val == Offered(node, emit, parse).value else t == s
  {
    hide Clean, Reaches, Offered, Loaded, PreOrder;
    CleanPaths(root, keys, node, node);
    SplitSpelled(keys);
    LoadedFromPath(s, root, Dotted(keys), emit, parse);
    forall ks, y | Offers(root, ks, y, Dotted(keys), emit, parse) ensures y == node {
      PathsExactly(root, Spelled(ks), y);
      assert Reaches(root, ks, y) && Spelled(ks) == Spelled(keys);
      OneNodePerName(root, keys, node, y);
    }
    hide Offers, Dotted;
    if Offered(node, emit, parse).Some? {
      assert Offers(root, keys, node, Dotted(keys), emit, parse);
    }
  }
}
