/** The order in which a tree is listed, and so which of several nodes of one name decides: document order, a map before
    what is in it (src/config.cpp:24-62). */
module ConfigOrder {
  import opened Pattern
  import opened ConfigTree
  import opened ConfigVars
  import opened ConfigLoading
  import opened ConfigPaths

  /** A place in a tree: which pair to take in each map on the way down. */
  type Place = seq<nat>

  predicate IsPlace(root: Yaml, p: Place)
    decreases |p|
  {
    p != [] ==> root.Map? && p[0] < |root.pairs| && IsPlace(root.pairs[p[0]].value, p[1..])
  }

  function NodeAt(root: Yaml, p: Place): Yaml
    requires IsPlace(root, p)
    decreases |p|
  {
    if p == [] then root else NodeAt(root.pairs[p[0]].value, p[1..])
  }

  function KeysAt(root: Yaml, p: Place): Keys
    requires IsPlace(root, p)
    decreases |p|
  {
    if p == [] then [] else [root.pairs[p[0]].key] + KeysAt(root.pairs[p[0]].value, p[1..])
  }

  /** Document order. */
  predicate Before(p: Place, q: Place)
    decreases |q|
  {
    q != [] && (p == [] || p[0] < q[0] || (p[0] == q[0] && Before(p[1..], q[1..])))
  }

  /** Where the listing has it. */
  function Index(prefix: string, root: Yaml, p: Place): nat
    requires IsPlace(root, p)
    decreases root, 0
  {
    if p == [] then 0 else 1 + IndexIn(prefix, root.pairs, p[0], p[1..])
  }

  function IndexIn(prefix: string, pairs: seq<Entry>, k: nat, p: Place): nat
    requires k < |pairs| && IsPlace(pairs[k].value, p)
    decreases pairs
  {
    var path := Join(prefix, pairs[0].key);
    if k == 0 then Index(path, pairs[0].value, p)
    else |PreOrder(path, pairs[0].value)| + IndexIn(prefix, pairs[1..], k - 1, p)
  }

  ghost predicate ListedAt(prefix: string, root: Yaml, p: Place)
    requires IsPlace(root, p)
  {
    var i := Index(prefix, root, p);
    i < |PreOrder(prefix, root)| && PreOrder(prefix, root)[i] == (Extend(prefix, KeysAt(root, p)), NodeAt(root, p))
  }

  lemma {:induction false} PlaceIsListed(prefix: string, root: Yaml, p: Place)
    requires IsPlace(root, p)
    ensures ListedAt(prefix, root, p)
    decreases root, 0
  {
    if p != [] {
      PlaceIsListedIn(prefix, root.pairs, p[0], p[1..]);
      var keys := KeysAt(root, p);
      assert keys[0] == root.pairs[p[0]].key && keys[1..] == KeysAt(root.pairs[p[0]].value, p[1..]);
    }
  }

  lemma {:induction false} PlaceIsListedIn(prefix: string, pairs: seq<Entry>, k: nat, p: Place)
    requires k < |pairs| && IsPlace(pairs[k].value, p)
    ensures var i := IndexIn(prefix, pairs, k, p);
      && i < |PreOrderPairs(prefix, pairs)|
      && PreOrderPairs(prefix, pairs)[i] ==
         (Extend(Join(prefix, pairs[k].key), KeysAt(pairs[k].value, p)), NodeAt(pairs[k].value, p))
    decreases pairs
  {
    var path := Join(prefix, pairs[0].key);
    if k == 0 {
      PlaceIsListed(path, pairs[0].value, p);
    } else {
      PlaceIsListedIn(prefix, pairs[1..], k - 1, p);
    }
  }

  /** Later in the document is later in the listing. */
  lemma {:induction false} IndexGrows(prefix: string, root: Yaml, p: Place, q: Place)
    requires IsPlace(root, p) && IsPlace(root, q) && Before(p, q)
    ensures Index(prefix, root, p) < Index(prefix, root, q)
    decreases root, 0
  {
    if p != [] {
      IndexGrowsIn(prefix, root.pairs, p[0], p[1..], q[0], q[1..]);
    }
  }

  lemma {:induction false} IndexGrowsIn(prefix: string, pairs: seq<Entry>, j: nat, p: Place, k: nat, q: Place)
    requires j < |pairs| && IsPlace(pairs[j].value, p) && k < |pairs| && IsPlace(pairs[k].value, q)
    requires j < k || (j == k && Before(p, q))
    ensures IndexIn(prefix, pairs, j, p) < IndexIn(prefix, pairs, k, q)
    decreases pairs
  {
    var path := Join(prefix, pairs[0].key);
    if k == 0 {
      IndexGrows(path, pairs[0].value, p, q);
    } else if j == 0 {
      PlaceIsListed(path, pairs[0].value, p);
    } else {
      IndexGrowsIn(prefix, pairs[1..], j - 1, p, k - 1, q);
    }
  }

  /** Nothing else is listed. */
  lemma {:induction false} PlaceOf(prefix: string, root: Yaml, i: nat) returns (p: Place)
    requires i < |PreOrder(prefix, root)|
    ensures IsPlace(root, p) && Index(prefix, root, p) == i
    decreases root, 0
  {
    if i == 0 {
      p := [];
    } else {
      var k, rest := PlaceIn(prefix, root.pairs, i - 1);
      p := [k] + rest;
      assert p[1..] == rest;
    }
  }

  lemma {:induction false} PlaceIn(prefix: string, pairs: seq<Entry>, i: nat) returns (k: nat, p: Place)
    requires i < |PreOrderPairs(prefix, pairs)|
    ensures k < |pairs| && IsPlace(pairs[k].value, p) && IndexIn(prefix, pairs, k, p) == i
    decreases pairs
  {
    var path := Join(prefix, pairs[0].key);
    var first := |PreOrder(path, pairs[0].value)|;
    if i < first {
      p := PlaceOf(path, pairs[0].value, i);
      k := 0;
    } else {
      k, p := PlaceIn(prefix, pairs[1..], i - first);
      k := k + 1;
    }
  }

  // ---------------------------------------------------------------- which node decides

  /** The node at p goes by that name and its value converts. */
  predicate OffersAt<V>(root: Yaml, p: Place, name: string, emit: Yaml -> string, parse: string -> Option<V>) {
    IsPlace(root, p) && Spelled(KeysAt(root, p)) == name && Offered(NodeAt(root, p), emit, parse).Some?
  }

  lemma OffersAtGives<V>(root: Yaml, p: Place, name: string, emit: Yaml -> string, parse: string -> Option<V>)
    requires IsPlace(root, p) && name != ""
    ensures OffersAt(root, p, name, emit, parse) <==> Gives(PreOrder("", root), Index("", root, p), name, emit, parse)
    ensures Index("", root, p) < |PreOrder("", root)|
    ensures Offered(NodeAt(root, p), emit, parse) == parse(TextOf(PreOrder("", root)[Index("", root, p)].1, emit))
  {
    PlaceIsListed("", root, p);
    ExtendSpells(KeysAt(root, p));
    hide PreOrder, Index, KeysAt, NodeAt, IsPlace, Spelled, Extend;
  }

  /** For any tree, ambiguous names or not: the variable ends with the value that the last node of its name in document
      order offers, among those that convert; without one it stays as it was. */
  lemma LastInDocumentWins<V>(s: Var<V>, root: Yaml, name: string, emit: Yaml -> string, parse: string -> Option<V>)
      returns (p: Place)
    requires name != ""
    ensures var t := Loaded(s, PreOrder("", root), name, emit, parse);
      if exists q :: OffersAt(root, q, name, emit, parse) then
        && OffersAt(root, p, name, emit, parse) && Offered(NodeAt(root, p), emit, parse) == Some(t.val)
        && forall q :: Before(p, q) ==> !OffersAt(root, q, name, emit, parse)
      else t == s
  {
    hide Gives, Loaded, PreOrder, Index, Before, Offered, KeysAt, NodeAt, Spelled;
    var nodes := PreOrder("", root);
    p := [];
    if q :| OffersAt(root, q, name, emit, parse) {
      OffersAtGives(root, q, name, emit, parse);
      var k := LastGiver(nodes, Index("", root, q), name, emit, parse);
      LastOneWins(s, nodes, k, name, emit, parse);
      GivesConverts(nodes, k, name, emit, parse);
      p := PlaceOf("", root, k);
      OffersAtGives(root, p, name, emit, parse);
      forall r | Before(p, r) ensures !OffersAt(root, r, name, emit, parse) {
        if OffersAt(root, r, name, emit, parse) {
          OffersAtGives(root, r, name, emit, parse);
          IndexGrows("", root, p, r);
        }
      }
    } else {
      forall i: nat ensures !Gives(nodes, i, name, emit, parse) {
        if Gives(nodes, i, name, emit, parse) {
          GivesConverts(nodes, i, name, emit, parse);
          var q := PlaceOf("", root, i);
          OffersAtGives(root, q, name, emit, parse);
        }
      }
      NoneGives(s, nodes, name, emit, parse);
    }
  }
}
