/** What loading a tree does to one variable (src/config.cpp:39-62, src/config.h:283-316). */
module ConfigLoading {
  import opened Pattern
  import opened ConfigTree
  import opened ConfigVars

  /** A scalar's own text, or the rest of the tree printed by yaml-cpp. */
  function TextOf(node: Yaml, emit: Yaml -> string): string {
    if node.Scalar? then node.text else emit(node)
  }

  ghost function Step<V>(s: Var<V>, n: Node, name: string, emit: Yaml -> string, parse: string -> Option<V>): Var<V> {
    if n.0 == name && name != "" && parse(TextOf(n.1, emit)).Some?
    then Apply(s, Op.SetValue(parse(TextOf(n.1, emit)).value)) else s
  }

  ghost function Loaded<V>(s: Var<V>, nodes: seq<Node>, name: string, emit: Yaml -> string,
                               parse: string -> Option<V>): Var<V>
    decreases |nodes|
  {
    if nodes == [] then s else Loaded(Step(s, nodes[0], name, emit, parse), nodes[1..], name, emit, parse)
  }

  lemma {:induction false} LoadedSnoc<V>(s: Var<V>, nodes: seq<Node>, n: Node, name: string, emit: Yaml -> string,
                                         parse: string -> Option<V>)
    ensures Loaded(s, nodes + [n], name, emit, parse) == Step(Loaded(s, nodes, name, emit, parse), n, name, emit, parse)
    decreases |nodes|
  {
    hide Step;
    if nodes == [] {
      assert [] + [n] == [n] && [n][1..] == [];
    } else {
      assert (nodes + [n])[0] == nodes[0] && (nodes + [n])[1..] == nodes[1..] + [n];
      LoadedSnoc(Step(s, nodes[0], name, emit, parse), nodes[1..], n, name, emit, parse);
    }
  }

  /** Only nodes with valid paths matter to a variable with a valid name. */
  lemma {:induction false} LoadedIgnoresInvalid<V>(s: Var<V>, nodes: seq<Node>, name: string, emit: Yaml -> string,
                                                   parse: string -> Option<V>)
    requires ValidName(name)
    ensures Loaded(s, Named(nodes), name, emit, parse) == Loaded(s, nodes, name, emit, parse)
    decreases |nodes|
  {
    if nodes != [] {
      LoadedIgnoresInvalid(Step(s, nodes[0], name, emit, parse), nodes[1..], name, emit, parse);
      if ValidName(nodes[0].0) {
        assert ([nodes[0]] + Named(nodes[1..]))[1..] == Named(nodes[1..]);
      } else {
        assert [] + Named(nodes[1..]) == Named(nodes[1..]);
      }
    }
  }

  /** Node i gives the variable its value. */
  predicate Gives<V>(nodes: seq<Node>, i: nat, name: string, emit: Yaml -> string, parse: string -> Option<V>) {
    i < |nodes| && nodes[i].0 == name && name != "" && parse(TextOf(nodes[i].1, emit)).Some?
  }

  lemma {:induction false} NoneGives<V>(s: Var<V>, nodes: seq<Node>, name: string, emit: Yaml -> string,
                                        parse: string -> Option<V>)
    requires forall i: nat :: !Gives(nodes, i, name, emit, parse)
    ensures Loaded(s, nodes, name, emit, parse) == s
    decreases |nodes|
  {
    if nodes != [] {
      assert !Gives(nodes, 0, name, emit, parse);
      forall i: nat ensures !Gives(nodes[1..], i, name, emit, parse) {
        assert !Gives(nodes, i + 1, name, emit, parse);
      }
      NoneGives(s, nodes[1..], name, emit, parse);
    }
  }

  /** The last node of that name whose text converts decides; without one (NoneGives) everything stays. */
  lemma {:induction false} LastOneWins<V>(s: Var<V>, nodes: seq<Node>, i: nat, name: string, emit: Yaml -> string,
                                          parse: string -> Option<V>)
    requires Gives(nodes, i, name, emit, parse)
    requires forall j: nat :: j > i ==> !Gives(nodes, j, name, emit, parse)
    ensures Loaded(s, nodes, name, emit, parse).val == parse(TextOf(nodes[i].1, emit)).value
    decreases |nodes|
  {
    var next := Step(s, nodes[0], name, emit, parse);
    forall j: nat | j >= i ensures !Gives(nodes[1..], j, name, emit, parse) {
      assert !Gives(nodes, j + 1, name, emit, parse);
    }
    if i == 0 {
      NoneGives(next, nodes[1..], name, emit, parse);
    } else {
      LastOneWins(next, nodes[1..], i - 1, name, emit, parse);
    }
  }

  function Sets<V>(nodes: seq<Node>, name: string, emit: Yaml -> string, parse: string -> Option<V>): seq<Op<V>> {
    if nodes == [] then []
    else (if Gives(nodes, 0, name, emit, parse) then [Op.SetValue(parse(TextOf(nodes[0].1, emit)).value)] else [])
         + Sets(nodes[1..], name, emit, parse)
  }

  /** Loading is a run of setValue calls, so everything proved of runs holds of the notifications it causes. */
  lemma {:induction false} LoadedIsARun<V>(s: Var<V>, nodes: seq<Node>, name: string, emit: Yaml -> string,
                                           parse: string -> Option<V>)
    ensures Runs(s, Sets(nodes, name, emit, parse))
    ensures Loaded(s, nodes, name, emit, parse) == After(s, Sets(nodes, name, emit, parse))
    decreases |nodes|
  {
    if nodes != [] {
      var next := Step(s, nodes[0], name, emit, parse);
      LoadedIsARun(next, nodes[1..], name, emit, parse);
      var rest := Sets(nodes[1..], name, emit, parse);
      if Gives(nodes, 0, name, emit, parse) {
        var op := Op.SetValue(parse(TextOf(nodes[0].1, emit)).value);
        assert ([op] + rest)[0] == op && ([op] + rest)[1..] == rest;
      } else {
        assert [] + rest == rest;
      }
    }
  }
}
