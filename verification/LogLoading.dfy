/** From configuration trees to loggers: the loader, the `logs` variable, its listener, and what becomes of the loggers
    (src/config.cpp:39-62, src/config.h:283-316, src/log.cpp:606-749). */
module LogLoading {
  import opened Pattern
  import opened ConfigTree
  import opened ConfigVars
  import opened ConfigLoading
  import opened Reconfigure
  import opened LogDefines
  import opened LogOutput
  import opened LogReading

  const LOGS: string := "logs"

  /** FromStr of the variable; load is YAML::Load, None where that throws. */
  function ParseText(load: string -> Option<Yaml>): string -> Option<Defs> {
    text => if load(text).Some? then ParseSet(load(text).value) else None
  }

  /** The values that loading the nodes gives the variable, one after the other. */
  function Values(nodes: seq<Node>, emit: Yaml -> string, parse: string -> Option<Defs>): seq<Defs> {
    if nodes == [] then []
    else
      var n := nodes[|nodes|-1];
      var v := parse(TextOf(n.1, emit));
      Values(nodes[..|nodes|-1], emit, parse) + if n.0 == LOGS && v.Some? then [v.value] else []
  }

  /** What the listener makes of the loggers when it is called with each of the changes in turn. */
  function Replayed(m: Manager, changes: seq<(Defs, Defs)>): Manager {
    if changes == [] then m
    else
      var (before, after) := changes[|changes|-1];
      DropAll(UpdateAll(Replayed(m, changes[..|changes|-1]), before, after), before, after)
  }

  /** The variable, told to the listener `key` all along, after it took the values `sets`, beginning empty. */
  ghost predicate Tracks(m: Manager, s: Var<Defs>, key: nat, sets: seq<Defs>) {
    s.keys == [key] && s.val == Current(sets) && Replayed(m, Of(s.calls, key)) == Run(m, sets)
  }

  /** setValue and its notification are one Change of the loggers. */
  lemma SetTracks(m: Manager, s: Var<Defs>, key: nat, sets: seq<Defs>, v: Defs)
    requires Tracks(m, s, key, sets)
    ensures Tracks(m, ConfigVars.Apply(s, Op.SetValue(v)), key, sets + [v])
  {
    assert (sets + [v])[..|sets|] == sets;
    hide UpdateAll, DropAll;
    if v != s.val {
      OfTold(s.keys, s.val, v, key);
      OfAppend(s.calls, Told(s.keys, s.val, v), key);
      var heard := Of(s.calls, key);
      assert (heard + [(s.val, v)])[..|heard|] == heard;
    }
  }

  lemma {:induction false} LoadTracks(m: Manager, s: Var<Defs>, key: nat, sets: seq<Defs>, nodes: seq<Node>,
                                      emit: Yaml -> string, parse: string -> Option<Defs>)
    requires Tracks(m, s, key, sets)
    ensures Tracks(m, Loaded(s, nodes, LOGS, emit, parse), key, sets + Values(nodes, emit, parse))
    decreases |nodes|
  {
    hide Tracks, Loaded;
    if nodes == [] {
      assert Loaded(s, nodes, LOGS, emit, parse) == s by { LoadedNothing(s, LOGS, emit, parse); }
      assert sets + [] == sets;
    } else {
      var front, n := nodes[..|nodes|-1], nodes[|nodes|-1];
      assert nodes == front + [n];
      LoadedSnoc(s, front, n, LOGS, emit, parse);
      LoadTracks(m, s, key, sets, front, emit, parse);
      var t, now := Loaded(s, front, LOGS, emit, parse), sets + Values(front, emit, parse);
      var v := parse(TextOf(n.1, emit));
      if n.0 == LOGS && v.Some? {
        SetTracks(m, t, key, now, v.value);
        assert now + [v.value] == sets + Values(nodes, emit, parse);
      } else {
        assert sets + (Values(front, emit, parse) + []) == now;
      }
    }
  }

  lemma LoadedNothing(s: Var<Defs>, name: string, emit: Yaml -> string, parse: string -> Option<Defs>)
    ensures Loaded(s, [], name, emit, parse) == s
  {}

  lemma {:induction false} ValuesAreDistinct(nodes: seq<Node>, emit: Yaml -> string, load: string -> Option<Yaml>)
    ensures forall ds :: ds in Values(nodes, emit, ParseText(load)) ==> Distinct(ds)
  {
    if nodes != [] {
      assert Distinct([]);
      hide Distinct, ParseItems;
      var y := load(TextOf(nodes[|nodes|-1].1, emit));
      if y.Some? && y.value.Seq? && ParseSet(y.value).Some? {
        ParsedSet(y.value.items);
      }
      ValuesAreDistinct(nodes[..|nodes|-1], emit, load);
    }
  }

  // ---------------------------------------------------------------- any number of files

  /** LoadFromYaml for each of the trees, as it acts on the variable. */
  ghost function LoadedAll(s: Var<Defs>, roots: seq<Yaml>, emit: Yaml -> string, parse: string -> Option<Defs>): Var<Defs>
  {
    if roots == [] then s
    else Loaded(LoadedAll(s, roots[..|roots|-1], emit, parse), PreOrder("", roots[|roots|-1]), LOGS, emit, parse)
  }

  function ValuesOfAll(roots: seq<Yaml>, emit: Yaml -> string, parse: string -> Option<Defs>): seq<Defs> {
    if roots == [] then []
    else ValuesOfAll(roots[..|roots|-1], emit, parse) + Values(PreOrder("", roots[|roots|-1]), emit, parse)
  }

  lemma {:induction false} AllTracks(m: Manager, key: nat, roots: seq<Yaml>, emit: Yaml -> string,
                                     load: string -> Option<Yaml>)
    ensures var parse := ParseText(load);
      && Tracks(m, LoadedAll(Var([], [key], [], key), roots, emit, parse), key, ValuesOfAll(roots, emit, parse))
      && forall ds :: ds in ValuesOfAll(roots, emit, parse) ==> Distinct(ds)
  {
    if roots != [] {
      hide Tracks, Distinct, ParseText;
      var front, nodes := roots[..|roots|-1], PreOrder("", roots[|roots|-1]);
      var s := LoadedAll(Var([], [key], [], key), front, emit, ParseText(load));
      AllTracks(m, key, front, emit, load);
      LoadTracks(m, s, key, ValuesOfAll(front, emit, ParseText(load)), nodes, emit, ParseText(load));
      ValuesAreDistinct(nodes, emit, load);
    }
  }

  /** Load any trees, good or bad, one after the other. The variable ends with the last set that was accepted, and the
      calls of its listener turn the loggers into what the closed form says of the accepted sets. */
  lemma LoadedLoggers(m: Manager, key: nat, roots: seq<Yaml>, emit: Yaml -> string, load: string -> Option<Yaml>,
                      name: string)
    ensures var s := LoadedAll(Var([], [key], [], key), roots, emit, ParseText(load));
      var sets := ValuesOfAll(roots, emit, ParseText(load));
      && s.val == Current(sets)
      && Get(Replayed(m, Of(s.calls, key)), name) == Settled(m, sets, name)
  {
    AllTracks(m, key, roots, emit, load);
    ReconfiguredExactly(m, ValuesOfAll(roots, emit, ParseText(load)), name);
    hide Run, Settled, Replayed, LoadedAll, ValuesOfAll, ParseText;
  }

  /** The lines of the log after loading any trees: an event at a logger of the accepted set puts a line in file x exactly
      when the logger's definition lists a FileLogAppender on x and both levels let the event through, and the line is in
      the appender's pattern, or else in the logger's. */
  lemma LoadedLines(m: Manager, key: nat, roots: seq<Yaml>, emit: Yaml -> string, load: string -> Option<Yaml>,
                    d: LogDefine, level: int, ev: Event, x: string, text: string)
    requires Supplied(m)
    ensures var s := LoadedAll(Var([], [key], [], key), roots, emit, ParseText(load));
      var now := Replayed(m, Of(s.calls, key));
      d in s.val && d.appenders != [] ==>
        && d.name in now && now[d.name].formatter.Some?
        && var pattern := if GivesPattern(d.formatter) then d.formatter else now[d.name].formatter.value;
          ((Some(x), text) in Lines(now, d.name, level, ev) <==> level >= d.level && ToFile(d, pattern, level, ev, x, text))
  {
    AllTracks(m, key, roots, emit, load);
    var s := LoadedAll(Var([], [key], [], key), roots, emit, ParseText(load));
    var sets := ValuesOfAll(roots, emit, ParseText(load));
    RunConforms(m, sets);
    RunSupplies(m, sets);
    hide Run, Replayed, LoadedAll, ValuesOfAll, ParseText, Lines, GivesPattern, ToFile, Distinct;
    var now := Replayed(m, Of(s.calls, key));
    if d in s.val && d.appenders != [] {
      DestinationsExactly(now, s.val, d, level, ev, x, text);
    }
  }

  // ---------------------------------------------------------------- trees that are refused

  lemma {:induction false} LoadedAppend(s: Var<Defs>, a: seq<Node>, b: seq<Node>, emit: Yaml -> string,
                                        parse: string -> Option<Defs>)
    ensures Loaded(s, a + b, LOGS, emit, parse) == Loaded(Loaded(s, a, LOGS, emit, parse), b, LOGS, emit, parse)
    decreases |b|
  {
    hide Loaded, Step;
    if b == [] {
      assert a + b == a;
      LoadedNothing(Loaded(s, a, LOGS, emit, parse), LOGS, emit, parse);
    } else {
      var front, n := b[..|b|-1], b[|b|-1];
      LoadedAppend(s, a, front, emit, parse);
      assert b == front + [n] && a + b == (a + front) + [n];
      LoadedSnoc(s, a + front, n, LOGS, emit, parse);
      LoadedSnoc(Loaded(s, a, LOGS, emit, parse), front, n, LOGS, emit, parse);
    }
  }

  /** The text at the node is accepted as a set of definitions. */
  ghost predicate Accepted(text: string, load: string -> Option<Yaml>) {
    load(text).Some? &&
    match load(text).value
    case Seq(items) => forall y :: y in items ==> Readable(y)
    case Map(pairs) => |pairs| == 0
    case _ => true
  }

  lemma AcceptedExactly(text: string, load: string -> Option<Yaml>)
    ensures ParseText(load)(text).Some? <==> Accepted(text, load)
  {
    hide Readable, ParseItems;
    if load(text).Some? {
      var y := load(text).value;
      if y.Seq? {
        SetReads(y.items);
      } else {
        OtherSets(y);
      }
    }
  }

  /** All or nothing: a `logs` node one of whose definitions does not read, or whose text does not load, leaves the
      variable, what its listeners heard, and so every logger, as if it were not in the file. */
  lemma RefusedChangesNothing(m: Manager, s: Var<Defs>, key: nat, a: seq<Node>, n: Node, b: seq<Node>,
                              emit: Yaml -> string, load: string -> Option<Yaml>, name: string)
    requires n.0 != LOGS || !Accepted(TextOf(n.1, emit), load)
    ensures var t := Loaded(s, a + [n] + b, LOGS, emit, ParseText(load));
      var u := Loaded(s, a + b, LOGS, emit, ParseText(load));
      t == u && t.val == u.val && Get(Replayed(m, Of(t.calls, key)), name) == Get(Replayed(m, Of(u.calls, key)), name)
  {
    AcceptedExactly(TextOf(n.1, emit), load);
    hide Loaded, ParseText, Accepted;
    var parse := ParseText(load);
    var t := Loaded(s, a, LOGS, emit, parse);
    LoadedSnoc(s, a, n, LOGS, emit, parse);
    assert Loaded(s, a + [n], LOGS, emit, parse) == t;
    LoadedAppend(s, a + [n], b, emit, parse);
    LoadedAppend(s, a, b, emit, parse);
  }
}
