/** Who formats what: loggers, appenders and the formatters appenders inherit (src/log.cpp:221-319). Loggers and appenders
    are compared by identity, so the graph is over any two types of identities. */
module LoggerGraph {
  import opened Pattern
  import LogLevels

  const DEFAULT_PATTERN: string := "%d{%Y-%m-%d %H:%M:%S}%T%t%T%N%T%F%T[%p]%T[%c]%T<%f:%l>%T%m%n"

  /** An appender: m_level, m_has_formatter, m_formatter. A LogFormatter never changes, so its pattern stands for it. */
  datatype Sink = Sink(level: int, own: bool, formatter: Option<string>)

  datatype Log<A> = Log(level: int, formatter: Option<string>, sinks: seq<A>)

  datatype Graph<!L, !A> = Graph(logs: map<L, Log<A>>, sinks: map<A, Sink>)

  const NEW_SINK := Sink(LogLevels.DEBUG, false, None)

  function NewLog<A>(): Log<A> {
    Log(LogLevels.DEBUG, Some(DEFAULT_PATTERN), [])
  }

  datatype Op<L, A> =
    | NewLogger(l: L)
    | NewAppender(a: A)
    | SetLevel(l: L, level: int)
    | SetAppenderLevel(a: A, level: int)
    | SetAppenderFormatter(a: A, f: Option<string>)
    | AddAppender(l: L, a: A)
    | DelAppender(l: L, a: A)
    | ClearAppenders(l: L)
    | SetFormatter(l: L, f: Option<string>)
    | SetPattern(l: L, p: string)

  predicate Refers<L(==), A(==)>(g: Graph<L, A>, op: Op<L, A>) {
    match op
    case NewLogger(l) => l !in g.logs
    case NewAppender(a) => a !in g.sinks
    case SetLevel(l, _) => l in g.logs
    case SetAppenderLevel(a, _) => a in g.sinks
    case SetAppenderFormatter(a, _) => a in g.sinks
    case AddAppender(l, a) => l in g.logs && a in g.sinks
    case DelAppender(l, a) => l in g.logs
    case ClearAppenders(l) => l in g.logs
    case SetFormatter(l, _) => l in g.logs
    case SetPattern(l, _) => l in g.logs
  }

  function Without<A(==)>(s: seq<A>, a: A): seq<A> {
    if s == [] then [] else if s[0] == a then s[1..] else [s[0]] + Without(s[1..], a)
  }

  function Reformatted<L(==), A(==)>(g: Graph<L, A>, l: L, f: Option<string>): Graph<L, A>
    requires l in g.logs
  {
    Graph(g.logs[l := g.logs[l].(formatter := f)],
          map a | a in g.sinks ::
            if a in g.logs[l].sinks && !g.sinks[a].own then g.sinks[a].(formatter := f) else g.sinks[a])
  }

  function Apply<L(==), A(==)>(g: Graph<L, A>, op: Op<L, A>): Graph<L, A>
    requires Refers(g, op)
  {
    match op
    case NewLogger(l) => g.(logs := g.logs[l := NewLog()])
    case NewAppender(a) => g.(sinks := g.sinks[a := NEW_SINK])
    case SetLevel(l, level) => g.(logs := g.logs[l := g.logs[l].(level := level)])
    case SetAppenderLevel(a, level) => g.(sinks := g.sinks[a := g.sinks[a].(level := level)])
    case SetAppenderFormatter(a, f) => g.(sinks := g.sinks[a := g.sinks[a].(formatter := f, own := f.Some?)])
    case AddAppender(l, a) =>
      Graph(g.logs[l := g.logs[l].(sinks := g.logs[l].sinks + [a])],
            if g.sinks[a].formatter.Some? then g.sinks
            else g.sinks[a := g.sinks[a].(formatter := g.logs[l].formatter)])
    case DelAppender(l, a) => g.(logs := g.logs[l := g.logs[l].(sinks := Without(g.logs[l].sinks, a))])
    case ClearAppenders(l) => g.(logs := g.logs[l := g.logs[l].(sinks := [])])
    case SetFormatter(l, f) => Reformatted(g, l, f)
    case SetPattern(l, p) => if Broken(p) then g else Reformatted(g, l, Some(p))
  }

  lemma Reformats<L, A>(g: Graph<L, A>, h: Graph<L, A>, l: L, f: Option<string>)
    requires l in g.logs && h.logs == g.logs[l := g.logs[l].(formatter := f)] && h.sinks.Keys == g.sinks.Keys
    requires forall a :: a in h.sinks ==>
      h.sinks[a] == if a in g.logs[l].sinks && !g.sinks[a].own then g.sinks[a].(formatter := f) else g.sinks[a]
    ensures h == Apply(g, SetFormatter(l, f))
  {
    assert h.sinks == Reformatted(g, l, f).sinks;
  }

  // ---------------------------------------------------------------- inheritance

  /** Every attached appender without its own formatter has its logger's current one; no logger is without. */
  ghost predicate Settled<L, A>(g: Graph<L, A>) {
    && (forall l :: l in g.logs ==> g.logs[l].formatter.Some?)
    && (forall a :: a in g.sinks && g.sinks[a].own ==> g.sinks[a].formatter.Some?)
    && (forall l, a :: l in g.logs && a in g.logs[l].sinks ==>
          a in g.sinks && (g.sinks[a].own || g.sinks[a].formatter == g.logs[l].formatter))
  }

  ghost predicate Attached<L, A>(g: Graph<L, A>, a: A) {
    exists l :: l in g.logs && a in g.logs[l].sinks
  }

  /** No other logger holds an appender that follows l, unless its formatter is f anyway. */
  ghost predicate Alone<L, A>(g: Graph<L, A>, l: L, f: string)
    requires l in g.logs
  {
    forall k, a :: k in g.logs && k != l && a in g.logs[k].sinks && a in g.logs[l].sinks && a in g.sinks ==>
      g.sinks[a].own || g.logs[k].formatter == Some(f)
  }

  /** What a caller has to check for the rule to survive the operation. */
  ghost predicate Safe<L, A>(g: Graph<L, A>, op: Op<L, A>)
    requires Refers(g, op)
  {
    match op
    case SetAppenderFormatter(a, f) => f.Some? || !Attached(g, a)
    case AddAppender(l, a) =>
      g.sinks[a].own || g.sinks[a].formatter.None? || g.sinks[a].formatter == g.logs[l].formatter
    case SetFormatter(l, f) => f.Some? && Alone(g, l, f.value)
    case SetPattern(l, p) => Broken(p) || Alone(g, l, p)
    case _ => true
  }

  lemma {:induction false} WithoutIsPart<A>(s: seq<A>, a: A)
    ensures forall x :: x in Without(s, a) ==> x in s
  {
    if s != [] && s[0] != a {
      WithoutIsPart(s[1..], a);
    }
  }

  lemma {:induction false} WithoutAt<A>(s: seq<A>, a: A, k: nat)
    requires k <= |s| && a !in s[..k] && (k < |s| ==> s[k] == a)
    ensures Without(s, a) == if k < |s| then s[..k] + s[k+1..] else s
  {
    if s != [] && k > 0 {
      assert s[0] in s[..k];
      assert s[1..][..k-1] == s[..k][1..];
      WithoutAt(s[1..], a, k - 1);
      assert [s[0]] + s[1..] == s;
      if k < |s| {
        assert [s[0]] + (s[1..][..k-1] + s[1..][k..]) == s[..k] + s[k+1..];
      }
    }
  }

  lemma AddSettles<L, A>(g: Graph<L, A>, l: L, a: A)
    requires Settled(g) && l in g.logs && a in g.sinks
    ensures Settled(Apply(g, AddAppender(l, a))) <==> Safe(g, AddAppender(l, a))
  {
    var h := Apply(g, AddAppender(l, a));
    assert a in h.logs[l].sinks && h.logs[l].formatter == g.logs[l].formatter;
    if Safe(g, AddAppender(l, a)) {
      forall k, x | k in h.logs && x in h.logs[k].sinks
        ensures x in h.sinks && (h.sinks[x].own || h.sinks[x].formatter == h.logs[k].formatter)
      {
        assert x in g.logs[k].sinks || (k == l && x == a);
      }
    }
  }

  lemma ReformattedSettles<L, A>(g: Graph<L, A>, l: L, f: string)
    requires Settled(g) && l in g.logs
    ensures Settled(Reformatted(g, l, Some(f))) <==> Alone(g, l, f)
  {
    var h := Reformatted(g, l, Some(f));
    if Settled(h) {
      forall k, a | k in g.logs && k != l && a in g.logs[k].sinks && a in g.logs[l].sinks && a in g.sinks
        ensures g.sinks[a].own || g.logs[k].formatter == Some(f)
      {
        assert k in h.logs && h.logs[k] == g.logs[k] && a in h.logs[k].sinks;
        assert !g.sinks[a].own ==> h.sinks[a] == g.sinks[a].(formatter := Some(f));
      }
    }
    if Alone(g, l, f) {
      forall k, a | k in h.logs && a in h.logs[k].sinks
        ensures a in h.sinks && (h.sinks[a].own || h.sinks[a].formatter == h.logs[k].formatter)
      {
        assert k in g.logs && a in g.logs[k].sinks;
      }
    }
  }

  lemma SetOwnSettles<L, A>(g: Graph<L, A>, a: A, f: Option<string>)
    requires Settled(g) && a in g.sinks
    ensures Settled(Apply(g, SetAppenderFormatter(a, f))) <==> f.Some? || !Attached(g, a)
  {
    var h := Apply(g, SetAppenderFormatter(a, f));
    if Attached(g, a) && f.None? {
      var l :| l in g.logs && a in g.logs[l].sinks;
      assert l in h.logs && a in h.logs[l].sinks && h.logs[l].formatter.Some? && h.sinks[a].formatter.None?;
    }
  }

  /** One operation keeps the inheritance rule exactly when it is safe. */
  lemma SettledExactly<L, A>(g: Graph<L, A>, op: Op<L, A>)
    requires Settled(g) && Refers(g, op)
    ensures Settled(Apply(g, op)) <==> Safe(g, op)
  {
    match op
    case NewLogger(l) =>
    case NewAppender(a) =>
    case SetLevel(l, level) =>
    case SetAppenderLevel(a, level) =>
    case SetAppenderFormatter(a, f) => SetOwnSettles(g, a, f);
    case AddAppender(l, a) => AddSettles(g, l, a);
    case DelAppender(l, a) => WithoutIsPart(g.logs[l].sinks, a);
    case ClearAppenders(l) =>
    case SetFormatter(l, f) =>
      if f.Some? {
        ReformattedSettles(g, l, f.value);
      } else {
        assert l in Apply(g, op).logs;
      }
    case SetPattern(l, p) => if !Broken(p) { ReformattedSettles(g, l, p); }
  }

  // ---------------------------------------------------------------- runs in which appenders are attached once

  predicate Obeys<L(==), A(==)>(g: Graph<L, A>, ops: seq<Op<L, A>>)
    decreases |ops|
  {
    ops == [] || (Refers(g, ops[0]) && Obeys(Apply(g, ops[0]), ops[1..]))
  }

  function After<L(==), A(==)>(g: Graph<L, A>, ops: seq<Op<L, A>>): Graph<L, A>
    requires Obeys(g, ops)
    decreases |ops|
  {
    if ops == [] then g else After(Apply(g, ops[0]), ops[1..])
  }

  /** Appenders go from the constructor to one logger, and formatters are never null. */
  ghost predicate Careful<L, A>(g: Graph<L, A>, ops: seq<Op<L, A>>)
    requires Obeys(g, ops)
    decreases |ops|
  {
    ops != [] ==>
      && (match ops[0]
          case AddAppender(l, a) => !Attached(g, a) && (g.sinks[a].own || g.sinks[a].formatter.None?)
          case SetAppenderFormatter(a, f) => f.Some?
          case SetFormatter(l, f) => f.Some?
          case _ => true)
      && Careful(Apply(g, ops[0]), ops[1..])
  }

  ghost predicate Unshared<L, A>(g: Graph<L, A>) {
    forall k, l, a :: k in g.logs && l in g.logs && a in g.logs[k].sinks && a in g.logs[l].sinks ==> k == l
  }

  lemma UnsharedIsKept<L, A>(g: Graph<L, A>, op: Op<L, A>)
    requires Unshared(g) && Refers(g, op)
    requires op.AddAppender? ==> !Attached(g, op.a)
    ensures Unshared(Apply(g, op))
  {
    var h := Apply(g, op);
    if op.DelAppender? {
      WithoutIsPart(g.logs[op.l].sinks, op.a);
    }
    forall k, l, a | k in h.logs && l in h.logs && a in h.logs[k].sinks && a in h.logs[l].sinks ensures k == l {
      if op.AddAppender? && a == op.a {
        assert forall j :: j in g.logs && j != op.l ==> h.logs[j] == g.logs[j];
      }
    }
  }

  /** Over any run that attaches each fresh appender once: every attached appender without a formatter of its own has
      its logger's current one. */
  lemma {:induction false} Inheritance<L, A>(g: Graph<L, A>, ops: seq<Op<L, A>>)
    requires Settled(g) && Unshared(g) && Obeys(g, ops) && Careful(g, ops)
    ensures Settled(After(g, ops)) && Unshared(After(g, ops))
    decreases |ops|
  {
    if ops != [] {
      SettledExactly(g, ops[0]);
      UnsharedIsKept(g, ops[0]);
      Inheritance(Apply(g, ops[0]), ops[1..]);
    }
  }

  /** An appender's own formatter survives everything but a setFormatter on the appender itself. */
  lemma {:induction false} OwnFormatterStays<L, A>(g: Graph<L, A>, ops: seq<Op<L, A>>, a: A)
    requires Obeys(g, ops) && a in g.sinks && g.sinks[a].own && g.sinks[a].formatter.Some?
    requires forall op :: op in ops ==> !(op.SetAppenderFormatter? && op.a == a)
    ensures a in After(g, ops).sinks && After(g, ops).sinks[a].own
    ensures After(g, ops).sinks[a].formatter == g.sinks[a].formatter
    decreases |ops|
  {
    if ops != [] {
      OwnFormatterStays(Apply(g, ops[0]), ops[1..], a);
    }
  }

  /** Attaching an appender a second time can leave it with the formatter of another day. */
  lemma ReattachingCanGoStale() returns (g: Graph<int, int>, ops: seq<Op<int, int>>)
    ensures Settled(g) && Unshared(g) && Obeys(g, ops) && !Settled(After(g, ops))
    ensures forall op :: op in ops ==> !op.SetAppenderFormatter? && !op.SetFormatter?
  {
    g := Graph(map[0 := Log(1, Some("%m"), [7])], map[7 := Sink(1, false, Some("%m"))]);
    var del, set_, add := DelAppender(0, 7), SetPattern(0, "n"), AddAppender(0, 7);
    ops := [del, set_, add];
    var g1 := Apply(g, del);
    assert g1.logs[0].sinks == [];
    PlainPattern();
    var g2 := Apply(g1, set_);
    var g3 := Apply(g2, add);
    assert ops[1..] == [set_, add] && [set_, add][1..] == [add] && [add][1..] == [];
    ThreeSteps(g, del, set_, add);
    assert 7 in g3.logs[0].sinks && g3.sinks[7].formatter == Some("%m");
    assert g3.logs[0].formatter == Some("n") && |"n"| != |"%m"|;
  }

  lemma ThreeSteps<L, A>(g: Graph<L, A>, a: Op<L, A>, b: Op<L, A>, c: Op<L, A>)
    requires Refers(g, a) && Refers(Apply(g, a), b) && Refers(Apply(Apply(g, a), b), c)
    ensures Obeys(g, [a, b, c]) && After(g, [a, b, c]) == Apply(Apply(Apply(g, a), b), c)
  {
    hide Refers, Apply;
    assert [a, b, c][1..] == [b, c] && [b, c][1..] == [c] && [c][1..] == [];
    var h := Apply(Apply(g, a), b);
    assert Obeys(Apply(h, c), []);
    assert Obeys(h, [c]) && After(h, [c]) == Apply(h, c);
    assert Obeys(Apply(g, a), [b, c]) && After(Apply(g, a), [b, c]) == Apply(h, c);
  }

  lemma PlainPattern()
    ensures !Broken("n")
  {
    var n: string := "n";
    assert Literal(n) && n[1..] == "" && n[..1] == n && "" + n == n;
    assert Lex(n, "") == Lex("", n) == [Text(n)];
  }

  // ---------------------------------------------------------------- routing

  predicate Ready<A(==)>(sinks: map<A, Sink>, s: seq<A>) {
    forall a :: a in s ==> a in sinks && sinks[a].formatter.Some?
  }

  /** A line, if the appender's own level lets the event through. */
  function LineOf<A>(sink: Sink, a: A, level: int, ev: Event): seq<(A, string)>
    requires sink.formatter.Some?
  {
    if level >= sink.level then [(a, Format(sink.formatter.value, LogLevels.ToString(level), ev))] else []
  }

  /** What the appenders of s write, in order. */
  function Written<A(==)>(sinks: map<A, Sink>, s: seq<A>, level: int, ev: Event): seq<(A, string)>
    requires Ready(sinks, s)
  {
    if s == [] then [] else LineOf(sinks[s[0]], s[0], level, ev) + Written(sinks, s[1..], level, ev)
  }

  /** Logger::log (src/log.cpp:244-258); root is None for the root logger. */
  function Logged<L(==), A(==)>(g: Graph<L, A>, l: L, root: Option<L>, level: int, ev: Event): seq<(A, string)>
    requires l in g.logs && Ready(g.sinks, g.logs[l].sinks)
    requires root.Some? ==> root.value in g.logs && Ready(g.sinks, g.logs[root.value].sinks)
    decreases root.Some?
  {
    if level < g.logs[l].level then []
    else if g.logs[l].sinks != [] then Written(g.sinks, g.logs[l].sinks, level, ev)
    else if root.Some? then Logged(g, root.value, None, level, ev)
    else []
  }

  lemma {:induction false} WrittenBy<A>(sinks: map<A, Sink>, s: seq<A>, level: int, ev: Event, line: (A, string))
    requires Ready(sinks, s)
    ensures line in Written(sinks, s, level, ev) <==>
            && line.0 in s && level >= sinks[line.0].level
            && line.1 == Format(sinks[line.0].formatter.value, LogLevels.ToString(level), ev)
  {
    if s != [] {
      WrittenBy(sinks, s[1..], level, ev, line);
      assert line in Written(sinks, s, level, ev) <==>
        line in LineOf(sinks[s[0]], s[0], level, ev) || line in Written(sinks, s[1..], level, ev);
    }
  }

  lemma {:induction false} WrittenSnoc<A>(sinks: map<A, Sink>, s: seq<A>, a: A, level: int, ev: Event)
    requires Ready(sinks, s + [a])
    ensures Ready(sinks, s) && a in sinks && sinks[a].formatter.Some?
    ensures Written(sinks, s + [a], level, ev) == Written(sinks, s, level, ev) + LineOf(sinks[a], a, level, ev)
  {
    hide LineOf;
    assert a in s + [a] && forall x :: x in s ==> x in s + [a];
    if s == [] {
      assert s + [a] == [a];
    } else {
      WrittenSnoc(sinks, s[1..], a, level, ev);
      assert (s + [a])[0] == s[0] && (s + [a])[1..] == s[1..] + [a];
    }
  }

  /** Which logger's appenders an event logged at l reaches: l's own if it has any, else those of the root. */
  function Holder<L(==), A(==)>(g: Graph<L, A>, l: L, root: Option<L>): L
    requires l in g.logs
  {
    if g.logs[l].sinks == [] && root.Some? then root.value else l
  }

  /** While the inheritance rule holds, logging never meets a missing formatter, and a line is written exactly by the
      holder's appenders that every level on the way lets through, each in its own pattern or else in the holder's. */
  lemma LoggedExactly<L, A>(g: Graph<L, A>, l: L, root: Option<L>, level: int, ev: Event, line: (A, string))
    requires Settled(g) && l in g.logs && (root.Some? ==> root.value in g.logs)
    ensures Ready(g.sinks, g.logs[l].sinks) && (root.Some? ==> Ready(g.sinks, g.logs[root.value].sinks))
    ensures var h := Holder(g, l, root);
      line in Logged(g, l, root, level, ev) <==>
        && level >= g.logs[l].level && h in g.logs && level >= g.logs[h].level
        && line.0 in g.logs[h].sinks && line.0 in g.sinks && level >= g.sinks[line.0].level
        && line.1 == Format((if g.sinks[line.0].own then g.sinks[line.0].formatter else g.logs[h].formatter).value,
                            LogLevels.ToString(level), ev)
  {
    WrittenBy(g.sinks, g.logs[Holder(g, l, root)].sinks, level, ev, line);
  }
}
