/** LoggerManager and the listener of LogIniter over real logger objects (src/log.cpp:541-560, 691-749). */
module LoggerManagement {
  import opened Pattern
  import opened LoggerObjects
  import opened Reconfigure
  import opened LogOutput
  import LoggerGraph
  import LogLevels

  function Outputs(s: seq<LogAppender>): (os: seq<Output>)
    reads s
    ensures |os| == |s|
    ensures forall i :: 0 <= i < |s| ==> os[i] == Output(s[i].file, s[i].View())
  {
    if s == [] then [] else [Output(s[0].file, s[0].View())] + Outputs(s[1..])
  }

  function ViewOf(l: Logger): View
    reads l, l.appenders
  {
    View(l.level, l.formatter, Outputs(l.appenders))
  }

  /** The parser only makes these two kinds of appender; for any other the listener would use a null pointer. */
  predicate Buildable(d: LogDefine) {
    forall a :: a in d.appenders ==> a.kind == 1 || a.kind == 2
  }

  /** The appender object that a describes, in the fields of both. */
  ghost predicate Made(x: LogAppender, a: AppenderDefine, f: Option<string>)
    reads x
  {
    && (a.kind == 1 ==> x.file == Some(a.file))
    && (a.kind != 1 ==> x.file == None)
    && x.level == a.level
    && (x.hasFormatter <==> GivesPattern(a.formatter))
    && (GivesPattern(a.formatter) ==> x.formatter == Some(a.formatter))
    && (!GivesPattern(a.formatter) ==> x.formatter == f)
  }

  /** The logger object that d describes: the i-th appender is the one that the i-th definition describes. */
  ghost predicate Equipped(l: Logger, d: LogDefine)
    reads l, l.appenders
  {
    && l.level == d.level
    && (GivesPattern(d.formatter) ==> l.formatter == Some(d.formatter))
    && |l.appenders| == |d.appenders|
    && forall i :: 0 <= i < |d.appenders| ==> Made(l.appenders[i], d.appenders[i], l.formatter)
  }

  lemma EquippedFollows(l: Logger, d: LogDefine)
    ensures Equipped(l, d) <==> Follows(ViewOf(l), d, ViewOf(l).formatter)
  {
    hide GivesPattern;
    var v := ViewOf(l);
    assert |v.outputs| == |l.appenders|;
    forall i | 0 <= i < |l.appenders| && |l.appenders| == |d.appenders|
      ensures Made(l.appenders[i], d.appenders[i], l.formatter) <==> Described(v.outputs[i], d.appenders[i], v.formatter)
    {
      assert v.outputs[i] == Output(l.appenders[i].file, l.appenders[i].View());
    }
    hide Described, Made;
  }

  /** One turn of the listener's inner loop: a new appender for a. */
  method Build(a: AppenderDefine) returns (appender: LogAppender)
    requires a.kind == 1 || a.kind == 2
    ensures fresh(appender)
    ensures appender.file == BuiltOne(a, None).file && appender.View() == BuiltOne(a, None).sink
    ensures Made(appender, a, None)
  {
    hide Broken;
    if a.kind == 1 {
      appender := new LogAppender(Some(a.file));
    } else {
      appender := new LogAppender(None);
    }
    appender.SetLevel(a.level);
    if a.formatter != "" {
      var fmt := new LogFormatter(a.formatter);
      if !fmt.error {
        appender.SetFormatter(Some(a.formatter));
      }
    }
  }

  /** addAppender for an appender that no logger holds yet. */
  method Attach(l: Logger, appender: LogAppender)
    modifies l`appenders, appender`formatter
    ensures l.appenders == old(l.appenders) + [appender]
    ensures appender.View() == if old(appender.View()).formatter.Some? then old(appender.View())
                               else old(appender.View()).(formatter := l.formatter)
  {
    l.AddAppender(appender, {l}, {appender});
    assert Snapshot({l}, {appender}).logs[l] == l.View();
    assert Snapshot({l}, {appender}).sinks[appender] == appender.View();
  }

  method Repattern(l: Logger, p: string)
    modifies l`formatter, l.appenders`formatter
    ensures l.formatter == if Broken(p) then old(l.formatter) else Some(p)
  {
    ghost var sinks := set a | a in l.appenders;
    l.SetPattern(p, {l}, sinks);
    assert Snapshot({l}, sinks).logs[l] == l.View();
  }

  ghost predicate Furnished(sinks: seq<LogAppender>, ds: seq<AppenderDefine>, f: Option<string>)
    reads sinks
  {
    |sinks| == |ds| && forall i :: 0 <= i < |ds| ==> Output(sinks[i].file, sinks[i].View()) == BuiltOne(ds[i], f)
  }

  lemma BuiltFor(a: AppenderDefine, f: Option<string>)
    ensures BuiltOne(a, f).file == BuiltOne(a, None).file
    ensures var sink := BuiltOne(a, None).sink;
      BuiltOne(a, f).sink == if sink.formatter.Some? then sink else sink.(formatter := f)
  {
  }

  /** The listener's inner loop: appenders for all the definitions of a logger that has none. */
  method Furnish(l: Logger, ds: seq<AppenderDefine>)
    requires l.appenders == [] && forall a :: a in ds ==> a.kind == 1 || a.kind == 2
    modifies l`appenders
    ensures Furnished(l.appenders, ds, l.formatter)
    ensures forall a :: a in l.appenders ==> fresh(a)
  {
    hide Made;
    var k := 0;
    while k < |ds|
      invariant 0 <= k <= |ds|
      invariant forall a :: a in l.appenders ==> fresh(a)
      invariant Furnished(l.appenders, ds[..k], l.formatter)
    {
      hide BuiltOne, Buildable;
      assert ds[k] in ds && ds[..k+1] == ds[..k] + [ds[k]];
      var appender := Build(ds[k]);
      Attach(l, appender);
      BuiltFor(ds[k], l.formatter);
      k := k + 1;
    }
    assert ds[..k] == ds;
  }

  /** The body of the listener's first loop, from setLevel on. */
  method Configure(l: Logger, d: LogDefine)
    requires Buildable(d)
    modifies l, l.appenders
    ensures ViewOf(l) == Configured(old(ViewOf(l)), d) && Equipped(l, d)
    ensures !GivesPattern(d.formatter) ==> l.formatter == old(l.formatter)
    ensures forall a :: a in l.appenders ==> fresh(a)
  {
    hide Broken;
    l.SetLevel(d.level);
    if d.formatter != "" {
      Repattern(l, d.formatter);
    }
    l.ClearAppenders({l}, {});
    assert Snapshot({l}, {}).logs[l] == l.View();
    Furnish(l, d.appenders);
    assert Outputs(l.appenders) == Built(d.appenders, l.formatter);
    ConfiguredFollows(old(ViewOf(l)), d);
    EquippedFollows(l, d);
  }

  /** What happens to a logger whose definition is gone. */
  method Silence(l: Logger)
    modifies l
    ensures ViewOf(l) == Removed(old(ViewOf(l)))
    ensures l.level == 100 && l.appenders == [] && l.formatter == old(l.formatter)
  {
    l.SetLevel(REMOVED);
    l.ClearAppenders({l}, {});
    assert Snapshot({l}, {}).logs[l] == l.View();
  }

  ghost predicate Apart(l: Logger, k: Logger)
    reads l, k
  {
    l != k && forall a :: a in l.appenders ==> a !in k.appenders
  }

  /** The root logger prints to stdout, in the default pattern. */
  const ROOT := FRESH.(outputs := [Output(None, LoggerGraph.Sink(LogLevels.DEBUG, false, FRESH.formatter))])

  method MakeRoot() returns (r: Logger)
    ensures fresh(r) && ViewOf(r) == ROOT && r.name == "root" && r.root == null
    ensures r.level == 1 && |r.appenders| == 1 && r.appenders[0].file == None
    ensures r.appenders[0].level == 1 && r.appenders[0].formatter == r.formatter
    ensures forall a :: a in r.appenders ==> fresh(a)
  {
    r := new Logger("root", null);
    var stdout := new LogAppender(None);
    Attach(r, stdout);
    assert Outputs(r.appenders) == [Output(None, stdout.View())];
  }

  twostate lemma Unmoved(k: Logger)
    requires unchanged(k) && forall a :: a in old(k.appenders) ==> a.View() == old(a.View())
    ensures ViewOf(k) == old(ViewOf(k))
  {
    assert Outputs(k.appenders) == old(Outputs(k.appenders));
  }

  lemma NewLoggerView(l: Logger)
    requires l.View() == LoggerGraph.NewLog()
    ensures ViewOf(l) == FRESH && l.appenders == []
  {
  }

  lemma Overwrite(m: Manager, name: string, x: View, y: View)
    ensures m[name := x][name := y] == m[name := y]
  {
  }

  predicate Named(l: Logger, name: string, root: Logger) {
    l.name == name && (l == root || l.root == root)
  }

  /** Registered loggers stay the objects they are. */
  ghost predicate Extends(before: map<string, Logger>, after: map<string, Logger>) {
    forall n :: n in before ==> n in after && after[n] == before[n]
  }

  lemma ExtendsItself(a: map<string, Logger>)
    ensures Extends(a, a)
  {}

  lemma ExtendsOn(a: map<string, Logger>, b: map<string, Logger>, c: map<string, Logger>)
    requires Extends(a, b) && Extends(b, c)
    ensures Extends(a, c)
  {}

  lemma ExtendsWith(a: map<string, Logger>, name: string, l: Logger)
    requires name in a ==> l == a[name]
    ensures Extends(a, a[name := l])
  {}

  /** Lines with the appender's file in place of the appender. */
  function Directed(lines: seq<(LogAppender, string)>): (out: seq<OutLine>)
    ensures |out| == |lines| && forall i :: 0 <= i < |lines| ==> out[i] == (lines[i].0.file, lines[i].1)
  {
    seq(|lines|, i requires 0 <= i < |lines| => (lines[i].0.file, lines[i].1))
  }

  lemma {:induction false} WrittenDirected(sinks: map<LogAppender, LoggerGraph.Sink>, s: seq<LogAppender>, level: int, ev: Event)
    requires LoggerGraph.Ready(sinks, s) && forall a :: a in s ==> sinks[a] == a.View()
    ensures Directed(LoggerGraph.Written(sinks, s, level, ev)) == LinesOf(Outputs(s), level, ev)
  {
    hide Format;
    if s != [] {
      WrittenDirected(sinks, s[1..], level, ev);
      var one, rest := LoggerGraph.LineOf(sinks[s[0]], s[0], level, ev), LoggerGraph.Written(sinks, s[1..], level, ev);
      assert Directed(one + rest) == Directed(one) + Directed(rest);
      assert Directed(one) == LogOutput.LineOf(Output(s[0].file, s[0].View()), level, ev);
      assert Outputs(s)[1..] == Outputs(s[1..]);
    }
  }

  lemma LoggedDirected(ls: set<Logger>, sinks: set<LogAppender>, l: Logger, level: int, ev: Event, m: Manager)
    requires l in ls && LoggerGraph.Ready(Snapshot(ls, sinks).sinks, l.appenders)
    requires l.root != null ==>
      l.root in ls && l.root.root == null && LoggerGraph.Ready(Snapshot(ls, sinks).sinks, l.root.appenders)
    requires l.name in m && m[l.name] == ViewOf(l)
    requires if l.root == null then l.name == "root" else l.name != "root" && "root" in m && m["root"] == ViewOf(l.root)
    ensures Directed(LoggerGraph.Logged(Snapshot(ls, sinks), l, if l.root == null then None else Some(l.root), level, ev))
            == Lines(m, l.name, level, ev)
  {
    hide LoggerGraph.Written, LinesOf;
    var g := Snapshot(ls, sinks);
    assert g.logs[l] == l.View() && |Outputs(l.appenders)| == |l.appenders|;
    WrittenDirected(g.sinks, l.appenders, level, ev);
    if l.root != null {
      var r: Logger := l.root;
      assert g.logs[r] == r.View() && |Outputs(r.appenders)| == |r.appenders|;
      WrittenDirected(g.sinks, r.appenders, level, ev);
      hide Outputs;
      if r.appenders == [] {
        assert Outputs(r.appenders) == [];
        assert LinesOf([], level, ev) == [] by { NoLines(level, ev); }
      }
    }
  }

  lemma NoLines(level: int, ev: Event)
    ensures LinesOf([], level, ev) == []
  {}

  class LoggerManager {
    const root: Logger
    var loggers: map<string, Logger>
    /** The manager, its loggers and their appenders. */
    ghost var repr: set<object>

    /** Loggers are different objects and hold different appenders; each has its own name, and all but the root logger
        point to it. */
    ghost predicate Valid()
      reads this, repr
    {
      && this in repr
      && "root" in loggers && loggers["root"] == root && root.root == null
      && (forall n :: n in loggers ==> Named(loggers[n], n, root))
      && (forall n :: n in loggers ==> loggers[n] in repr && forall a :: a in loggers[n].appenders ==> a in repr)
      && (forall n, k :: n in loggers && k in loggers && n != k ==> Apart(loggers[n], loggers[k]))
    }

    ghost function Views(): Manager
      requires Valid()
      reads this, repr
    {
      map n | n in loggers :: ViewOf(loggers[n])
    }

    lemma ViewsAt()
      requires Valid()
      ensures Views().Keys == loggers.Keys && forall n :: n in loggers ==> Views()[n] == ViewOf(loggers[n])
    {
    }

    /** The root logger is registered under its name. */
    constructor ()
      ensures Valid() && fresh(repr)
      ensures loggers == map["root" := root] && Views() == map["root" := ROOT] && Supplied(Views())
      ensures root.level == 1 && |root.appenders| == 1 && root.appenders[0].file == None
      ensures root.appenders[0].level == 1 && root.appenders[0].formatter == root.formatter
    {
      hide ViewOf;
      var r := MakeRoot();
      root := r;
      loggers := map["root" := r];
      repr := {this, r} + set a | a in r.appenders;
    }

    twostate lemma StillValidWith(name: string, new l: Logger)
      requires old(Valid()) && loggers == old(loggers)[name := l] && fresh(l) && l.appenders == []
      requires forall n :: n in old(loggers) ==> loggers[n].appenders == old(loggers[n].appenders)
      requires repr == old(repr) + {l} && name !in old(loggers) && l.name == name && l.root == root
      ensures Valid()
    {
    }

    method Register(name: string) returns (l: Logger)
      requires Valid() && name !in loggers
      modifies this
      ensures Valid() && fresh(repr - old(repr)) && loggers == old(loggers)[name := l] && ViewOf(l) == FRESH
      ensures forall n :: n in old(loggers) ==> ViewOf(loggers[n]) == old(ViewOf(loggers[n]))
    {
      hide ViewOf, Valid;
      l := new Logger(name, root);
      NewLoggerView(l);
      loggers := loggers[name := l];
      repr := repr + {l};
      forall n | n in old(loggers) ensures ViewOf(loggers[n]) == old(ViewOf(loggers[n])) {
        Unmoved(loggers[n]);
      }
      assert forall n :: n in old(loggers) ==> loggers[n].appenders == old(loggers[n].appenders);
      StillValidWith(name, l);
    }

    method GetLogger(name: string) returns (l: Logger)
      requires Valid()
      modifies this
      ensures Valid() && loggers == old(loggers)[name := l] && fresh(repr - old(repr))
      ensures name in old(loggers) ==> l == old(loggers)[name]
      ensures Views() == old(Views())[name := At(old(Views()), name)]
    {
      hide ViewOf, Valid, Views;
      if name in loggers {
        l := loggers[name];
        ViewsAt();
        assert loggers == old(loggers)[name := l];
      } else {
        ghost var views := Views();
        ViewsAt();
        l := Register(name);
        ViewsAt();
        assert Views() == views[name := FRESH];
      }
    }

    lemma Separate(name: string)
      requires Valid() && name in loggers
      ensures this in repr && loggers[name] in repr && forall a :: a in loggers[name].appenders ==> a in repr
      ensures forall n :: n in loggers && n != name ==> Apart(loggers[n], loggers[name])
    {
    }

    /** A logger that got new appenders, or lost all, still shares none. */
    twostate lemma StillValid(name: string)
      requires old(Valid()) && name in loggers && loggers == old(loggers)
      requires forall n :: n in loggers && n != name ==> loggers[n].appenders == old(loggers[n].appenders)
      requires forall a :: a in loggers[name].appenders ==> fresh(a)
      requires repr == old(repr) + set a | a in loggers[name].appenders
      ensures Valid()
    {
    }

    /** One definition that is new or changed, once its logger exists. */
    method ReshapeOne(d: LogDefine)
      requires Valid() && Buildable(d) && d.name in loggers
      modifies repr
      ensures Valid() && fresh(repr - old(repr)) && loggers == old(loggers)
      ensures ViewOf(loggers[d.name]) == Configured(old(ViewOf(loggers[d.name])), d)
      ensures forall n :: n in loggers && n != d.name ==> ViewOf(loggers[n]) == old(ViewOf(loggers[n]))
    {
      hide Configured, ViewOf, Valid;
      Separate(d.name);
      Configure(loggers[d.name], d);
      repr := repr + set a | a in loggers[d.name].appenders;
      StillValid(d.name);
      forall n | n in loggers && n != d.name ensures ViewOf(loggers[n]) == old(ViewOf(loggers[n])) {
        Unmoved(loggers[n]);
      }
    }

    method Reshape(d: LogDefine)
      requires Valid() && Buildable(d) && d.name in Views()
      modifies repr
      ensures Valid() && fresh(repr - old(repr)) && loggers == old(loggers)
      ensures Views() == old(Views())[d.name := Configured(old(Views())[d.name], d)]
    {
      hide Configured, ViewOf, Valid, Views;
      ViewsAt();
      ReshapeOne(d);
      ViewsAt();
      assert Views() == old(Views())[d.name := ViewOf(loggers[d.name])];
    }

    method Apply(d: LogDefine)
      requires Valid() && Buildable(d)
      modifies repr
      ensures Valid() && fresh(repr - old(repr)) && Extends(old(loggers), loggers)
      ensures Views() == old(Views())[d.name := Configured(At(old(Views()), d.name), d)]
    {
      assert this in repr;
      hide Configured, ViewOf, Valid, Views, At, Extends;
      var l := GetLogger(d.name);
      ExtendsWith(old(loggers), d.name, l);
      ghost var views := Views();
      assert views[d.name] == At(old(Views()), d.name);
      Reshape(d);
      Overwrite(old(Views()), d.name, views[d.name], Views()[d.name]);
    }

    method RemoveOne(name: string)
      requires Valid() && name in loggers
      modifies repr
      ensures Valid() && fresh(repr - old(repr)) && loggers == old(loggers)
      ensures ViewOf(loggers[name]) == Removed(old(ViewOf(loggers[name])))
      ensures forall n :: n in loggers && n != name ==> ViewOf(loggers[n]) == old(ViewOf(loggers[n]))
    {
      hide ViewOf, Valid;
      Separate(name);
      Silence(loggers[name]);
      StillValid(name);
      forall n | n in loggers && n != name ensures ViewOf(loggers[n]) == old(ViewOf(loggers[n])) {
        Unmoved(loggers[n]);
      }
    }

    method Remove(name: string)
      requires Valid() && name in Views()
      modifies repr
      ensures Valid() && fresh(repr - old(repr)) && loggers == old(loggers)
      ensures Views() == old(Views())[name := Removed(old(Views())[name])]
    {
      hide ViewOf, Valid, Views;
      ViewsAt();
      RemoveOne(name);
      ViewsAt();
      assert Views() == old(Views())[name := ViewOf(loggers[name])];
    }

    /** One name that is gone. */
    method Drop(name: string)
      requires Valid()
      modifies repr
      ensures Valid() && fresh(repr - old(repr)) && Extends(old(loggers), loggers)
      ensures Views() == old(Views())[name := Removed(At(old(Views()), name))]
    {
      assert this in repr;
      hide ViewOf, Valid, Views, At, Removed, Extends;
      var l := GetLogger(name);
      ExtendsWith(old(loggers), name, l);
      ghost var views := Views();
      assert views[name] == At(old(Views()), name);
      Remove(name);
      Overwrite(old(Views()), name, views[name], Views()[name]);
    }

    /** Every logger of the set is as its definition says. */
    ghost predicate AllEquipped(ds: Defs)
      requires Valid()
      reads this, repr
    {
      forall d :: d in ds ==> d.name in loggers && Equipped(loggers[d.name], d)
    }

    /** Every logger whose definition is gone is at level 100 and has no appenders. */
    ghost predicate AllSilent(before: Defs, after: Defs)
      requires Valid()
      reads this, repr
    {
      forall d :: d in before && Find(after, d.name).None? ==>
        d.name in loggers && loggers[d.name].level == 100 && loggers[d.name].appenders == []
    }

    lemma EquippedConforms(ds: Defs)
      requires Valid()
      ensures AllEquipped(ds) <==> Conforms(Views(), ds)
    {
      ViewsAt();
      forall d | d in ds && d.name in loggers
        ensures Equipped(loggers[d.name], d) <==> Follows(Views()[d.name], d, Views()[d.name].formatter)
      {
        hide Equipped, Follows, ViewOf;
        EquippedFollows(loggers[d.name], d);
      }
      hide Valid, Views, Equipped, Follows, ViewOf;
    }

    lemma ChangeEquips(views: Manager, before: Defs, after: Defs)
      requires Valid() && before != after && Views() == DropAll(UpdateAll(views, before, after), before, after)
      requires Distinct(before) && Distinct(after) && Conforms(views, before)
      ensures AllEquipped(after) && AllSilent(before, after)
    {
      ViewsAt();
      EquippedConforms(after);
      hide Valid, Views, UpdateAll, DropAll, AllEquipped, Distinct, Conforms;
      ChangeConforms(views, before, after);
      assert Views() == Change(views, before, after);
      forall d | d in before && Find(after, d.name).None?
        ensures d.name in loggers && loggers[d.name].level == 100 && loggers[d.name].appenders == []
      {
        ChangeAt(views, before, after, d.name);
        assert Get(Views(), d.name) == Changed(views, before, after, d.name);
        assert Find(before, d.name).Some?;
        assert d.name in loggers && ViewOf(loggers[d.name]) == View(100, At(views, d.name).formatter, []);
      }
    }

    /** The listener's first loop. */
    method ApplyAll(before: Defs, after: Defs)
      requires Valid() && forall d :: d in after ==> Buildable(d)
      modifies repr
      ensures Valid() && fresh(repr - old(repr)) && Extends(old(loggers), loggers)
      ensures Views() == UpdateAll(old(Views()), before, after)
    {
      ExtendsItself(loggers);
      hide Configured, Valid, Views, Extends;
      ghost var views := Views();
      var k := 0;
      while k < |after|
        invariant 0 <= k <= |after|
        invariant Valid() && fresh(repr - old(repr)) && Extends(old(loggers), loggers)
        invariant Views() == UpdateAll(views, before, after[..k])
      {
        assert after[..k+1][..k] == after[..k];
        if Find(before, after[k].name) != Some(after[k]) {
          ghost var known := loggers;
          Apply(after[k]);
          ExtendsOn(old(loggers), known, loggers);
        }
        k := k + 1;
      }
      assert after[..k] == after;
    }

    /** The listener's second loop. */
    method DropGone(before: Defs, after: Defs)
      requires Valid()
      modifies repr
      ensures Valid() && fresh(repr - old(repr)) && Extends(old(loggers), loggers)
      ensures Views() == DropAll(old(Views()), before, after)
    {
      ExtendsItself(loggers);
      hide Removed, Valid, Views, Extends;
      ghost var views := Views();
      var k := 0;
      while k < |before|
        invariant 0 <= k <= |before|
        invariant Valid() && fresh(repr - old(repr)) && Extends(old(loggers), loggers)
        invariant Views() == DropAll(views, before[..k], after)
      {
        assert before[..k+1][..k] == before[..k];
        if Find(after, before[k].name).None? {
          ghost var known := loggers;
          Drop(before[k].name);
          ExtendsOn(old(loggers), known, loggers);
        }
        k := k + 1;
      }
      assert before[..k] == before;
    }

    /** The listener that LogIniter adds to the `logs` variable. Its loggers follow their definitions afterwards if they
        did before. */
    method OnChange(before: Defs, after: Defs)
      requires Valid() && forall d :: d in after ==> Buildable(d)
      modifies repr
      ensures Valid() && fresh(repr - old(repr)) && Extends(old(loggers), loggers)
      ensures Views() == DropAll(UpdateAll(old(Views()), before, after), before, after)
      ensures before != after && Distinct(before) && Distinct(after) && old(AllEquipped(before)) ==>
        AllEquipped(after) && AllSilent(before, after)
    {
      hide Valid, Views, Extends, UpdateAll, DropAll, AllEquipped, AllSilent, Distinct, Conforms;
      EquippedConforms(before);
      ghost var views := Views();
      ApplyAll(before, after);
      ghost var known := loggers;
      DropGone(before, after);
      ExtendsOn(old(loggers), known, loggers);
      if before != after && Distinct(before) && Distinct(after) && Conforms(views, before) {
        ChangeEquips(views, before, after);
      }
    }

    /** setValue on the `logs` variable, whose only listener is the one above. */
    method SetDefines(before: Defs, after: Defs)
      requires Valid() && forall d :: d in after ==> Buildable(d)
      modifies repr
      ensures Valid() && fresh(repr - old(repr)) && Extends(old(loggers), loggers)
      ensures Views() == Change(old(Views()), before, after)
      ensures Distinct(before) && Distinct(after) && old(AllEquipped(before)) ==> AllEquipped(after)
      ensures Distinct(before) && Distinct(after) && old(Supplied(Views())) ==> Supplied(Views())
    {
      hide Valid, Views, UpdateAll, DropAll, AllEquipped, AllSilent, Distinct, Supplied;
      if Distinct(before) && Distinct(after) && Supplied(Views()) {
        ChangeSupplies(Views(), before, after);
      }
      if after == before {
        return;
      }
      OnChange(before, after);
    }

    // -------------------------------------------------------------- logging

    /** The appenders of a registered logger, with the formatters that logging needs. */
    lemma AppendersReady(l: Logger, ls: set<Logger>, sinks: set<LogAppender>)
      requires Valid() && Supplied(Views()) && l.name in loggers && loggers[l.name] == l
      requires forall a :: a in l.appenders ==> a in sinks
      ensures LoggerGraph.Ready(Snapshot(ls, sinks).sinks, l.appenders)
    {
      ViewsAt();
      hide Valid, Views;
      var v := ViewOf(l);
      assert Views()[l.name] == v;
      forall a | a in l.appenders ensures a in Snapshot(ls, sinks).sinks && Snapshot(ls, sinks).sinks[a].formatter.Some? {
        var i :| 0 <= i < |l.appenders| && l.appenders[i] == a;
        assert v.outputs[i] == Output(a.file, a.View()) && v.outputs[i] in v.outputs;
      }
    }

    lemma RootListed()
      requires Valid()
      ensures "root" in Views()
    {
    }

    lemma RegisteredUnderName(name: string)
      requires Valid() && name in loggers
      ensures "root" in loggers && loggers["root"] == root && root.root == null && root.name == "root"
      ensures loggers[name].name == name
      ensures if name == "root" then loggers[name].root == null else loggers[name].root == root
    {
    }

    /** SYLAR_LOG_NAME(name)->log(level, event): the lines written, in order, each with the file it goes to. */
    method LogTo(name: string, level: int, ev: Event) returns (out: seq<OutLine>)
      requires Valid() && Supplied(Views())
      modifies this
      ensures Valid() && Views() == old(Views())[name := At(old(Views()), name)]
      ensures Extends(old(loggers), loggers)
      ensures out == Lines(old(Views()), name, level, ev)
    {
      hide Valid, Views, ViewOf, Lines, Supplied, At, Extends;
      ghost var before := Views();
      RootListed();
      SuppliedWith(before, name);
      LinesWith(before, name, level, ev);
      var l := GetLogger(name);
      ExtendsWith(old(loggers), name, l);
      assert l.name == name by { RegisteredUnderName(name); }
      out := LogThrough(l, level, ev);
    }

    /** log() on a registered logger. */
    method LogThrough(l: Logger, level: int, ev: Event) returns (out: seq<OutLine>)
      requires Valid() && Supplied(Views()) && l.name in loggers && loggers[l.name] == l
      ensures out == Lines(Views(), l.name, level, ev)
    {
      hide Valid, Views, ViewOf, Lines, Supplied, LoggerGraph.Written, LoggerGraph.Logged;
      RegisteredUnderName(l.name);
      ghost var ls, sinks := {l, root}, (set a | a in l.appenders) + (set a | a in root.appenders);
      AppendersReady(l, ls, sinks);
      AppendersReady(root, ls, sinks);
      ViewsAt();
      LoggedDirected(ls, sinks, l, level, ev, Views());
      var lines := l.LogAt(level, ev, ls, sinks);
      out := Directed(lines);
    }
  }

  lemma SuppliedWith(m: Manager, name: string)
    requires Supplied(m)
    ensures Supplied(m[name := At(m, name)])
  {}

  lemma LinesWith(m: Manager, name: string, level: int, ev: Event)
    requires "root" in m
    ensures Lines(m[name := At(m, name)], name, level, ev) == Lines(m, name, level, ev)
  {
    hide LinesOf;
  }
}
