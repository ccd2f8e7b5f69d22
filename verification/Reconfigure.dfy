/** Turning one set of log definitions into the next (src/log.cpp:574-604, 691-749), and what a whole series of
    changes leaves behind. */
module Reconfigure {
  import opened Pattern
  import LoggerGraph
  import LogLevels

  /** kind is 1 for a file and 2 for stdout. */
  datatype AppenderDefine = AppenderDefine(kind: int, level: int, formatter: string, file: string)

  datatype LogDefine = LogDefine(name: string, level: int, formatter: string, appenders: seq<AppenderDefine>)

  /** A std::set<LogDefine> in the order of iteration; LogDefines are ordered by name alone. */
  type Defs = seq<LogDefine>

  predicate Distinct(ds: Defs) {
    forall i, j :: 0 <= i < j < |ds| ==> ds[i].name != ds[j].name
  }

  function Find(ds: Defs, name: string): (r: Option<LogDefine>)
    ensures r.Some? ==> r.value in ds && r.value.name == name
    ensures r.None? ==> forall d :: d in ds ==> d.name != name
  {
    if ds == [] then None else if ds[0].name == name then Some(ds[0]) else Find(ds[1..], name)
  }

  const REMOVED := 100

  predicate Usable(f: string) {
    f != "" && !Broken(f)
  }

  // ---------------------------------------------------------------- what a logger looks like

  datatype Output = Output(file: Option<string>, sink: LoggerGraph.Sink)

  datatype View = View(level: int, formatter: Option<string>, outputs: seq<Output>)

  const FRESH := View(LogLevels.DEBUG, Some(LoggerGraph.DEFAULT_PATTERN), [])

  type Manager = map<string, View>

  function BuiltOne(a: AppenderDefine, f: Option<string>): Output {
    Output(if a.kind == 1 then Some(a.file) else None,
           LoggerGraph.Sink(a.level, Usable(a.formatter), if Usable(a.formatter) then Some(a.formatter) else f))
  }

  function Built(aa: seq<AppenderDefine>, f: Option<string>): (os: seq<Output>)
    ensures |os| == |aa|
    ensures forall i :: 0 <= i < |aa| ==> os[i] == BuiltOne(aa[i], f)
  {
    if aa == [] then [] else [BuiltOne(aa[0], f)] + Built(aa[1..], f)
  }

  // ---------------------------------------------------------------- the listener

  function At(m: Manager, name: string): View {
    if name in m then m[name] else FRESH
  }

  function Configured(v: View, d: LogDefine): View {
    var f := if Usable(d.formatter) then Some(d.formatter) else v.formatter;
    View(d.level, f, Built(d.appenders, f))
  }

  function Removed(v: View): View {
    View(REMOVED, v.formatter, [])
  }

  /** The first loop of the listener: definitions that are new or differ from the old one of that name. */
  function UpdateAll(m: Manager, before: Defs, ds: Defs): Manager {
    if ds == [] then m
    else
      var d := ds[|ds|-1];
      var m' := UpdateAll(m, before, ds[..|ds|-1]);
      if Find(before, d.name) == Some(d) then m' else m'[d.name := Configured(At(m', d.name), d)]
  }

  /** The second loop: old definitions whose name is gone. */
  function DropAll(m: Manager, gone: Defs, after: Defs): Manager {
    if gone == [] then m
    else
      var n := gone[|gone|-1].name;
      var m' := DropAll(m, gone[..|gone|-1], after);
      if Find(after, n).Some? then m' else m'[n := Removed(At(m', n))]
  }

  /** ConfigVar::setValue: the listener runs only when the value differs. */
  function Change(m: Manager, before: Defs, after: Defs): Manager {
    if before == after then m else DropAll(UpdateAll(m, before, after), before, after)
  }

  function Current(sets: seq<Defs>): Defs {
    if sets == [] then [] else sets[|sets|-1]
  }

  /** The loggers after the configured set took the values `sets` one after the other, beginning empty. */
  function Run(m: Manager, sets: seq<Defs>): Manager {
    if sets == [] then m
    else
      var past := sets[..|sets|-1];
      Change(Run(m, past), Current(past), Current(sets))
  }

  // ---------------------------------------------------------------- what it amounts to

  /** The usable formatter that a definition of that name brought last. */
  function LastFormat(sets: seq<Defs>, name: string): Option<string> {
    if sets == [] then None
    else
      var d := Find(Current(sets), name);
      if d.Some? && Usable(d.value.formatter) then Some(d.value.formatter) else LastFormat(sets[..|sets|-1], name)
  }

  predicate Mentioned(sets: seq<Defs>, name: string) {
    exists ds :: ds in sets && Find(ds, name).Some?
  }

  function FormatterAfter(m: Manager, sets: seq<Defs>, name: string): Option<string> {
    if LastFormat(sets, name).Some? then LastFormat(sets, name) else At(m, name).formatter
  }

  /** The logger of that name after all changes, without replaying them. */
  function Settled(m: Manager, sets: seq<Defs>, name: string): Option<View> {
    var f := FormatterAfter(m, sets, name);
    match Find(Current(sets), name)
    case Some(d) => Some(View(d.level, f, Built(d.appenders, f)))
    case None =>
      if Mentioned(sets, name) then Some(View(REMOVED, f, []))
      else if name in m then Some(m[name]) else None
  }

  function Get(m: Manager, name: string): Option<View> {
    if name in m then Some(m[name]) else None
  }

  lemma {:induction false} FindLast(ds: Defs, name: string)
    requires Distinct(ds) && ds != []
    ensures Find(ds, name) == if ds[|ds|-1].name == name then Some(ds[|ds|-1]) else Find(ds[..|ds|-1], name)
  {
    if |ds| > 1 {
      assert ds[1..][..|ds|-2] == ds[..|ds|-1][1..];
      FindLast(ds[1..], name);
      assert ds[0].name != ds[|ds|-1].name;
    }
  }

  lemma {:induction false} UpdateAllAt(m: Manager, before: Defs, ds: Defs, name: string)
    requires Distinct(ds)
    ensures Get(UpdateAll(m, before, ds), name) ==
            match Find(ds, name)
            case None => Get(m, name)
            case Some(d) => if Find(before, name) == Some(d) then Get(m, name) else Some(Configured(At(m, name), d))
  {
    if ds != [] {
      hide Configured;
      FindLast(ds, name);
      UpdateAllAt(m, before, ds[..|ds|-1], name);
      if ds[|ds|-1].name == name {
        assert forall d :: d in ds[..|ds|-1] ==> d.name != name;
      }
    }
  }

  lemma {:induction false} DropAllAt(m: Manager, gone: Defs, after: Defs, name: string)
    requires Distinct(gone)
    ensures Get(DropAll(m, gone, after), name) ==
            if Find(gone, name).Some? && Find(after, name).None? then Some(Removed(At(m, name)))
            else Get(m, name)
  {
    if gone != [] {
      FindLast(gone, name);
      DropAllAt(m, gone[..|gone|-1], after, name);
      if gone[|gone|-1].name == name {
        assert forall d :: d in gone[..|gone|-1] ==> d.name != name;
      }
    }
  }

  lemma {:induction false} UnmentionedHasNoFormat(sets: seq<Defs>, name: string)
    requires !Mentioned(sets, name)
    ensures LastFormat(sets, name).None?
  {
    if sets != [] {
      assert Current(sets) in sets;
      UnmentionedHasNoFormat(sets[..|sets|-1], name);
    }
  }

  lemma MentionedLast(sets: seq<Defs>, name: string)
    requires sets != []
    ensures Mentioned(sets, name) <==> Mentioned(sets[..|sets|-1], name) || Find(Current(sets), name).Some?
  {
    assert sets == sets[..|sets|-1] + [Current(sets)];
  }

  /** Incremental reconfiguration in closed form: after any series of changes each logger's level and appenders are
      those of the latest set alone, dropped names are at level 100 without appenders, names never configured are
      as they were, and the formatter is the usable one given last. */
  lemma {:induction false} ReconfiguredExactly(m: Manager, sets: seq<Defs>, name: string)
    requires forall ds :: ds in sets ==> Distinct(ds)
    ensures Get(Run(m, sets), name) == Settled(m, sets, name)
  {
    if sets != [] {
      var past, before, after := sets[..|sets|-1], Current(sets[..|sets|-1]), Current(sets);
      assert after in sets && (past != [] ==> before in past);
      assert sets == past + [after];
      ReconfiguredExactly(m, past, name);
      OneChange(m, past, after, name, Run(m, past));
    }
  }

  lemma OneChange(m: Manager, past: seq<Defs>, after: Defs, name: string, now: Manager)
    requires Distinct(Current(past)) && Distinct(after) && Get(now, name) == Settled(m, past, name)
    ensures Get(Change(now, Current(past), after), name) == Settled(m, past + [after], name)
  {
    hide UpdateAll, DropAll, Built, Distinct, Usable;
    var before, sets := Current(past), past + [after];
    assert sets[..|sets|-1] == past && Current(sets) == after;
    MentionedLast(sets, name);
    UpdateAllAt(now, before, after, name);
    DropAllAt(UpdateAll(now, before, after), before, after, name);
    if !Mentioned(past, name) {
      UnmentionedHasNoFormat(past, name);
    }
    if Find(before, name).Some? {
      assert past != [] && before in past;
    }
  }

  // ---------------------------------------------------------------- history

  /** A logger without the formatters it and its appenders inherit. */
  function Outline(v: View): (int, seq<(Option<string>, int, Option<string>)>) {
    (v.level,
     seq(|v.outputs|, i requires 0 <= i < |v.outputs| =>
       (v.outputs[i].file, v.outputs[i].sink.level,
        if v.outputs[i].sink.own then v.outputs[i].sink.formatter else None)))
  }

  /** Whatever the two histories were, loggers configured alike now agree in level and ordered appenders. */
  lemma OutlineForgetsHistory(m: Manager, sets: seq<Defs>, m': Manager, sets': seq<Defs>, now: Defs, d: LogDefine)
    requires forall ds :: ds in sets || ds in sets' || ds == now ==> Distinct(ds)
    requires d in now
    ensures d.name in Run(m, sets + [now]) && d.name in Run(m', sets' + [now])
    ensures Outline(Run(m, sets + [now])[d.name]) == Outline(Run(m', sets' + [now])[d.name])
  {
    FindMember(now, d);
    ReconfiguredExactly(m, sets + [now], d.name);
    ReconfiguredExactly(m', sets' + [now], d.name);
    hide Run, Settled;
    var v, v' := Run(m, sets + [now])[d.name], Run(m', sets' + [now])[d.name];
    assert Outline(v).1 == Outline(v').1;
  }

  lemma {:induction false} FindMember(ds: Defs, d: LogDefine)
    requires Distinct(ds) && d in ds
    ensures Find(ds, d.name) == Some(d)
  {
    if ds[0] != d {
      FindMember(ds[1..], d);
      var i :| 0 <= i < |ds| && ds[i] == d;
      assert ds[0].name != ds[i].name;
    }
  }

  lemma SettledNow(m: Manager, sets: seq<Defs>, now: Defs, d: LogDefine)
    requires Distinct(now) && d in now
    ensures var f := if Usable(d.formatter) then Some(d.formatter) else FormatterAfter(m, sets, d.name);
      Settled(m, sets + [now], d.name) == Some(View(d.level, f, Built(d.appenders, f)))
  {
    hide Built, Usable;
    FindMember(now, d);
    assert (sets + [now])[..|sets|] == sets;
  }

  /** The whole logger is as if configured from scratch exactly when its definition brings a usable formatter or no
      earlier definition left it with another one. */
  lemma FromScratchExactly(m: Manager, sets: seq<Defs>, now: Defs, d: LogDefine)
    requires forall ds :: ds in sets || ds == now ==> Distinct(ds)
    requires d in now
    ensures Get(Run(m, sets + [now]), d.name) == Get(Run(m, [now]), d.name) <==>
            || Usable(d.formatter) || LastFormat(sets, d.name).None?
            || LastFormat(sets, d.name) == At(m, d.name).formatter
  {
    ReconfiguredExactly(m, sets + [now], d.name);
    ReconfiguredExactly(m, [now], d.name);
    SettledNow(m, sets, now, d);
    SettledNow(m, [], now, d);
    assert [] + [now] == [now];
    assert LastFormat([], d.name).None?;
    hide Run, Built, Usable, Settled, LastFormat;
  }

  /** An empty formatter leaves the one of an earlier set in force. */
  lemma HistoryMatters() returns (sets: seq<Defs>, now: Defs, d: LogDefine)
    ensures (forall ds :: ds in sets || ds == now ==> Distinct(ds)) && d in now
    ensures d.formatter == ""
    ensures Get(Run(map[], sets + [now]), d.name) != Get(Run(map[], [now]), d.name)
  {
    var e := LogDefine("system", 1, "n", []);
    d := LogDefine("system", 1, "", []);
    sets, now := [[e]], [d];
    LoggerGraph.PlainPattern();
    assert Find([e], "system") == Some(e) && [[e]][..0] == [];
    assert LastFormat([[e]], "system") == Some("n");
    assert |"n"| != |LoggerGraph.DEFAULT_PATTERN|;
    FromScratchExactly(map[], sets, now, d);
  }
}
