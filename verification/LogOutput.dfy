/** What a configuration means for the lines of a log: which appenders a configured logger has, in the fields of its
    definition alone, and what they write (src/log.cpp:244-258, 691-749). */
module LogOutput {
  import opened Pattern
  import opened Reconfigure
  import LoggerGraph
  import LogLevels

  // ---------------------------------------------------------------- appenders

  /** The text names a pattern that can be used. */
  predicate GivesPattern(text: string) {
    |text| > 0 && !Broken(text)
  }

  /** x is the appender that a describes, in a logger with formatter f: a file appender on a's file or a stdout appender,
      at a's level, with the pattern a gives, or else the logger's. */
  predicate Described(x: Output, a: AppenderDefine, f: Option<string>) {
    && (a.kind == 1 ==> x.file == Some(a.file))
    && (a.kind != 1 ==> x.file == None)
    && x.sink.level == a.level
    && (x.sink.own <==> GivesPattern(a.formatter))
    && (GivesPattern(a.formatter) ==> x.sink.formatter == Some(a.formatter))
    && (!GivesPattern(a.formatter) ==> x.sink.formatter == f)
  }

  /** The logger is as d says, one appender for each that d lists and in that order; `kept` is the formatter it has when
      d gives none. */
  predicate Follows(v: View, d: LogDefine, kept: Option<string>) {
    && v.level == d.level
    && (GivesPattern(d.formatter) ==> v.formatter == Some(d.formatter))
    && (!GivesPattern(d.formatter) ==> v.formatter == kept)
    && |v.outputs| == |d.appenders|
    && forall i :: 0 <= i < |d.appenders| ==> Described(v.outputs[i], d.appenders[i], v.formatter)
  }

  predicate Conforms(m: Manager, ds: Defs) {
    forall d :: d in ds ==> d.name in m && Follows(m[d.name], d, m[d.name].formatter)
  }

  lemma BuiltIsDescribed(a: AppenderDefine, f: Option<string>)
    ensures Described(BuiltOne(a, f), a, f)
  {
    hide Broken;
  }

  lemma ConfiguredFollows(v: View, d: LogDefine)
    ensures Follows(Configured(v, d), d, v.formatter)
    ensures Follows(Configured(v, d), d, Configured(v, d).formatter)
  {
    var u := Configured(v, d);
    forall i | 0 <= i < |d.appenders| ensures Described(u.outputs[i], d.appenders[i], u.formatter) {
      BuiltIsDescribed(d.appenders[i], u.formatter);
    }
    hide Broken;
  }

  /** One change of the configured set: every definition in it is followed, a definition that gives no pattern leaves the
      formatter, a name that is gone falls silent, and any other logger is as before. */
  lemma ChangeConforms(m: Manager, before: Defs, after: Defs)
    requires Distinct(before) && Distinct(after) && Conforms(m, before)
    ensures Conforms(Change(m, before, after), after)
    ensures forall d :: d in after ==> Follows(At(Change(m, before, after), d.name), d, At(m, d.name).formatter)
    ensures forall d :: d in before && Find(after, d.name).None? ==>
      At(Change(m, before, after), d.name) == View(100, At(m, d.name).formatter, [])
    ensures forall n :: Find(before, n).None? && Find(after, n).None? ==> Get(Change(m, before, after), n) == Get(m, n)
  {
    var t := Change(m, before, after);
    forall n ensures Get(t, n) == Changed(m, before, after, n) {
      ChangeAt(m, before, after, n);
    }
    forall d | d in after
      ensures d.name in t && Follows(t[d.name], d, t[d.name].formatter) && Follows(t[d.name], d, At(m, d.name).formatter)
    {
      FindMember(after, d);
      if Find(before, d.name) == Some(d) {
        assert d in before;
      }
      ConfiguredFollows(At(m, d.name), d);
      hide Configured, Described, Change, Broken;
      assert Get(t, d.name) == Changed(m, before, after, d.name);
    }
    forall d | d in before && Find(after, d.name).None?
      ensures At(t, d.name) == View(100, At(m, d.name).formatter, [])
    {
      FindMember(before, d);
      hide Change;
      assert Get(t, d.name) == Changed(m, before, after, d.name);
    }
  }

  function Changed(m: Manager, before: Defs, after: Defs, n: string): Option<View> {
    match Find(after, n)
    case Some(d) => if Find(before, n) == Some(d) then Get(m, n) else Some(Configured(At(m, n), d))
    case None => if Find(before, n).Some? then Some(Removed(At(m, n))) else Get(m, n)
  }

  lemma ChangeAt(m: Manager, before: Defs, after: Defs, n: string)
    requires Distinct(before) && Distinct(after)
    ensures Get(Change(m, before, after), n) == Changed(m, before, after, n)
  {
    hide Configured, Removed, UpdateAll, DropAll;
    UpdateAllAt(m, before, after, n);
    DropAllAt(UpdateAll(m, before, after), before, after, n);
  }

  /** After any series of changes the loggers follow the current set. */
  lemma {:induction false} RunConforms(m: Manager, sets: seq<Defs>)
    requires forall ds :: ds in sets ==> Distinct(ds)
    ensures Conforms(Run(m, sets), Current(sets))
  {
    if sets != [] {
      var past := sets[..|sets|-1];
      assert sets == past + [Current(sets)];
      assert past != [] ==> Current(past) in past;
      hide Conforms, Distinct;
      RunConforms(m, past);
      assert Distinct([]) by { NothingIsDistinct(); }
      ChangeConforms(Run(m, past), Current(past), Current(sets));
    }
  }

  lemma NothingIsDistinct()
    ensures Distinct([])
  {}

  // ---------------------------------------------------------------- lines

  /** Where a line goes (a file, or None for stdout) and what it is. */
  type OutLine = (Option<string>, string)

  function LineOf(x: Output, level: int, ev: Event): seq<OutLine> {
    if level >= x.sink.level && x.sink.formatter.Some? then
      [(x.file, Format(x.sink.formatter.value, LogLevels.ToString(level), ev))]
    else []
  }

  function LinesOf(xs: seq<Output>, level: int, ev: Event): seq<OutLine> {
    if xs == [] then [] else LineOf(xs[0], level, ev) + LinesOf(xs[1..], level, ev)
  }

  /** log() on the logger of that name: its own appenders, or else the root logger with its own level. */
  function Lines(m: Manager, name: string, level: int, ev: Event): seq<OutLine> {
    var v := At(m, name);
    if level < v.level then []
    else if v.outputs != [] then LinesOf(v.outputs, level, ev)
    else if name == "root" || "root" !in m || level < m["root"].level then []
    else LinesOf(m["root"].outputs, level, ev)
  }

  /** No logger and no appender is without a formatter. */
  predicate Supplied(m: Manager) {
    forall n :: n in m ==> m[n].formatter.Some? && forall x :: x in m[n].outputs ==> x.sink.formatter.Some?
  }

  lemma ChangeSupplies(m: Manager, before: Defs, after: Defs)
    requires Supplied(m) && Distinct(before) && Distinct(after)
    ensures Supplied(Change(m, before, after))
  {
    var t := Change(m, before, after);
    forall n | n in t ensures t[n].formatter.Some? && forall x :: x in t[n].outputs ==> x.sink.formatter.Some? {
      ChangeAt(m, before, after, n);
      assert Get(t, n) == Some(t[n]);
      hide Broken, Change;
      assert At(m, n).formatter.Some?;
    }
  }

  lemma {:induction false} RunSupplies(m: Manager, sets: seq<Defs>)
    requires Supplied(m) && forall ds :: ds in sets ==> Distinct(ds)
    ensures Supplied(Run(m, sets))
  {
    if sets != [] {
      var past := sets[..|sets|-1];
      assert sets == past + [Current(sets)];
      assert past != [] ==> Current(past) in past;
      assert Distinct([]) by { NothingIsDistinct(); }
      hide Supplied, Distinct;
      RunSupplies(m, past);
      ChangeSupplies(Run(m, past), Current(past), Current(sets));
    }
  }

  lemma {:induction false} LinesOfMember(xs: seq<Output>, level: int, ev: Event, line: OutLine)
    ensures line in LinesOf(xs, level, ev) <==> exists i :: 0 <= i < |xs| && line in LineOf(xs[i], level, ev)
  {
    hide LineOf;
    if xs != [] {
      LinesOfMember(xs[1..], level, ev, line);
      if i :| 0 <= i < |xs| && line in LineOf(xs[i], level, ev) {
        assert i > 0 ==> xs[i] == xs[1..][i-1];
      }
      if j :| 0 <= j < |xs| - 1 && line in LineOf(xs[1..][j], level, ev) {
        assert xs[j+1] == xs[1..][j];
      }
    }
  }

  /** a lets an event of that level through, to the file or stdout that it names, in its own pattern or else in `pattern`. */
  predicate Emits(a: AppenderDefine, pattern: string, level: int, ev: Event, line: OutLine) {
    && level >= a.level
    && line.0 == (if a.kind == 1 then Some(a.file) else None)
    && line.1 == Format(if GivesPattern(a.formatter) then a.formatter else pattern, LogLevels.ToString(level), ev)
  }

  lemma DescribedEmits(x: Output, a: AppenderDefine, pattern: string, level: int, ev: Event, line: OutLine)
    requires Described(x, a, Some(pattern))
    ensures line in LineOf(x, level, ev) <==> Emits(a, pattern, level, ev, line)
  {
    hide GivesPattern, Format;
  }

  lemma FollowsEmits(v: View, d: LogDefine, level: int, ev: Event, line: OutLine)
    requires Follows(v, d, v.formatter) && v.formatter.Some?
    ensures line in LinesOf(v.outputs, level, ev) <==>
            exists a :: a in d.appenders && Emits(a, v.formatter.value, level, ev, line)
  {
    hide Described, Emits, LineOf, GivesPattern;
    LinesOfMember(v.outputs, level, ev, line);
    forall i | 0 <= i < |d.appenders|
      ensures line in LineOf(v.outputs[i], level, ev) <==> Emits(d.appenders[i], v.formatter.value, level, ev, line)
    {
      DescribedEmits(v.outputs[i], d.appenders[i], v.formatter.value, level, ev, line);
    }
    hide LinesOf;
    if a :| a in d.appenders && Emits(a, v.formatter.value, level, ev, line) {
      var i :| 0 <= i < |d.appenders| && d.appenders[i] == a;
      assert line in LineOf(v.outputs[i], level, ev);
    }
  }

  /** The appenders of d write the line, d's level permitting. */
  predicate Through(d: LogDefine, pattern: string, level: int, ev: Event, line: OutLine) {
    level >= d.level && exists a :: a in d.appenders && Emits(a, pattern, level, ev, line)
  }

  /** A configured logger with appenders writes exactly the lines that its definition lists. */
  lemma WrittenExactly(m: Manager, ds: Defs, d: LogDefine, level: int, ev: Event, line: OutLine)
    requires Conforms(m, ds) && Supplied(m) && d in ds && d.appenders != []
    ensures line in Lines(m, d.name, level, ev) <==> Through(d, m[d.name].formatter.value, level, ev, line)
  {
    hide Emits, LinesOf;
    FollowsEmits(m[d.name], d, level, ev, line);
  }

  /** d lists a file appender on x whose level lets the event through, and text is the event in its pattern. */
  predicate ToFile(d: LogDefine, pattern: string, level: int, ev: Event, x: string, text: string) {
    exists a :: a in d.appenders && a.kind == 1 && a.file == x && level >= a.level &&
      text == Format(if GivesPattern(a.formatter) then a.formatter else pattern, LogLevels.ToString(level), ev)
  }

  predicate ToStdout(d: LogDefine, pattern: string, level: int, ev: Event, text: string) {
    exists a :: a in d.appenders && a.kind != 1 && level >= a.level &&
      text == Format(if GivesPattern(a.formatter) then a.formatter else pattern, LogLevels.ToString(level), ev)
  }

  /** What goes to the file x, and what goes to stdout. */
  lemma DestinationsExactly(m: Manager, ds: Defs, d: LogDefine, level: int, ev: Event, x: string, text: string)
    requires Conforms(m, ds) && Supplied(m) && d in ds && d.appenders != []
    ensures var pattern := if GivesPattern(d.formatter) then d.formatter else m[d.name].formatter.value;
      && ((Some(x), text) in Lines(m, d.name, level, ev) <==> level >= d.level && ToFile(d, pattern, level, ev, x, text))
      && ((None, text) in Lines(m, d.name, level, ev) <==> level >= d.level && ToStdout(d, pattern, level, ev, text))
  {
    hide Lines, Supplied, GivesPattern, Format;
    WrittenExactly(m, ds, d, level, ev, (Some(x), text));
    WrittenExactly(m, ds, d, level, ev, (None, text));
  }

  /** One without appenders writes through the root logger, whose level has to permit it as well. */
  lemma WrittenByRoot(m: Manager, ds: Defs, d: LogDefine, root: LogDefine, level: int, ev: Event, line: OutLine)
    requires Conforms(m, ds) && Supplied(m) && d in ds && d.appenders == [] && d.name != "root"
    requires root in ds && root.name == "root"
    ensures line in Lines(m, d.name, level, ev) <==>
            level >= d.level && Through(root, m["root"].formatter.value, level, ev, line)
  {
    hide Emits, LinesOf;
    FollowsEmits(m["root"], root, level, ev, line);
  }

  /** Events that every level lets through give one line for each appender, in their order. */
  lemma {:induction false} OneLineEach(xs: seq<Output>, level: int, ev: Event)
    requires forall x :: x in xs ==> x.sink.formatter.Some? && level >= x.sink.level
    ensures |LinesOf(xs, level, ev)| == |xs|
    ensures forall i :: 0 <= i < |xs| ==> LineOf(xs[i], level, ev) == [LinesOf(xs, level, ev)[i]]
  {
    if xs != [] {
      OneLineEach(xs[1..], level, ev);
      hide Format;
      forall i | 0 <= i < |xs| ensures LineOf(xs[i], level, ev) == [LinesOf(xs, level, ev)[i]] {
        if i > 0 {
          assert xs[i] == xs[1..][i-1];
        }
      }
    }
  }
}
