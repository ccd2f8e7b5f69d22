/** LogAppender, Logger and LoggerManager as objects (src/log.cpp:221-319, 541-560). Every method does to any set of
    loggers and appenders around it, shared ones included, what the operation of the same name does to their graph. */
module LoggerObjects {
  import opened Pattern
  import opened LoggerGraph
  import LogLevels

  class LogAppender {
    /** The file of a FileLogAppender; None for a StdoutLogAppender. */
    const file: Option<string>
    var level: int
    var hasFormatter: bool
    var formatter: Option<string>

    constructor (file: Option<string>)
      ensures this.file == file && View() == NEW_SINK
      ensures level == 1 && !hasFormatter && formatter == None
    {
      this.file := file;
      level, hasFormatter, formatter := NEW_SINK.level, false, None;
    }

    function View(): Sink
      reads this
    {
      Sink(level, hasFormatter, formatter)
    }

    method SetLevel(val: int)
      modifies this
      ensures View() == old(View()).(level := val)
    {
      level := val;
    }

    method SetFormatter(f: Option<string>)
      modifies this
      ensures View() == old(View()).(formatter := f, own := f.Some?)
      ensures formatter == f && (hasFormatter <==> f.Some?)
    {
      formatter := f;
      if f.Some? {
        hasFormatter := true;
      } else {
        hasFormatter := false;
      }
    }

    /** StdoutLogAppender::log and FileLogAppender::log: a line or nothing (src/log.cpp:349-355, 378-390). */
    method Log(level: int, ev: Event) returns (out: seq<(LogAppender, string)>)
      requires formatter.Some?
      ensures out == LineOf(View(), this, level, ev)
    {
      out := [];
      if level >= this.level {
        var f := new LogFormatter(formatter.value);
        var line := f.FormatEvent(LogLevels.ToString(level), ev);
        out := [(this, line)];
      }
    }
  }

  /** The objects around a call, as a graph. */
  ghost function Snapshot(loggers: set<Logger>, appenders: set<LogAppender>): Graph<Logger, LogAppender>
    reads loggers, appenders
  {
    Graph(map l | l in loggers :: l.View(), map a | a in appenders :: a.View())
  }

  class Logger {
    const name: string
    const root: Logger?
    var level: int
    var formatter: Option<string>
    var appenders: seq<LogAppender>

    constructor (name: string, root: Logger?)
      ensures this.name == name && this.root == root && View() == NewLog()
      ensures level == 1 && appenders == []
      ensures formatter == Some("%d{%Y-%m-%d %H:%M:%S}%T%t%T%N%T%F%T[%p]%T[%c]%T<%f:%l>%T%m%n")
    {
      this.name, this.root := name, root;
      level, formatter, appenders := LogLevels.DEBUG, Some(DEFAULT_PATTERN), [];
    }

    function View(): Log<LogAppender>
      reads this
    {
      Log(level, formatter, appenders)
    }

    method SetLevel(val: int)
      modifies this
      ensures View() == old(View()).(level := val)
    {
      level := val;
    }

    method AddAppender(appender: LogAppender, ghost ls: set<Logger>, ghost sinks: set<LogAppender>)
      requires this in ls && appender in sinks
      modifies this`appenders, appender`formatter
      ensures Snapshot(ls, sinks) == Apply(old(Snapshot(ls, sinks)), Op.AddAppender(this, appender))
      ensures appenders == old(appenders) + [appender]
      ensures appender.formatter == if old(appender.formatter).Some? then old(appender.formatter) else formatter
    {
      if appender.formatter.None? {
        appender.formatter := formatter;
      }
      appenders := appenders + [appender];
    }

    method DelAppender(appender: LogAppender, ghost ls: set<Logger>, ghost sinks: set<LogAppender>)
      requires this in ls
      modifies this`appenders
      ensures Snapshot(ls, sinks) == Apply(old(Snapshot(ls, sinks)), Op.DelAppender(this, appender))
      ensures appenders == Without(old(appenders), appender)
    {
      var k := 0;
      while k < |appenders| && appenders[k] != appender
        invariant 0 <= k <= |appenders|
        invariant appender !in appenders[..k]
        invariant appenders == old(appenders)
      {
        k := k + 1;
      }
      WithoutAt(appenders, appender, k);
      if k < |appenders| {
        appenders := appenders[..k] + appenders[k+1..];
      }
    }

    method ClearAppenders(ghost ls: set<Logger>, ghost sinks: set<LogAppender>)
      requires this in ls
      modifies this`appenders
      ensures Snapshot(ls, sinks) == Apply(old(Snapshot(ls, sinks)), Op.ClearAppenders(this))
      ensures appenders == []
    {
      appenders := [];
    }

    /** The loop of setFormatter: the appenders without a formatter of their own take f. */
    method Hand(f: Option<string>)
      modifies appenders`formatter
      ensures forall a :: a in appenders ==> a.formatter == (if a.hasFormatter then old(a.formatter) else f)
    {
      var k := 0;
      while k < |appenders|
        invariant 0 <= k <= |appenders|
        invariant forall a :: a in appenders ==>
          a.formatter == (if a in appenders[..k] && !a.hasFormatter then f else old(a.formatter))
      {
        if !appenders[k].hasFormatter {
          appenders[k].formatter := f;
        }
        k := k + 1;
      }
    }

    method SetFormatter(f: Option<string>, ghost ls: set<Logger>, ghost sinks: set<LogAppender>)
      requires this in ls && forall a :: a in appenders ==> a in sinks
      modifies this`formatter, appenders`formatter
      ensures Snapshot(ls, sinks) == Apply(old(Snapshot(ls, sinks)), Op.SetFormatter(this, f))
      ensures formatter == f
      ensures forall a :: a in appenders ==> a.formatter == if a.hasFormatter then old(a.formatter) else f
    {
      hide Apply;
      formatter := f;
      Hand(f);
      ghost var before, after := old(Snapshot(ls, sinks)), Snapshot(ls, sinks);
      Reformats(before, after, this, f);
    }

    method SetPattern(p: string, ghost ls: set<Logger>, ghost sinks: set<LogAppender>)
      requires this in ls && forall a :: a in appenders ==> a in sinks
      modifies this`formatter, appenders`formatter
      ensures Snapshot(ls, sinks) == Apply(old(Snapshot(ls, sinks)), Op.SetPattern(this, p))
      ensures formatter == if Broken(p) then old(formatter) else Some(p)
      ensures forall a :: a in appenders ==>
        a.formatter == if Broken(p) || a.hasFormatter then old(a.formatter) else Some(p)
    {
      hide Broken, Lex, ResolveAll, Reformatted;
      var f := new LogFormatter(p);
      if f.error {
        return;
      }
      SetFormatter(Some(p), ls, sinks);
    }

    /** What log() writes, and through which appender (src/log.cpp:244-258). */
    method LogAt(level: int, ev: Event, ghost ls: set<Logger>, ghost sinks: set<LogAppender>)
        returns (out: seq<(LogAppender, string)>)
      requires this in ls && Ready(Snapshot(ls, sinks).sinks, appenders)
      requires root != null ==> root in ls && root.root == null && Ready(Snapshot(ls, sinks).sinks, root.appenders)
      ensures out == Logged(Snapshot(ls, sinks), this, if root == null then None else Some(root), level, ev)
      decreases root != null
    {
      hide LineOf, Format;
      ghost var known := Snapshot(ls, sinks).sinks;
      out := [];
      if level >= this.level {
        if appenders != [] {
          var k := 0;
          while k < |appenders|
            invariant 0 <= k <= |appenders|
            invariant Ready(known, appenders[..k]) && out == Written(known, appenders[..k], level, ev)
          {
            assert appenders[..k+1] == appenders[..k] + [appenders[k]];
            WrittenSnoc(known, appenders[..k], appenders[k], level, ev);
            var line := appenders[k].Log(level, ev);
            out := out + line;
            k := k + 1;
          }
          assert appenders[..k] == appenders;
        } else if root != null {
          out := root.LogAt(level, ev, ls, sinks);
        }
      }
    }
  }
}
