/** The lock hierarchy of the logging system: whatever the threads do, some thread can always go on. */
module Locks {
  type Tid = int

  /** The mutexes: the manager's, each logger's (the root logger apart), each appender's. */
  datatype Lock = Manager | Child(logger: nat) | Root | Appender(id: nat)

  function Rank(l: Lock): nat {
    match l case Manager => 0 case Child(_) => 1 case Root => 2 case Appender(_) => 3
  }

  datatype Act = Acquire(l: Lock) | Release(l: Lock)

  type Trace = seq<Act>

  // ---------------------------------------------------------------- what the operations lock

  /** An appender in a logger's list; a file appender may reopen its file first. */
  datatype Sink = Sink(id: nat, reopens: bool)

  /** The list a logger iterates over is the one it finds under its own lock, so an operation carries it. `target` is
      None for the root logger. */
  datatype Op =
    | Log(target: Option<nat>, sinks: seq<Sink>, rootSinks: seq<Sink>)
    | AddAppender(target: Option<nat>, id: nat, inherits: bool)
    | EditList(target: Option<nat>)                            // delAppender, clearAppenders
    | SetFormatter(target: Option<nat>, sinks: seq<Sink>)
    | LoggerToYaml(target: Option<nat>, sinks: seq<Sink>)
    | AppenderCall(id: nat)                                    // getFormatter, setFormatter, reopen, toYamlString
    | GetLogger
    | ManagerToYaml(loggers: seq<(Option<nat>, seq<Sink>)>)

  datatype Option<+T> = None | Some(value: T)

  function LoggerLock(target: Option<nat>): Lock {
    if target.Some? then Child(target.value) else Root
  }

  /** Acquire l, do t, release l: a ScopedLockImpl around t (src/thread.h:46-75). */
  function Scoped(l: Lock, t: Trace): Trace {
    [Acquire(l)] + t + [Release(l)]
  }

  /** StdoutLogAppender::log and FileLogAppender::log (src/log.cpp:349-355, 378-390). */
  function SinkLog(s: Sink): Trace {
    (if s.reopens then Scoped(Appender(s.id), []) else []) + Scoped(Appender(s.id), [])
  }

  function SinksLog(ss: seq<Sink>): Trace {
    if ss == [] then [] else SinkLog(ss[0]) + SinksLog(ss[1..])
  }

  /** One short lock per appender (src/log.cpp:312-318, 341-343). */
  function SinksTouch(ss: seq<Sink>): Trace {
    if ss == [] then [] else Scoped(Appender(ss[0].id), []) + SinksTouch(ss[1..])
  }

  function LoggersToYaml(ls: seq<(Option<nat>, seq<Sink>)>): Trace {
    if ls == [] then [] else Scoped(LoggerLock(ls[0].0), SinksTouch(ls[0].1)) + LoggersToYaml(ls[1..])
  }

  /** The lock actions of one call. A child logger without appenders hands the event to the root logger while it holds
      its own lock (src/log.cpp:248-256). */
  function Locking(op: Op): Trace {
    match op
    case Log(target, sinks, rootSinks) =>
      Scoped(LoggerLock(target),
             if sinks != [] then SinksLog(sinks)
             else if target.Some? then Scoped(Root, SinksLog(rootSinks)) else [])
    case AddAppender(target, id, inherits) =>
      Scoped(LoggerLock(target),
             Scoped(Appender(id), []) + if inherits then Scoped(Appender(id), []) else [])
    case EditList(target) => Scoped(LoggerLock(target), [])
    case SetFormatter(target, sinks) => Scoped(LoggerLock(target), SinksTouch(sinks))
    case LoggerToYaml(target, sinks) => Scoped(LoggerLock(target), SinksTouch(sinks))
    case AppenderCall(id) => Scoped(Appender(id), [])
    case GetLogger => Scoped(Manager, [])
    case ManagerToYaml(loggers) => Scoped(Manager, LoggersToYaml(loggers))
  }

  function Program(ops: seq<Op>): Trace {
    if ops == [] then [] else Locking(ops[0]) + Program(ops[1..])
  }

  // ---------------------------------------------------------------- the discipline

  /** Run from the locks in held, t only acquires locks above all it holds then, only releases what it holds, and
      ends with exactly the locks in held. */
  predicate Ordered(held: set<Lock>, t: Trace, end: set<Lock>)
    decreases |t|
  {
    if t == [] then held == end
    else match t[0]
      case Acquire(l) => (forall h :: h in held ==> Rank(h) < Rank(l)) && Ordered(held + {l}, t[1..], end)
      case Release(l) => l in held && Ordered(held - {l}, t[1..], end)
  }

  lemma {:induction false} OrderedAppend(held: set<Lock>, a: Trace, mid: set<Lock>, b: Trace, end: set<Lock>)
    requires Ordered(held, a, mid) && Ordered(mid, b, end)
    ensures Ordered(held, a + b, end)
    decreases |a|
  {
    if a == [] {
      assert a + b == b;
    } else {
      assert (a + b)[0] == a[0] && (a + b)[1..] == a[1..] + b;
      match a[0]
      case Acquire(l) => OrderedAppend(held + {l}, a[1..], mid, b, end);
      case Release(l) => OrderedAppend(held - {l}, a[1..], mid, b, end);
    }
  }

  lemma OrderedScoped(held: set<Lock>, l: Lock, t: Trace)
    requires forall h :: h in held ==> Rank(h) < Rank(l)
    requires Ordered(held + {l}, t, held + {l})
    ensures Ordered(held, Scoped(l, t), held)
  {
    assert l !in held;
    assert (held + {l}) - {l} == held;
    assert [Release(l)][1..] == [];
    assert Ordered(held + {l}, [Release(l)], held);
    OrderedAppend(held + {l}, t, held + {l}, [Release(l)], held);
    var s := [Acquire(l)] + t + [Release(l)];
    assert s[0] == Acquire(l) && s[1..] == t + [Release(l)];
  }

  predicate Below(held: set<Lock>, rank: nat) {
    forall h :: h in held ==> Rank(h) < rank
  }

  lemma OrderedSink(held: set<Lock>, id: nat)
    requires Below(held, 3)
    ensures Ordered(held, Scoped(Appender(id), []), held)
  {
    OrderedScoped(held, Appender(id), []);
  }

  lemma {:induction false} OrderedSinksLog(held: set<Lock>, ss: seq<Sink>)
    requires Below(held, 3)
    ensures Ordered(held, SinksLog(ss), held)
  {
    if ss != [] {
      hide Scoped;
      OrderedSink(held, ss[0].id);
      OrderedAppend(held, if ss[0].reopens then Scoped(Appender(ss[0].id), []) else [], held,
                    Scoped(Appender(ss[0].id), []), held);
      OrderedSinksLog(held, ss[1..]);
      OrderedAppend(held, SinkLog(ss[0]), held, SinksLog(ss[1..]), held);
    }
  }

  lemma {:induction false} OrderedSinksTouch(held: set<Lock>, ss: seq<Sink>)
    requires Below(held, 3)
    ensures Ordered(held, SinksTouch(ss), held)
  {
    if ss != [] {
      hide Scoped;
      OrderedSink(held, ss[0].id);
      OrderedSinksTouch(held, ss[1..]);
      OrderedAppend(held, Scoped(Appender(ss[0].id), []), held, SinksTouch(ss[1..]), held);
    }
  }

  lemma {:induction false} OrderedLoggers(ls: seq<(Option<nat>, seq<Sink>)>)
    ensures Ordered({Manager}, LoggersToYaml(ls), {Manager})
  {
    if ls != [] {
      hide Scoped;
      var l := LoggerLock(ls[0].0);
      OrderedSinksTouch({Manager} + {l}, ls[0].1);
      OrderedScoped({Manager}, l, SinksTouch(ls[0].1));
      OrderedLoggers(ls[1..]);
      OrderedAppend({Manager}, Scoped(l, SinksTouch(ls[0].1)), {Manager}, LoggersToYaml(ls[1..]), {Manager});
    }
  }

  /** Every operation takes its locks in strictly increasing rank, none that it already holds, and gives all back. */
  lemma OperationsAreOrdered(op: Op)
    ensures Ordered({}, Locking(op), {})
  {
    hide Scoped;
    match op
    case Log(target, sinks, rootSinks) =>
      var l := LoggerLock(target);
      if sinks != [] {
        OrderedSinksLog({} + {l}, sinks);
        OrderedScoped({}, l, SinksLog(sinks));
      } else if target.Some? {
        OrderedSinksLog({} + {l} + {Root}, rootSinks);
        OrderedScoped({} + {l}, Root, SinksLog(rootSinks));
        OrderedScoped({}, l, Scoped(Root, SinksLog(rootSinks)));
      } else {
        OrderedScoped({}, l, []);
      }
    case AddAppender(target, id, inherits) =>
      var l := LoggerLock(target);
      OrderedSink({} + {l}, id);
      var again := if inherits then Scoped(Appender(id), []) else [];
      OrderedAppend({} + {l}, Scoped(Appender(id), []), {} + {l}, again, {} + {l});
      OrderedScoped({}, l, Scoped(Appender(id), []) + again);
    case EditList(target) => OrderedScoped({}, LoggerLock(target), []);
    case SetFormatter(target, sinks) =>
      OrderedSinksTouch({} + {LoggerLock(target)}, sinks);
      OrderedScoped({}, LoggerLock(target), SinksTouch(sinks));
    case LoggerToYaml(target, sinks) =>
      OrderedSinksTouch({} + {LoggerLock(target)}, sinks);
      OrderedScoped({}, LoggerLock(target), SinksTouch(sinks));
    case AppenderCall(id) => OrderedSink({}, id);
    case GetLogger => OrderedScoped({}, Manager, []);
    case ManagerToYaml(loggers) =>
      assert {} + {Manager} == {Manager};
      OrderedLoggers(loggers);
      OrderedScoped({}, Manager, LoggersToYaml(loggers));
  }

  lemma {:induction false} ProgramsAreOrdered(ops: seq<Op>)
    ensures Ordered({}, Program(ops), {})
  {
    if ops != [] {
      OperationsAreOrdered(ops[0]);
      ProgramsAreOrdered(ops[1..]);
      OrderedAppend({}, Locking(ops[0]), {}, Program(ops[1..]), {});
    }
  }

  // ---------------------------------------------------------------- what is locked, and under what

  function Acquired(t: Trace): seq<Lock> {
    if t == [] then [] else (if t[0].Acquire? then [t[0].l] else []) + Acquired(t[1..])
  }

  /** The lock of each appender in turn, twice where a file has to be reopened first. */
  function SinkLocks(ss: seq<Sink>): seq<Lock> {
    if ss == [] then []
    else [Appender(ss[0].id)] + (if ss[0].reopens then [Appender(ss[0].id)] else []) + SinkLocks(ss[1..])
  }

  lemma {:induction false} AcquiredAppend(a: Trace, b: Trace)
    ensures Acquired(a + b) == Acquired(a) + Acquired(b)
  {
    if a == [] {
      assert a + b == b;
    } else {
      assert (a + b)[0] == a[0] && (a + b)[1..] == a[1..] + b;
      AcquiredAppend(a[1..], b);
    }
  }

  lemma AcquiredScoped(l: Lock, t: Trace)
    ensures Acquired(Scoped(l, t)) == [l] + Acquired(t)
  {
    AcquiredAppend([Acquire(l)] + t, [Release(l)]);
    AcquiredAppend([Acquire(l)], t);
    assert [Acquire(l)][1..] == [] && [Release(l)][1..] == [];
  }

  lemma AcquiredSink(x: Sink)
    ensures Acquired(SinkLog(x)) == [Appender(x.id)] + if x.reopens then [Appender(x.id)] else []
  {
    AcquiredScoped(Appender(x.id), []);
    AcquiredAppend(if x.reopens then Scoped(Appender(x.id), []) else [], Scoped(Appender(x.id), []));
  }

  lemma {:induction false} AcquiredSinksLog(ss: seq<Sink>)
    ensures Acquired(SinksLog(ss)) == SinkLocks(ss)
  {
    if ss != [] {
      hide SinkLog;
      AcquiredSink(ss[0]);
      AcquiredSinksLog(ss[1..]);
      AcquiredAppend(SinkLog(ss[0]), SinksLog(ss[1..]));
    }
  }

  /** Every lock of an appender is taken while the lock g is held, and so is every other one after g. */
  predicate Under(g: Lock, held: bool, t: Trace)
    decreases |t|
  {
    t == [] || match t[0]
               case Acquire(l) => (held || l == g) && Under(g, true, t[1..])
               case Release(l) => held && Under(g, l != g, t[1..])
  }

  lemma {:induction false} UnderAppend(g: Lock, held: bool, a: Trace, b: Trace)
    requires Under(g, held, a) && Under(g, true, b) && (a == [] ==> held) && forall i :: 0 <= i < |a| ==> a[i] != Release(g)
    ensures Under(g, held, a + b)
    decreases |a|
  {
    if a == [] {
      assert a + b == b;
    } else {
      assert (a + b)[0] == a[0] && (a + b)[1..] == a[1..] + b;
      UnderAppend(g, true, a[1..], b);
    }
  }

  lemma {:induction false} UnderHeld(g: Lock, t: Trace)
    requires forall i :: 0 <= i < |t| ==> t[i] != Release(g)
    ensures Under(g, true, t)
  {
    if t != [] {
      UnderHeld(g, t[1..]);
    }
  }

  /** Nothing in t is about a lock of rank r or below. */
  predicate AllAbove(t: Trace, r: nat) {
    forall i :: 0 <= i < |t| ==> Rank(t[i].l) > r
  }

  lemma UnderScoped(g: Lock, t: Trace)
    requires AllAbove(t, Rank(g))
    ensures Under(g, false, Scoped(g, t))
  {
    var body := t + [Release(g)];
    assert Scoped(g, t)[0] == Acquire(g) && Scoped(g, t)[1..] == body;
    UnderHeld(g, t);
    assert [Release(g)][1..] == [];
    assert Under(g, true, [Release(g)]);
    UnderAppend(g, true, t, [Release(g)]);
  }

  lemma {:induction false} SinksLogAbove(ss: seq<Sink>)
    ensures AllAbove(SinksLog(ss), 2)
  {
    if ss != [] {
      SinksLogAbove(ss[1..]);
    }
  }

  /** What log() locks, in order: the logger; then each of its appenders, or, when it has none and is not the root, the
      root logger and each of the root's appenders; all of it while the logger's own lock is held, so that nobody changes
      the list in between. */
  lemma LogLocksExactly(target: Option<nat>, sinks: seq<Sink>, rootSinks: seq<Sink>)
    ensures var t := Locking(Log(target, sinks, rootSinks));
      var own := if target.Some? then Child(target.value) else Root;
      && Acquired(t) == [own] + (if |sinks| > 0 then SinkLocks(sinks)
                                 else if target.Some? then [Root] + SinkLocks(rootSinks) else [])
      && Under(own, false, t)
  {
    var own := LoggerLock(target);
    hide Scoped, SinksLog, SinkLocks, Acquired, Under, AllAbove;
    if sinks != [] {
      AcquiredSinksLog(sinks);
      SinksLogAbove(sinks);
      AboveMore(SinksLog(sinks), 2, Rank(own));
      AcquiredScoped(own, SinksLog(sinks));
      UnderScoped(own, SinksLog(sinks));
    } else if target.Some? {
      AcquiredSinksLog(rootSinks);
      SinksLogAbove(rootSinks);
      RootAbove(SinksLog(rootSinks));
      AcquiredScoped(Root, SinksLog(rootSinks));
      AcquiredScoped(own, Scoped(Root, SinksLog(rootSinks)));
      UnderScoped(own, Scoped(Root, SinksLog(rootSinks)));
    } else {
      AcquiredScoped(own, []);
      assert Acquired([]) == [] by { NothingAcquired(); }
      assert AllAbove([], Rank(own)) by { AboveNothing(Rank(own)); }
      UnderScoped(own, []);
    }
  }

  function Ids(ss: seq<Sink>): seq<Lock> {
    if ss == [] then [] else [Appender(ss[0].id)] + Ids(ss[1..])
  }

  function LoggerLocks(ls: seq<(Option<nat>, seq<Sink>)>): seq<Lock> {
    if ls == [] then []
    else [if ls[0].0.Some? then Child(ls[0].0.value) else Root] + Ids(ls[0].1) + LoggerLocks(ls[1..])
  }

  lemma {:induction false} AcquiredSinksTouch(ss: seq<Sink>)
    ensures Acquired(SinksTouch(ss)) == Ids(ss)
  {
    if ss != [] {
      hide Scoped;
      NothingAcquired();
      AcquiredScoped(Appender(ss[0].id), []);
      AcquiredSinksTouch(ss[1..]);
      AcquiredAppend(Scoped(Appender(ss[0].id), []), SinksTouch(ss[1..]));
    }
  }

  lemma {:induction false} AcquiredLoggers(ls: seq<(Option<nat>, seq<Sink>)>)
    ensures Acquired(LoggersToYaml(ls)) == LoggerLocks(ls)
  {
    if ls != [] {
      hide Scoped;
      AcquiredSinksTouch(ls[0].1);
      AcquiredScoped(LoggerLock(ls[0].0), SinksTouch(ls[0].1));
      AcquiredLoggers(ls[1..]);
      AcquiredAppend(Scoped(LoggerLock(ls[0].0), SinksTouch(ls[0].1)), LoggersToYaml(ls[1..]));
    }
  }

  /** The locks of the other operations, in order. */
  lemma OtherLocksExactly(op: Op)
    requires !op.Log?
    ensures var t := Acquired(Locking(op));
      match op
      case AddAppender(target, id, inherits) =>
        t == [if target.Some? then Child(target.value) else Root, Appender(id)] + if inherits then [Appender(id)] else []
      case EditList(target) => t == [if target.Some? then Child(target.value) else Root]
      case SetFormatter(target, sinks) => t == [if target.Some? then Child(target.value) else Root] + Ids(sinks)
      case LoggerToYaml(target, sinks) => t == [if target.Some? then Child(target.value) else Root] + Ids(sinks)
      case AppenderCall(id) => t == [Appender(id)]
      case GetLogger => t == [Lock.Manager]
      case ManagerToYaml(loggers) => t == [Lock.Manager] + LoggerLocks(loggers)
  {
    hide Scoped, Acquired;
    NothingAcquired();
    match op
    case AddAppender(target, id, inherits) =>
      var one := Scoped(Appender(id), []);
      AcquiredScoped(Appender(id), []);
      AcquiredAppend(one, if inherits then one else []);
      AcquiredScoped(LoggerLock(target), one + if inherits then one else []);
    case EditList(target) => AcquiredScoped(LoggerLock(target), []);
    case SetFormatter(target, sinks) =>
      AcquiredSinksTouch(sinks);
      AcquiredScoped(LoggerLock(target), SinksTouch(sinks));
    case LoggerToYaml(target, sinks) =>
      AcquiredSinksTouch(sinks);
      AcquiredScoped(LoggerLock(target), SinksTouch(sinks));
    case AppenderCall(id) => AcquiredScoped(Appender(id), []);
    case GetLogger => AcquiredScoped(Manager, []);
    case ManagerToYaml(loggers) =>
      AcquiredLoggers(loggers);
      AcquiredScoped(Manager, LoggersToYaml(loggers));
  }

  lemma NothingAcquired()
    ensures Acquired([]) == []
  {}

  lemma AboveNothing(r: nat)
    ensures AllAbove([], r)
  {}

  lemma AboveMore(t: Trace, r: nat, q: nat)
    requires AllAbove(t, r) && q <= r
    ensures AllAbove(t, q)
  {}

  lemma RootAbove(t: Trace)
    requires AllAbove(t, 2)
    ensures AllAbove(Scoped(Root, t), 1)
  {}

  // ---------------------------------------------------------------- any number of threads

  datatype Thread = Thread(held: set<Lock>, todo: Trace)

  type System = map<Tid, Thread>

  predicate Taken(s: System, l: Lock) {
    exists u :: u in s && l in s[u].held
  }

  /** Thread t can make its next lock action; mutexes are not recursive. */
  predicate CanGo(s: System, t: Tid) {
    t in s && s[t].todo != [] && (s[t].todo[0].Acquire? ==> !Taken(s, s[t].todo[0].l))
  }

  function Go(s: System, t: Tid): System
    requires CanGo(s, t)
  {
    var x := s[t];
    s[t := match x.todo[0]
           case Acquire(l) => Thread(x.held + {l}, x.todo[1..])
           case Release(l) => Thread(x.held - {l}, x.todo[1..])]
  }

  predicate Schedule(s: System, ts: seq<Tid>)
    decreases |ts|
  {
    ts == [] || (CanGo(s, ts[0]) && Schedule(Go(s, ts[0]), ts[1..]))
  }

  function Reach(s: System, ts: seq<Tid>): System
    requires Schedule(s, ts)
    decreases |ts|
  {
    if ts == [] then s else Reach(Go(s, ts[0]), ts[1..])
  }

  /** Threads before their first lock, each with a program of logging calls. */
  ghost predicate Fresh(s: System) {
    forall t :: t in s ==> s[t].held == {} && exists ops :: s[t].todo == Program(ops)
  }

  ghost predicate Disciplined(s: System) {
    && (forall t :: t in s ==> Ordered(s[t].held, s[t].todo, {}))
    && (forall t, u, l :: t in s && u in s && l in s[t].held && l in s[u].held ==> t == u)
  }

  lemma GoKeeps(s: System, t: Tid)
    requires Disciplined(s) && CanGo(s, t)
    ensures Disciplined(Go(s, t))
  {
    assert Ordered(s[t].held, s[t].todo, {});
  }

  lemma {:induction false} ReachKeeps(s: System, ts: seq<Tid>)
    requires Disciplined(s) && Schedule(s, ts)
    ensures Disciplined(Reach(s, ts))
    decreases |ts|
  {
    hide Disciplined, CanGo, Go;
    if ts != [] {
      GoKeeps(s, ts[0]);
      ReachKeeps(Go(s, ts[0]), ts[1..]);
    }
  }

  lemma FreshIsDisciplined(s: System)
    requires Fresh(s)
    ensures Disciplined(s)
  {
    forall t | t in s ensures Ordered(s[t].held, s[t].todo, {}) {
      var ops :| s[t].todo == Program(ops);
      ProgramsAreOrdered(ops);
    }
  }

  // ---------------------------------------------------------------- no deadlock

  predicate Waits(s: System, t: Tid) {
    t in s && s[t].todo != [] && s[t].todo[0].Acquire?
  }

  /** Thread t waits for a lock that u holds. */
  predicate WaitsFor(s: System, t: Tid, u: Tid) {
    Waits(s, t) && u in s && s[t].todo[0].l in s[u].held
  }

  lemma WaitingRises(s: System, t: Tid, u: Tid)
    requires Disciplined(s) && WaitsFor(s, t, u)
    ensures t != u && s[u].todo != []
    ensures Waits(s, u) ==> Rank(s[t].todo[0].l) < Rank(s[u].todo[0].l)
  {
    assert Ordered(s[u].held, s[u].todo, {});
    assert Ordered(s[t].held, s[t].todo, {});
  }

  ghost predicate WaitPath(s: System, p: seq<Tid>) {
    forall i :: 0 <= i < |p| - 1 ==> WaitsFor(s, p[i], p[i+1])
  }

  lemma {:induction false} PathRises(s: System, p: seq<Tid>)
    requires Disciplined(s) && WaitPath(s, p) && |p| > 1 && Waits(s, p[|p|-1])
    ensures Waits(s, p[0]) && Rank(s[p[0]].todo[0].l) < Rank(s[p[|p|-1]].todo[0].l)
    decreases |p|
  {
    hide Disciplined;
    assert WaitsFor(s, p[0], p[1]);
    WaitingRises(s, p[0], p[1]);
    if |p| > 2 {
      var q := p[1..];
      assert forall i :: 0 <= i < |q| ==> q[i] == p[i+1];
      assert WaitsFor(s, p[1], p[2]);
      PathRises(s, q);
    }
  }

  /** A thread that wants a lock of the highest rank wanted has someone to wait for only if that one is not waiting. */
  lemma {:induction false} FollowWaiting(s: System, t: Tid) returns (u: Tid)
    requires Disciplined(s) && t in s && s[t].todo != []
    ensures CanGo(s, u)
    decreases 4 - (if Waits(s, t) then Rank(s[t].todo[0].l) else 4)
  {
    if CanGo(s, t) {
      u := t;
    } else {
      var v :| v in s && s[t].todo[0].l in s[v].held;
      WaitingRises(s, t, v);
      u := FollowWaiting(s, v);
    }
  }

  /** In every reachable state of any threads running any logging calls: unless all are done some thread can go on,
      and the wait-for graph has no cycle, so in particular nobody waits for itself. */
  lemma NoDeadlock(s: System, ts: seq<Tid>)
    requires Fresh(s) && Schedule(s, ts)
    ensures var e := Reach(s, ts);
      && ((exists t :: t in e && e[t].todo != []) ==> exists u :: CanGo(e, u))
      && (forall p :: |p| > 1 && WaitPath(e, p) ==> p[0] != p[|p|-1])
  {
    var e := Reach(s, ts);
    FreshIsDisciplined(s);
    ReachKeeps(s, ts);
    hide Disciplined, Reach, Schedule, Fresh;
    if t :| t in e && e[t].todo != [] {
      var u := FollowWaiting(e, t);
    }
    forall p | |p| > 1 && WaitPath(e, p) ensures p[0] != p[|p|-1] {
      if Waits(e, p[|p|-1]) {
        PathRises(e, p);
      } else {
        assert WaitsFor(e, p[0], p[1]);
      }
    }
  }
}
