/** How much work a scheduler still has: a measure that every step after stop() lowers, except the rounds of an idle
    worker, for tasks of any kind. */
module Drain {
  import opened Protocol
  import opened ProtocolInvariant
  import opened ProtocolSteps
  import opened Shutdown

  // ---------------------------------------------------------------- sums over a map

  ghost function Sum<K>(m: map<K, nat>): nat
    decreases m.Keys
  {
    if exists k :: k in m then
      var k :| k in m;
      m[k] + Sum(m - {k})
    else 0
  }

  lemma {:induction false} SumSplit<K>(m: map<K, nat>, k: K)
    requires k in m
    ensures Sum(m) == m[k] + Sum(m - {k})
    decreases m.Keys
  {
    var i :| i in m && Sum(m) == m[i] + Sum(m - {i});
    if i != k {
      SumSplit(m - {i}, k);
      SumSplit(m - {k}, i);
      assert (m - {i}) - {k} == (m - {k}) - {i};
    }
  }

  /** Two maps that differ at k alone, where m may have nothing. */
  lemma SumUpdate<K>(m: map<K, nat>, m': map<K, nat>, k: K)
    requires m'.Keys == m.Keys + {k}
    requires forall i :: i in m && i != k ==> m'[i] == m[i]
    ensures Sum(m') == Sum(m) - (if k in m then m[k] else 0) + m'[k]
  {
    SumSplit(m', k);
    var a, b := m - {k}, m' - {k};
    assert a.Keys == b.Keys && forall i :: i in a ==> b[i] == a[i];
    assert a == b;
    if k in m {
      SumSplit(m, k);
    } else {
      assert a == m;
    }
  }

  // ---------------------------------------------------------------- the measure

  /** What a queued task costs until it runs, apart from its script. */
  const ENTRY := 5

  /** Steps a script can still cause: its own actions, and all that its spawns, wakes and yields put in the queue. */
  function Size(b: Script): (n: nat)
    ensures n > 0
  {
    match b
    case Done => 1
    case Throw => 1
    case Spawn(_, task, _, rest) => 1 + ENTRY + Size(task) + Size(rest)
    case Yield(_, rest) => 1 + ENTRY + Size(rest)
    case Wake(_, rest) => 1 + ENTRY + Size(rest)
  }

  function BodySize(b: Option<Script>): nat {
    if b.Some? then Size(b.value) else 0
  }

  /** Every fiber's script counts wherever the fiber is, on hold as well. */
  function FiberCosts(fibers: Fibers): map<FiberId, nat> {
    map f | f in fibers :: BodySize(fibers[f].body)
  }

  function TaskSize(t: Task): nat {
    match t case FiberTask(_) => 0 case CallbackTask(body) => Size(body)
  }

  function QueueCost(q: seq<Entry>): nat {
    if q == [] then 0 else ENTRY + TaskSize(q[0].task) + QueueCost(q[1..])
  }

  // A fiber that comes back READY goes to the queue once more.
  function Returning(fibers: Fibers, f: FiberId): nat {
    if Rec(fibers, f).state == READY then ENTRY else 0
  }

  function PhaseCost(fibers: Fibers, ph: Phase): nat {
    match ph
    case Popped(e) => 4 + TaskSize(e.task)
    case Running(_, _) => 3
    case SwappedOut(f, _) => 2 + Returning(fibers, f)
    case Settling(f, _) => 1 + Returning(fibers, f)
    case _ => 0
  }

  function WorkerCost(fibers: Fibers, k: Worker): nat {
    PhaseCost(fibers, k.phase)
    + (if k.phase.NotStarted? then 3 else 0)
    + (if k.idle == TERM then 0 else 1)
    + (if k.phase.Exited? then 0 else 1)
  }

  function Costs(fibers: Fibers, ws: Workers): map<int, nat> {
    map w | w in ws :: WorkerCost(fibers, ws[w])
  }

  function MainCost(m: MainPc): nat {
    match m case Created => 4 case Started => 3 case StopBegun => 2 case StopFlagged => 1 case Joining => 0
  }

  ghost function Measure(s: State): nat {
    QueueCost(s.queue) + Sum(FiberCosts(s.fibers)) + Sum(Costs(s.fibers, s.workers)) + MainCost(s.main)
  }

  // ---------------------------------------------------------------- how steps change it

  lemma {:induction false} QueueCostAppend(q: seq<Entry>, e: Entry)
    ensures QueueCost(q + [e]) == QueueCost(q) + ENTRY + TaskSize(e.task)
  {
    hide TaskSize;
    if q == [] {
      assert q + [e] == [e];
    } else {
      assert (q + [e])[1..] == q[1..] + [e];
      QueueCostAppend(q[1..], e);
    }
  }

  lemma {:induction false} QueueCostRemove(q: seq<Entry>, i: nat)
    requires i < |q|
    ensures QueueCost(RemoveAt(q, i)) == QueueCost(q) - ENTRY - TaskSize(q[i].task)
  {
    hide TaskSize;
    if i == 0 {
      assert RemoveAt(q, 0) == q[1..];
    } else {
      QueueCostRemove(q[1..], i - 1);
      assert RemoveAt(q, i) == [q[0]] + RemoveAt(q[1..], i - 1);
    }
  }

  lemma WorkerCostFrame(fibers: Fibers, k: Worker, f: FiberId, x: FiberRec)
    requires f !in Holds(k)
    ensures WorkerCost(fibers[f := x], k) == WorkerCost(fibers, k)
  {}

  /** One worker moves on and rewrites a fiber that nobody else has. */
  lemma CostMove(s: State, w: int, k: Worker, f: FiberId, x: FiberRec)
    requires w in s.workers
    requires forall v :: v in s.workers && v != w ==> f !in Holds(s.workers[v])
    ensures var s' := SetWorker(SetFiber(s, f, x), w, k);
      Measure(s') == Measure(s) - WorkerCost(s.fibers, s.workers[w]) + WorkerCost(s'.fibers, k)
                     - BodySize(Rec(s.fibers, f).body) + BodySize(x.body)
  {
    hide Holds, WorkerCost, QueueCost, Sum, BodySize;
    var fibers', ws' := s.fibers[f := x], s.workers[w := k];
    forall v | v in s.workers && v != w ensures WorkerCost(fibers', s.workers[v]) == WorkerCost(s.fibers, s.workers[v]) {
      WorkerCostFrame(s.fibers, s.workers[v], f, x);
    }
    SumUpdate(Costs(s.fibers, s.workers), Costs(fibers', ws'), w);
    SumUpdate(FiberCosts(s.fibers), FiberCosts(fibers'), f);
    assert BodySize(None) == 0 by { NoBody(); }
  }

  lemma NoBody()
    ensures BodySize(None) == 0
  {}

  lemma CostHeldMove(s: State, w: int, k: Worker, f: FiberId, x: FiberRec)
    requires Inv(s) && w in s.workers && f in Holds(s.workers[w])
    ensures var s' := SetWorker(SetFiber(s, f, x), w, k);
      Measure(s') == Measure(s) - WorkerCost(s.fibers, s.workers[w]) + WorkerCost(s'.fibers, k)
                     - BodySize(Rec(s.fibers, f).body) + BodySize(x.body)
  {
    hide Inv, WorkerCost, Measure, BodySize;
    OwnersOf(s);
    OthersDoNotHold(s, w, f);
    CostMove(s, w, k, f, x);
  }

  lemma CostStep(s: State, w: int, k: Worker)
    requires w in s.workers
    ensures Measure(SetWorker(s, w, k)) == Measure(s) - WorkerCost(s.fibers, s.workers[w]) + WorkerCost(s.fibers, k)
  {
    hide WorkerCost, QueueCost, Sum, FiberCosts;
    SumUpdate(Costs(s.fibers, s.workers), Costs(s.fibers, s.workers[w := k]), w);
  }

  lemma CostPush(s: State, e: Entry)
    ensures Measure(Push(s, e)) == Measure(s) + ENTRY + TaskSize(e.task)
  {
    QueueCostAppend(s.queue, e);
  }

  lemma CostPushNew(s: State, asFiber: bool, body: Script, pin: int)
    requires Inv(s)
    ensures Measure(PushNew(s, asFiber, body, pin)) == Measure(s) + ENTRY + Size(body)
  {
    hide Inv, WorkerCost, Measure;
    if asFiber {
      var f, x := s.nextId, FiberRec(INIT, Some(body));
      OwnersOf(s);
      NewIdIsFresh(s);
      var w := AnyWorker(s);
      CostMove(s, w, s.workers[w], f, x);
      WorkerCostFrame(s.fibers, s.workers[w], f, x);
      assert s.workers[w := s.workers[w]] == s.workers;
      assert SetWorker(SetFiber(s, f, x), w, s.workers[w]) == SetFiber(s, f, x);
      CostPush(SetFiber(s, f, x), Entry(FiberTask(f), pin));
      MeasureIgnoresId(Push(SetFiber(s, f, x), Entry(FiberTask(f), pin)), f + 1);
    } else {
      CostPush(s, Entry(CallbackTask(body), pin));
    }
  }

  lemma MeasureIgnoresId(s: State, id: FiberId)
    ensures Measure(s.(nextId := id)) == Measure(s)
  {}

  lemma AnyWorker(s: State) returns (w: int)
    requires Inv(s)
    ensures w in s.workers
  {
    hide Owners, States, Counters, Conserved;
    w :| w in s.workers;
  }

  lemma CostScan(s: State, w: int)
    requires Inv(s) && Enabled(s, Scan(w))
    ensures FirstEligible(s.queue, w, s.fibers) < |s.queue| ==> Measure(ScanStep(s, w)) < Measure(s)
    ensures FirstEligible(s.queue, w, s.fibers) == |s.queue| ==> Measure(ScanStep(s, w)) == Measure(s)
  {
    hide Inv;
    var i, k := FirstEligible(s.queue, w, s.fibers), s.workers[w];
    if i < |s.queue| {
      CostStep(s, w, k.(phase := Popped(s.queue[i])));
      QueueCostRemove(s.queue, i);
      hide QueueCost, Sum, TaskSize, Costs, FiberCosts, RemoveAt;
    } else {
      CostStep(s, w, k.(phase := NoTask));
    }
  }

  lemma CostSwapIn(s: State, w: int)
    requires Inv(s) && Enabled(s, SwapIn(w))
    ensures Measure(SwapInStep(s, w)) < Measure(s)
  {
    hide Inv, Measure;
    var k := s.workers[w];
    match k.phase.entry.task
    case FiberTask(f) =>
      CostHeldMove(s, w, k.(phase := Running(f, false)), f, FiberRec(EXEC, Rec(s.fibers, f).body));
    case CallbackTask(body) =>
      if k.cbFiber.Some? {
        CostHeldMove(s, w, k.(phase := Running(k.cbFiber.value, true)), k.cbFiber.value, FiberRec(EXEC, Some(body)));
      } else {
        var f, x := s.nextId, FiberRec(EXEC, Some(body));
        var k' := k.(phase := Running(f, true), cbFiber := Some(f));
        OwnersOf(s);
        NewIdIsFresh(s);
        CostMove(s, w, k', f, x);
        MeasureIgnoresId(SetWorker(SetFiber(s, f, x), w, k'), f + 1);
      }
  }

  /** A task that leaves pays for its return to the queue out of its script. */
  lemma CostSuspend(s: State, w: int, st: FiberState, body: Option<Script>)
    requires Inv(s) && w in s.workers && s.workers[w].phase.Running?
    requires BodySize(body) + (if st == READY then ENTRY else 0) <= BodySize(Rec(s.fibers, s.workers[w].phase.fid).body)
    ensures Measure(Suspend(s, w, st, body)) < Measure(s)
  {
    hide Inv, Measure, BodySize;
    var k := s.workers[w];
    var Running(f, via) := k.phase;
    CostHeldMove(s, w, k.(phase := SwappedOut(f, via)), f, FiberRec(st, body));
  }

  lemma CostContinue(s: State, w: int, rest: Script)
    requires Inv(s) && w in s.workers && s.workers[w].phase.Running?
    ensures Measure(Continue(s, w, rest))
         == Measure(s) - BodySize(Rec(s.fibers, s.workers[w].phase.fid).body) + Size(rest)
  {
    hide Inv, Measure;
    var k := s.workers[w];
    var f, x := k.phase.fid, FiberRec(EXEC, Some(rest));
    CostHeldMove(s, w, k, f, x);
    assert s.workers[w := k] == s.workers;
    assert SetWorker(SetFiber(s, f, x), w, k) == Continue(s, w, rest);
  }

  lemma CostAct(s: State, w: int, wake: Option<FiberId>)
    requires Inv(s) && Enabled(s, Act(w, wake))
    ensures Measure(ActStep(s, w, wake)) < Measure(s)
  {
    hide Inv, Measure, Suspend, Continue, PushNew, Push, Free;
    match Rec(s.fibers, s.workers[w].phase.fid).body
    case None => CostSuspend(s, w, EXCEPT, None);
    case Some(Done) => CostSuspend(s, w, TERM, None);
    case Some(Throw) => CostSuspend(s, w, EXCEPT, Some(Throw));
    case Some(Yield(ready, rest)) => CostSuspend(s, w, if ready then READY else HOLD, Some(rest));
    case Some(Spawn(asFiber, task, pin, rest)) =>
      KeepsContinue(s, w, rest);
      CostContinue(s, w, rest);
      CostPushNew(Continue(s, w, rest), asFiber, task, pin);
    case Some(Wake(pin, rest)) =>
      CostContinue(s, w, rest);
      if wake.Some? {
        CostPush(Continue(s, w, rest), Entry(FiberTask(wake.value), pin));
      }
  }

  lemma CostSettle(s: State, w: int)
    requires Inv(s) && Enabled(s, Settle(w))
    ensures Measure(SettleStep(s, w)) < Measure(s)
  {
    hide Inv, Measure, Push;
    var k := s.workers[w];
    var Settling(f, via) := k.phase;
    var x, k' := Rec(s.fibers, f), k.(phase := AtScan);
    var without := if via then k'.(cbFiber := None) else k';
    if x.state == READY {
      CostStep(s, w, without);
      CostPush(SetWorker(s, w, without), Entry(FiberTask(f), ANY));
    } else if Dead(x.state) {
      if via {
        CostHeldMove(s, w, k', f, FiberRec(INIT, None));
      } else {
        CostStep(s, w, k');
      }
    } else {
      CostHeldMove(s, w, without, f, FiberRec(HOLD, x.body));
    }
  }

  /** The labels of an idle worker's round: nothing found, idle fiber entered, stopping() false, idle fiber left. */
  predicate IdleRound(s: State, l: Label) {
    || (l.Scan? && FirstEligible(s.queue, l.w, s.fibers) == |s.queue|)
    || l.EnterIdle? || l.LeaveIdle?
    || (l.CheckIdle? && !Quiescent(s))
  }

  lemma CostIdle(s: State, l: Label)
    requires Inv(s) && Enabled(s, l)
    requires l.Drop? || l.Decrement? || l.EnterIdle? || l.CheckIdle? || l.LeaveIdle? || l.Quit?
    ensures IdleRound(s, l) ==> Measure(Apply(s, l)) == Measure(s)
    ensures !IdleRound(s, l) ==> Measure(Apply(s, l)) < Measure(s)
  {
    hide Inv, Quiescent, Measure, TaskSize;
    WorkerFacts(s, l.w);
    var s' := Apply(s, l);
    CostStep(s, l.w, s'.workers[l.w]);
    MeasureIgnoresCounters(SetWorker(s, l.w, s'.workers[l.w]), s');
  }

  lemma MeasureIgnoresCounters(s: State, s': State)
    requires s'.queue == s.queue && s'.fibers == s.fibers && s'.workers == s.workers && s'.main == s.main
    ensures Measure(s') == Measure(s)
  {}

  lemma CostStopRoot(s: State)
    requires Inv(s) && Enabled(s, StopRoot)
    ensures Measure(Apply(s, StopRoot)) < Measure(s)
  {
    hide Owners, States, Counters, Conserved, Quiescent, QueueCost, Sum, Costs, FiberCosts;
    if s.root.Some? {
      var w := s.root.value;
      CostStep(s, w, Apply(s, StopRoot).workers[w]);
    }
  }

  predicate PostStop(m: MainPc) {
    m.StopBegun? || m.StopFlagged? || m.Joining?
  }

  /** After stop() has begun every step lowers the measure, except those of an idle round, which leave it as it is. */
  lemma StepLowersMeasure(s: State, l: Label)
    requires Inv(s) && PostStop(s.main) && Enabled(s, l)
    ensures IdleRound(s, l) ==> Measure(Apply(s, l)) == Measure(s)
    ensures !IdleRound(s, l) ==> Measure(Apply(s, l)) < Measure(s)
    ensures PostStop(Apply(s, l).main)
  {
    if ByWorker(l) {
      WorkerEffect(s, l);
      hide Inv, Measure, Free, Quiescent, ActStep, SwapInStep, SettleStep, ScanStep;
      match l
      case Scan(w) => CostScan(s, w);
      case SwapIn(w) => CostSwapIn(s, w);
      case Act(w, wake) => CostAct(s, w, wake);
      case Settle(w) => CostSettle(s, w);
      case Decrement(_) => CostIdle(s, l);
      case Drop(_) => CostIdle(s, l);
      case EnterIdle(_) => CostIdle(s, l);
      case CheckIdle(_) => CostIdle(s, l);
      case LeaveIdle(_) => CostIdle(s, l);
      case Quit(_) => CostIdle(s, l);
    } else if l.StopRoot? {
      hide Inv, Measure, Quiescent;
      CostStopRoot(s);
    } else {
      hide Inv, QueueCost, Sum, Costs, FiberCosts;
    }
  }

  /** Steps of ls outside idle rounds. */
  function Work(s: State, ls: seq<Label>): nat
    requires Runs(s, ls)
    decreases |ls|
  {
    if ls == [] then 0
    else (if IdleRound(s, ls[0]) then 0 else 1) + Work(Apply(s, ls[0]), ls[1..])
  }

  /** Whatever the tasks and the schedule, a run after stop() has a bounded number of steps that are not idle rounds. */
  lemma {:induction false} BoundedWork(s: State, ls: seq<Label>)
    requires Inv(s) && PostStop(s.main) && Runs(s, ls)
    ensures Work(s, ls) + Measure(After(s, ls)) <= Measure(s)
    decreases |ls|
  {
    hide Inv, Enabled, Apply, IdleRound, Measure;
    if ls != [] {
      Keeps(s, ls[0]);
      StepLowersMeasure(s, ls[0]);
      BoundedWork(Apply(s, ls[0]), ls[1..]);
    }
  }
}
