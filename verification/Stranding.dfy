/** A run in which a task that calls YieldToReady and then pins a task to another thread keeps stop() from ever
    returning, for any number of workers above one. */
module Stranding {
  import opened Protocol
  import opened ProtocolInvariant
  import opened ProtocolSteps
  import opened Shutdown
  import opened Bypass

  /** Some workers, two of them named, and rules under which tasks may call YieldToReady and pin to the second one. */
  datatype Setup = Setup(r: Rules, all: set<int>, first: int, second: int) {
    ghost predicate Valid() {
      && first != second && first in all && second in all && ANY !in all
      && r.mayReady && PinAllowed(r, second)
    }

    // Yield once as READY, then schedule a callback pinned to the second worker.
    function Tail(): Script {
      Spawn(false, Done, second, Done)
    }

    function Body(): Script {
      Yield(true, Tail())
    }
  }

  function FreshWorkers(c: Setup): State {
    State([], map[], map w | w in c.all :: Worker(NotStarted, None, INIT), None,
          0, 0, false, true, Created, 0, [], [])
  }

  /** t is what the allowed labels ls make of the fresh workers. */
  ghost predicate Reached(c: Setup, ls: seq<Label>, t: State) {
    Runs(FreshWorkers(c), ls) && After(FreshWorkers(c), ls) == t && AllAllowed(c.r, ls)
  }

  lemma Go(c: Setup, ls: seq<Label>, t: State, l: Label)
    requires c.Valid()
    requires Reached(c, ls, t) && Enabled(t, l) && LabelAllowed(c.r, l)
    ensures Reached(c, ls + [l], Apply(t, l))
  {
    hide Apply, Enabled, FreshWorkers, LabelAllowed;
    RunsOne(t, l);
    RunsConcat(FreshWorkers(c), ls, [l]);
  }

  // The first worker has swapped the yielding fiber out and decremented the counter; the second is at its loop head.
  ghost predicate BetweenDecrementAndRequeue(c: Setup, t: State) {
    && c.first in c.all && c.second in c.all && t.workers.Keys == c.all
    && t.root == None && t.main == Joining && t.autoStop && t.stopping
    && t.queue == [] && t.active == 0
    && t.workers[c.first] == Worker(Settling(0, false), None, INIT)
    && t.workers[c.second] == Worker(AtScan, None, INIT)
    && Rec(t.fibers, 0) == FiberRec(READY, Some(c.Tail()))
  }

  lemma YieldDuringStop(c: Setup) returns (ls: seq<Label>, t: State)
    requires c.Valid()
    ensures Reached(c, ls, t) && BetweenDecrementAndRequeue(c, t)
  {
    hide Reached, Quiescent;
    ls, t := [], FreshWorkers(c);
    assert Reached(c, [], t) by { FreshReached(c); }
    assert Allowed(c.r, Done) && Allowed(c.r, c.Tail()) && Allowed(c.r, c.Body());
    Go(c, ls, t, OutsideSpawn(true, c.Body(), ANY));
    ls, t := ls + [OutsideSpawn(true, c.Body(), ANY)], Apply(t, OutsideSpawn(true, c.Body(), ANY));
    assert t.queue == [Entry(FiberTask(0), ANY)] && Rec(t.fibers, 0) == FiberRec(INIT, Some(c.Body()));
    Go(c, ls, t, Start);
    ls, t := ls + [Start], Apply(t, Start);
    assert t.workers == map w | w in c.all :: Worker(AtScan, None, INIT);
    ls, t := StopNow(c, ls, t);
    ls, t := RunAndYield(c, ls, t);
  }

  lemma FreshReached(c: Setup)
    ensures Reached(c, [], FreshWorkers(c))
  {}

  lemma StopNow(c: Setup, ls0: seq<Label>, t0: State) returns (ls: seq<Label>, t: State)
    requires c.Valid()
    requires Reached(c, ls0, t0) && t0.main == Started && t0.root == None
    ensures Reached(c, ls, t) && t == t0.(autoStop := true, stopping := true, main := Joining)
  {
    hide Reached, Free, Holds;
    ls, t := ls0, t0;
    Go(c, ls, t, StopBegin);
    ls, t := ls + [StopBegin], Apply(t, StopBegin);
    Go(c, ls, t, StopFlag);
    ls, t := ls + [StopFlag], Apply(t, StopFlag);
    Go(c, ls, t, StopRoot);
    ls, t := ls + [StopRoot], Apply(t, StopRoot);
  }

  lemma RunAndYield(c: Setup, ls0: seq<Label>, t0: State) returns (ls: seq<Label>, t: State)
    requires c.Valid()
    requires Reached(c, ls0, t0) && t0.main == Joining && t0.autoStop && t0.stopping && t0.root == None && t0.active == 0
    requires t0.workers == map w | w in c.all :: Worker(AtScan, None, INIT)
    requires t0.queue == [Entry(FiberTask(0), ANY)] && Rec(t0.fibers, 0) == FiberRec(INIT, Some(c.Body()))
    ensures Reached(c, ls, t) && BetweenDecrementAndRequeue(c, t)
  {
    hide Reached, Free, Holds;
    ls, t := ls0, t0;
    assert Eligible(t.queue[0], c.first, t.fibers);
    Go(c, ls, t, Scan(c.first));
    ls, t := ls + [Scan(c.first)], Apply(t, Scan(c.first));
    assert t.queue == [] && t.workers[c.first].phase == Popped(Entry(FiberTask(0), ANY)) && t.active == 1;
    Go(c, ls, t, SwapIn(c.first));
    ls, t := ls + [SwapIn(c.first)], Apply(t, SwapIn(c.first));
    assert Rec(t.fibers, 0) == FiberRec(EXEC, Some(c.Body()));
    assert t.workers[c.first] == Worker(Running(0, false), None, INIT);
    ls, t := YieldOnce(c, ls, t);
  }

  lemma YieldOnce(c: Setup, ls0: seq<Label>, t0: State) returns (ls: seq<Label>, t: State)
    requires c.Valid()
    requires Reached(c, ls0, t0) && t0.main == Joining && t0.autoStop && t0.stopping && t0.root == None && t0.active == 1
    requires t0.workers.Keys == c.all && t0.workers[c.first] == Worker(Running(0, false), None, INIT)
    requires t0.workers[c.second] == Worker(AtScan, None, INIT)
    requires t0.queue == [] && Rec(t0.fibers, 0) == FiberRec(EXEC, Some(c.Body()))
    ensures Reached(c, ls, t) && BetweenDecrementAndRequeue(c, t)
  {
    hide Reached, Free, Holds;
    ls, t := ls0, t0;
    Go(c, ls, t, Act(c.first, None));
    ls, t := ls + [Act(c.first, None)], Apply(t, Act(c.first, None));
    assert Rec(t.fibers, 0) == FiberRec(READY, Some(c.Tail())) && t.workers[c.first].phase == SwappedOut(0, false);
    Go(c, ls, t, Decrement(c.first));
    ls, t := ls + [Decrement(c.first)], Apply(t, Decrement(c.first));
  }

  // The second worker has found stopping() true, and left.
  ghost predicate SecondLeft(c: Setup, t: State) {
    && c.first in c.all && c.second in c.all && t.workers.Keys == c.all && t.root == None && t.main == Joining
    && t.queue == []
    && t.workers[c.first] == Worker(Settling(0, false), None, INIT)
    && t.workers[c.second].phase == Exited
    && Rec(t.fibers, 0) == FiberRec(READY, Some(c.Tail()))
  }

  lemma SecondLeaves(c: Setup, ls0: seq<Label>, t0: State) returns (ls: seq<Label>, t: State)
    requires c.Valid()
    requires Reached(c, ls0, t0) && BetweenDecrementAndRequeue(c, t0)
    ensures Reached(c, ls, t) && SecondLeft(c, t)
  {
    hide Reached, Free, Holds;
    ls, t := ls0, t0;
    Go(c, ls, t, Scan(c.second));
    ls, t := ls + [Scan(c.second)], Apply(t, Scan(c.second));
    assert t.workers[c.second].phase == NoTask && t.workers[c.second].idle == INIT;
    Go(c, ls, t, EnterIdle(c.second));
    ls, t := ls + [EnterIdle(c.second)], Apply(t, EnterIdle(c.second));
    assert t.workers[c.second].phase == InIdle && Quiescent(t);
    Go(c, ls, t, CheckIdle(c.second));
    ls, t := ls + [CheckIdle(c.second)], Apply(t, CheckIdle(c.second));
    assert t.workers[c.second].phase == IdleBack && t.workers[c.second].idle == TERM;
    ls, t := SecondQuits(c, ls, t);
  }

  lemma SecondQuits(c: Setup, ls0: seq<Label>, t0: State) returns (ls: seq<Label>, t: State)
    requires c.Valid()
    requires Reached(c, ls0, t0) && t0.workers.Keys == c.all && t0.root == None && t0.main == Joining && t0.queue == []
    requires t0.workers[c.first] == Worker(Settling(0, false), None, INIT)
    requires t0.workers[c.second] == Worker(IdleBack, None, TERM) && Rec(t0.fibers, 0) == FiberRec(READY, Some(c.Tail()))
    ensures Reached(c, ls, t) && SecondLeft(c, t)
  {
    hide Reached, Free, Holds, Quiescent;
    ls, t := ls0, t0;
    Go(c, ls, t, LeaveIdle(c.second));
    ls, t := ls + [LeaveIdle(c.second)], Apply(t, LeaveIdle(c.second));
    assert t.workers[c.second].phase == AtScan && t.workers[c.second].idle == TERM && t.queue == [];
    Go(c, ls, t, Scan(c.second));
    ls, t := ls + [Scan(c.second)], Apply(t, Scan(c.second));
    assert t.workers[c.second].phase == NoTask && t.workers[c.second].idle == TERM;
    Go(c, ls, t, Quit(c.second));
    ls, t := ls + [Quit(c.second)], Apply(t, Quit(c.second));
  }

  lemma FirstPinsToSecond(c: Setup, ls0: seq<Label>, t0: State) returns (ls: seq<Label>, t: State)
    requires c.Valid()
    requires Reached(c, ls0, t0) && SecondLeft(c, t0)
    ensures Reached(c, ls, t) && Stranded(t, c.second) && t.main == Joining && t.workers.Keys == c.all
    ensures t.workers[c.first].idle == INIT && !t.workers[c.first].phase.Exited?
  {
    hide Reached, Quiescent;
    ls, t := ls0, t0;
    Go(c, ls, t, Settle(c.first));
    ls, t := ls + [Settle(c.first)], Apply(t, Settle(c.first));
    assert t.queue == [Entry(FiberTask(0), ANY)] && t.workers[c.first] == Worker(AtScan, None, INIT);
    assert Eligible(t.queue[0], c.first, t.fibers);
    Go(c, ls, t, Scan(c.first));
    ls, t := ls + [Scan(c.first)], Apply(t, Scan(c.first));
    assert t.queue == [] && t.workers[c.first] == Worker(Popped(Entry(FiberTask(0), ANY)), None, INIT);
    ls, t := FirstRunsTail(c, ls, t);
  }

  lemma FirstRunsTail(c: Setup, ls0: seq<Label>, t0: State) returns (ls: seq<Label>, t: State)
    requires c.Valid()
    requires Reached(c, ls0, t0) && t0.workers.Keys == c.all && t0.root == None && t0.main == Joining && t0.queue == []
    requires t0.workers[c.first] == Worker(Popped(Entry(FiberTask(0), ANY)), None, INIT)
    requires t0.workers[c.second].phase == Exited && Rec(t0.fibers, 0) == FiberRec(READY, Some(c.Tail()))
    ensures Reached(c, ls, t) && Stranded(t, c.second) && t.main == Joining && t.workers.Keys == c.all
    ensures t.workers[c.first].idle == INIT && !t.workers[c.first].phase.Exited?
  {
    hide Reached, Quiescent, Free, Holds;
    ls, t := ls0, t0;
    Go(c, ls, t, SwapIn(c.first));
    ls, t := ls + [SwapIn(c.first)], Apply(t, SwapIn(c.first));
    assert Rec(t.fibers, 0) == FiberRec(EXEC, Some(c.Tail()));
    assert t.workers[c.first] == Worker(Running(0, false), None, INIT);
    Go(c, ls, t, Act(c.first, None));
    ls, t := ls + [Act(c.first, None)], Apply(t, Act(c.first, None));
    assert t.queue == [Entry(CallbackTask(Done), c.second)] && t.queue[0].thread == c.second;
  }

  lemma FreshWorkersInitial(c: Setup)
    requires c.Valid()
    ensures Initial(FreshWorkers(c))
  {
    assert c.first in FreshWorkers(c).workers;
  }

  /** YieldToReady and pins together: in some run the second worker leaves, a task pinned to it is queued afterwards, and
      in no continuation does the first worker ever leave, so stop() does not return. */
  lemma StopCanHang(c: Setup) returns (ls: seq<Label>, t: State)
    requires c.Valid()
    ensures Initial(FreshWorkers(c)) && Runs(FreshWorkers(c), ls) && After(FreshWorkers(c), ls) == t
    ensures AllAllowed(c.r, ls) && Stranded(t, c.second) && t.main.Joining?
    ensures forall more :: Runs(t, more) ==> After(t, more).queue != [] && !AllExited(After(t, more))
  {
    ls, t := YieldDuringStop(c);
    ls, t := SecondLeaves(c, ls, t);
    ls, t := FirstPinsToSecond(c, ls, t);
    FreshWorkersInitial(c);
    forall more | Runs(t, more)
      ensures After(t, more).queue != [] && !AllExited(After(t, more))
    {
      hide Runs, After, Reached, AllAllowed;
      StrandedForEver(t, more, c.second);
      assert c.first in t.workers;
      assert !After(t, more).workers[c.first].phase.Exited?;
    }
  }

  // ---------------------------------------------------------------- exactly these rules

  /** Under r no worker of any scheduler ever leaves behind a task that only it could take. */
  ghost predicate NeverStrands(r: Rules) {
    forall s, ls, t :: Initial(s) && Runs(s, ls) && AllAllowed(r, ls) ==> !Stranded(After(s, ls), t)
  }

  lemma UnpinnedNeverStrands(r: Rules, s: State, ls: seq<Label>, t: int)
    requires PinsNothing(r) && Initial(s) && Runs(s, ls) && AllAllowed(r, ls)
    ensures !Stranded(After(s, ls), t)
  {
    assert Inv(s) by { InitialInv(s); }
    assert Obeys(r, s) by { hide Inv; }
    ObeysRuns(r, s, ls);
    hide Inv, Runs, After, AllAllowed, Initial, TaskAllowed;
    var e := After(s, ls);
    forall i | 0 <= i < |e.queue| ensures e.queue[i].thread == ANY {
      assert EntryAllowed(r, e.queue[i]);
    }
  }

  lemma NoYieldNeverStrands(r: Rules, s: State, ls: seq<Label>, t: int)
    requires !r.mayReady && Initial(s) && Runs(s, ls) && AllAllowed(r, ls)
    ensures !Stranded(After(s, ls), t)
  {
    ShutdownIsSafe(r, s, ls);
  }

  /** Exactly tasks that never call YieldToReady, and tasks that never pin, keep every worker from leaving behind a task
      that only it could take. Whether stop() can return is another question (module Finish). */
  lemma StrandsExactly(r: Rules)
    ensures NeverStrands(r) <==> !r.mayReady || PinsNothing(r)
  {
    if !r.mayReady || PinsNothing(r) {
      forall s, ls, t | Initial(s) && Runs(s, ls) && AllAllowed(r, ls) ensures !Stranded(After(s, ls), t) {
        if r.mayReady {
          UnpinnedNeverStrands(r, s, ls, t);
        } else {
          NoYieldNeverStrands(r, s, ls, t);
        }
      }
    } else {
      var pin: int := if r.pins.None? then 0 else var p :| p in r.pins.value && p != ANY; p;
      var first := if pin == 0 then 1 else 0;
      var c := Setup(r, {first, pin}, first, pin);
      var ls, t := StopCanHang(c);
      assert Stranded(After(FreshWorkers(c), ls), pin);
    }
  }
}
