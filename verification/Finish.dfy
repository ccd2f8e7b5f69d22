/** When stop() can finish: for exactly which tasks, on which workers, every state after stop() began has a way to the
    end. */
module Finish {
  import opened Protocol
  import opened ProtocolInvariant
  import opened ProtocolSteps
  import opened Shutdown
  import opened Bypass
  import opened Stranding
  import opened Drain

  // ---------------------------------------------------------------- what holds all along after stop()

  /** Tasks are pinned to existing workers, if at all. */
  predicate PinsInside(r: Rules, ids: set<int>) {
    r.pins.Some? && forall p :: p in r.pins.value ==> p == ANY || p in ids
  }

  /** At most one worker. */
  predicate Alone(ids: set<int>) {
    forall v, w :: v in ids && w in ids ==> v == w
  }

  /** A worker's idle fiber ends only when nothing is left, and then the worker is not about to requeue a fiber. */
  ghost predicate LeavesCleanly(s: State) {
    forall w :: w in s.workers && (s.workers[w].idle == TERM || s.workers[w].phase.Exited?) ==>
      Quiescent(s) && !s.workers[w].phase.Settling?
  }

  /** The three ways in which a queued task always has a worker that will still look for it. */
  ghost predicate Orderly(r: Rules, s: State) {
    || (!r.mayReady && LeavesOnlyQuiescent(s))
    || (Alone(s.workers.Keys) && LeavesCleanly(s))
    || (PinsNothing(r) && Covered(s))
  }

  /** The only worker cannot end its idle fiber while it still holds a READY fiber itself. */
  lemma LeavesCleanlyKept(s: State, l: Label)
    requires Inv(s) && Alone(s.workers.Keys) && LeavesCleanly(s) && Enabled(s, l)
    ensures LeavesCleanly(Apply(s, l))
  {
    OwnersOf(s);
    if forall w :: w in s.workers ==> s.workers[w].idle != TERM && !s.workers[w].phase.Exited? {
      OnlyWorkerStays(s, l);
    } else {
      var w :| w in s.workers && (s.workers[w].idle == TERM || s.workers[w].phase.Exited?);
      NobodyActive(s, w);
      assert forall v :: v in s.workers ==> v in s.workers.Keys;
      OnlyWorkerDone(s, l, w);
    }
  }

  lemma OnlyWorkerStays(s: State, l: Label)
    requires Inv(s) && Alone(s.workers.Keys) && Enabled(s, l)
    requires forall w :: w in s.workers ==> s.workers[w].idle != TERM && !s.workers[w].phase.Exited?
    ensures LeavesCleanly(Apply(s, l))
  {
    OwnersOf(s);
    hide Inv, Free, Holds, PushNew, Owners, States, Counters, Conserved;
    if !Quiescent(s) {
      NobodyLeaves(s, l);
    } else if l.CheckIdle? {
      assert forall v :: v in s.workers ==> v in s.workers.Keys;
    } else if ByWorker(l) {
      WorkerEffect(s, l);
      QuitNeedsTerm(s, l);
      hide Apply, Enabled, Quiescent;
    }
  }

  lemma OnlyWorkerDone(s: State, l: Label, w: int)
    requires Shape(s) && Quiescent(s) && Enabled(s, l) && w in s.workers && forall v :: v in s.workers ==> v == w
    requires !Counted(s.workers[w].phase) && !s.workers[w].phase.Settling?
    ensures LeavesCleanly(Apply(s, l))
  {
    hide Free, Holds, PushNew;
  }

  lemma OrderlyKept(r: Rules, s: State, l: Label)
    requires Inv(s) && Obeys(r, s) && Orderly(r, s) && Enabled(s, l)
    ensures Orderly(r, Apply(s, l))
  {
    SameWorkers(s, l);
    hide Inv, Obeys, LeavesOnlyQuiescent, LeavesCleanly, Covered, Apply, Enabled;
    if !r.mayReady && LeavesOnlyQuiescent(s) {
      LeavingKept(r, s, l);
    } else if Alone(s.workers.Keys) && LeavesCleanly(s) {
      LeavesCleanlyKept(s, l);
    } else {
      CoveredKept(r, s, l);
    }
  }

  ghost predicate Draining(r: Rules, s: State) {
    Inv(s) && Obeys(r, s) && PostStop(s.main) && PinsInside(r, s.workers.Keys) && Orderly(r, s)
  }

  lemma DrainingStep(r: Rules, s: State, l: Label)
    requires Draining(r, s) && Enabled(s, l)
    ensures LabelAllowed(r, l) && Draining(r, Apply(s, l))
    ensures IdleRound(s, l) ==> Measure(Apply(s, l)) == Measure(s)
    ensures !IdleRound(s, l) ==> Measure(Apply(s, l)) < Measure(s)
  {
    hide Inv, Obeys, Orderly, Measure, IdleRound, PinsInside;
    assert LabelAllowed(r, l) by { NotOutside(s, l); hide Apply, Enabled; }
    Keeps(s, l);
    ObeysKept(r, s, l);
    OrderlyKept(r, s, l);
    StepLowersMeasure(s, l);
    SameWorkers(s, l);
    hide Apply, Enabled;
  }

  lemma NotOutside(s: State, l: Label)
    requires PostStop(s.main) && Enabled(s, l)
    ensures !l.OutsideSpawn? && !l.OutsideWake?
  {
    hide Free;
  }

  lemma SameWorkers(s: State, l: Label)
    requires Enabled(s, l)
    ensures Apply(s, l).workers.Keys == s.workers.Keys
  {
    hide Free, Quiescent;
    if ByWorker(l) {
      WorkerEffect(s, l);
      hide Apply;
    } else if l.OutsideSpawn? {
      PushNewFrame(s, l.asFiber, l.body, l.pin);
    } else {
      hide PushNew;
    }
  }

  // Worker w is in its idle round or at its loop head.
  predicate Waiting(k: Worker) {
    k.phase.AtScan? || k.phase.NoTask? || k.phase.InIdle? || k.phase.IdleBack?
  }

  /** If w goes round once more it finds something: an entry for it is queued, or it will see stopping() true. */
  ghost predicate Useful(s: State, w: int) {
    && w in s.workers && Waiting(s.workers[w])
    && (Quiescent(s) || (FirstEligible(s.queue, w, s.fibers) < |s.queue| && !Committed(s.workers[w])))
  }

  // Steps until w's round pays off.
  function Rounds(s: State, w: int): nat
    requires w in s.workers
  {
    var ph := s.workers[w].phase;
    if ph.IdleBack? then 4
    else if s.queue == [] then (if ph.AtScan? then 3 else if ph.NoTask? then 2 else 1)
    else (if ph.NoTask? then 6 else if ph.InIdle? then 5 else 1)
  }

  function NextOfRound(s: State, w: int): Label
    requires w in s.workers && Waiting(s.workers[w])
  {
    match s.workers[w].phase
    case AtScan => Scan(w)
    case NoTask => if s.workers[w].idle == TERM then Quit(w) else EnterIdle(w)
    case InIdle => CheckIdle(w)
    case _ => LeaveIdle(w)
  }

  lemma RoundAdvances(s: State, w: int)
    requires Useful(s, w)
    ensures var l := NextOfRound(s, w);
      Enabled(s, l) && (IdleRound(s, l) ==> Useful(Apply(s, l), w) && Rounds(Apply(s, l), w) < Rounds(s, w))
  {
    hide Free;
  }

  /** Drive w round until the measure has dropped. */
  lemma {:induction false} GoRound(r: Rules, s: State, w: int) returns (ls: seq<Label>)
    requires Draining(r, s) && Useful(s, w)
    ensures Runs(s, ls) && AllAllowed(r, ls) && Draining(r, After(s, ls)) && Measure(After(s, ls)) < Measure(s)
    decreases Rounds(s, w)
  {
    hide Draining, Useful, Enabled, Apply, LabelAllowed, IdleRound, Measure, Rounds;
    var l := Turn(s, w);
    DrainingStep(r, s, l);
    var s' := Apply(s, l);
    if IdleRound(s, l) {
      var rest := GoRound(r, s', w);
      ls := [l] + rest;
      assert ls[1..] == rest;
    } else {
      ls := [l];
      assert ls[1..] == [] && Runs(s', []) && After(s', []) == s';
    }
  }

  lemma Turn(s: State, w: int) returns (l: Label)
    requires Useful(s, w)
    ensures Enabled(s, l) && (IdleRound(s, l) ==> Useful(Apply(s, l), w) && Rounds(Apply(s, l), w) < Rounds(s, w))
  {
    hide Enabled, Apply, IdleRound, Rounds, Quiescent;
    RoundAdvances(s, w);
    l := NextOfRound(s, w);
  }

  /** A worker with a task in hand moves on. */
  function NextOfTask(s: State, w: int): Label
    requires w in s.workers
  {
    match s.workers[w].phase
    case Popped(e) => if Runnable(s, e.task) then SwapIn(w) else Drop(w)
    case Running(_, _) => Act(w, None)
    case SwappedOut(_, _) => Decrement(w)
    case _ => Settle(w)
  }

  predicate HasTask(ph: Phase) {
    ph.Popped? || ph.Running? || ph.SwappedOut? || ph.Settling?
  }

  /** While something is queued, some worker that may take it has not made its last scan. */
  lemma Attended(r: Rules, s: State) returns (w: int)
    requires Draining(r, s) && s.queue != []
    ensures w in s.workers && !Committed(s.workers[w]) && (s.queue[0].thread == ANY || s.queue[0].thread == w)
  {
    hide Conserved, Allowed, FiberAllowed, WorkerAllowed, Owners, States, Counters;
    var e := s.queue[0];
    assert EntryAllowed(r, e);
    assert !Quiescent(s);
    if PinsNothing(r) && Covered(s) {
      w :| w in s.workers && !Committed(s.workers[w]);
    } else {
      w := if e.thread == ANY then var v :| v in s.workers; v else e.thread;
    }
  }

  /** What to do next when the controlling thread is done and nobody has a task in hand: which worker to let go round. */
  lemma SomeoneIsUseful(r: Rules, s: State) returns (w: int)
    requires Draining(r, s) && s.main.Joining? && !AllExited(s)
    requires forall v :: v in s.workers ==> !HasTask(s.workers[v].phase)
    ensures Useful(s, w)
  {
    assert Inv(s);
    OwnersOf(s);
    if s.queue == [] {
      hide Draining, Inv, Conserved, Owners, States;
      assert forall v :: v !in Actives(s.workers);
      assert Actives(s.workers) == {};
      w :| w in s.workers && !s.workers[w].phase.Exited?;
    } else {
      w := Attended(r, s);
      FirstIsEligible(s, w);
      hide Draining, Inv, Conserved, Owners, States, Counters, Quiescent;
    }
  }

  lemma FirstIsEligible(s: State, w: int)
    requires Inv(s) && s.queue != [] && (s.queue[0].thread == ANY || s.queue[0].thread == w)
    ensures FirstEligible(s.queue, w, s.fibers) < |s.queue|
  {
    hide Inv;
    OwnersOf(s);
    hide Shape, Counters, Conserved, Owners, States;
    if s.queue[0].task.FiberTask? {
      QueuedIsNotExec(s, 0);
    }
    assert Eligible(s.queue[0], w, s.fibers);
  }

  lemma OneStep(r: Rules, s: State, l: Label) returns (ls: seq<Label>)
    requires Draining(r, s) && Enabled(s, l) && !IdleRound(s, l)
    ensures Runs(s, ls) && AllAllowed(r, ls) && Draining(r, After(s, ls)) && Measure(After(s, ls)) < Measure(s)
  {
    hide Draining, Enabled, Apply, LabelAllowed, IdleRound, Measure;
    DrainingStep(r, s, l);
    RunsOne(s, l);
    ls := [l];
  }

  lemma NextOfTaskWorks(s: State, w: int)
    requires w in s.workers && HasTask(s.workers[w].phase)
    ensures Enabled(s, NextOfTask(s, w)) && !IdleRound(s, NextOfTask(s, w))
  {
    hide Free;
  }

  lemma PostStopOf(r: Rules, s: State)
    requires Draining(r, s)
    ensures PostStop(s.main)
  {
    hide Inv, Obeys, Orderly, PinsInside;
  }

  lemma NextOfMainWorks(r: Rules, s: State)
    requires Draining(r, s) && !s.main.Joining?
    ensures var l := if s.main.StopBegun? then StopFlag else StopRoot; Enabled(s, l) && !IdleRound(s, l)
  {
    hide Owners, States, Counters, Conserved, Obeys, Orderly, PinsInside;
  }

  lemma Progress(r: Rules, s: State) returns (ls: seq<Label>)
    requires Draining(r, s) && !AllExited(s)
    ensures Runs(s, ls) && AllAllowed(r, ls) && Draining(r, After(s, ls)) && Measure(After(s, ls)) < Measure(s)
  {
    hide Measure, Runs, After, AllAllowed, Draining, Enabled, IdleRound, Useful, NextOfTask;
    PostStopOf(r, s);
    if s.main.Joining? {
      if w :| w in s.workers && HasTask(s.workers[w].phase) {
        var l := NextOfTask(s, w);
        NextOfTaskWorks(s, w);
        ls := OneStep(r, s, l);
      } else {
        var w := SomeoneIsUseful(r, s);
        ls := GoRound(r, s, w);
      }
    } else {
      var l := if s.main.StopBegun? then StopFlag else StopRoot;
      NextOfMainWorks(r, s);
      ls := OneStep(r, s, l);
    }
  }

  lemma {:induction false} DrainFrom(r: Rules, s: State) returns (ls: seq<Label>)
    requires Draining(r, s)
    ensures Runs(s, ls) && AllAllowed(r, ls) && Draining(r, After(s, ls)) && AllExited(After(s, ls))
    decreases Measure(s)
  {
    hide Draining, Measure, AllExited;
    if AllExited(s) {
      ls := [];
    } else {
      hide Runs, After;
      var first := Progress(r, s);
      var rest := DrainFrom(r, After(s, first));
      ls := first + rest;
      RunsConcat(s, first, rest);
    }
  }

  // ---------------------------------------------------------------- from the beginning

  ghost predicate CanFinish(s: State) {
    exists ls :: Runs(s, ls) && AllExited(After(s, ls))
  }

  /** Whatever tasks under r have done on the workers ids by any time after stop() began, all workers can still leave. */
  ghost predicate AlwaysFinishes(r: Rules, ids: set<int>) {
    forall s, before ::
      (Initial(s) && s.workers.Keys == ids && Runs(s, before) && AllAllowed(r, before)
       && PostStop(After(s, before).main)) ==> CanFinish(After(s, before))
  }

  /** YieldToReady and pins do not go together, except on a single worker; and pins must name workers. */
  predicate Finishing(r: Rules, ids: set<int>) {
    PinsInside(r, ids) && (!r.mayReady || PinsNothing(r) || Alone(ids))
  }

  lemma {:induction false} OrderlyRuns(r: Rules, s: State, ls: seq<Label>)
    requires Inv(s) && Obeys(r, s) && Orderly(r, s) && Runs(s, ls) && AllAllowed(r, ls)
    ensures var t := After(s, ls);
      Inv(t) && Obeys(r, t) && Orderly(r, t) && t.workers.Keys == s.workers.Keys
    decreases |ls|
  {
    hide Inv, Obeys, Orderly, Enabled, Apply, LabelAllowed;
    if ls != [] {
      assert LabelAllowed(r, ls[0]);
      Keeps(s, ls[0]);
      ObeysKept(r, s, ls[0]);
      OrderlyKept(r, s, ls[0]);
      SameWorkers(s, ls[0]);
      assert forall i :: 0 <= i < |ls[1..]| ==> ls[1..][i] == ls[i+1];
      OrderlyRuns(r, Apply(s, ls[0]), ls[1..]);
    }
  }

  lemma InitialOrderly(r: Rules, s: State)
    requires Initial(s) && Finishing(r, s.workers.Keys)
    ensures Inv(s) && Obeys(r, s) && Orderly(r, s)
  {
    hide Inv;
    InitialInv(s);
  }

  lemma ExitedMeansDispatched(r: Rules, s: State)
    requires Draining(r, s) && AllExited(s)
    ensures AllDispatched(s)
  {
    if s.queue != [] {
      var w := Attended(r, s);
      assert Committed(s.workers[w]);
    }
    OwnersOf(s);
  }

  /** Shutdown progress: under such rules every state reachable after stop() began has a continuation in which all
      workers leave, and then every scheduled task has been dispatched. */
  lemma StopCanFinish(r: Rules, s: State, before: seq<Label>) returns (ls: seq<Label>)
    requires Finishing(r, s.workers.Keys)
    requires Initial(s) && Runs(s, before) && AllAllowed(r, before) && PostStop(After(s, before).main)
    ensures var t := After(s, before);
      Runs(t, ls) && AllExited(After(t, ls)) && AllDispatched(After(t, ls))
  {
    hide Measure, Inv, Obeys, Orderly, Runs, After, AllAllowed, Initial;
    var t := After(s, before);
    InitialOrderly(r, s);
    OrderlyRuns(r, s, before);
    assert Draining(r, t);
    hide Draining, Finishing;
    ls := DrainFrom(r, t);
    ExitedMeansDispatched(r, After(t, ls));
  }

  // ---------------------------------------------------------------- a pin that names no worker

  /** An entry that no worker may take is queued, and nobody has left or will. */
  ghost predicate Orphaned(s: State) {
    && (exists i :: 0 <= i < |s.queue| && s.queue[i].thread != ANY && s.queue[i].thread !in s.workers)
    && (forall w :: w in s.workers ==> s.workers[w].idle != TERM && !s.workers[w].phase.Exited?)
    && exists w :: w in s.workers
  }

  lemma OrphanedStep(s: State, l: Label)
    requires Orphaned(s) && Enabled(s, l)
    ensures Orphaned(Apply(s, l))
  {
    var i :| 0 <= i < |s.queue| && s.queue[i].thread != ANY && s.queue[i].thread !in s.workers;
    assert !Quiescent(s);
    MovedKeepsEntry(s, l, i);
    SameWorkers(s, l);
    NobodyLeaves(s, l);
    OrphanIsNotMoved(s, l, i);
    hide Apply, Enabled, Quiescent, Moved;
  }

  lemma OrphanIsNotMoved(s: State, l: Label, i: nat)
    requires Enabled(s, l) && i < |s.queue| && s.queue[i].thread != ANY && s.queue[i].thread !in s.workers
    ensures Moved(s, l, i).Some?
  {
    hide Free;
  }

  lemma {:induction false} OrphanedForEver(s: State, ls: seq<Label>)
    requires Orphaned(s) && Runs(s, ls)
    ensures Orphaned(After(s, ls))
    decreases |ls|
  {
    hide Orphaned, Apply, Enabled;
    if ls != [] {
      OrphanedStep(s, ls[0]);
      OrphanedForEver(Apply(s, ls[0]), ls[1..]);
    }
  }

  /** A task pinned to a thread that is no worker, as an outside caller can schedule it, keeps stop() from returning. */
  lemma OrphanHangs(r: Rules, s: State, pin: int) returns (ls: seq<Label>)
    requires Initial(s) && PinAllowed(r, pin) && pin != ANY && pin !in s.workers
    ensures Runs(s, ls) && AllAllowed(r, ls) && PostStop(After(s, ls).main)
    ensures forall more :: Runs(After(s, ls), more) ==> !AllExited(After(After(s, ls), more))
  {
    var spawn := OutsideSpawn(false, Done, pin);
    var s1 := Apply(s, spawn);
    var s2 := Apply(s1, Start);
    var t := Apply(s2, StopBegin);
    assert s1.queue[0].thread == pin && Orphaned(s1);
    OrphanedStep(s1, Start);
    OrphanedStep(s2, StopBegin);
    ls := [spawn, Start, StopBegin];
    ThreeLabels(s, spawn, Start, StopBegin);
    hide Runs, After, Apply, Enabled;
    forall more | Runs(t, more) ensures !AllExited(After(t, more)) {
      OrphanedForEver(t, more);
    }
  }

  lemma ThreeLabels(s: State, a: Label, b: Label, c: Label)
    requires Enabled(s, a) && Enabled(Apply(s, a), b) && Enabled(Apply(Apply(s, a), b), c)
    ensures Runs(s, [a, b, c]) && After(s, [a, b, c]) == Apply(Apply(Apply(s, a), b), c)
  {
    hide Apply, Enabled;
    RunsOne(s, a);
    RunsOne(Apply(s, a), b);
    RunsOne(Apply(Apply(s, a), b), c);
    RunsConcat(Apply(s, a), [b], [c]);
    RunsConcat(s, [a], [b] + [c]);
    assert [a] + ([b] + [c]) == [a, b, c];
  }

  // ---------------------------------------------------------------- exactly

  lemma {:induction false} Outsider(ids: set<int>) returns (p: int)
    ensures p !in ids && forall w :: w in ids ==> w < p
    decreases ids
  {
    if w :| w in ids {
      var q := Outsider(ids - {w});
      assert forall v :: v in ids ==> v == w || v in ids - {w};
      p := if q > w then q else w + 1;
    } else {
      p := 0;
    }
  }

  function NewScheduler(ids: set<int>): State {
    State([], map[], map w | w in ids :: Worker(NotStarted, None, INIT), None, 0, 0, false, true, Created, 0, [], [])
  }

  lemma PinOutsideHangs(r: Rules, ids: set<int>)
    requires (exists w :: w in ids) && ANY !in ids && !PinsInside(r, ids)
    ensures !AlwaysFinishes(r, ids)
  {
    var p: int;
    if r.pins.None? {
      p := Outsider(ids + {ANY});
    } else {
      p :| p in r.pins.value && p != ANY && p !in ids;
    }
    var s := NewScheduler(ids);
    assert Initial(s) by {
      var w :| w in ids;
      assert w in s.workers;
    }
    var ls := OrphanHangs(r, s, p);
    hide Runs, After, Initial, AllAllowed;
    assert s.workers.Keys == ids && !CanFinish(After(s, ls));
  }

  lemma ReadyAndPinsHang(r: Rules, ids: set<int>)
    requires ANY !in ids && PinsInside(r, ids) && r.mayReady && !PinsNothing(r) && !Alone(ids)
    ensures !AlwaysFinishes(r, ids)
  {
    var second :| second in r.pins.value && second != ANY;
    var v, w :| v in ids && w in ids && v != w;
    var first := if v == second then w else v;
    var c := Setup(r, ids, first, second);
    var ls, t := StopCanHang(c);
    var s := FreshWorkers(c);
    assert s.workers.Keys == ids && PostStop(t.main);
    hide Runs, After, AllAllowed, Initial, FreshWorkers;
    assert !CanFinish(After(s, ls));
  }

  /** stop() can always finish on the workers ids for exactly these tasks: pinned to workers if at all, and without
      YieldToReady, or unpinned, or alone on one worker. */
  lemma FinishesExactly(r: Rules, ids: set<int>)
    requires (exists w :: w in ids) && ANY !in ids
    ensures AlwaysFinishes(r, ids) <==> Finishing(r, ids)
  {
    if !PinsInside(r, ids) {
      PinOutsideHangs(r, ids);
    } else if !Finishing(r, ids) {
      ReadyAndPinsHang(r, ids);
    } else {
      forall s, before | Initial(s) && s.workers.Keys == ids && Runs(s, before) && AllAllowed(r, before)
        && PostStop(After(s, before).main) ensures CanFinish(After(s, before))
      {
        var ls := StopCanFinish(r, s, before);
      }
    }
  }
}
