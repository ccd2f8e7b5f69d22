/** Every step keeps the invariant, so it holds in every reachable state, and the state assertions of swapIn and reset
    (src/fiber.cpp:111, 127) cannot fail. */
module ProtocolSteps {
  import opened Protocol
  import opened ProtocolInvariant

  lemma OthersDoNotHold(s: State, w: int, f: FiberId)
    requires Owners(s.queue, s.workers, s.fibers.Keys)
    requires w in s.workers && f in Holds(s.workers[w])
    ensures forall v :: v in s.workers && v != w ==> f !in Holds(s.workers[v])
    ensures forall i :: 0 <= i < |s.queue| ==> s.queue[i].task != FiberTask(f)
  {
    hide Holds;
    assert forall v :: v in s.workers && v != w ==> Holds(s.workers[v]) !! Holds(s.workers[w]);
  }

  lemma NewIdIsFresh(s: State)
    requires Owners(s.queue, s.workers, s.fibers.Keys) && Shape(s)
    ensures s.nextId !in s.fibers && Fresh(s.queue, s.workers, s.nextId)
  {
    hide Holds;
    assert forall i :: 0 <= i < |s.queue| && s.queue[i].task.FiberTask? ==> s.queue[i].task.fid in s.fibers.Keys;
    assert forall w :: w in s.workers ==> Holds(s.workers[w]) <= s.fibers.Keys;
  }

  lemma FreeIsFresh(s: State, f: FiberId)
    requires Free(s, f)
    ensures Fresh(s.queue, s.workers, f)
  {
    hide Holds;
  }

  // ---------------------------------------------------------------- scheduling

  lemma KeepsPush(s: State, e: Entry)
    requires Inv(s)
    requires e.task.FiberTask? ==> e.task.fid in s.fibers && Fresh(s.queue, s.workers, e.task.fid)
    ensures Inv(Push(s, e))
  {
    hide WorkerOk, ExecMeansRunning;
    OwnersPush(s.queue, s.workers, s.fibers.Keys, e, s.fibers.Keys);
    ConservedPush(s, e);
  }

  lemma ConservedSame(s: State, s': State)
    requires Conserved(s)
    requires s'.queue == s.queue && s'.scheduled == s.scheduled && s'.dispatched == s.dispatched
    ensures Conserved(s')
  {
    hide Taken;
  }

  lemma KeepsNewFiber(s: State, body: Script)
    requires Inv(s)
    ensures var s' := SetFiber(s, s.nextId, FiberRec(INIT, Some(body))).(nextId := s.nextId + 1);
            Inv(s') && s.nextId in s'.fibers && Fresh(s'.queue, s'.workers, s.nextId)
  {
    hide Owners, States, Conserved, Actives, Idles, Holds;
    var f, r := s.nextId, FiberRec(INIT, Some(body));
    NewIdIsFresh(s);
    ConservedSame(s, SetFiber(s, f, r).(nextId := f + 1));
    StatesNewFiber(s.fibers, s.workers, f, r);
    assert s.fibers[f := r].Keys == s.fibers.Keys + {f};
    OwnersWiden(s.queue, s.workers, s.fibers.Keys, s.fibers.Keys + {f});
  }

  lemma OwnersWiden(q: seq<Entry>, ws: Workers, ids: set<FiberId>, ids': set<FiberId>)
    requires Owners(q, ws, ids) && ids <= ids'
    ensures Owners(q, ws, ids')
  {
    hide Holds;
  }

  lemma KeepsPushNew(s: State, asFiber: bool, body: Script, pin: int)
    requires Inv(s)
    ensures Inv(PushNew(s, asFiber, body, pin))
  {
    hide Inv;
    if asFiber {
      var s' := SetFiber(s, s.nextId, FiberRec(INIT, Some(body))).(nextId := s.nextId + 1);
      KeepsNewFiber(s, body);
      KeepsPush(s', Entry(FiberTask(s.nextId), pin));
      assert PushNew(s, asFiber, body, pin) == Push(s', Entry(FiberTask(s.nextId), pin));
    } else {
      KeepsPush(s, Entry(CallbackTask(body), pin));
    }
  }

  // ---------------------------------------------------------------- the worker's loop

  /** A step of one worker that touches one fiber it holds and leaves the queue alone. */
  lemma KeepsFiberMove(s: State, w: int, k: Worker, f: FiberId, r: FiberRec)
    requires Inv(s) && w in s.workers && !s.workers[w].phase.NotStarted? && !k.phase.NotStarted?
    requires f in Holds(s.workers[w]) && Holds(k) <= Holds(s.workers[w])
    requires WorkerOk(s.fibers[f := r], k)
    requires k.phase.Running? ==> k.phase.fid == f
    requires s.workers[w].phase.Running? ==> s.workers[w].phase.fid == f
    requires r.state == EXEC ==> k.phase.Running?
    ensures Inv(SetWorker(SetFiber(s, f, r), w, k)
                .(active := s.active + Bit(Counted(k.phase)) - Bit(Counted(s.workers[w].phase)),
                  idling := s.idling + Bit(Idling(k.phase)) - Bit(Idling(s.workers[w].phase))))
  {
    hide WorkerOk, ExecMeansRunning, Holds, Counted, Idling;
    CountersUpdate(s.workers, w, k);
    OthersDoNotHold(s, w, f);
    StatesUpdate(s.fibers, s.workers, w, k, f, r);
    assert Holds(s.workers[w]) <= s.fibers.Keys;
    assert s.fibers[f := r].Keys == s.fibers.Keys;
    OwnersShrink(s.queue, s.workers, s.fibers.Keys, w, k, s.fibers.Keys);
  }

  /** A step of one worker that touches neither queue nor fibers. */
  lemma KeepsMove(s: State, w: int, k: Worker)
    requires Inv(s) && w in s.workers && !s.workers[w].phase.NotStarted? && !k.phase.NotStarted?
    requires Holds(k) <= Holds(s.workers[w])
    requires WorkerOk(s.fibers, k)
    requires !k.phase.Running? && !s.workers[w].phase.Running?
    ensures Inv(SetWorker(s, w, k)
                .(active := s.active + Bit(Counted(k.phase)) - Bit(Counted(s.workers[w].phase)),
                  idling := s.idling + Bit(Idling(k.phase)) - Bit(Idling(s.workers[w].phase))))
  {
    hide WorkerOk, ExecMeansRunning, Holds, Counted, Idling;
    CountersUpdate(s.workers, w, k);
    StatesMove(s.fibers, s.workers, w, k);
    OwnersShrink(s.queue, s.workers, s.fibers.Keys, w, k, s.fibers.Keys);
  }

  lemma WorkerFacts(s: State, w: int)
    requires Inv(s) && w in s.workers
    ensures WorkerOk(s.fibers, s.workers[w])
    ensures Holds(s.workers[w]) <= s.fibers.Keys
  {
    hide WorkerOk, Holds, ExecMeansRunning;
  }

  lemma PoppedWorkerOk(s: State, w: int, i: nat)
    requires Owners(s.queue, s.workers, s.fibers.Keys) && States(s.fibers, s.workers)
    requires w in s.workers && s.workers[w].phase.AtScan? && i < |s.queue|
    ensures var k := s.workers[w].(phase := Popped(s.queue[i]));
      WorkerOk(s.fibers, k) && Holds(k) <= Holds(s.workers[w]) + TaskFiber(s.queue[i].task)
  {
    hide ExecMeansRunning;
    var k := s.workers[w];
    assert WorkerOk(s.fibers, k);
    assert s.queue[i].task.FiberTask? ==> s.queue[i].task.fid !in Holds(k);
  }

  lemma KeepsPop(s: State, w: int, i: nat)
    requires Inv(s) && Enabled(s, Scan(w))
    requires i < |s.queue| && Eligible(s.queue[i], w, s.fibers)
    ensures Inv(SetPhase(s, w, Popped(s.queue[i]))
                .(queue := RemoveAt(s.queue, i), active := s.active + 1,
                  dispatched := s.dispatched + [Dispatch(s.queue[i], w)]))
  {
    hide Owners, States, Holds, WorkerOk, RemoveAt, Taken, Actives, Idles;
    var k' := s.workers[w].(phase := Popped(s.queue[i]));
    PoppedWorkerOk(s, w, i);
    CountersUpdate(s.workers, w, k');
    OwnersPop(s.queue, s.workers, s.fibers.Keys, w, k', i);
    StatesMove(s.fibers, s.workers, w, k');
    ConservedPop(s, i, w);
  }

  lemma KeepsScan(s: State, w: int)
    requires Inv(s) && Enabled(s, Scan(w))
    ensures Inv(ScanStep(s, w))
  {
    hide Inv;
    var i, k := FirstEligible(s.queue, w, s.fibers), s.workers[w];
    if i < |s.queue| {
      KeepsPop(s, w, i);
    } else {
      WorkerFacts(s, w);
      KeepsMove(s, w, k.(phase := NoTask));
    }
  }

  lemma KeepsSwapIn(s: State, w: int)
    requires Inv(s) && Enabled(s, SwapIn(w))
    ensures Inv(SwapInStep(s, w))
  {
    hide Inv;
    WorkerFacts(s, w);
    var k := s.workers[w];
    match k.phase.entry.task
    case FiberTask(f) =>
      KeepsFiberMove(s, w, k.(phase := Running(f, false)), f, FiberRec(EXEC, Rec(s.fibers, f).body));
    case CallbackTask(body) =>
      if k.cbFiber.Some? {
        var c := k.cbFiber.value;
        KeepsFiberMove(s, w, k.(phase := Running(c, true)), c, FiberRec(EXEC, Some(body)));
      } else {
        KeepsFirstCallback(s, w, body);
      }
  }

  lemma FirstCallbackWorkerOk(fibers: Fibers, k: Worker, f: FiberId, r: FiberRec)
    requires WorkerOk(fibers, k) && k.phase.Popped? && k.cbFiber.None? && r.state == EXEC
    ensures var k' := k.(phase := Running(f, true), cbFiber := Some(f));
      WorkerOk(fibers[f := r], k') && Holds(k') <= Holds(k) + {f}
  {}

  lemma KeepsFirstCallback(s: State, w: int, body: Script)
    requires Inv(s) && Enabled(s, SwapIn(w))
    requires s.workers[w].phase.entry.task == CallbackTask(body) && s.workers[w].cbFiber.None?
    ensures Inv(SwapInStep(s, w))
  {
    hide Owners, States, Conserved, Actives, Idles, WorkerOk, Holds;
    var f, r := s.nextId, FiberRec(EXEC, Some(body));
    var k := s.workers[w].(phase := Running(f, true), cbFiber := Some(f));
    NewIdIsFresh(s);
    WorkerFacts(s, w);
    FirstCallbackWorkerOk(s.fibers, s.workers[w], f, r);
    ConservedSame(s, SwapInStep(s, w));
    CountersUpdate(s.workers, w, k);
    StatesUpdate(s.fibers, s.workers, w, k, f, r);
    OwnersGrow(s.queue, s.workers, s.fibers.Keys, w, k, f);
    assert s.fibers[f := r].Keys == s.fibers.Keys + {f};
  }

  lemma KeepsSuspend(s: State, w: int, st: FiberState, body: Option<Script>)
    requires Inv(s) && w in s.workers && s.workers[w].phase.Running? && Left(st)
    ensures Inv(Suspend(s, w, st, body))
  {
    hide Inv;
    WorkerFacts(s, w);
    var k := s.workers[w];
    var Running(f, via) := k.phase;
    KeepsFiberMove(s, w, k.(phase := SwappedOut(f, via)), f, FiberRec(st, body));
  }

  lemma KeepsContinue(s: State, w: int, rest: Script)
    requires Inv(s) && w in s.workers && s.workers[w].phase.Running?
    ensures Inv(Continue(s, w, rest))
    ensures forall f :: Free(s, f) ==> Free(Continue(s, w, rest), f)
  {
    hide Inv;
    WorkerFacts(s, w);
    var k := s.workers[w];
    KeepsFiberMove(s, w, k, k.phase.fid, FiberRec(EXEC, Some(rest)));
    assert s.workers[w := k] == s.workers;
    assert SetWorker(SetFiber(s, k.phase.fid, FiberRec(EXEC, Some(rest))), w, k) == Continue(s, w, rest);
  }

  lemma KeepsAct(s: State, w: int, wake: Option<FiberId>)
    requires Inv(s) && Enabled(s, Act(w, wake))
    ensures Inv(ActStep(s, w, wake))
  {
    hide Inv, Holds, Free;
    match Rec(s.fibers, s.workers[w].phase.fid).body
    case None => KeepsSuspend(s, w, EXCEPT, None);
    case Some(Done) => KeepsSuspend(s, w, TERM, None);
    case Some(Throw) => KeepsSuspend(s, w, EXCEPT, Some(Throw));
    case Some(Yield(ready, rest)) => KeepsSuspend(s, w, if ready then READY else HOLD, Some(rest));
    case Some(Spawn(asFiber, task, pin, rest)) =>
      KeepsContinue(s, w, rest);
      KeepsPushNew(Continue(s, w, rest), asFiber, task, pin);
    case Some(Wake(pin, rest)) =>
      KeepsContinue(s, w, rest);
      if wake.Some? {
        KeepsWake(Continue(s, w, rest), wake.value, pin);
      }
  }

  lemma KeepsWake(s: State, f: FiberId, pin: int)
    requires Inv(s) && Free(s, f)
    ensures Inv(Push(s, Entry(FiberTask(f), pin)))
  {
    hide Inv;
    FreeIsFresh(s, f);
    KeepsPush(s, Entry(FiberTask(f), pin));
  }

  lemma KeepsDecrement(s: State, w: int)
    requires Inv(s) && Enabled(s, Decrement(w))
    ensures Inv(Apply(s, Decrement(w)))
  {
    hide Inv;
    WorkerFacts(s, w);
    var k := s.workers[w];
    KeepsMove(s, w, k.(phase := Settling(k.phase.fid, k.phase.viaCallback)));
  }

  lemma KeepsSettle(s: State, w: int)
    requires Inv(s) && Enabled(s, Settle(w))
    ensures Inv(SettleStep(s, w))
  {
    hide Inv;
    WorkerFacts(s, w);
    var k := s.workers[w];
    var Settling(f, via) := k.phase;
    var r, k' := Rec(s.fibers, f), k.(phase := AtScan);
    var without := if via then k'.(cbFiber := None) else k';
    if r.state == READY {
      KeepsMove(s, w, without);
      ReleasedIsFresh(s, w, without, f);
      KeepsPush(SetWorker(s, w, without), Entry(FiberTask(f), ANY));
    } else if Dead(r.state) {
      if via {
        KeepsFiberMove(s, w, k', f, FiberRec(INIT, None));
      } else {
        KeepsMove(s, w, k');
      }
    } else {
      KeepsFiberMove(s, w, without, f, FiberRec(HOLD, r.body));
    }
  }

  lemma ReleasedIsFresh(s: State, w: int, k: Worker, f: FiberId)
    requires Inv(s) && w in s.workers && f in Holds(s.workers[w]) && f !in Holds(k)
    ensures Fresh(s.queue, s.workers[w := k], f)
  {
    hide Holds, WorkerOk, ExecMeansRunning;
    OthersDoNotHold(s, w, f);
  }

  lemma KeepsIdle(s: State, l: Label)
    requires Inv(s) && Enabled(s, l)
    requires l.Drop? || l.EnterIdle? || l.CheckIdle? || l.LeaveIdle? || l.Quit?
    ensures Inv(Apply(s, l))
  {
    hide Inv, Quiescent;
    WorkerFacts(s, l.w);
    var s' := Apply(s, l);
    KeepsMove(s, l.w, s'.workers[l.w]);
  }

  // ---------------------------------------------------------------- start and stop

  predicate Entering(k: Worker, k': Worker) {
    || k' == k
    || (k.phase.NotStarted? && k' == k.(phase := k'.phase) && (k'.phase.AtScan? || k'.phase.Exited?))
  }

  lemma SameCounts(ws: Workers, ws': Workers)
    requires ws'.Keys == ws.Keys && forall w :: w in ws ==> Entering(ws[w], ws'[w])
    ensures Actives(ws') == Actives(ws) && Idles(ws') == Idles(ws)
  {
    forall w ensures w in Actives(ws') <==> w in Actives(ws) {
      if w in ws { assert Entering(ws[w], ws'[w]); }
    }
    forall w ensures w in Idles(ws') <==> w in Idles(ws) {
      if w in ws { assert Entering(ws[w], ws'[w]); }
    }
  }

  /** Workers that only enter or skip run(): they hold nothing new before and after. */
  lemma KeepsEntering(s: State, ws: Workers, main: MainPc, autoStop: bool, stopping: bool)
    requires Inv(s) && ws.Keys == s.workers.Keys
    requires forall w :: w in ws ==> Entering(s.workers[w], ws[w])
    requires Shape(s.(workers := ws, main := main, autoStop := autoStop, stopping := stopping))
    ensures Inv(s.(workers := ws, main := main, autoStop := autoStop, stopping := stopping))
  {
    hide Owners, States, Conserved, Actives, Idles;
    ConservedSame(s, s.(workers := ws, main := main, autoStop := autoStop, stopping := stopping));
    forall w | w in ws ensures Holds(ws[w]) == Holds(s.workers[w]) {
      assert Entering(s.workers[w], ws[w]);
    }
    SameCounts(s.workers, ws);
    EnteringOwners(s.queue, s.workers, ws, s.fibers.Keys);
    EnteringStates(s.fibers, s.workers, ws);
  }

  lemma EnteringOwners(q: seq<Entry>, ws: Workers, ws': Workers, ids: set<FiberId>)
    requires Owners(q, ws, ids) && ws'.Keys == ws.Keys
    requires forall w :: w in ws' ==> Holds(ws'[w]) == Holds(ws[w])
    ensures Owners(q, ws', ids)
  {
    hide Holds;
  }

  lemma EnteringStates(fibers: Fibers, ws: Workers, ws': Workers)
    requires States(fibers, ws) && ws'.Keys == ws.Keys
    requires forall w :: w in ws' ==> Entering(ws[w], ws'[w])
    ensures States(fibers, ws')
  {
    forall w | w in ws' ensures WorkerOk(fibers, ws'[w]) {
      assert WorkerOk(fibers, ws[w]);
    }
    forall f | f in fibers && fibers[f].state == EXEC ensures exists v :: RunsFiber(ws', v, f) {
      var v :| RunsFiber(ws, v, f);
      assert RunsFiber(ws', v, f);
    }
  }

  lemma KeepsMain(s: State, l: Label)
    requires Inv(s) && Enabled(s, l)
    requires l.Start? || l.StopBegin? || l.StopFlag? || l.StopRoot?
    ensures Inv(Apply(s, l))
  {
    hide Owners, States, Counters, Conserved, Quiescent;
    var s' := Apply(s, l);
    KeepsEntering(s, s'.workers, s'.main, s'.autoStop, s'.stopping);
  }

  // ---------------------------------------------------------------- all steps, all runs

  lemma Keeps(s: State, l: Label)
    requires Inv(s) && Enabled(s, l)
    ensures Inv(Apply(s, l))
  {
    hide Inv, Free, Holds, PushNew, ScanStep, SwapInStep, ActStep, SettleStep, Push;
    match l
    case Start => KeepsMain(s, l);
    case StopBegin => KeepsMain(s, l);
    case StopFlag => KeepsMain(s, l);
    case StopRoot => KeepsMain(s, l);
    case OutsideSpawn(asFiber, body, pin) => KeepsPushNew(s, asFiber, body, pin);
    case OutsideWake(f, pin) => KeepsWake(s, f, pin);
    case Scan(w) => KeepsScan(s, w);
    case SwapIn(w) => KeepsSwapIn(s, w);
    case Act(w, wake) => KeepsAct(s, w, wake);
    case Decrement(w) => KeepsDecrement(s, w);
    case Settle(w) => KeepsSettle(s, w);
    case Drop(_) => KeepsIdle(s, l);
    case EnterIdle(_) => KeepsIdle(s, l);
    case CheckIdle(_) => KeepsIdle(s, l);
    case LeaveIdle(_) => KeepsIdle(s, l);
    case Quit(_) => KeepsIdle(s, l);
  }

  lemma {:induction false} KeepsAll(s: State, ls: seq<Label>)
    requires Inv(s) && Runs(s, ls)
    ensures Inv(After(s, ls))
    decreases |ls|
  {
    hide Inv, Enabled, Apply;
    if ls != [] {
      Keeps(s, ls[0]);
      KeepsAll(Apply(s, ls[0]), ls[1..]);
    }
  }

  lemma InitialInv(s: State)
    requires Initial(s)
    ensures Inv(s)
  {
    assert forall w :: w in s.workers ==> s.workers[w].phase == NotStarted;
    assert forall w :: w !in Actives(s.workers) && w !in Idles(s.workers);
    assert Actives(s.workers) == {} && Idles(s.workers) == {};
  }

  /** In every reachable state the counters are exact, ownership is exclusive, the fiber states match the
      positions, and every scheduled entry is queued or was dispatched to an allowed worker. */
  lemma Invariant(s: State, ls: seq<Label>)
    requires Initial(s) && Runs(s, ls)
    ensures Inv(After(s, ls))
  {
    InitialInv(s);
    KeepsAll(s, ls);
  }

  /** A fiber is EXEC exactly while one worker, and only one, runs it, and then nobody else has it. */
  lemma ExclusiveExecution(s: State, ls: seq<Label>, f: FiberId)
    requires Initial(s) && Runs(s, ls)
    ensures var t := After(s, ls);
      && (Rec(t.fibers, f).state == EXEC <==> exists w :: RunsFiber(t.workers, w, f))
      && (forall w, v :: RunsFiber(t.workers, w, f) && v in t.workers && f in Holds(t.workers[v]) ==> v == w)
      && ((exists w :: RunsFiber(t.workers, w, f)) ==> !Queued(t, f))
  {
    var t := After(s, ls);
    Invariant(s, ls);
    hide Initial, Runs, After;
    forall w | RunsFiber(t.workers, w, f)
      ensures Rec(t.fibers, f).state == EXEC && !Queued(t, f)
      ensures forall v :: v in t.workers && v != w ==> f !in Holds(t.workers[v])
    {
      WorkerFacts(t, w);
      OthersDoNotHold(t, w, f);
    }
  }

  // ---------------------------------------------------------------- assertions

  /** The fiber that step l switches to, if it is a task's. */
  function Entered(s: State, w: int): Option<FiberId>
    requires w in s.workers && s.workers[w].phase.Popped?
  {
    match s.workers[w].phase.entry.task
    case FiberTask(f) => Some(f)
    case CallbackTask(_) => s.workers[w].cbFiber
  }

  /** The assertions that the source evaluates in step l: swapIn needs a fiber that is not executing
      (src/fiber.cpp:127), reset one that is finished or new (src/fiber.cpp:111), both when a callback fiber is reused
      and when it is emptied afterwards; and cb_fiber is still the fiber that came back. */
  predicate AssertionsHold(s: State, l: Label)
    requires Enabled(s, l)
  {
    match l
    case SwapIn(w) =>
      var task := s.workers[w].phase.entry.task;
      (match Entered(s, w)
       case None => true
       case Some(f) =>
         var st := Rec(s.fibers, f).state;
         && st != EXEC
         && (task.CallbackTask? ==> st == INIT || Dead(st)))
    case EnterIdle(w) => s.workers[w].idle != EXEC
    case Settle(w) =>
      var Settling(f, via) := s.workers[w].phase;
      var st := Rec(s.fibers, f).state;
      via ==> s.workers[w].cbFiber == Some(f) && (st != READY && st != HOLD ==> st == INIT || Dead(st))
    case _ => true
  }

  /** None of these assertions fails and no finished fiber is entered, in any run under linear ownership. */
  lemma AssertionsNeverFail(s: State, ls: seq<Label>, l: Label)
    requires Initial(s) && Runs(s, ls) && Enabled(After(s, ls), l)
    ensures AssertionsHold(After(s, ls), l)
    ensures l.SwapIn? ==>
      var t := After(s, ls);
      match Entered(t, l.w) case None => true case Some(f) => f in t.fibers && !Dead(t.fibers[f].state)
  {
    var t := After(s, ls);
    Invariant(s, ls);
    hide Inv, Initial, Runs, After;
    if l.SwapIn? {
      var k := t.workers[l.w];
      WorkerFacts(t, l.w);
      if k.phase.entry.task.FiberTask? {
        PoppedIsNotExec(t, l.w);
      }
    } else if l.EnterIdle? || l.Settle? {
      WorkerFacts(t, l.w);
    }
  }

  lemma PoppedIsNotExec(s: State, w: int)
    requires Inv(s) && w in s.workers && s.workers[w].phase.Popped? && s.workers[w].phase.entry.task.FiberTask?
    ensures Rec(s.fibers, s.workers[w].phase.entry.task.fid).state != EXEC
  {
    hide WorkerOk;
    var f := s.workers[w].phase.entry.task.fid;
    if Rec(s.fibers, f).state == EXEC {
      ExecIsHeldByRunner(s, f, w);
    }
  }
}
