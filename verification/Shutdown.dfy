/** What stop() guarantees: no worker leaves run() while there is work it could still get. */
module Shutdown {
  import opened Protocol
  import opened ProtocolInvariant
  import opened ProtocolSteps

  // ---------------------------------------------------------------- what tasks may do

  /** A restriction on all tasks: whether they may call YieldToReady, and which threads they may pin tasks to. They may
      always yield to HOLD and wake each other. */
  datatype Rules = Rules(mayReady: bool, pins: Option<set<int>>)

  predicate PinsNothing(r: Rules) {
    r.pins.Some? && forall p :: p in r.pins.value ==> p == ANY
  }

  predicate PinAllowed(r: Rules, pin: int) {
    pin == ANY || r.pins.None? || pin in r.pins.value
  }

  predicate Allowed(r: Rules, b: Script) {
    match b
    case Done => true
    case Throw => true
    case Spawn(_, task, pin, rest) => PinAllowed(r, pin) && Allowed(r, task) && Allowed(r, rest)
    case Yield(ready, rest) => (ready ==> r.mayReady) && Allowed(r, rest)
    case Wake(pin, rest) => PinAllowed(r, pin) && Allowed(r, rest)
  }

  predicate TaskAllowed(r: Rules, t: Task) {
    t.CallbackTask? ==> Allowed(r, t.body)
  }

  predicate EntryAllowed(r: Rules, e: Entry) {
    PinAllowed(r, e.thread) && TaskAllowed(r, e.task)
  }

  predicate LabelAllowed(r: Rules, l: Label) {
    match l
    case OutsideSpawn(_, body, pin) => Allowed(r, body) && PinAllowed(r, pin)
    case OutsideWake(_, pin) => PinAllowed(r, pin)
    case _ => true
  }

  predicate FiberAllowed(r: Rules, x: FiberRec) {
    x.body.Some? ==> Allowed(r, x.body.value)
  }

  predicate WorkerAllowed(r: Rules, fibers: Fibers, k: Worker) {
    && (k.phase.Popped? ==> EntryAllowed(r, k.phase.entry))
    && (!r.mayReady && (k.phase.SwappedOut? || k.phase.Settling?) ==> Rec(fibers, k.phase.fid).state != READY)
  }

  /** All code still to run keeps to r, and under r without YieldToReady no fiber ever comes back READY. */
  ghost predicate Obeys(r: Rules, s: State) {
    && (forall i :: 0 <= i < |s.queue| ==> EntryAllowed(r, s.queue[i]))
    && (forall f :: f in s.fibers ==> FiberAllowed(r, s.fibers[f]))
    && (forall w :: w in s.workers ==> WorkerAllowed(r, s.fibers, s.workers[w]))
  }

  predicate AllAllowed(r: Rules, ls: seq<Label>) {
    forall i :: 0 <= i < |ls| ==> LabelAllowed(r, ls[i])
  }

  lemma ObeysPush(r: Rules, s: State, e: Entry)
    requires Obeys(r, s) && EntryAllowed(r, e)
    ensures Obeys(r, Push(s, e))
  {
    hide EntryAllowed, FiberAllowed, WorkerAllowed;
  }

  lemma ObeysPushNew(r: Rules, s: State, asFiber: bool, body: Script, pin: int)
    requires Inv(s) && Obeys(r, s) && Allowed(r, body) && PinAllowed(r, pin)
    ensures Obeys(r, PushNew(s, asFiber, body, pin))
  {
    hide Allowed, PinAllowed, Counters, Conserved, States;
    if asFiber {
      var s' := SetFiber(s, s.nextId, FiberRec(INIT, Some(body)));
      NewIdIsFresh(s);
      forall w | w in s.workers ensures WorkerAllowed(r, s'.fibers, s.workers[w]) {
        assert s.nextId !in Holds(s.workers[w]);
      }
      ObeysPush(r, s', Entry(FiberTask(s.nextId), pin));
      assert PushNew(s, asFiber, body, pin) == Push(s', Entry(FiberTask(s.nextId), pin)).(nextId := s.nextId + 1);
    } else {
      ObeysPush(r, s, Entry(CallbackTask(body), pin));
    }
  }

  /** One worker moves on and rewrites a fiber that it holds. */
  lemma ObeysMove(r: Rules, s: State, w: int, k: Worker, f: FiberId, x: FiberRec)
    requires Owners(s.queue, s.workers, s.fibers.Keys) && Obeys(r, s)
    requires w in s.workers && f in Holds(s.workers[w])
    requires FiberAllowed(r, x) && WorkerAllowed(r, s.fibers[f := x], k)
    ensures Obeys(r, SetWorker(SetFiber(s, f, x), w, k))
  {
    hide FiberAllowed, EntryAllowed, Owners;
    OthersDoNotHold(s, w, f);
    var fibers' := s.fibers[f := x];
    forall v | v in s.workers && v != w ensures WorkerAllowed(r, fibers', s.workers[v]) {
      assert f !in Holds(s.workers[v]);
    }
  }

  lemma ObeysStep(r: Rules, s: State, w: int, k: Worker)
    requires Obeys(r, s) && w in s.workers && WorkerAllowed(r, s.fibers, k)
    ensures Obeys(r, SetWorker(s, w, k))
  {
    hide FiberAllowed, EntryAllowed, WorkerAllowed;
  }

  lemma ObeysScan(r: Rules, s: State, w: int)
    requires Obeys(r, s) && w in s.workers
    ensures Obeys(r, ScanStep(s, w))
  {
    hide Allowed, FiberAllowed;
    var i, k := FirstEligible(s.queue, w, s.fibers), s.workers[w];
    if i < |s.queue| {
      ObeysStep(r, s, w, k.(phase := Popped(s.queue[i])));
      var q' := RemoveAt(s.queue, i);
      assert forall j :: 0 <= j < |q'| ==> q'[j] == if j < i then s.queue[j] else s.queue[j+1];
    } else {
      ObeysStep(r, s, w, k.(phase := NoTask));
    }
  }

  lemma BodyAllowed(r: Rules, s: State, f: FiberId)
    requires Obeys(r, s)
    ensures FiberAllowed(r, Rec(s.fibers, f))
  {
    hide EntryAllowed, WorkerAllowed;
  }

  lemma ObeysSwapIn(r: Rules, s: State, w: int)
    requires Inv(s) && Obeys(r, s) && Enabled(s, SwapIn(w))
    ensures Obeys(r, SwapInStep(s, w))
  {
    hide Allowed, Counters, Conserved, States;
    var k := s.workers[w];
    match k.phase.entry.task
    case FiberTask(f) =>
      BodyAllowed(r, s, f);
      ObeysMove(r, s, w, k.(phase := Running(f, false)), f, FiberRec(EXEC, Rec(s.fibers, f).body));
    case CallbackTask(body) =>
      if k.cbFiber.Some? {
        var c := k.cbFiber.value;
        ObeysMove(r, s, w, k.(phase := Running(c, true)), c, FiberRec(EXEC, Some(body)));
      } else {
        ObeysFirstCallback(r, s, w, body);
      }
  }

  lemma ObeysFirstCallback(r: Rules, s: State, w: int, body: Script)
    requires Inv(s) && Obeys(r, s) && Enabled(s, SwapIn(w)) && Allowed(r, body)
    requires s.workers[w].phase.entry.task == CallbackTask(body) && s.workers[w].cbFiber.None?
    ensures Obeys(r, SwapInStep(s, w))
  {
    hide Inv, Allowed, EntryAllowed;
    assert Owners(s.queue, s.workers, s.fibers.Keys) && Shape(s) by { OwnersOf(s); }
    NewIdIsFresh(s);
    var fibers' := s.fibers[s.nextId := FiberRec(EXEC, Some(body))];
    forall v | v in s.workers && v != w ensures WorkerAllowed(r, fibers', s.workers[v]) {
      assert s.nextId !in Holds(s.workers[v]);
    }
  }

  lemma OwnersOf(s: State)
    requires Inv(s)
    ensures Owners(s.queue, s.workers, s.fibers.Keys) && Shape(s) && Conserved(s) && Counters(s)
    ensures States(s.fibers, s.workers)
  {
    hide Owners, Shape, Conserved, Counters, States;
  }

  lemma ObeysSuspend(r: Rules, s: State, w: int, st: FiberState, body: Option<Script>)
    requires Inv(s) && Obeys(r, s) && w in s.workers && s.workers[w].phase.Running?
    requires FiberAllowed(r, FiberRec(st, body)) && (!r.mayReady ==> st != READY)
    ensures Obeys(r, Suspend(s, w, st, body))
  {
    hide Inv, Obeys, FiberAllowed;
    var k := s.workers[w];
    var Running(f, via) := k.phase;
    OwnersOf(s);
    ObeysMove(r, s, w, k.(phase := SwappedOut(f, via)), f, FiberRec(st, body));
  }

  lemma ObeysAct(r: Rules, s: State, w: int, wake: Option<FiberId>)
    requires Inv(s) && Obeys(r, s) && Enabled(s, Act(w, wake))
    ensures Obeys(r, ActStep(s, w, wake))
  {
    hide Inv, Obeys, EntryAllowed, Free, PushNew, Push, Suspend, Continue;
    var f := s.workers[w].phase.fid;
    BodyAllowed(r, s, f);
    match Rec(s.fibers, f).body
    case None => ObeysSuspend(r, s, w, EXCEPT, None);
    case Some(Done) => ObeysSuspend(r, s, w, TERM, None);
    case Some(Throw) => ObeysSuspend(r, s, w, EXCEPT, Some(Throw));
    case Some(Yield(ready, rest)) => ObeysSuspend(r, s, w, if ready then READY else HOLD, Some(rest));
    case Some(Spawn(asFiber, task, pin, rest)) =>
      ObeysContinue(r, s, w, rest);
      KeepsContinue(s, w, rest);
      ObeysPushNew(r, Continue(s, w, rest), asFiber, task, pin);
    case Some(Wake(pin, rest)) =>
      ObeysContinue(r, s, w, rest);
      if wake.Some? {
        ObeysWake(r, Continue(s, w, rest), wake.value, pin);
      }
  }

  lemma ObeysWake(r: Rules, s: State, f: FiberId, pin: int)
    requires Obeys(r, s) && PinAllowed(r, pin)
    ensures Obeys(r, Push(s, Entry(FiberTask(f), pin)))
  {
    hide Obeys;
    ObeysPush(r, s, Entry(FiberTask(f), pin));
  }

  lemma ObeysContinue(r: Rules, s: State, w: int, rest: Script)
    requires Inv(s) && Obeys(r, s) && w in s.workers && s.workers[w].phase.Running? && Allowed(r, rest)
    ensures Obeys(r, Continue(s, w, rest))
  {
    hide Inv, Obeys, Allowed;
    OwnersOf(s);
    var k := s.workers[w];
    ObeysMove(r, s, w, k, k.phase.fid, FiberRec(EXEC, Some(rest)));
    assert s.workers[w := k] == s.workers;
  }

  lemma ObeysSettle(r: Rules, s: State, w: int)
    requires Inv(s) && Obeys(r, s) && Enabled(s, Settle(w))
    ensures Obeys(r, SettleStep(s, w))
  {
    hide Inv, Obeys, Allowed;
    OwnersOf(s);
    var k := s.workers[w];
    var Settling(f, via) := k.phase;
    BodyAllowed(r, s, f);
    var x, k' := Rec(s.fibers, f), k.(phase := AtScan);
    var without := if via then k'.(cbFiber := None) else k';
    if x.state == READY {
      ObeysStep(r, s, w, without);
      ObeysPush(r, SetWorker(s, w, without), Entry(FiberTask(f), ANY));
    } else if Dead(x.state) {
      if via {
        ObeysMove(r, s, w, k', f, FiberRec(INIT, None));
      } else {
        ObeysStep(r, s, w, k');
      }
    } else {
      ObeysMove(r, s, w, without, f, FiberRec(HOLD, x.body));
    }
  }

  lemma ObeysMain(r: Rules, s: State, l: Label)
    requires Obeys(r, s) && Enabled(s, l)
    requires l.Start? || l.StopBegin? || l.StopFlag? || l.StopRoot?
    ensures Obeys(r, Apply(s, l))
  {
    hide EntryAllowed, FiberAllowed, Quiescent;
    var s' := Apply(s, l);
    forall w | w in s'.workers ensures WorkerAllowed(r, s'.fibers, s'.workers[w]) {
      assert WorkerAllowed(r, s.fibers, s.workers[w]);
    }
  }

  lemma ObeysIdle(r: Rules, s: State, l: Label)
    requires Obeys(r, s) && Enabled(s, l)
    requires l.Drop? || l.EnterIdle? || l.CheckIdle? || l.LeaveIdle? || l.Quit? || l.Decrement?
    ensures Obeys(r, Apply(s, l))
  {
    hide EntryAllowed, FiberAllowed, Quiescent, TaskAllowed;
    assert WorkerAllowed(r, s.fibers, s.workers[l.w]);
    ObeysStep(r, s, l.w, Apply(s, l).workers[l.w]);
  }

  lemma ObeysKept(r: Rules, s: State, l: Label)
    requires Inv(s) && Obeys(r, s) && Enabled(s, l) && LabelAllowed(r, l)
    ensures Obeys(r, Apply(s, l))
  {
    hide Inv, Obeys, Allowed, Free, PushNew, ScanStep, SwapInStep, ActStep, SettleStep, Push, EntryAllowed;
    match l
    case OutsideSpawn(asFiber, body, pin) => ObeysPushNew(r, s, asFiber, body, pin);
    case OutsideWake(f, pin) => ObeysWake(r, s, f, pin);
    case Scan(w) => ObeysScan(r, s, w);
    case SwapIn(w) => ObeysSwapIn(r, s, w);
    case Act(w, wake) => ObeysAct(r, s, w, wake);
    case Settle(w) => ObeysSettle(r, s, w);
    case Start => ObeysMain(r, s, l);
    case StopBegin => ObeysMain(r, s, l);
    case StopFlag => ObeysMain(r, s, l);
    case StopRoot => ObeysMain(r, s, l);
    case Decrement(_) => ObeysIdle(r, s, l);
    case Drop(_) => ObeysIdle(r, s, l);
    case EnterIdle(_) => ObeysIdle(r, s, l);
    case CheckIdle(_) => ObeysIdle(r, s, l);
    case LeaveIdle(_) => ObeysIdle(r, s, l);
    case Quit(_) => ObeysIdle(r, s, l);
  }

  lemma {:induction false} ObeysRuns(r: Rules, s: State, ls: seq<Label>)
    requires Inv(s) && Obeys(r, s) && Runs(s, ls) && AllAllowed(r, ls)
    ensures Inv(After(s, ls)) && Obeys(r, After(s, ls))
    decreases |ls|
  {
    hide Inv, Obeys, Enabled, Apply, LabelAllowed;
    if ls != [] {
      assert LabelAllowed(r, ls[0]);
      Keeps(s, ls[0]);
      ObeysKept(r, s, ls[0]);
      assert forall i :: 0 <= i < |ls[1..]| ==> ls[1..][i] == ls[i+1];
      ObeysRuns(r, Apply(s, ls[0]), ls[1..]);
    }
  }

  // ---------------------------------------------------------------- without YieldToReady, pinned or not

  lemma NobodyActive(s: State, w: int)
    requires Counters(s) && s.active == 0 && w in s.workers
    ensures !Counted(s.workers[w].phase)
  {
    assert w !in Actives(s.workers);
  }

  /** Once stopping() is true it stays true: popping and ++active share one lock, so an empty queue with a zero
      counter means that nobody is left who could schedule. */
  lemma QuiescenceKept(r: Rules, s: State, l: Label)
    requires Inv(s) && !r.mayReady && Obeys(r, s) && Quiescent(s) && Enabled(s, l)
    ensures Quiescent(Apply(s, l))
  {
    hide Inv, Allowed, FiberAllowed, EntryAllowed, Free, Holds, Conserved, States, Owners;
    OwnersOf(s);
    if l.SwapIn? || l.Drop? || l.Act? || l.Decrement? {
      NobodyActive(s, l.w);
    } else if l.Settle? {
      assert WorkerAllowed(r, s.fibers, s.workers[l.w]);
    }
  }

  /** The idle fiber of a worker ends, and the root worker is skipped, only when nothing is left. */
  ghost predicate LeavesOnlyQuiescent(s: State) {
    forall w :: w in s.workers && (s.workers[w].idle == TERM || s.workers[w].phase.Exited?) ==> Quiescent(s)
  }

  lemma LeavingKept(r: Rules, s: State, l: Label)
    requires Inv(s) && !r.mayReady && Obeys(r, s) && LeavesOnlyQuiescent(s) && Enabled(s, l)
    ensures LeavesOnlyQuiescent(Apply(s, l))
  {
    if Quiescent(s) {
      QuiescenceKept(r, s, l);
    } else {
      hide Inv, Obeys, Free, Holds, PushNew;
      assert forall w :: w in s.workers ==> s.workers[w].idle != TERM && !s.workers[w].phase.Exited?;
      NobodyLeaves(s, l);
    }
  }

  /** Labels of a worker's own steps. */
  predicate ByWorker(l: Label) {
    l.Scan? || l.SwapIn? || l.Drop? || l.Act? || l.Decrement? || l.Settle?
    || l.EnterIdle? || l.CheckIdle? || l.LeaveIdle? || l.Quit?
  }

  // What a worker's step does to the worker itself: where it can end, and when its idle fiber can.
  ghost predicate Effect(s: State, l: Label, s': State)
    requires ByWorker(l)
  {
    && l.w in s.workers
    && s'.workers.Keys == s.workers.Keys
    && (forall v :: v in s.workers && v != l.w ==> s'.workers[v] == s.workers[v])
    && s'.main == s.main && s'.autoStop == s.autoStop && s'.stopping == s.stopping && s'.root == s.root
    && (s'.workers[l.w].idle == TERM ==> s.workers[l.w].idle == TERM || (l.CheckIdle? && Quiescent(s)))
    && (s'.workers[l.w].phase.Exited? <==> l.Quit?)
    && (s'.workers[l.w].phase.NoTask? <==> l.Scan? && FirstEligible(s.queue, l.w, s.fibers) == |s.queue|)
    && !s'.workers[l.w].phase.NotStarted?
  }

  lemma PushNewFrame(s: State, asFiber: bool, body: Script, pin: int)
    ensures var s' := PushNew(s, asFiber, body, pin);
      s'.workers == s.workers && s'.main == s.main && s'.autoStop == s.autoStop && s'.stopping == s.stopping
      && s'.root == s.root
  {}

  lemma SuspendEffect(s: State, l: Label, st: FiberState, body: Option<Script>)
    requires l.Act? && l.w in s.workers && s.workers[l.w].phase.Running?
    ensures Effect(s, l, Suspend(s, l.w, st, body))
  {
    hide Quiescent;
  }

  lemma ContinueEffect(s: State, l: Label, s': State)
    requires l.Act? && l.w in s.workers && s.workers[l.w].phase.Running?
    requires s'.workers == s.workers && s'.main == s.main && s'.autoStop == s.autoStop
    requires s'.stopping == s.stopping && s'.root == s.root
    ensures Effect(s, l, s')
  {
    hide Quiescent;
  }

  lemma ActEffect(s: State, l: Label)
    requires Enabled(s, l) && l.Act?
    ensures Effect(s, l, Apply(s, l))
  {
    hide Free, Quiescent, PushNew, Suspend, Effect;
    match Rec(s.fibers, s.workers[l.w].phase.fid).body
    case None => SuspendEffect(s, l, EXCEPT, None);
    case Some(Done) => SuspendEffect(s, l, TERM, None);
    case Some(Throw) => SuspendEffect(s, l, EXCEPT, Some(Throw));
    case Some(Yield(ready, rest)) => SuspendEffect(s, l, if ready then READY else HOLD, Some(rest));
    case Some(Spawn(asFiber, task, pin, rest)) =>
      PushNewFrame(Continue(s, l.w, rest), asFiber, task, pin);
      ContinueEffect(s, l, Apply(s, l));
    case Some(Wake(pin, rest)) =>
      ContinueEffect(s, l, Apply(s, l));
  }

  lemma SwapInEffect(s: State, l: Label)
    requires Enabled(s, l) && l.SwapIn?
    ensures Effect(s, l, SwapInStep(s, l.w))
  {
    hide Quiescent;
  }

  lemma SettleEffect(s: State, l: Label)
    requires Enabled(s, l) && l.Settle?
    ensures Effect(s, l, SettleStep(s, l.w))
  {
    hide Quiescent;
  }

  lemma WorkerEffect(s: State, l: Label)
    requires Enabled(s, l) && ByWorker(l)
    ensures Effect(s, l, Apply(s, l))
  {
    if l.Act? {
      ActEffect(s, l);
    } else if l.SwapIn? {
      SwapInEffect(s, l);
    } else if l.Settle? {
      SettleEffect(s, l);
    } else {
      hide Free, Quiescent, ActStep, SwapInStep, SettleStep;
    }
  }

  lemma NobodyLeaves(s: State, l: Label)
    requires !Quiescent(s) && Enabled(s, l)
    requires forall w :: w in s.workers ==> s.workers[w].idle != TERM && !s.workers[w].phase.Exited?
    ensures forall w :: w in Apply(s, l).workers ==>
              Apply(s, l).workers[w].idle != TERM && !Apply(s, l).workers[w].phase.Exited?
  {
    if ByWorker(l) {
      WorkerEffect(s, l);
      hide Apply, Quiescent;
    } else {
      hide Free, Quiescent, Holds;
      if l.OutsideSpawn? { PushNewFrame(s, l.asFiber, l.body, l.pin); }
    }
  }

  ghost predicate Safe(r: Rules, s: State) {
    !r.mayReady && Inv(s) && Obeys(r, s) && LeavesOnlyQuiescent(s)
  }

  lemma {:induction false} SafeRuns(r: Rules, s: State, ls: seq<Label>)
    requires Safe(r, s) && Runs(s, ls) && AllAllowed(r, ls)
    ensures Safe(r, After(s, ls))
    ensures Quiescent(s) ==> Quiescent(After(s, ls))
    decreases |ls|
  {
    hide Inv, Obeys, LeavesOnlyQuiescent, Enabled, Apply, Quiescent, LabelAllowed;
    if ls != [] {
      assert LabelAllowed(r, ls[0]);
      Keeps(s, ls[0]);
      ObeysKept(r, s, ls[0]);
      LeavingKept(r, s, ls[0]);
      if Quiescent(s) { QuiescenceKept(r, s, ls[0]); }
      assert forall i :: 0 <= i < |ls[1..]| ==> ls[1..][i] == ls[i+1];
      SafeRuns(r, Apply(s, ls[0]), ls[1..]);
    }
  }

  lemma InitialSafe(r: Rules, s: State)
    requires Initial(s) && !r.mayReady
    ensures Safe(r, s)
  {
    hide Inv;
    InitialInv(s);
  }

  predicate AllExited(s: State) {
    forall w :: w in s.workers ==> s.workers[w].phase.Exited?
  }

  /** Every scheduled entry was dispatched, and each as often as it was scheduled. */
  ghost predicate AllDispatched(s: State) {
    s.queue == [] && multiset(Taken(s.dispatched)) == multiset(s.scheduled)
  }

  /** Shutdown safety for tasks that never call YieldToReady, pinned or not: they may run to completion, throw, yield to
      HOLD and wake each other. */
  lemma ShutdownIsSafe(r: Rules, s: State, ls: seq<Label>)
    requires !r.mayReady
    requires Initial(s) && Runs(s, ls) && AllAllowed(r, ls)
    ensures var t := After(s, ls);
      && (forall w :: w in t.workers && (t.workers[w].idle == TERM || t.workers[w].phase.Exited?) ==>
            t.queue == [] && t.active == 0)
      && (AllExited(t) ==> AllDispatched(t))
  {
    InitialSafe(r, s);
    SafeRuns(r, s, ls);
    var t := After(s, ls);
    hide Inv, Obeys, Initial, Runs, After, AllAllowed;
    OwnersOf(t);
    if AllExited(t) {
      var w :| w in t.workers;
      assert Quiescent(t);
    }
  }

  /** Once stopping() has been true, the queue is empty and nobody is active in every later state. */
  lemma QuiescenceLasts(r: Rules, s: State, before: seq<Label>, after: seq<Label>)
    requires !r.mayReady
    requires Initial(s) && Runs(s, before) && AllAllowed(r, before)
    requires Quiescent(After(s, before))
    requires Runs(After(s, before), after) && AllAllowed(r, after)
    ensures Quiescent(After(After(s, before), after))
  {
    hide Safe, Quiescent, Initial;
    InitialSafe(r, s);
    SafeRuns(r, s, before);
    SafeRuns(r, After(s, before), after);
  }

  // ---------------------------------------------------------------- with YieldToReady, unpinned

  // Worker k has made its last scan.
  predicate Committed(k: Worker) {
    k.phase.Exited? || (k.phase.NoTask? && k.idle == TERM)
  }

  /** While a task is queued some worker will still scan; and workers only leave after stop() set its flags. */
  ghost predicate Covered(s: State) {
    && (s.queue != [] ==> exists w :: w in s.workers && !Committed(s.workers[w]))
    && (s.main.Created? || s.main.Started? ==>
          forall w :: w in s.workers ==> s.workers[w].idle != TERM && !s.workers[w].phase.Exited?)
  }

  lemma UnpinnedHeadEligible(r: Rules, s: State, w: int)
    requires Inv(s) && PinsNothing(r) && Obeys(r, s) && s.queue != []
    ensures Eligible(s.queue[0], w, s.fibers)
  {
    hide Shape, Counters, Conserved, FiberAllowed, WorkerAllowed;
    assert EntryAllowed(r, s.queue[0]);
    if s.queue[0].task.FiberTask? {
      QueuedIsNotExec(s, 0);
    }
  }

  /** A scan leaves an unpinned queue only when it is empty. */
  lemma EmptyScanMeansEmptyQueue(r: Rules, s: State, w: int)
    requires Inv(s) && PinsNothing(r) && Obeys(r, s)
    requires FirstEligible(s.queue, w, s.fibers) == |s.queue|
    ensures s.queue == []
  {
    hide Inv, Obeys;
    if s.queue != [] {
      UnpinnedHeadEligible(r, s, w);
    }
  }

  lemma CoveredByMain(s: State, l: Label)
    requires Inv(s) && Covered(s) && Enabled(s, l)
    requires l.Start? || l.StopBegin? || l.StopFlag? || l.StopRoot? || l.OutsideSpawn? || l.OutsideWake?
    ensures Covered(Apply(s, l))
  {
    hide Owners, States, Counters, Conserved, Free, Holds;
    var s' := Apply(s, l);
    var w := if exists w :: w in s.workers && !Committed(s.workers[w])
             then var w :| w in s.workers && !Committed(s.workers[w]); w
             else var w :| w in s.workers; w;
    assert w in s.workers && w in s'.workers;
    if s'.queue != [] {
      assert !Committed(s'.workers[w]);
    }
  }

  lemma CoveredByWorker(r: Rules, s: State, l: Label)
    requires Inv(s) && PinsNothing(r) && Obeys(r, s) && Covered(s) && Enabled(s, l) && ByWorker(l)
    ensures Covered(Apply(s, l))
  {
    var s' := Apply(s, l);
    WorkerEffect(s, l);
    StoppingNeedsFlags(s, l);
    if l.Quit? {
      hide Inv, Obeys, Free;
      assert s'.queue == s.queue;
      if s.queue != [] {
        var v :| v in s.workers && !Committed(s.workers[v]);
        assert v != l.w && v in s'.workers && !Committed(s'.workers[v]);
      }
    } else if l.Scan? && FirstEligible(s.queue, l.w, s.fibers) == |s.queue| {
      EmptyScanMeansEmptyQueue(r, s, l.w);
      hide Inv, Obeys, Free;
      assert s'.queue == s.queue;
    } else {
      hide Inv, Obeys, Apply, Enabled, Quiescent;
      assert !Committed(s'.workers[l.w]);
    }
  }

  lemma StoppingNeedsFlags(s: State, l: Label)
    requires Inv(s) && Enabled(s, l) && Covered(s) && ByWorker(l)
    ensures var s' := Apply(s, l);
      s'.main.Created? || s'.main.Started? ==>
        forall v :: v in s'.workers ==> s'.workers[v].idle != TERM && !s'.workers[v].phase.Exited?
  {
    hide Apply, Enabled, Inv;
    OwnersOf(s);
    hide Owners, States, Counters, Conserved;
    WorkerEffect(s, l);
    if s.main.Created? || s.main.Started? {
      assert !Quiescent(s);
      NobodyLeaves(s, l);
    }
  }

  lemma CoveredKept(r: Rules, s: State, l: Label)
    requires Inv(s) && PinsNothing(r) && Obeys(r, s) && Covered(s) && Enabled(s, l)
    ensures Covered(Apply(s, l))
  {
    hide Inv, Obeys, Covered, Enabled, Apply;
    if ByWorker(l) {
      CoveredByWorker(r, s, l);
    } else {
      CoveredByMain(s, l);
    }
  }

  lemma {:induction false} CoveredRuns(r: Rules, s: State, ls: seq<Label>)
    requires Inv(s) && PinsNothing(r) && Obeys(r, s) && Covered(s)
    requires Runs(s, ls) && AllAllowed(r, ls)
    ensures Inv(After(s, ls)) && Obeys(r, After(s, ls)) && Covered(After(s, ls))
    decreases |ls|
  {
    hide Inv, Obeys, Covered, Enabled, Apply, LabelAllowed;
    if ls != [] {
      assert LabelAllowed(r, ls[0]);
      Keeps(s, ls[0]);
      ObeysKept(r, s, ls[0]);
      CoveredKept(r, s, ls[0]);
      assert forall i :: 0 <= i < |ls[1..]| ==> ls[1..][i] == ls[i+1];
      CoveredRuns(r, Apply(s, ls[0]), ls[1..]);
    }
  }

  /** Shutdown safety with YieldToReady, for unpinned tasks under linear ownership: never are all workers past their last
      scan while a task is queued, although a yielding worker has decremented the counter before it requeues. */
  lemma NoTaskIsLost(r: Rules, s: State, ls: seq<Label>)
    requires PinsNothing(r) && Initial(s) && Runs(s, ls) && AllAllowed(r, ls)
    ensures var t := After(s, ls);
      && ((forall w :: w in t.workers ==> Committed(t.workers[w])) ==> t.queue == [])
      && (AllExited(t) ==> AllDispatched(t))
  {
    var t := After(s, ls);
    assert Inv(s) by { InitialInv(s); }
    assert Obeys(r, s) && Covered(s) by { hide Inv; }
    CoveredRuns(r, s, ls);
    hide Inv, Initial, Runs, After, AllAllowed;
    OwnersOf(t);
  }
}
