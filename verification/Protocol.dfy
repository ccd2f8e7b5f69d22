/** The scheduler as a transition system: any number of workers in Scheduler::run, the task queue they share,
    the fibers they switch between, and the thread that starts and stops them (src/scheduler.cpp:64-264). */
module Protocol {
  datatype Option<+T> = None | Some(value: T)

  type FiberId = nat

  // FiberAndThread::thread when a task may run anywhere.
  const ANY: int := -1

  /** Fiber::State (src/fiber.h:31-38). */
  datatype FiberState = INIT | HOLD | EXEC | TERM | READY | EXCEPT

  /** What a task does, one observable action after the other. `Wake` puts some fiber that nobody holds back in
      the queue, if there is one. */
  datatype Script =
    | Done
    | Throw
    | Spawn(asFiber: bool, task: Script, pin: int, rest: Script)
    | Yield(ready: bool, rest: Script)
    | Wake(pin: int, rest: Script)

  /** A task is a fiber or a plain callback (src/scheduler.h:95-123). */
  datatype Task = FiberTask(fid: FiberId) | CallbackTask(body: Script)

  datatype Entry = Entry(task: Task, thread: int)

  // A fiber's m_state and what is left of its m_cb.
  datatype FiberRec = FiberRec(state: FiberState, body: Option<Script>)

  /** Where a worker stands in run(). `viaCallback` tells the cb_fiber branch from the fiber branch. */
  datatype Phase =
    | NotStarted
    | AtScan                                        // loop head, about to lock the queue (156-160)
    | Popped(entry: Entry)                          // entry taken and counted as active (179-183)
    | Running(fid: FiberId, viaCallback: bool)      // inside swapIn (194, 216)
    | SwappedOut(fid: FiberId, viaCallback: bool)   // back in run, --active still to come (195, 217)
    | Settling(fid: FiberId, viaCallback: bool)     // --active done, requeue or hold or reset to come (197-205, 218-226)
    | NoTask                                        // the scan found nothing (232)
    | InIdle                                        // the idle fiber evaluates stopping() (236-237, 259-264)
    | IdleBack                                      // back from the idle fiber (238)
    | Exited

  datatype Worker = Worker(phase: Phase, cbFiber: Option<FiberId>, idle: FiberState)

  /** The controlling thread: start() once, then stop() once, whose last action on the workers is to enter run()
      on the caller's own root fiber. */
  datatype MainPc = Created | Started | StopBegun | StopFlagged | Joining

  datatype Dispatch = Dispatch(entry: Entry, taker: int)

  /** `scheduled` and `dispatched` are history: what was appended to the queue and what was taken from it. */
  datatype State = State(
    queue: seq<Entry>,
    fibers: map<FiberId, FiberRec>,
    workers: map<int, Worker>,
    root: Option<int>,
    active: int,
    idling: int,
    autoStop: bool,
    stopping: bool,
    main: MainPc,
    nextId: FiberId,
    scheduled: seq<Entry>,
    dispatched: seq<Dispatch>)

  datatype Label =
    | Start
    | StopBegin
    | StopFlag
    | StopRoot
    | OutsideSpawn(asFiber: bool, body: Script, pin: int)
    | OutsideWake(fid: FiberId, pin: int)
    | Scan(w: int)
    | SwapIn(w: int)
    | Drop(w: int)
    | Act(w: int, wake: Option<FiberId>)
    | Decrement(w: int)
    | Settle(w: int)
    | EnterIdle(w: int)
    | CheckIdle(w: int)
    | LeaveIdle(w: int)
    | Quit(w: int)

  // ---------------------------------------------------------------- queries

  function Rec(fibers: map<FiberId, FiberRec>, f: FiberId): FiberRec {
    if f in fibers then fibers[f] else FiberRec(INIT, None)
  }

  predicate Dead(st: FiberState) {
    st == TERM || st == EXCEPT
  }

  /** The scan's test of one entry (src/scheduler.cpp:166-177). */
  predicate Eligible(e: Entry, w: int, fibers: map<FiberId, FiberRec>) {
    && (e.thread == ANY || e.thread == w)
    && !(e.task.FiberTask? && Rec(fibers, e.task.fid).state == EXEC)
  }

  /** The entry that worker w takes, or |queue|. */
  function FirstEligible(queue: seq<Entry>, w: int, fibers: map<FiberId, FiberRec>): (i: nat)
    ensures i <= |queue|
    ensures forall j :: 0 <= j < i ==> !Eligible(queue[j], w, fibers)
    ensures i < |queue| ==> Eligible(queue[i], w, fibers)
  {
    if queue == [] || Eligible(queue[0], w, fibers) then 0 else 1 + FirstEligible(queue[1..], w, fibers)
  }

  /** Scheduler::stopping() (src/scheduler.cpp:254-258). */
  predicate Quiescent(s: State) {
    s.autoStop && s.stopping && s.queue == [] && s.active == 0
  }

  function Slot(ph: Phase): set<FiberId> {
    match ph
    case Popped(e) => if e.task.FiberTask? then {e.task.fid} else {}
    case Running(f, _) => {f}
    case SwappedOut(f, _) => {f}
    case Settling(f, _) => {f}
    case _ => {}
  }

  function Holds(k: Worker): set<FiberId> {
    Slot(k.phase) + if k.cbFiber.Some? then {k.cbFiber.value} else {}
  }

  predicate Queued(s: State, f: FiberId) {
    exists i :: 0 <= i < |s.queue| && s.queue[i].task == FiberTask(f)
  }

  predicate Held(s: State, f: FiberId) {
    exists w :: w in s.workers && f in Holds(s.workers[w])
  }

  /** Linear ownership: a fiber may be scheduled when it is neither queued nor held by a worker. */
  predicate Free(s: State, f: FiberId) {
    f in s.fibers && !Queued(s, f) && !Held(s, f)
  }

  // ---------------------------------------------------------------- steps

  function SetWorker(s: State, w: int, k: Worker): State {
    s.(workers := s.workers[w := k])
  }

  function SetPhase(s: State, w: int, ph: Phase): State
    requires w in s.workers
  {
    SetWorker(s, w, s.workers[w].(phase := ph))
  }

  function SetFiber(s: State, f: FiberId, r: FiberRec): State {
    s.(fibers := s.fibers[f := r])
  }

  function Push(s: State, e: Entry): State {
    s.(queue := s.queue + [e], scheduled := s.scheduled + [e])
  }

  /** Schedule a new task: a callback, or a freshly made fiber. */
  function PushNew(s: State, asFiber: bool, body: Script, pin: int): State {
    if asFiber then
      Push(SetFiber(s, s.nextId, FiberRec(INIT, Some(body))), Entry(FiberTask(s.nextId), pin)).(nextId := s.nextId + 1)
    else
      Push(s, Entry(CallbackTask(body), pin))
  }

  function RemoveAt<T>(q: seq<T>, i: nat): seq<T>
    requires i < |q|
  {
    q[..i] + q[i+1..]
  }

  /** Lock, scan, pop and ++active are one critical section (src/scheduler.cpp:160-185). */
  function ScanStep(s: State, w: int): State
    requires w in s.workers
  {
    var i := FirstEligible(s.queue, w, s.fibers);
    if i < |s.queue| then
      SetPhase(s, w, Popped(s.queue[i]))
      .(queue := RemoveAt(s.queue, i), active := s.active + 1,
        dispatched := s.dispatched + [Dispatch(s.queue[i], w)])
    else
      SetPhase(s, w, NoTask)
  }

  function SwapInStep(s: State, w: int): State
    requires w in s.workers && s.workers[w].phase.Popped?
  {
    match s.workers[w].phase.entry.task
    case FiberTask(f) =>
      SetPhase(SetFiber(s, f, FiberRec(EXEC, Rec(s.fibers, f).body)), w, Running(f, false))
    case CallbackTask(body) =>
      match s.workers[w].cbFiber
      case Some(c) =>
        SetPhase(SetFiber(s, c, FiberRec(EXEC, Some(body))), w, Running(c, true))
      case None =>
        SetWorker(SetFiber(s, s.nextId, FiberRec(EXEC, Some(body))).(nextId := s.nextId + 1), w,
                  s.workers[w].(phase := Running(s.nextId, true), cbFiber := Some(s.nextId)))
  }

  /** Leave the task: its state is set and control returns to run(), as one step. */
  function Suspend(s: State, w: int, st: FiberState, body: Option<Script>): State
    requires w in s.workers && s.workers[w].phase.Running?
  {
    var Running(f, via) := s.workers[w].phase;
    SetPhase(SetFiber(s, f, FiberRec(st, body)), w, SwappedOut(f, via))
  }

  function Continue(s: State, w: int, rest: Script): State
    requires w in s.workers && s.workers[w].phase.Running?
  {
    SetFiber(s, s.workers[w].phase.fid, FiberRec(EXEC, Some(rest)))
  }

  /** One action of the running task; calling an empty callback throws (src/fiber.cpp:189-205). */
  function ActStep(s: State, w: int, wake: Option<FiberId>): State
    requires w in s.workers && s.workers[w].phase.Running?
  {
    match Rec(s.fibers, s.workers[w].phase.fid).body
    case None => Suspend(s, w, EXCEPT, None)
    case Some(Done) => Suspend(s, w, TERM, None)
    case Some(Throw) => Suspend(s, w, EXCEPT, Some(Throw))
    case Some(Yield(ready, rest)) => Suspend(s, w, if ready then READY else HOLD, Some(rest))
    case Some(Spawn(asFiber, task, pin, rest)) => PushNew(Continue(s, w, rest), asFiber, task, pin)
    case Some(Wake(pin, rest)) =>
      if wake.Some? then Push(Continue(s, w, rest), Entry(FiberTask(wake.value), pin)) else Continue(s, w, rest)
  }

  /** Requeue a READY fiber on any thread, reset a finished callback fiber, or leave the fiber on hold
      (src/scheduler.cpp:197-205, 218-226). */
  function SettleStep(s: State, w: int): State
    requires w in s.workers && s.workers[w].phase.Settling?
  {
    var Settling(f, via) := s.workers[w].phase;
    var r := Rec(s.fibers, f);
    var k := s.workers[w].(phase := AtScan);
    var without := if via then k.(cbFiber := None) else k;
    if r.state == READY then
      Push(SetWorker(s, w, without), Entry(FiberTask(f), ANY))
    else if Dead(r.state) then
      if via then SetWorker(SetFiber(s, f, FiberRec(INIT, None)), w, k) else SetWorker(s, w, k)
    else
      SetWorker(SetFiber(s, f, FiberRec(HOLD, r.body)), w, without)
  }

  function CheckIdleStep(s: State, w: int): State
    requires w in s.workers
  {
    SetWorker(s, w, s.workers[w].(phase := IdleBack, idle := if Quiescent(s) then TERM else HOLD))
  }

  function LeaveIdleStep(s: State, w: int): State
    requires w in s.workers
  {
    var k := s.workers[w];
    SetWorker(s, w, k.(phase := AtScan, idle := if Dead(k.idle) then k.idle else HOLD)).(idling := s.idling - 1)
  }

  function StartStep(s: State): State {
    s.(stopping := false, main := Started,
       workers := map w | w in s.workers ::
         if s.root == Some(w) then s.workers[w] else s.workers[w].(phase := AtScan))
  }

  /** The end of stop(): the root fiber runs unless stopping() already holds (src/scheduler.cpp:115-129). */
  function StopRootStep(s: State): State
    requires s.root.Some? ==> s.root.value in s.workers
  {
    if s.root.None? then s.(main := Joining)
    else SetPhase(s, s.root.value, if Quiescent(s) then Exited else AtScan).(main := Joining)
  }

  /** The script head that is about to be executed. */
  function Head(s: State, w: int): Option<Script> {
    if w in s.workers && s.workers[w].phase.Running? then Rec(s.fibers, s.workers[w].phase.fid).body else None
  }

  predicate Enabled(s: State, l: Label) {
    match l
    case Start => s.main == Created
    case StopBegin => s.main == Started
    case StopFlag => s.main == StopBegun
    case StopRoot => s.main == StopFlagged && (s.root.Some? ==> s.root.value in s.workers)
    case OutsideSpawn(_, _, _) => s.main == Created || s.main == Started
    case OutsideWake(f, _) => (s.main == Created || s.main == Started) && Free(s, f)
    case Scan(w) => w in s.workers && s.workers[w].phase.AtScan?
    case SwapIn(w) => w in s.workers && s.workers[w].phase.Popped? && Runnable(s, s.workers[w].phase.entry.task)
    case Drop(w) => w in s.workers && s.workers[w].phase.Popped? && !Runnable(s, s.workers[w].phase.entry.task)
    case Act(w, wake) =>
      && w in s.workers && s.workers[w].phase.Running?
      && (wake.Some? ==> Head(s, w).Some? && Head(s, w).value.Wake? && Free(s, wake.value))
    case Decrement(w) => w in s.workers && s.workers[w].phase.SwappedOut?
    case Settle(w) => w in s.workers && s.workers[w].phase.Settling?
    case EnterIdle(w) => w in s.workers && s.workers[w].phase.NoTask? && s.workers[w].idle != TERM
    case CheckIdle(w) => w in s.workers && s.workers[w].phase.InIdle?
    case LeaveIdle(w) => w in s.workers && s.workers[w].phase.IdleBack?
    case Quit(w) => w in s.workers && s.workers[w].phase.NoTask? && s.workers[w].idle == TERM
  }

  /** The branch taken at src/scheduler.cpp:192-208: a finished fiber is not entered again. */
  predicate Runnable(s: State, t: Task) {
    t.FiberTask? ==> !Dead(Rec(s.fibers, t.fid).state)
  }

  function Apply(s: State, l: Label): State
    requires Enabled(s, l)
  {
    match l
    case Start => StartStep(s)
    case StopBegin => s.(autoStop := true, main := StopBegun)
    case StopFlag => s.(stopping := true, main := StopFlagged)
    case StopRoot => StopRootStep(s)
    case OutsideSpawn(asFiber, body, pin) => PushNew(s, asFiber, body, pin)
    case OutsideWake(f, pin) => Push(s, Entry(FiberTask(f), pin))
    case Scan(w) => ScanStep(s, w)
    case SwapIn(w) => SwapInStep(s, w)
    case Drop(w) => SetPhase(s, w, AtScan).(active := s.active - 1)
    case Act(w, wake) => ActStep(s, w, wake)
    case Decrement(w) =>
      SetPhase(s, w, Settling(s.workers[w].phase.fid, s.workers[w].phase.viaCallback)).(active := s.active - 1)
    case Settle(w) => SettleStep(s, w)
    case EnterIdle(w) => SetWorker(s, w, s.workers[w].(phase := InIdle, idle := EXEC)).(idling := s.idling + 1)
    case CheckIdle(w) => CheckIdleStep(s, w)
    case LeaveIdle(w) => LeaveIdleStep(s, w)
    case Quit(w) => SetPhase(s, w, Exited)
  }

  /** Before start(): nothing queued, no fiber made, every worker still to enter run(). */
  predicate Initial(s: State) {
    && s.queue == [] && s.fibers == map[] && s.scheduled == [] && s.dispatched == []
    && s.active == 0 && s.idling == 0 && !s.autoStop && s.stopping && s.main == Created
    && ANY !in s.workers && (exists w :: w in s.workers)
    && (s.root.Some? ==> s.root.value in s.workers)
    && forall w :: w in s.workers ==> s.workers[w] == Worker(NotStarted, None, INIT)
  }

  predicate Runs(s: State, ls: seq<Label>)
    decreases |ls|
  {
    ls == [] || (Enabled(s, ls[0]) && Runs(Apply(s, ls[0]), ls[1..]))
  }

  function After(s: State, ls: seq<Label>): State
    requires Runs(s, ls)
    decreases |ls|
  {
    if ls == [] then s else After(Apply(s, ls[0]), ls[1..])
  }
}
