/** Every run of the scheduler switches contexts legally, so what Contexts proves of legal runs holds of the scheduler:
    the fiber a worker runs is the one its thread-local pointer names (src/scheduler.cpp:142-264, src/fiber.cpp:55-239). */
module SchedulerContexts {
  import opened Protocol
  import opened ProtocolInvariant
  import opened ProtocolSteps
  import C = Contexts

  // ---------------------------------------------------------------- names

  /** All fibers of the program: those of the protocol, each worker's idle and thread fiber, and the caller's root. */
  datatype Name = Task(f: FiberId) | IdleOf(w: int) | MainOf(w: int) | Root

  function Code(w: int): nat {
    if w >= 0 then 2 * w else -2 * w - 1
  }

  function Num(n: Name): nat {
    match n
    case Task(f) => 4 * f
    case IdleOf(w) => 4 * Code(w) + 1
    case MainOf(w) => 4 * Code(w) + 2
    case Root => 3
  }

  lemma NumInjective()
    ensures forall m, n :: Num(m) == Num(n) ==> m == n
  {}

  // ---------------------------------------------------------------- what a step does to contexts

  /** The operations of fiber.cpp in step l; `entered` are the threads that have called GetThis(). A pool thread enters
      and makes its idle fiber before its first scan. */
  function Ops(s: State, entered: set<int>, l: Label): seq<C.Op>
    requires Enabled(s, l)
  {
    match l
    case OutsideSpawn(asFiber, _, _) => if asFiber then [C.Make(Num(Task(s.nextId)))] else []
    case StopRoot =>
      if s.root.Some? && !Quiescent(s) then [C.Call(s.root.value), C.Make(Num(IdleOf(s.root.value)))] else []
    case Scan(w) => if w in entered then [] else [C.EnterPool(w, Num(MainOf(w))), C.Make(Num(IdleOf(w)))]
    case SwapIn(w) =>
      var k := s.workers[w];
      if k.phase.entry.task.FiberTask? then [C.SwapIn(w, Num(Task(k.phase.entry.task.fid)))]
      else if k.cbFiber.Some? then [C.Reset(Num(Task(k.cbFiber.value))), C.SwapIn(w, Num(Task(k.cbFiber.value)))]
      else [C.Make(Num(Task(s.nextId))), C.SwapIn(w, Num(Task(s.nextId)))]
    case Act(w, _) =>
      (match Head(s, w)
       case Some(Spawn(asFiber, _, _, _)) => if asFiber then [C.Make(Num(Task(s.nextId)))] else []
       case Some(Wake(_, _)) => []
       case _ => [C.SwapOut(w)])
    case Settle(w) =>
      var f := s.workers[w].phase.fid;
      if s.workers[w].phase.viaCallback && Dead(Rec(s.fibers, f).state) then [C.Reset(Num(Task(f)))] else []
    case EnterIdle(w) => [C.SwapIn(w, Num(IdleOf(w)))]
    case CheckIdle(w) => [C.SwapOut(w)]
    case Quit(w) => if s.root == Some(w) then [C.Back(w)] else []
    case _ => []
  }

  function EnteredBy(entered: set<int>, l: Label): set<int> {
    if l.Scan? then entered + {l.w} else entered
  }

  function OpsOf(s: State, entered: set<int>, ls: seq<Label>): seq<C.Op>
    requires Runs(s, ls)
    decreases |ls|
  {
    if ls == [] then [] else Ops(s, entered, ls[0]) + OpsOf(Apply(s, ls[0]), EnteredBy(entered, ls[0]), ls[1..])
  }

  /** The scheduler's constructor on the caller's thread (src/scheduler.cpp:29-42). */
  function Begin(s: State): seq<C.Op> {
    if s.root.Some? then [C.Make(Num(Root)), C.EnterCaller(s.root.value, Num(MainOf(s.root.value)), Num(Root))] else []
  }

  function BegunBy(s: State): set<int> {
    if s.root.Some? then {s.root.value} else {}
  }

  // ---------------------------------------------------------------- the stacks, by name only

  datatype Look = Look(stacks: map<int, seq<Name>>, home: set<Name>, parked: set<Name>)

  function Pushed(v: Look, t: int, n: Name): Look
    requires t in v.stacks
  {
    Look(v.stacks[t := v.stacks[t] + [n]], v.home + {n}, v.parked - {n})
  }

  function Dropped(v: Look, t: int): Look
    requires t in v.stacks && v.stacks[t] != []
  {
    var s := v.stacks[t];
    Look(v.stacks[t := s[..|s|-1]], v.home - {s[|s|-1]}, v.parked + {s[|s|-1]})
  }

  ghost predicate ShowsStack(s: seq<C.Frame>, ns: seq<Name>) {
    |s| == |ns| && forall i :: 0 <= i < |s| ==> s[i].fid == Num(ns[i])
  }

  /** v is what a looks like by name. */
  ghost predicate Shows(a: C.Stacks, v: Look) {
    && a.stacks.Keys == v.stacks.Keys
    && (forall t :: t in a.stacks ==> ShowsStack(a.stacks[t], v.stacks[t]))
    && (forall n :: Num(n) in a.home <==> n in v.home)
    && (forall n :: Num(n) in a.parked <==> n in v.parked)
  }

  lemma ShowsPush(a: C.Stacks, v: Look, t: int, n: Name)
    requires Shows(a, v) && t in a.stacks && a.stacks[t] != [] && Num(n) in a.parked
    ensures Shows(C.Push(a, t, Num(n)), Pushed(v, t, n))
  {
    NumInjective();
    hide Num;
  }

  lemma ShowsPop(a: C.Stacks, v: Look, t: int)
    requires Shows(a, v) && t in a.stacks && |a.stacks[t]| > 1
    ensures Shows(C.Pop(a, t), Dropped(v, t))
  {
    NumInjective();
    hide Num;
  }

  lemma ShowsParked(a: C.Stacks, v: Look, n: Name)
    requires Shows(a, v)
    ensures Shows(a.(parked := a.parked[Num(n) := C.Entry(Num(n))]), v.(parked := v.parked + {n}))
  {
    NumInjective();
    hide Num;
  }

  lemma ShowsOpen(a: C.Stacks, v: Look, t: int, n: Name, base: nat)
    requires Shows(a, v) && t !in a.stacks
    ensures Shows(C.Open(a, t, Num(n), base), v.(stacks := v.stacks[t := [n]], home := v.home + {n}))
  {
    NumInjective();
    hide Num;
  }

  // ---------------------------------------------------------------- where the protocol says everyone is

  /** What stands on w's stack: its thread fiber, the root fiber if it runs run() on the caller's thread, and the task or
      idle fiber it is inside of. */
  function Expected(s: State, w: int): seq<Name>
    requires w in s.workers
  {
    var ph := s.workers[w].phase;
    [MainOf(w)]
    + (if s.root == Some(w) && !ph.NotStarted? && !ph.Exited? then [Root] else [])
    + (if ph.Running? then [Task(ph.fid)] else if ph.InIdle? then [IdleOf(w)] else [])
  }

  predicate Idle(ph: Phase) {
    !ph.NotStarted? && !ph.Exited? && !ph.InIdle?
  }

  predicate Nowhere(v: Look, n: Name) {
    n !in v.home && n !in v.parked
  }

  ghost predicate ThreadsAgree(s: State, v: Look) {
    && (forall w :: w in v.stacks ==>
          w in s.workers && v.stacks[w] == Expected(s, w) && (s.workers[w].phase.NotStarted? ==> s.root == Some(w)))
    && (forall w :: w in s.workers && w !in v.stacks ==>
          s.root != Some(w) && (s.workers[w].phase.NotStarted? || s.workers[w].phase.AtScan?))
  }

  ghost predicate TasksAgree(s: State, v: Look) {
    && (forall f: FiberId :: f !in s.fibers ==> Nowhere(v, Task(f)))
    && (forall f :: f in s.fibers && (forall w :: !RunsFiber(s.workers, w, f)) ==> Task(f) in v.parked)
  }

  ghost predicate IdlesAgree(s: State, v: Look) {
    && (forall w :: w !in v.stacks ==> Nowhere(v, MainOf(w)) && Nowhere(v, IdleOf(w)))
    && (forall w :: w in s.workers && s.workers[w].phase.NotStarted? ==> Nowhere(v, IdleOf(w)))
    && (forall w :: w in s.workers && w in v.stacks && Idle(s.workers[w].phase) ==> IdleOf(w) in v.parked)
  }

  ghost predicate Agrees(s: State, v: Look) {
    ThreadsAgree(s, v) && TasksAgree(s, v) && IdlesAgree(s, v)
  }

  ghost predicate RootAgrees(s: State, a: C.Stacks) {
    a.roots == if s.root.Some? then map[s.root.value := Num(Root)] else map[]
  }

  ghost predicate Sim(s: State, a: C.Stacks, v: Look) {
    RootAgrees(s, a) && Shows(a, v) && Agrees(s, v)
  }

  // ---------------------------------------------------------------- moves that switch nothing

  /** From s to t nobody's position changes as far as contexts go. */
  ghost predicate SamePlaces(s: State, t: State, v: Look) {
    && t.root == s.root && t.workers.Keys == s.workers.Keys && t.fibers.Keys == s.fibers.Keys
    && forall w :: w in s.workers ==> SamePlace(s.workers[w].phase, t.workers[w].phase, w in v.stacks, s.root == Some(w))
  }

  predicate SamePlace(ph: Phase, ph': Phase, entered: bool, root: bool) {
    && (ph.Running? <==> ph'.Running?) && (ph.Running? ==> ph'.fid == ph.fid)
    && (ph.InIdle? <==> ph'.InIdle?)
    && (ph'.NotStarted? ==> ph.NotStarted?)
    && (entered ==> (Idle(ph') ==> Idle(ph)))
    && (!entered ==> ph'.NotStarted? || ph'.AtScan?)
    && (root ==> ((ph.NotStarted? || ph.Exited?) <==> (ph'.NotStarted? || ph'.Exited?)))
  }

  lemma AgreesSame(s: State, t: State, v: Look)
    requires Agrees(s, v) && SamePlaces(s, t, v)
    ensures Agrees(t, v)
  {
    
    forall w | w in v.stacks
      ensures w in t.workers && v.stacks[w] == Expected(t, w) && (t.workers[w].phase.NotStarted? ==> t.root == Some(w))
    {
      assert SamePlace(s.workers[w].phase, t.workers[w].phase, true, s.root == Some(w));
    }
    forall f | f in t.fibers && (forall w :: !RunsFiber(t.workers, w, f)) ensures Task(f) in v.parked {
      forall w ensures !RunsFiber(s.workers, w, f) {
        assert !RunsFiber(t.workers, w, f);
      }
    }
  }

  /** One more fiber. */
  lemma AgreesMake(s: State, t: State, v: Look, f: FiberId)
    requires Agrees(s, v) && f !in s.fibers
    requires t.root == s.root && t.workers == s.workers && t.fibers.Keys == s.fibers.Keys + {f}
    ensures Agrees(t, v.(parked := v.parked + {Task(f)}))
  {
    hide Expected;
    assert forall w :: w in s.workers ==> Expected(t, w) == Expected(s, w) by { SameExpected(s, t); }
    forall g | g in t.fibers && (forall w :: !RunsFiber(t.workers, w, g)) ensures Task(g) in v.parked + {Task(f)} {
      assert g != f ==> forall w :: !RunsFiber(s.workers, w, g);
    }
  }

  lemma SameExpected(s: State, t: State)
    requires t.root == s.root && t.workers == s.workers
    ensures forall w :: w in s.workers ==> Expected(t, w) == Expected(s, w)
  {}

  // ---------------------------------------------------------------- switches

  /** Worker w changes its phase, and everybody else stays. */
  ghost predicate OnlyMoves(s: State, t: State, w: int) {
    && w in s.workers && t.root == s.root && t.workers.Keys == s.workers.Keys && t.fibers.Keys == s.fibers.Keys
    && forall u :: u in s.workers && u != w ==> t.workers[u] == s.workers[u]
  }

  lemma OthersExpected(s: State, t: State, w: int)
    requires OnlyMoves(s, t, w)
    ensures forall u :: u in s.workers && u != w ==> Expected(t, u) == Expected(s, u)
  {}

  lemma AgreesEnterTask(s: State, t: State, v: Look, w: int, f: FiberId)
    requires Agrees(s, v) && OnlyMoves(s, t, w) && w in v.stacks && f in s.fibers
    requires Idle(s.workers[w].phase) && !s.workers[w].phase.Running?
    requires t.workers[w].phase.Running? && t.workers[w].phase.fid == f
    requires forall u :: !RunsFiber(s.workers, u, f)
    ensures Task(f) in v.parked && Agrees(t, Pushed(v, w, Task(f)))
  {
    OthersExpected(s, t, w);
    assert Expected(t, w) == Expected(s, w) + [Task(f)];
    hide Expected;
    var v' := Pushed(v, w, Task(f));
    assert ThreadsAgree(t, v') && IdlesAgree(t, v') by { hide TasksAgree, RunsFiber; }
    TasksEnter(s, t, v, w, f);
  }

  lemma TasksEnter(s: State, t: State, v: Look, w: int, f: FiberId)
    requires TasksAgree(s, v) && OnlyMoves(s, t, w) && w in v.stacks && f in s.fibers
    requires !s.workers[w].phase.Running? && t.workers[w].phase.Running? && t.workers[w].phase.fid == f
    requires forall u :: !RunsFiber(s.workers, u, f)
    ensures Task(f) in v.parked && TasksAgree(t, Pushed(v, w, Task(f)))
  {
    var v' := Pushed(v, w, Task(f));
    forall g | g in t.fibers && (forall u :: !RunsFiber(t.workers, u, g)) ensures Task(g) in v'.parked {
      assert !RunsFiber(t.workers, w, g);
      forall u ensures !RunsFiber(s.workers, u, g) {
        assert !RunsFiber(t.workers, u, g);
      }
    }
  }

  lemma AgreesLeaveTask(s: State, t: State, v: Look, w: int)
    requires Agrees(s, v) && OnlyMoves(s, t, w) && w in v.stacks
    requires s.workers[w].phase.Running? && s.workers[w].phase.fid in s.fibers
    requires Idle(t.workers[w].phase) && !t.workers[w].phase.Running?
    ensures |v.stacks[w]| > 1 && Agrees(t, Dropped(v, w))
  {
    var f := s.workers[w].phase.fid;
    OthersExpected(s, t, w);
    assert Expected(s, w) == Expected(t, w) + [Task(f)];
    hide Expected;
    var v' := Dropped(v, w);
    assert v'.stacks[w] == Expected(t, w) && v'.parked == v.parked + {Task(f)};
    forall g | g in t.fibers && (forall u :: !RunsFiber(t.workers, u, g)) ensures Task(g) in v'.parked {
      if g != f {
        forall u ensures !RunsFiber(s.workers, u, g) {
          assert !RunsFiber(t.workers, u, g);
        }
      }
    }
  }

  lemma AgreesEnterIdle(s: State, t: State, v: Look, w: int)
    requires Agrees(s, v) && OnlyMoves(s, t, w) && w in v.stacks
    requires Idle(s.workers[w].phase) && !s.workers[w].phase.Running? && t.workers[w].phase.InIdle?
    ensures IdleOf(w) in v.parked && Agrees(t, Pushed(v, w, IdleOf(w)))
  {
    OthersExpected(s, t, w);
    assert Expected(t, w) == Expected(s, w) + [IdleOf(w)];
    SameRunners(s, t, w);
    hide Expected;
  }

  lemma AgreesLeaveIdle(s: State, t: State, v: Look, w: int)
    requires Agrees(s, v) && OnlyMoves(s, t, w) && w in v.stacks
    requires s.workers[w].phase.InIdle? && Idle(t.workers[w].phase) && !t.workers[w].phase.Running?
    ensures |v.stacks[w]| > 1 && Agrees(t, Dropped(v, w))
  {
    OthersExpected(s, t, w);
    assert Expected(s, w) == Expected(t, w) + [IdleOf(w)];
    SameRunners(s, t, w);
    hide Expected;
    assert Dropped(v, w).stacks[w] == Expected(t, w);
  }

  lemma SameRunners(s: State, t: State, w: int)
    requires OnlyMoves(s, t, w) && !s.workers[w].phase.Running? && !t.workers[w].phase.Running?
    ensures forall u, f :: RunsFiber(t.workers, u, f) == RunsFiber(s.workers, u, f)
  {}

  /** A pool thread's first scan. */
  lemma AgreesEnterPool(s: State, t: State, v: Look, w: int)
    requires Agrees(s, v) && OnlyMoves(s, t, w) && w !in v.stacks
    requires Idle(t.workers[w].phase) && !t.workers[w].phase.Running? && !s.workers[w].phase.Running?
    ensures s.root != Some(w)
    ensures Agrees(t, Look(v.stacks[w := [MainOf(w)]], v.home + {MainOf(w)}, v.parked + {IdleOf(w)}))
  {
    OthersExpected(s, t, w);
    assert Expected(t, w) == [MainOf(w)];
    SameRunners(s, t, w);
    hide Expected;
  }

  /** stop() calls the root fiber, which makes its idle fiber. */
  lemma AgreesCall(s: State, t: State, v: Look, w: int)
    requires Agrees(s, v) && OnlyMoves(s, t, w) && w in v.stacks && s.root == Some(w)
    requires s.workers[w].phase.NotStarted? && Idle(t.workers[w].phase) && !t.workers[w].phase.Running?
    ensures Agrees(t, Pushed(v, w, Root).(parked := v.parked - {Root} + {IdleOf(w)}))
  {
    OthersExpected(s, t, w);
    assert Expected(t, w) == Expected(s, w) + [Root];
    SameRunners(s, t, w);
    hide Expected;
  }

  lemma AgreesBack(s: State, t: State, v: Look, w: int)
    requires Agrees(s, v) && OnlyMoves(s, t, w) && w in v.stacks && s.root == Some(w)
    requires Idle(s.workers[w].phase) && !s.workers[w].phase.Running? && t.workers[w].phase.Exited?
    ensures |v.stacks[w]| > 1 && Agrees(t, Dropped(v, w))
  {
    OthersExpected(s, t, w);
    assert Expected(s, w) == Expected(t, w) + [Root];
    SameRunners(s, t, w);
    hide Expected;
    assert Dropped(v, w).stacks[w] == Expected(t, w);
  }

  // ---------------------------------------------------------------- single operations are legal

  /** Depths as the scheduler needs them, and the one root. */
  ghost predicate Ready(s: State, a: C.Stacks, v: Look) {
    C.DepthsTidy(a) && C.RootsTidy(a) && RootAgrees(s, a) && Shows(a, v)
  }

  lemma LegalMake(s: State, a: C.Stacks, v: Look, n: Name)
    requires Ready(s, a, v) && Nowhere(v, n) && n != Root
    ensures C.Legal(a, C.Make(Num(n))) && Ready(s, C.AbsStep(a, C.Make(Num(n))), v.(parked := v.parked + {n}))
    ensures C.AbsStep(a, C.Make(Num(n))).stacks == a.stacks
  {
    NumInjective();
    ShowsParked(a, v, n);
    hide Num, Shows;
    assert Num(n) !in a.home && Num(n) !in a.parked by { ShowsNowhere(a, v, n); }
  }

  lemma ShowsNowhere(a: C.Stacks, v: Look, n: Name)
    requires Shows(a, v) && Nowhere(v, n)
    ensures Num(n) !in a.home && Num(n) !in a.parked
  {
    hide Num;
  }

  lemma ShowsIsParked(a: C.Stacks, v: Look, n: Name)
    requires Shows(a, v) && n in v.parked
    ensures Num(n) in a.parked
  {
    hide Num;
  }

  lemma ShowsDepth(a: C.Stacks, v: Look, t: int)
    requires Shows(a, v) && t in v.stacks
    ensures t in a.stacks && |a.stacks[t]| == |v.stacks[t]|
  {
    hide Num;
  }

  lemma LegalReset(s: State, a: C.Stacks, v: Look, n: Name)
    requires Ready(s, a, v) && n in v.parked && n != Root
    ensures C.Legal(a, C.Reset(Num(n))) && Ready(s, C.AbsStep(a, C.Reset(Num(n))), v)
    ensures C.AbsStep(a, C.Reset(Num(n))).stacks == a.stacks
  {
    NumInjective();
    ShowsParked(a, v, n);
    ShowsIsParked(a, v, n);
    assert v.parked + {n} == v.parked && v.(parked := v.parked) == v;
    hide Num, Shows;
  }

  /** The number of frames below a task: the thread fiber, and on the caller's thread the root fiber. */
  function Level(s: State, t: int): nat {
    if s.root == Some(t) then 2 else 1
  }

  lemma LegalSwapIn(s: State, a: C.Stacks, v: Look, t: int, n: Name)
    requires Ready(s, a, v) && t in v.stacks && |v.stacks[t]| == Level(s, t) && n in v.parked && n != Root
    ensures C.Legal(a, C.SwapIn(t, Num(n)))
    ensures Shows(C.AbsStep(a, C.SwapIn(t, Num(n))), Pushed(v, t, n))
    ensures RootAgrees(s, C.AbsStep(a, C.SwapIn(t, Num(n))))
  {
    NumInjective();
    ShowsIsParked(a, v, n);
    ShowsDepth(a, v, t);
    ShowsPush(a, v, t, n);
    ShowsHistory(C.Push(a, t, Num(n)), C.AbsStep(a, C.SwapIn(t, Num(n))), Pushed(v, t, n));
    hide Num, Shows;
  }

  lemma ShowsHistory(a: C.Stacks, b: C.Stacks, v: Look)
    requires Shows(a, v) && b.stacks == a.stacks && b.home == a.home && b.parked == a.parked
    ensures Shows(b, v)
  {
    hide Num;
  }

  lemma LegalSwapOut(s: State, a: C.Stacks, v: Look, t: int)
    requires Ready(s, a, v) && t in v.stacks && |v.stacks[t]| == Level(s, t) + 1
    ensures C.Legal(a, C.SwapOut(t))
    ensures Shows(C.AbsStep(a, C.SwapOut(t)), Dropped(v, t)) && RootAgrees(s, C.AbsStep(a, C.SwapOut(t)))
  {
    ShowsDepth(a, v, t);
    ShowsPop(a, v, t);
    hide Num, Shows;
  }

  lemma LegalBack(s: State, a: C.Stacks, v: Look, t: int)
    requires Ready(s, a, v) && t in v.stacks && s.root == Some(t) && |v.stacks[t]| == 2
    ensures C.Legal(a, C.Back(t))
    ensures Shows(C.AbsStep(a, C.Back(t)), Dropped(v, t)) && RootAgrees(s, C.AbsStep(a, C.Back(t)))
  {
    ShowsDepth(a, v, t);
    ShowsPop(a, v, t);
    hide Num, Shows;
  }

  lemma LegalCall(s: State, a: C.Stacks, v: Look, t: int)
    requires Ready(s, a, v) && t in v.stacks && s.root == Some(t) && |v.stacks[t]| == 1
    requires Nowhere(v, IdleOf(t))
    ensures C.LegalRun(a, [C.Call(t), C.Make(Num(IdleOf(t)))])
    ensures var b := C.AbsRun(a, [C.Call(t), C.Make(Num(IdleOf(t)))]);
      Shows(b, Pushed(v, t, Root).(parked := v.parked - {Root} + {IdleOf(t)})) && RootAgrees(s, b)
  {
    ShowsDepth(a, v, t);
    assert Num(Root) in a.parked;
    ShowsPush(a, v, t, Root);
    var b, w := C.AbsStep(a, C.Call(t)), Pushed(v, t, Root);
    assert Nowhere(w, IdleOf(t));
    ShowsNowhere(b, w, IdleOf(t));
    ShowsParked(b, w, IdleOf(t));
    NumInjective();
    hide Num, Shows;
    TwoOps(a, C.Call(t), C.Make(Num(IdleOf(t))));
  }

  lemma LegalEnterPool(s: State, a: C.Stacks, v: Look, t: int)
    requires Ready(s, a, v) && t !in v.stacks && s.root != Some(t) && Nowhere(v, MainOf(t)) && Nowhere(v, IdleOf(t))
    ensures C.LegalRun(a, [C.EnterPool(t, Num(MainOf(t))), C.Make(Num(IdleOf(t)))])
    ensures var b := C.AbsRun(a, [C.EnterPool(t, Num(MainOf(t))), C.Make(Num(IdleOf(t)))]);
      && Shows(b, Look(v.stacks[t := [MainOf(t)]], v.home + {MainOf(t)}, v.parked + {IdleOf(t)}))
      && RootAgrees(s, b)
  {
    assert t !in a.stacks by { hide Num; }
    ShowsNowhere(a, v, MainOf(t));
    ShowsOpen(a, v, t, MainOf(t), 1);
    var b := C.Open(a, t, Num(MainOf(t)), 1);
    var w := v.(stacks := v.stacks[t := [MainOf(t)]], home := v.home + {MainOf(t)});
    assert Nowhere(w, IdleOf(t));
    ShowsNowhere(b, w, IdleOf(t));
    ShowsParked(b, w, IdleOf(t));
    NumInjective();
    hide Num, Shows;
    TwoOps(a, C.EnterPool(t, Num(MainOf(t))), C.Make(Num(IdleOf(t))));
  }

  lemma OneOp(a: C.Stacks, op: C.Op)
    requires C.Legal(a, op)
    ensures C.LegalRun(a, [op]) && C.AbsRun(a, [op]) == C.AbsStep(a, op)
  {
    hide C.Legal, C.AbsStep;
    assert [op][1..] == [];
    assert C.LegalRun(C.AbsStep(a, op), []);
  }

  lemma TwoOps(a: C.Stacks, op: C.Op, next: C.Op)
    requires C.Legal(a, op) && C.Legal(C.AbsStep(a, op), next)
    ensures C.LegalRun(a, [op, next]) && C.AbsRun(a, [op, next]) == C.AbsStep(C.AbsStep(a, op), next)
  {
    hide C.Legal, C.AbsStep;
    assert [op, next][1..] == [next];
    OneOp(C.AbsStep(a, op), next);
  }

  // ---------------------------------------------------------------- moves and operations together

  /** The operations are legal and lead from a to a state that agrees with t. */
  ghost predicate Outcome(t: State, a: C.Stacks, ops: seq<C.Op>, v': Look) {
    C.LegalRun(a, ops) && Sim(t, C.AbsRun(a, ops), v')
  }

  ghost predicate Before(s: State, a: C.Stacks, v: Look) {
    Ready(s, a, v) && Agrees(s, v)
  }

  lemma Depth(s: State, v: Look, w: int)
    requires Agrees(s, v) && w in v.stacks
    ensures w in s.workers
    ensures var ph := s.workers[w].phase;
      && (Idle(ph) && !ph.Running? ==> |v.stacks[w]| == Level(s, w))
      && (ph.Running? || ph.InIdle? ==> |v.stacks[w]| == Level(s, w) + 1)
      && (ph.NotStarted? ==> |v.stacks[w]| == 1)
  {}

  lemma OutcomePlain(s: State, t: State, a: C.Stacks, v: Look)
    requires Before(s, a, v) && SamePlaces(s, t, v)
    ensures Outcome(t, a, [], v)
  {
    hide Agrees, Shows, C.DepthsTidy, C.RootsTidy;
    AgreesSame(s, t, v);
  }

  lemma OutcomeReset(s: State, t: State, a: C.Stacks, v: Look, f: FiberId)
    requires Before(s, a, v) && SamePlaces(s, t, v) && f in s.fibers && forall u :: !RunsFiber(s.workers, u, f)
    ensures Outcome(t, a, [C.Reset(Num(Task(f)))], v)
  {
    assert Task(f) in v.parked;
    hide Agrees, Shows, C.DepthsTidy, C.RootsTidy, C.Legal, C.AbsStep, Num, RunsFiber;
    AgreesSame(s, t, v);
    LegalReset(s, a, v, Task(f));
    OneOp(a, C.Reset(Num(Task(f))));
  }

  lemma OutcomeMake(s: State, t: State, a: C.Stacks, v: Look, f: FiberId)
    requires Before(s, a, v) && f !in s.fibers
    requires t.root == s.root && t.workers == s.workers && t.fibers.Keys == s.fibers.Keys + {f}
    ensures Outcome(t, a, [C.Make(Num(Task(f)))], v.(parked := v.parked + {Task(f)}))
  {
    assert Nowhere(v, Task(f));
    hide Agrees, Shows, C.DepthsTidy, C.RootsTidy, C.Legal, C.AbsStep, Num;
    AgreesMake(s, t, v, f);
    LegalMake(s, a, v, Task(f));
    OneOp(a, C.Make(Num(Task(f))));
  }

  lemma OutcomeSwapIn(s: State, t: State, a: C.Stacks, v: Look, w: int, f: FiberId, first: bool)
    requires Before(s, a, v) && OnlyMoves(s, t, w) && w in v.stacks && f in s.fibers
    requires Idle(s.workers[w].phase) && !s.workers[w].phase.Running?
    requires t.workers[w].phase.Running? && t.workers[w].phase.fid == f
    requires forall u :: !RunsFiber(s.workers, u, f)
    ensures Outcome(t, a, (if first then [] else [C.Reset(Num(Task(f)))]) + [C.SwapIn(w, Num(Task(f)))],
                    Pushed(v, w, Task(f)))
  {
    hide Agrees, Shows, C.DepthsTidy, C.RootsTidy, C.Legal, C.AbsStep, Num, RunsFiber;
    AgreesEnterTask(s, t, v, w, f);
    Depth(s, v, w);
    var enter := C.SwapIn(w, Num(Task(f)));
    if first {
      LegalSwapIn(s, a, v, w, Task(f));
      OneOp(a, enter);
      assert [] + [enter] == [enter];
    } else {
      LegalReset(s, a, v, Task(f));
      LegalSwapIn(s, C.AbsStep(a, C.Reset(Num(Task(f)))), v, w, Task(f));
      TwoOps(a, C.Reset(Num(Task(f))), enter);
      assert [C.Reset(Num(Task(f)))] + [enter] == [C.Reset(Num(Task(f))), enter];
    }
  }

  /** In between, at mid, the new fiber exists and nobody runs it. */
  lemma OutcomeFirstCallback(s: State, mid: State, t: State, a: C.Stacks, v: Look, w: int, f: FiberId)
    requires Before(s, a, v) && f !in s.fibers && w in v.stacks
    requires mid.root == s.root && mid.workers == s.workers && mid.fibers.Keys == s.fibers.Keys + {f}
    requires OnlyMoves(mid, t, w) && Idle(s.workers[w].phase) && !s.workers[w].phase.Running?
    requires t.workers[w].phase.Running? && t.workers[w].phase.fid == f
    requires forall u :: !RunsFiber(mid.workers, u, f)
    ensures Outcome(t, a, [C.Make(Num(Task(f))), C.SwapIn(w, Num(Task(f)))],
                    Pushed(v.(parked := v.parked + {Task(f)}), w, Task(f)))
  {
    assert Nowhere(v, Task(f));
    hide Agrees, Shows, C.DepthsTidy, C.RootsTidy, C.Legal, C.AbsStep, Num, RunsFiber;
    var u := v.(parked := v.parked + {Task(f)});
    AgreesMake(s, mid, v, f);
    AgreesEnterTask(mid, t, u, w, f);
    Depth(s, v, w);
    LegalMake(s, a, v, Task(f));
    LegalSwapIn(s, C.AbsStep(a, C.Make(Num(Task(f)))), u, w, Task(f));
    TwoOps(a, C.Make(Num(Task(f))), C.SwapIn(w, Num(Task(f))));
  }

  lemma OutcomeSwapOut(s: State, t: State, a: C.Stacks, v: Look, w: int)
    requires Before(s, a, v) && OnlyMoves(s, t, w) && w in v.stacks
    requires s.workers[w].phase.InIdle? || (s.workers[w].phase.Running? && s.workers[w].phase.fid in s.fibers)
    requires Idle(t.workers[w].phase) && !t.workers[w].phase.Running?
    ensures v.stacks[w] != [] && Outcome(t, a, [C.SwapOut(w)], Dropped(v, w))
  {
    hide Agrees, Shows, C.DepthsTidy, C.RootsTidy, C.Legal, C.AbsStep, Num;
    if s.workers[w].phase.InIdle? {
      AgreesLeaveIdle(s, t, v, w);
    } else {
      AgreesLeaveTask(s, t, v, w);
    }
    Depth(s, v, w);
    LegalSwapOut(s, a, v, w);
    OneOp(a, C.SwapOut(w));
  }

  lemma OutcomeEnterIdle(s: State, t: State, a: C.Stacks, v: Look, w: int)
    requires Before(s, a, v) && OnlyMoves(s, t, w) && w in v.stacks
    requires Idle(s.workers[w].phase) && !s.workers[w].phase.Running? && t.workers[w].phase.InIdle?
    ensures Outcome(t, a, [C.SwapIn(w, Num(IdleOf(w)))], Pushed(v, w, IdleOf(w)))
  {
    hide Agrees, Shows, C.DepthsTidy, C.RootsTidy, C.Legal, C.AbsStep, Num;
    AgreesEnterIdle(s, t, v, w);
    Depth(s, v, w);
    LegalSwapIn(s, a, v, w, IdleOf(w));
    OneOp(a, C.SwapIn(w, Num(IdleOf(w))));
  }

  lemma OutcomeEnterPool(s: State, t: State, a: C.Stacks, v: Look, w: int)
    requires Before(s, a, v) && OnlyMoves(s, t, w) && w !in v.stacks
    requires Idle(t.workers[w].phase) && !t.workers[w].phase.Running? && !s.workers[w].phase.Running?
    ensures Outcome(t, a, [C.EnterPool(w, Num(MainOf(w))), C.Make(Num(IdleOf(w)))],
                    Look(v.stacks[w := [MainOf(w)]], v.home + {MainOf(w)}, v.parked + {IdleOf(w)}))
  {
    assert Nowhere(v, MainOf(w)) && Nowhere(v, IdleOf(w));
    hide Agrees, Shows, C.DepthsTidy, C.RootsTidy, C.LegalRun, C.AbsRun, Num;
    AgreesEnterPool(s, t, v, w);
    LegalEnterPool(s, a, v, w);
  }

  lemma OutcomeCall(s: State, t: State, a: C.Stacks, v: Look, w: int)
    requires Before(s, a, v) && OnlyMoves(s, t, w) && w in v.stacks && s.root == Some(w)
    requires s.workers[w].phase.NotStarted? && Idle(t.workers[w].phase) && !t.workers[w].phase.Running?
    ensures Outcome(t, a, [C.Call(w), C.Make(Num(IdleOf(w)))],
                    Pushed(v, w, Root).(parked := v.parked - {Root} + {IdleOf(w)}))
  {
    assert Nowhere(v, IdleOf(w));
    Depth(s, v, w);
    hide Agrees, Shows, C.DepthsTidy, C.RootsTidy, C.LegalRun, C.AbsRun, Num;
    AgreesCall(s, t, v, w);
    LegalCall(s, a, v, w);
  }

  lemma OutcomeBack(s: State, t: State, a: C.Stacks, v: Look, w: int)
    requires Before(s, a, v) && OnlyMoves(s, t, w) && w in v.stacks && s.root == Some(w)
    requires Idle(s.workers[w].phase) && !s.workers[w].phase.Running? && t.workers[w].phase.Exited?
    ensures v.stacks[w] != [] && Outcome(t, a, [C.Back(w)], Dropped(v, w))
  {
    Depth(s, v, w);
    hide Agrees, Shows, C.DepthsTidy, C.RootsTidy, C.Legal, C.AbsStep, Num;
    AgreesBack(s, t, v, w);
    LegalBack(s, a, v, w);
    OneOp(a, C.Back(w));
  }

  // ---------------------------------------------------------------- what the scheduler's steps do to positions

  lemma OwnersAndShape(s: State)
    requires Inv(s)
    ensures Owners(s.queue, s.workers, s.fibers.Keys) && Shape(s)
  {
    hide Owners, Shape, Conserved, Counters, States;
  }

  lemma NobodyRuns(s: State, w: int, f: FiberId)
    requires Inv(s) && w in s.workers && f in Holds(s.workers[w]) && !s.workers[w].phase.Running?
    ensures f in s.fibers && forall u :: !RunsFiber(s.workers, u, f)
  {
    WorkerFacts(s, w);
    OwnersAndShape(s);
    OthersDoNotHold(s, w, f);
    hide Inv, Owners, Shape, WorkerOk;
    forall u ensures !RunsFiber(s.workers, u, f) {
      assert u in s.workers && s.workers[u].phase.Running? ==> s.workers[u].phase.fid in Holds(s.workers[u]);
    }
  }

  lemma MoveSwapIn(s: State, w: int, f: FiberId)
    requires Inv(s) && Enabled(s, SwapIn(w))
    requires var k := s.workers[w];
      if k.phase.entry.task.FiberTask? then f == k.phase.entry.task.fid else k.cbFiber == Some(f)
    ensures f in s.fibers && forall u :: !RunsFiber(s.workers, u, f)
    ensures var t := SwapInStep(s, w);
      OnlyMoves(s, t, w) && t.workers[w].phase.Running? && t.workers[w].phase.fid == f
  {
    NobodyRuns(s, w, f);
    hide Inv, RunsFiber;
    SwapInMoves(s, w, f);
    hide SwapInStep, OnlyMoves;
  }

  lemma SwapInMoves(s: State, w: int, f: FiberId)
    requires Enabled(s, SwapIn(w)) && f in s.fibers
    requires var k := s.workers[w];
      if k.phase.entry.task.FiberTask? then f == k.phase.entry.task.fid else k.cbFiber == Some(f)
    ensures var t := SwapInStep(s, w);
      OnlyMoves(s, t, w) && t.workers[w].phase.Running? && t.workers[w].phase.fid == f
  {}

  function WithNew(s: State): State {
    s.(fibers := s.fibers[s.nextId := FiberRec(INIT, None)])
  }

  lemma MoveFirstCallback(s: State, w: int)
    requires Inv(s) && Enabled(s, SwapIn(w))
    requires s.workers[w].phase.entry.task.CallbackTask? && s.workers[w].cbFiber.None?
    ensures s.nextId !in s.fibers && forall u :: !RunsFiber(s.workers, u, s.nextId)
    ensures var t := SwapInStep(s, w);
      OnlyMoves(WithNew(s), t, w) && t.workers[w].phase.Running? && t.workers[w].phase.fid == s.nextId
  {
    OwnersAndShape(s);
    NewIdIsFresh(s);
    hide Inv, Owners, Shape;
    forall u ensures !RunsFiber(s.workers, u, s.nextId) {
      assert u in s.workers && s.workers[u].phase.Running? ==> s.workers[u].phase.fid in Holds(s.workers[u]);
    }
  }

  lemma RunningExists(s: State, w: int)
    requires Inv(s) && w in s.workers && (s.workers[w].phase.Running? || s.workers[w].phase.Settling?)
    ensures s.workers[w].phase.fid in s.fibers
  {
    WorkerFacts(s, w);
    hide Inv, WorkerOk;
    assert s.workers[w].phase.fid in Holds(s.workers[w]);
  }

  predicate Suspends(s: State, w: int)
    requires w in s.workers && s.workers[w].phase.Running?
  {
    var h := Head(s, w);
    h.None? || !(h.value.Spawn? || h.value.Wake?)
  }

  lemma MoveSuspend(s: State, w: int, st: FiberState, body: Option<Script>)
    requires w in s.workers && s.workers[w].phase.Running? && s.workers[w].phase.fid in s.fibers
    ensures OnlyMoves(s, Suspend(s, w, st, body), w) && Suspend(s, w, st, body).workers[w].phase.SwappedOut?
  {}

  /** s and t differ in the fibers only. */
  ghost predicate SameWorkers(s: State, t: State) {
    t.root == s.root && t.workers == s.workers
  }

  lemma MoveContinue(s: State, w: int, rest: Script)
    requires w in s.workers && s.workers[w].phase.Running? && s.workers[w].phase.fid in s.fibers
    ensures SameWorkers(s, Continue(s, w, rest)) && Continue(s, w, rest).fibers.Keys == s.fibers.Keys
    ensures Continue(s, w, rest).nextId == s.nextId
  {}

  lemma MovePushNew(s: State, asFiber: bool, body: Script, pin: int)
    ensures SameWorkers(s, PushNew(s, asFiber, body, pin))
    ensures PushNew(s, asFiber, body, pin).fibers.Keys == s.fibers.Keys + if asFiber then {s.nextId} else {}
  {}

  function NewFibers(s: State, l: Label): set<FiberId>
    requires Enabled(s, l)
  {
    match l
    case OutsideSpawn(asFiber, _, _) => if asFiber then {s.nextId} else {}
    case Act(w, _) =>
      (match Head(s, w) case Some(Spawn(asFiber, _, _, _)) => if asFiber then {s.nextId} else {} case _ => {})
    case _ => {}
  }

  lemma MoveAct(s: State, w: int, wake: Option<FiberId>)
    requires Inv(s) && Enabled(s, Act(w, wake))
    ensures s.workers[w].phase.fid in s.fibers
    ensures var t := ActStep(s, w, wake);
      if Suspends(s, w) then OnlyMoves(s, t, w) && t.workers[w].phase.SwappedOut?
      else SameWorkers(s, t) && t.fibers.Keys == s.fibers.Keys + NewFibers(s, Act(w, wake))
  {
    hide Inv, Free;
    RunningExists(s, w);
    hide ActStep, OnlyMoves, SameWorkers;
    if Suspends(s, w) {
      MoveLeaving(s, w, wake);
    } else {
      MoveStaying(s, w, wake);
    }
  }

  lemma MoveLeaving(s: State, w: int, wake: Option<FiberId>)
    requires Enabled(s, Act(w, wake)) && Suspends(s, w) && s.workers[w].phase.fid in s.fibers
    ensures OnlyMoves(s, ActStep(s, w, wake), w) && ActStep(s, w, wake).workers[w].phase.SwappedOut?
  {
    hide Free, Suspend, OnlyMoves;
    match Rec(s.fibers, s.workers[w].phase.fid).body
    case None => MoveSuspend(s, w, EXCEPT, None);
    case Some(Done) => MoveSuspend(s, w, TERM, None);
    case Some(Throw) => MoveSuspend(s, w, EXCEPT, Some(Throw));
    case Some(Yield(ready, rest)) => MoveSuspend(s, w, if ready then READY else HOLD, Some(rest));
  }

  lemma MoveStaying(s: State, w: int, wake: Option<FiberId>)
    requires Enabled(s, Act(w, wake)) && !Suspends(s, w) && s.workers[w].phase.fid in s.fibers
    ensures SameWorkers(s, ActStep(s, w, wake))
    ensures ActStep(s, w, wake).fibers.Keys == s.fibers.Keys + NewFibers(s, Act(w, wake))
  {
    hide Free, Continue, PushNew, Push, SameWorkers;
    match Rec(s.fibers, s.workers[w].phase.fid).body
    case Some(Spawn(asFiber, task, pin, rest)) =>
      MoveContinue(s, w, rest);
      MovePushNew(Continue(s, w, rest), asFiber, task, pin);
      SameWorkersTrans(s, Continue(s, w, rest), ActStep(s, w, wake));
    case Some(Wake(pin, rest)) =>
      MoveContinue(s, w, rest);
      if wake.Some? {
        MovePush(Continue(s, w, rest), Entry(FiberTask(wake.value), pin));
        SameWorkersTrans(s, Continue(s, w, rest), ActStep(s, w, wake));
      }
  }

  lemma SameWorkersTrans(s: State, t: State, u: State)
    requires SameWorkers(s, t) && SameWorkers(t, u)
    ensures SameWorkers(s, u)
  {}

  lemma MovePush(s: State, e: Entry)
    ensures SameWorkers(s, Push(s, e)) && Push(s, e).fibers == s.fibers
  {}

  lemma MoveSettle(s: State, w: int)
    requires Inv(s) && Enabled(s, Settle(w))
    ensures s.workers[w].phase.fid in s.fibers && forall u :: !RunsFiber(s.workers, u, s.workers[w].phase.fid)
    ensures OnlyMoves(s, SettleStep(s, w), w) && SettleStep(s, w).workers[w].phase.AtScan?
  {
    assert s.workers[w].phase.fid in Holds(s.workers[w]);
    NobodyRuns(s, w, s.workers[w].phase.fid);
    hide Inv, RunsFiber;
    SettleMoves(s, w);
  }

  lemma SettleMoves(s: State, w: int)
    requires Enabled(s, Settle(w)) && s.workers[w].phase.fid in s.fibers
    ensures OnlyMoves(s, SettleStep(s, w), w) && SettleStep(s, w).workers[w].phase.AtScan?
  {}

  lemma MoveOther(s: State, l: Label)
    requires Enabled(s, l)
    requires l.Scan? || l.Drop? || l.Decrement? || l.EnterIdle? || l.CheckIdle? || l.LeaveIdle? || l.Quit?
    ensures OnlyMoves(s, Apply(s, l), l.w)
    ensures var ph, ph' := s.workers[l.w].phase, Apply(s, l).workers[l.w].phase;
      match l
      case Scan(_) => ph.AtScan? && (ph'.Popped? || ph'.NoTask?)
      case Drop(_) => ph.Popped? && ph'.AtScan?
      case Decrement(_) => ph.SwappedOut? && ph'.Settling?
      case EnterIdle(_) => ph.NoTask? && ph'.InIdle?
      case CheckIdle(_) => ph.InIdle? && ph'.IdleBack?
      case LeaveIdle(_) => ph.IdleBack? && ph'.AtScan?
      case _ => ph.NoTask? && ph'.Exited?
  {}

  lemma InPlace(s: State, t: State, v: Look, w: int)
    requires ThreadsAgree(s, v) && OnlyMoves(s, t, w)
    requires SamePlace(s.workers[w].phase, t.workers[w].phase, w in v.stacks, s.root == Some(w))
    ensures SamePlaces(s, t, v)
  {}

  lemma NobodyMoves(s: State, t: State, v: Look)
    requires ThreadsAgree(s, v)
    requires t.root == s.root && t.workers == s.workers && t.fibers.Keys == s.fibers.Keys
    ensures SamePlaces(s, t, v)
  {}

  lemma StartPlaces(s: State, v: Look)
    requires Inv(s) && ThreadsAgree(s, v) && Enabled(s, Start)
    ensures SamePlaces(s, StartStep(s), v)
  {
    OwnersAndShape(s);
    hide Inv, Owners;
  }

  // ---------------------------------------------------------------- every step of the scheduler

  ghost predicate Simulates(s: State, a: C.Stacks, v: Look, l: Label, v': Look)
    requires Enabled(s, l)
  {
    Outcome(Apply(s, l), a, Ops(s, v.stacks.Keys, l), v') && v'.stacks.Keys == EnteredBy(v.stacks.Keys, l)
  }

  lemma WorkerHasEntered(s: State, v: Look, w: int)
    requires ThreadsAgree(s, v) && w in s.workers && !s.workers[w].phase.NotStarted? && !s.workers[w].phase.AtScan?
    ensures w in v.stacks
  {}

  lemma ThreadsOf(s: State, a: C.Stacks, v: Look)
    requires Before(s, a, v)
    ensures ThreadsAgree(s, v)
  {
    hide ThreadsAgree, Ready, TasksAgree, IdlesAgree;
  }

  lemma StepByMain(s: State, a: C.Stacks, v: Look, l: Label)
    requires Inv(s) && Before(s, a, v) && Enabled(s, l)
    requires l.Start? || l.StopBegin? || l.StopFlag? || l.OutsideWake?
    ensures Simulates(s, a, v, l, v)
  {
    hide Inv, Before, ThreadsAgree, Outcome, Num;
    ThreadsOf(s, a, v);
    var t := Apply(s, l);
    hide SamePlaces;
    if l.Start? {
      StartPlaces(s, v);
    } else {
      hide Free;
      NobodyMoves(s, t, v);
    }
    hide Apply, Enabled;
    OutcomePlain(s, t, a, v);
  }

  lemma MoveRoot(s: State, v: Look)
    requires Inv(s) && ThreadsAgree(s, v) && Enabled(s, StopRoot) && s.root.Some?
    ensures var w, t := s.root.value, StopRootStep(s);
      && w in v.stacks && OnlyMoves(s, t, w) && s.workers[w].phase.NotStarted?
      && (if Quiescent(s) then t.workers[w].phase.Exited? else t.workers[w].phase.AtScan?)
  {
    OwnersAndShape(s);
    hide Inv, Owners, Quiescent;
  }

  lemma RootOps(s: State, entered: set<int>)
    requires Enabled(s, StopRoot)
    ensures Ops(s, entered, StopRoot) ==
            if s.root.Some? && !Quiescent(s) then [C.Call(s.root.value), C.Make(Num(IdleOf(s.root.value)))] else []
    ensures Apply(s, StopRoot) == StopRootStep(s)
  {
    hide Num, Quiescent, StopRootStep;
  }

  lemma StepRoot(s: State, a: C.Stacks, v: Look) returns (v': Look)
    requires Inv(s) && Before(s, a, v) && Enabled(s, StopRoot)
    ensures Simulates(s, a, v, StopRoot, v')
  {
    hide Inv, Before, ThreadsAgree, Outcome, Num;
    ThreadsOf(s, a, v);
    var t := StopRootStep(s);
    v' := v;
    RootOps(s, v.stacks.Keys);
    hide SamePlaces, Ops, Apply;
    if s.root.None? {
      NobodyMoves(s, t, v);
      OutcomePlain(s, t, a, v);
    } else {
      var w := s.root.value;
      MoveRoot(s, v);
      hide StopRootStep, Quiescent, Enabled;
      if Quiescent(s) {
        InPlace(s, t, v, w);
        OutcomePlain(s, t, a, v);
      } else {
        hide OnlyMoves;
        OutcomeCall(s, t, a, v, w);
        v' := Pushed(v, w, Root).(parked := v.parked - {Root} + {IdleOf(w)});
      }
    }
  }

  lemma StepSpawn(s: State, t: State, a: C.Stacks, v: Look, l: Label) returns (v': Look)
    requires Inv(s) && Before(s, a, v) && Enabled(s, l) && t == Apply(s, l)
    requires SameWorkers(s, t) && t.fibers.Keys == s.fibers.Keys + NewFibers(s, l)
    requires l.OutsideSpawn? || (l.Act? && !Suspends(s, l.w))
    ensures Simulates(s, a, v, l, v')
  {
    hide Inv, Before, ThreadsAgree, Outcome, Num;
    ThreadsOf(s, a, v);
    OwnersAndShape(s);
    NewIdIsFresh(s);
    SpawnOps(s, v.stacks.Keys, l);
    hide Owners, Shape, Apply, Enabled, Ops, SamePlaces, NewFibers;
    if NewFibers(s, l) == {} {
      v' := v;
      assert t.fibers.Keys == s.fibers.Keys;
      NobodyMoves(s, t, v);
      OutcomePlain(s, t, a, v);
    } else {
      OutcomeMake(s, t, a, v, s.nextId);
      v' := v.(parked := v.parked + {Task(s.nextId)});
    }
  }

  lemma SpawnOps(s: State, entered: set<int>, l: Label)
    requires Enabled(s, l) && (l.OutsideSpawn? || (l.Act? && !Suspends(s, l.w)))
    ensures NewFibers(s, l) == {} || NewFibers(s, l) == {s.nextId}
    ensures Ops(s, entered, l) == if NewFibers(s, l) == {} then [] else [C.Make(Num(Task(s.nextId)))]
  {
    hide Num, Free;
  }

  lemma StepSwapIn(s: State, a: C.Stacks, v: Look, w: int) returns (v': Look)
    requires Inv(s) && Before(s, a, v) && Enabled(s, SwapIn(w))
    ensures Simulates(s, a, v, SwapIn(w), v')
  {
    hide Inv, Before, ThreadsAgree, Outcome, Num;
    ThreadsOf(s, a, v);
    var k, t := s.workers[w], SwapInStep(s, w);
    WorkerHasEntered(s, v, w);
    hide SwapInStep, OnlyMoves, RunsFiber, Ops, Apply;
    if k.phase.entry.task.CallbackTask? && k.cbFiber.None? {
      MoveFirstCallback(s, w);
      FirstCallbackOps(s, v.stacks.Keys, w);
      OutcomeFirstCallback(s, WithNew(s), t, a, v, w, s.nextId);
      v' := Pushed(v.(parked := v.parked + {Task(s.nextId)}), w, Task(s.nextId));
    } else {
      var first := k.phase.entry.task.FiberTask?;
      var f := if first then k.phase.entry.task.fid else k.cbFiber.value;
      MoveSwapIn(s, w, f);
      OutcomeSwapIn(s, t, a, v, w, f, first);
      v' := Pushed(v, w, Task(f));
      SwapInOps(s, v.stacks.Keys, w, f, first);
    }
  }

  lemma SwapInOps(s: State, entered: set<int>, w: int, f: FiberId, first: bool)
    requires Enabled(s, SwapIn(w)) && first == s.workers[w].phase.entry.task.FiberTask?
    requires var k := s.workers[w]; if first then f == k.phase.entry.task.fid else k.cbFiber == Some(f)
    ensures Apply(s, SwapIn(w)) == SwapInStep(s, w)
    ensures Ops(s, entered, SwapIn(w)) ==
            (if first then [] else [C.Reset(Num(Task(f)))]) + [C.SwapIn(w, Num(Task(f)))]
  {
    hide Num, SwapInStep;
  }

  lemma FirstCallbackOps(s: State, entered: set<int>, w: int)
    requires Enabled(s, SwapIn(w)) && s.workers[w].phase.entry.task.CallbackTask? && s.workers[w].cbFiber.None?
    ensures Apply(s, SwapIn(w)) == SwapInStep(s, w)
    ensures Ops(s, entered, SwapIn(w)) == [C.Make(Num(Task(s.nextId))), C.SwapIn(w, Num(Task(s.nextId)))]
  {
    hide Num, SwapInStep;
  }

  lemma SettleOps(s: State, entered: set<int>, w: int)
    requires Enabled(s, Settle(w))
    ensures Apply(s, Settle(w)) == SettleStep(s, w)
    ensures var f := s.workers[w].phase.fid;
      Ops(s, entered, Settle(w)) ==
        if s.workers[w].phase.viaCallback && Dead(Rec(s.fibers, f).state) then [C.Reset(Num(Task(f)))] else []
  {
    hide Num, SettleStep;
  }

  lemma WorkerOps(s: State, entered: set<int>, l: Label)
    requires Enabled(s, l)
    requires l.Scan? || l.Drop? || l.Decrement? || l.EnterIdle? || l.CheckIdle? || l.LeaveIdle? || l.Quit?
    ensures Ops(s, entered, l) ==
            match l
            case EnterIdle(w) => [C.SwapIn(w, Num(IdleOf(w)))]
            case CheckIdle(w) => [C.SwapOut(w)]
            case Scan(w) => if w in entered then [] else [C.EnterPool(w, Num(MainOf(w))), C.Make(Num(IdleOf(w)))]
            case Quit(w) => if s.root == Some(w) then [C.Back(w)] else []
            case _ => []
  {
    hide Num;
  }

  lemma SuspendOps(s: State, entered: set<int>, l: Label)
    requires Enabled(s, l) && l.Act? && Suspends(s, l.w)
    ensures Ops(s, entered, l) == [C.SwapOut(l.w)] && Apply(s, l) == ActStep(s, l.w, l.wake)
  {
    hide Num, ActStep, Free;
  }

  lemma StepSuspend(s: State, a: C.Stacks, v: Look, l: Label) returns (v': Look)
    requires Inv(s) && Before(s, a, v) && Enabled(s, l) && l.Act? && Suspends(s, l.w)
    ensures Simulates(s, a, v, l, v')
  {
    hide Inv, Before, ThreadsAgree, Outcome, Num;
    ThreadsOf(s, a, v);
    var w, t := l.w, Apply(s, l);
    WorkerHasEntered(s, v, w);
    MoveAct(s, w, l.wake);
    SuspendOps(s, v.stacks.Keys, l);
    hide ActStep, Free, Ops, OnlyMoves, Enabled, Apply, Suspends;
    OutcomeSwapOut(s, t, a, v, w);
    v' := Dropped(v, w);
  }

  lemma StepSettle(s: State, a: C.Stacks, v: Look, w: int)
    requires Inv(s) && Before(s, a, v) && Enabled(s, Settle(w))
    ensures Simulates(s, a, v, Settle(w), v)
  {
    hide Inv, Before, ThreadsAgree, Outcome, Num;
    ThreadsOf(s, a, v);
    var f, t := s.workers[w].phase.fid, SettleStep(s, w);
    WorkerHasEntered(s, v, w);
    MoveSettle(s, w);
    SettleOps(s, v.stacks.Keys, w);
    hide SettleStep, RunsFiber, SamePlaces, Ops, Apply;
    InPlace(s, t, v, w);
    if s.workers[w].phase.viaCallback && Dead(Rec(s.fibers, f).state) {
      OutcomeReset(s, t, a, v, f);
    } else {
      OutcomePlain(s, t, a, v);
    }
  }

  lemma StepByWorker(s: State, a: C.Stacks, v: Look, l: Label) returns (v': Look)
    requires Before(s, a, v) && Enabled(s, l)
    requires l.Scan? || l.Drop? || l.Decrement? || l.EnterIdle? || l.CheckIdle? || l.LeaveIdle? || l.Quit?
    ensures Simulates(s, a, v, l, v')
  {
    hide Inv, Before, ThreadsAgree, Outcome, Num;
    ThreadsOf(s, a, v);
    var w, t := l.w, Apply(s, l);
    MoveOther(s, l);
    if !l.Scan? {
      WorkerHasEntered(s, v, w);
    }
    v' := v;
    WorkerOps(s, v.stacks.Keys, l);
    hide Apply, Enabled, OnlyMoves, SamePlaces, Ops;
    if l.EnterIdle? {
      OutcomeEnterIdle(s, t, a, v, w);
      v' := Pushed(v, w, IdleOf(w));
    } else if l.CheckIdle? {
      OutcomeSwapOut(s, t, a, v, w);
      v' := Dropped(v, w);
    } else if l.Scan? && w !in v.stacks {
      OutcomeEnterPool(s, t, a, v, w);
      v' := Look(v.stacks[w := [MainOf(w)]], v.home + {MainOf(w)}, v.parked + {IdleOf(w)});
    } else if l.Quit? && s.root == Some(w) {
      OutcomeBack(s, t, a, v, w);
      v' := Dropped(v, w);
    } else {
      InPlace(s, t, v, w);
      OutcomePlain(s, t, a, v);
      assert l.Scan? ==> v.stacks.Keys + {w} == v.stacks.Keys;
    }
  }

  lemma StepSimulates(s: State, a: C.Stacks, v: Look, l: Label) returns (v': Look)
    requires Inv(s) && Before(s, a, v) && Enabled(s, l)
    ensures Simulates(s, a, v, l, v')
  {
    hide Inv, Before, Simulates, Free, Quiescent, Num, SameWorkers, NewFibers, ActStep, PushNew, StartStep, StopRootStep;
    match l
    case StopRoot => v' := StepRoot(s, a, v);
    case OutsideSpawn(asFiber, body, pin) =>
      MovePushNew(s, asFiber, body, pin);
      OutsideNews(s, l);
      v' := StepSpawn(s, Apply(s, l), a, v, l);
    case Act(w, wake) =>
      MoveAct(s, w, wake);
      if Suspends(s, w) {
        v' := StepSuspend(s, a, v, l);
      } else {
        v' := StepSpawn(s, ActStep(s, w, wake), a, v, l);
      }
    case SwapIn(w) => v' := StepSwapIn(s, a, v, w);
    case Settle(w) =>
      StepSettle(s, a, v, w);
      v' := v;
    case _ =>
      if l.Start? || l.StopBegin? || l.StopFlag? || l.OutsideWake? {
        StepByMain(s, a, v, l);
        v' := v;
      } else {
        v' := StepByWorker(s, a, v, l);
      }
  }

  lemma OutsideNews(s: State, l: Label)
    requires Enabled(s, l) && l.OutsideSpawn?
    ensures NewFibers(s, l) == if l.asFiber then {s.nextId} else {}
  {}

  // ---------------------------------------------------------------- every run of the scheduler

  lemma {:induction false} LegalConcat(a: C.Stacks, x: seq<C.Op>, y: seq<C.Op>)
    requires C.LegalRun(a, x) && C.LegalRun(C.AbsRun(a, x), y)
    ensures C.LegalRun(a, x + y) && C.AbsRun(a, x + y) == C.AbsRun(C.AbsRun(a, x), y)
    decreases |x|
  {
    hide C.Legal, C.AbsStep;
    if x == [] {
      assert x + y == y;
    } else {
      assert (x + y)[0] == x[0] && (x + y)[1..] == x[1..] + y;
      LegalConcat(C.AbsStep(a, x[0]), x[1..], y);
    }
  }

  lemma BeforeOf(s: State, m: C.Machine, a: C.Stacks, v: Look)
    requires C.Refines(m, a) && Sim(s, a, v)
    ensures Before(s, a, v)
  {
    hide Shows, Agrees, RootAgrees, C.DepthsTidy, C.RootsTidy, C.HomesTidy, C.LastInTidy, C.Matches;
  }

  lemma {:induction false} RunSimulates(s: State, m: C.Machine, a: C.Stacks, v: Look, ls: seq<Label>) returns (v': Look)
    requires Inv(s) && C.Refines(m, a) && Sim(s, a, v) && Runs(s, ls)
    ensures C.LegalRun(a, OpsOf(s, v.stacks.Keys, ls))
    ensures Sim(After(s, ls), C.AbsRun(a, OpsOf(s, v.stacks.Keys, ls)), v')
    decreases |ls|
  {
    hide Inv, C.Refines, Sim, Before, Enabled, Apply, Ops, C.Legal, C.AbsStep;
    if ls == [] {
      v' := v;
    } else {
      BeforeOf(s, m, a, v);
      var u := StepSimulates(s, a, v, ls[0]);
      Keeps(s, ls[0]);
      var ops := Ops(s, v.stacks.Keys, ls[0]);
      hide C.LegalRun, C.AbsRun;
      C.RunRefines(m, a, ops);
      v' := RunSimulates(Apply(s, ls[0]), C.Run(m, ops), C.AbsRun(a, ops), u, ls[1..]);
      LegalConcat(a, ops, OpsOf(Apply(s, ls[0]), u.stacks.Keys, ls[1..]));
    }
  }

  function FirstLook(s: State): Look {
    if s.root.Some? then Look(map[s.root.value := [MainOf(s.root.value)]], {MainOf(s.root.value)}, {Root})
    else Look(map[], {}, {})
  }

  lemma FirstAgrees(s: State)
    requires Initial(s)
    ensures Agrees(s, FirstLook(s)) && FirstLook(s).stacks.Keys == BegunBy(s)
  {}

  lemma BeginSimulates(s: State)
    requires Initial(s)
    ensures C.LegalRun(C.NO_STACKS, Begin(s)) && Sim(s, C.AbsRun(C.NO_STACKS, Begin(s)), FirstLook(s))
    ensures FirstLook(s).stacks.Keys == BegunBy(s)
  {
    FirstAgrees(s);
    NumInjective();
    hide Num, Agrees, Initial;
    if s.root.Some? {
      TwoOps(C.NO_STACKS, C.Make(Num(Root)), C.EnterCaller(s.root.value, Num(MainOf(s.root.value)), Num(Root)));
    }
  }

  /** All operations of a run, from the construction of the scheduler on. */
  function AllOps(s: State, ls: seq<Label>): seq<C.Op>
    requires Runs(s, ls)
  {
    Begin(s) + OpsOf(s, BegunBy(s), ls)
  }

  lemma RunIsLegal(s: State, ls: seq<Label>) returns (v: Look)
    requires Initial(s) && Runs(s, ls)
    ensures C.LegalRun(C.NO_STACKS, AllOps(s, ls)) && Sim(After(s, ls), C.AbsRun(C.NO_STACKS, AllOps(s, ls)), v)
    ensures C.Refines(C.Run(C.POWER_ON, AllOps(s, ls)), C.AbsRun(C.NO_STACKS, AllOps(s, ls)))
    ensures Inv(After(s, ls))
  {
    Invariant(s, ls);
    InitialInv(s);
    BeginSimulates(s);
    hide Inv, Initial, Sim, C.Refines, C.LegalRun, C.AbsRun, Begin, C.Run, OpsOf, FirstLook, BegunBy;
    C.StartRefines();
    C.RunRefines(C.POWER_ON, C.NO_STACKS, Begin(s));
    v := RunSimulates(s, C.Run(C.POWER_ON, Begin(s)), C.AbsRun(C.NO_STACKS, Begin(s)), FirstLook(s), ls);
    LegalConcat(C.NO_STACKS, Begin(s), OpsOf(s, BegunBy(s), ls));
    C.RunRefines(C.POWER_ON, C.NO_STACKS, AllOps(s, ls));
  }

  /** The fiber that worker w is inside of, according to the protocol. */
  function Inside(s: State, w: int): Name
    requires w in s.workers
  {
    var ph := s.workers[w].phase;
    if ph.Running? then Task(ph.fid)
    else if ph.InIdle? then IdleOf(w)
    else if s.root == Some(w) && !ph.NotStarted? && !ph.Exited? then Root
    else MainOf(w)
  }

  /** In every run of the scheduler all context switches are legal, so contexts nest like a stack; and on every thread
      t_fiber names the fiber whose code is running, which is the one the scheduler's own bookkeeping says. */
  lemma ThreadsRunWhatTheyName(s: State, ls: seq<Label>, w: int)
    requires Initial(s) && Runs(s, ls)
    ensures C.LegalRun(C.NO_STACKS, AllOps(s, ls))
    ensures var m, t := C.Run(C.POWER_ON, AllOps(s, ls)), After(s, ls);
      w in m.threads ==> w in t.workers && m.threads[w].current == m.threads[w].code == Num(Inside(t, w))
  {
    var v := RunIsLegal(s, ls);
    if w in C.Run(C.POWER_ON, AllOps(s, ls)).threads {
      C.NestingIsAStack(AllOps(s, ls), w);
      hide Initial, Runs, After, AllOps, C.LegalRun, C.AbsRun, C.Run, Num, Inv;
      hide C.DepthsTidy, C.RootsTidy, C.HomesTidy, C.LastInTidy;
      var a := C.AbsRun(C.NO_STACKS, AllOps(s, ls));
      assert w in a.stacks && w in v.stacks;
      LastExpected(After(s, ls), w);
    }
  }

  lemma LastExpected(s: State, w: int)
    requires w in s.workers
    ensures Expected(s, w) != [] && Expected(s, w)[|Expected(s, w)|-1] == Inside(s, w)
  {}

  /** When a task leaves worker w, in any run, w swapped it in last and control resumes in that very swapIn, wherever the
      fiber has been before. */
  lemma TasksReturnToTheirSwapIn(s: State, ls: seq<Label>, w: int, wake: Option<FiberId>)
    requires Initial(s) && Runs(s, ls) && Enabled(After(s, ls), Act(w, wake))
    ensures C.LegalRun(C.NO_STACKS, AllOps(s, ls))
    ensures Suspends(After(s, ls), w) ==>
      var m, a := C.Run(C.POWER_ON, AllOps(s, ls)), C.AbsRun(C.NO_STACKS, AllOps(s, ls));
      && w in m.threads
      && var f := m.threads[w].current;
      && f == Num(Task(After(s, ls).workers[w].phase.fid))
      && f in a.lastIn && a.lastIn[f].0 == w
      && C.Step(m, C.SwapOut(w)).threads[w].resumed == C.Saved(m.threads[w].mainFiber, a.lastIn[f].1)
  {
    hide Initial;
    var t, ops := After(s, ls), AllOps(s, ls);
    assert w in t.workers && t.workers[w].phase.Running?;
    hide Runs, After, AllOps, C.LegalRun, C.AbsRun, C.Run, C.Step, Num, Inv, Sim, C.Refines, Suspends, Enabled, C.Legal;
    var v := RunIsLegal(s, ls);
    if Suspends(t, w) {
      var m, a := C.Run(C.POWER_ON, ops), C.AbsRun(C.NO_STACKS, ops);
      BeforeOf(t, m, a, v);
      SuspendIsLegal(t, a, v, w, wake);
      C.YieldReturnsToItsSwapIn(ops, w);
      ThreadsRunWhatTheyName(s, ls, w);
    }
  }

  lemma SuspendIsLegal(s: State, a: C.Stacks, v: Look, w: int, wake: Option<FiberId>)
    requires Enabled(s, Act(w, wake)) && Suspends(s, w) && Inv(s) && Before(s, a, v)
    ensures C.Legal(a, C.SwapOut(w))
  {
    hide Inv, Before, Outcome;
    ThreadsOf(s, a, v);
    WorkerHasEntered(s, v, w);
    hide ThreadsAgree;
    MoveAct(s, w, wake);
    hide ActStep, OnlyMoves, Suspends, Free;
    OutcomeSwapOut(s, ActStep(s, w, wake), a, v, w);
    OutcomeIsLegal(ActStep(s, w, wake), a, C.SwapOut(w), Dropped(v, w));
  }

  lemma OutcomeIsLegal(t: State, a: C.Stacks, op: C.Op, v': Look)
    requires Outcome(t, a, [op], v')
    ensures C.Legal(a, op)
  {
    hide C.Legal, C.AbsStep;
  }
}
