/** fiber.cpp as it updates its state: m_state and m_ctx of every fiber, and the thread-local pointers. */
module FiberRuntime {
  import opened Contexts
  import P = Protocol

  type States = map<FiberId, P.FiberState>

  /** m_state across one operation; `left` is what a fiber sets for itself before it switches away. */
  function StateStep(st: States, m: Machine, op: Op, left: P.FiberState): States
    requires Switches(op) ==> op.t in m.threads
  {
    match op
    case Make(f) => st[f := P.INIT]
    case Reset(f) => st[f := P.INIT]
    case EnterPool(_, f) => st[f := P.EXEC]
    case EnterCaller(_, f, _) => st[f := P.EXEC]
    case Call(t) => st[m.threads[t].mainFiber := P.EXEC]
    case SwapIn(_, f) => st[f := P.EXEC]
    case Back(t) => st[m.threads[t].current := left]
    case SwapOut(t) => st[m.threads[t].current := left]
  }

  datatype Event = Event(op: Op, left: P.FiberState)

  /** Legal operations, each fiber leaving in a state other than EXEC. */
  ghost predicate LegalEvents(a: Stacks, es: seq<Event>)
    decreases |es|
  {
    es == [] || (Legal(a, es[0].op) && es[0].left != P.EXEC && LegalEvents(AbsStep(a, es[0].op), es[1..]))
  }

  /** Fibers that stand on some thread's stack are EXEC, all others are not. */
  ghost predicate StatesMatch(a: Stacks, st: States) {
    && st.Keys == a.home.Keys + a.parked.Keys
    && forall f :: f in st ==> (st[f] == P.EXEC <==> f in a.home)
  }

  lemma HomesApart(a: Stacks)
    requires HomesTidy(a)
    ensures a.home.Keys !! a.parked.Keys
  {
    hide Stands;
  }

  lemma PushMatches(a: Stacks, st: States, t: Tid, f: FiberId)
    requires HomesTidy(a) && StatesMatch(a, st) && t in a.stacks && a.stacks[t] != [] && f in a.parked
    ensures StatesMatch(Push(a, t, f), st[f := P.EXEC])
  {
    HomesApart(a);
    hide HomesTidy;
  }

  lemma PopMatches(a: Stacks, st: States, t: Tid, left: P.FiberState)
    requires HomesTidy(a) && StatesMatch(a, st) && t in a.stacks && |a.stacks[t]| > 1 && left != P.EXEC
    ensures StatesMatch(Pop(a, t), st[a.stacks[t][|a.stacks[t]|-1].fid := left])
  {
    HomesApart(a);
    assert Stands(a, t, |a.stacks[t]| - 1, a.stacks[t][|a.stacks[t]|-1].fid);
    hide HomesTidy;
  }

  lemma RefinesParts(m: Machine, a: Stacks)
    requires Refines(m, a)
    ensures HomesTidy(a) && DepthsTidy(a) && RootsTidy(a) && Matches(m, a)
  {
    hide HomesTidy, DepthsTidy, RootsTidy, Matches, LastInTidy;
  }

  lemma EnteringMatches(m: Machine, a: Stacks, st: States, op: Op, left: P.FiberState)
    requires Refines(m, a) && Legal(a, op) && StatesMatch(a, st) && (op.Call? || op.SwapIn?)
    ensures op.t in m.threads && StatesMatch(AbsStep(a, op), StateStep(st, m, op, left))
  {
    hide Refines, HomesTidy, DepthsTidy, RootsTidy, Matches, StatesMatch;
    RefinesParts(m, a);
    MainIsTop(m, a, op);
    var f := if op.Call? then a.roots[op.t] else op.f;
    assert op.t in a.stacks && f in a.parked;
    PushMatches(a, st, op.t, f);
    SameHomes(Push(a, op.t, f), AbsStep(a, op), st[f := P.EXEC]);
  }

  lemma SameHomes(a: Stacks, b: Stacks, st: States)
    requires StatesMatch(a, st) && b.home == a.home && b.parked == a.parked
    ensures StatesMatch(b, st)
  {}

  lemma LeavingMatches(m: Machine, a: Stacks, st: States, op: Op, left: P.FiberState)
    requires Refines(m, a) && Legal(a, op) && left != P.EXEC && StatesMatch(a, st) && (op.Back? || op.SwapOut?)
    ensures op.t in m.threads && StatesMatch(AbsStep(a, op), StateStep(st, m, op, left))
  {
    hide Refines, HomesTidy, DepthsTidy, RootsTidy, Matches, StatesMatch, Pop;
    RefinesParts(m, a);
    BelowTop(m, a, op);
    PopMatches(a, st, op.t, left);
  }

  lemma MakingMatches(m: Machine, a: Stacks, st: States, op: Op, left: P.FiberState)
    requires HomesTidy(a) && Legal(a, op) && StatesMatch(a, st) && !Switches(op)
    ensures StatesMatch(AbsStep(a, op), StateStep(st, m, op, left))
  {
    HomesApart(a);
    hide HomesTidy;
  }

  lemma EventMatches(m: Machine, a: Stacks, st: States, op: Op, left: P.FiberState)
    requires Refines(m, a) && Legal(a, op) && left != P.EXEC && StatesMatch(a, st)
    ensures Switches(op) ==> op.t in m.threads
    ensures StatesMatch(AbsStep(a, op), StateStep(st, m, op, left))
  {
    hide Refines, HomesTidy, DepthsTidy, RootsTidy, Matches, StatesMatch, Legal, AbsStep, StateStep;
    if op.Call? || op.SwapIn? {
      EnteringMatches(m, a, st, op, left);
    } else if op.Back? || op.SwapOut? {
      LeavingMatches(m, a, st, op, left);
    } else {
      RefinesParts(m, a);
      MakingMatches(m, a, st, op, left);
    }
  }

  /** In any run from power on: m_state is EXEC for exactly the fibers that stand on a stack, so swapIn's assertion holds
      whenever swapIn is legal. */
  lemma {:induction false} ExecMeansStanding(m: Machine, a: Stacks, st: States, es: seq<Event>)
      returns (m': Machine, a': Stacks, st': States)
    requires Refines(m, a) && StatesMatch(a, st) && LegalEvents(a, es)
    ensures Ends(m, a, st, es, m', a', st')
    ensures Refines(m', a') && StatesMatch(a', st')
    ensures forall t, f :: Legal(a', SwapIn(t, f)) ==> f in st' && st'[f] != P.EXEC
    decreases |es|
  {
    hide Refines, Legal, Step, AbsStep, StateStep;
    if es == [] {
      m', a', st' := m, a, st;
      forall t, f | Legal(a', SwapIn(t, f)) ensures f in st' && st'[f] != P.EXEC {
        ParkedIsNotExec(m, a, st, t, f);
      }
    } else {
      EventMatches(m, a, st, es[0].op, es[0].left);
      OpRefines(m, a, es[0].op);
      m', a', st' := ExecMeansStanding(Step(m, es[0].op), AbsStep(a, es[0].op),
                                       StateStep(st, m, es[0].op, es[0].left), es[1..]);
    }
  }

  /** es takes the machine, its stacks and the states from the first three to the last three. */
  ghost predicate Ends(m: Machine, a: Stacks, st: States, es: seq<Event>, m': Machine, a': Stacks, st': States)
    decreases |es|
  {
    if es == [] then m' == m && a' == a && st' == st
    else
      && Legal(a, es[0].op) && (Switches(es[0].op) ==> es[0].op.t in m.threads)
      && Ends(Step(m, es[0].op), AbsStep(a, es[0].op), StateStep(st, m, es[0].op, es[0].left), es[1..], m', a', st')
  }

  lemma ParkedIsNotExec(m: Machine, a: Stacks, st: States, t: Tid, f: FiberId)
    requires Refines(m, a) && StatesMatch(a, st) && Legal(a, SwapIn(t, f))
    ensures f in st && st[f] != P.EXEC
  {
    HomesApart(a);
    hide HomesTidy, LastInTidy, Matches, DepthsTidy, RootsTidy;
  }

  class Runtime {
    var state: States
    var ctx: map<FiberId, Context>
    var threads: map<Tid, Thread>
    var clock: nat

    constructor ()
      ensures Abs() == POWER_ON && state == map[]
    {
      state, ctx, threads, clock := map[], map[], map[], 0;
    }

    function Abs(): Machine
      reads this
    {
      Machine(ctx, threads, clock)
    }

    /** The object went through op, its fibers leaving as `left`. */
    twostate predicate Does(op: Op, left: P.FiberState)
      requires Switches(op) ==> op.t in old(threads)
      reads this
    {
      Abs() == Step(old(Abs()), op) && state == StateStep(old(state), old(Abs()), op, left)
    }

    /** Fiber(cb, stacksize, use_caller): an entry context and state INIT (src/fiber.cpp:68-89). */
    method Make(f: FiberId)
      modifies this
      ensures Does(Op.Make(f), P.TERM)
      ensures state == old(state)[f := P.INIT] && ctx == old(ctx)[f := Entry(f)] && threads == old(threads)
    {
      ctx := ctx[f := Entry(f)];
      state := state[f := P.INIT];
    }

    /** reset(cb) (src/fiber.cpp:109-123). */
    method Reset(f: FiberId)
      requires f in state && (state[f] == P.TERM || state[f] == P.EXCEPT || state[f] == P.INIT)
      modifies this
      ensures Does(Op.Reset(f), P.TERM)
      ensures state == old(state)[f := P.INIT] && ctx == old(ctx)[f := Entry(f)] && threads == old(threads)
    {
      ctx := ctx[f := Entry(f)];
      state := state[f := P.INIT];
    }

    /** The first GetThis() of a thread makes its thread fiber, in state EXEC (src/fiber.cpp:55-66, 161-171); run() takes
        it as the thread's main fiber unless this is the caller's thread (src/scheduler.cpp:145-149). */
    method EnterThread(t: Tid, f: FiberId, root: P.Option<FiberId>)
      modifies this
      ensures Does(if root.Some? then EnterCaller(t, f, root.value) else EnterPool(t, f), P.TERM)
      ensures state == old(state)[f := P.EXEC] && t in threads
      ensures threads[t].current == threads[t].threadFiber == f
      ensures threads[t].mainFiber == if root.Some? then root.value else f
    {
      state := state[f := P.EXEC];
      threads := threads[t := Thread(f, f, f, f, Entry(f))];
      if root.Some? {
        threads := threads[t := threads[t].(mainFiber := root.value)];
      }
    }

    method SetThis(t: Tid, f: FiberId)
      requires t in threads
      modifies this`threads
      ensures Abs() == Contexts.SetThis(old(Abs()), t, f)
    {
      threads := threads[t := threads[t].(current := f)];
    }

    method SwapContext(t: Tid, from: FiberId, to: FiberId)
      requires t in threads
      modifies this`ctx, this`threads, this`clock
      ensures Abs() == Contexts.SwapContext(old(Abs()), t, from, to)
    {
      ctx := ctx[from := Saved(threads[t].code, clock)];
      var r := if to in ctx then ctx[to] else Entry(to);
      threads := threads[t := threads[t].(code := r.code, resumed := r)];
      clock := clock + 1;
    }

    /** swapIn (src/fiber.cpp:125-133). */
    method SwapIn(t: Tid, f: FiberId)
      requires t in threads && f in state && state[f] != P.EXEC
      modifies this
      ensures Does(Op.SwapIn(t, f), P.TERM)
      ensures state == old(state)[f := P.EXEC] && t in threads && threads[t].current == f
    {
      SetThis(t, f);
      state := state[f := P.EXEC];
      SwapContext(t, threads[t].mainFiber, f);
    }

    /** swapOut of the fiber that runs on t (src/fiber.cpp:135-140). */
    method SwapOut(t: Tid)
      requires t in threads
      modifies this`ctx, this`threads, this`clock
      ensures Abs() == Step(old(Abs()), Op.SwapOut(t))
    {
      var self := threads[t].current;
      SetThis(t, threads[t].mainFiber);
      SwapContext(t, self, threads[t].mainFiber);
    }

    /** YieldToReady, YieldToHold and the end of MainFunc: the state is set before the switch (src/fiber.cpp:173-213). */
    method Leave(t: Tid, left: P.FiberState)
      requires t in threads
      modifies this
      ensures Does(Op.SwapOut(t), left)
      ensures state == old(state)[old(threads[t].current) := left]
      ensures t in threads && threads[t].current == threads[t].mainFiber == old(threads[t].mainFiber)
    {
      state := state[threads[t].current := left];
      SwapOut(t);
    }

    /** The root fiber's call() from the thread fiber (src/fiber.cpp:142-148). */
    method Call(t: Tid)
      requires t in threads
      modifies this
      ensures Does(Op.Call(t), P.TERM)
      ensures state == old(state)[old(threads[t].mainFiber) := P.EXEC]
      ensures t in threads && threads[t].current == old(threads[t].mainFiber)
    {
      var f := threads[t].mainFiber;
      SetThis(t, f);
      state := state[f := P.EXEC];
      SwapContext(t, threads[t].threadFiber, f);
    }

    /** The end of CallerMainFunc: state, then back() to the thread fiber (src/fiber.cpp:150-155, 215-239). */
    method LeaveRoot(t: Tid, left: P.FiberState)
      requires t in threads
      modifies this
      ensures Does(Op.Back(t), left)
      ensures state == old(state)[old(threads[t].current) := left]
      ensures t in threads && threads[t].current == old(threads[t].threadFiber)
    {
      state := state[threads[t].current := left];
      var self := threads[t].current;
      SetThis(t, threads[t].threadFiber);
      SwapContext(t, self, threads[t].threadFiber);
    }
  }
}
