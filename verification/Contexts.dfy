/** Context switching (src/fiber.cpp:109-239): the thread-local pointers and the saved contexts behave, on every
    thread, like a stack of fibers, and fibers may move between threads. */
module Contexts {
  type FiberId = nat
  type Tid = int

  /** What a fiber's m_ctx holds: the entry point of its function, or the point at which the fiber whose code is
      `code` was left by switch number `at`. */
  datatype Context = Entry(code: FiberId) | Saved(code: FiberId, at: nat)

  /** A thread: Fiber::t_fiber, Fiber::t_threadFiber, Scheduler::t_fiber; the fiber whose code the processor is
      really executing; and the context it resumed last. */
  datatype Thread = Thread(current: FiberId, threadFiber: FiberId, mainFiber: FiberId, code: FiberId, resumed: Context)

  datatype Machine = Machine(ctx: map<FiberId, Context>, threads: map<Tid, Thread>, clock: nat)

  datatype Op =
    | Make(f: FiberId)                                 // Fiber(cb)
    | Reset(f: FiberId)                                // reset(cb)
    | EnterPool(t: Tid, f: FiberId)                    // GetThis() and t_fiber = GetThis() on a pool thread
    | EnterCaller(t: Tid, f: FiberId, root: FiberId)   // the same on the caller's thread, with its root fiber
    | Call(t: Tid)
    | Back(t: Tid)
    | SwapIn(t: Tid, f: FiberId)
    | SwapOut(t: Tid)

  function Ctx(m: Machine, f: FiberId): Context {
    if f in m.ctx then m.ctx[f] else Entry(f)
  }

  /** swapcontext(&from->m_ctx, &to->m_ctx) executed by thread t. */
  function SwapContext(m: Machine, t: Tid, from: FiberId, to: FiberId): Machine
    requires t in m.threads
  {
    var ctx' := m.ctx[from := Saved(m.threads[t].code, m.clock)];
    var r := if to in ctx' then ctx'[to] else Entry(to);
    Machine(ctx', m.threads[t := m.threads[t].(code := r.code, resumed := r)], m.clock + 1)
  }

  function SetThis(m: Machine, t: Tid, f: FiberId): Machine
    requires t in m.threads
  {
    m.(threads := m.threads[t := m.threads[t].(current := f)])
  }

  predicate Switches(op: Op) {
    op.Call? || op.Back? || op.SwapIn? || op.SwapOut?
  }

  /** The eight operations as the source performs them. */
  function Step(m: Machine, op: Op): Machine
    requires Switches(op) ==> op.t in m.threads
  {
    match op
    case Make(f) => m.(ctx := m.ctx[f := Entry(f)])
    case Reset(f) => m.(ctx := m.ctx[f := Entry(f)])
    case EnterPool(t, f) => m.(threads := m.threads[t := Thread(f, f, f, f, Entry(f))])
    case EnterCaller(t, f, root) => m.(threads := m.threads[t := Thread(f, f, root, f, Entry(f))])
    case Call(t) => var x := m.threads[t]; SwapContext(SetThis(m, t, x.mainFiber), t, x.threadFiber, x.mainFiber)
    case Back(t) => var x := m.threads[t]; SwapContext(SetThis(m, t, x.threadFiber), t, x.current, x.threadFiber)
    case SwapIn(t, f) => var x := m.threads[t]; SwapContext(SetThis(m, t, f), t, x.mainFiber, f)
    case SwapOut(t) => var x := m.threads[t]; SwapContext(SetThis(m, t, x.mainFiber), t, x.current, x.mainFiber)
  }

  // ---------------------------------------------------------------- the stack discipline

  /** A fiber on a thread's stack and the number of the switch that left it, if it is not on top. */
  datatype Frame = Frame(fid: FiberId, left: nat)

  /** One stack per thread; `home` says where a fiber stands, `parked` how a fiber that stands nowhere will resume;
      `base` is the depth of the scheduler's main fiber; `lastIn` is history: the thread and the number of the switch
      that swapped a fiber in last. */
  datatype Stacks = Stacks(
    stacks: map<Tid, seq<Frame>>,
    base: map<Tid, nat>,
    roots: map<Tid, FiberId>,
    home: map<FiberId, (Tid, nat)>,
    parked: map<FiberId, Context>,
    resumed: map<Tid, Context>,
    lastIn: map<FiberId, (Tid, nat)>,
    clock: nat)

  function Push(a: Stacks, t: Tid, f: FiberId): Stacks
    requires t in a.stacks && a.stacks[t] != [] && f in a.parked
  {
    var s := a.stacks[t];
    var n := |s|;
    a.(stacks := a.stacks[t := s[n - 1 := s[n-1].(left := a.clock)] + [Frame(f, 0)]],
       home := a.home[f := (t, n)],
       parked := a.parked - {f},
       resumed := a.resumed[t := a.parked[f]],
       clock := a.clock + 1)
  }

  function Pop(a: Stacks, t: Tid): Stacks
    requires t in a.stacks && |a.stacks[t]| > 1
  {
    var s := a.stacks[t];
    var n := |s|;
    var f := s[n-1].fid;
    a.(stacks := a.stacks[t := s[..n-1]],
       home := a.home - {f},
       parked := a.parked[f := Saved(f, a.clock)],
       resumed := a.resumed[t := Saved(s[n-2].fid, s[n-2].left)],
       clock := a.clock + 1)
  }

  predicate Unknown(a: Stacks, f: FiberId) {
    f !in a.home && f !in a.parked && forall t :: t in a.roots ==> a.roots[t] != f
  }

  /** How the scheduler uses the operations: run() is main fiber code, only it swaps in, and only tasks swap out. */
  predicate Legal(a: Stacks, op: Op) {
    match op
    case Make(f) => Unknown(a, f)
    case Reset(f) => f in a.parked && forall t :: t in a.roots ==> a.roots[t] != f
    case EnterPool(t, f) => t !in a.stacks && Unknown(a, f)
    case EnterCaller(t, f, root) =>
      t !in a.stacks && Unknown(a, f) && root in a.parked && forall u :: u in a.roots ==> a.roots[u] != root
    case Call(t) => t in a.roots && t in a.stacks && |a.stacks[t]| == 1 && a.roots[t] in a.parked
    case Back(t) => t in a.roots && t in a.stacks && |a.stacks[t]| == 2
    case SwapIn(t, f) =>
      && t in a.stacks && t in a.base && 0 < a.base[t] == |a.stacks[t]|
      && f in a.parked && forall u :: u in a.roots ==> a.roots[u] != f
    case SwapOut(t) => t in a.stacks && t in a.base && 0 < a.base[t] == |a.stacks[t]| - 1
  }

  // Stack depths: a main fiber at the bottom (or above the caller's thread fiber), at most one task fiber above it.
  ghost predicate DepthsTidy(a: Stacks) {
    && a.base.Keys == a.stacks.Keys == a.resumed.Keys && a.roots.Keys <= a.stacks.Keys
    && (forall t :: t in a.stacks ==> 1 <= |a.stacks[t]| <= a.base[t] + 1)
    && (forall t :: t in a.stacks ==> a.base[t] == if t in a.roots then 2 else 1)
  }

  ghost predicate Stands(a: Stacks, t: Tid, i: nat, f: FiberId) {
    t in a.stacks && i < |a.stacks[t]| && a.stacks[t][i].fid == f
  }

  // Every fiber stands at its home position, or is parked and will resume its own code, but not both.
  ghost predicate HomesTidy(a: Stacks) {
    && (forall t, i: nat, f :: Stands(a, t, i, f) ==> f in a.home && a.home[f] == (t, i))
    && (forall f :: f in a.home ==> Stands(a, a.home[f].0, a.home[f].1, f))
    && a.home.Keys !! a.parked.Keys
    && (forall f :: f in a.parked ==> a.parked[f].code == f)
  }

  ghost predicate Tidy(a: Stacks) {
    DepthsTidy(a) && HomesTidy(a)
  }

  // The caller's root fiber, and no other, stands second on the caller's stack.
  ghost predicate RootsTidy(a: Stacks) {
    && (forall t :: t in a.roots && t in a.stacks && |a.stacks[t]| >= 2 ==> a.stacks[t][1].fid == a.roots[t])
    && (forall t :: t in a.roots && t in a.stacks && |a.stacks[t]| == 1 ==> a.roots[t] in a.parked)
    && (forall t, u :: t in a.roots && u in a.roots && t != u ==> a.roots[t] != a.roots[u])
  }

  /** The task fiber on t's stack was swapped in last by t, with the switch its main fiber is waiting in. */
  ghost predicate LastInAt(a: Stacks, t: Tid)
    requires t in a.stacks && t in a.base && 0 < a.base[t] == |a.stacks[t]| - 1
  {
    var f := a.stacks[t][a.base[t]].fid;
    f in a.lastIn && a.lastIn[f] == (t, a.stacks[t][a.base[t]-1].left)
  }

  ghost predicate LastInTidy(a: Stacks) {
    forall t :: t in a.stacks && t in a.base && 0 < a.base[t] && |a.stacks[t]| == a.base[t] + 1 ==> LastInAt(a, t)
  }

  function AbsStep(a: Stacks, op: Op): Stacks
    requires Legal(a, op)
  {
    match op
    case Make(f) => a.(parked := a.parked[f := Entry(f)])
    case Reset(f) => a.(parked := a.parked[f := Entry(f)])
    case EnterPool(t, f) => Open(a, t, f, 1)
    case EnterCaller(t, f, root) => Open(a, t, f, 2).(roots := a.roots[t := root])
    case Call(t) => Push(a, t, a.roots[t])
    case Back(t) => Pop(a, t)
    case SwapIn(t, f) => Push(a, t, f).(lastIn := a.lastIn[f := (t, a.clock)])
    case SwapOut(t) => Pop(a, t)
  }

  function Open(a: Stacks, t: Tid, f: FiberId, base: nat): Stacks {
    a.(stacks := a.stacks[t := [Frame(f, 0)]], base := a.base[t := base], home := a.home[f := (t, 0)],
       resumed := a.resumed[t := Entry(f)])
  }

  /** The machine is what the stacks say: t_fiber is the fiber whose code runs, the top of the stack; everyone below
      will resume exactly where the switch that left it was called. */
  ghost predicate ThreadMatches(m: Machine, a: Stacks, t: Tid)
    requires t in a.stacks && t in m.threads && t in a.resumed
  {
    var s, x := a.stacks[t], m.threads[t];
    && s != []
    && x.current == x.code == s[|s|-1].fid
    && x.threadFiber == s[0].fid
    && x.mainFiber == (if t in a.roots then a.roots[t] else s[0].fid)
    && x.resumed == a.resumed[t]
    && forall i :: 0 <= i < |s| - 1 ==> Ctx(m, s[i].fid) == Saved(s[i].fid, s[i].left)
  }

  ghost predicate Matches(m: Machine, a: Stacks) {
    && m.clock == a.clock && m.threads.Keys == a.stacks.Keys == a.resumed.Keys
    && (forall t :: t in a.stacks ==> ThreadMatches(m, a, t))
    && (forall f :: f in a.parked ==> Ctx(m, f) == a.parked[f])
  }

  ghost predicate Refines(m: Machine, a: Stacks) {
    Tidy(a) && RootsTidy(a) && LastInTidy(a) && Matches(m, a)
  }

  // ---------------------------------------------------------------- pushing and popping keep the stacks tidy

  lemma HomesPush(a: Stacks, t: Tid, f: FiberId)
    requires HomesTidy(a) && t in a.stacks && f in a.parked && a.stacks[t] != []
    ensures HomesTidy(Push(a, t, f))
  {
    var b, n := Push(a, t, f), |a.stacks[t]|;
    forall u, i: nat, g | Stands(b, u, i, g) ensures g in b.home && b.home[g] == (u, i) {
      if (u, i) != (t, n) {
        assert Stands(a, u, i, g);
      }
    }
    forall g | g in b.home ensures Stands(b, b.home[g].0, b.home[g].1, g) {
      if g != f {
        assert Stands(a, a.home[g].0, a.home[g].1, g);
      }
    }
  }

  lemma TidyPush(a: Stacks, t: Tid, f: FiberId)
    requires Tidy(a) && t in a.stacks && f in a.parked && |a.stacks[t]| <= a.base[t]
    ensures Tidy(Push(a, t, f))
  {
    hide HomesTidy;
    HomesPush(a, t, f);
  }

  lemma HomesPop(a: Stacks, t: Tid)
    requires HomesTidy(a) && t in a.stacks && |a.stacks[t]| > 1
    ensures HomesTidy(Pop(a, t))
  {
    var b, n := Pop(a, t), |a.stacks[t]|;
    var f := a.stacks[t][n-1].fid;
    assert Stands(a, t, n - 1, f);
    forall u, i: nat, g | Stands(b, u, i, g) ensures g in b.home && b.home[g] == (u, i) {
      assert Stands(a, u, i, g);
    }
    forall g | g in b.home ensures Stands(b, b.home[g].0, b.home[g].1, g) {
      assert Stands(a, a.home[g].0, a.home[g].1, g);
    }
  }

  lemma TidyPop(a: Stacks, t: Tid)
    requires Tidy(a) && t in a.stacks && |a.stacks[t]| > 1
    ensures Tidy(Pop(a, t))
  {
    hide HomesTidy;
    HomesPop(a, t);
  }

  lemma HomesSame(a: Stacks, b: Stacks)
    requires HomesTidy(a) && b.stacks == a.stacks && b.home == a.home && b.parked == a.parked
    ensures HomesTidy(b)
  {
    forall u, i: nat, g | Stands(b, u, i, g) ensures g in b.home && b.home[g] == (u, i) {
      assert Stands(a, u, i, g);
    }
    forall g | g in b.home ensures Stands(b, b.home[g].0, b.home[g].1, g) {
      assert Stands(a, a.home[g].0, a.home[g].1, g);
    }
  }

  /** A fiber at another position is another fiber. */
  lemma HomesDiffer(a: Stacks, t: Tid, i: nat, u: Tid, j: nat)
    requires HomesTidy(a) && t in a.stacks && u in a.stacks && i < |a.stacks[t]| && j < |a.stacks[u]| && (t, i) != (u, j)
    ensures a.stacks[t][i].fid != a.stacks[u][j].fid
  {
    assert Stands(a, t, i, a.stacks[t][i].fid);
    assert Stands(a, u, j, a.stacks[u][j].fid);
  }

  lemma ParkedStandsNowhere(a: Stacks, f: FiberId)
    requires HomesTidy(a) && f !in a.home
    ensures forall t, i: nat :: t in a.stacks && i < |a.stacks[t]| ==> a.stacks[t][i].fid != f
  {
    forall t, i: nat | t in a.stacks && i < |a.stacks[t]| ensures a.stacks[t][i].fid != f {
      assert Stands(a, t, i, a.stacks[t][i].fid);
    }
  }

  // ---------------------------------------------------------------- a switch refines a push or a pop

  lemma SwitchFrame(m: Machine, a: Stacks, t: Tid, from: FiberId, m': Machine, b: Stacks, u: Tid)
    requires Matches(m, a) && u in a.stacks && u != t && u in b.stacks && u in m'.threads && u in b.resumed
    requires b.stacks[u] == a.stacks[u] && b.resumed[u] == a.resumed[u] && b.roots == a.roots
    requires m'.threads[u] == m.threads[u]
    requires forall g :: g != from ==> Ctx(m', g) == Ctx(m, g)
    requires forall i :: 0 <= i < |a.stacks[u]| ==> a.stacks[u][i].fid != from
    ensures ThreadMatches(m', b, u)
  {
    assert ThreadMatches(m, a, u);
  }

  lemma PushRefines(m: Machine, a: Stacks, t: Tid, f: FiberId)
    requires Tidy(a) && Matches(m, a) && t in a.stacks && f in a.parked && a.stacks[t] != []
    ensures Matches(SwapContext(SetThis(m, t, f), t, a.stacks[t][|a.stacks[t]|-1].fid, f), Push(a, t, f))
  {
    var s := a.stacks[t];
    var n := |s|;
    var from := s[n-1].fid;
    var b, m' := Push(a, t, f), SwapContext(SetThis(m, t, f), t, from, f);
    assert ThreadMatches(m, a, t);
    assert Stands(a, t, n - 1, from);
    forall u | u in b.stacks ensures ThreadMatches(m', b, u) {
      if u == t {
        PushTop(m, a, t, f);
      } else {
        forall i | 0 <= i < |a.stacks[u]| ensures a.stacks[u][i].fid != from { HomesDiffer(a, u, i, t, n - 1); }
        SwitchFrame(m, a, t, from, m', b, u);
      }
    }
    hide ThreadMatches, DepthsTidy;
    forall g | g in b.parked ensures Ctx(m', g) == b.parked[g] {
      assert g in a.parked && g != from;
    }
  }

  lemma PushTop(m: Machine, a: Stacks, t: Tid, f: FiberId)
    requires Tidy(a) && Matches(m, a) && t in a.stacks && f in a.parked && a.stacks[t] != []
    ensures ThreadMatches(SwapContext(SetThis(m, t, f), t, a.stacks[t][|a.stacks[t]|-1].fid, f), Push(a, t, f), t)
  {
    var s := a.stacks[t];
    var n := |s|;
    var from := s[n-1].fid;
    var b, m' := Push(a, t, f), SwapContext(SetThis(m, t, f), t, from, f);
    assert ThreadMatches(m, a, t);
    assert Stands(a, t, n - 1, from);
    assert from != f;
    var s' := b.stacks[t];
    forall i | 0 <= i < |s'| - 1 ensures Ctx(m', s'[i].fid) == Saved(s'[i].fid, s'[i].left) {
      if i < n - 1 {
        HomesDiffer(a, t, i, t, n - 1);
        assert s'[i] == s[i];
      }
    }
  }

  lemma PopRefines(m: Machine, a: Stacks, t: Tid)
    requires Tidy(a) && Matches(m, a) && t in a.stacks && |a.stacks[t]| > 1
    ensures var s := a.stacks[t]; var f, g := s[|s|-1].fid, s[|s|-2].fid;
      Matches(SwapContext(SetThis(m, t, g), t, f, g), Pop(a, t))
  {
    var s := a.stacks[t];
    var n := |s|;
    var f, g := s[n-1].fid, s[n-2].fid;
    var b, m' := Pop(a, t), SwapContext(SetThis(m, t, g), t, f, g);
    assert ThreadMatches(m, a, t);
    HomesDiffer(a, t, n - 1, t, n - 2);
    forall u | u in b.stacks ensures ThreadMatches(m', b, u) {
      if u == t {
        PopTop(m, a, t);
      } else {
        forall i | 0 <= i < |a.stacks[u]| ensures a.stacks[u][i].fid != f { HomesDiffer(a, u, i, t, n - 1); }
        SwitchFrame(m, a, t, f, m', b, u);
      }
    }
    hide ThreadMatches, DepthsTidy, HomesTidy;
  }

  lemma PopTop(m: Machine, a: Stacks, t: Tid)
    requires Tidy(a) && Matches(m, a) && t in a.stacks && |a.stacks[t]| > 1
    ensures var s := a.stacks[t]; var f, g := s[|s|-1].fid, s[|s|-2].fid;
      ThreadMatches(SwapContext(SetThis(m, t, g), t, f, g), Pop(a, t), t)
  {
    var s := a.stacks[t];
    var n := |s|;
    var f, g := s[n-1].fid, s[n-2].fid;
    var b, m' := Pop(a, t), SwapContext(SetThis(m, t, g), t, f, g);
    assert ThreadMatches(m, a, t);
    assert Ctx(m, g) == Saved(g, s[n-2].left);
    forall i | 0 <= i < n - 1 ensures s[i].fid != f { HomesDiffer(a, t, i, t, n - 1); }
  }

  // ---------------------------------------------------------------- roots and history

  lemma RootsKept(a: Stacks, op: Op)
    requires Tidy(a) && RootsTidy(a) && Legal(a, op)
    ensures RootsTidy(AbsStep(a, op))
  {
    hide HomesTidy;
  }

  lemma LastInKept(a: Stacks, op: Op)
    requires Tidy(a) && LastInTidy(a) && Legal(a, op)
    ensures LastInTidy(AbsStep(a, op))
  {
    var b := AbsStep(a, op);
    forall t | t in b.stacks && t in b.base && 0 < b.base[t] && |b.stacks[t]| == b.base[t] + 1
      ensures LastInAt(b, t)
    {
      if op.SwapIn? && t != op.t {
        assert Stands(a, t, a.base[t], a.stacks[t][a.base[t]].fid);
        assert LastInAt(a, t);
      } else if !op.SwapIn? {
        assert t in a.stacks && a.stacks[t] == b.stacks[t] && a.base[t] == b.base[t];
        assert LastInAt(a, t);
      }
    }
  }

  // ---------------------------------------------------------------- every operation refines its abstract one

  lemma OpRefines(m: Machine, a: Stacks, op: Op)
    requires Refines(m, a) && Legal(a, op)
    ensures Refines(Step(m, op), AbsStep(a, op))
  {
    RootsKept(a, op);
    LastInKept(a, op);
    hide RootsTidy, LastInTidy, DepthsTidy, HomesTidy, Step, AbsStep, Legal, Matches;
    match op
    case Make(_) => MakeRefines(m, a, op);
    case Reset(_) => MakeRefines(m, a, op);
    case EnterPool(t, f) => EnterRefines(m, a, op);
    case EnterCaller(t, f, _) => EnterRefines(m, a, op);
    case Call(t) => PushOpRefines(m, a, op);
    case SwapIn(t, f) => PushOpRefines(m, a, op);
    case Back(t) => PopOpRefines(m, a, op);
    case SwapOut(t) => PopOpRefines(m, a, op);
  }

  lemma MakeHomes(a: Stacks, op: Op)
    requires HomesTidy(a) && Legal(a, op) && (op.Make? || op.Reset?)
    ensures HomesTidy(AbsStep(a, op)) && op.f !in a.home
  {
    var b := AbsStep(a, op);
    forall t, i: nat, g | Stands(b, t, i, g) ensures g in b.home && b.home[g] == (t, i) { assert Stands(a, t, i, g); }
    forall g | g in b.home ensures Stands(b, b.home[g].0, b.home[g].1, g) {
      assert Stands(a, a.home[g].0, a.home[g].1, g);
    }
  }

  lemma MakeRefines(m: Machine, a: Stacks, op: Op)
    requires Tidy(a) && Matches(m, a) && Legal(a, op) && (op.Make? || op.Reset?)
    ensures Tidy(AbsStep(a, op)) && Matches(Step(m, op), AbsStep(a, op))
  {
    hide HomesTidy;
    var m', b, f := Step(m, op), AbsStep(a, op), op.f;
    MakeHomes(a, op);
    ParkedStandsNowhere(a, f);
    forall t | t in b.stacks ensures ThreadMatches(m', b, t) {
      assert ThreadMatches(m, a, t);
    }
  }

  lemma EnterTidy(a: Stacks, t: Tid, f: FiberId, base: nat)
    requires HomesTidy(a) && t !in a.stacks && f !in a.home && f !in a.parked
    ensures HomesTidy(Open(a, t, f, base))
  {
    var b := Open(a, t, f, base);
    forall u, i: nat, g | Stands(b, u, i, g) ensures g in b.home && b.home[g] == (u, i) {
      if u != t { assert Stands(a, u, i, g); }
    }
    forall g | g in b.home ensures Stands(b, b.home[g].0, b.home[g].1, g) {
      if g != f { assert Stands(a, a.home[g].0, a.home[g].1, g); }
    }
  }

  lemma EnterHomes(a: Stacks, op: Op)
    requires HomesTidy(a) && Legal(a, op) && (op.EnterPool? || op.EnterCaller?)
    ensures HomesTidy(AbsStep(a, op))
  {
    hide HomesTidy;
    var o := Open(a, op.t, op.f, if op.EnterPool? then 1 else 2);
    EnterTidy(a, op.t, op.f, if op.EnterPool? then 1 else 2);
    HomesSame(o, AbsStep(a, op));
  }

  lemma EnterDepths(a: Stacks, op: Op)
    requires DepthsTidy(a) && Legal(a, op) && (op.EnterPool? || op.EnterCaller?)
    ensures DepthsTidy(AbsStep(a, op))
  {
    assert op.t !in a.roots;
  }

  lemma EnterRefines(m: Machine, a: Stacks, op: Op)
    requires Tidy(a) && Matches(m, a) && Legal(a, op) && (op.EnterPool? || op.EnterCaller?)
    ensures Tidy(AbsStep(a, op)) && Matches(Step(m, op), AbsStep(a, op))
  {
    hide HomesTidy, DepthsTidy, Matches, AbsStep, Legal;
    EnterHomes(a, op);
    EnterDepths(a, op);
    EnterMatches(m, a, op);
  }

  lemma EnterMatches(m: Machine, a: Stacks, op: Op)
    requires DepthsTidy(a) && Matches(m, a) && Legal(a, op) && (op.EnterPool? || op.EnterCaller?)
    ensures Matches(Step(m, op), AbsStep(a, op))
  {
    var m', b := Step(m, op), AbsStep(a, op);
    forall t | t in b.stacks ensures ThreadMatches(m', b, t) {
      if t != op.t { assert ThreadMatches(m, a, t); }
    }
  }

  lemma PushOpRefines(m: Machine, a: Stacks, op: Op)
    requires Tidy(a) && RootsTidy(a) && Matches(m, a) && Legal(a, op) && (op.Call? || op.SwapIn?)
    ensures Tidy(AbsStep(a, op)) && Matches(Step(m, op), AbsStep(a, op))
  {
    hide HomesTidy, Matches, Push, SwapContext, RootsTidy;
    var t := op.t;
    var f := if op.Call? then a.roots[t] else op.f;
    TidyPush(a, t, f);
    PushRefines(m, a, t, f);
    MainIsTop(m, a, op);
    SameButHistory(Push(a, t, f), AbsStep(a, op));
    MatchesIgnoresHistory(Step(m, op), Push(a, t, f), AbsStep(a, op));
  }

  lemma SameButHistory(a: Stacks, b: Stacks)
    requires Tidy(a) && b == a.(lastIn := b.lastIn)
    ensures Tidy(b)
  {
    HomesSame(a, b);
    hide HomesTidy;
  }

  lemma MatchesIgnoresHistory(m: Machine, a: Stacks, b: Stacks)
    requires Matches(m, a) && b == a.(lastIn := b.lastIn)
    ensures Matches(m, b)
  {
    forall t | t in b.stacks ensures ThreadMatches(m, b, t) { assert ThreadMatches(m, a, t); }
  }

  /** The fiber that call() and swapIn() save into is the one on top of the stack. */
  lemma MainIsTop(m: Machine, a: Stacks, op: Op)
    requires DepthsTidy(a) && RootsTidy(a) && Matches(m, a) && Legal(a, op) && (op.Call? || op.SwapIn?)
    ensures op.t in m.threads
    ensures var x, s := m.threads[op.t], a.stacks[op.t];
      s != [] && s[|s|-1].fid == (if op.Call? then x.threadFiber else x.mainFiber)
    ensures op.Call? ==> m.threads[op.t].mainFiber == a.roots[op.t]
  {
    assert ThreadMatches(m, a, op.t);
  }

  /** The fiber that back() and swapOut() return to is the one below the top. */
  lemma BelowTop(m: Machine, a: Stacks, op: Op)
    requires DepthsTidy(a) && RootsTidy(a) && Matches(m, a) && Legal(a, op) && (op.Back? || op.SwapOut?)
    ensures op.t in m.threads && |a.stacks[op.t]| > 1
    ensures var x, s := m.threads[op.t], a.stacks[op.t];
      && s[|s|-1].fid == x.current
      && s[|s|-2].fid == (if op.Back? then x.threadFiber else x.mainFiber)
  {
    assert ThreadMatches(m, a, op.t);
  }

  lemma PopOpRefines(m: Machine, a: Stacks, op: Op)
    requires Tidy(a) && RootsTidy(a) && Matches(m, a) && Legal(a, op) && (op.Back? || op.SwapOut?)
    ensures Tidy(AbsStep(a, op)) && Matches(Step(m, op), AbsStep(a, op))
  {
    hide HomesTidy, DepthsTidy, Matches, Pop, SwapContext, RootsTidy;
    BelowTop(m, a, op);
    TidyPop(a, op.t);
    PopRefines(m, a, op.t);
  }

  // ---------------------------------------------------------------- runs

  const POWER_ON := Machine(map[], map[], 0)
  const NO_STACKS := Stacks(map[], map[], map[], map[], map[], map[], map[], 0)

  ghost predicate LegalRun(a: Stacks, ops: seq<Op>)
    decreases |ops|
  {
    ops == [] || (Legal(a, ops[0]) && LegalRun(AbsStep(a, ops[0]), ops[1..]))
  }

  ghost function AbsRun(a: Stacks, ops: seq<Op>): Stacks
    requires LegalRun(a, ops)
    decreases |ops|
  {
    if ops == [] then a else AbsRun(AbsStep(a, ops[0]), ops[1..])
  }

  ghost function Run(m: Machine, ops: seq<Op>): Machine
    decreases |ops|
  {
    if ops == [] then m
    else if Switches(ops[0]) && ops[0].t !in m.threads then Run(m, ops[1..])
    else Run(Step(m, ops[0]), ops[1..])
  }

  lemma LegalThread(m: Machine, a: Stacks, op: Op)
    requires Refines(m, a) && Legal(a, op) && Switches(op)
    ensures op.t in m.threads
  {
    hide RootsTidy, LastInTidy, DepthsTidy, HomesTidy, ThreadMatches;
  }

  lemma {:induction false} RunRefines(m: Machine, a: Stacks, ops: seq<Op>)
    requires Refines(m, a) && LegalRun(a, ops)
    ensures Refines(Run(m, ops), AbsRun(a, ops))
    decreases |ops|
  {
    hide Refines, Legal, Step, AbsStep;
    if ops != [] {
      if Switches(ops[0]) { LegalThread(m, a, ops[0]); }
      OpRefines(m, a, ops[0]);
      RunRefines(Step(m, ops[0]), AbsStep(a, ops[0]), ops[1..]);
    }
  }

  lemma StartRefines()
    ensures Refines(POWER_ON, NO_STACKS)
  {}

  /** In every run the thread-local pointers and saved contexts are a stack of fibers per thread, no fiber stands on
      two stacks, and t_fiber is the fiber whose code is running. */
  lemma NestingIsAStack(ops: seq<Op>, t: Tid)
    requires LegalRun(NO_STACKS, ops) && t in Run(POWER_ON, ops).threads
    ensures var m, a := Run(POWER_ON, ops), AbsRun(NO_STACKS, ops);
      && Refines(m, a)
      && m.threads[t].current == m.threads[t].code
      && 1 <= |a.stacks[t]| <= 3
      && a.stacks[t][|a.stacks[t]|-1].fid == m.threads[t].current
  {
    StartRefines();
    RunRefines(POWER_ON, NO_STACKS, ops);
    var m, a := Run(POWER_ON, ops), AbsRun(NO_STACKS, ops);
    hide Run, AbsRun, LegalRun, RootsTidy, LastInTidy, HomesTidy;
    assert ThreadMatches(m, a, t);
  }

  /** When the running task leaves thread t, it was t that swapped it in last, and control resumes in that very
      swapIn, although the fiber may have been started and continued on other threads before. */
  lemma YieldReturnsToItsSwapIn(ops: seq<Op>, t: Tid)
    requires LegalRun(NO_STACKS, ops) && Legal(AbsRun(NO_STACKS, ops), SwapOut(t))
    ensures var m, a := Run(POWER_ON, ops), AbsRun(NO_STACKS, ops);
      && t in m.threads
      && var f := m.threads[t].current;
      && f in a.lastIn && a.lastIn[f].0 == t
      && var m' := Step(m, SwapOut(t));
      && m'.threads[t].resumed == Saved(m.threads[t].mainFiber, a.lastIn[f].1)
      && m'.threads[t].code == m'.threads[t].current == m.threads[t].mainFiber
      && Ctx(m', f) == Saved(f, m.clock)
  {
    StartRefines();
    RunRefines(POWER_ON, NO_STACKS, ops);
    hide Run, AbsRun, LegalRun;
    PopReturns(Run(POWER_ON, ops), AbsRun(NO_STACKS, ops), t);
  }

  lemma PopReturns(m: Machine, a: Stacks, t: Tid)
    requires Refines(m, a) && Legal(a, SwapOut(t))
    ensures t in m.threads
      && var f := m.threads[t].current;
      && f in a.lastIn && a.lastIn[f].0 == t
      && var m' := Step(m, SwapOut(t));
      && m'.threads[t].resumed == Saved(m.threads[t].mainFiber, a.lastIn[f].1)
      && m'.threads[t].code == m'.threads[t].current == m.threads[t].mainFiber
      && Ctx(m', f) == Saved(f, m.clock)
  {
    hide HomesTidy, RootsTidy;
    BelowTop(m, a, SwapOut(t));
    assert ThreadMatches(m, a, t) && LastInAt(a, t);
    hide DepthsTidy, LastInTidy;
    var n := |a.stacks[t]|;
    HomesDiffer(a, t, n - 1, t, n - 2);
  }

  // ---------------------------------------------------------------- what the history says

  /** How many context switches there are in ops. */
  function Switched(ops: seq<Op>): nat {
    if ops == [] then 0 else (if Switches(ops[0]) then 1 else 0) + Switched(ops[1..])
  }

  predicate EntersFiber(op: Op, f: FiberId) {
    op.SwapIn? && op.f == f
  }

  lemma StepHistory(a: Stacks, op: Op, f: FiberId)
    requires Legal(a, op)
    ensures AbsStep(a, op).clock == a.clock + if Switches(op) then 1 else 0
    ensures EntersFiber(op, f) ==> f in AbsStep(a, op).lastIn && AbsStep(a, op).lastIn[f] == (op.t, a.clock)
    ensures !EntersFiber(op, f) ==> (f in AbsStep(a, op).lastIn <==> f in a.lastIn)
                                    && (f in a.lastIn ==> AbsStep(a, op).lastIn[f] == a.lastIn[f])
  {}

  lemma {:induction false} NotEntered(a: Stacks, ops: seq<Op>, f: FiberId)
    requires LegalRun(a, ops) && forall j :: 0 <= j < |ops| ==> !EntersFiber(ops[j], f)
    ensures f in AbsRun(a, ops).lastIn <==> f in a.lastIn
    ensures f in a.lastIn ==> AbsRun(a, ops).lastIn[f] == a.lastIn[f]
    decreases |ops|
  {
    hide Legal, AbsStep, EntersFiber;
    if ops != [] {
      StepHistory(a, ops[0], f);
      NotEntered(AbsStep(a, ops[0]), ops[1..], f);
    }
  }

  /** Switches are numbered one after the other, and lastIn is the thread and the number of the last swapIn of the fiber. */
  lemma {:induction false} LastSwapIn(a: Stacks, ops: seq<Op>, k: nat, f: FiberId)
    requires LegalRun(a, ops) && k < |ops| && EntersFiber(ops[k], f)
    requires forall j :: k < j < |ops| ==> !EntersFiber(ops[j], f)
    ensures f in AbsRun(a, ops).lastIn
    ensures AbsRun(a, ops).lastIn[f] == (ops[k].t, a.clock + Switched(ops[..k]))
    decreases k
  {
    hide Legal, AbsStep, EntersFiber;
    StepHistory(a, ops[0], f);
    if k == 0 {
      NotEntered(AbsStep(a, ops[0]), ops[1..], f);
    } else {
      LastSwapIn(AbsStep(a, ops[0]), ops[1..], k - 1, f);
      assert ops[..k][1..] == ops[1..][..k-1];
    }
  }

  lemma {:induction false} SwitchesAreNumbered(a: Stacks, ops: seq<Op>)
    requires LegalRun(a, ops)
    ensures AbsRun(a, ops).clock == a.clock + Switched(ops)
    decreases |ops|
  {
    hide Legal, AbsStep;
    if ops != [] {
      StepHistory(a, ops[0], 0);
      SwitchesAreNumbered(AbsStep(a, ops[0]), ops[1..]);
    }
  }
}
