/** Where fibers are dispatched: on the thread that was asked for last, for exactly which tasks. */
module Pins {
  import opened Protocol
  import opened ProtocolInvariant
  import opened ProtocolSteps
  import opened Shutdown
  import opened Bypass
  import opened Stranding

  /** For each fiber the thread asked for by the last schedule() that a caller made for it. The fiber that runs a
      callback counts as asked for where the callback was. */
  type Asked = map<FiberId, int>

  function Asks(s: State, l: Label, asked: Asked): Asked
    requires Enabled(s, l)
  {
    match l
    case OutsideSpawn(asFiber, _, pin) => if asFiber then asked[s.nextId := pin] else asked
    case OutsideWake(f, pin) => asked[f := pin]
    case Act(w, wake) =>
      (match Head(s, w)
       case Some(Spawn(asFiber, _, pin, _)) => if asFiber then asked[s.nextId := pin] else asked
       case Some(Wake(pin, _)) => if wake.Some? then asked[wake.value := pin] else asked
       case _ => asked)
    case SwapIn(w) =>
      var k := s.workers[w];
      if k.phase.entry.task.FiberTask? then asked
      else asked[if k.cbFiber.Some? then k.cbFiber.value else s.nextId := k.phase.entry.thread]
    case _ => asked
  }

  function AskedAfter(s: State, ls: seq<Label>, asked: Asked): Asked
    requires Runs(s, ls)
    decreases |ls|
  {
    if ls == [] then asked else AskedAfter(Apply(s, ls[0]), ls[1..], Asks(s, ls[0], asked))
  }

  /** If l dispatches a fiber, then to a thread that was asked for, or any was. */
  ghost predicate Honoured(s: State, asked: Asked, l: Label)
    requires Enabled(s, l)
  {
    l.Scan? ==>
      var i := FirstEligible(s.queue, l.w, s.fibers);
      i < |s.queue| && s.queue[i].task.FiberTask? ==>
        s.queue[i].task.fid in asked && (asked[s.queue[i].task.fid] == ANY || asked[s.queue[i].task.fid] == l.w)
  }

  ghost predicate HonoursPins(r: Rules) {
    forall s, ls, l ::
      (Initial(s) && Runs(s, ls) && AllAllowed(r, ls) && Enabled(After(s, ls), l)) ==>
        Honoured(After(s, ls), AskedAfter(s, ls, map[]), l)
  }

  // ---------------------------------------------------------------- without YieldToReady, or without pins

  /** Queued fibers carry the pin asked for; where nothing may be pinned, nothing is. */
  ghost predicate Followed(r: Rules, s: State, asked: Asked) {
    && s.fibers.Keys <= asked.Keys
    && (forall i :: 0 <= i < |s.queue| && s.queue[i].task.FiberTask? && s.queue[i].task.fid in asked ==>
          s.queue[i].thread == asked[s.queue[i].task.fid])
    && (PinsNothing(r) ==> forall f :: f in asked ==> asked[f] == ANY)
  }

  lemma FollowedPush(r: Rules, s: State, asked: Asked, e: Entry, f: FiberId, pin: int)
    requires Followed(r, s, asked) && Fresh(s.queue, s.workers, f)
    requires e == Entry(FiberTask(f), pin) && (PinsNothing(r) ==> pin == ANY)
    ensures Followed(r, Push(s, e), asked[f := pin])
  {}

  lemma FollowedNew(r: Rules, s: State, asked: Asked, asFiber: bool, body: Script, pin: int)
    requires Inv(s) && Followed(r, s, asked) && PinAllowed(r, pin)
    ensures Followed(r, PushNew(s, asFiber, body, pin), if asFiber then asked[s.nextId := pin] else asked)
  {
    hide Inv;
    OwnersOf(s);
    NewIdIsFresh(s);
    hide Owners, States, Counters, Conserved, Shape;
  }

  lemma FollowedAct(r: Rules, s: State, asked: Asked, w: int, wake: Option<FiberId>)
    requires Inv(s) && Obeys(r, s) && Followed(r, s, asked) && Enabled(s, Act(w, wake))
    ensures Followed(r, ActStep(s, w, wake), Asks(s, Act(w, wake), asked))
  {
    hide Inv, Obeys, Free, PushNew, Push, Holds;
    var f := s.workers[w].phase.fid;
    BodyAllowed(r, s, f);
    WorkerFacts(s, w);
    assert f in s.fibers by { HeldExists(s, w, f); }
    match Rec(s.fibers, f).body
    case None =>
    case Some(Done) =>
    case Some(Throw) =>
    case Some(Yield(ready, rest)) =>
    case Some(Spawn(asFiber, task, pin, rest)) =>
      KeepsContinue(s, w, rest);
      FollowedNew(r, Continue(s, w, rest), asked, asFiber, task, pin);
    case Some(Wake(pin, rest)) =>
      if wake.Some? {
        KeepsContinue(s, w, rest);
        FreeIsFresh(Continue(s, w, rest), wake.value);
        FollowedPush(r, Continue(s, w, rest), asked, Entry(FiberTask(wake.value), pin), wake.value, pin);
      }
  }

  lemma HeldExists(s: State, w: int, f: FiberId)
    requires Inv(s) && w in s.workers && s.workers[w].phase.Running? && s.workers[w].phase.fid == f
    ensures f in s.fibers
  {
    hide Inv;
    WorkerFacts(s, w);
  }

  lemma PoppedPin(r: Rules, s: State, w: int)
    requires Obeys(r, s) && w in s.workers && s.workers[w].phase.Popped?
    ensures PinAllowed(r, s.workers[w].phase.entry.thread)
  {
    assert WorkerAllowed(r, s.fibers, s.workers[w]);
  }

  lemma HeldIsNotQueued(s: State, w: int, f: FiberId)
    requires Inv(s) && w in s.workers && f in Holds(s.workers[w])
    ensures f in s.fibers && forall i :: 0 <= i < |s.queue| ==> s.queue[i].task != FiberTask(f)
  {
    WorkerFacts(s, w);
    OwnersOf(s);
    OthersDoNotHold(s, w, f);
    hide Inv, Owners, States, Counters, Conserved, Shape;
  }

  lemma NewIsNotQueued(s: State)
    requires Inv(s)
    ensures forall i :: 0 <= i < |s.queue| ==> s.queue[i].task != FiberTask(s.nextId)
  {
    OwnersOf(s);
    NewIdIsFresh(s);
    hide Inv, Owners, States, Counters, Conserved, Shape;
  }

  lemma FollowedSwapIn(r: Rules, s: State, asked: Asked, w: int)
    requires Inv(s) && Obeys(r, s) && Followed(r, s, asked) && Enabled(s, SwapIn(w))
    ensures Followed(r, SwapInStep(s, w), Asks(s, SwapIn(w), asked))
  {
    hide Inv, Obeys;
    var k := s.workers[w];
    PoppedPin(r, s, w);
    NewIsNotQueued(s);
    match k.phase.entry.task
    case FiberTask(f) => HeldIsNotQueued(s, w, f);
    case CallbackTask(_) =>
      if k.cbFiber.Some? {
        HeldIsNotQueued(s, w, k.cbFiber.value);
      }
  }

  lemma FollowedScan(r: Rules, s: State, asked: Asked, w: int)
    requires Followed(r, s, asked) && Enabled(s, Scan(w))
    ensures Followed(r, ScanStep(s, w), asked)
  {
    var i := FirstEligible(s.queue, w, s.fibers);
    if i < |s.queue| {
      var q' := RemoveAt(s.queue, i);
      assert forall j :: 0 <= j < |q'| ==> q'[j] == if j < i then s.queue[j] else s.queue[j+1];
    }
  }

  lemma ReturnsNotReady(r: Rules, s: State, w: int)
    requires Obeys(r, s) && !r.mayReady && w in s.workers && s.workers[w].phase.Settling?
    ensures Rec(s.fibers, s.workers[w].phase.fid).state != READY
  {
    assert WorkerAllowed(r, s.fibers, s.workers[w]);
  }

  lemma FollowedSettle(r: Rules, s: State, asked: Asked, w: int)
    requires !r.mayReady || PinsNothing(r)
    requires Inv(s) && Obeys(r, s) && Followed(r, s, asked) && Enabled(s, Settle(w))
    ensures Followed(r, SettleStep(s, w), asked)
  {
    hide Inv, Obeys;
    if !r.mayReady {
      ReturnsNotReady(r, s, w);
    }
    HeldIsNotQueued(s, w, s.workers[w].phase.fid);
  }

  lemma FollowedKept(r: Rules, s: State, asked: Asked, l: Label)
    requires !r.mayReady || PinsNothing(r)
    requires Inv(s) && Obeys(r, s) && Followed(r, s, asked) && Enabled(s, l) && LabelAllowed(r, l)
    ensures Followed(r, Apply(s, l), Asks(s, l, asked))
  {
    match l
    case Scan(w) => FollowedScan(r, s, asked, w);
    case SwapIn(w) => FollowedSwapIn(r, s, asked, w);
    case Act(w, wake) => FollowedAct(r, s, asked, w, wake);
    case Settle(w) => FollowedSettle(r, s, asked, w);
    case OutsideSpawn(asFiber, body, pin) => FollowedNew(r, s, asked, asFiber, body, pin);
    case OutsideWake(f, pin) =>
      FreeIsFresh(s, f);
      FollowedPush(r, s, asked, Entry(FiberTask(f), pin), f, pin);
    case _ => hide Inv, Obeys, Free, Quiescent;
  }

  lemma {:induction false} FollowedRuns(r: Rules, s: State, ls: seq<Label>, asked: Asked)
    requires !r.mayReady || PinsNothing(r)
    requires Inv(s) && Obeys(r, s) && Followed(r, s, asked) && Runs(s, ls) && AllAllowed(r, ls)
    ensures Inv(After(s, ls)) && Followed(r, After(s, ls), AskedAfter(s, ls, asked))
    decreases |ls|
  {
    hide Inv, Obeys, Followed, Enabled, Apply, LabelAllowed, Asks;
    if ls != [] {
      assert LabelAllowed(r, ls[0]);
      Keeps(s, ls[0]);
      ObeysKept(r, s, ls[0]);
      FollowedKept(r, s, asked, ls[0]);
      assert forall i :: 0 <= i < |ls[1..]| ==> ls[1..][i] == ls[i+1];
      FollowedRuns(r, Apply(s, ls[0]), ls[1..], Asks(s, ls[0], asked));
    }
  }

  lemma FollowedIsHonoured(r: Rules, s: State, asked: Asked, l: Label)
    requires Inv(s) && Followed(r, s, asked) && Enabled(s, l)
    ensures Honoured(s, asked, l)
  {
    OwnersOf(s);
    hide Inv, States, Counters, Conserved, Shape;
    if l.Scan? {
      var i := FirstEligible(s.queue, l.w, s.fibers);
    }
  }

  // ---------------------------------------------------------------- with both

  ghost predicate Heading(c: Setup, ls: seq<Label>, t: State, asked: Asked) {
    Reached(c, ls, t) && AskedAfter(FreshWorkers(c), ls, map[]) == asked
  }

  lemma {:induction false} AskedSnoc(s: State, ls: seq<Label>, l: Label, asked: Asked)
    requires Runs(s, ls) && Enabled(After(s, ls), l) && Runs(s, ls + [l])
    ensures AskedAfter(s, ls + [l], asked) == Asks(After(s, ls), l, AskedAfter(s, ls, asked))
    decreases |ls|
  {
    hide Apply, Enabled, Asks;
    if ls == [] {
      assert ls + [l] == [l] && [l][1..] == [];
    } else {
      assert (ls + [l])[0] == ls[0] && (ls + [l])[1..] == ls[1..] + [l];
      AskedSnoc(Apply(s, ls[0]), ls[1..], l, Asks(s, ls[0], asked));
    }
  }

  lemma Head1(c: Setup, ls: seq<Label>, t: State, asked: Asked, l: Label)
    requires c.Valid()
    requires Heading(c, ls, t, asked) && Enabled(t, l) && LabelAllowed(c.r, l)
    ensures Heading(c, ls + [l], Apply(t, l), Asks(t, l, asked))
  {
    hide Apply, Enabled, Asks, FreshWorkers, LabelAllowed;
    Go(c, ls, t, l);
    AskedSnoc(FreshWorkers(c), ls, l, map[]);
  }

  lemma YielderScheduled(c: Setup) returns (ls: seq<Label>, t: State)
    requires c.Valid()
    ensures Heading(c, ls, t, map[0 := c.second])
    ensures t.workers == (map w | w in c.all :: Worker(AtScan, None, INIT))
    ensures t.queue == [Entry(FiberTask(0), c.second)] && t.fibers == map[0 := FiberRec(INIT, Some(Yield(true, Done)))]
  {
    ls, t := [], FreshWorkers(c);
    var body := Yield(true, Done);
    var spawn := OutsideSpawn(true, body, c.second);
    assert Allowed(c.r, Done) && Allowed(c.r, body);
    hide Reached;
    assert Reached(c, [], t) by { FreshReached(c); }
    assert Heading(c, [], t, map[]);
    Head1(c, ls, t, map[], spawn);
    ls, t := ls + [spawn], Apply(t, spawn);
    hide Heading;
    Head1(c, ls, t, map[0 := c.second], Start);
    ls, t := ls + [Start], Apply(t, Start);
  }

  lemma YielderEntered(c: Setup, ls0: seq<Label>, t0: State) returns (ls: seq<Label>, t: State)
    requires c.Valid() && Heading(c, ls0, t0, map[0 := c.second])
    requires t0.workers == (map w | w in c.all :: Worker(AtScan, None, INIT))
    requires t0.queue == [Entry(FiberTask(0), c.second)] && t0.fibers == map[0 := FiberRec(INIT, Some(Yield(true, Done)))]
    ensures Heading(c, ls, t, map[0 := c.second]) && t.workers.Keys == c.all && t.queue == []
    ensures t.workers[c.first] == Worker(AtScan, None, INIT)
    ensures t.workers[c.second] == Worker(Running(0, false), None, INIT)
    ensures t.fibers == map[0 := FiberRec(EXEC, Some(Yield(true, Done)))]
  {
    hide Heading, Free, Holds;
    ls, t := ls0, t0;
    assert Eligible(t.queue[0], c.second, t.fibers);
    Head1(c, ls, t, map[0 := c.second], Scan(c.second));
    ls, t := ls + [Scan(c.second)], Apply(t, Scan(c.second));
    assert t.queue == [] && t.workers[c.second].phase == Popped(Entry(FiberTask(0), c.second));
    Head1(c, ls, t, map[0 := c.second], SwapIn(c.second));
    ls, t := ls + [SwapIn(c.second)], Apply(t, SwapIn(c.second));
  }

  lemma YielderRequeued(c: Setup, ls0: seq<Label>, t0: State) returns (ls: seq<Label>, t: State)
    requires c.Valid() && Heading(c, ls0, t0, map[0 := c.second]) && t0.workers.Keys == c.all && t0.queue == []
    requires t0.workers[c.first] == Worker(AtScan, None, INIT)
    requires t0.workers[c.second] == Worker(Running(0, false), None, INIT)
    requires t0.fibers == map[0 := FiberRec(EXEC, Some(Yield(true, Done)))]
    ensures Heading(c, ls, t, map[0 := c.second]) && t.workers.Keys == c.all
    ensures t.workers[c.first] == Worker(AtScan, None, INIT)
    ensures t.queue == [Entry(FiberTask(0), ANY)] && Rec(t.fibers, 0).state == READY
  {
    hide Heading, Free, Holds;
    ls, t := ls0, t0;
    Head1(c, ls, t, map[0 := c.second], Act(c.second, None));
    ls, t := ls + [Act(c.second, None)], Apply(t, Act(c.second, None));
    assert Rec(t.fibers, 0).state == READY && t.workers[c.second].phase == SwappedOut(0, false);
    Head1(c, ls, t, map[0 := c.second], Decrement(c.second));
    ls, t := ls + [Decrement(c.second)], Apply(t, Decrement(c.second));
    assert t.workers[c.second].phase == Settling(0, false);
    Head1(c, ls, t, map[0 := c.second], Settle(c.second));
    ls, t := ls + [Settle(c.second)], Apply(t, Settle(c.second));
  }

  /** A fiber scheduled for the second worker yields once as READY, and then the first worker takes it. */
  lemma PinCanBeLost(c: Setup) returns (ls: seq<Label>)
    requires c.Valid()
    ensures Initial(FreshWorkers(c)) && Runs(FreshWorkers(c), ls) && AllAllowed(c.r, ls)
    ensures var s, t := FreshWorkers(c), After(FreshWorkers(c), ls);
      && AskedAfter(s, ls, map[]) == map[0 := c.second]
      && Enabled(t, Scan(c.first)) && !Honoured(t, map[0 := c.second], Scan(c.first))
      && Apply(t, Scan(c.first)).workers[c.first].phase == Popped(Entry(FiberTask(0), ANY))
  {
    var ls1, t1 := YielderScheduled(c);
    var ls2, t2 := YielderEntered(c, ls1, t1);
    var t: State;
    ls, t := YielderRequeued(c, ls2, t2);
    FreshWorkersInitial(c);
    assert Eligible(t.queue[0], c.first, t.fibers);
    hide Runs, After, AllAllowed, AskedAfter, Initial, FreshWorkers;
  }

  /** Every dispatch of a fiber goes where it was last asked to go, in every run, exactly for tasks without YieldToReady
      and for tasks without pins. */
  lemma PinsHonouredExactly(r: Rules)
    ensures HonoursPins(r) <==> !r.mayReady || PinsNothing(r)
  {
    if !r.mayReady || PinsNothing(r) {
      forall s, ls, l | Initial(s) && Runs(s, ls) && AllAllowed(r, ls) && Enabled(After(s, ls), l)
        ensures Honoured(After(s, ls), AskedAfter(s, ls, map[]), l)
      {
        AlwaysHonoured(r, s, ls, l);
      }
    } else {
      var pin: int := if r.pins.None? then 0 else var p :| p in r.pins.value && p != ANY; p;
      var first := if pin == 0 then 1 else 0;
      var c := Setup(r, {first, pin}, first, pin);
      var ls := PinCanBeLost(c);
      hide Honoured, Runs, After, AllAllowed, AskedAfter, Initial, FreshWorkers, Enabled;
      assert !Honoured(After(FreshWorkers(c), ls), AskedAfter(FreshWorkers(c), ls, map[]), Scan(first));
    }
  }

  lemma AlwaysHonoured(r: Rules, s: State, ls: seq<Label>, l: Label)
    requires !r.mayReady || PinsNothing(r)
    requires Initial(s) && Runs(s, ls) && AllAllowed(r, ls) && Enabled(After(s, ls), l)
    ensures Honoured(After(s, ls), AskedAfter(s, ls, map[]), l)
  {
    assert Inv(s) by { InitialInv(s); }
    assert Obeys(r, s) && Followed(r, s, map[]) by { hide Inv; }
    hide Inv, Obeys, Followed, Honoured, Initial;
    FollowedRuns(r, s, ls, map[]);
    FollowedIsHonoured(r, After(s, ls), AskedAfter(s, ls, map[]), l);
  }
}
