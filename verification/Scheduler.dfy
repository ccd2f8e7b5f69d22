/** The scheduler object itself: each critical section of scheduler.cpp as a method that updates the fields in place
    and is proved to make exactly the step of Protocol. */
module SchedulerObject {
  import opened Protocol
  import opened ProtocolInvariant

  function EntryOf(t: Option<Task>): seq<Entry> {
    if t.Some? then [Entry(t.value, ANY)] else []
  }

  /** The non-empty elements of a batch, in order, as unpinned entries. */
  function BatchEntries(src: seq<Option<Task>>): seq<Entry> {
    if src == [] then [] else EntryOf(src[0]) + BatchEntries(src[1..])
  }

  lemma {:induction false} BatchSnoc(src: seq<Option<Task>>, t: Option<Task>)
    ensures BatchEntries(src + [t]) == BatchEntries(src) + EntryOf(t)
  {
    hide EntryOf;
    if src == [] {
      assert src + [t] == [t];
    } else {
      BatchSnoc(src[1..], t);
      assert (src + [t])[0] == src[0] && (src + [t])[1..] == src[1..] + [t];
    }
  }

  lemma {:induction false} ScanPrefix(queue: seq<Entry>, w: int, fibers: Fibers, i: nat)
    requires i <= |queue|
    requires forall j :: 0 <= j < i ==> !Eligible(queue[j], w, fibers)
    requires i < |queue| ==> Eligible(queue[i], w, fibers)
    ensures FirstEligible(queue, w, fibers) == i
  {
    hide Eligible;
  }

  class Scheduler {
    var queue: seq<Entry>
    var fibers: Fibers
    var workers: Workers
    const root: Option<int>
    var active: int
    var idling: int
    var autoStop: bool
    var stopping: bool
    var main: MainPc
    var nextId: FiberId
    var scheduled: seq<Entry>
    var dispatched: seq<Dispatch>

    ghost function Abs(): State
      reads this
    {
      State(queue, fibers, workers, root, active, idling, autoStop, stopping, main, nextId, scheduled, dispatched)
    }

    /** Scheduler(threads, use_caller): nobody has entered run() yet (src/scheduler.cpp:25-47, src/scheduler.h:135-140). */
    constructor (ids: set<int>, caller: Option<int>)
      requires (exists w :: w in ids) && ANY !in ids && (caller.Some? ==> caller.value in ids)
      ensures Initial(Abs()) && workers.Keys == ids && root == caller
    {
      queue, fibers := [], map[];
      workers := map w | w in ids :: Worker(NotStarted, None, INIT);
      root := caller;
      active, idling := 0, 0;
      autoStop, stopping := false, true;
      main := Created;
      nextId := 0;
      scheduled, dispatched := [], [];
      new;
      var w :| w in ids;
      assert w in workers;
    }

    // -------------------------------------------------------------- scheduler.h

    /** scheduleNoLock: append a non-empty task, and say whether the queue was empty (src/scheduler.h:81-89). */
    method ScheduleNoLock(task: Option<Task>, thread: int) returns (needTickle: bool)
      modifies this`queue, this`scheduled
      ensures Abs() == if task.Some? then Push(old(Abs()), Entry(task.value, thread)) else old(Abs())
      ensures queue == old(queue) + if task.Some? then [Entry(task.value, thread)] else []
      ensures needTickle <==> old(queue) == []
    {
      needTickle := queue == [];
      if task.Some? {
        queue := queue + [Entry(task.value, thread)];
        scheduled := scheduled + [Entry(task.value, thread)];
      }
    }

    /** Batch schedule: every element is moved out of its place, the non-empty ones are appended in order
        (src/scheduler.h:52-67, 95-115). */
    method ScheduleBatch(src: array<Option<Task>>) returns (needTickle: bool)
      modifies this`queue, this`scheduled, src
      ensures Abs() == old(Abs()).(queue := old(queue) + BatchEntries(old(src[..])),
                                   scheduled := old(scheduled) + BatchEntries(old(src[..])))
      ensures forall i :: 0 <= i < src.Length ==> src[i] == None
      ensures needTickle <==> old(queue) == [] && src.Length > 0
    {
      needTickle := false;
      var i := 0;
      while i < src.Length
        invariant 0 <= i <= src.Length
        invariant queue == old(queue) + BatchEntries(old(src[..])[..i])
        invariant scheduled == old(scheduled) + BatchEntries(old(src[..])[..i])
        invariant forall j :: 0 <= j < i ==> src[j] == None
        invariant forall j :: i <= j < src.Length ==> src[j] == old(src[j])
        invariant needTickle <==> old(queue) == [] && i > 0
      {
        ghost var before := old(src[..]);
        assert before[..i+1] == before[..i] + [before[i]];
        BatchSnoc(before[..i], before[i]);
        var task := src[i];
        src[i] := None;
        var empty := ScheduleNoLock(task, ANY);
        needTickle := empty || needTickle;
        i := i + 1;
      }
      assert old(src[..])[..i] == old(src[..]);
    }

    /** Make a fiber and schedule it. */
    method ScheduleFiber(body: Script, pin: int)
      modifies this
      ensures Abs() == PushNew(old(Abs()), true, body, pin)
      ensures queue == old(queue) + [Entry(FiberTask(old(nextId)), pin)]
      ensures fibers == old(fibers)[old(nextId) := FiberRec(INIT, Some(body))]
    {
      var f := nextId;
      fibers := fibers[f := FiberRec(INIT, Some(body))];
      nextId := nextId + 1;
      var _ := ScheduleNoLock(Some(FiberTask(f)), pin);
    }

    // -------------------------------------------------------------- run()

    /** The locked scan: skip entries pinned elsewhere and fibers in state EXEC, take the first other one and count
        this worker as active before unlocking (src/scheduler.cpp:160-185). */
    method TakeTask(w: int) returns (tickleMe: bool)
      requires Enabled(Abs(), Scan(w))
      modifies this
      ensures Abs() == Apply(old(Abs()), Scan(w))
      ensures var i := FirstEligible(old(queue), w, old(fibers));
        tickleMe <==> exists j :: 0 <= j < i && old(queue)[j].thread != ANY && old(queue)[j].thread != w
    {
      tickleMe := false;
      var iter := 0;
      while iter < |queue|
        invariant 0 <= iter <= |queue|
        invariant Abs() == old(Abs())
        invariant forall j :: 0 <= j < iter ==> !Eligible(queue[j], w, fibers)
        invariant tickleMe <==> exists j :: 0 <= j < iter && queue[j].thread != ANY && queue[j].thread != w
      {
        var e := queue[iter];
        if e.thread != ANY && e.thread != w {
          iter := iter + 1;
          tickleMe := true;
          continue;
        }
        if e.task.FiberTask? && Rec(fibers, e.task.fid).state == EXEC {
          iter := iter + 1;
          continue;
        }
        ScanPrefix(queue, w, fibers, iter);
        workers := workers[w := workers[w].(phase := Popped(e))];
        queue := RemoveAt(queue, iter);
        active := active + 1;
        dispatched := dispatched + [Dispatch(e, w)];
        return;
      }
      ScanPrefix(queue, w, fibers, iter);
      workers := workers[w := workers[w].(phase := NoTask)];
    }

    /** Fiber::swapIn on the task taken; a callback first gets the worker's callback fiber, reset or new
        (src/scheduler.cpp:192-216, src/fiber.cpp:109-133). */
    method EnterTask(w: int)
      requires Enabled(Abs(), SwapIn(w))
      modifies this
      ensures Abs() == Apply(old(Abs()), SwapIn(w))
      ensures var task := old(workers[w]).phase.entry.task;
        && w in workers && workers[w].phase.Running? && workers[w].phase.fid in fibers
        && fibers[workers[w].phase.fid].state == EXEC
        && (task.CallbackTask? ==> fibers[workers[w].phase.fid].body == Some(task.body))
        && (task.FiberTask? ==> workers[w].phase.fid == task.fid
                                && fibers[task.fid].body == Rec(old(fibers), task.fid).body)
    {
      var k := workers[w];
      match k.phase.entry.task
      case FiberTask(f) =>
        fibers := fibers[f := FiberRec(EXEC, Rec(fibers, f).body)];
        workers := workers[w := k.(phase := Running(f, false))];
      case CallbackTask(body) =>
        var c: FiberId;
        if k.cbFiber.Some? {
          c := k.cbFiber.value;
          fibers := fibers[c := FiberRec(INIT, Some(body))];
        } else {
          c := nextId;
          nextId := nextId + 1;
          fibers := fibers[c := FiberRec(INIT, Some(body))];
        }
        fibers := fibers[c := FiberRec(EXEC, Rec(fibers, c).body)];
        assert fibers == old(fibers)[c := FiberRec(EXEC, Some(body))];
        workers := workers[w := k.(phase := Running(c, true), cbFiber := Some(c))];
    }

    /** A finished fiber is dropped (src/scheduler.cpp:227-231). */
    method DropTask(w: int)
      requires Enabled(Abs(), Drop(w))
      modifies this
      ensures Abs() == Apply(old(Abs()), Drop(w))
      ensures active == old(active) - 1 && queue == old(queue) && w in workers && workers[w].phase == AtScan
    {
      active := active - 1;
      workers := workers[w := workers[w].(phase := AtScan)];
    }

    /** --m_active_thread_count after the task came back (src/scheduler.cpp:195, 217). */
    method FinishTask(w: int)
      requires Enabled(Abs(), Decrement(w))
      modifies this
      ensures Abs() == Apply(old(Abs()), Decrement(w))
      ensures active == old(active) - 1 && queue == old(queue) && fibers == old(fibers)
    {
      active := active - 1;
      var k := workers[w];
      workers := workers[w := k.(phase := Settling(k.phase.fid, k.phase.viaCallback))];
    }

    /** What becomes of the fiber that came back (src/scheduler.cpp:197-205, 218-226). */
    method SettleTask(w: int)
      requires Enabled(Abs(), Settle(w))
      modifies this
      ensures Abs() == Apply(old(Abs()), Settle(w))
      ensures var Settling(f, viaCallback) := old(workers[w]).phase;
        var state := Rec(old(fibers), f).state;
        && w in workers && workers[w].phase == AtScan
        && queue == old(queue) + (if state == READY then [Entry(FiberTask(f), -1)] else [])
        && (state == READY || (Dead(state) && !viaCallback) ==> fibers == old(fibers))
        && (Dead(state) && viaCallback ==> fibers == old(fibers)[f := FiberRec(INIT, None)])
        && (state != READY && !Dead(state) ==> fibers == old(fibers)[f := FiberRec(HOLD, Rec(old(fibers), f).body)])
        && workers[w].cbFiber == if viaCallback && !Dead(state) then None else old(workers[w]).cbFiber
    {
      var k := workers[w];
      var f, viaCallback := k.phase.fid, k.phase.viaCallback;
      var r := Rec(fibers, f);
      var cbFiber := k.cbFiber;
      if r.state == READY {
        var _ := ScheduleNoLock(Some(FiberTask(f)), ANY);
        if viaCallback { cbFiber := None; }
      } else if r.state != TERM && r.state != EXCEPT {
        fibers := fibers[f := FiberRec(HOLD, r.body)];
        if viaCallback { cbFiber := None; }
      } else if viaCallback {
        fibers := fibers[f := FiberRec(INIT, None)];
      }
      workers := workers[w := k.(phase := AtScan, cbFiber := cbFiber)];
    }

    /** One round of the idle fiber, or the end of the loop when it has terminated (src/scheduler.cpp:232-242). */
    method IdleOrQuit(w: int)
      requires w in workers && workers[w].phase.NoTask?
      modifies this
      ensures Abs() == Apply(old(Abs()), if old(workers[w]).idle == TERM then Quit(w) else EnterIdle(w))
    {
      if workers[w].idle == TERM {
        workers := workers[w := workers[w].(phase := Exited)];
      } else {
        idling := idling + 1;
        workers := workers[w := workers[w].(phase := InIdle, idle := EXEC)];
      }
    }

    /** idle(): yield while stopping() is false, else end (src/scheduler.cpp:259-264). */
    method IdleBody(w: int)
      requires Enabled(Abs(), CheckIdle(w))
      modifies this
      ensures Abs() == Apply(old(Abs()), CheckIdle(w))
      ensures w in workers && workers[w].phase == IdleBack
      ensures workers[w].idle == if autoStop && stopping && |queue| == 0 && active == 0 then TERM else HOLD
    {
      var done := Stopping();
      workers := workers[w := workers[w].(phase := IdleBack, idle := if done then TERM else HOLD)];
    }

    method IdleReturn(w: int)
      requires Enabled(Abs(), LeaveIdle(w))
      modifies this
      ensures Abs() == Apply(old(Abs()), LeaveIdle(w))
    {
      idling := idling - 1;
      var k := workers[w];
      if k.idle != TERM && k.idle != EXCEPT {
        k := k.(idle := HOLD);
      }
      workers := workers[w := k.(phase := AtScan)];
    }

    method Stopping() returns (b: bool)
      ensures b == Quiescent(Abs())
      ensures b <==> autoStop && stopping && |queue| == 0 && active == 0
    {
      b := autoStop && stopping && queue == [] && active == 0;
    }

    // -------------------------------------------------------------- start() and stop()

    /** A scheduler that has been started already stays as it is (src/scheduler.cpp:67-70). */
    method Start()
      requires stopping ==> Enabled(Abs(), Label.Start)
      modifies this
      ensures Abs() == if old(stopping) then Apply(old(Abs()), Label.Start) else old(Abs())
      ensures !stopping && workers.Keys == old(workers.Keys)
      ensures old(stopping) ==> forall w :: w in workers && root != Some(w) ==> workers[w].phase == AtScan
    {
      if !stopping {
        return;
      }
      stopping := false;
      workers := map w | w in workers :: if root == Some(w) then workers[w] else workers[w].(phase := AtScan);
      main := Started;
    }

    method BeginStop()
      requires Enabled(Abs(), StopBegin)
      modifies this
      ensures Abs() == Apply(old(Abs()), StopBegin) && autoStop
    {
      autoStop := true;
      main := StopBegun;
    }

    method FlagStop()
      requires Enabled(Abs(), StopFlag)
      modifies this
      ensures Abs() == Apply(old(Abs()), StopFlag) && stopping
    {
      stopping := true;
      main := StopFlagged;
    }

    /** The root fiber is called unless there is nothing left (src/scheduler.cpp:115-129). */
    method CallRoot()
      requires Enabled(Abs(), StopRoot)
      modifies this
      ensures Abs() == Apply(old(Abs()), StopRoot)
      ensures root.Some? ==> root.value in workers
      ensures root.Some? && autoStop && stopping && |queue| == 0 && active == 0 ==> workers[root.value].phase == Exited
      ensures root.Some? && !(autoStop && stopping && |queue| == 0 && active == 0) ==> workers[root.value].phase == AtScan
    {
      if root.Some? {
        var done := Stopping();
        var w := root.value;
        workers := workers[w := workers[w].(phase := if done then Exited else AtScan)];
      }
      main := Joining;
    }
  }
}
