/** When a worker takes a task and when it leaves, told by the positions of the workers instead of by flags, counters and
    fiber states (src/scheduler.cpp:115-129, 160-185, 232-264). */
module Leaving {
  import opened Protocol
  import opened ProtocolInvariant
  import opened ProtocolSteps
  import opened Shutdown

  /** stop() has set both of its flags. */
  predicate Flagged(s: State) {
    s.main == StopFlagged || s.main == Joining
  }

  predicate AtWork(k: Worker) {
    k.phase.Popped? || k.phase.Running? || k.phase.SwappedOut?
  }

  predicate NothingToDo(s: State) {
    Flagged(s) && |s.queue| == 0 && forall w :: w in s.workers ==> !AtWork(s.workers[w])
  }

  /** stopping() says what it is meant to say. */
  lemma QuiescentExactly(s: State)
    requires Inv(s)
    ensures Quiescent(s) <==> NothingToDo(s)
  {
    hide Owners, States, Conserved;
    if |s.queue| == 0 && forall w :: w in s.workers ==> !AtWork(s.workers[w]) {
      assert forall w :: w in Actives(s.workers) ==> AtWork(s.workers[w]);
      assert Actives(s.workers) == {};
    }
    if s.active == 0 {
      forall w | w in s.workers ensures !AtWork(s.workers[w]) {
        NobodyActive(s, w);
      }
    }
  }

  /** The idle fiber of a worker ends exactly when stop() has been called, the queue is empty and nobody is at work; it
      goes on yielding otherwise. */
  lemma IdleEndsExactly(s: State, w: int)
    requires Inv(s) && Enabled(s, CheckIdle(w))
    ensures var k := Apply(s, CheckIdle(w)).workers[w];
      k.phase == IdleBack && k.idle == if NothingToDo(s) then TERM else HOLD
  {
    QuiescentExactly(s);
    hide Inv, Quiescent, NothingToDo;
  }

  /** The caller's own worker is skipped exactly then, and enters run() otherwise. */
  lemma RootSkippedExactly(s: State)
    requires Inv(s) && Enabled(s, StopRoot) && s.root.Some?
    ensures var t := Apply(s, StopRoot);
      && s.root.value in t.workers
      && t.workers[s.root.value].phase == if NothingToDo(s) then Exited else AtScan
  {
    QuiescentExactly(s);
    hide Inv, Quiescent, NothingToDo;
  }

  // ---------------------------------------------------------------- the scan

  /** Entry i is the first that is pinned to nobody or to w. */
  predicate FirstFor(q: seq<Entry>, w: int, i: nat) {
    i < |q| && (q[i].thread == -1 || q[i].thread == w) && forall j :: 0 <= j < i ==> q[j].thread != -1 && q[j].thread != w
  }

  /** In a reachable state the test for state EXEC never fails, so the scan takes the first entry that is pinned to nobody
      or to w, leaves the others in their order, and comes back without a task exactly when there is none. */
  lemma ScanTakesExactly(s: State, w: int, i: nat)
    requires Inv(s) && Enabled(s, Scan(w))
    ensures var t := Apply(s, Scan(w));
      && (FirstFor(s.queue, w, i) ==>
            && t.workers == s.workers[w := s.workers[w].(phase := Popped(s.queue[i]))]
            && t.queue == s.queue[..i] + s.queue[i+1..] && t.active == s.active + 1
            && t.dispatched == s.dispatched + [Dispatch(s.queue[i], w)])
      && ((forall j :: 0 <= j < |s.queue| ==> s.queue[j].thread != -1 && s.queue[j].thread != w) ==>
            t.workers == s.workers[w := s.workers[w].(phase := NoTask)] && t.queue == s.queue && t.active == s.active)
  {
    hide Shape, Counters, Conserved;
    forall j | 0 <= j < |s.queue|
      ensures Eligible(s.queue[j], w, s.fibers) <==> s.queue[j].thread == -1 || s.queue[j].thread == w
    {
      if s.queue[j].task.FiberTask? {
        QueuedIsNotExec(s, j);
      }
    }
    hide Owners, States, Eligible;
  }

  // ---------------------------------------------------------------- nobody leaves early

  predicate Leaves(k: Worker) {
    k.idle == TERM || k.phase.Exited?
  }

  ghost predicate Patient(s: State) {
    forall w :: w in s.workers && Leaves(s.workers[w]) ==> Flagged(s)
  }

  lemma PatientKept(s: State, l: Label)
    requires Inv(s) && Patient(s) && Enabled(s, l)
    ensures Patient(Apply(s, l))
  {
    OwnersOf(s);
    hide Inv, Owners, States, Counters, Conserved, Free, Holds, PushNew;
    if !Flagged(s) {
      assert !Quiescent(s);
      assert forall w :: w in s.workers ==> !Leaves(s.workers[w]);
      NobodyLeaves(s, l);
    } else {
      hide Shape, Quiescent;
      FlaggedStays(s, l);
      hide Apply;
    }
  }

  lemma FlaggedStays(s: State, l: Label)
    requires Enabled(s, l) && Flagged(s)
    ensures Flagged(Apply(s, l))
  {
    hide Free, Holds, Quiescent;
  }

  lemma {:induction false} PatientRuns(s: State, ls: seq<Label>)
    requires Inv(s) && Patient(s) && Runs(s, ls)
    ensures Patient(After(s, ls))
    decreases |ls|
  {
    hide Inv, Patient, Enabled, Apply;
    if ls != [] {
      PatientKept(s, ls[0]);
      Keeps(s, ls[0]);
      PatientRuns(Apply(s, ls[0]), ls[1..]);
    }
  }

  /** In any run, no worker's idle fiber ends and no worker leaves run() before stop() has set its flags. */
  lemma NobodyLeavesEarly(s: State, ls: seq<Label>, w: int)
    requires Initial(s) && Runs(s, ls)
    ensures var t := After(s, ls);
      w in t.workers && (t.workers[w].idle == TERM || t.workers[w].phase.Exited?) ==>
        t.main == StopFlagged || t.main == Joining
  {
    InitialInv(s);
    assert Patient(s) by { hide Inv; }
    hide Inv, Initial, Runs, After;
    PatientRuns(s, ls);
  }
}
