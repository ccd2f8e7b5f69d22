/** How long an entry can be passed over, and how a pinned one can be passed over for ever. */
module Bypass {
  import opened Protocol
  import opened ProtocolInvariant
  import opened ProtocolSteps
  import opened Shutdown

  // ---------------------------------------------------------------- what a step does to the queue

  lemma PushNewQueue(s: State, asFiber: bool, body: Script, pin: int)
    ensures var s' := PushNew(s, asFiber, body, pin); s.queue <= s'.queue && s'.dispatched == s.dispatched
  {}

  /** Only scans take entries out; everything else leaves the queue alone or appends to it. */
  lemma QueueGrows(s: State, l: Label)
    requires Enabled(s, l) && !l.Scan?
    ensures s.queue <= Apply(s, l).queue && Apply(s, l).dispatched == s.dispatched
  {
    hide Free, Quiescent, PushNew;
    if l.Act? {
      var body := Rec(s.fibers, s.workers[l.w].phase.fid).body;
      if body.Some? && body.value.Spawn? {
        PushNewQueue(Continue(s, l.w, body.value.rest), body.value.asFiber, body.value.task, body.value.pin);
      }
    } else if l.OutsideSpawn? {
      PushNewQueue(s, l.asFiber, l.body, l.pin);
    }
  }

  // ---------------------------------------------------------------- bounded bypass

  /** Where the entry at position k stands after step l; None once it has been taken. */
  function Moved(s: State, l: Label, k: nat): Option<nat> {
    if !l.Scan? then Some(k)
    else
      var i := FirstEligible(s.queue, l.w, s.fibers);
      if i == |s.queue| || i > k then Some(k) else if i == k then None else Some(k - 1)
  }

  function Track(s: State, ls: seq<Label>, k: nat): Option<nat>
    requires Runs(s, ls)
    decreases |ls|
  {
    if ls == [] then Some(k)
    else match Moved(s, ls[0], k)
      case None => None
      case Some(k') => Track(Apply(s, ls[0]), ls[1..], k')
  }

  /** Scans in ls by workers that may take an entry pinned to t. */
  function Scans(ls: seq<Label>, t: int): nat {
    if ls == [] then 0
    else (if ls[0].Scan? && (t == ANY || ls[0].w == t) then 1 else 0) + Scans(ls[1..], t)
  }

  ghost predicate TakenBetween(s: State, t: State, e: Entry) {
    exists j :: |s.dispatched| <= j < |t.dispatched| && t.dispatched[j].entry == e
  }

  lemma MovedKeepsEntry(s: State, l: Label, k: nat)
    requires Enabled(s, l) && k < |s.queue|
    ensures var s' := Apply(s, l);
      && s.dispatched <= s'.dispatched
      && match Moved(s, l, k)
         case Some(k') => k' <= k && k' < |s'.queue| && s'.queue[k'] == s.queue[k]
         case None => TakenBetween(s, s', s.queue[k])
  {
    hide Free;
    if l.Scan? {
      var s', i := Apply(s, l), FirstEligible(s.queue, l.w, s.fibers);
      if i == k {
        assert s'.dispatched[|s.dispatched|].entry == s.queue[k];
      }
    } else {
      hide Apply;
      QueueGrows(s, l);
    }
  }

  /** A scan by an allowed worker takes the entry, or one before it. */
  lemma ScanReaches(s: State, w: int, k: nat)
    requires Inv(s) && Enabled(s, Scan(w)) && k < |s.queue|
    requires s.queue[k].thread == ANY || s.queue[k].thread == w
    ensures FirstEligible(s.queue, w, s.fibers) <= k
  {
    hide Inv;
    OwnersOf(s);
    hide Shape, Counters, Conserved, Owners, States;
    if s.queue[k].task.FiberTask? {
      QueuedIsNotExec(s, k);
    }
    assert Eligible(s.queue[k], w, s.fibers);
  }

  lemma {:induction false} BypassFrom(s: State, ls: seq<Label>, k: nat)
    requires Inv(s) && Runs(s, ls) && k < |s.queue|
    requires Scans(ls, s.queue[k].thread) > k
    ensures Track(s, ls, k) == None && TakenBetween(s, After(s, ls), s.queue[k])
    decreases |ls|
  {
    hide Inv, Apply, Enabled;
    var l, t := ls[0], s.queue[k].thread;
    var s' := Apply(s, l);
    MovedKeepsEntry(s, l, k);
    Keeps(s, l);
    DispatchedGrows(s', ls[1..]);
    if l.Scan? && (t == ANY || l.w == t) {
      ScanReaches(s, l.w, k);
    }
    match Moved(s, l, k)
    case None =>
      var j :| |s.dispatched| <= j < |s'.dispatched| && s'.dispatched[j].entry == s.queue[k];
      assert After(s, ls).dispatched[j] == s'.dispatched[j];
    case Some(k') =>
      BypassFrom(s', ls[1..], k');
      var e := s'.queue[k'];
      var j :| |s'.dispatched| <= j < |After(s, ls).dispatched| && After(s, ls).dispatched[j].entry == e;
      assert |s.dispatched| <= j;
  }

  lemma {:induction false} DispatchedGrows(s: State, ls: seq<Label>)
    requires Runs(s, ls)
    ensures s.dispatched <= After(s, ls).dispatched
    decreases |ls|
  {
    hide Apply, Enabled;
    if ls != [] {
      DispatchedStep(s, ls[0]);
      DispatchedGrows(Apply(s, ls[0]), ls[1..]);
    }
  }

  lemma DispatchedStep(s: State, l: Label)
    requires Enabled(s, l)
    ensures s.dispatched <= Apply(s, l).dispatched
  {
    if l.Scan? {
      hide Free;
    } else {
      hide Apply, Enabled;
      QueueGrows(s, l);
    }
  }

  /** An unpinned entry at position k is taken within k+1 scans by any workers, one pinned to t within k+1 scans
      by t, whatever is scheduled and taken meanwhile. */
  lemma BoundedBypass(s: State, before: seq<Label>, ls: seq<Label>, k: nat)
    requires Initial(s) && Runs(s, before)
    requires Runs(After(s, before), ls) && k < |After(s, before).queue|
    requires Scans(ls, After(s, before).queue[k].thread) > k
    ensures var t := After(s, before);
      Track(t, ls, k) == None && TakenBetween(t, After(t, ls), t.queue[k])
  {
    hide Inv, Initial;
    Invariant(s, before);
    BypassFrom(After(s, before), ls, k);
  }

  // ---------------------------------------------------------------- pins and yields together

  /** Worker t has left run() while an entry that only t may take is queued. */
  ghost predicate Stranded(s: State, t: int) {
    && t in s.workers && s.workers[t].phase.Exited?
    && (exists i :: 0 <= i < |s.queue| && s.queue[i].thread == t != ANY)
    && (s.root == Some(t) ==> s.main.Joining?) && !s.main.Created?
  }

  lemma StrandedStep(s: State, l: Label, t: int)
    requires Stranded(s, t) && Enabled(s, l)
    ensures Stranded(Apply(s, l), t)
    ensures forall w :: w in s.workers && s.workers[w].idle != TERM && !s.workers[w].phase.Exited? ==>
      w in Apply(s, l).workers && Apply(s, l).workers[w].idle != TERM && !Apply(s, l).workers[w].phase.Exited?
  {
    var s' := Apply(s, l);
    var i :| 0 <= i < |s.queue| && s.queue[i].thread == t != ANY;
    assert !Quiescent(s);
    MovedKeepsEntry(s, l, i);
    if ByWorker(l) {
      StrandedEntryStays(s, l, t, i);
      WorkerEffect(s, l);
      QuitNeedsTerm(s, l);
      hide Apply, Enabled, Quiescent, Moved;
    } else {
      hide Quiescent, Free, PushNew;
      if l.OutsideSpawn? { PushNewFrame(s, l.asFiber, l.body, l.pin); }
    }
  }

  lemma QuitNeedsTerm(s: State, l: Label)
    requires Enabled(s, l)
    ensures l.Quit? ==> s.workers[l.w].idle == TERM
  {
    hide Free;
  }

  lemma StrandedEntryStays(s: State, l: Label, t: int, i: nat)
    requires Enabled(s, l) && i < |s.queue| && s.queue[i].thread == t != ANY
    requires t in s.workers && s.workers[t].phase.Exited?
    ensures Moved(s, l, i).Some?
    ensures ByWorker(l) ==> l.w != t
  {
    hide Free;
  }

  /** From then on stop() never returns: the entry stays queued, and every worker still in its loop stays there. */
  lemma {:induction false} StrandedForEver(s: State, ls: seq<Label>, t: int)
    requires Stranded(s, t) && Runs(s, ls)
    ensures Stranded(After(s, ls), t)
    ensures forall w :: w in s.workers && s.workers[w].idle != TERM && !s.workers[w].phase.Exited? ==>
      w in After(s, ls).workers && !After(s, ls).workers[w].phase.Exited? && After(s, ls).workers[w].idle != TERM
    decreases |ls|
  {
    hide Stranded, Apply, Enabled;
    if ls != [] {
      StrandedStep(s, ls[0], t);
      StrandedForEver(Apply(s, ls[0]), ls[1..], t);
    }
  }

  lemma {:induction false} RunsConcat(s: State, a: seq<Label>, b: seq<Label>)
    requires Runs(s, a) && Runs(After(s, a), b)
    ensures Runs(s, a + b) && After(s, a + b) == After(After(s, a), b)
    decreases |a|
  {
    hide Apply, Enabled;
    if a == [] {
      assert a + b == b;
    } else {
      RunsConcat(Apply(s, a[0]), a[1..], b);
      assert (a + b)[1..] == a[1..] + b && (a + b)[0] == a[0];
    }
  }

  lemma RunsOne(s: State, l: Label)
    requires Enabled(s, l)
    ensures Runs(s, [l]) && After(s, [l]) == Apply(s, l)
  {
    hide Apply, Enabled;
    assert [l][1..] == [];
    assert After(Apply(s, l), []) == Apply(s, l);
  }
}
