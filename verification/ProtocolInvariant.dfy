/** What every step of the scheduler keeps: exact counters, exclusive ownership of fibers, fiber states that match
    the workers' positions, and conservation of queue entries. */
module ProtocolInvariant {
  import opened Protocol

  type Workers = map<int, Worker>
  type Fibers = map<FiberId, FiberRec>

  // ---------------------------------------------------------------- the invariant

  /** The flags follow the controlling thread, and workers enter run() when it lets them. */
  ghost predicate Shape(s: State) {
    && ANY !in s.workers && (exists w :: w in s.workers)
    && (s.root.Some? ==> s.root.value in s.workers)
    && (forall f :: f in s.fibers ==> f < s.nextId)
    && (s.autoStop <==> s.main.StopBegun? || s.main.StopFlagged? || s.main.Joining?)
    && (s.stopping <==> s.main.Created? || s.main.StopFlagged? || s.main.Joining?)
    && (forall w :: w in s.workers ==>
          (s.workers[w].phase.NotStarted? <==> if s.root == Some(w) then !s.main.Joining? else s.main.Created?))
  }

  predicate Counted(ph: Phase) {
    ph.Popped? || ph.Running? || ph.SwappedOut?
  }

  predicate Idling(ph: Phase) {
    ph.InIdle? || ph.IdleBack?
  }

  function Actives(ws: Workers): set<int> {
    set w | w in ws && Counted(ws[w].phase)
  }

  function Idles(ws: Workers): set<int> {
    set w | w in ws && Idling(ws[w].phase)
  }

  /** Both atomic counters are exact, so neither ever underflows. */
  ghost predicate Counters(s: State) {
    s.active == |Actives(s.workers)| && s.idling == |Idles(s.workers)|
  }

  /** A fiber is in at most one place: one queue entry, or the hands of one worker. */
  ghost predicate Owners(q: seq<Entry>, ws: Workers, ids: set<FiberId>) {
    && (forall i, j :: 0 <= i < j < |q| && q[i].task.FiberTask? ==> q[i].task != q[j].task)
    && (forall i :: 0 <= i < |q| && q[i].task.FiberTask? ==> q[i].task.fid in ids)
    && (forall i, w :: 0 <= i < |q| && q[i].task.FiberTask? && w in ws ==> q[i].task.fid !in Holds(ws[w]))
    && (forall w :: w in ws ==> Holds(ws[w]) <= ids)
    && (forall w, v :: w in ws && v in ws && w != v ==> Holds(ws[w]) !! Holds(ws[v]))
  }

  predicate ViaCallback(ph: Phase) {
    (ph.Running? || ph.SwappedOut? || ph.Settling?) && ph.viaCallback
  }

  /** Worker k's position agrees with the states of the fibers it holds; outside its own branch cb_fiber is null,
      or INIT with no callback; the idle fiber runs exactly while k is inside it. */
  ghost predicate WorkerOk(fibers: Fibers, k: Worker) {
    && (k.phase.Running? ==> Rec(fibers, k.phase.fid).state == EXEC)
    && (k.phase.SwappedOut? || k.phase.Settling? ==> Left(Rec(fibers, k.phase.fid).state))
    && (k.cbFiber.Some? && !ViaCallback(k.phase) ==> Rec(fibers, k.cbFiber.value) == FiberRec(INIT, None))
    && (ViaCallback(k.phase) ==> k.cbFiber == Some(k.phase.fid))
    && (k.cbFiber.Some? && !ViaCallback(k.phase) ==> k.cbFiber.value !in Slot(k.phase))
    && (k.idle == EXEC <==> k.phase.InIdle?)
    && k.idle != READY && k.idle != EXCEPT
  }

  // A state in which a fiber can come back from swapIn.
  predicate Left(st: FiberState) {
    st == READY || st == HOLD || st == TERM || st == EXCEPT
  }

  predicate RunsFiber(ws: Workers, w: int, f: FiberId) {
    w in ws && ws[w].phase.Running? && ws[w].phase.fid == f
  }

  ghost predicate ExecMeansRunning(fibers: Fibers, ws: Workers) {
    forall f :: f in fibers && fibers[f].state == EXEC ==> exists w :: RunsFiber(ws, w, f)
  }

  ghost predicate States(fibers: Fibers, ws: Workers) {
    && (forall w :: w in ws ==> WorkerOk(fibers, ws[w]))
    && ExecMeansRunning(fibers, ws)
  }

  function Taken(ds: seq<Dispatch>): (es: seq<Entry>)
    ensures |es| == |ds| && forall i :: 0 <= i < |ds| ==> es[i] == ds[i].entry
  {
    seq(|ds|, i requires 0 <= i < |ds| => ds[i].entry)
  }

  /** Everything scheduled is still queued or was dispatched, and only to a worker its pin allows. */
  ghost predicate Conserved(s: State) {
    && multiset(s.scheduled) == multiset(s.queue) + multiset(Taken(s.dispatched))
    && forall d :: d in s.dispatched ==> d.entry.thread == ANY || d.entry.thread == d.taker
  }

  ghost predicate Inv(s: State) {
    && Shape(s)
    && Counters(s)
    && Owners(s.queue, s.workers, s.fibers.Keys)
    && States(s.fibers, s.workers)
    && Conserved(s)
  }

  // ---------------------------------------------------------------- counters

  lemma CountersUpdate(ws: Workers, w: int, k: Worker)
    requires w in ws
    ensures |Actives(ws[w := k])| == |Actives(ws)| + Bit(Counted(k.phase)) - Bit(Counted(ws[w].phase))
    ensures |Idles(ws[w := k])| == |Idles(ws)| + Bit(Idling(k.phase)) - Bit(Idling(ws[w].phase))
  {
    hide Counted, Idling;
    var ws' := ws[w := k];
    assert forall v :: v in ws' && v != w ==> v in ws && ws'[v] == ws[v];
    assert Actives(ws') - {w} == Actives(ws) - {w};
    assert Idles(ws') - {w} == Idles(ws) - {w};
    SetToggle(Actives(ws), Actives(ws'), w);
    SetToggle(Idles(ws), Idles(ws'), w);
  }

  lemma SetToggle(a: set<int>, b: set<int>, w: int)
    requires a - {w} == b - {w}
    ensures |b| == |a| + Bit(w in b) - Bit(w in a)
  {
    assert a == if w in a then (a - {w}) + {w} else a - {w};
    assert b == if w in b then (b - {w}) + {w} else b - {w};
  }

  function Bit(b: bool): int {
    if b then 1 else 0
  }

  // ---------------------------------------------------------------- ownership

  lemma OwnersShrink(q: seq<Entry>, ws: Workers, ids: set<FiberId>, w: int, k: Worker, ids': set<FiberId>)
    requires Owners(q, ws, ids) && ids <= ids'
    requires w in ws && Holds(k) <= Holds(ws[w])
    ensures Owners(q, ws[w := k], ids')
  {
    hide Holds;
  }

  lemma OwnersGrow(q: seq<Entry>, ws: Workers, ids: set<FiberId>, w: int, k: Worker, f: FiberId)
    requires Owners(q, ws, ids)
    requires w in ws && Holds(k) <= Holds(ws[w]) + {f} && f !in ids
    ensures Owners(q, ws[w := k], ids + {f})
  {
    hide Holds;
  }

  function TaskFiber(t: Task): set<FiberId> {
    if t.FiberTask? then {t.fid} else {}
  }

  lemma OwnersPop(q: seq<Entry>, ws: Workers, ids: set<FiberId>, w: int, k: Worker, i: nat)
    requires Owners(q, ws, ids) && i < |q|
    requires w in ws && Holds(k) <= Holds(ws[w]) + TaskFiber(q[i].task)
    ensures Owners(RemoveAt(q, i), ws[w := k], ids)
  {
    hide Holds;
    var q' := RemoveAt(q, i);
    assert forall j :: 0 <= j < |q'| ==> q'[j] == if j < i then q[j] else q[j+1];
  }

  ghost predicate Fresh(q: seq<Entry>, ws: Workers, f: FiberId) {
    && (forall i :: 0 <= i < |q| ==> q[i].task != FiberTask(f))
    && (forall w :: w in ws ==> f !in Holds(ws[w]))
  }

  lemma OwnersPush(q: seq<Entry>, ws: Workers, ids: set<FiberId>, e: Entry, ids': set<FiberId>)
    requires Owners(q, ws, ids) && ids <= ids'
    requires e.task.FiberTask? ==> e.task.fid in ids' && Fresh(q, ws, e.task.fid)
    ensures Owners(q + [e], ws, ids')
  {
    hide Holds;
  }

  // ---------------------------------------------------------------- states

  lemma WorkerOkFrame(fibers: Fibers, k: Worker, f: FiberId, r: FiberRec)
    requires WorkerOk(fibers, k) && f !in Holds(k)
    ensures WorkerOk(fibers[f := r], k)
  {}

  lemma StatesUpdate(fibers: Fibers, ws: Workers, w: int, k: Worker, f: FiberId, r: FiberRec)
    requires States(fibers, ws) && w in ws
    requires forall v :: v in ws && v != w ==> f !in Holds(ws[v])
    requires WorkerOk(fibers[f := r], k)
    requires k.phase.Running? ==> k.phase.fid == f
    requires ws[w].phase.Running? ==> ws[w].phase.fid == f
    requires r.state == EXEC ==> k.phase.Running?
    ensures States(fibers[f := r], ws[w := k])
  {
    var fibers', ws' := fibers[f := r], ws[w := k];
    forall v | v in ws' ensures WorkerOk(fibers', ws'[v]) {
      if v != w { WorkerOkFrame(fibers, ws[v], f, r); }
    }
    forall g | g in fibers' && fibers'[g].state == EXEC ensures exists v :: RunsFiber(ws', v, g) {
      if g == f {
        assert RunsFiber(ws', w, g);
      } else {
        var v :| RunsFiber(ws, v, g);
        assert RunsFiber(ws', v, g);
      }
    }
  }

  lemma StatesMove(fibers: Fibers, ws: Workers, w: int, k: Worker)
    requires States(fibers, ws) && w in ws && WorkerOk(fibers, k)
    requires !k.phase.Running? && !ws[w].phase.Running?
    ensures States(fibers, ws[w := k])
  {
    var ws' := ws[w := k];
    forall g | g in fibers && fibers[g].state == EXEC ensures exists v :: RunsFiber(ws', v, g) {
      var v :| RunsFiber(ws, v, g);
      assert RunsFiber(ws', v, g);
    }
  }

  lemma StatesNewFiber(fibers: Fibers, ws: Workers, f: FiberId, r: FiberRec)
    requires States(fibers, ws) && r.state != EXEC
    requires forall w :: w in ws ==> f !in Holds(ws[w])
    ensures States(fibers[f := r], ws)
  {
    forall w | w in ws ensures WorkerOk(fibers[f := r], ws[w]) {
      WorkerOkFrame(fibers, ws[w], f, r);
    }
  }

  /** Only the worker that runs a fiber sees it in state EXEC. */
  lemma ExecIsHeldByRunner(s: State, f: FiberId, w: int)
    requires Owners(s.queue, s.workers, s.fibers.Keys) && States(s.fibers, s.workers)
    requires w in s.workers && f in Holds(s.workers[w]) && Rec(s.fibers, f).state == EXEC
    ensures RunsFiber(s.workers, w, f)
  {
    var v :| RunsFiber(s.workers, v, f);
    assert f in Holds(s.workers[v]);
  }

  lemma QueuedIsNotExec(s: State, i: nat)
    requires Owners(s.queue, s.workers, s.fibers.Keys) && States(s.fibers, s.workers)
    requires i < |s.queue| && s.queue[i].task.FiberTask?
    ensures Rec(s.fibers, s.queue[i].task.fid).state != EXEC
  {
    var f := s.queue[i].task.fid;
    forall v ensures !RunsFiber(s.workers, v, f) {
      assert v in s.workers ==> f !in Holds(s.workers[v]);
    }
  }

  // ---------------------------------------------------------------- conservation

  lemma ConservedPush(s: State, e: Entry)
    requires Conserved(s)
    ensures Conserved(Push(s, e))
  {}

  lemma ConservedPop(s: State, i: nat, w: int)
    requires Conserved(s) && i < |s.queue|
    requires s.queue[i].thread == ANY || s.queue[i].thread == w
    ensures Conserved(s.(queue := RemoveAt(s.queue, i), dispatched := s.dispatched + [Dispatch(s.queue[i], w)]))
  {
    var q, e := s.queue, s.queue[i];
    assert q == q[..i] + [e] + q[i+1..];
    assert Taken(s.dispatched + [Dispatch(e, w)]) == Taken(s.dispatched) + [e];
  }
}
