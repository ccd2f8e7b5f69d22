/** Tasks run their own code: in every run, what a task has been seen to do, followed by what it has left, is the script
    it was scheduled with. */
module Execution {
  import opened Protocol
  import opened ProtocolInvariant
  import opened ProtocolSteps
  import opened Shutdown

  // ---------------------------------------------------------------- what can be seen of a task

  /** One action of a running task, as seen from outside. */
  datatype Action =
    | Returned
    | Threw
    | Yielded(ready: bool)
    | Spawned(asFiber: bool, task: Script, pin: int)
    | Woke(fid: FiberId, pin: int)
    | WokeNobody
    | Unexplained

  /** What the task on worker w did between s and t: the state it left in, or the entry it put at the end of the queue. */
  function Seen(s: State, t: State, w: int): Action
    requires w in s.workers && s.workers[w].phase.Running?
  {
    var st := Rec(t.fibers, s.workers[w].phase.fid).state;
    if st == TERM then Returned
    else if st == EXCEPT then Threw
    else if st == READY then Yielded(true)
    else if st == HOLD then Yielded(false)
    else if t.queue == s.queue then WokeNobody
    else if |t.queue| != |s.queue| + 1 || t.queue[..|s.queue|] != s.queue then Unexplained
    else
      var e := t.queue[|s.queue|];
      match e.task
      case CallbackTask(body) => Spawned(false, body, e.thread)
      case FiberTask(g) =>
        if g in s.fibers then Woke(g, e.thread)
        else if Rec(t.fibers, g).body.Some? then Spawned(true, Rec(t.fibers, g).body.value, e.thread) else Unexplained
  }

  /** The actions acts are the beginning of script, and rest is the remainder. */
  predicate Fits(script: Script, acts: seq<Action>, rest: Script)
    decreases |acts|
  {
    if acts == [] then script == rest
    else match acts[0]
      case Yielded(ready) => script.Yield? && script.ready == ready && Fits(script.rest, acts[1..], rest)
      case Spawned(asFiber, task, pin) =>
        script.Spawn? && script.asFiber == asFiber && script.task == task && script.pin == pin
        && Fits(script.rest, acts[1..], rest)
      case Woke(_, pin) => script.Wake? && script.pin == pin && Fits(script.rest, acts[1..], rest)
      case WokeNobody => script.Wake? && Fits(script.rest, acts[1..], rest)
      case _ => false
  }

  /** The whole script was performed: up to its end, or up to a throw. */
  predicate Performed(script: Script, acts: seq<Action>) {
    acts != [] &&
    var n := |acts| - 1;
    (acts[n] == Returned && Fits(script, acts[..n], Done)) || (acts[n] == Threw && Fits(script, acts[..n], Throw))
  }

  // ---------------------------------------------------------------- the book of all tasks

  /** A task that was made a fiber or taken as a callback, with what it has been seen to do. */
  datatype Job = Job(script: Script, callback: bool, acts: seq<Action>)

  /** All jobs in the order in which they came up; the fiber that works on each; and the callbacks that workers have
      taken and not yet entered. */
  datatype Book = Book(jobs: seq<Job>, on: map<FiberId, nat>, taken: map<int, nat>)

  const EMPTY := Book([], map[], map[])

  function Opened(b: Book, script: Script, f: FiberId): Book {
    Book(b.jobs + [Job(script, false, [])], b.on[f := |b.jobs|], b.taken)
  }

  function Noted(b: Book, f: FiberId, act: Action): Book {
    if f in b.on && b.on[f] < |b.jobs| then
      var j := b.jobs[b.on[f]];
      b.(jobs := b.jobs[b.on[f] := j.(acts := j.acts + [act])])
    else b
  }

  /** Keep the book across step l from s to t. */
  function Entered(s: State, l: Label, t: State, b: Book): Book
    requires Enabled(s, l)
  {
    match l
    case OutsideSpawn(asFiber, body, _) => if asFiber then Opened(b, body, s.nextId) else b
    case Scan(w) =>
      if |t.dispatched| == |s.dispatched| + 1 && t.dispatched[|s.dispatched|].entry.task.CallbackTask? then
        Book(b.jobs + [Job(t.dispatched[|s.dispatched|].entry.task.body, true, [])], b.on, b.taken[w := |b.jobs|])
      else b
    case SwapIn(w) =>
      if s.workers[w].phase.entry.task.CallbackTask? && w in b.taken && w in t.workers && t.workers[w].phase.Running? then
        b.(on := b.on[t.workers[w].phase.fid := b.taken[w]])
      else b
    case Act(w, _) =>
      var act := Seen(s, t, w);
      var b' := Noted(b, s.workers[w].phase.fid, act);
      if act.Spawned? && act.asFiber then Opened(b', act.task, s.nextId) else b'
    case Settle(w) =>
      var f := s.workers[w].phase.fid;
      if Rec(t.fibers, f).body.None? && Rec(t.fibers, f).state == INIT then b.(on := b.on - {f}) else b
    case _ => b
  }

  function BookAfter(s: State, ls: seq<Label>, b: Book): Book
    requires Runs(s, ls)
    decreases |ls|
  {
    if ls == [] then b
    else BookAfter(Apply(s, ls[0]), ls[1..], Entered(s, ls[0], Apply(s, ls[0]), b))
  }

  // ---------------------------------------------------------------- the law

  /** A fiber and the job it works on: finished as TERM or EXCEPT, else with the rest of the script still to do. */
  predicate Agrees(j: Job, x: FiberRec) {
    match x.state
    case TERM => j.acts != [] && j.acts[|j.acts|-1] == Returned && Performed(j.script, j.acts)
    case EXCEPT => j.acts != [] && j.acts[|j.acts|-1] == Threw && Performed(j.script, j.acts)
    case _ => x.body.Some? && Fits(j.script, j.acts, x.body.value)
  }

  /** f is some worker's cb_fiber. */
  ghost predicate Spare(ws: Workers, f: FiberId) {
    exists w :: w in ws && ws[w].cbFiber == Some(f)
  }

  /** Every fiber has a job of its own, unless it is an emptied callback fiber. */
  ghost predicate FibersAgree(fibers: Fibers, ws: Workers, b: Book) {
    && (forall f :: f in fibers && f !in b.on ==> fibers[f] == FiberRec(INIT, None) && Spare(ws, f))
    && (forall f :: f in b.on ==> f in fibers && b.on[f] < |b.jobs| && Agrees(b.jobs[b.on[f]], fibers[f]))
    && (forall f, g :: f in b.on && g in b.on && f != g ==> b.on[f] != b.on[g])
  }

  predicate HasTaken(ws: Workers, w: int) {
    w in ws && ws[w].phase.Popped? && ws[w].phase.entry.task.CallbackTask?
  }

  /** A callback that was taken and not yet entered is an untouched job with the script of its entry. */
  ghost predicate TakenAgree(ws: Workers, b: Book) {
    && (forall w :: HasTaken(ws, w) ==>
          && w in b.taken && b.taken[w] < |b.jobs|
          && b.jobs[b.taken[w]] == Job(ws[w].phase.entry.task.body, true, [])
          && forall f :: f in b.on ==> b.on[f] != b.taken[w])
    && (forall v, w :: HasTaken(ws, v) && HasTaken(ws, w) && v != w ==> b.taken[v] != b.taken[w])
  }

  ghost predicate InWork(ws: Workers, b: Book, i: nat) {
    || (exists f :: f in b.on && b.on[f] == i)
    || (exists w :: HasTaken(ws, w) && w in b.taken && b.taken[w] == i)
  }

  /** No job is forgotten: it is in work, or it was performed. */
  ghost predicate NoneForgotten(ws: Workers, b: Book) {
    forall i: nat :: i < |b.jobs| ==> InWork(ws, b, i) || Performed(b.jobs[i].script, b.jobs[i].acts)
  }

  function CallbackJobs(js: seq<Job>): seq<Script> {
    if js == [] then []
    else CallbackJobs(js[..|js|-1]) + if js[|js|-1].callback then [js[|js|-1].script] else []
  }

  function CallbacksTaken(ds: seq<Dispatch>): seq<Script> {
    if ds == [] then []
    else
      var task := ds[|ds|-1].entry.task;
      CallbacksTaken(ds[..|ds|-1]) + if task.CallbackTask? then [task.body] else []
  }

  /** The callbacks among the jobs are those dispatched, one for one. */
  ghost predicate CallbacksAgree(ds: seq<Dispatch>, b: Book) {
    CallbackJobs(b.jobs) == CallbacksTaken(ds)
  }

  ghost predicate Law(s: State, b: Book) {
    && FibersAgree(s.fibers, s.workers, b) && TakenAgree(s.workers, b)
    && NoneForgotten(s.workers, b) && CallbacksAgree(s.dispatched, b)
  }

  // ---------------------------------------------------------------- changes to the book

  lemma {:induction false} FitsSnoc(script: Script, acts: seq<Action>, rest: Script, act: Action, next: Script)
    requires Fits(script, acts, rest) && Fits(rest, [act], next)
    ensures Fits(script, acts + [act], next)
    decreases |acts|
  {
    if acts == [] {
      assert acts + [act] == [act];
    } else {
      assert (acts + [act])[0] == acts[0] && (acts + [act])[1..] == acts[1..] + [act];
      FitsSnoc(script.rest, acts[1..], rest, act, next);
    }
  }

  lemma FitsOne(rest: Script, act: Action, next: Script)
    requires match act
             case Yielded(ready) => rest.Yield? && rest.ready == ready && rest.rest == next
             case Spawned(a, t, p) => rest.Spawn? && rest.asFiber == a && rest.task == t && rest.pin == p && rest.rest == next
             case Woke(_, p) => rest.Wake? && rest.pin == p && rest.rest == next
             case WokeNobody => rest.Wake? && rest.rest == next
             case _ => false
    ensures Fits(rest, [act], next)
  {
    assert [act][1..] == [];
  }

  lemma {:induction false} CallbackJobsUpdate(js: seq<Job>, i: nat, j: Job)
    requires i < |js| && j.script == js[i].script && j.callback == js[i].callback
    ensures CallbackJobs(js[i := j]) == CallbackJobs(js)
  {
    var n := |js| - 1;
    if i < n {
      CallbackJobsUpdate(js[..n], i, j);
      assert js[i := j][..n] == js[..n][i := j];
    } else {
      assert js[i := j][..n] == js[..n];
    }
  }

  lemma CallbackJobsSnoc(js: seq<Job>, j: Job)
    ensures CallbackJobs(js + [j]) == CallbackJobs(js) + if j.callback then [j.script] else []
  {
    assert (js + [j])[..|js|] == js;
  }

  lemma CallbacksTakenSnoc(ds: seq<Dispatch>, d: Dispatch)
    ensures CallbacksTaken(ds + [d]) ==
            CallbacksTaken(ds) + if d.entry.task.CallbackTask? then [d.entry.task.body] else []
  {
    assert (ds + [d])[..|ds|] == ds;
  }

  /** Nobody takes or enters a callback, or lets go of an emptied callback fiber. */
  ghost predicate SameTaken(ws: Workers, ws': Workers, b: Book) {
    && ws'.Keys == ws.Keys
    && forall w :: w in ws ==>
         && (HasTaken(ws', w) <==> HasTaken(ws, w))
         && (HasTaken(ws, w) ==> ws'[w].phase == ws[w].phase)
         && (ws[w].cbFiber.Some? && ws[w].cbFiber.value !in b.on ==> ws'[w].cbFiber == ws[w].cbFiber)
  }

  lemma LawSame(s: State, t: State, b: Book)
    requires Law(s, b) && t.fibers == s.fibers && SameTaken(s.workers, t.workers, b)
    requires CallbacksTaken(t.dispatched) == CallbacksTaken(s.dispatched)
    ensures Law(t, b)
  {
    hide Agrees, Performed, CallbackJobs, CallbacksTaken;
    forall f | f in t.fibers && f !in b.on ensures Spare(t.workers, f) {
      var w :| w in s.workers && s.workers[w].cbFiber == Some(f);
      assert t.workers[w].cbFiber == Some(f);
    }
    forall i: nat | i < |b.jobs| && InWork(s.workers, b, i) ensures InWork(t.workers, b, i) {
      if w :| HasTaken(s.workers, w) && w in b.taken && b.taken[w] == i {
        assert HasTaken(t.workers, w);
      }
    }
  }

  lemma OpenedFibers(fibers: Fibers, ws: Workers, b: Book, f: FiberId, script: Script)
    requires FibersAgree(fibers, ws, b) && f !in fibers
    ensures FibersAgree(fibers[f := FiberRec(INIT, Some(script))], ws, Opened(b, script, f))
  {
    var b' := Opened(b, script, f);
    assert b'.jobs[|b.jobs|] == Job(script, false, []);
    hide Spare, Performed;
    assert Agrees(Job(script, false, []), FiberRec(INIT, Some(script)));
    hide Agrees;
  }

  lemma OpenedTaken(ws: Workers, b: Book, f: FiberId, script: Script)
    requires TakenAgree(ws, b)
    ensures TakenAgree(ws, Opened(b, script, f))
  {}

  /** Jobs that are in work stay so, change only there, and new ones are in work. */
  lemma NoneForgottenKept(ws: Workers, b: Book, ws': Workers, b': Book)
    requires NoneForgotten(ws, b) && |b.jobs| <= |b'.jobs|
    requires forall i: nat :: i < |b.jobs| && InWork(ws, b, i) ==> InWork(ws', b', i)
    requires forall i: nat :: i < |b.jobs| ==> b'.jobs[i] == b.jobs[i] || InWork(ws', b', i)
    requires forall i: nat :: |b.jobs| <= i < |b'.jobs| ==> InWork(ws', b', i)
    ensures NoneForgotten(ws', b')
  {
    hide InWork, Performed;
  }

  lemma OpenedInWork(ws: Workers, b: Book, f: FiberId, script: Script)
    requires NoneForgotten(ws, b) && f !in b.on
    ensures NoneForgotten(ws, Opened(b, script, f))
  {
    var b' := Opened(b, script, f);
    forall i: nat | i < |b.jobs| && InWork(ws, b, i) ensures InWork(ws, b', i) {
      if g :| g in b.on && b.on[g] == i {
        assert b'.on[g] == i;
      } else {
        var w :| HasTaken(ws, w) && w in b.taken && b.taken[w] == i;
        assert b'.taken[w] == i;
      }
    }
    assert b'.on[f] == |b.jobs|;
    NoneForgottenKept(ws, b, ws, b');
  }

  /** A job comes up on a new fiber. */
  lemma LawOpened(s: State, t: State, b: Book, f: FiberId, script: Script)
    requires Law(s, b) && f !in s.fibers && t.fibers == s.fibers[f := FiberRec(INIT, Some(script))]
    requires t.workers == s.workers && t.dispatched == s.dispatched
    ensures Law(t, Opened(b, script, f))
  {
    assert f !in b.on;
    hide FibersAgree, TakenAgree, NoneForgotten, CallbackJobs, CallbacksTaken;
    CallbackJobsSnoc(b.jobs, Job(script, false, []));
    OpenedFibers(s.fibers, s.workers, b, f, script);
    OpenedTaken(s.workers, b, f, script);
    OpenedInWork(s.workers, b, f, script);
  }

  function Changed(b: Book, f: FiberId, j: Job): Book
    requires f in b.on && b.on[f] < |b.jobs|
  {
    b.(jobs := b.jobs[b.on[f] := j])
  }

  lemma ChangedFibers(fibers: Fibers, ws: Workers, ws': Workers, b: Book, f: FiberId, x: FiberRec, j: Job)
    requires FibersAgree(fibers, ws, b) && f in b.on && SameTaken(ws, ws', b) && Agrees(j, x)
    ensures FibersAgree(fibers[f := x], ws', Changed(b, f, j))
  {
    hide Agrees;
    forall g | g in fibers && g !in b.on ensures Spare(ws', g) {
      var w :| w in ws && ws[w].cbFiber == Some(g);
      assert ws'[w].cbFiber == Some(g);
    }
    hide Spare, SameTaken;
  }

  lemma ChangedTaken(fibers: Fibers, ws: Workers, ws': Workers, b: Book, f: FiberId, j: Job)
    requires TakenAgree(ws, b) && f in b.on && b.on[f] < |b.jobs| && SameTaken(ws, ws', b)
    ensures TakenAgree(ws', Changed(b, f, j))
  {}

  lemma ChangedInWork(ws: Workers, ws': Workers, b: Book, f: FiberId, j: Job)
    requires NoneForgotten(ws, b) && f in b.on && b.on[f] < |b.jobs| && SameTaken(ws, ws', b)
    ensures NoneForgotten(ws', Changed(b, f, j))
  {
    var b' := Changed(b, f, j);
    forall i: nat | i < |b.jobs| && InWork(ws, b, i) ensures InWork(ws', b', i) {
      if g :| g in b.on && b.on[g] == i {
        assert b'.on[g] == i;
      } else {
        var w :| HasTaken(ws, w) && w in b.taken && b.taken[w] == i;
        assert HasTaken(ws', w) && b'.taken[w] == i;
      }
    }
    assert InWork(ws', b', b.on[f]) by { assert b'.on[f] == b.on[f]; }
    NoneForgottenKept(ws, b, ws', b');
  }

  /** The fiber of a job changes, and the job with it. */
  lemma LawChanged(s: State, t: State, b: Book, f: FiberId, x: FiberRec, j: Job)
    requires Law(s, b) && f in b.on && b.on[f] < |b.jobs| && t.fibers == s.fibers[f := x]
    requires SameTaken(s.workers, t.workers, b) && t.dispatched == s.dispatched && Agrees(j, x)
    requires j.script == b.jobs[b.on[f]].script && j.callback == b.jobs[b.on[f]].callback
    ensures Law(t, Changed(b, f, j))
  {
    hide FibersAgree, TakenAgree, NoneForgotten, CallbackJobs, CallbacksTaken, SameTaken, Agrees;
    CallbackJobsUpdate(b.jobs, b.on[f], j);
    ChangedFibers(s.fibers, s.workers, t.workers, b, f, x, j);
    ChangedTaken(s.fibers, s.workers, t.workers, b, f, j);
    ChangedInWork(s.workers, t.workers, b, f, j);
  }

  lemma TakenFibers(fibers: Fibers, ws: Workers, b: Book, w: int, k: Worker, j: Job)
    requires FibersAgree(fibers, ws, b) && w in ws && k.cbFiber == ws[w].cbFiber
    ensures FibersAgree(fibers, ws[w := k], Book(b.jobs + [j], b.on, b.taken[w := |b.jobs|]))
  {
    hide Agrees;
    forall f | f in fibers && f !in b.on ensures Spare(ws[w := k], f) {
      var v :| v in ws && ws[v].cbFiber == Some(f);
      assert ws[w := k][v].cbFiber == Some(f);
    }
    hide Spare;
  }

  function Took(b: Book, w: int, body: Script): Book {
    Book(b.jobs + [Job(body, true, [])], b.on, b.taken[w := |b.jobs|])
  }

  lemma TookTaken(fibers: Fibers, ws: Workers, b: Book, w: int, k: Worker, e: Entry)
    requires FibersAgree(fibers, ws, b) && TakenAgree(ws, b) && !HasTaken(ws, w)
    requires k.phase == Popped(e) && e.task.CallbackTask?
    ensures TakenAgree(ws[w := k], Took(b, w, e.task.body))
  {
    hide Agrees, Spare;
  }

  lemma TookInWork(ws: Workers, b: Book, w: int, k: Worker, e: Entry)
    requires NoneForgotten(ws, b) && !HasTaken(ws, w) && k.phase == Popped(e) && e.task.CallbackTask?
    ensures NoneForgotten(ws[w := k], Took(b, w, e.task.body))
  {
    var ws', b' := ws[w := k], Took(b, w, e.task.body);
    forall i: nat | i < |b.jobs| && InWork(ws, b, i) ensures InWork(ws', b', i) {
      if g :| g in b.on && b.on[g] == i {
        assert b'.on[g] == i;
      } else {
        var v :| HasTaken(ws, v) && v in b.taken && b.taken[v] == i;
        assert HasTaken(ws', v) && b'.taken[v] == i;
      }
    }
    assert HasTaken(ws', w) && b'.taken[w] == |b.jobs|;
    NoneForgottenKept(ws, b, ws', b');
  }

  /** Worker w takes a callback off the queue. */
  lemma LawTook(s: State, t: State, b: Book, w: int, k: Worker, d: Dispatch)
    requires Law(s, b) && t.fibers == s.fibers && w in s.workers && t.workers == s.workers[w := k]
    requires !HasTaken(s.workers, w) && k.cbFiber == s.workers[w].cbFiber && k.phase == Popped(d.entry)
    requires d.entry.task.CallbackTask? && t.dispatched == s.dispatched + [d]
    ensures Law(t, Took(b, w, d.entry.task.body))
  {
    hide FibersAgree, TakenAgree, NoneForgotten, CallbackJobs, CallbacksTaken, HasTaken;
    var j := Job(d.entry.task.body, true, []);
    CallbackJobsSnoc(b.jobs, j);
    CallbacksTakenSnoc(s.dispatched, d);
    TakenFibers(s.fibers, s.workers, b, w, k, j);
    TookTaken(s.fibers, s.workers, b, w, k, d.entry);
    TookInWork(s.workers, b, w, k, d.entry);
  }

  function Started(b: Book, w: int, c: FiberId): Book
    requires w in b.taken
  {
    b.(on := b.on[c := b.taken[w]])
  }

  lemma StartedFibers(fibers: Fibers, ws: Workers, b: Book, w: int, k: Worker, c: FiberId)
    requires FibersAgree(fibers, ws, b) && TakenAgree(ws, b) && HasTaken(ws, w) && c !in b.on
    requires k.cbFiber == Some(c) && (ws[w].cbFiber.Some? ==> ws[w].cbFiber == Some(c))
    ensures FibersAgree(fibers[c := FiberRec(EXEC, Some(ws[w].phase.entry.task.body))], ws[w := k], Started(b, w, c))
  {
    var body := ws[w].phase.entry.task.body;
    assert Agrees(Job(body, true, []), FiberRec(EXEC, Some(body)));
    hide Agrees;
    forall f | f in fibers && f !in b.on && f != c ensures Spare(ws[w := k], f) {
      var v :| v in ws && ws[v].cbFiber == Some(f);
      assert ws[w := k][v].cbFiber == Some(f);
    }
    hide Spare;
  }

  lemma StartedTaken(ws: Workers, b: Book, w: int, k: Worker, c: FiberId)
    requires TakenAgree(ws, b) && HasTaken(ws, w) && c !in b.on && !k.phase.Popped?
    ensures TakenAgree(ws[w := k], Started(b, w, c))
  {}

  lemma StartedInWork(ws: Workers, b: Book, w: int, k: Worker, c: FiberId)
    requires NoneForgotten(ws, b) && HasTaken(ws, w) && w in b.taken && c !in b.on
    ensures NoneForgotten(ws[w := k], Started(b, w, c))
  {
    var ws', b' := ws[w := k], Started(b, w, c);
    forall i: nat | i < |b.jobs| && InWork(ws, b, i) ensures InWork(ws', b', i) {
      if g :| g in b.on && b.on[g] == i {
        assert b'.on[g] == i;
      } else {
        var v :| HasTaken(ws, v) && v in b.taken && b.taken[v] == i;
        if v == w {
          assert b'.on[c] == i;
        } else {
          assert HasTaken(ws', v) && b'.taken[v] == i;
        }
      }
    }
    NoneForgottenKept(ws, b, ws', b');
  }

  /** Worker w enters the callback it has taken, on the fiber c. */
  lemma LawStarted(s: State, t: State, b: Book, w: int, k: Worker, c: FiberId)
    requires Law(s, b) && HasTaken(s.workers, w) && c !in b.on && t.workers == s.workers[w := k]
    requires k.cbFiber == Some(c) && (s.workers[w].cbFiber.Some? ==> s.workers[w].cbFiber == Some(c)) && !k.phase.Popped?
    requires t.fibers == s.fibers[c := FiberRec(EXEC, Some(s.workers[w].phase.entry.task.body))]
    requires t.dispatched == s.dispatched
    ensures w in b.taken && Law(t, Started(b, w, c))
  {
    assert w in b.taken by { hide FibersAgree, NoneForgotten, CallbackJobs, CallbacksTaken; }
    hide FibersAgree, TakenAgree, NoneForgotten, CallbackJobs, CallbacksTaken;
    StartedFibers(s.fibers, s.workers, b, w, k, c);
    StartedTaken(s.workers, b, w, k, c);
    StartedInWork(s.workers, b, w, k, c);
  }

  function Emptied(b: Book, f: FiberId): Book {
    b.(on := b.on - {f})
  }

  lemma EmptiedFibers(fibers: Fibers, ws: Workers, ws': Workers, b: Book, f: FiberId)
    requires FibersAgree(fibers, ws, b) && f in b.on && SameTaken(ws, ws', b) && Spare(ws', f)
    ensures FibersAgree(fibers[f := FiberRec(INIT, None)], ws', Emptied(b, f))
  {
    hide Agrees;
    forall g | g in fibers && g !in b.on ensures Spare(ws', g) {
      var v :| v in ws && ws[v].cbFiber == Some(g);
      assert ws'[v].cbFiber == Some(g);
    }
    hide Spare, SameTaken;
  }

  lemma EmptiedTaken(ws: Workers, ws': Workers, b: Book, f: FiberId)
    requires TakenAgree(ws, b) && SameTaken(ws, ws', b)
    ensures TakenAgree(ws', Emptied(b, f))
  {}

  lemma EmptiedInWork(ws: Workers, ws': Workers, b: Book, f: FiberId)
    requires NoneForgotten(ws, b) && f in b.on && b.on[f] < |b.jobs| && SameTaken(ws, ws', b)
    requires Performed(b.jobs[b.on[f]].script, b.jobs[b.on[f]].acts)
    ensures NoneForgotten(ws', Emptied(b, f))
  {
    hide Performed;
    var b' := Emptied(b, f);
    forall i: nat | i < |b.jobs| && i != b.on[f] && InWork(ws, b, i) ensures InWork(ws', b', i) {
      if g :| g in b.on && b.on[g] == i {
        assert b'.on[g] == i;
      } else {
        var v :| HasTaken(ws, v) && v in b.taken && b.taken[v] == i;
        assert HasTaken(ws', v);
      }
    }
  }

  /** A callback fiber whose job is performed is emptied. */
  lemma LawEmptied(s: State, t: State, b: Book, f: FiberId)
    requires Law(s, b) && f in b.on && f in s.fibers && Dead(s.fibers[f].state) && SameTaken(s.workers, t.workers, b)
    requires t.fibers == s.fibers[f := FiberRec(INIT, None)] && Spare(t.workers, f) && t.dispatched == s.dispatched
    ensures Law(t, Emptied(b, f))
  {
    assert b.on[f] < |b.jobs| && Performed(b.jobs[b.on[f]].script, b.jobs[b.on[f]].acts) by {
      hide TakenAgree, NoneForgotten, CallbackJobs, CallbacksTaken, Performed;
      assert Agrees(b.jobs[b.on[f]], s.fibers[f]);
    }
    hide FibersAgree, TakenAgree, NoneForgotten, CallbackJobs, CallbacksTaken, SameTaken, Performed;
    EmptiedFibers(s.fibers, s.workers, t.workers, b, f);
    EmptiedTaken(s.workers, t.workers, b, f);
    EmptiedInWork(s.workers, t.workers, b, f);
  }

  // ---------------------------------------------------------------- every step keeps the law

  lemma LawParts(s: State, b: Book)
    requires Law(s, b)
    ensures FibersAgree(s.fibers, s.workers, b) && TakenAgree(s.workers, b)
  {
    hide FibersAgree, TakenAgree, NoneForgotten, CallbacksAgree;
  }

  /** A fiber that a worker has in hand, and that is not an emptied callback fiber, has a job. */
  lemma HeldJob(s: State, b: Book, f: FiberId)
    requires FibersAgree(s.fibers, s.workers, b) && f in s.fibers && s.fibers[f] != FiberRec(INIT, None)
    ensures f in b.on && b.on[f] < |b.jobs| && Agrees(b.jobs[b.on[f]], s.fibers[f])
  {
    hide Agrees, Spare;
  }

  lemma RunningJob(s: State, b: Book, w: int)
    requires Inv(s) && Law(s, b) && w in s.workers && s.workers[w].phase.Running?
    ensures var f := s.workers[w].phase.fid;
      && f in s.fibers && s.fibers[f].state == EXEC && s.fibers[f].body.Some?
      && f in b.on && b.on[f] < |b.jobs|
      && Fits(b.jobs[b.on[f]].script, b.jobs[b.on[f]].acts, s.fibers[f].body.value)
  {
    hide Inv, Law;
    LawParts(s, b);
    WorkerFacts(s, w);
    var f := s.workers[w].phase.fid;
    assert f in Holds(s.workers[w]);
    hide FibersAgree, TakenAgree;
    HeldJob(s, b, f);
  }

  lemma SettlingJob(s: State, b: Book, w: int)
    requires Inv(s) && Law(s, b) && w in s.workers && s.workers[w].phase.Settling?
    ensures var Settling(f, via) := s.workers[w].phase;
      && f in s.fibers && f in b.on && b.on[f] < |b.jobs| && Agrees(b.jobs[b.on[f]], s.fibers[f])
      && s.fibers[f].state != INIT && s.fibers[f].state != EXEC && (via ==> s.workers[w].cbFiber == Some(f))
  {
    hide Inv, Law;
    LawParts(s, b);
    WorkerFacts(s, w);
    var f := s.workers[w].phase.fid;
    assert f in Holds(s.workers[w]);
    hide FibersAgree, TakenAgree, Agrees;
    HeldJob(s, b, f);
  }

  /** A fiber taken from the queue is not anybody's callback fiber. */
  lemma PoppedJob(s: State, b: Book, w: int)
    requires Inv(s) && Law(s, b) && Enabled(s, SwapIn(w)) && s.workers[w].phase.entry.task.FiberTask?
    ensures var f := s.workers[w].phase.entry.task.fid;
      && f in s.fibers && f in b.on && b.on[f] < |b.jobs| && Agrees(b.jobs[b.on[f]], s.fibers[f])
      && !Dead(s.fibers[f].state)
  {
    hide Inv, Law, Agrees, Fits;
    LawParts(s, b);
    WorkerFacts(s, w);
    var f := s.workers[w].phase.entry.task.fid;
    assert f in Holds(s.workers[w]);
    OwnersOf(s);
    assert !Spare(s.workers, f) by {
      hide FibersAgree, TakenAgree, States, Counters, Conserved, Shape;
      forall v | v in s.workers ensures s.workers[v].cbFiber != Some(f) {
        assert v != w ==> f !in Holds(s.workers[v]);
      }
    }
    hide Owners, Shape, States, Counters, Conserved, TakenAgree, WorkerOk;
  }

  /** The callback fiber that a worker is about to reuse has no job. */
  lemma SpareHasNoJob(s: State, b: Book, w: int)
    requires Inv(s) && Law(s, b) && Enabled(s, SwapIn(w)) && s.workers[w].cbFiber.Some?
    ensures s.workers[w].cbFiber.value !in b.on
  {
    hide Inv, Law;
    LawParts(s, b);
    WorkerFacts(s, w);
    var c := s.workers[w].cbFiber.value;
    hide TakenAgree, Fits;
    assert c in b.on ==> Agrees(b.jobs[b.on[c]], s.fibers[c]);
  }

  lemma NewHasNoJob(s: State, b: Book)
    requires Inv(s) && Law(s, b)
    ensures s.nextId !in s.fibers && s.nextId !in b.on
  {
    hide Inv, Law;
    LawParts(s, b);
    OwnersOf(s);
    NewIdIsFresh(s);
    hide Owners, Shape, States, Counters, Conserved, TakenAgree, Agrees;
  }

  ghost predicate StepKeeps(s: State, b: Book, l: Label)
    requires Enabled(s, l)
  {
    Law(Apply(s, l), Entered(s, l, Apply(s, l), b))
  }

  /** One worker moves on, neither taking nor entering a callback, with its callback fiber as before. */
  lemma MoveSameTaken(ws: Workers, w: int, k: Worker, b: Book)
    requires w in ws && !HasTaken(ws, w) && !(k.phase.Popped? && k.phase.entry.task.CallbackTask?)
    requires ws[w].cbFiber.Some? && ws[w].cbFiber.value !in b.on ==> k.cbFiber == ws[w].cbFiber
    ensures SameTaken(ws, ws[w := k], b)
  {}

  lemma KeepsSwapInFiber(s: State, b: Book, w: int)
    requires Inv(s) && Law(s, b) && Enabled(s, SwapIn(w)) && s.workers[w].phase.entry.task.FiberTask?
    ensures StepKeeps(s, b, SwapIn(w))
  {
    hide Inv, Law, SameTaken;
    PoppedJob(s, b, w);
    var f := s.workers[w].phase.entry.task.fid;
    var t, j := SwapInStep(s, w), b.jobs[b.on[f]];
    MoveSameTaken(s.workers, w, t.workers[w], b);
    assert t.workers == s.workers[w := t.workers[w]];
    LawChanged(s, t, b, f, FiberRec(EXEC, s.fibers[f].body), j);
    assert Changed(b, f, j) == b;
  }

  lemma KeepsSwapInCallback(s: State, b: Book, w: int)
    requires Inv(s) && Law(s, b) && Enabled(s, SwapIn(w)) && s.workers[w].phase.entry.task.CallbackTask?
    ensures StepKeeps(s, b, SwapIn(w))
  {
    hide Inv, Law;
    var k, t := s.workers[w], SwapInStep(s, w);
    var c := if k.cbFiber.Some? then k.cbFiber.value else s.nextId;
    if k.cbFiber.Some? {
      SpareHasNoJob(s, b, w);
    } else {
      NewHasNoJob(s, b);
    }
    assert HasTaken(s.workers, w) && t.workers == s.workers[w := t.workers[w]];
    LawStarted(s, t, b, w, t.workers[w], c);
  }

  /** The running task left: its job gets one more action. */
  lemma KeepsLeft(s: State, b: Book, w: int, wake: Option<FiberId>, st: FiberState, body: Option<Script>, act: Action)
    requires Inv(s) && Law(s, b) && Enabled(s, Act(w, wake)) && ActStep(s, w, wake) == Suspend(s, w, st, body)
    requires var f := s.workers[w].phase.fid;
      f in b.on && b.on[f] < |b.jobs| &&
      var j := b.jobs[b.on[f]];
      Agrees(j.(acts := j.acts + [act]), FiberRec(st, body))
    requires Seen(s, Suspend(s, w, st, body), w) == act && !act.Spawned?
    ensures StepKeeps(s, b, Act(w, wake))
  {
    hide Inv, Law, SameTaken, Agrees, Seen, Free;
    var f, t := s.workers[w].phase.fid, Suspend(s, w, st, body);
    var j := b.jobs[b.on[f]];
    MoveSameTaken(s.workers, w, t.workers[w], b);
    LawChanged(s, t, b, f, FiberRec(st, body), j.(acts := j.acts + [act]));
    assert Noted(b, f, act) == Changed(b, f, j.(acts := j.acts + [act]));
    hide ActStep, Suspend;
  }

  lemma AgreesEnd(j: Job, returned: bool, body: Option<Script>)
    requires Fits(j.script, j.acts, if returned then Done else Throw)
    ensures var act := if returned then Returned else Threw;
      Agrees(j.(acts := j.acts + [act]), FiberRec(if returned then TERM else EXCEPT, body))
  {
    var act := if returned then Returned else Threw;
    assert (j.acts + [act])[..|j.acts|] == j.acts;
  }

  lemma AgreesGoOn(j: Job, rest: Script, act: Action, next: Script, st: FiberState)
    requires Fits(j.script, j.acts, rest) && Fits(rest, [act], next) && st != TERM && st != EXCEPT
    ensures Agrees(j.(acts := j.acts + [act]), FiberRec(st, Some(next)))
  {
    FitsSnoc(j.script, j.acts, rest, act, next);
  }

  lemma KeepsLeaving(s: State, b: Book, w: int, wake: Option<FiberId>)
    requires Inv(s) && Law(s, b) && Enabled(s, Act(w, wake))
    requires Head(s, w).Some? && !Head(s, w).value.Spawn? && !Head(s, w).value.Wake?
    ensures StepKeeps(s, b, Act(w, wake))
  {
    hide Inv, Law, Fits, Free, Agrees, StepKeeps;
    RunningJob(s, b, w);
    var f := s.workers[w].phase.fid;
    var j := b.jobs[b.on[f]];
    match s.fibers[f].body.value
    case Done =>
      AgreesEnd(j, true, None);
      KeepsLeft(s, b, w, wake, TERM, None, Returned);
    case Throw =>
      AgreesEnd(j, false, Some(Throw));
      KeepsLeft(s, b, w, wake, EXCEPT, Some(Throw), Threw);
    case Yield(ready, rest) =>
      FitsOne(s.fibers[f].body.value, Yielded(ready), rest);
      AgreesGoOn(j, s.fibers[f].body.value, Yielded(ready), rest, if ready then READY else HOLD);
      KeepsLeft(s, b, w, wake, if ready then READY else HOLD, Some(rest), Yielded(ready));
  }

  /** The running task went on: one more action, then whatever else the step did with queue and new fibers. */
  lemma KeepsContinued(s: State, b: Book, w: int, rest: Script, act: Action)
    requires Inv(s) && Law(s, b) && w in s.workers && s.workers[w].phase.Running?
    requires Head(s, w).Some? && Fits(Head(s, w).value, [act], rest)
    ensures s.workers[w].phase.fid in b.on && b.on[s.workers[w].phase.fid] < |b.jobs|
    ensures Law(Continue(s, w, rest), Noted(b, s.workers[w].phase.fid, act))
  {
    hide Inv, Law, Fits, SameTaken, Agrees;
    RunningJob(s, b, w);
    var f, t := s.workers[w].phase.fid, Continue(s, w, rest);
    var j := b.jobs[b.on[f]];
    AgreesGoOn(j, s.fibers[f].body.value, act, rest, EXEC);
    assert SameTaken(s.workers, t.workers, b) by { NobodyTakes(s.workers, b); }
    LawChanged(s, t, b, f, FiberRec(EXEC, Some(rest)), j.(acts := j.acts + [act]));
  }

  lemma NobodyTakes(ws: Workers, b: Book)
    ensures SameTaken(ws, ws, b)
  {}

  lemma KeepsSpawning(s: State, b: Book, w: int, wake: Option<FiberId>)
    requires Inv(s) && Law(s, b) && Enabled(s, Act(w, wake)) && Head(s, w).Some? && Head(s, w).value.Spawn?
    ensures StepKeeps(s, b, Act(w, wake))
  {
    hide Inv, Law, Fits, Free, SameTaken;
    var f, h := s.workers[w].phase.fid, Head(s, w).value;
    var act := Spawned(h.asFiber, h.task, h.pin);
    NewHasNoJob(s, b);
    RunningJob(s, b, w);
    FitsOne(h, act, h.rest);
    KeepsContinued(s, b, w, h.rest, act);
    var mid, t := Continue(s, w, h.rest), ActStep(s, w, wake);
    var b' := Noted(b, f, act);
    assert Seen(s, t, w) == act;
    hide Seen, Noted;
    if h.asFiber {
      LawOpened(mid, t, b', s.nextId, h.task);
    } else {
      NobodyTakes(s.workers, b');
      LawSame(mid, t, b');
    }
  }

  lemma KeepsWaking(s: State, b: Book, w: int, wake: Option<FiberId>)
    requires Inv(s) && Law(s, b) && Enabled(s, Act(w, wake)) && Head(s, w).Some? && Head(s, w).value.Wake?
    ensures StepKeeps(s, b, Act(w, wake))
  {
    hide Inv, Law, Fits, SameTaken;
    var f, h := s.workers[w].phase.fid, Head(s, w).value;
    var act := if wake.Some? then Woke(wake.value, h.pin) else WokeNobody;
    RunningJob(s, b, w);
    FitsOne(h, act, h.rest);
    KeepsContinued(s, b, w, h.rest, act);
    var mid, t := Continue(s, w, h.rest), ActStep(s, w, wake);
    assert Seen(s, t, w) == act;
    hide Seen, Noted, Free;
    NobodyTakes(s.workers, Noted(b, f, act));
    LawSame(mid, t, Noted(b, f, act));
  }

  lemma KeepsSettling(s: State, b: Book, w: int)
    requires Inv(s) && Law(s, b) && Enabled(s, Settle(w))
    ensures StepKeeps(s, b, Settle(w))
  {
    hide Inv, Law, SameTaken;
    SettlingJob(s, b, w);
    var Settling(f, via) := s.workers[w].phase;
    var t := SettleStep(s, w);
    assert t.workers == s.workers[w := t.workers[w]];
    if via && Dead(s.fibers[f].state) {
      assert Spare(t.workers, f) by { assert t.workers[w].cbFiber == Some(f); }
      MoveSameTaken(s.workers, w, t.workers[w], b);
      LawEmptied(s, t, b, f);
    } else if s.fibers[f].state == HOLD {
      MoveSameTaken(s.workers, w, t.workers[w], b);
      LawChanged(s, t, b, f, FiberRec(HOLD, s.fibers[f].body), b.jobs[b.on[f]]);
      assert Changed(b, f, b.jobs[b.on[f]]) == b;
    } else {
      MoveSameTaken(s.workers, w, t.workers[w], b);
      LawSame(s, t, b);
    }
  }

  lemma KeepsScanning(s: State, b: Book, w: int)
    requires Law(s, b) && Enabled(s, Scan(w))
    ensures StepKeeps(s, b, Scan(w))
  {
    hide Law, SameTaken, CallbacksTaken;
    var t, i := ScanStep(s, w), FirstEligible(s.queue, w, s.fibers);
    assert t.workers == s.workers[w := t.workers[w]];
    if i < |s.queue| && s.queue[i].task.CallbackTask? {
      LawTook(s, t, b, w, t.workers[w], Dispatch(s.queue[i], w));
    } else {
      if i < |s.queue| {
        CallbacksTakenSnoc(s.dispatched, Dispatch(s.queue[i], w));
      }
      MoveSameTaken(s.workers, w, t.workers[w], b);
      LawSame(s, t, b);
    }
  }

  /** Steps that touch no fiber, no job and no taken callback. */
  lemma KeepsMoving(s: State, b: Book, l: Label)
    requires Law(s, b) && Enabled(s, l)
    requires l.Drop? || l.Decrement? || l.EnterIdle? || l.CheckIdle? || l.LeaveIdle? || l.Quit?
    ensures StepKeeps(s, b, l)
  {
    hide Law, SameTaken, CallbacksTaken, Quiescent;
    var t := Apply(s, l);
    assert t.workers == s.workers[l.w := t.workers[l.w]];
    MoveSameTaken(s.workers, l.w, t.workers[l.w], b);
    LawSame(s, t, b);
  }

  /** start() and stop() move workers that have not entered run() yet. */
  lemma MainTakesNothing(s: State, b: Book, l: Label)
    requires Shape(s) && Enabled(s, l) && (l.Start? || l.StopBegin? || l.StopFlag? || l.StopRoot?)
    ensures var t := Apply(s, l);
      t.fibers == s.fibers && t.dispatched == s.dispatched && SameTaken(s.workers, t.workers, b)
  {
    hide Quiescent;
  }

  lemma KeepsByMain(s: State, b: Book, l: Label)
    requires Inv(s) && Law(s, b) && Enabled(s, l)
    requires l.Start? || l.StopBegin? || l.StopFlag? || l.StopRoot?
    ensures StepKeeps(s, b, l)
  {
    hide Law, CallbacksTaken, Owners, States, Counters, Conserved, Shape, Apply, Enabled, SameTaken;
    MainTakesNothing(s, b, l);
    LawSame(s, Apply(s, l), b);
  }

  lemma KeepsOutsideWake(s: State, b: Book, l: Label)
    requires Law(s, b) && Enabled(s, l) && l.OutsideWake?
    ensures StepKeeps(s, b, l)
  {
    hide Law, CallbacksTaken, SameTaken, Free;
    NobodyTakes(s.workers, b);
    LawSame(s, Apply(s, l), b);
  }

  lemma KeepsOutsideSpawn(s: State, b: Book, l: Label)
    requires Inv(s) && Law(s, b) && Enabled(s, l) && l.OutsideSpawn?
    ensures StepKeeps(s, b, l)
  {
    hide Inv, Law, CallbacksTaken, SameTaken;
    NewHasNoJob(s, b);
    var t := Apply(s, l);
    if l.asFiber {
      LawOpened(s, t, b, s.nextId, l.body);
    } else {
      NobodyTakes(s.workers, b);
      LawSame(s, t, b);
    }
  }

  lemma KeepsActing(s: State, b: Book, l: Label)
    requires Inv(s) && Law(s, b) && Enabled(s, l) && l.Act?
    ensures StepKeeps(s, b, l)
  {
    hide Inv, Law, StepKeeps, Free, Fits;
    RunningJob(s, b, l.w);
    var h := Head(s, l.w);
    if h.value.Spawn? {
      KeepsSpawning(s, b, l.w, l.wake);
    } else if h.value.Wake? {
      KeepsWaking(s, b, l.w, l.wake);
    } else {
      KeepsLeaving(s, b, l.w, l.wake);
    }
  }

  lemma LawKept(s: State, b: Book, l: Label)
    requires Inv(s) && Law(s, b) && Enabled(s, l)
    ensures StepKeeps(s, b, l)
  {
    hide Inv, Law, StepKeeps, Free, Quiescent;
    match l
    case Scan(w) => KeepsScanning(s, b, w);
    case SwapIn(w) =>
      if s.workers[w].phase.entry.task.FiberTask? {
        KeepsSwapInFiber(s, b, w);
      } else {
        KeepsSwapInCallback(s, b, w);
      }
    case Act(_, _) => KeepsActing(s, b, l);
    case Settle(w) => KeepsSettling(s, b, w);
    case OutsideSpawn(_, _, _) => KeepsOutsideSpawn(s, b, l);
    case _ =>
      if l.Start? || l.StopBegin? || l.StopFlag? || l.StopRoot? {
        KeepsByMain(s, b, l);
      } else if l.OutsideWake? {
        KeepsOutsideWake(s, b, l);
      } else {
        KeepsMoving(s, b, l);
      }
  }

  lemma {:induction false} LawRuns(s: State, ls: seq<Label>, b: Book)
    requires Inv(s) && Law(s, b) && Runs(s, ls)
    ensures Law(After(s, ls), BookAfter(s, ls, b))
    decreases |ls|
  {
    hide Inv, Law, Enabled, Apply, Entered;
    if ls != [] {
      Keeps(s, ls[0]);
      LawKept(s, b, ls[0]);
      LawRuns(Apply(s, ls[0]), ls[1..], Entered(s, ls[0], Apply(s, ls[0]), b));
    }
  }

  /** In every reachable state: what each task has been seen to do, followed by what its fiber has left, is the script it
      was scheduled with, through yields, wakes and changes of thread; a fiber is TERM only after its whole script, and
      EXCEPT only at a throw; and the callbacks that ran or run are those dispatched. */
  lemma TasksRunTheirScripts(s: State, ls: seq<Label>)
    requires Initial(s) && Runs(s, ls)
    ensures Law(After(s, ls), BookAfter(s, ls, EMPTY))
  {
    InitialInv(s);
    assert Law(s, EMPTY) by { hide Inv; }
    hide Inv, Law, Initial;
    LawRuns(s, ls, EMPTY);
  }

  // ---------------------------------------------------------------- nothing gets lost

  /** A fiber that is new or READY is in the queue or in a worker's hands. */
  ghost predicate Placed(s: State) {
    forall f :: f in s.fibers && (s.fibers[f].state == INIT || s.fibers[f].state == READY) ==> Queued(s, f) || Held(s, f)
  }

  predicate Waiting(x: FiberRec) {
    x.state == INIT || x.state == READY
  }

  lemma QueuedGrows(s: State, t: State, f: FiberId)
    requires s.queue <= t.queue && Queued(s, f)
    ensures Queued(t, f)
  {
    var i :| 0 <= i < |s.queue| && s.queue[i].task == FiberTask(f);
    assert t.queue[i] == s.queue[i];
  }

  /** Worker w moves on without taking from the queue, and only fiber g changes or leaves its hands. */
  lemma PlacedMove(s: State, t: State, w: int, k: Worker, g: FiberId)
    requires Placed(s) && s.queue <= t.queue && w in s.workers && t.workers == s.workers[w := k]
    requires Holds(s.workers[w]) - {g} <= Holds(k)
    requires forall f :: f in t.fibers && f != g ==> f in s.fibers && t.fibers[f] == s.fibers[f]
    requires g in t.fibers && Waiting(t.fibers[g]) ==> Queued(t, g) || Held(t, g)
    ensures Placed(t)
  {
    hide Holds;
    forall f | f in t.fibers && Waiting(t.fibers[f]) ensures Queued(t, f) || Held(t, f) {
      if f != g {
        if Queued(s, f) {
          QueuedGrows(s, t, f);
        } else {
          var v :| v in s.workers && f in Holds(s.workers[v]);
          assert v in t.workers && f in Holds(t.workers[v]);
        }
      }
    }
  }

  /** Nobody lets go of anything. */
  lemma PlacedSame(s: State, t: State, g: FiberId)
    requires Placed(s) && s.queue <= t.queue && t.workers.Keys == s.workers.Keys
    requires forall w :: w in s.workers ==> Holds(t.workers[w]) == Holds(s.workers[w])
    requires forall f :: f in t.fibers && f != g ==> f in s.fibers && t.fibers[f] == s.fibers[f]
    requires g in t.fibers && Waiting(t.fibers[g]) ==> Queued(t, g) || Held(t, g)
    ensures Placed(t)
  {
    hide Holds;
    forall f | f in t.fibers && Waiting(t.fibers[f]) ensures Queued(t, f) || Held(t, f) {
      if f != g {
        if Queued(s, f) {
          QueuedGrows(s, t, f);
        } else {
          var v :| v in s.workers && f in Holds(s.workers[v]);
          assert v in t.workers && f in Holds(t.workers[v]);
        }
      }
    }
  }

  lemma PlacedScan(s: State, w: int)
    requires Placed(s) && Enabled(s, Scan(w))
    ensures Placed(ScanStep(s, w))
  {
    var t, i := ScanStep(s, w), FirstEligible(s.queue, w, s.fibers);
    hide Eligible;
    forall f | f in t.fibers && Waiting(t.fibers[f]) ensures Queued(t, f) || Held(t, f) {
      if Queued(s, f) {
        var j :| 0 <= j < |s.queue| && s.queue[j].task == FiberTask(f);
        if j == i {
          assert f in Holds(t.workers[w]);
        } else if i < |s.queue| {
          assert t.queue[if j < i then j else j - 1] == s.queue[j];
        }
      } else {
        var v :| v in s.workers && f in Holds(s.workers[v]);
        assert v in t.workers && f in Holds(t.workers[v]);
      }
    }
  }

  lemma PlacedPush(s: State, e: Entry, f: FiberId, x: FiberRec)
    requires Placed(s)
    requires e.task == FiberTask(f)
    ensures Placed(Push(s, e)) && Placed(Push(SetFiber(s, f, x), e))
  {
    var t, u := Push(s, e), Push(SetFiber(s, f, x), e);
    assert t.queue[|s.queue|] == e && u.queue[|s.queue|] == e;
    assert Queued(t, f) && Queued(u, f);
    hide Holds, Queued;
    PlacedSame(s, t, f);
    PlacedSame(s, u, f);
  }

  lemma PlacedNew(s: State, asFiber: bool, body: Script, pin: int)
    requires Placed(s)
    ensures Placed(PushNew(s, asFiber, body, pin))
  {
    if asFiber {
      PlacedPush(s, Entry(FiberTask(s.nextId), pin), s.nextId, FiberRec(INIT, Some(body)));
      PlacedId(Push(SetFiber(s, s.nextId, FiberRec(INIT, Some(body))), Entry(FiberTask(s.nextId), pin)), s.nextId + 1);
    } else {
      hide Holds;
      PlacedCallback(s, Entry(CallbackTask(body), pin));
    }
  }

  lemma PlacedId(s: State, id: FiberId)
    requires Placed(s)
    ensures Placed(s.(nextId := id))
  {
    var t := s.(nextId := id);
    hide Holds;
    forall f | f in t.fibers && Waiting(t.fibers[f]) ensures Queued(t, f) || Held(t, f) {
      assert Queued(s, f) || Held(s, f);
    }
  }

  lemma PlacedCallback(s: State, e: Entry)
    requires Placed(s) && e.task.CallbackTask?
    ensures Placed(Push(s, e))
  {
    var t := Push(s, e);
    hide Holds;
    forall f | f in t.fibers && Waiting(t.fibers[f]) ensures Queued(t, f) || Held(t, f) {
      if Queued(s, f) {
        QueuedGrows(s, t, f);
      } else {
        assert Held(s, f);
      }
    }
  }

  lemma PlacedAct(s: State, w: int, wake: Option<FiberId>)
    requires Inv(s) && Placed(s) && Enabled(s, Act(w, wake))
    ensures Placed(ActStep(s, w, wake))
  {
    hide Inv, Placed, Free, PushNew, Push, Holds;
    WorkerFacts(s, w);
    match Rec(s.fibers, s.workers[w].phase.fid).body
    case None => PlacedSuspend(s, w, EXCEPT, None);
    case Some(Done) => PlacedSuspend(s, w, TERM, None);
    case Some(Throw) => PlacedSuspend(s, w, EXCEPT, Some(Throw));
    case Some(Yield(ready, rest)) => PlacedSuspend(s, w, if ready then READY else HOLD, Some(rest));
    case Some(Spawn(asFiber, task, pin, rest)) =>
      PlacedContinue(s, w, rest);
      PlacedNew(Continue(s, w, rest), asFiber, task, pin);
    case Some(Wake(pin, rest)) =>
      PlacedContinue(s, w, rest);
      if wake.Some? {
        PlacedPush(Continue(s, w, rest), Entry(FiberTask(wake.value), pin), wake.value, FiberRec(INIT, None));
      }
  }

  lemma PlacedSuspend(s: State, w: int, st: FiberState, body: Option<Script>)
    requires Placed(s) && w in s.workers && s.workers[w].phase.Running?
    ensures Placed(Suspend(s, w, st, body))
  {
    var f, t := s.workers[w].phase.fid, Suspend(s, w, st, body);
    assert f in Holds(t.workers[w]);
    PlacedMove(s, t, w, t.workers[w], f);
  }

  lemma PlacedContinue(s: State, w: int, rest: Script)
    requires Placed(s) && w in s.workers && s.workers[w].phase.Running?
    ensures Placed(Continue(s, w, rest))
  {
    hide Holds;
    PlacedSame(s, Continue(s, w, rest), s.workers[w].phase.fid);
  }

  lemma PlacedSwapIn(s: State, w: int)
    requires Placed(s) && Enabled(s, SwapIn(w))
    ensures Placed(SwapInStep(s, w))
  {
    var k, t := s.workers[w], SwapInStep(s, w);
    var f := t.workers[w].phase.fid;
    hide Placed, Queued, Held;
    PlacedMove(s, t, w, t.workers[w], f);
  }

  lemma PlacedSettle(s: State, w: int)
    requires Inv(s) && Placed(s) && Enabled(s, Settle(w))
    ensures Placed(SettleStep(s, w))
  {
    WorkerFacts(s, w);
    hide Inv, Placed;
    var f, t := s.workers[w].phase.fid, SettleStep(s, w);
    if Rec(s.fibers, f).state == READY {
      assert t.queue[|s.queue|].task == FiberTask(f);
      assert Queued(t, f);
    } else if Dead(Rec(s.fibers, f).state) && s.workers[w].phase.viaCallback {
      assert f in Holds(t.workers[w]);
    }
    PlacedMove(s, t, w, t.workers[w], f);
  }

  /** Steps of a worker that hold what they held, or drop a finished fiber. */
  lemma PlacedOther(s: State, l: Label)
    requires Placed(s) && Enabled(s, l)
    requires l.Drop? || l.Decrement? || l.EnterIdle? || l.CheckIdle? || l.LeaveIdle? || l.Quit?
    ensures Placed(Apply(s, l))
  {
    var t := Apply(s, l);
    var g := if l.Drop? then s.workers[l.w].phase.entry.task.fid else 0;
    assert t.workers == s.workers[l.w := t.workers[l.w]] && t.fibers == s.fibers && t.queue == s.queue;
    assert Holds(s.workers[l.w]) - (if l.Drop? then {g} else {}) <= Holds(t.workers[l.w]);
    hide Quiescent;
    forall f | f in t.fibers && Waiting(t.fibers[f]) ensures Queued(t, f) || Held(t, f) {
      if Queued(s, f) {
        QueuedGrows(s, t, f);
      } else {
        var v :| v in s.workers && f in Holds(s.workers[v]);
        assert v in t.workers && f in Holds(t.workers[v]);
      }
    }
  }

  /** start() and stop() put workers to their places and touch nothing else that counts here. */
  lemma HoldsByMain(s: State, l: Label)
    requires Shape(s) && Enabled(s, l) && (l.Start? || l.StopBegin? || l.StopFlag? || l.StopRoot?)
    ensures var t := Apply(s, l);
      && t.queue == s.queue && t.workers.Keys == s.workers.Keys && t.fibers == s.fibers && t.dispatched == s.dispatched
      && forall w :: w in s.workers ==> Holds(t.workers[w]) == Holds(s.workers[w])
  {
    hide Quiescent;
    var t := Apply(s, l);
    forall w | w in s.workers ensures w in t.workers && Holds(t.workers[w]) == Holds(s.workers[w]) {
      if t.workers[w] != s.workers[w] {
        assert s.workers[w].phase.NotStarted? && t.workers[w] == s.workers[w].(phase := t.workers[w].phase);
      }
    }
  }

  lemma PlacedByMain(s: State, l: Label)
    requires Inv(s) && Placed(s) && Enabled(s, l)
    requires l.Start? || l.StopBegin? || l.StopFlag? || l.StopRoot?
    ensures Placed(Apply(s, l))
  {
    hide Placed, Owners, States, Counters, Conserved, Apply, Enabled, Holds, Shape;
    HoldsByMain(s, l);
    PlacedSameAll(s, Apply(s, l));
  }

  lemma PlacedFromOutside(s: State, l: Label)
    requires Placed(s) && Enabled(s, l) && (l.OutsideWake? || l.OutsideSpawn?)
    ensures Placed(Apply(s, l))
  {
    hide Placed, Free, PushNew, Push;
    if l.OutsideSpawn? {
      PlacedNew(s, l.asFiber, l.body, l.pin);
    } else {
      PlacedPush(s, Entry(FiberTask(l.fid), l.pin), l.fid, FiberRec(INIT, None));
    }
  }

  lemma PlacedSameAll(s: State, t: State)
    requires Placed(s) && t.queue == s.queue && t.workers.Keys == s.workers.Keys && t.fibers == s.fibers
    requires forall w :: w in s.workers ==> Holds(t.workers[w]) == Holds(s.workers[w])
    ensures Placed(t)
  {
    hide Holds;
    forall f | f in t.fibers && Waiting(t.fibers[f]) ensures Queued(t, f) || Held(t, f) {
      if Queued(s, f) {
        QueuedGrows(s, t, f);
      } else {
        var v :| v in s.workers && f in Holds(s.workers[v]);
        assert v in t.workers && f in Holds(t.workers[v]);
      }
    }
  }

  lemma PlacedKept(s: State, l: Label)
    requires Inv(s) && Placed(s) && Enabled(s, l)
    ensures Placed(Apply(s, l))
  {
    hide Inv, Placed, Free, Quiescent;
    match l
    case Scan(w) => PlacedScan(s, w);
    case SwapIn(w) => PlacedSwapIn(s, w);
    case Act(w, wake) => PlacedAct(s, w, wake);
    case Settle(w) => PlacedSettle(s, w);
    case _ =>
      if l.Drop? || l.Decrement? || l.EnterIdle? || l.CheckIdle? || l.LeaveIdle? || l.Quit? {
        PlacedOther(s, l);
      } else if l.OutsideWake? || l.OutsideSpawn? {
        PlacedFromOutside(s, l);
      } else {
        PlacedByMain(s, l);
      }
  }

  lemma {:induction false} PlacedRuns(s: State, ls: seq<Label>)
    requires Inv(s) && Placed(s) && Runs(s, ls)
    ensures Inv(After(s, ls)) && Placed(After(s, ls))
    decreases |ls|
  {
    hide Inv, Placed, Enabled, Apply;
    if ls != [] {
      Keeps(s, ls[0]);
      PlacedKept(s, ls[0]);
      PlacedRuns(Apply(s, ls[0]), ls[1..]);
    }
  }

  /** The job is on a fiber that yielded to HOLD and that nobody woke since. */
  ghost predicate OnHold(s: State, b: Book, i: nat) {
    exists f :: f in b.on && b.on[f] == i && f in s.fibers && s.fibers[f].state == HOLD
  }

  /** When all workers have left with nothing queued, as they always do where stop() is safe, every task that was ever
      made or dispatched performed its whole script, or threw, or waits on HOLD for a wake that never came. */
  lemma EverythingRan(s: State, ls: seq<Label>, i: nat)
    requires Initial(s) && Runs(s, ls)
    ensures var t, b := After(s, ls), BookAfter(s, ls, EMPTY);
      AllExited(t) && t.queue == [] && i < |b.jobs| ==>
        Performed(b.jobs[i].script, b.jobs[i].acts) || OnHold(t, b, i)
  {
    var t, b := After(s, ls), BookAfter(s, ls, EMPTY);
    assert Placed(s);
    InitialInv(s);
    TasksRunTheirScripts(s, ls);
    hide Initial, Runs, After, BookAfter, Law, Inv, Placed, AllExited;
    PlacedRuns(s, ls);
    if AllExited(t) && t.queue == [] && i < |b.jobs| {
      JobsAtTheEnd(t, b, i);
    }
  }

  lemma JobsAtTheEnd(t: State, b: Book, i: nat)
    requires Inv(t) && Placed(t) && Law(t, b) && AllExited(t) && t.queue == [] && i < |b.jobs|
    ensures Performed(b.jobs[i].script, b.jobs[i].acts) || OnHold(t, b, i)
  {
    hide Inv, Performed, Fits;
    assert NoneForgotten(t.workers, b);
    LawParts(t, b);
    hide Law, NoneForgotten;
    if f :| f in b.on && b.on[f] == i {
      assert Agrees(b.jobs[i], t.fibers[f]);
      RestingFiber(t, f);
    } else {
      assert forall w :: !HasTaken(t.workers, w);
    }
  }

  lemma RestingFiber(t: State, f: FiberId)
    requires Inv(t) && Placed(t) && AllExited(t) && t.queue == [] && f in t.fibers
    ensures t.fibers[f].state == HOLD || Dead(t.fibers[f].state) || t.fibers[f] == FiberRec(INIT, None)
  {
    OwnersOf(t);
    hide Inv, Owners, Shape, Counters, Conserved;
    assert forall w :: !RunsFiber(t.workers, w, f);
    assert t.fibers[f].state != EXEC;
    if Waiting(t.fibers[f]) {
      assert !Queued(t, f);
      var w :| w in t.workers && f in Holds(t.workers[w]);
      assert WorkerOk(t.fibers, t.workers[w]);
    }
  }
}
