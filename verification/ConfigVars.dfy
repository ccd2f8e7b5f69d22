/** One configuration variable and what its listeners are told (src/config.h:283-344). */
module ConfigVars {
  import opened Pattern

  /** Listener `key` was called with the value still in force and the one about to replace it. */
  datatype Call<V> = Call(key: nat, before: V, after: V)

  /** m_val, the keys of m_cbs in the order std::map visits them, all calls so far, and the last key given out. */
  datatype Var<V> = Var(val: V, keys: seq<nat>, calls: seq<Call<V>>, last: nat)

  datatype Op<V> = SetValue(v: V) | AddListener(key: nat) | DelListener(k: nat) | ClearListener

  function Told<V>(keys: seq<nat>, before: V, after: V): (cs: seq<Call<V>>)
    ensures |cs| == |keys|
  {
    if keys == [] then [] else [Call(keys[0], before, after)] + Told(keys[1..], before, after)
  }

  function Without(keys: seq<nat>, k: nat): seq<nat> {
    if keys == [] then [] else if keys[0] == k then Without(keys[1..], k) else [keys[0]] + Without(keys[1..], k)
  }

  /** Keys come from a counter shared by all variables of the type, so a new one is above all that went before. */
  predicate Ready<V>(s: Var<V>, op: Op<V>) {
    op.AddListener? ==> op.key > s.last
  }

  function Apply<V(==)>(s: Var<V>, op: Op<V>): Var<V>
    requires Ready(s, op)
  {
    match op
    case SetValue(v) => if v == s.val then s else s.(val := v, calls := s.calls + Told(s.keys, s.val, v))
    case AddListener(key) => s.(keys := s.keys + [key], last := key)
    case DelListener(k) => s.(keys := Without(s.keys, k))
    case ClearListener => s.(keys := [])
  }

  /** A value that differs is announced to each listener once, in the order of the keys, and then stored; an equal one does
      nothing. */
  lemma Announced<V>(s: Var<V>, v: V)
    ensures var t := Apply(s, SetValue(v));
      && t.val == v && t.keys == s.keys
      && (v == s.val ==> t.calls == s.calls)
      && (v != s.val ==>
            && |t.calls| == |s.calls| + |s.keys| && t.calls[..|s.calls|] == s.calls
            && forall i :: 0 <= i < |s.keys| ==> t.calls[|s.calls| + i] == Call(s.keys[i], s.val, v))
  {
    ToldAt(s.keys, s.val, v);
  }

  lemma {:induction false} ToldAt<V>(keys: seq<nat>, before: V, after: V)
    ensures forall i :: 0 <= i < |keys| ==> Told(keys, before, after)[i] == Call(keys[i], before, after)
  {
    if keys != [] {
      ToldAt(keys[1..], before, after);
    }
  }

  /** Keys ascend, so visiting order is registration order, and calls are only to keys already given out. */
  ghost predicate Valid<V>(s: Var<V>) {
    && (forall i, j :: 0 <= i < j < |s.keys| ==> s.keys[i] < s.keys[j])
    && (forall i :: 0 <= i < |s.keys| ==> s.keys[i] <= s.last)
    && (forall c :: c in s.calls ==> c.key <= s.last)
  }

  predicate Runs<V(==)>(s: Var<V>, ops: seq<Op<V>>)
    decreases |ops|
  {
    ops == [] || (Ready(s, ops[0]) && Runs(Apply(s, ops[0]), ops[1..]))
  }

  function After<V(==)>(s: Var<V>, ops: seq<Op<V>>): Var<V>
    requires Runs(s, ops)
    decreases |ops|
  {
    if ops == [] then s else After(Apply(s, ops[0]), ops[1..])
  }

  // ---------------------------------------------------------------- what one listener hears

  function Of<V>(calls: seq<Call<V>>, k: nat): seq<(V, V)> {
    if calls == [] then []
    else (if calls[0].key == k then [(calls[0].before, calls[0].after)] else []) + Of(calls[1..], k)
  }

  /** The changes of value a run makes. */
  function Changes<V(==)>(s: Var<V>, ops: seq<Op<V>>): seq<(V, V)>
    requires Runs(s, ops)
    decreases |ops|
  {
    if ops == [] then []
    else (if Apply(s, ops[0]).val != s.val then [(s.val, Apply(s, ops[0]).val)] else [])
         + Changes(Apply(s, ops[0]), ops[1..])
  }

  /** The part of a run before listener k is removed. */
  function Tenure<V>(ops: seq<Op<V>>, k: nat): seq<Op<V>> {
    if ops == [] || ops[0] == DelListener(k) || ops[0].ClearListener? then []
    else [ops[0]] + Tenure(ops[1..], k)
  }

  ghost predicate Chain<V>(a: V, changes: seq<(V, V)>, b: V) {
    if changes == [] then a == b
    else changes[0].0 == a && changes[0].1 != a && Chain(changes[0].1, changes[1..], b)
  }

  lemma {:induction false} OfAppend<V>(a: seq<Call<V>>, b: seq<Call<V>>, k: nat)
    ensures Of(a + b, k) == Of(a, k) + Of(b, k)
  {
    if a == [] {
      assert a + b == b;
    } else {
      SplitHead(a, b);
      OfAppend(a[1..], b, k);
      Assoc(if a[0].key == k then [(a[0].before, a[0].after)] else [], Of(a[1..], k), Of(b, k));
    }
  }

  lemma {:induction false} OfTold<V>(keys: seq<nat>, before: V, after: V, k: nat)
    requires forall i, j :: 0 <= i < j < |keys| ==> keys[i] < keys[j]
    ensures Of(Told(keys, before, after), k) == if k in keys then [(before, after)] else []
    ensures forall c :: c in Told(keys, before, after) ==> c.key in keys
  {
    if keys != [] {
      OfTold(keys[1..], before, after, k);
      assert keys == [keys[0]] + keys[1..];
      if keys[0] == k {
        assert k !in keys[1..];
      }
    }
  }

  lemma {:induction false} WithoutKeeps(keys: seq<nat>, k: nat)
    requires forall i, j :: 0 <= i < j < |keys| ==> keys[i] < keys[j]
    ensures forall x :: x in Without(keys, k) <==> x in keys && x != k
    ensures forall i, j :: 0 <= i < j < |Without(keys, k)| ==> Without(keys, k)[i] < Without(keys, k)[j]
  {
    if keys != [] {
      WithoutKeeps(keys[1..], k);
      assert keys == [keys[0]] + keys[1..];
      assert forall x :: x in keys[1..] ==> keys[0] < x;
      var rest := Without(keys[1..], k);
      assert forall j :: 0 <= j < |rest| ==> rest[j] in rest;
    }
  }

  lemma ApplyKeepsValid<V>(s: Var<V>, op: Op<V>)
    requires Valid(s) && Ready(s, op)
    ensures Valid(Apply(s, op))
  {
    match op
    case SetValue(v) => OfTold(s.keys, s.val, v, 0);
    case AddListener(_) =>
    case DelListener(k) =>
      WithoutKeeps(s.keys, k);
      assert forall i :: 0 <= i < |Without(s.keys, k)| ==> Without(s.keys, k)[i] in s.keys;
    case ClearListener =>
  }

  /** One operation tells a registered listener of the change it makes, once, and nobody else. */
  lemma Hears<V>(s: Var<V>, op: Op<V>, k: nat)
    requires Valid(s) && Ready(s, op)
    ensures Of(Apply(s, op).calls, k) == Of(s.calls, k) +
      if k in s.keys && Apply(s, op).val != s.val then [(s.val, Apply(s, op).val)] else []
  {
    if op.SetValue? && op.v != s.val {
      OfTold(s.keys, s.val, op.v, k);
      OfAppend(s.calls, Told(s.keys, s.val, op.v), k);
    } else {
      assert Of(s.calls, k) + [] == Of(s.calls, k);
    }
  }

  lemma {:induction false} SilentOnceGone<V>(s: Var<V>, ops: seq<Op<V>>, k: nat)
    requires Valid(s) && Runs(s, ops) && k !in s.keys && k <= s.last
    ensures Of(After(s, ops).calls, k) == Of(s.calls, k) && k !in After(s, ops).keys
    decreases |ops|
  {
    if ops != [] {
      Hears(s, ops[0], k);
      ApplyKeepsValid(s, ops[0]);
      if ops[0].DelListener? {
        WithoutKeeps(s.keys, ops[0].k);
      }
      SilentOnceGone(Apply(s, ops[0]), ops[1..], k);
    }
  }

  predicate Removes<V(==)>(op: Op<V>, k: nat) {
    op == DelListener(k) || op.ClearListener?
  }

  lemma {:induction false} TenureRuns<V>(s: Var<V>, ops: seq<Op<V>>, k: nat)
    requires Runs(s, ops)
    ensures Runs(s, Tenure(ops, k))
    decreases |ops|
  {
    if ops != [] && !Removes(ops[0], k) {
      assert Tenure(ops, k)[1..] == Tenure(ops[1..], k);
      TenureRuns(Apply(s, ops[0]), ops[1..], k);
    }
  }

  /** A listener hears exactly the changes made while it is registered, in order, each once; and it is still
      registered in the end exactly when nothing removed it. */
  lemma {:induction false} HeardExactly<V>(s: Var<V>, ops: seq<Op<V>>, k: nat)
    requires Valid(s) && Runs(s, ops) && k in s.keys
    ensures Runs(s, Tenure(ops, k))
    ensures Of(After(s, ops).calls, k) == Of(s.calls, k) + Changes(s, Tenure(ops, k))
    ensures k in After(s, ops).keys <==> Tenure(ops, k) == ops
    decreases |ops|
  {
    TenureRuns(s, ops, k);
    if ops != [] {
      ApplyKeepsValid(s, ops[0]);
      Hears(s, ops[0], k);
      var next := Apply(s, ops[0]);
      if Removes(ops[0], k) {
        WithoutKeeps(s.keys, k);
        SilentOnceGone(next, ops[1..], k);
      } else {
        if ops[0].DelListener? {
          WithoutKeeps(s.keys, ops[0].k);
        }
        HeardExactly(next, ops[1..], k);
        assert Tenure(ops, k)[1..] == Tenure(ops[1..], k);
        assert [ops[0]] + ops[1..] == ops;
      }
    }
  }

  lemma {:induction false} ChangesChain<V>(s: Var<V>, ops: seq<Op<V>>)
    requires Runs(s, ops)
    ensures Chain(s.val, Changes(s, ops), After(s, ops).val)
    decreases |ops|
  {
    if ops != [] {
      var next := Apply(s, ops[0]);
      ChangesChain(next, ops[1..]);
      if next.val != s.val {
        assert Changes(s, ops)[1..] == Changes(next, ops[1..]);
      } else {
        assert Changes(s, ops) == Changes(next, ops[1..]);
      }
    }
  }

  /** From its registration on, a listener's notifications form a chain: each begins where the one before ended, none
      repeats the value, and the last ends at the value the variable has when the listener goes, or has now. */
  lemma Notifications<V>(s: Var<V>, key: nat, ops: seq<Op<V>>)
    requires Valid(s) && Ready(s, AddListener(key)) && Runs(Apply(s, AddListener(key)), ops)
    ensures var t := Apply(s, AddListener(key));
      && Runs(t, Tenure(ops, key))
      && Chain(s.val, Of(After(t, ops).calls, key), After(t, Tenure(ops, key)).val)
      && (key in After(t, ops).keys ==> Chain(s.val, Of(After(t, ops).calls, key), After(t, ops).val))
  {
    var t := Apply(s, AddListener(key));
    ApplyKeepsValid(s, AddListener(key));
    NoCallsYet(s.calls, key);
    assert key in t.keys && t.calls == s.calls;
    HeardExactly(t, ops, key);
    assert Of(After(t, ops).calls, key) == Changes(t, Tenure(ops, key));
    ChangesChain(t, Tenure(ops, key));
  }

  lemma {:induction false} NoCallsYet<V>(calls: seq<Call<V>>, k: nat)
    requires forall c :: c in calls ==> c.key < k
    ensures Of(calls, k) == []
  {
    if calls != [] {
      NoCallsYet(calls[1..], k);
    }
  }
}
