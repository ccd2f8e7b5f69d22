/** ConfigVar and Config as objects: setValue, listeners, Lookup, LoadFromYaml (src/config.h:260-435, src/config.cpp:19-62).
    All variables share one value type V here; parse is the variable's own FromStr, None where that throws. */
module ConfigObjects {
  import opened Pattern
  import opened ConfigTree
  import opened ConfigVars
  import opened ConfigLoading
  import opened ConfigPaths

  /** The static counter inside addListener. */
  class KeyCounter {
    var last: nat

    constructor ()
      ensures last == 0
    {
      last := 0;
    }
  }

  class ConfigVar<V(==)> {
    const name: string
    const typeName: string
    const parse: string -> Option<V>
    const ids: KeyCounter
    var val: V
    var keys: seq<nat>
    var calls: seq<Call<V>>
    ghost var last: nat

    constructor (name: string, typeName: string, default: V, parse: string -> Option<V>, ids: KeyCounter)
      ensures this.name == ToLower(name) && this.typeName == typeName && this.parse == parse && this.ids == ids
      ensures View() == Var(default, [], [], ids.last) && Valid()
    {
      this.name, this.typeName, this.parse, this.ids := ToLower(name), typeName, parse, ids;
      val, keys, calls, last := default, [], [], ids.last;
    }

    ghost function View(): Var<V>
      reads this
    {
      Var(val, keys, calls, last)
    }

    ghost predicate Valid()
      reads this, ids
    {
      ConfigVars.Valid(View()) && last <= ids.last
    }

    /** Listeners run before the assignment, so they still see the old value in the variable. */
    method SetValue(v: V)
      modifies this
      ensures View() == Apply(old(View()), Op.SetValue(v))
    {
      if v == val {
        return;
      }
      var k := 0;
      while k < |keys|
        invariant 0 <= k <= |keys|
        invariant val == old(val) && keys == old(keys) && last == old(last)
        invariant calls + Told(keys[k..], val, v) == old(calls) + Told(keys, val, v)
      {
        assert keys[k..] == [keys[k]] + keys[k+1..];
        calls := calls + [Call(keys[k], val, v)];
        k := k + 1;
      }
      val := v;
    }

    method AddListener() returns (key: nat)
      requires Valid()
      modifies this, ids
      ensures Valid() && key == ids.last == old(ids.last) + 1
      ensures Ready(old(View()), Op.AddListener(key)) && View() == Apply(old(View()), Op.AddListener(key))
    {
      ghost var before := View();
      ids.last := ids.last + 1;
      key := ids.last;
      keys := keys + [key];
      last := key;
      ApplyKeepsValid(before, Op.AddListener(key));
    }

    method DelListener(k: nat)
      modifies this
      ensures View() == Apply(old(View()), Op.DelListener(k))
    {
      keys := ConfigVars.Without(keys, k);
    }

    method ClearListener()
      modifies this
      ensures View() == Apply(old(View()), Op.ClearListener)
    {
      keys := [];
    }

    /** The result is false even when the text was converted. */
    method FromString(s: string) returns (ok: bool)
      modifies this
      ensures !ok
      ensures View() == if parse(s).Some? then Apply(old(View()), Op.SetValue(parse(s).value)) else old(View())
    {
      var v := parse(s);
      if v.Some? {
        SetValue(v.value);
      }
      ok := false;
    }
  }

  // ---------------------------------------------------------------- the registry

  datatype LookupResult<V> = Found(v: ConfigVar<V>) | WrongType | InvalidName

  class Config<V(==)> {
    const ids: KeyCounter
    var datas: map<string, ConfigVar<V>>

    ghost predicate Valid()
      reads this, datas.Values
    {
      && (forall n :: n in datas ==> ValidName(n) && datas[n].name == n && datas[n].ids == ids)
      && (forall n, k :: n in datas && k in datas && n != k ==> datas[n] != datas[k])
    }

    constructor (ids: KeyCounter)
      ensures Valid() && datas == map[] && this.ids == ids
    {
      this.ids := ids;
      datas := map[];
    }

    method LookupBase(name: string) returns (v: Option<ConfigVar<V>>)
      ensures v == if name in datas then Some(datas[name]) else None
    {
      if name in datas {
        v := Some(datas[name]);
      } else {
        v := None;
      }
    }

    /** Lookup with a default: the registered variable, a null pointer when it has another type, a new variable, or
        an exception for a bad name; an existing variable keeps its value and the default is dropped. */
    method Lookup(name: string, typeName: string, default: V, parse: string -> Option<V>) returns (r: LookupResult<V>)
      requires Valid()
      modifies this
      ensures Valid()
      ensures r.InvalidName? <==> name !in old(datas) && !ValidName(name)
      ensures r.WrongType? <==> name in old(datas) && old(datas[name].typeName) != typeName
      ensures r.Found? ==> datas == old(datas)[name := r.v] && r.v.typeName == typeName
      ensures !r.Found? || name in old(datas) ==> datas == old(datas)
      ensures r.Found? && name !in old(datas) ==>
                fresh(r.v) && r.v.View() == Var(default, [], [], ids.last) && r.v.parse == parse
    {
      if name in datas {
        if datas[name].typeName == typeName {
          r := Found(datas[name]);
          assert datas == datas[name := r.v];
        } else {
          r := WrongType;
        }
      } else if !ValidName(name) {
        r := InvalidName;
      } else {
        LowerStays(name);
        var v := new ConfigVar<V>(name, typeName, default, parse, ids);
        datas := datas[name := v];
        r := Found(v);
      }
    }

    /** One turn of the loader's loop. */
    method LoadNode(n: Node, emit: Yaml -> string)
      requires Valid() && ToLower(n.0) == n.0
      modifies datas.Values
      ensures Valid() && datas == old(datas)
      ensures forall k :: k in datas ==> datas[k].View() == Step(old(datas[k].View()), n, k, emit, datas[k].parse)
    {
      var key := n.0;
      if key == "" {
        return;
      }
      key := ToLower(key);
      var v := LookupBase(key);
      if v.Some? {
        if n.1.Scalar? {
          var _ := v.value.FromString(n.1.text);
        } else {
          var _ := v.value.FromString(emit(n.1));
        }
      }
    }

    /** The loader's loop. */
    method LoadNodes(nodes: seq<Node>, emit: Yaml -> string)
      requires Valid() && forall n :: n in nodes ==> ToLower(n.0) == n.0
      modifies datas.Values
      ensures Valid() && datas == old(datas)
      ensures forall n :: n in datas ==> datas[n].View() == Loaded(old(datas[n].View()), nodes, n, emit, datas[n].parse)
    {
      var k := 0;
      while k < |nodes|
        invariant 0 <= k <= |nodes|
        invariant Valid()
        invariant forall n :: n in datas ==>
          datas[n].View() == Loaded(old(datas[n].View()), nodes[..k], n, emit, datas[n].parse)
      {
        hide Step, Loaded, ToLower, Valid;
        LoadNode(nodes[k], emit);
        assert nodes[..k+1] == nodes[..k] + [nodes[k]];
        forall n | n in datas
          ensures datas[n].View() == Loaded(old(datas[n].View()), nodes[..k+1], n, emit, datas[n].parse)
        {
          LoadedSnoc(old(datas[n].View()), nodes[..k], nodes[k], n, emit, datas[n].parse);
        }
        k := k + 1;
      }
      assert nodes[..k] == nodes;
    }

    /** Every registered variable, and what its listeners were told, is as if the nodes of the whole tree had been set
        one by one, in pre-order. */
    method LoadFromYaml(root: Yaml, emit: Yaml -> string)
      requires Valid()
      modifies datas.Values
      ensures Valid() && datas == old(datas)
      ensures forall n :: n in datas ==>
                datas[n].View() == Loaded(old(datas[n].View()), PreOrder("", root), n, emit, datas[n].parse)
      ensures forall keys, node :: Clean(root) && keys != [] && Reaches(root, keys, node) && Dotted(keys) in datas ==>
                var v := datas[Dotted(keys)];
                var offer := Offered(node, emit, v.parse);
                if offer.Some? then v.val == offer.value else v.View() == old(v.View())
    {
      hide Step, Loaded, Flatten, PreOrder, ToLower, Clean, Reaches, Dotted, Offered;
      var output := new NodeList();
      ListAllMember("", root, output);
      var nodes := output.items;
      assert nodes == Flatten("", root);
      forall n | n in nodes ensures ToLower(n.0) == n.0 {
        ListedNamesAreLower("", root, n);
      }
      LoadNodes(nodes, emit);
      FlattenIsPreOrder("", root);
      forall n | n in datas
        ensures datas[n].View() == Loaded(old(datas[n].View()), PreOrder("", root), n, emit, datas[n].parse)
      {
        LoadedIgnoresInvalid(old(datas[n].View()), PreOrder("", root), n, emit, datas[n].parse);
      }
      forall keys, node | Clean(root) && keys != [] && Reaches(root, keys, node) && Dotted(keys) in datas
        ensures var v := datas[Dotted(keys)];
          var offer := Offered(node, emit, v.parse);
          if offer.Some? then v.val == offer.value else v.View() == old(v.View())
      {
        var v := datas[Dotted(keys)];
        LoadedByPath(old(v.View()), root, keys, node, emit, v.parse);
      }
    }
  }

  lemma LowerStays(s: string)
    requires ValidName(s)
    ensures ToLower(s) == s
  {
  }
}
