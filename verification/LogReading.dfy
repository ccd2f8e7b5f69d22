/** When a tree is a log definition, and which: read off the keys and texts of the tree alone, whatever the order in which
    the casts look at them (src/log.cpp:606-650; src/config.h:129-143). */
module LogReading {
  import opened Pattern
  import opened ConfigTree
  import opened Reconfigure
  import opened LogDefines
  import LogLevels

  /** y is the value of the first pair with that key. */
  ghost predicate Has(node: Yaml, key: string, y: Yaml) {
    node.Map? && exists i :: 0 <= i < |node.pairs| && node.pairs[i] == Entry(key, y)
                             && forall j :: 0 <= j < i ==> node.pairs[j].key != key
  }

  /** Asking for the key finds nothing; asking a scalar throws. */
  predicate Lacks(node: Yaml, key: string) {
    !node.Scalar? && (node.Map? ==> forall e :: e in node.pairs ==> e.key != key)
  }

  /** The text at key, or the empty text where there is none. */
  ghost predicate TextAt(node: Yaml, key: string, text: string) {
    Has(node, key, Scalar(text)) || (Lacks(node, key) && |text| == 0)
  }

  ghost predicate SaysAppender(node: Yaml, a: AppenderDefine) {
    || (Has(node, "type", Scalar("FileLogAppender"))
        && a.kind == 1 && a.level == 0 && Has(node, "file", Scalar(a.file)) && TextAt(node, "formatter", a.formatter))
    || (Has(node, "type", Scalar("StdoutLogAppender")) && a == AppenderDefine(2, 0, "", ""))
  }

  /** Passed over with a message. */
  ghost predicate PassedOver(node: Yaml) {
    || Lacks(node, "type")
    || (Has(node, "type", Scalar("FileLogAppender")) && Lacks(node, "file"))
    || exists t :: Has(node, "type", Scalar(t)) && t != "FileLogAppender" && t != "StdoutLogAppender"
  }

  /** The items say these appenders, in this order, apart from items that are passed over. */
  ghost predicate SayAppenders(items: seq<Yaml>, aa: seq<AppenderDefine>)
    decreases |items|
  {
    if items == [] then aa == []
    else || (PassedOver(items[0]) && SayAppenders(items[1..], aa))
         || (aa != [] && SaysAppender(items[0], aa[0]) && SayAppenders(items[1..], aa[1..]))
  }

  ghost predicate SaysList(node: Yaml, aa: seq<AppenderDefine>) {
    || (Lacks(node, "appenders") && aa == [])
    || exists y :: Has(node, "appenders", y) && if y.Seq? then SayAppenders(y.items, aa) else aa == []
  }

  ghost predicate SaysLevel(node: Yaml, level: int) {
    exists t :: TextAt(node, "level", t) && level == LogLevels.FromString(t)
  }

  /** The tree is the definition d. */
  ghost predicate Says(node: Yaml, d: LogDefine) {
    && Has(node, "name", Scalar(d.name))
    && SaysLevel(node, d.level)
    && TextAt(node, "formatter", d.formatter)
    && SaysList(node, d.appenders)
  }

  // ---------------------------------------------------------------- fields

  lemma {:induction false} FirstOfPairs(pairs: seq<Entry>, key: string)
    ensures forall y :: Has(Map(pairs), key, y) <==> FirstOf(pairs, key) == Present(y)
    ensures Lacks(Map(pairs), key) <==> FirstOf(pairs, key).Missing?
  {
    if pairs != [] {
      FirstOfPairs(pairs[1..], key);
      if pairs[0].key == key {
        assert pairs[0] in pairs;
      } else {
        forall y ensures Has(Map(pairs), key, y) <==> Has(Map(pairs[1..]), key, y) {
          HasTail(pairs, key, y);
        }
        assert pairs == [pairs[0]] + pairs[1..];
      }
    }
  }

  lemma HasTail(pairs: seq<Entry>, key: string, y: Yaml)
    requires pairs != [] && pairs[0].key != key
    ensures Has(Map(pairs), key, y) <==> Has(Map(pairs[1..]), key, y)
  {
    if i :| 0 <= i < |pairs| && pairs[i] == Entry(key, y) && forall j :: 0 <= j < i ==> pairs[j].key != key {
      assert pairs[1..][i-1] == pairs[i];
      assert forall j :: 0 <= j < i - 1 ==> pairs[1..][j] == pairs[j+1];
    }
    if i :| 0 <= i < |pairs| - 1 && pairs[1..][i] == Entry(key, y)
            && forall j :: 0 <= j < i ==> pairs[1..][j].key != key {
      assert pairs[i+1] == pairs[1..][i];
      assert forall j :: 0 < j < i + 1 ==> pairs[j] == pairs[1..][j-1];
    }
  }

  lemma FieldHas(node: Yaml, key: string)
    ensures forall y :: Has(node, key, y) <==> FieldOf(node, key) == Present(y)
    ensures Lacks(node, key) <==> FieldOf(node, key).Missing?
  {
    if node.Map? {
      FirstOfPairs(node.pairs, key);
    }
  }

  lemma TextFieldAt(node: Yaml, key: string)
    ensures forall text :: TextAt(node, key, text) <==> TextField(node, key, "") == Some(text)
  {
    FieldHas(node, key);
    hide Has, Lacks, FieldOf;
  }

  // ---------------------------------------------------------------- appenders

  lemma ParseAppenderSays(node: Yaml)
    ensures forall a :: SaysAppender(node, a) <==> ParseAppender(node) == Given(a)
    ensures PassedOver(node) <==> ParseAppender(node).Skipped?
  {
    FieldHas(node, "type");
    FieldHas(node, "file");
    TextFieldAt(node, "file");
    TextFieldAt(node, "formatter");
    hide Has, Lacks, FieldOf, TextAt;
    var f := FieldOf(node, "type");
    if f.Present? && f.node.Scalar? {
      assert Has(node, "type", Scalar(f.node.text));
    }
  }

  lemma {:induction false} ParseAppendersSay(items: seq<Yaml>, aa: seq<AppenderDefine>)
    ensures SayAppenders(items, aa) <==> ParseAppenders(items) == Some(aa)
    decreases |items|
  {
    if items != [] {
      hide SaysAppender, PassedOver, ParseAppender;
      ParseAppenderSays(items[0]);
      ParseAppendersSay(items[1..], aa);
      if aa != [] {
        ParseAppendersSay(items[1..], aa[1..]);
        assert aa == [aa[0]] + aa[1..];
      }
      var first, rest := ParseAppender(items[0]), ParseAppenders(items[1..]);
      if first.Given? && rest.Some? {
        assert ([first.a] + rest.value)[0] == first.a && ([first.a] + rest.value)[1..] == rest.value;
      } else if first.Skipped? && rest.Some? {
        assert [] + rest.value == rest.value;
      }
    }
  }

  lemma AppendersOfSay(node: Yaml, aa: seq<AppenderDefine>)
    ensures SaysList(node, aa) <==> AppendersOf(node) == Some(aa)
  {
    FieldHas(node, "appenders");
    hide Has, Lacks, FieldOf, SayAppenders, ParseAppenders;
    var f := FieldOf(node, "appenders");
    if f.Present? && f.node.Seq? {
      ParseAppendersSay(f.node.items, aa);
    }
  }

  // ---------------------------------------------------------------- definitions

  lemma LevelSays(node: Yaml, level: int)
    ensures SaysLevel(node, level) <==>
            TextField(node, "level", "").Some? && level == LogLevels.FromString(TextField(node, "level", "").value)
  {
    TextFieldAt(node, "level");
    hide TextAt, TextField, LogLevels.FromString;
  }

  /** The cast gives d exactly when the tree says d. */
  lemma ParseSays(node: Yaml, d: LogDefine)
    ensures Parse(node) == Some(d) <==> Says(node, d)
  {
    FieldHas(node, "name");
    LevelSays(node, d.level);
    TextFieldAt(node, "formatter");
    AppendersOfSay(node, d.appenders);
    NameIsText(node, d.name);
    hide Has, Lacks, FieldOf, TextAt, TextField, AppendersOf, SaysList, SaysLevel, LogLevels.FromString;
  }

  lemma NameIsText(node: Yaml, name: string)
    ensures Has(node, "name", Scalar(name)) <==>
            FieldOf(node, "name").Present? && TextField(node, "name", "") == Some(name)
  {
    FieldHas(node, "name");
    hide Has, Lacks, FieldOf;
  }

  /** The tree is some definition, so the cast does not throw. */
  ghost predicate Readable(node: Yaml) {
    exists d :: Says(node, d)
  }

  lemma ParseReads(node: Yaml)
    ensures Parse(node).Some? <==> Readable(node)
  {
    if Parse(node).Some? {
      ParseSays(node, Parse(node).value);
    }
    if d :| Says(node, d) {
      ParseSays(node, d);
    }
  }

  // ---------------------------------------------------------------- sets

  lemma {:induction false} ItemsRead(items: seq<Yaml>, ds: Defs)
    ensures ParseItems(items, ds).Some? <==> forall y :: y in items ==> Readable(y)
    decreases |items|
  {
    if items != [] {
      hide Parse, Readable, Insert;
      ParseReads(items[0]);
      assert items == [items[0]] + items[1..];
      if Parse(items[0]).Some? {
        ItemsRead(items[1..], Insert(ds, Parse(items[0]).value));
      }
    }
  }

  /** Item i says d, and no earlier item says a definition of that name. */
  ghost predicate FirstSays(items: seq<Yaml>, i: nat, d: LogDefine) {
    i < |items| && Says(items[i], d) && forall j, e :: 0 <= j < i && Says(items[j], e) ==> e.name != d.name
  }

  lemma {:induction false} FirstNamedSays(items: seq<Yaml>, d: LogDefine)
    ensures FirstNamed(items, d.name) == Some(d) <==> exists i :: FirstSays(items, i, d)
  {
    if items != [] {
      hide Parse, Says;
      ParseSays(items[0], d);
      if Parse(items[0]).Some? {
        ParseSays(items[0], Parse(items[0]).value);
      }
      forall e ensures Says(items[0], e) <==> Parse(items[0]) == Some(e) {
        ParseSays(items[0], e);
      }
      FirstNamedSays(items[1..], d);
      if Parse(items[0]).Some? && Parse(items[0]).value.name == d.name {
        FirstIsHead(items, d);
      } else {
        FirstIsLater(items, d);
      }
    }
  }

  lemma FirstIsHead(items: seq<Yaml>, d: LogDefine)
    requires items != [] && exists e :: Says(items[0], e) && e.name == d.name
    requires forall e, e' :: Says(items[0], e) && Says(items[0], e') ==> e == e'
    ensures Says(items[0], d) <==> exists i :: FirstSays(items, i, d)
  {
    hide Says;
    if Says(items[0], d) {
      assert FirstSays(items, 0, d);
    }
  }

  lemma FirstIsLater(items: seq<Yaml>, d: LogDefine)
    requires items != [] && forall e :: Says(items[0], e) ==> e.name != d.name
    ensures (exists i: nat :: FirstSays(items, i, d)) <==> exists i: nat :: FirstSays(items[1..], i, d)
  {
    hide Says;
    if i: nat :| FirstSays(items, i, d) {
      assert i > 0;
      assert forall j :: 0 <= j < |items| - 1 ==> items[1..][j] == items[j+1];
      assert FirstSays(items[1..], i - 1, d);
    }
    if i: nat :| FirstSays(items[1..], i, d) {
      assert items[i+1] == items[1..][i];
      assert forall j :: 0 < j < |items| ==> items[j] == items[1..][j-1];
      assert FirstSays(items, i + 1, d);
    }
  }

  /** All or nothing: a list reads exactly when every item does; then it gives, for each name, what the first item of
      that name says, and nothing else. */
  lemma SetReads(items: seq<Yaml>)
    ensures ParseSet(Seq(items)).Some? <==> forall y :: y in items ==> Readable(y)
    ensures ParseSet(Seq(items)).Some? ==>
      forall d :: d in ParseSet(Seq(items)).value <==> exists i :: FirstSays(items, i, d)
  {
    hide Readable, FirstSays, FirstNamed, Parse;
    ItemsRead(items, []);
    if ParseSet(Seq(items)).Some? {
      ParsedSet(items);
      var ds := ParseSet(Seq(items)).value;
      forall d ensures d in ds <==> exists i :: FirstSays(items, i, d) {
        FirstNamedSays(items, d);
        assert Find(ds, d.name) == FirstNamed(items, d.name);
        if d in ds {
          FindMember(ds, d);
        }
      }
    }
  }

  /** Anything but a list: a non-empty map does not read, and the rest is the empty set. */
  lemma OtherSets(node: Yaml)
    requires !node.Seq?
    ensures ParseSet(node) == if node.Map? && |node.pairs| > 0 then None else Some([])
  {}
}
