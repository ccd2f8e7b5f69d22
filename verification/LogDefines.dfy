/** Reading and printing log definitions over configuration trees (src/log.cpp:574-686; src/config.h:129-157 for sets). */
module LogDefines {
  import opened Pattern
  import opened ConfigTree
  import opened Reconfigure
  import LogLevels

  /** node[key] and whether it is there; subscripting a scalar throws. */
  datatype Field = Missing | Throws | Present(node: Yaml)

  function FieldOf(node: Yaml, key: string): Field {
    match node
    case Scalar(_) => Throws
    case Map(pairs) => FirstOf(pairs, key)
    case _ => Missing
  }

  function FirstOf(pairs: seq<Entry>, key: string): (r: Field)
    ensures !r.Throws?
  {
    if pairs == [] then Missing else if pairs[0].key == key then Present(pairs[0].value) else FirstOf(pairs[1..], key)
  }

  /** as<std::string>() of a field that may be missing: its text, the default, or an exception. */
  function TextField(node: Yaml, key: string, default: string): Option<string> {
    match FieldOf(node, key)
    case Missing => Some(default)
    case Throws => None
    case Present(y) => if y.Scalar? then Some(y.text) else None
  }

  // ---------------------------------------------------------------- one appender

  /** An appender node gives a definition, is skipped with a message, or throws. */
  datatype Parsed = Failed | Skipped | Given(a: AppenderDefine)

  function ParseAppender(node: Yaml): Parsed {
    match FieldOf(node, "type")
    case Missing => Skipped
    case Throws => Failed
    case Present(y) =>
      if !y.Scalar? then Failed
      else if y.text == "FileLogAppender" then
        if FieldOf(node, "file").Missing? then Skipped
        else
          var file, formatter := TextField(node, "file", ""), TextField(node, "formatter", "");
          if file.None? || formatter.None? then Failed
          else Given(AppenderDefine(1, LogLevels.UNKNOW, formatter.value, file.value))
      else if y.text == "StdoutLogAppender" then Given(AppenderDefine(2, LogLevels.UNKNOW, "", ""))
      else Skipped
  }

  function ParseAppenders(items: seq<Yaml>): Option<seq<AppenderDefine>> {
    if items == [] then Some([])
    else
      var first, rest := ParseAppender(items[0]), ParseAppenders(items[1..]);
      if first.Failed? || rest.None? then None
      else Some((if first.Given? then [first.a] else []) + rest.value)
  }

  /** Stops at the first exception, like the loop; a list given as anything but a sequence has no entries. */
  function AppendersOf(node: Yaml): Option<seq<AppenderDefine>> {
    match FieldOf(node, "appenders")
    case Missing => Some([])
    case Throws => None
    case Present(y) => if y.Seq? then ParseAppenders(y.items) else Some([])
  }

  /** LexicalCast<std::string, LogDefine>, after YAML::Load. */
  function Parse(node: Yaml): Option<LogDefine> {
    if !FieldOf(node, "name").Present? then None
    else
      var name, level := TextField(node, "name", ""), TextField(node, "level", "");
      var formatter, appenders := TextField(node, "formatter", ""), AppendersOf(node);
      if name.None? || level.None? || formatter.None? || appenders.None? then None
      else Some(LogDefine(name.value, LogLevels.FromString(level.value), formatter.value, appenders.value))
  }

  // ---------------------------------------------------------------- printing

  function TextEntry(key: string, text: string): Entry {
    Entry(key, Scalar(text))
  }

  /** A level replaces the whole node by a scalar, and a formatter cannot be added to that. */
  function PrintAppender(a: AppenderDefine): Option<Yaml> {
    var base := if a.kind == 1 then [TextEntry("type", "FileLogAppender"), TextEntry("file", a.file)]
                else if a.kind == 2 then [TextEntry("type", "StdoutLogAppender")] else [];
    if a.level != LogLevels.UNKNOW then
      if a.formatter == "" then Some(Scalar(LogLevels.ToString(a.level))) else None
    else
      var all := base + if a.formatter == "" then [] else [TextEntry("formatter", a.formatter)];
      Some(if all == [] then Null else Map(all))
  }

  function PrintAppenders(aa: seq<AppenderDefine>): Option<seq<Yaml>> {
    if aa == [] then Some([])
    else
      var first, rest := PrintAppender(aa[0]), PrintAppenders(aa[1..]);
      if first.None? || rest.None? then None else Some([first.value] + rest.value)
  }

  /** LexicalCast<LogDefine, std::string>, before the tree is written out. */
  function Print(d: LogDefine): Option<Yaml> {
    var items := PrintAppenders(d.appenders);
    if items.None? then None
    else Some(Map(
      [TextEntry("name", d.name)]
      + (if d.level == LogLevels.UNKNOW then [] else [TextEntry("level", LogLevels.ToString(d.level))])
      + (if d.formatter == "" then [] else [TextEntry("formatter", d.formatter)])
      + (if d.appenders == [] then [] else [Entry("appenders", Seq(items.value))])))
  }

  // ---------------------------------------------------------------- round trips

  predicate PlainAppender(a: AppenderDefine) {
    a.level == LogLevels.UNKNOW && (a.kind == 1 || (a.kind == 2 && a.file == "" && a.formatter == ""))
  }

  /** The definitions that can come out of the parser. */
  predicate Plain(d: LogDefine) {
    LogLevels.UNKNOW <= d.level <= LogLevels.FATAL && forall a :: a in d.appenders ==> PlainAppender(a)
  }

  lemma {:induction false} ParsedAppendersArePlain(items: seq<Yaml>)
    requires ParseAppenders(items).Some?
    ensures forall a :: a in ParseAppenders(items).value ==> PlainAppender(a)
  {
    if items != [] {
      ParsedAppendersArePlain(items[1..]);
    }
  }

  /** Whatever tree is read, the definition has only appenders of the two kinds, and never an appender level. */
  lemma ParsedArePlain(node: Yaml)
    requires Parse(node).Some?
    ensures Plain(Parse(node).value)
  {
    hide ParseAppender;
    var y := FieldOf(node, "appenders");
    if y.Present? && y.node.Seq? {
      ParsedAppendersArePlain(y.node.items);
    }
  }

  /** An optional entry in front of a list. */
  lemma FirstOfOptional(here: bool, e: Entry, rest: seq<Entry>, key: string)
    ensures FirstOf((if here then [e] else []) + rest, key) ==
            if here && e.key == key then Present(e.value) else FirstOf(rest, key)
  {
    if here {
      assert ([e] + rest)[0] == e && ([e] + rest)[1..] == rest;
    } else {
      assert [] + rest == rest;
    }
  }

  lemma AppenderField(a: AppenderDefine, key: string)
    requires a.level == LogLevels.UNKNOW && a.kind == 1
    ensures PrintAppender(a).Some?
    ensures FieldOf(PrintAppender(a).value, key) ==
            if key == "type" then Present(Scalar("FileLogAppender"))
            else if key == "file" then Present(Scalar(a.file))
            else if key == "formatter" && a.formatter != "" then Present(Scalar(a.formatter))
            else Missing
  {
    var type_, file := TextEntry("type", "FileLogAppender"), TextEntry("file", a.file);
    var formatter := TextEntry("formatter", a.formatter);
    var c := (if a.formatter != "" then [formatter] else []) + [];
    FirstOfOptional(a.formatter != "", formatter, [], key);
    FirstOfOptional(true, file, c, key);
    FirstOfOptional(true, type_, [file] + c, key);
    assert PrintAppender(a).value == Map([type_] + ([file] + c));
  }

  lemma AppenderRoundTrip(a: AppenderDefine)
    requires PlainAppender(a)
    ensures PrintAppender(a).Some? && ParseAppender(PrintAppender(a).value) == Given(a)
  {
    if a.kind == 1 {
      AppenderField(a, "type");
      AppenderField(a, "file");
      AppenderField(a, "formatter");
    }
  }

  lemma {:induction false} AppendersRoundTrip(aa: seq<AppenderDefine>)
    requires forall a :: a in aa ==> PlainAppender(a)
    ensures PrintAppenders(aa).Some? && ParseAppenders(PrintAppenders(aa).value) == Some(aa)
  {
    if aa != [] {
      hide PrintAppender, ParseAppender;
      AppenderRoundTrip(aa[0]);
      AppendersRoundTrip(aa[1..]);
      var first, rest := PrintAppender(aa[0]).value, PrintAppenders(aa[1..]).value;
      assert ([first] + rest)[0] == first && ([first] + rest)[1..] == rest;
      assert [aa[0]] + aa[1..] == aa;
    }
  }

  /** A field of a printed definition, looked up again. */
  lemma PrintedField(d: LogDefine, key: string)
    requires Print(d).Some?
    ensures FieldOf(Print(d).value, key) ==
            if key == "name" then Present(Scalar(d.name))
            else if key == "level" && d.level != LogLevels.UNKNOW then Present(Scalar(LogLevels.ToString(d.level)))
            else if key == "formatter" && d.formatter != "" then Present(Scalar(d.formatter))
            else if key == "appenders" && d.appenders != [] then Present(Seq(PrintAppenders(d.appenders).value))
            else Missing
  {
    hide PrintAppenders, LogLevels.ToString;
    var name := TextEntry("name", d.name);
    var level := TextEntry("level", LogLevels.ToString(d.level));
    var formatter := TextEntry("formatter", d.formatter);
    var appenders := Entry("appenders", Seq(PrintAppenders(d.appenders).value));
    var c := (if d.appenders != [] then [appenders] else []) + [];
    var b := (if d.formatter != "" then [formatter] else []) + c;
    var a := (if d.level != LogLevels.UNKNOW then [level] else []) + b;
    FirstOfOptional(d.appenders != [], appenders, [], key);
    FirstOfOptional(d.formatter != "", formatter, c, key);
    FirstOfOptional(d.level != LogLevels.UNKNOW, level, b, key);
    FirstOfOptional(true, name, a, key);
    assert Print(d).value == Map([name] + a);
  }

  lemma PrintedParts(d: LogDefine)
    requires Plain(d)
    ensures Print(d).Some? && AppendersOf(Print(d).value) == Some(d.appenders)
    ensures TextField(Print(d).value, "name", "") == Some(d.name) && FieldOf(Print(d).value, "name").Present?
    ensures TextField(Print(d).value, "formatter", "") == Some(d.formatter)
    ensures var level := TextField(Print(d).value, "level", "");
      level.Some? && LogLevels.FromString(level.value) == d.level
  {
    AppendersRoundTrip(d.appenders);
    PrintedField(d, "name");
    PrintedField(d, "level");
    PrintedField(d, "formatter");
    PrintedField(d, "appenders");
    LogLevels.ReadBack(d.level);
    hide Print, PrintAppenders, ParseAppenders, FieldOf, LogLevels.ToString;
  }

  /** Printing and reading back gives the definition again exactly when the parser could have produced it. */
  lemma RoundTripExactly(d: LogDefine)
    ensures Print(d).Some? && Parse(Print(d).value) == Some(d) <==> Plain(d)
  {
    if Plain(d) {
      PrintedParts(d);
      hide Print, FieldOf, AppendersOf, TextField, LogLevels.FromString;
    } else if Print(d).Some? && Parse(Print(d).value) == Some(d) {
      ParsedArePlain(Print(d).value);
    }
  }

  // ---------------------------------------------------------------- sets of definitions

  /** std::string's order. */
  predicate Less(a: string, b: string) {
    b != "" && (a == "" || a[0] < b[0] || (a[0] == b[0] && Less(a[1..], b[1..])))
  }

  lemma {:induction false} LessIsTotal(a: string, b: string)
    ensures !(Less(a, b) && Less(b, a)) && !Less(a, a)
    ensures Less(a, b) || Less(b, a) || a == b
  {
    if a != "" {
      LessIsTotal(a[1..], if b != "" then b[1..] else b);
      assert a == a[..1] + a[1..] && (b != "" ==> b == b[..1] + b[1..]);
    }
  }

  lemma {:induction false} LessIsTransitive(a: string, b: string, c: string)
    requires Less(a, b) && Less(b, c)
    ensures Less(a, c)
  {
    if a != "" && a[0] == b[0] == c[0] {
      LessIsTransitive(a[1..], b[1..], c[1..]);
    }
  }

  predicate Ordered(ds: Defs) {
    forall i, j :: 0 <= i < j < |ds| ==> Less(ds[i].name, ds[j].name)
  }

  /** std::set::insert: one of the same name that is already there stays. */
  function Insert(ds: Defs, d: LogDefine): Defs {
    if ds == [] then [d]
    else if ds[0].name == d.name then ds
    else if Less(d.name, ds[0].name) then [d] + ds
    else [ds[0]] + Insert(ds[1..], d)
  }

  ghost predicate Above(ds: Defs, name: string) {
    forall i :: 0 <= i < |ds| ==> Less(name, ds[i].name)
  }

  lemma AboveHead(ds: Defs)
    requires Ordered(ds) && ds != []
    ensures Above(ds[1..], ds[0].name) && Ordered(ds[1..])
  {
  }

  lemma Prepend(d: LogDefine, ds: Defs)
    requires Ordered(ds) && Above(ds, d.name)
    ensures Ordered([d] + ds) && Find(ds, d.name).None?
  {
    forall x | x in ds ensures x.name != d.name {
      LessIsTotal(x.name, d.name);
    }
  }

  lemma AboveAll(ds: Defs, name: string)
    requires Ordered(ds) && ds != [] && Less(name, ds[0].name)
    ensures Above(ds, name)
  {
    forall i | 0 < i < |ds| ensures Less(name, ds[i].name) {
      LessIsTransitive(name, ds[0].name, ds[i].name);
    }
  }

  /** Insertion keeps the order, adds the definition if its name is new, and changes nothing else. */
  lemma {:induction false} InsertKeepsOrder(ds: Defs, d: LogDefine, name: string)
    requires Ordered(ds)
    ensures Ordered(Insert(ds, d))
    ensures forall low :: Above(ds, low) && Less(low, d.name) ==> Above(Insert(ds, d), low)
    ensures Find(Insert(ds, d), name) ==
            if Find(ds, name).Some? then Find(ds, name) else if d.name == name then Some(d) else None
  {
    if ds != [] {
      LessIsTotal(d.name, ds[0].name);
      AboveHead(ds);
      if ds[0].name == d.name {
      } else if Less(d.name, ds[0].name) {
        AboveAll(ds, d.name);
        Prepend(d, ds);
        assert ([d] + ds)[1..] == ds;
      } else {
        InsertKeepsOrder(ds[1..], d, name);
        var rest := Insert(ds[1..], d);
        Prepend(ds[0], rest);
        assert ([ds[0]] + rest)[1..] == rest;
        forall low | Above(ds, low) && Less(low, d.name) ensures Above([ds[0]] + rest, low) {
          assert forall i :: 0 <= i < |ds| - 1 ==> ds[1..][i] == ds[i+1];
          assert Above(ds[1..], low) && Less(low, ds[0].name);
        }
      }
    }
  }

  /** The elements of a parsed set, inserted one by one; one exception loses them all. */
  function ParseItems(items: seq<Yaml>, ds: Defs): Option<Defs> {
    if items == [] then Some(ds)
    else if Parse(items[0]).None? then None
    else ParseItems(items[1..], Insert(ds, Parse(items[0]).value))
  }

  /** LexicalCast<std::string, std::set<LogDefine>>; a scalar or nothing has no elements. */
  function ParseSet(node: Yaml): Option<Defs> {
    match node
    case Seq(items) => ParseItems(items, [])
    case Map(pairs) => if pairs == [] then Some([]) else None
    case _ => Some([])
  }

  /** The first item of that name. */
  function FirstNamed(items: seq<Yaml>, name: string): Option<LogDefine> {
    if items == [] then None
    else
      var d := Parse(items[0]);
      if d.Some? && d.value.name == name then d else FirstNamed(items[1..], name)
  }

  lemma {:induction false} ItemsAreInserted(items: seq<Yaml>, ds: Defs, name: string)
    requires Ordered(ds) && ParseItems(items, ds).Some?
    ensures Ordered(ParseItems(items, ds).value)
    ensures Find(ParseItems(items, ds).value, name) ==
            if Find(ds, name).Some? then Find(ds, name) else FirstNamed(items, name)
    decreases |items|
  {
    if items != [] {
      hide Insert, Ordered, Parse;
      InsertKeepsOrder(ds, Parse(items[0]).value, name);
      ItemsAreInserted(items[1..], Insert(ds, Parse(items[0]).value), name);
    }
  }

  lemma {:induction false} FirstNamedIsPlain(items: seq<Yaml>, name: string)
    ensures FirstNamed(items, name).Some? ==> Plain(FirstNamed(items, name).value)
  {
    if items != [] {
      hide Parse, Plain;
      if Parse(items[0]).Some? {
        ParsedArePlain(items[0]);
      }
      FirstNamedIsPlain(items[1..], name);
    }
  }

  /** A parsed set holds, in name order, the first item of each name, and everything the listener asks of it: distinct
      names and only appenders it can build. */
  lemma ParsedSet(items: seq<Yaml>)
    requires ParseSet(Seq(items)).Some?
    ensures var ds := ParseSet(Seq(items)).value;
      && Ordered(ds) && Distinct(ds) && (forall d :: d in ds ==> Plain(d))
      && (forall name :: Find(ds, name) == FirstNamed(items, name))
  {
    var ds := ParseSet(Seq(items)).value;
    ItemsAreInserted(items, [], "");
    forall name ensures Find(ds, name) == FirstNamed(items, name) {
      ItemsAreInserted(items, [], name);
    }
    forall i, j | 0 <= i < j < |ds| ensures ds[i].name != ds[j].name {
      LessIsTotal(ds[i].name, ds[j].name);
    }
    assert Distinct(ds);
    forall d | d in ds ensures Plain(d) {
      FindMember(ds, d);
      FirstNamedIsPlain(items, d.name);
    }
  }

  function PrintItems(ds: Defs): Option<seq<Yaml>> {
    if ds == [] then Some([])
    else
      var first, rest := Print(ds[0]), PrintItems(ds[1..]);
      if first.None? || rest.None? then None else Some([first.value] + rest.value)
  }

  function PrintSet(ds: Defs): Option<Yaml> {
    if ds == [] then Some(Null)
    else if PrintItems(ds).None? then None else Some(Seq(PrintItems(ds).value))
  }

  lemma {:induction false} InsertLast(ds: Defs, d: LogDefine)
    requires Ordered(ds + [d])
    ensures Insert(ds, d) == ds + [d]
  {
    if ds != [] {
      assert (ds + [d])[0] == ds[0] && (ds + [d])[|ds|] == d;
      LessIsTotal(ds[0].name, d.name);
      assert (ds + [d])[1..] == ds[1..] + [d];
      AboveHead(ds + [d]);
      InsertLast(ds[1..], d);
      assert [ds[0]] + (ds[1..] + [d]) == ds + [d];
    }
  }

  lemma {:induction false} ItemsRoundTrip(done: Defs, ds: Defs)
    requires Ordered(done + ds) && forall d :: d in ds ==> Plain(d)
    ensures PrintItems(ds).Some? && ParseItems(PrintItems(ds).value, done) == Some(done + ds)
    decreases |ds|
  {
    if ds == [] {
      assert done + ds == done;
    } else {
      hide Parse, Print, Insert, Ordered, Plain;
      RoundTripExactly(ds[0]);
      assert (done + [ds[0]]) + ds[1..] == done + ds;
      OrderedPrefix(done + [ds[0]], ds[1..]);
      InsertLast(done, ds[0]);
      ItemsRoundTrip(done + [ds[0]], ds[1..]);
      var first, rest := Print(ds[0]).value, PrintItems(ds[1..]).value;
      assert ([first] + rest)[0] == first && ([first] + rest)[1..] == rest;
    }
  }

  lemma OrderedPrefix(a: Defs, b: Defs)
    requires Ordered(a + b)
    ensures Ordered(a)
  {
    assert forall i :: 0 <= i < |a| ==> (a + b)[i] == a[i];
  }

  /** Every set that loading can produce survives being printed and loaded again. */
  lemma SetRoundTrip(ds: Defs)
    requires Ordered(ds) && forall d :: d in ds ==> Plain(d)
    ensures PrintSet(ds).Some? && ParseSet(PrintSet(ds).value) == Some(ds)
  {
    hide Ordered, Plain;
    assert [] + ds == ds;
    ItemsRoundTrip([], ds);
  }

  // ---------------------------------------------------------------- the casts as loops

  function Onto<T>(done: seq<T>, rest: Option<seq<T>>): Option<seq<T>> {
    if rest.None? then None else Some(done + rest.value)
  }

  lemma OntoMore<T>(done: seq<T>, next: seq<T>, rest: Option<seq<T>>)
    ensures Onto(done, Onto(next, rest)) == Onto(done + next, rest)
    ensures Onto([], rest) == rest && done + [] == done
  {
    if rest.Some? {
      assert done + (next + rest.value) == (done + next) + rest.value;
      assert [] + rest.value == rest.value;
    }
  }

  lemma ParseTurn(items: seq<Yaml>, k: nat, done: seq<AppenderDefine>)
    requires k < |items|
    ensures Onto(done, ParseAppenders(items[k..])) ==
            match ParseAppender(items[k])
            case Failed => None
            case Skipped => Onto(done, ParseAppenders(items[k+1..]))
            case Given(a) => Onto(done + [a], ParseAppenders(items[k+1..]))
  {
    hide ParseAppender;
    assert items[k..][1..] == items[k+1..];
    OntoMore(done, if ParseAppender(items[k]).Given? then [ParseAppender(items[k]).a] else [],
             ParseAppenders(items[k+1..]));
  }

  lemma PrintTurn(aa: seq<AppenderDefine>, k: nat, done: seq<Yaml>)
    requires k < |aa|
    ensures Onto(done, PrintAppenders(aa[k..])) ==
            match PrintAppender(aa[k])
            case None => None
            case Some(item) => Onto(done + [item], PrintAppenders(aa[k+1..]))
  {
    hide PrintAppender;
    assert aa[k..][1..] == aa[k+1..];
    if PrintAppender(aa[k]).Some? {
      OntoMore(done, [PrintAppender(aa[k]).value], PrintAppenders(aa[k+1..]));
    }
  }

  /** The first operator(), exceptions included: it stops where the source throws. */
  method ReadDefine(node: Yaml) returns (r: Option<LogDefine>)
    ensures r == Parse(node)
  {
    hide ParseAppender, LogLevels.FromString;
    if !FieldOf(node, "name").Present? {
      return None;
    }
    var name := TextField(node, "name", "");
    var level := TextField(node, "level", "");
    var formatter := TextField(node, "formatter", "");
    if name.None? || level.None? || formatter.None? {
      return None;
    }
    var d := LogDefine(name.value, LogLevels.FromString(level.value), formatter.value, []);
    var field := FieldOf(node, "appenders");
    if field.Present? && field.node.Seq? {
      var items, k := field.node.items, 0;
      assert items[0..] == items;
      OntoMore([], [], ParseAppenders(items));
      while k < |items|
        invariant 0 <= k <= |items|
        invariant d == LogDefine(name.value, LogLevels.FromString(level.value), formatter.value, d.appenders)
        invariant ParseAppenders(items) == Onto(d.appenders, ParseAppenders(items[k..]))
      {
        ParseTurn(items, k, d.appenders);
        var appender := ParseAppender(items[k]);
        if appender.Failed? {
          return None;
        }
        if appender.Given? {
          d := d.(appenders := d.appenders + [appender.a]);
        }
        k := k + 1;
      }
      assert items[k..] == [];
      OntoMore(d.appenders, [], Some([]));
    }
    r := Some(d);
  }

  /** The second operator(). */
  method WriteDefine(d: LogDefine) returns (r: Option<Yaml>)
    ensures r == Print(d)
  {
    hide PrintAppender, LogLevels.ToString;
    var pairs := [TextEntry("name", d.name)];
    pairs := pairs + if d.level == LogLevels.UNKNOW then [] else [TextEntry("level", LogLevels.ToString(d.level))];
    pairs := pairs + if d.formatter == "" then [] else [TextEntry("formatter", d.formatter)];
    var items: seq<Yaml>, k := [], 0;
    assert d.appenders[0..] == d.appenders;
    OntoMore([], [], PrintAppenders(d.appenders));
    while k < |d.appenders|
      invariant 0 <= k <= |d.appenders| && |items| == k
      invariant PrintAppenders(d.appenders) == Onto(items, PrintAppenders(d.appenders[k..]))
    {
      PrintTurn(d.appenders, k, items);
      var item := PrintAppender(d.appenders[k]);
      if item.None? {
        return None;
      }
      items := items + [item.value];
      k := k + 1;
    }
    assert d.appenders[k..] == [];
    OntoMore(items, [], Some([]));
    pairs := pairs + if items == [] then [] else [Entry("appenders", Seq(items))];
    r := Some(Map(pairs));
  }

  /** The cast to a set of definitions: insert one by one, throw on the first that does not read. */
  method ReadSet(node: Yaml) returns (r: Option<Defs>)
    ensures r == ParseSet(node)
  {
    if node.Map? {
      return if node.pairs == [] then Some([]) else None;
    }
    var ds: Defs := [];
    if node.Seq? {
      var k := 0;
      while k < |node.items|
        invariant 0 <= k <= |node.items|
        invariant ParseItems(node.items[k..], ds) == ParseItems(node.items, [])
      {
        assert node.items[k..][1..] == node.items[k+1..];
        var d := ReadDefine(node.items[k]);
        if d.None? {
          return None;
        }
        ds := Insert(ds, d.value);
        k := k + 1;
      }
    }
    r := Some(ds);
  }
}
