/** The log-pattern language: what LogFormatter::init recognises (src/log.cpp:431-539). */
module Pattern {

  /** One element of the scanner's vector: literal text, or `%name{fmt}`. */
  datatype Token = Text(s: string) | Item(name: string, fmt: string)

  const MARK: string := "<<pattern_error>>"

  predicate IsAlpha(c: char) {
    'a' <= c <= 'z' || 'A' <= c <= 'Z'
  }

  // A name runs over letters and, because only '{' opens a group, over stray '}' as well.
  predicate NameChar(c: char) {
    IsAlpha(c) || c == '}'
  }

  /** Length of the name that starts s. */
  function NameLen(s: string): (k: nat)
    ensures k <= |s|
    ensures forall j :: 0 <= j < k ==> NameChar(s[j])
    ensures k < |s| ==> !NameChar(s[k])
  {
    if s != "" && NameChar(s[0]) then 1 + NameLen(s[1..]) else 0
  }

  /** Position of the first '}' of s, or |s|. */
  function CloseAt(s: string): (c: nat)
    ensures c <= |s|
    ensures forall j :: 0 <= j < c ==> s[j] != '}'
    ensures c < |s| ==> s[c] == '}'
  {
    if s == "" || s[0] == '}' then 0 else 1 + CloseAt(s[1..])
  }

  /** What follows a '%': a group that is never closed, or an item and the number of characters it takes. */
  datatype Scan = Unclosed | Closed(name: string, fmt: string, len: nat)

  predicate OpensGroup(s: string) {
    NameLen(s) < |s| && s[NameLen(s)] == '{'
  }

  function ScanItem(s: string): (r: Scan)
    ensures r.Closed? ==> r.len <= |s|
  {
    var k := NameLen(s);
    if !OpensGroup(s) then Closed(s[..k], "", k)
    else
      var c := CloseAt(s[k+1..]);
      if c == |s| - k - 1 then Unclosed else Closed(s[..k], s[k+1..][..c], k + c + 2)
  }

  /** The scanner copies s[0]: it is not '%', or it is a '%' followed by another one (which stays to be read). */
  predicate Literal(s: string)
    requires s != ""
  {
    s[0] != '%' || (|s| > 1 && s[1] == '%')
  }

  function Flush(pending: string): seq<Token> {
    if pending == "" then [] else [Text(pending)]
  }

  /** The token vector built from s when `pending` is the text collected so far. */
  function Lex(s: string, pending: string): seq<Token> {
    if s == "" then Flush(pending)
    else if Literal(s) then Lex(s[1..], pending + s[..1])
    else match ScanItem(s[1..])
      case Unclosed => [Text(MARK)] + Lex(s[1..], pending)
      case Closed(name, fmt, len) => Flush(pending) + [Item(name, fmt)] + Lex(s[1+len..], "")
  }

  /** Some '%' that the scanner reaches opens a group that is never closed. */
  predicate HasUnclosed(s: string) {
    if s == "" then false
    else if Literal(s) then HasUnclosed(s[1..])
    else match ScanItem(s[1..])
      case Unclosed => true
      case Closed(_, _, len) => HasUnclosed(s[1+len..])
  }

  // ---------------------------------------------------------------- rendering

  /** The twelve conversions of the table at src/log.cpp:510-523, plus literal text. */
  datatype FormatItem =
    | Str(s: string)
    | Message | LevelName | Elapse | LoggerName | ThreadId | ThreadName | FiberId
    | Time(fmt: string) | FileName | Line | NewLine | Tab

  const DEFAULT_TIME: string := "%Y-%m-%d %H:%M:%S"

  datatype Option<+T> = None | Some(value: T)

  const TABLE: set<string> := {"m", "p", "r", "c", "t", "N", "F", "d", "f", "l", "n", "T"}

  function Conversion(name: string, fmt: string): (item: Option<FormatItem>)
    ensures item.Some? <==> name in TABLE
  {
    if name == "m" then Some(Message)
    else if name == "p" then Some(LevelName)
    else if name == "r" then Some(Elapse)
    else if name == "c" then Some(LoggerName)
    else if name == "t" then Some(ThreadId)
    else if name == "N" then Some(ThreadName)
    else if name == "F" then Some(FiberId)
    else if name == "d" then Some(Time(if fmt == "" then DEFAULT_TIME else fmt))
    else if name == "f" then Some(FileName)
    else if name == "l" then Some(Line)
    else if name == "n" then Some(NewLine)
    else if name == "T" then Some(Tab)
    else None
  }

  predicate Known(t: Token) {
    t.Item? ==> t.name in TABLE
  }

  function Resolve(t: Token): FormatItem {
    match t
    case Text(s) => Str(s)
    case Item(name, fmt) =>
      match Conversion(name, fmt)
      case Some(item) => item
      case None => Str("<<error_format %" + name + ">>")
  }

  function ResolveAll(ts: seq<Token>): (items: seq<FormatItem>)
    ensures |items| == |ts|
  {
    if ts == [] then [] else [Resolve(ts[0])] + ResolveAll(ts[1..])
  }

  /** m_error after init. */
  predicate Broken(p: string) {
    HasUnclosed(p) || exists t :: t in Lex(p, "") && !Known(t)
  }

  /** A log event; numbers are kept in their decimal spelling, `clock` is strftime at the event's time. */
  datatype Event = Event(message: string, elapse: string, logger: string, threadId: string, threadName: string,
                         fiberId: string, clock: string -> string, file: string, line: string)

  function Render(item: FormatItem, level: string, ev: Event): string {
    match item
    case Str(s) => s
    case Message => ev.message
    case LevelName => level
    case Elapse => ev.elapse
    case LoggerName => ev.logger
    case ThreadId => ev.threadId
    case ThreadName => ev.threadName
    case FiberId => ev.fiberId
    case Time(fmt) => ev.clock(fmt)
    case FileName => ev.file
    case Line => ev.line
    case NewLine => "\n"
    case Tab => "\t"
  }

  function RenderAll(items: seq<FormatItem>, level: string, ev: Event): string {
    if items == [] then "" else Render(items[0], level, ev) + RenderAll(items[1..], level, ev)
  }

  /** What format() writes for an event under pattern p. */
  function Format(p: string, level: string, ev: Event): string {
    RenderAll(ResolveAll(Lex(p, "")), level, ev)
  }

  // ---------------------------------------------------------------- printing

  function PrintToken(t: Token): string {
    match t
    case Text(s) => s
    case Item(name, fmt) => "%" + name + if fmt == "" then "" else "{" + fmt + "}"
  }

  function Print(ts: seq<Token>): string {
    if ts == [] then "" else PrintToken(ts[0]) + Print(ts[1..])
  }

  // ---------------------------------------------------------------- single steps, by position in the pattern

  lemma {:induction false} NameLenUnique(s: string, k: nat)
    requires k <= |s|
    requires forall j :: 0 <= j < k ==> NameChar(s[j])
    requires k < |s| ==> !NameChar(s[k])
    ensures NameLen(s) == k
  {}

  lemma {:induction false} CloseAtUnique(s: string, c: nat)
    requires c <= |s|
    requires forall j :: 0 <= j < c ==> s[j] != '}'
    requires c < |s| ==> s[c] == '}'
    ensures CloseAt(s) == c
  {}

  lemma {:induction false} ScanPlain(p: string, i: nat, n: nat)
    requires i < n <= |p|
    requires forall j :: i < j < n ==> NameChar(p[j])
    requires n < |p| ==> !NameChar(p[n]) && p[n] != '{'
    ensures ScanItem(p[i+1..]) == Closed(p[i+1..n], "", n - i - 1)
  {
    var s := p[i+1..];
    var k := NameLen(s);
    assert forall j :: 0 <= j < |s| ==> s[j] == p[i+1+j];
    assert k < |s| ==> s[k] == p[i+1+k];
    assert k == n - i - 1;
    assert s[..k] == p[i+1..n];
  }

  lemma {:induction false} GroupOpens(p: string, i: nat, b: nat)
    requires i < b < |p| && p[b] == '{'
    requires forall j :: i < j < b ==> NameChar(p[j])
    ensures NameLen(p[i+1..]) == b - i - 1 && OpensGroup(p[i+1..])
  {
    var s := p[i+1..];
    assert forall j :: 0 <= j < |s| ==> s[j] == p[i+1+j];
    assert s[b-i-1] == p[b];
    NameLenUnique(s, b - i - 1);
  }

  lemma {:induction false} GroupScan(p: string, i: nat, b: nat)
    requires i < b < |p|
    requires NameLen(p[i+1..]) == b - i - 1 && OpensGroup(p[i+1..])
    ensures ScanItem(p[i+1..]) ==
            var c := CloseAt(p[b+1..]);
            if c == |p| - b - 1 then Unclosed else Closed(p[i+1..b], p[b+1..][..c], b - i + c + 1)
  {
    var s, k := p[i+1..], b - i - 1;
    assert s[k+1..] == p[b+1..] && s[..k] == p[i+1..b];
  }

  lemma {:induction false} ScanGroup(p: string, i: nat, b: nat, n: nat)
    requires i < b < n <= |p| && p[b] == '{'
    requires forall j :: i < j < b ==> NameChar(p[j])
    requires forall j :: b < j < n ==> p[j] != '}'
    requires n < |p| ==> p[n] == '}'
    ensures ScanItem(p[i+1..]) == if n < |p| then Closed(p[i+1..b], p[b+1..n], n - i) else Unclosed
  {
    GroupOpens(p, i, b);
    GroupScan(p, i, b);
    ScanBraces(p, b, n);
  }

  lemma {:induction false} ScanBraces(p: string, b: nat, n: nat)
    requires b < n <= |p|
    requires forall j :: b < j < n ==> p[j] != '}'
    requires n < |p| ==> p[n] == '}'
    ensures CloseAt(p[b+1..]) == n - b - 1 && p[b+1..][..n-b-1] == p[b+1..n]
  {
    var s := p[b+1..];
    var c := CloseAt(s);
    assert forall j :: 0 <= j < |s| ==> s[j] == p[b+1+j];
    assert c < |s| ==> s[c] == p[b+1+c];
  }

  lemma {:induction false} Assoc<T>(a: seq<T>, b: seq<T>, c: seq<T>)
    ensures a + (b + c) == (a + b) + c
  {}

  lemma {:induction false} SplitHead<T>(a: seq<T>, b: seq<T>)
    requires a != []
    ensures (a + b)[0] == a[0] && (a + b)[1..] == a[1..] + b
  {}

  lemma {:induction false} Regroup<T>(vec: seq<T>, a: seq<T>, b: seq<T>, rest: seq<T>, all: seq<T>)
    requires all == a + b + rest
    ensures vec + all == vec + a + b + rest
  {}

  lemma {:induction false} LexItem(s: string, len: nat, pending: string, name: string, fmt: string)
    requires s != "" && !Literal(s) && ScanItem(s[1..]) == Closed(name, fmt, len)
    ensures len < |s|
    ensures Lex(s, pending) == Flush(pending) + [Item(name, fmt)] + Lex(s[1+len..], "")
    ensures HasUnclosed(s) == HasUnclosed(s[1+len..])
  {
    hide ScanItem;
  }

  /** The scanner stands at i of p with token vector vec, pending text and error flag err. */
  ghost predicate Scanning(p: string, i: nat, vec: seq<Token>, pending: string, err: bool) {
    && i <= |p|
    && Lex(p, "") == vec + Lex(p[i..], pending)
    && HasUnclosed(p) == (err || HasUnclosed(p[i..]))
  }

  lemma {:induction false} ScanStart(p: string)
    ensures Scanning(p, 0, [], "", false)
  {
    assert p[0..] == p;
  }

  lemma {:induction false} ScanEnd(p: string, vec: seq<Token>, pending: string, err: bool)
    requires Scanning(p, |p|, vec, pending, err)
    ensures Lex(p, "") == vec + Flush(pending) && HasUnclosed(p) == err
  {
    hide ScanItem;
    assert p[|p|..] == "";
  }

  lemma {:induction false} StepLiteral(p: string, i: nat, vec: seq<Token>, pending: string, err: bool)
    requires Scanning(p, i, vec, pending, err) && i < |p|
    requires p[i] != '%' || (i + 1 < |p| && p[i+1] == '%')
    ensures Scanning(p, i + 1, vec, pending + [p[i]], err)
  {
    hide ScanItem;
    var s := p[i..];
    assert s[1..] == p[i+1..] && s[..1] == [p[i]];
    assert Literal(s);
  }

  lemma {:induction false} StepItem(p: string, i: nat, n: nat, vec: seq<Token>, pending: string, err: bool,
                                    name: string, fmt: string)
    requires Scanning(p, i, vec, pending, err) && i < n <= |p|
    requires p[i] == '%' && !(i + 1 < |p| && p[i+1] == '%')
    requires ScanItem(p[i+1..]) == Closed(name, fmt, n - i - 1)
    ensures Scanning(p, n, vec + Flush(pending) + [Item(name, fmt)], "", err)
  {
    hide Lex, HasUnclosed, ScanItem;
    var s := p[i..];
    assert s[1..] == p[i+1..] && s[n-i..] == p[n..];
    LexItem(s, n - i - 1, pending, name, fmt);
    Regroup(vec, Flush(pending), [Item(name, fmt)], Lex(p[n..], ""), Lex(s, pending));
  }

  lemma {:induction false} StepUnclosed(p: string, i: nat, vec: seq<Token>, pending: string, err: bool)
    requires Scanning(p, i, vec, pending, err) && i < |p|
    requires p[i] == '%' && !(i + 1 < |p| && p[i+1] == '%')
    requires ScanItem(p[i+1..]).Unclosed?
    ensures Scanning(p, i + 1, vec + [Text(MARK)], pending, true)
  {
    hide ScanItem;
    var s, rest := p[i..], Lex(p[i+1..], pending);
    assert s[1..] == p[i+1..];
    assert Lex(s, pending) == [Text(MARK)] + rest;
    assert vec + ([Text(MARK)] + rest) == vec + [Text(MARK)] + rest;
  }

  lemma {:induction false} ResolveAppend(a: seq<Token>, b: seq<Token>)
    ensures ResolveAll(a + b) == ResolveAll(a) + ResolveAll(b)
  {
    if a == [] {
      assert a + b == b;
    } else {
      SplitHead(a, b);
      ResolveAppend(a[1..], b);
      Assoc([Resolve(a[0])], ResolveAll(a[1..]), ResolveAll(b));
    }
  }

  lemma {:induction false} RenderAppend(a: seq<FormatItem>, b: seq<FormatItem>, level: string, ev: Event)
    ensures RenderAll(a + b, level, ev) == RenderAll(a, level, ev) + RenderAll(b, level, ev)
  {
    if a == [] {
      assert a + b == b;
    } else {
      SplitHead(a, b);
      RenderAppend(a[1..], b, level, ev);
      Assoc(Render(a[0], level, ev), RenderAll(a[1..], level, ev), RenderAll(b, level, ev));
    }
  }

  lemma {:induction false} RenderSnoc(a: seq<FormatItem>, x: FormatItem, level: string, ev: Event)
    ensures RenderAll(a + [x], level, ev) == RenderAll(a, level, ev) + Render(x, level, ev)
  {
    RenderAppend(a, [x], level, ev);
    assert RenderAll([x], level, ev) == Render(x, level, ev) + RenderAll([], level, ev);
  }

  // ---------------------------------------------------------------- what the letters stand for

  /** The field behind a conversion letter. */
  function Field(letter: char, fmt: string, level: string, ev: Event): Option<string> {
    match letter
    case 'm' => Some(ev.message)
    case 'p' => Some(level)
    case 'r' => Some(ev.elapse)
    case 'c' => Some(ev.logger)
    case 't' => Some(ev.threadId)
    case 'N' => Some(ev.threadName)
    case 'F' => Some(ev.fiberId)
    case 'd' => Some(ev.clock(if |fmt| == 0 then "%Y-%m-%d %H:%M:%S" else fmt))
    case 'f' => Some(ev.file)
    case 'l' => Some(ev.line)
    case 'n' => Some("\n")
    case 'T' => Some("\t")
    case _ => None
  }

  predicate IsLetter(name: string) {
    |name| == 1 && name[0] in "mprctNFdflnT"
  }

  /** What `%name{fmt}` writes. */
  function Writes(name: string, fmt: string, level: string, ev: Event): string {
    if IsLetter(name) && Field(name[0], fmt, level, ev).Some? then Field(name[0], fmt, level, ev).value
    else "<<error_format %" + name + ">>"
  }

  function TokensWritten(ts: seq<Token>, level: string, ev: Event): string {
    if ts == [] then ""
    else (match ts[0]
          case Text(s) => s
          case Item(name, fmt) => Writes(name, fmt, level, ev)) + TokensWritten(ts[1..], level, ev)
  }

  /** A name of one character is in the table exactly when it is one of the letters. */
  lemma LettersKnown(name: string)
    ensures name in TABLE <==> IsLetter(name)
  {
    if |name| == 1 {
      assert name == [name[0]];
    }
  }

  lemma LetterWrites(name: string, fmt: string, level: string, ev: Event)
    requires IsLetter(name)
    ensures Conversion(name, fmt).Some?
    ensures Render(Conversion(name, fmt).value, level, ev) == Writes(name, fmt, level, ev)
  {
    LettersKnown(name);
    assert name == [name[0]];
    if name[0] in "mprctN" {
      EventLetterWrites(name[0], fmt, level, ev);
    } else {
      OtherLetterWrites(name[0], fmt, level, ev);
    }
    hide Conversion, Render, Field;
  }

  lemma EventLetterWrites(letter: char, fmt: string, level: string, ev: Event)
    requires letter in "mprctN"
    ensures var item := Conversion([letter], fmt);
      item.Some? && Field(letter, fmt, level, ev) == Some(Render(item.value, level, ev))
  {}

  lemma OtherLetterWrites(letter: char, fmt: string, level: string, ev: Event)
    requires letter in "FdflnT"
    ensures var item := Conversion([letter], fmt);
      item.Some? && Field(letter, fmt, level, ev) == Some(Render(item.value, level, ev))
  {}

  lemma ItemWrites(name: string, fmt: string, level: string, ev: Event)
    ensures Render(Resolve(Item(name, fmt)), level, ev) == Writes(name, fmt, level, ev)
  {
    LettersKnown(name);
    hide Render, Conversion;
    if IsLetter(name) {
      LetterWrites(name, fmt, level, ev);
    } else {
      assert Resolve(Item(name, fmt)) == Str("<<error_format %" + name + ">>");
      StrRenders("<<error_format %" + name + ">>", level, ev);
    }
  }

  lemma StrRenders(s: string, level: string, ev: Event)
    ensures Render(Str(s), level, ev) == s
  {}

  /** Every pattern writes its tokens one after the other: texts as they are, conversions by their letter. */
  lemma {:induction false} TokensWrite(ts: seq<Token>, level: string, ev: Event)
    ensures RenderAll(ResolveAll(ts), level, ev) == TokensWritten(ts, level, ev)
  {
    if ts != [] {
      TokensWrite(ts[1..], level, ev);
      SplitHead([Resolve(ts[0])], ResolveAll(ts[1..]));
      assert ResolveAll(ts)[1..] == ResolveAll(ts[1..]);
      match ts[0]
      case Text(s) => StrRenders(s, level, ev);
      case Item(name, fmt) => ItemWrites(name, fmt, level, ev);
    }
  }

  // ---------------------------------------------------------------- the scanner itself

  /** LogFormatter: init() is the nested index loop of src/log.cpp:431-539. */
  class LogFormatter {
    const pattern: string
    var items: seq<FormatItem>
    var error: bool

    constructor (p: string)
      ensures pattern == p
      ensures items == ResolveAll(Lex(p, "")) && error == Broken(p)
    {
      pattern := p;
      items := [];
      error := false;
      new;
      Init();
    }

    /** One run of the inner loop, from the '%' at i. */
    method ScanAt(i: nat) returns (n: nat, status: int, str: string, fmt: string)
      requires i < |pattern|
      ensures i < n <= |pattern| && (status == 0 || status == 1)
      ensures ScanItem(pattern[i+1..]) == if status == 0 then Closed(str, fmt, n - i - 1) else Unclosed
    {
      n := i + 1;
      status := 0;
      var fmtBegin := 0;
      str, fmt := "", "";
      while n < |pattern|
        invariant i < n <= |pattern|
        invariant status == 0 || status == 1
        invariant fmt == ""
        invariant status == 0 ==> forall j :: i < j < n ==> NameChar(pattern[j])
        invariant status == 0 ==> str == if n < |pattern| then "" else pattern[i+1..]
        invariant status == 1 ==> i < fmtBegin < n && pattern[fmtBegin] == '{'
        invariant status == 1 ==> forall j :: i < j < fmtBegin ==> NameChar(pattern[j])
        invariant status == 1 ==> forall j :: fmtBegin < j < n ==> pattern[j] != '}'
        invariant status == 1 && n < |pattern| ==> str == pattern[i+1..fmtBegin]
      {
        if status == 0 && !IsAlpha(pattern[n]) && pattern[n] != '{' && pattern[n] != '}' {
          str := pattern[i+1..n];
          break;
        }
        if status == 0 {
          if pattern[n] == '{' {
            str := pattern[i+1..n];
            status := 1;
            fmtBegin := n;
            n := n + 1;
            continue;
          }
        } else if status == 1 {
          if pattern[n] == '}' {
            fmt := pattern[fmtBegin+1..n];
            ScanGroup(pattern, i, fmtBegin, n);
            status := 0;
            n := n + 1;
            return;
          }
        }
        n := n + 1;
        if n == |pattern| {
          if str == "" {
            str := pattern[i+1..];
          }
        }
      }
      if status == 0 {
        assert str == pattern[i+1..n];
        ScanPlain(pattern, i, n);
      } else {
        ScanGroup(pattern, i, fmtBegin, n);
      }
    }

    /** The two copies of `if (!nstr.empty())`. */
    static method Append(vec: seq<Token>, nstr: string) returns (r: seq<Token>)
      ensures r == vec + Flush(nstr)
    {
      r := vec;
      if nstr != "" {
        r := r + [Text(nstr)];
      }
    }

    /** One turn of the outer loop at position i, with the index it leaves for the next turn. */
    method Turn(i: nat, vec: seq<Token>, nstr: string) returns (i': nat, vec': seq<Token>, nstr': string)
      requires i < |pattern| && Scanning(pattern, i, vec, nstr, error)
      modifies this`error
      ensures i < i' && Scanning(pattern, i', vec', nstr', error)
    {
      i', vec', nstr' := i + 1, vec, nstr;
      if pattern[i] != '%' {
        StepLiteral(pattern, i, vec, nstr, error);
        nstr' := nstr + [pattern[i]];
        return;
      }
      if i + 1 < |pattern| {
        if pattern[i+1] == '%' {
          StepLiteral(pattern, i, vec, nstr, error);
          nstr' := nstr + "%";
          return;
        }
      }
      var n, status, str, fmt := ScanAt(i);
      if status == 0 {
        StepItem(pattern, i, n, vec, nstr, error, str, fmt);
        vec' := Append(vec, nstr);
        nstr' := "";
        vec' := vec' + [Item(str, fmt)];
        i' := n;
      } else if status == 1 {
        StepUnclosed(pattern, i, vec, nstr, error);
        error := true;
        vec' := vec + [Text(MARK)];
      }
    }

    /** The first loop: pattern to token vector, setting m_error at every unclosed group. */
    method Tokenize() returns (vec: seq<Token>)
      requires !error
      modifies this`error
      ensures vec == Lex(pattern, "") && error == HasUnclosed(pattern)
    {
      vec := [];
      var nstr := "";
      var i := 0;
      ScanStart(pattern);
      while i < |pattern|
        invariant Scanning(pattern, i, vec, nstr, error)
        decreases |pattern| - i
      {
        i, vec, nstr := Turn(i, vec, nstr);
      }
      ScanEnd(pattern, vec, nstr, error);
      vec := Append(vec, nstr);
    }

    method Init()
      requires items == [] && !error
      modifies this
      ensures items == ResolveAll(Lex(pattern, "")) && error == Broken(pattern)
    {
      var vec := Tokenize();
      var k := 0;
      while k < |vec|
        invariant 0 <= k <= |vec|
        invariant items == ResolveAll(vec[..k])
        invariant error == (HasUnclosed(pattern) || exists t :: t in vec[..k] && !Known(t))
      {
        assert vec[..k+1] == vec[..k] + [vec[k]];
        ResolveAppend(vec[..k], [vec[k]]);
        assert ResolveAll([vec[k]]) == [Resolve(vec[k])];
        if vec[k].Text? {
          items := items + [Str(vec[k].s)];
        } else {
          var found := Conversion(vec[k].name, vec[k].fmt);
          if found.None? {
            items := items + [Str("<<error_format %" + vec[k].name + ">>")];
            assert !Known(vec[k]);
            error := true;
          } else {
            items := items + [found.value];
          }
        }
        k := k + 1;
      }
      assert vec[..k] == vec;
    }

    /** format(): the items' renderings one after the other (src/log.cpp:423-429). */
    method FormatEvent(level: string, ev: Event) returns (out: string)
      ensures out == RenderAll(items, level, ev)
      ensures items == ResolveAll(Lex(pattern, "")) ==> out == TokensWritten(Lex(pattern, ""), level, ev)
    {
      hide TokensWritten, Writes, Lex;
      TokensWrite(Lex(pattern, ""), level, ev);
      out := "";
      var k := 0;
      while k < |items|
        invariant 0 <= k <= |items|
        invariant out == RenderAll(items[..k], level, ev)
      {
        RenderSnoc(items[..k], items[k], level, ev);
        assert items[..k+1] == items[..k] + [items[k]];
        out := out + Render(items[k], level, ev);
        k := k + 1;
      }
      assert items[..k] == items;
    }
  }
}
