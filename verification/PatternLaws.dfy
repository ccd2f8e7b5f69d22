/** Laws of the pattern language: what is an error, how patterns compose, and both round trips. */
module PatternLaws {
  import opened Pattern

  // ---------------------------------------------------------------- when a pattern is in error

  /** Positions of the '%' characters that the scanner reaches and hands to the inner loop. */
  function Starts(p: string, i: nat): set<nat>
    requires i <= |p|
    decreases |p| - i
  {
    if i == |p| then {}
    else if Literal(p[i..]) then Starts(p, i + 1)
    else match ScanItem(p[i+1..])
      case Unclosed => {i} + Starts(p, i + 1)
      case Closed(_, _, len) => {i} + Starts(p, i + 1 + len)
  }

  predicate BadAt(p: string, i: nat) {
    i < |p| &&
    match ScanItem(p[i+1..])
      case Unclosed => true
      case Closed(name, _, _) => name !in TABLE
  }

  /** Some item that the scanner reaches has a name outside the table. */
  predicate BadName(s: string) {
    if s == "" then false
    else if Literal(s) then BadName(s[1..])
    else match ScanItem(s[1..])
      case Unclosed => BadName(s[1..])
      case Closed(name, _, len) => name !in TABLE || BadName(s[1+len..])
  }

  predicate ErrorFree(s: string) {
    !HasUnclosed(s) && !BadName(s)
  }

  ghost predicate AnyUnknown(ts: seq<Token>) {
    exists t :: t in ts && !Known(t)
  }

  lemma {:induction false} AnyUnknownAppend(a: seq<Token>, b: seq<Token>)
    ensures AnyUnknown(a + b) == (AnyUnknown(a) || AnyUnknown(b))
  {
    assert forall t :: t in a + b <==> t in a || t in b;
  }

  lemma {:induction false} AnyUnknownItem(pending: string, name: string, fmt: string, rest: seq<Token>)
    ensures AnyUnknown(Flush(pending) + [Item(name, fmt)] + rest) == (name !in TABLE || AnyUnknown(rest))
  {
    AnyUnknownAppend(Flush(pending) + [Item(name, fmt)], rest);
    AnyUnknownAppend(Flush(pending), [Item(name, fmt)]);
    assert Item(name, fmt) in [Item(name, fmt)];
  }

  lemma {:induction false} UnknownTokens(s: string, pending: string)
    ensures AnyUnknown(Lex(s, pending)) == BadName(s)
  {
    hide ScanItem;
    assert !AnyUnknown(Flush(pending));
    if s == "" {
    } else if Literal(s) {
      UnknownTokens(s[1..], pending + s[..1]);
    } else {
      match ScanItem(s[1..])
      case Unclosed =>
        UnknownTokens(s[1..], pending);
        AnyUnknownAppend([Text(MARK)], Lex(s[1..], pending));
      case Closed(name, fmt, len) =>
        UnknownTokens(s[1+len..], "");
        LexItem(s, len, pending, name, fmt);
        AnyUnknownItem(pending, name, fmt, Lex(s[1+len..], ""));
    }
  }

  lemma {:induction false} BrokenOrErrorFree(p: string)
    ensures Broken(p) == !ErrorFree(p)
  {
    UnknownTokens(p, "");
    assert AnyUnknown(Lex(p, "")) == exists t :: t in Lex(p, "") && !Known(t);
  }

  lemma {:induction false} StartsDecide(p: string, i: nat)
    requires i <= |p|
    ensures !ErrorFree(p[i..]) <==> exists j :: j in Starts(p, i) && BadAt(p, j)
    decreases |p| - i
  {
    hide ScanItem;
    if i < |p| {
      var s := p[i..];
      assert s[1..] == p[i+1..];
      if Literal(s) {
        StartsDecide(p, i + 1);
      } else {
        match ScanItem(p[i+1..])
        case Unclosed =>
          assert i in Starts(p, i) && BadAt(p, i);
        case Closed(name, _, len) =>
          StartsDecide(p, i + 1 + len);
          assert s[1+len..] == p[i+1+len..];
          assert BadAt(p, i) <==> name !in TABLE;
      }
    }
  }

  /** m_error is set exactly by a reached '%' with an unclosed group or an unknown name. */
  lemma {:induction false} ErrorExactly(p: string)
    ensures Broken(p) <==> exists i :: i in Starts(p, 0) && BadAt(p, i)
  {
    BrokenOrErrorFree(p);
    StartsDecide(p, 0);
    assert p[0..] == p;
  }

  // ---------------------------------------------------------------- composition

  predicate StartsItem(r: string) {
    r == "" || r[0] == '%'
  }

  lemma {:induction false} ScanAppend(s: string, r: string)
    requires ScanItem(s).Closed? && StartsItem(r)
    ensures ScanItem(s + r) == ScanItem(s)
  {
    var k := NameLen(s);
    NameLenUnique(s + r, k);
    assert (s + r)[..k] == s[..k];
    if OpensGroup(s) {
      var c := CloseAt(s[k+1..]);
      assert (s + r)[k+1..] == s[k+1..] + r;
      CloseAtUnique(s[k+1..] + r, c);
      assert (s[k+1..] + r)[..c] == s[k+1..][..c];
    }
  }

  /** The tokens s has emitted when it ends, and the text then still pending. */
  function LexOpen(s: string, pending: string): seq<Token> {
    if s == "" then []
    else if Literal(s) then LexOpen(s[1..], pending + s[..1])
    else match ScanItem(s[1..])
      case Unclosed => [Text(MARK)] + LexOpen(s[1..], pending)
      case Closed(name, fmt, len) => Flush(pending) + [Item(name, fmt)] + LexOpen(s[1+len..], "")
  }

  function Trail(s: string, pending: string): string {
    if s == "" then pending
    else if Literal(s) then Trail(s[1..], pending + s[..1])
    else match ScanItem(s[1..])
      case Unclosed => Trail(s[1..], pending)
      case Closed(_, _, len) => Trail(s[1+len..], "")
  }

  lemma {:induction false} LastPercentIsError(s: string)
    requires s == "%"
    ensures BadName(s)
  {
    assert ScanItem(s[1..]) == Closed("", "", 0);
  }

  lemma {:induction false} LiteralAppend(s: string, r: string)
    requires s != "" && ErrorFree(s)
    ensures Literal(s + r) == Literal(s)
    ensures (s + r)[1..] == s[1..] + r && (s + r)[..1] == s[..1]
  {
    if s[0] == '%' && |s| == 1 {
      LastPercentIsError(s);
    }
  }

  lemma {:induction false} LexConcatItem(s: string, r: string, pending: string, name: string, fmt: string, len: nat)
    requires s != "" && !Literal(s) && ScanItem(s[1..]) == Closed(name, fmt, len)
    requires s + r != "" && !Literal(s + r) && ScanItem((s + r)[1..]) == Closed(name, fmt, len)
    requires Lex(s[1+len..] + r, "") == LexOpen(s[1+len..], "") + Lex(r, Trail(s[1+len..], ""))
    ensures Lex(s + r, pending) == LexOpen(s, pending) + Lex(r, Trail(s, pending))
  {
    hide Lex, ScanItem;
    LexItem(s + r, len, pending, name, fmt);
    assert (s + r)[1+len..] == s[1+len..] + r;
    var open, last := LexOpen(s[1+len..], ""), Lex(r, Trail(s, pending));
    assert LexOpen(s, pending) == Flush(pending) + [Item(name, fmt)] + open;
    assert (Flush(pending) + [Item(name, fmt)]) + (open + last) == (Flush(pending) + [Item(name, fmt)] + open) + last;
  }

  lemma {:induction false} LexConcat(s: string, r: string, pending: string)
    requires ErrorFree(s) && StartsItem(r)
    ensures Lex(s + r, pending) == LexOpen(s, pending) + Lex(r, Trail(s, pending))
    decreases |s|
  {
    hide ScanItem;
    if s == "" {
      assert s + r == r;
    } else {
      LiteralAppend(s, r);
      if Literal(s) {
        LexConcat(s[1..], r, pending + s[..1]);
      } else {
        var Closed(name, fmt, len) := ScanItem(s[1..]);
        ScanAppend(s[1..], r);
        LexConcat(s[1+len..], r, "");
        LexConcatItem(s, r, pending, name, fmt, len);
      }
    }
  }

  lemma {:induction false} ErrorConcat(s: string, r: string)
    requires ErrorFree(s) && StartsItem(r)
    ensures ErrorFree(s + r) == ErrorFree(r)
    decreases |s|
  {
    hide ScanItem;
    if s == "" {
      assert s + r == r;
    } else {
      LiteralAppend(s, r);
      if Literal(s) {
        ErrorConcat(s[1..], r);
      } else {
        var len := ScanItem(s[1..]).len;
        ScanAppend(s[1..], r);
        assert (s + r)[1+len..] == s[1+len..] + r;
        ErrorConcat(s[1+len..], r);
      }
    }
  }

  function Rendering(ts: seq<Token>, level: string, ev: Event): string {
    RenderAll(ResolveAll(ts), level, ev)
  }

  lemma {:induction false} RenderingAppend(a: seq<Token>, b: seq<Token>, level: string, ev: Event)
    ensures Rendering(a + b, level, ev) == Rendering(a, level, ev) + Rendering(b, level, ev)
  {
    ResolveAppend(a, b);
    RenderAppend(ResolveAll(a), ResolveAll(b), level, ev);
  }

  lemma {:induction false} RenderingText(s: string, level: string, ev: Event)
    ensures Rendering([Text(s)], level, ev) == s
    ensures Rendering(Flush(s), level, ev) == s
  {
    assert ResolveAll([Text(s)]) == [Str(s)];
    assert RenderAll([Str(s)], level, ev) == s + "";
  }

  /** MARK, k times. */
  function Marks(k: nat): string {
    if k == 0 then "" else MARK + Marks(k - 1)
  }

  /** Unclosed groups that s meets before its first item. */
  function LeadingErrors(s: string): nat {
    if s == "" then 0
    else if Literal(s) then LeadingErrors(s[1..])
    else if ScanItem(s[1..]).Unclosed? then 1 + LeadingErrors(s[1..])
    else 0
  }

  /** What s writes after its leading error marks, starting with no pending text. */
  function AfterMarks(s: string, level: string, ev: Event): string {
    if s == "" then ""
    else if Literal(s) then s[..1] + AfterMarks(s[1..], level, ev)
    else match ScanItem(s[1..])
      case Unclosed => AfterMarks(s[1..], level, ev)
      case Closed(name, fmt, len) =>
        Rendering([Item(name, fmt)], level, ev) + Rendering(Lex(s[1+len..], ""), level, ev)
  }

  lemma {:induction false} PendingAfterUnclosed(s: string, pending: string, level: string, ev: Event)
    requires s != "" && !Literal(s) && ScanItem(s[1..]).Unclosed?
    requires Rendering(Lex(s[1..], pending), level, ev)
          == Marks(LeadingErrors(s[1..])) + (pending + AfterMarks(s[1..], level, ev))
    ensures Rendering(Lex(s, pending), level, ev)
         == Marks(LeadingErrors(s)) + (pending + AfterMarks(s, level, ev))
  {
    hide ScanItem, Rendering;
    RenderingAppend([Text(MARK)], Lex(s[1..], pending), level, ev);
    RenderingText(MARK, level, ev);
    var m, x := Marks(LeadingErrors(s[1..])), pending + AfterMarks(s[1..], level, ev);
    assert MARK + (m + x) == (MARK + m) + x;
  }

  lemma {:induction false} RenderingItem(pending: string, item: Token, rest: seq<Token>, level: string, ev: Event)
    ensures Rendering(Flush(pending) + [item] + rest, level, ev)
         == pending + (Rendering([item], level, ev) + Rendering(rest, level, ev))
  {
    RenderingAppend(Flush(pending) + [item], rest, level, ev);
    RenderingAppend(Flush(pending), [item], level, ev);
    RenderingText(pending, level, ev);
    Assoc(pending, Rendering([item], level, ev), Rendering(rest, level, ev));
  }

  lemma {:induction false} PendingBeforeItem(s: string, pending: string, level: string, ev: Event)
    requires s != "" && !Literal(s) && ScanItem(s[1..]).Closed?
    ensures Rendering(Lex(s, pending), level, ev) == pending + AfterMarks(s, level, ev)
  {
    hide Lex, ScanItem;
    var Closed(name, fmt, len) := ScanItem(s[1..]);
    LexItem(s, len, pending, name, fmt);
    RenderingItem(pending, Item(name, fmt), Lex(s[1+len..], ""), level, ev);
  }

  /** Pending text is written after the marks of leading unclosed groups, not before them. */
  lemma {:induction false} PendingComesAfterMarks(s: string, pending: string, level: string, ev: Event)
    ensures Rendering(Lex(s, pending), level, ev)
         == Marks(LeadingErrors(s)) + (pending + AfterMarks(s, level, ev))
  {
    hide ScanItem;
    if s == "" {
      RenderingText(pending, level, ev);
    } else if Literal(s) {
      PendingComesAfterMarks(s[1..], pending + s[..1], level, ev);
      var x := AfterMarks(s[1..], level, ev);
      assert (pending + s[..1]) + x == pending + (s[..1] + x);
    } else if ScanItem(s[1..]).Unclosed? {
      PendingComesAfterMarks(s[1..], pending, level, ev);
      PendingAfterUnclosed(s, pending, level, ev);
    } else {
      PendingBeforeItem(s, pending, level, ev);
    }
  }

  lemma {:induction false} MarksLength(k: nat)
    ensures |Marks(k)| == 17 * k
  {
    if k > 0 { MarksLength(k - 1); }
  }

  lemma {:induction false} MarksAdd(m: nat, n: nat)
    ensures Marks(m) + Marks(n) == Marks(m + n)
  {
    if m == 0 {
      assert "" + Marks(n) == Marks(n);
    } else {
      MarksAdd(m - 1, n);
      assert MARK + Marks(m - 1) + Marks(n) == MARK + (Marks(m - 1) + Marks(n));
    }
  }

  lemma {:induction false} CancelLeft(a: string, x: string, y: string)
    requires a + x == a + y
    ensures x == y
  {
    assert x == (a + x)[|a|..];
    assert y == (a + y)[|a|..];
  }

  lemma {:induction false} CancelRight(x: string, y: string, a: string)
    requires x + a == y + a
    ensures x == y
  {
    assert |x| == |y|;
    assert x == (x + a)[..|x|];
    assert y == (y + a)[..|y|];
  }

  lemma {:induction false} MarkSlides(k: nat, u: string)
    requires (MARK + u) + Marks(k) == Marks(k) + (MARK + u)
    ensures u + Marks(k) == Marks(k) + u
  {
    MarksAdd(k, 1);
    MarksAdd(1, k);
    assert Marks(1) == MARK + "" == MARK;
    Assoc(MARK, u, Marks(k));
    Assoc(MARK, Marks(k), u);
    Assoc(Marks(k), MARK, u);
    CancelLeft(MARK, u + Marks(k), Marks(k) + u);
  }

  /** A text commutes with a run of marks only if it is itself a run of marks. */
  lemma {:induction false} CommutesWithMarks(t: string, k: nat) returns (n: nat)
    requires k > 0 && t + Marks(k) == Marks(k) + t
    ensures t == Marks(n)
    decreases |t|
  {
    var m := Marks(k - 1);
    assert Marks(k) == MARK + m;
    if t == "" {
      n := 0;
    } else if |t| >= 17 {
      var u := t[17..];
      assert t[..17] == (t + Marks(k))[..17] == (Marks(k) + t)[..17] == MARK;
      assert t == MARK + u;
      MarkSlides(k, u);
      var l := CommutesWithMarks(u, k);
      n := l + 1;
    } else {
      ShortTextDoesNotCommute(t, m);
    }
  }

  lemma {:induction false} ShortTextDoesNotCommute(t: string, m: string)
    requires 0 < |t| < 17
    ensures t + (MARK + m) != (MARK + m) + t
  {
    var l, r := t + (MARK + m), (MARK + m) + t;
    assert l[|t|] == MARK[0] && r[|t|] == MARK[|t|];
    if |t| == 1 {
      assert l[2] == MARK[1] && r[2] == MARK[2];
    }
  }

  /** A pattern appended to an error-free one renders to the two renderings one after the other exactly when
      no unclosed group precedes its first item, or the text left pending is itself made of error marks. */
  lemma {:induction false} Compositional(p1: string, p2: string, level: string, ev: Event)
    requires !Broken(p1) && StartsItem(p2)
    ensures Broken(p1 + p2) == Broken(p2)
    ensures Format(p1 + p2, level, ev) == Format(p1, level, ev) + Format(p2, level, ev)
      <==> LeadingErrors(p2) == 0 || exists n :: Trail(p1, "") == Marks(n)
  {
    BrokenOrErrorFree(p1);
    BrokenOrErrorFree(p2);
    BrokenOrErrorFree(p1 + p2);
    ErrorConcat(p1, p2);
    var t, k := Trail(p1, ""), LeadingErrors(p2);
    var head, tail := Rendering(LexOpen(p1, ""), level, ev), AfterMarks(p2, level, ev);
    FormatOfConcat(p1, p2, level, ev);
    FormatOfParts(p1, p2, level, ev);
    SwapDecides(head, Marks(k), t, tail);
    if k == 0 {
      assert Marks(k) == "" && t + "" == "" + t;
    } else if t + Marks(k) == Marks(k) + t {
      var n := CommutesWithMarks(t, k);
    } else if exists n :: t == Marks(n) {
      var n :| t == Marks(n);
      MarksAdd(n, k);
      MarksAdd(k, n);
    }
  }

  lemma {:induction false} SwapDecides(head: string, m: string, t: string, tail: string)
    ensures head + (m + (t + tail)) == (head + t) + (m + tail) <==> t + m == m + t
  {
    assert head + (m + (t + tail)) == (head + (m + t)) + tail;
    assert (head + t) + (m + tail) == (head + (t + m)) + tail;
    if head + (m + (t + tail)) == (head + t) + (m + tail) {
      CancelRight(head + (m + t), head + (t + m), tail);
      CancelLeft(head, m + t, t + m);
    }
  }

  lemma {:induction false} FormatOfConcat(p1: string, p2: string, level: string, ev: Event)
    requires ErrorFree(p1) && StartsItem(p2)
    ensures Format(p1 + p2, level, ev)
      == Rendering(LexOpen(p1, ""), level, ev)
         + (Marks(LeadingErrors(p2)) + (Trail(p1, "") + AfterMarks(p2, level, ev)))
  {
    var t := Trail(p1, "");
    LexConcat(p1, p2, "");
    RenderingAppend(LexOpen(p1, ""), Lex(p2, t), level, ev);
    PendingComesAfterMarks(p2, t, level, ev);
  }

  lemma {:induction false} FormatOfParts(p1: string, p2: string, level: string, ev: Event)
    requires ErrorFree(p1)
    ensures Format(p1, level, ev) + Format(p2, level, ev)
      == (Rendering(LexOpen(p1, ""), level, ev) + Trail(p1, ""))
         + (Marks(LeadingErrors(p2)) + AfterMarks(p2, level, ev))
  {
    var t := Trail(p1, "");
    LexConcat(p1, "", "");
    assert p1 + "" == p1;
    RenderingAppend(LexOpen(p1, ""), Flush(t), level, ev);
    RenderingText(t, level, ev);
    PendingComesAfterMarks(p2, "", level, ev);
    assert "" + AfterMarks(p2, level, ev) == AfterMarks(p2, level, ev);
  }

  /** The text of the first pattern can end up behind the error mark of the second. */
  lemma CompositionCanFail(level: string, ev: Event) returns (p1: string, p2: string)
    ensures !Broken(p1) && StartsItem(p2)
    ensures Format(p1 + p2, level, ev) != Format(p1, level, ev) + Format(p2, level, ev)
  {
    p1, p2 := "a", "%{";
    assert p1[1..] == "" && p1[..1] == p1 && "" + p1 == p1;
    assert Trail(p1, "") == Trail("", p1) == p1;
    assert Lex(p1, "") == Lex("", p1) == [Text(p1)];
    var brace: string := "{";
    assert p2[1..] == brace && brace[0] == '{' && NameLen(brace) == 0 && OpensGroup(brace);
    assert brace[1..] == "" && CloseAt("") == 0;
    assert ScanItem(brace).Unclosed?;
    assert LeadingErrors(p2) > 0;
    forall n ensures Marks(n) != p1 {
      MarksLength(n);
    }
    Compositional(p1, p2, level, ev);
  }
}
