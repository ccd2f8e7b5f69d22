/** Printing token lists and reading patterns undo each other. */
module PatternRoundTrip {
  import opened Pattern
  import opened PatternLaws

  // ---------------------------------------------------------------- parse after print

  /** A piece of a pattern as someone would write it; a conversion may be written with or without braces. */
  datatype Piece = Lit(s: string) | Fmt(name: string, fmt: string, braced: bool)

  function Body(p: Piece): string
    requires p.Fmt?
  {
    p.name + if p.braced then "{" + p.fmt + "}" else ""
  }

  function Spell(ps: seq<Piece>): string {
    if ps == [] then ""
    else (if ps[0].Lit? then ps[0].s else "%" + Body(ps[0])) + Spell(ps[1..])
  }

  function TokensOf(ps: seq<Piece>): seq<Token> {
    if ps == [] then []
    else [if ps[0].Lit? then Text(ps[0].s) else Item(ps[0].name, ps[0].fmt)] + TokensOf(ps[1..])
  }

  /** Every '%' of s is followed by another one when r comes after s. */
  predicate PercentsEscaped(s: string, r: string) {
    forall j :: 0 <= j < |s| && s[j] == '%' ==> j + 1 < |s + r| && (s + r)[j+1] == '%'
  }

  /** Writing the conversion without braces is safe in front of r. */
  predicate NameStops(name: string, r: string) {
    r == "" || (!NameChar(r[0]) && r[0] != '{' && (name == "" ==> r[0] != '%'))
  }

  /** Texts are non-empty, not adjacent, and use '%' only as a run before a conversion; names use name characters;
      formats have no '}'; braces are dropped only where that is safe. */
  predicate WellSpelled(ps: seq<Piece>) {
    ps == [] ||
    (var r := Spell(ps[1..]);
     && WellSpelled(ps[1..])
     && match ps[0]
        case Lit(s) => s != "" && (|ps| > 1 ==> ps[1].Fmt?) && PercentsEscaped(s, r)
        case Fmt(name, fmt, braced) =>
          && (forall c :: c in name ==> NameChar(c))
          && '}' !in fmt
          && (!braced ==> fmt == "" && NameStops(name, r)))
  }

  lemma {:induction false} LiteralRun(s: string, r: string, pending: string)
    requires PercentsEscaped(s, r)
    ensures Lex(s + r, pending) == Lex(r, pending + s)
    ensures HasUnclosed(s + r) == HasUnclosed(r)
    decreases |s|
  {
    hide ScanItem;
    if s == "" {
      assert s + r == r && pending + s == pending;
    } else {
      var w := s + r;
      assert w[1..] == s[1..] + r && w[..1] == s[..1];
      assert w[0] == s[0];
      assert Literal(w);
      assert forall j :: 0 <= j < |s[1..]| ==> s[1..][j] == s[j+1] && (s[1..] + r)[j] == w[j+1];
      EscapedTail(s, r);
      LiteralRun(s[1..], r, pending + s[..1]);
      assert pending + s[..1] + s[1..] == pending + s;
    }
  }

  lemma {:induction false} EscapedTail(s: string, r: string)
    requires s != "" && PercentsEscaped(s, r)
    ensures PercentsEscaped(s[1..], r)
  {
    var t := s[1..];
    assert t + r == (s + r)[1..];
    forall j | 0 <= j < |t| && t[j] == '%'
      ensures j + 1 < |t + r| && (t + r)[j+1] == '%'
    {
      assert s[j+1] == '%';
      assert (s + r)[j+2] == '%';
    }
  }

  lemma {:induction false} ScanBraced(name: string, fmt: string, r: string)
    requires forall c :: c in name ==> NameChar(c)
    requires '}' !in fmt
    ensures ScanItem(name + ("{" + fmt + "}") + r) == Closed(name, fmt, |name| + |fmt| + 2)
  {
    var s, k := name + ("{" + fmt + "}") + r, |name|;
    assert forall j :: 0 <= j < k ==> s[j] == name[j];
    assert s[k] == '{';
    NameLenUnique(s, k);
    assert s[..k] == name;
    assert s[k+1..] == fmt + ("}" + r);
    var t := fmt + ("}" + r);
    assert forall j :: 0 <= j < |fmt| ==> t[j] == fmt[j];
    assert t[|fmt|] == '}';
    CloseAtUnique(t, |fmt|);
    assert t[..|fmt|] == fmt;
  }

  lemma {:induction false} ScanBare(name: string, r: string)
    requires forall c :: c in name ==> NameChar(c)
    requires NameStops(name, r)
    ensures ScanItem(name + r) == Closed(name, "", |name|)
  {
    var s, k := name + r, |name|;
    assert forall j :: 0 <= j < k ==> s[j] == name[j];
    assert k < |s| ==> s[k] == r[0];
    NameLenUnique(s, k);
    assert s[..k] == name;
  }

  lemma {:induction false} LexSpelledItem(p: Piece, r: string, pending: string)
    requires p.Fmt? && (forall c :: c in p.name ==> NameChar(c)) && '}' !in p.fmt
    requires !p.braced ==> p.fmt == "" && NameStops(p.name, r)
    ensures Lex("%" + Body(p) + r, pending) == Flush(pending) + [Item(p.name, p.fmt)] + Lex(r, "")
    ensures HasUnclosed("%" + Body(p) + r) == HasUnclosed(r)
  {
    hide Lex, HasUnclosed, ScanItem;
    var b, s := Body(p), "%" + Body(p) + r;
    assert s[1..] == b + r;
    if p.braced {
      ScanBraced(p.name, p.fmt, r);
    } else {
      ScanBare(p.name, r);
      assert b == p.name;
    }
    assert ScanItem(b + r) == Closed(p.name, p.fmt, |b|);
    assert s[1+|b|..] == r;
    FirstIsName(p, r);
    LexItem(s, |b|, pending, p.name, p.fmt);
  }

  lemma {:induction false} FirstIsName(p: Piece, r: string)
    requires p.Fmt? && (forall c :: c in p.name ==> NameChar(c))
    requires !p.braced ==> NameStops(p.name, r)
    ensures !Literal("%" + Body(p) + r)
  {
    var s := "%" + Body(p) + r;
    if p.name != "" {
      assert p.name[0] in p.name && s[1] == p.name[0];
    } else if p.braced {
      assert s[1] == '{';
    } else {
      assert |s| > 1 ==> s[1] == r[0];
    }
  }

  /** init recovers exactly the token list that was spelled, with no error from an unclosed group. */
  lemma {:induction false} ParseAfterPrint(ps: seq<Piece>, pending: string)
    requires WellSpelled(ps)
    requires pending != "" ==> ps == [] || ps[0].Fmt?
    ensures Lex(Spell(ps), pending) == Flush(pending) + TokensOf(ps)
    ensures !HasUnclosed(Spell(ps))
    decreases |ps|
  {
    hide ScanItem;
    if ps != [] {
      var r, rest := Spell(ps[1..]), TokensOf(ps[1..]);
      match ps[0]
      case Lit(s) =>
        LiteralRun(s, r, "");
        assert "" + s == s;
        ParseAfterPrint(ps[1..], s);
        assert [] + ([Text(s)] + rest) == Flush(s) + rest;
      case Fmt(name, fmt, _) =>
        LexSpelledItem(ps[0], r, pending);
        ParseAfterPrint(ps[1..], "");
        assert [] + rest == rest;
        Assoc(Flush(pending), [Item(name, fmt)], rest);
    }
  }

  // ---------------------------------------------------------------- print after parse

  /** Some item that the scanner reaches is written with an empty group `{}`. */
  predicate HasEmptyGroup(s: string) {
    if s == "" then false
    else if Literal(s) then HasEmptyGroup(s[1..])
    else match ScanItem(s[1..])
      case Unclosed => HasEmptyGroup(s[1..])
      case Closed(_, fmt, len) => (OpensGroup(s[1..]) && fmt == "") || HasEmptyGroup(s[1+len..])
  }

  predicate Faithful(s: string) {
    !HasUnclosed(s) && !HasEmptyGroup(s)
  }

  lemma {:induction false} PrintCons(t: Token, ts: seq<Token>)
    ensures Print([t] + ts) == PrintToken(t) + Print(ts)
  {
    assert ([t] + ts)[1..] == ts;
  }

  lemma {:induction false} PrintAppend(a: seq<Token>, b: seq<Token>)
    ensures Print(a + b) == Print(a) + Print(b)
  {
    if a == [] {
      assert a + b == b;
    } else {
      var h, t := a[0], a[1..];
      SplitHead(a, b);
      PrintAppend(t, b);
      PrintCons(h, t + b);
      Assoc(PrintToken(h), Print(t), Print(b));
    }
  }

  lemma {:induction false} PrintItem(pending: string, item: Token, rest: seq<Token>)
    ensures Print(Flush(pending) + [item] + rest) == pending + PrintToken(item) + Print(rest)
  {
    PrintAppend(Flush(pending) + [item], rest);
    PrintAppend(Flush(pending), [item]);
    assert Print([item]) == PrintToken(item) + "";
    assert Print(Flush(pending)) == pending;
  }

  /** An item's spelling, read back from the text it was scanned from. */
  lemma {:induction false} ItemText(s: string)
    requires ScanItem(s).Closed?
    ensures var Closed(name, fmt, len) := ScanItem(s);
            s[..len] == name + if OpensGroup(s) then "{" + fmt + "}" else ""
  {
    var Closed(name, fmt, len) := ScanItem(s);
    var k := NameLen(s);
    if OpensGroup(s) {
      var t := s[k+1..];
      var c := CloseAt(t);
      assert s[k] == '{' && t[c] == '}' == s[k+1+c];
      assert s[..len] == s[..k] + [s[k]] + s[k+1..k+1+c] + [s[k+1+c]];
      assert t[..c] == s[k+1..k+1+c];
    }
  }

  lemma {:induction false} HeadSplits(s: string, len: nat)
    requires s != "" && s[0] == '%' && len < |s|
    ensures s == "%" + s[1..][..len] + s[1+len..]
  {}

  lemma {:induction false} PrintLexItem(s: string, pending: string, name: string, fmt: string, len: nat)
    requires s != "" && !Literal(s) && ScanItem(s[1..]) == Closed(name, fmt, len)
    ensures Print(Lex(s, pending)) == pending + PrintToken(Item(name, fmt)) + Print(Lex(s[1+len..], ""))
  {
    hide Lex, ScanItem, Print;
    LexItem(s, len, pending, name, fmt);
    PrintItem(pending, Item(name, fmt), Lex(s[1+len..], ""));
  }

  lemma {:induction false} ItemPrintsItsText(s: string, name: string, fmt: string, len: nat)
    requires s != "" && !Literal(s) && ScanItem(s[1..]) == Closed(name, fmt, len)
    requires OpensGroup(s[1..]) ==> fmt != ""
    ensures PrintToken(Item(name, fmt)) == "%" + s[1..][..len]
  {
    ItemText(s[1..]);
    if OpensGroup(s[1..]) {
      Assoc("%", name, "{" + fmt + "}");
    } else {
      assert fmt == "";
    }
  }

  lemma {:induction false} FaithfulPrints(s: string, pending: string)
    requires Faithful(s)
    ensures Print(Lex(s, pending)) == pending + s
    decreases |s|
  {
    hide ScanItem;
    if s == "" {
    } else if Literal(s) {
      FaithfulPrints(s[1..], pending + s[..1]);
      assert pending + s[..1] + s[1..] == pending + s;
    } else {
      var Closed(name, fmt, len) := ScanItem(s[1..]);
      PrintLexItem(s, pending, name, fmt, len);
      ItemPrintsItsText(s, name, fmt, len);
      FaithfulPrints(s[1+len..], "");
      HeadSplits(s, len);
      var rest := s[1+len..];
      assert "" + rest == rest;
      Assoc(pending, "%" + s[1..][..len], rest);
    }
  }

  // ---- and only those patterns: the two defects change the length in opposite directions, but no empty group can
  // ---- follow an unclosed one, and before the first defect nothing has shifted

  function UnclosedCount(s: string): nat {
    if s == "" then 0
    else if Literal(s) then UnclosedCount(s[1..])
    else match ScanItem(s[1..])
      case Unclosed => 1 + UnclosedCount(s[1..])
      case Closed(_, _, len) => UnclosedCount(s[1+len..])
  }

  function EmptyCount(s: string): nat {
    if s == "" then 0
    else if Literal(s) then EmptyCount(s[1..])
    else match ScanItem(s[1..])
      case Unclosed => EmptyCount(s[1..])
      case Closed(_, fmt, len) => (if OpensGroup(s[1..]) && fmt == "" then 1 else 0) + EmptyCount(s[1+len..])
  }

  lemma {:induction false} CountsDecide(s: string)
    ensures HasUnclosed(s) <==> UnclosedCount(s) > 0
    ensures HasEmptyGroup(s) <==> EmptyCount(s) > 0
    decreases |s|
  {
    hide ScanItem;
    if s == "" {
    } else if Literal(s) || ScanItem(s[1..]).Unclosed? {
      CountsDecide(s[1..]);
    } else {
      CountsDecide(s[1 + ScanItem(s[1..]).len..]);
    }
  }

  lemma {:induction false} ItemPrintLength(s: string, name: string, fmt: string, len: nat)
    requires s != "" && !Literal(s) && ScanItem(s[1..]) == Closed(name, fmt, len)
    ensures |PrintToken(Item(name, fmt))| == 1 + len - if OpensGroup(s[1..]) && fmt == "" then 2 else 0
  {
    ItemText(s[1..]);
    assert |s[1..][..len]| == len;
  }

  lemma {:induction false} PrintMark(rest: seq<Token>)
    ensures Print([Text(MARK)] + rest) == MARK + Print(rest)
  {
    PrintCons(Text(MARK), rest);
  }

  lemma {:induction false} PrintLengthItem(s: string, pending: string, name: string, fmt: string, len: nat)
    requires s != "" && !Literal(s) && ScanItem(s[1..]) == Closed(name, fmt, len)
    requires var rest := s[1+len..];
             |Print(Lex(rest, ""))| == |rest| + 16 * UnclosedCount(rest) - 2 * EmptyCount(rest)
    ensures |Print(Lex(s, pending))| == |pending| + |s| + 16 * UnclosedCount(s) - 2 * EmptyCount(s)
  {
    hide Lex, ScanItem, Print;
    PrintLexItem(s, pending, name, fmt, len);
    ItemPrintLength(s, name, fmt, len);
  }

  lemma {:induction false} PrintLength(s: string, pending: string)
    ensures |Print(Lex(s, pending))| == |pending| + |s| + 16 * UnclosedCount(s) - 2 * EmptyCount(s)
    decreases |s|
  {
    hide ScanItem;
    if s == "" {
    } else if Literal(s) {
      PrintLength(s[1..], pending + s[..1]);
    } else if ScanItem(s[1..]).Unclosed? {
      PrintLength(s[1..], pending);
      PrintMark(Lex(s[1..], pending));
    } else {
      var Closed(name, fmt, len) := ScanItem(s[1..]);
      PrintLength(s[1+len..], "");
      PrintLengthItem(s, pending, name, fmt, len);
    }
  }

  lemma {:induction false} NoBraceNoEmptyGroup(s: string)
    requires '}' !in s
    ensures EmptyCount(s) == 0
    decreases |s|
  {
    if s == "" {
    } else if Literal(s) || ScanItem(s[1..]).Unclosed? {
      NoBraceNoEmptyGroup(s[1..]);
    } else {
      NoBraceNoEmptyGroup(s[1 + ScanItem(s[1..]).len..]);
    }
  }

  lemma {:induction false} SkipLiterals(s: string, k: nat)
    requires k <= |s| && forall j :: 0 <= j < k ==> s[j] != '%'
    ensures EmptyCount(s) == EmptyCount(s[k..])
    decreases k
  {
    hide ScanItem;
    if k == 0 {
      assert s[k..] == s;
    } else {
      SkipLiterals(s[1..], k - 1);
      assert s[1..][k-1..] == s[k..];
    }
  }

  lemma {:induction false} NothingAfterUnclosed(s: string)
    requires ScanItem(s).Unclosed?
    ensures EmptyCount(s) == 0
  {
    var k := NameLen(s);
    SkipLiterals(s, k + 1);
    var t := s[k+1..];
    assert forall c :: c in t ==> c != '}' by {
      assert CloseAt(t) == |t|;
    }
    NoBraceNoEmptyGroup(t);
  }

  /** Position of the first '%' of s, or |s|. */
  function FirstPercent(s: string): (m: nat)
    ensures m <= |s|
    ensures forall j :: 0 <= j < m ==> s[j] != '%'
    ensures m < |s| ==> s[m] == '%'
  {
    if s == "" || s[0] == '%' then 0 else 1 + FirstPercent(s[1..])
  }

  /** out begins with an error mark, or agrees with s up to and including the first '%' of s. */
  predicate StartsLike(out: string, pending: string, s: string) {
    var m := FirstPercent(s);
    || (out != "" && out[0] == '<')
    || (m < |s| && |pending| + m < |out| && out[..|pending|+m] == pending + s[..m] && out[|pending|+m] == '%')
  }

  lemma {:induction false} StartsLikeLiteral(out: string, pending: string, s: string)
    requires s != "" && Literal(s) && StartsLike(out, pending + s[..1], s[1..])
    ensures StartsLike(out, pending, s)
  {
    var m, m', n := FirstPercent(s), FirstPercent(s[1..]), |pending|;
    if out == "" || out[0] != '<' {
      if s[0] != '%' {
        assert s[1..][..m'] == s[1..m];
        assert pending + s[..1] + s[1..m] == pending + s[..m];
      } else {
        assert s[1..][0] == '%' && m == 0 && m' == 0;
        var h := out[..n+1];
        assert h == pending + s[..1] + s[1..][..0] == pending + s[..1];
        assert out[n] == h[n] == '%';
        assert out[..n] == h[..n] == pending == pending + s[..0];
      }
    }
  }

  lemma {:induction false} StartsLikeItem(s: string, pending: string)
    requires s != "" && !Literal(s) && ScanItem(s[1..]).Closed?
    ensures StartsLike(Print(Lex(s, pending)), pending, s)
  {
    hide ScanItem;
    var Closed(name, fmt, len) := ScanItem(s[1..]);
    PrintLexItem(s, pending, name, fmt, len);
    assert pending + s[..0] == pending;
  }

  lemma {:induction false} PrintStart(s: string, pending: string)
    requires HasUnclosed(s)
    ensures StartsLike(Print(Lex(s, pending)), pending, s)
    decreases |s|
  {
    if Literal(s) {
      PrintStart(s[1..], pending + s[..1]);
      StartsLikeLiteral(Print(Lex(s, pending)), pending, s);
    } else if ScanItem(s[1..]).Unclosed? {
      PrintMark(Lex(s[1..], pending));
    } else {
      StartsLikeItem(s, pending);
    }
  }

  lemma {:induction false} ShiftShows(out: string, b: string)
    requires StartsLike(out, "", b)
    ensures out != "{}" + b
  {
    var w, m := "{}" + b, FirstPercent(b);
    assert w[0] == '{' && w[1] == '}';
    assert m >= 2 ==> w[m] == b[m-2];
    assert m < |w| ==> w[m] != '%';
    assert 0 + m == m;
  }

  lemma {:induction false} BracesDoNotComeBack(b: string)
    ensures Print(Lex(b, "")) != "{}" + b
  {
    PrintLength(b, "");
    CountsDecide(b);
    if HasUnclosed(b) {
      PrintStart(b, "");
      ShiftShows(Print(Lex(b, "")), b);
    }
  }

  lemma {:induction false} PrefixKeepsDifference(head: string, x: string, y: string)
    requires x != y
    ensures head + x != head + y
  {
    if head + x == head + y {
      CancelLeft(head, x, y);
    }
  }

  lemma {:induction false} EmptyGroupChanges(s: string, pending: string, name: string, len: nat)
    requires s != "" && !Literal(s) && ScanItem(s[1..]) == Closed(name, "", len) && OpensGroup(s[1..])
    ensures Print(Lex(s, pending)) != pending + s
  {
    hide Lex, ScanItem, Print;
    var b, head := s[1+len..], pending + ("%" + name);
    PrintLexItem(s, pending, name, "", len);
    ItemText(s[1..]);
    HeadSplits(s, len);
    BracesDoNotComeBack(b);
    PrefixKeepsDifference(head, Print(Lex(b, "")), "{}" + b);
    assert ("%" + name) + "" == "%" + name;
    EmptyGroupText(name, b, s, pending);
  }

  lemma {:induction false} EmptyGroupText(name: string, b: string, s: string, pending: string)
    requires s == "%" + (name + ("{" + "" + "}")) + b
    ensures pending + s == pending + ("%" + name) + ("{}" + b)
  {
    assert "{" + "" + "}" == "{}";
    assert s == "%" + name + "{}" + b;
  }

  lemma {:induction false} ItemKeepsDifference(s: string, pending: string, name: string, fmt: string, len: nat)
    requires s != "" && !Literal(s) && ScanItem(s[1..]) == Closed(name, fmt, len)
    requires OpensGroup(s[1..]) ==> fmt != ""
    requires Print(Lex(s[1+len..], "")) != s[1+len..]
    ensures Print(Lex(s, pending)) != pending + s
  {
    hide Lex, ScanItem, Print;
    var rest, item := s[1+len..], "%" + s[1..][..len];
    PrintLexItem(s, pending, name, fmt, len);
    ItemPrintsItsText(s, name, fmt, len);
    HeadSplits(s, len);
    Assoc(pending, item, rest);
    PrefixKeepsDifference(pending + item, Print(Lex(rest, "")), rest);
  }

  lemma {:induction false} UnfaithfulChanges(s: string, pending: string)
    requires !Faithful(s)
    ensures Print(Lex(s, pending)) != pending + s
    decreases |s|
  {
    hide ScanItem;
    if Literal(s) {
      UnfaithfulChanges(s[1..], pending + s[..1]);
      assert pending + s[..1] + s[1..] == pending + s;
    } else if ScanItem(s[1..]).Unclosed? {
      NothingAfterUnclosed(s[1..]);
      PrintLength(s, pending);
    } else {
      var Closed(name, fmt, len) := ScanItem(s[1..]);
      if OpensGroup(s[1..]) && fmt == "" {
        EmptyGroupChanges(s, pending, name, len);
      } else {
        UnfaithfulChanges(s[1+len..], "");
        assert "" + s[1+len..] == s[1+len..];
        ItemKeepsDifference(s, pending, name, fmt, len);
      }
    }
  }

  /** Printing the parsed token list gives the pattern back, character for character, exactly when the scanner met
      no unclosed and no empty group. */
  lemma {:induction false} PrintAfterParse(p: string)
    ensures Print(Lex(p, "")) == p <==> Faithful(p)
  {
    assert "" + p == p;
    if Faithful(p) {
      FaithfulPrints(p, "");
    } else {
      UnfaithfulChanges(p, "");
    }
  }
}
