/** What a pattern writes, told from its spelling: literal text as it stands, and for each conversion letter the field of
    the event that it names (src/log.cpp:73-180, 510-536). */
module PatternRendering {
  import opened Pattern
  import opened PatternLaws
  import opened PatternRoundTrip

  function Written(ps: seq<Piece>, level: string, ev: Event): string {
    if ps == [] then ""
    else (match ps[0]
          case Lit(s) => s
          case Fmt(name, fmt, _) => Writes(name, fmt, level, ev)) + Written(ps[1..], level, ev)
  }

  /** For any pattern at all, well-spelled or not. */
  lemma FormatWrites(p: string, level: string, ev: Event)
    ensures Format(p, level, ev) == TokensWritten(Lex(p, ""), level, ev)
  {
    TokensWrite(Lex(p, ""), level, ev);
  }

  lemma {:induction false} TokensOfWritten(ps: seq<Piece>, level: string, ev: Event)
    ensures TokensWritten(TokensOf(ps), level, ev) == Written(ps, level, ev)
  {
    hide Writes;
    if ps != [] {
      TokensOfWritten(ps[1..], level, ev);
      assert TokensOf(ps)[1..] == TokensOf(ps[1..]);
    }
  }

  predicate AllLetters(ps: seq<Piece>) {
    forall x :: x in ps && x.Fmt? ==> IsLetter(x.name)
  }

  lemma {:induction false} TokensOfKnown(ps: seq<Piece>)
    ensures (forall t :: t in TokensOf(ps) ==> Known(t)) <==> AllLetters(ps)
  {
    hide IsLetter, Known;
    if ps != [] {
      TokensOfKnown(ps[1..]);
      var t := if ps[0].Lit? then Text(ps[0].s) else Item(ps[0].name, ps[0].fmt);
      assert TokensOf(ps) == [t] + TokensOf(ps[1..]);
      assert ps == [ps[0]] + ps[1..];
      assert Known(t) <==> (ps[0].Fmt? ==> IsLetter(ps[0].name)) by {
        if ps[0].Fmt? { KnownLetter(ps[0].name, ps[0].fmt); } else { KnownText(ps[0].s); }
      }
    }
  }

  lemma KnownLetter(name: string, fmt: string)
    ensures Known(Item(name, fmt)) <==> IsLetter(name)
  {
    LettersKnown(name);
  }

  lemma KnownText(s: string)
    ensures Known(Text(s))
  {}

  /** The law of the pattern language: a spelled-out pattern writes its texts and the fields its letters name, in order,
      and it is in error exactly when it names something else. */
  lemma FormatSpelled(ps: seq<Piece>, level: string, ev: Event)
    requires WellSpelled(ps)
    ensures Format(Spell(ps), level, ev) == Written(ps, level, ev)
    ensures Broken(Spell(ps)) <==> exists x :: x in ps && x.Fmt? && !IsLetter(x.name)
  {
    hide WellSpelled, Spell;
    ParseAfterPrint(ps, "");
    assert Lex(Spell(ps), "") == TokensOf(ps);
    hide Lex, Known, IsLetter;
    FormatWrites(Spell(ps), level, ev);
    TokensOfWritten(ps, level, ev);
    TokensOfKnown(ps);
  }

  // ---------------------------------------------------------------- cases read off the source

  /** A name stops at the first character that is neither an ASCII letter nor a stray brace. */
  lemma NameCharacters(c: char)
    ensures NameChar(c) <==> 65 <= c as int <= 90 || 97 <= c as int <= 122 || c as int == 125
  {}

  lemma UnclosedScans(p: string, k: nat)
    requires k + 1 < |p| && p[0] == '%' && p[k+1] == '{'
    requires forall j :: 0 < j <= k ==> NameChar(p[j])
    requires forall j :: k + 1 < j < |p| ==> p[j] != '}' && p[j] != '%'
    ensures !Literal(p) && ScanItem(p[1..]).Unclosed? && '%' !in p[1..]
  {
    hide ScanItem;
    ScanGroup(p, 0, 1 + k, |p|);
    assert !NameChar('%');
    forall j | 0 < j < |p| ensures p[j] != '%' {}
  }

  lemma {:induction false} TextLexes(s: string)
    requires '%' !in s
    ensures Lex(s, "") == Flush(s)
  {
    hide ScanItem;
    assert s + "" == s && "" + s == s && PercentsEscaped(s, "");
    LiteralRun(s, "", "");
  }

  lemma LexUnclosed(p: string)
    requires p != "" && !Literal(p) && ScanItem(p[1..]).Unclosed?
    ensures Lex(p, "") == [Text(MARK)] + Lex(p[1..], "") && HasUnclosed(p)
  {}

  /** A group that is never closed: the mark comes first, and everything after the '%' is text. */
  lemma UnclosedWrites(name: string, rest: string, level: string, ev: Event)
    requires forall c :: c in name ==> NameChar(c)
    requires '}' !in rest && '%' !in rest
    ensures Broken("%" + (name + "{" + rest))
    ensures Format("%" + (name + "{" + rest), level, ev) == "<<pattern_error>>" + (name + "{" + rest)
  {
    hide Lex, HasUnclosed, ScanItem, Literal, NameChar;
    var tail := name + "{" + rest;
    var p := "%" + tail;
    assert p[1..] == tail;
    assert forall j :: 0 < j <= |name| ==> p[j] == name[j-1];
    assert forall j :: 1 + |name| < j < |p| ==> p[j] == rest[j-2-|name|];
    UnclosedScans(p, |name|);
    LexUnclosed(p);
    TextLexes(tail);
    RenderingAppend([Text(MARK)], Flush(tail), level, ev);
    RenderingText(MARK, level, ev);
    RenderingText(tail, level, ev);
  }

  lemma FourLetters(a: string, b: string, c: string, d: string)
    requires |a| == |b| == |c| == |d| == 1 && NameChar(a[0]) && NameChar(b[0]) && NameChar(c[0]) && NameChar(d[0])
    ensures var ps := [Fmt(a, "", false), Fmt(b, "", false), Fmt(c, "", false), Fmt(d, "", false)];
      WellSpelled(ps) && Spell(ps) == "%" + a + ("%" + b + ("%" + c + ("%" + d)))
  {
    assert !NameChar('%');
    hide NameChar;
    var p0 := [Fmt(d, "", false)];
    var p1 := [Fmt(c, "", false)] + p0;
    var p2 := [Fmt(b, "", false)] + p1;
    var p3 := [Fmt(a, "", false)] + p2;
    assert p0[1..] == [] && p1[1..] == p0 && p2[1..] == p1 && p3[1..] == p2;
    assert Spell(p0) == "%" + d;
    assert WellSpelled(p0);
    assert WellSpelled(p1);
    assert WellSpelled(p2);
    assert p3 == [Fmt(a, "", false), Fmt(b, "", false), Fmt(c, "", false), Fmt(d, "", false)];
  }

  lemma FourWritten(a: string, b: string, c: string, d: string, level: string, ev: Event)
    requires IsLetter(a) && IsLetter(b) && IsLetter(c) && IsLetter(d)
    ensures Written([Fmt(a, "", false), Fmt(b, "", false), Fmt(c, "", false), Fmt(d, "", false)], level, ev)
            == Writes(a, "", level, ev) + (Writes(b, "", level, ev) + (Writes(c, "", level, ev) + (Writes(d, "", level, ev) + "")))
  {
    hide Writes, IsLetter;
    var p0 := [Fmt(d, "", false)];
    var p1 := [Fmt(c, "", false)] + p0;
    var p2 := [Fmt(b, "", false)] + p1;
    var p3 := [Fmt(a, "", false)] + p2;
    assert p0[1..] == [] && p1[1..] == p0 && p2[1..] == p1 && p3[1..] == p2;
    assert Written(p0, level, ev) == Writes(d, "", level, ev) + "";
    assert Written(p1, level, ev) == Writes(c, "", level, ev) + Written(p0, level, ev);
    assert Written(p2, level, ev) == Writes(b, "", level, ev) + Written(p1, level, ev);
    assert p3 == [Fmt(a, "", false), Fmt(b, "", false), Fmt(c, "", false), Fmt(d, "", false)];
  }

  lemma ShippedFields(level: string, ev: Event)
    ensures Writes("d", "", level, ev) == ev.clock("%Y-%m-%d %H:%M:%S") && Writes("T", "", level, ev) == "\t"
    ensures Writes("m", "", level, ev) == ev.message && Writes("n", "", level, ev) == "\n"
  {}

  /** The pattern of the configuration shipped with the library (bin/conf/log.yml:4). */
  lemma ShippedPattern(level: string, ev: Event)
    ensures !Broken("%d%T%m%n")
    ensures Format("%d%T%m%n", level, ev) == ev.clock("%Y-%m-%d %H:%M:%S") + ("\t" + (ev.message + ("\n" + "")))
  {
    hide Broken, Format, Spell, WellSpelled, Written;
    var ps := [Fmt("d", "", false), Fmt("T", "", false), Fmt("m", "", false), Fmt("n", "", false)];
    FourLetters("d", "T", "m", "n");
    FormatSpelled(ps, level, ev);
    ShippedSpelling();
    FourWritten("d", "T", "m", "n", level, ev);
    ShippedFields(level, ev);
  }

  lemma ShippedSpelling()
    ensures "%" + "d" + ("%" + "T" + ("%" + "m" + ("%" + "n"))) == "%d%T%m%n"
  {}
}
