/** Writing tokens down and reading them back, and what can come out of the lexer at all. */
module LexerLaws {
  import opened Text
  import opened Ast
  import opened Lexer

  /** Tokens the lexer can produce. */
  predicate WfTok(t: Token)
  {
    match t
    case TIdent(name) => LegalName(name)
    case TQuasi(_, segs) => WfSegs(segs)
    case _ => true
  }

  // ---- writing ----

  /** Quotes, backslashes, line feeds and tabs are escaped. */
  function EscapeChar(c: char): string
  {
    if c == '"' || c == '\\' then ['\\', c] else if c == '\n' then "\\n" else if c == '\t' then "\\t" else [c]
  }

  function Escape(s: string): string
  {
    if s == "" then ""
    else EscapeChar(s[0]) + Escape(s[1..])
  }

  function ShowSeg(g: Seg): string
  {
    match g
    case QLit(text) => text
    case QInterp(name) => "${" + name + "}"
  }

  function ShowSegs(segs: seq<Seg>): string
  {
    if segs == [] then "" else ShowSeg(segs[0]) + ShowSegs(segs[1..])
  }

  function Tag(k: QuasiKind): string { match k case QPath => "path" case QSh => "sh" }

  function ShowTok(t: Token): string
  {
    match t
    case TIdent(name) => name
    case TStr(s) => "\"" + (Escape(s) + "\"")
    case TQuasi(k, segs) => Tag(k) + ("`" + (ShowSegs(segs) + "`"))
    case TLParen => "("
    case TRParen => ")"
    case TLBrace => "{"
    case TRBrace => "}"
    case TComma => ","
    case TDot => "."
    case TEq => "="
    case TColon => ":"
    case TEOF => ""
  }

  /** Blanks and finished comments, in any number and order. */
  predicate Trivia(g: string)
    decreases |g|
  {
    || g == ""
    || (IsBlank(g[0]) && Trivia(g[1..]))
    || (g[0] == '#' && SkipLine(g[1..]) != "" && Trivia(SkipLine(g[1..])))
  }

  /** Tokens with trivia before, between and after them. */
  function Layout(ts: seq<Token>, gaps: seq<string>): string
    requires |gaps| == |ts| + 1
  {
    if ts == [] then gaps[0] else gaps[0] + (ShowTok(ts[0]) + Layout(ts[1..], gaps[1..]))
  }

  /** Between two tokens there is something. */
  predicate GoodGaps(ts: seq<Token>, gaps: seq<string>)
  {
    && |gaps| == |ts| + 1
    && (forall i :: 0 <= i < |gaps| ==> Trivia(gaps[i]))
    && forall i :: 0 < i < |ts| ==> gaps[i] != ""
  }

  // ---- reading back ----

  lemma {:induction false} SkipLineGap(a: string, s: string)
    requires SkipLine(a) != ""
    ensures SkipLine(a + s) == SkipLine(a) + s
  {
    if a[0] != '\n' {
      assert (a + s)[1..] == a[1..] + s;
      SkipLineGap(a[1..], s);
    }
  }

  lemma {:induction false} SkipGap(g: string, s: string)
    requires Trivia(g)
    ensures SkipTrivia(g + s) == SkipTrivia(s)
    decreases |g|
  {
    if g == "" {
      assert g + s == s;
    } else {
      assert (g + s)[1..] == g[1..] + s && (g + s)[0] == g[0];
      if IsBlank(g[0]) {
        SkipGap(g[1..], s);
      } else {
        SkipLineGap(g[1..], s);
        SkipGap(SkipLine(g[1..]), s);
      }
    }
  }

  /** One character written down is read as itself. */
  lemma CharBack(c: char, s: string)
    ensures StrBody(EscapeChar(c) + s) == Preceded([c], StrBody(s))
  {
    var e := EscapeChar(c);
    var all := e + s;
    assert all[|e|..] == s && all[0] == e[0];
    if |e| == 2 { assert all[1] == e[1]; }
  }

  lemma {:induction false} StrBack(v: string, rest: string)
    ensures StrBody(Escape(v) + ("\"" + rest)) == Some((v, rest))
    decreases |v|
  {
    hide StrBody, EscapeChar;
    var end := "\"" + rest;
    if v == "" {
      assert Escape(v) + end == end && end[1..] == rest;
      EndOfString("", end);
      PrecededByNothing(StrBody(end));
      assert "" + "" == "";
    } else {
      StrBack(v[1..], rest);
      CharBack(v[0], Escape(v[1..]) + end);
      assert Escape(v) + end == EscapeChar(v[0]) + (Escape(v[1..]) + end);
      assert [v[0]] + v[1..] == v;
    }
  }

  predicate EndsName(rest: string) { rest == "" || !IsId(rest[0]) }

  lemma {:induction false} IdLenOf(n: string, rest: string)
    requires AllId(n) && EndsName(rest)
    ensures IdLen(n + rest) == |n| && (n + rest)[..|n|] == n && (n + rest)[|n|..] == rest
  {
    if n == "" {
      assert n + rest == rest;
    } else {
      assert (n + rest)[1..] == n[1..] + rest;
      IdLenOf(n[1..], rest);
    }
  }

  /** A literal is taken in up to whatever ends it. */
  lemma {:induction false} LitBack(text: string, tail: string, lit: string)
    requires '`' !in text && NoOpening(text) && tail != "" && tail[0] != '{'
    ensures QuasiBody(text + tail, lit) == QuasiBody(tail, lit + text)
    decreases |text|
  {
    if text == "" {
      assert text + tail == tail && lit + text == lit;
    } else {
      var s := text + tail;
      assert s[1..] == text[1..] + tail && s[0] == text[0];
      assert text[0] in text;
      assert !Opens(s);
      PlainChar(s, lit);
      LitBack(text[1..], tail, lit + [text[0]]);
      assert lit + [text[0]] + text[1..] == lit + text;
    }
  }

  lemma {:induction false} FlushFirst(tail: string, text: string)
    requires text != "" && tail != "" && (tail[0] == '`' || Opens(tail))
    ensures QuasiBody(tail, text) == Preceded([QLit(text)], QuasiBody(tail, ""))
  {
    hide IdLen;
    if tail[0] != '`' {
      var n := IdLen(tail[2..]);
      if 2 + n < |tail| && tail[2 + n] == '}' {
        var x := [QInterp(tail[2..2 + n])];
        assert Flush("") + x == x && Flush(text) + x == [QLit(text)] + x;
        PrecededTwice([QLit(text)], x, QuasiBody(tail[3 + n..], ""));
      }
    } else {
      assert [QLit(text)] + [] == [QLit(text)];
    }
  }

  lemma {:induction false} InterpBack(name: string, more: string)
    requires AllId(name)
    ensures QuasiBody("${" + name + "}" + more, "") == Preceded([QInterp(name)], QuasiBody(more, ""))
  {
    var s := "${" + name + "}" + more;
    var rest := "}" + more;
    assert s[2..] == name + rest;
    IdLenOf(name, rest);
    hide IdLen;
    assert s[2..2 + |name|] == name && s[3 + |name|..] == more && s[2 + |name|] == '}';
    assert Flush("") + [QInterp(name)] == [QInterp(name)];
  }

  lemma EmptyQuasi(rest: string)
    ensures QuasiBody("`" + rest, "") == Some(([], rest))
  {
    assert ("`" + rest)[1..] == rest;
  }

  lemma {:induction false} QuasiBack(segs: seq<Seg>, rest: string)
    requires WfSegs(segs)
    ensures QuasiBody(ShowSegs(segs) + ("`" + rest), "") == Some((segs, rest))
    decreases |segs|
  {
    hide QuasiBody, WfSegs, NoOpening, AllId, ShowSeg;
    var close := "`" + rest;
    if segs == [] {
      assert ShowSegs(segs) + close == close;
      EmptyQuasi(rest);
    } else {
      WfTail(segs);
      QuasiBack(segs[1..], rest);
      var tail := ShowSegs(segs[1..]) + close;
      assert ShowSegs(segs) + close == ShowSeg(segs[0]) + tail;
      assert segs == [segs[0]] + segs[1..];
      SegBack(segs, tail, rest);
    }
  }

  lemma {:induction false} SegBack(segs: seq<Seg>, tail: string, rest: string)
    requires WfSegs(segs) && segs != [] && tail == ShowSegs(segs[1..]) + ("`" + rest)
    ensures QuasiBody(ShowSeg(segs[0]) + tail, "") == Preceded([segs[0]], QuasiBody(tail, ""))
  {
    hide QuasiBody, NoOpening, AllId, Preceded;
    assert WfSegAt(segs, 0);
    match segs[0]
    case QInterp(name) => InterpBack(name, tail);
    case QLit(text) =>
      TailStart(segs, tail, rest);
      LitBack(text, tail, "");
      assert "" + text == text;
      FlushFirst(tail, text);
  }

  lemma {:induction false} TailStart(segs: seq<Seg>, tail: string, rest: string)
    requires WfSegs(segs) && segs != [] && segs[0].QLit? && tail == ShowSegs(segs[1..]) + ("`" + rest)
    ensures tail != "" && (tail[0] == '`' || Opens(tail))
  {
    hide WfLit, AllId;
    if |segs| > 1 {
      assert WfSegAt(segs, 0) && segs[1..][0] == segs[1];
      assert ShowSegs(segs[1..]) == ShowSeg(segs[1]) + ShowSegs(segs[1..][1..]);
    }
  }

  lemma {:induction false} WfTail(segs: seq<Seg>)
    requires WfSegs(segs) && segs != []
    ensures WfSegs(segs[1..])
  {
    hide WfLit, AllId;
    var t := segs[1..];
    forall i | 0 <= i < |t| ensures WfSegAt(t, i) {
      assert WfSegAt(segs, i + 1);
    }
  }

  /** What may follow a token. */
  predicate Stops(rest: string) { rest == "" || IsBlank(rest[0]) || rest[0] == '#' }

  lemma {:induction false} IdentBack(name: string, rest: string)
    requires LegalName(name) && Stops(rest)
    ensures ReadIdent(name + rest) == Some((TIdent(name), rest))
  {
    hide QuasiBody;
    IdLenOf(name, rest);
  }

  lemma TagIsName(k: QuasiKind)
    ensures LegalName(Tag(k)) && KindOf(Tag(k)) == Some(k)
  {
  }

  lemma {:induction false} TagBack(tag: string, k: QuasiKind, body: string)
    requires LegalName(tag) && KindOf(tag) == Some(k)
    ensures ReadIdent(tag + ("`" + body)) ==
      var q := QuasiBody(body, "");
      if q == None then None else Some((TQuasi(k, q.value.0), q.value.1))
  {
    hide QuasiBody, KindOf;
    var rest := "`" + body;
    IdLenOf(tag, rest);
    hide IdLen, AllId;
    assert rest[1..] == body;
  }

  lemma {:induction false} TemplateBack(k: QuasiKind, segs: seq<Seg>, rest: string)
    requires WfSegs(segs)
    ensures ReadIdent(Tag(k) + ("`" + (ShowSegs(segs) + "`")) + rest) == Some((TQuasi(k, segs), rest))
  {
    hide QuasiBody, ShowSegs, WfSegs, Tag, ReadIdent, KindOf, LegalName;
    var body := ShowSegs(segs) + ("`" + rest);
    assert Tag(k) + ("`" + (ShowSegs(segs) + "`")) + rest == Tag(k) + ("`" + body);
    TagIsName(k);
    TagBack(Tag(k), k, body);
    QuasiBack(segs, rest);
  }

  /** A name or template is what the lexer dispatches to when it sees a letter. */
  lemma {:induction false} LetterBack(s: string)
    requires s != "" && IsIdStart(s[0])
    ensures Next(s) == ReadIdent(s)
  {
    hide ReadIdent;
  }

  lemma {:induction false} TokenBack(t: Token, rest: string)
    requires WfTok(t) && t != TEOF && Stops(rest)
    ensures Next(ShowTok(t) + rest) == Some((t, rest))
  {
    hide QuasiBody, StrBody, ReadIdent, ShowSegs, Escape, WfSegs, AllId;
    var s := ShowTok(t) + rest;
    match t
    case TIdent(name) =>
      hide Next;
      assert s[0] == name[0];
      LetterBack(s);
      IdentBack(name, rest);
    case TStr(v) =>
      assert s[1..] == Escape(v) + ("\"" + rest);
      StrBack(v, rest);
    case TQuasi(k, segs) =>
      hide Next, Tag;
      TagIsName(k);
      assert s[0] == Tag(k)[0];
      LetterBack(s);
      TemplateBack(k, segs, rest);
    case TLParen | TRParen | TLBrace | TRBrace | TComma | TDot | TEq | TColon =>
      assert s[1..] == rest;
    case TEOF =>
  }

  /** A token written down is read back, whatever trivia comes before it. */
  lemma {:induction false} NextBack(gap: string, t: Token, rest: string)
    requires Trivia(gap) && WfTok(t) && t != TEOF && Stops(rest)
    ensures Next(gap + (ShowTok(t) + rest)) == Some((t, rest))
  {
    hide StrBody, ReadIdent, ShowTok, WfTok, Trivia, SkipTrivia, Stops;
    SkipGap(gap, ShowTok(t) + rest);
    TokenBack(t, rest);
  }

  lemma {:induction false} LayoutStops(ts: seq<Token>, gaps: seq<string>)
    requires GoodGaps(ts, gaps) && (ts != [] ==> gaps[0] != "")
    ensures Stops(Layout(ts, gaps))
  {
    hide ShowTok;
    assert Trivia(gaps[0]);
  }

  lemma {:induction false} NothingLeft(g: string)
    requires Trivia(g)
    ensures Tokenize(g) == Some([TEOF])
  {
    SkipGap(g, "");
    assert g + "" == g;
  }

  /** Any layout of well-formed tokens reads back as those tokens. */
  lemma {:induction false} LayoutBack(ts: seq<Token>, gaps: seq<string>)
    requires GoodGaps(ts, gaps) && forall i :: 0 <= i < |ts| ==> WfTok(ts[i]) && ts[i] != TEOF
    ensures Tokenize(Layout(ts, gaps)) == Some(ts + [TEOF])
    decreases |ts|
  {
    hide Next, ShowTok, WfTok, Trivia, Stops;
    if ts == [] {
      NothingLeft(gaps[0]);
      assert ts + [TEOF] == [TEOF];
    } else {
      var rest := Layout(ts[1..], gaps[1..]);
      LayoutStops(ts[1..], gaps[1..]);
      NextBack(gaps[0], ts[0], rest);
      LayoutBack(ts[1..], gaps[1..]);
      assert [ts[0]] + (ts[1..] + [TEOF]) == ts + [TEOF];
    }
  }

  // ---- what comes out is well formed ----

  /** A literal under way, with `s` still to be read. */
  predicate Pending(lit: string, s: string)
  {
    '`' !in lit && NoOpening(lit) && (lit != "" && lit[|lit| - 1] == '$' && s != "" ==> s[0] != '{')
  }

  lemma {:induction false} PendingMore(lit: string, s: string)
    requires Pending(lit, s) && s != "" && s[0] != '`' && !Opens(s)
    ensures Pending(lit + [s[0]], s[1..])
  {
    var more := lit + [s[0]];
    forall i | 0 <= i < |more| - 1 && more[i] == '$' ensures more[i + 1] != '{' {
      assert i < |lit| && lit[i] == '$';
    }
  }

  lemma PendingNothing(s: string)
    ensures Pending("", s)
  {
  }

  lemma {:induction false} InterpWf(lit: string, name: string, more: seq<Seg>)
    requires (lit != "" ==> WfLit(lit)) && AllId(name) && WfSegs(more)
    ensures WfSegs(Flush(lit) + [QInterp(name)] + more)
  {
    hide WfLit, AllId;
    var k := |Flush(lit)| + 1;
    var all := Flush(lit) + [QInterp(name)] + more;
    forall i | 0 <= i < |all| ensures WfSegAt(all, i) {
      if i >= k { assert WfSegAt(more, i - k); }
    }
  }

  lemma {:induction false} QuasiSound(s: string, lit: string)
    requires Pending(lit, s)
    ensures QuasiBody(s, lit).Some? ==> WfSegs(QuasiBody(s, lit).value.0)
    decreases |s|
  {
    hide AllId;
    if s == "" || s[0] == '`' {
    } else if Opens(s) {
      var n := IdLen(s[2..]);
      hide IdLen, NoOpening, WfSegs;
      if 2 + n < |s| && s[2 + n] == '}' {
        PendingNothing(s[3 + n..]);
        QuasiSound(s[3 + n..], "");
        assert s[2..][..n] == s[2..2 + n];
        var r := QuasiBody(s[3 + n..], "");
        if r.Some? { InterpWf(lit, s[2..2 + n], r.value.0); }
      }
    } else {
      PendingMore(lit, s);
      QuasiSound(s[1..], lit + [s[0]]);
    }
  }

  lemma {:induction false} NextSound(s: string)
    ensures Next(s).Some? ==> WfTok(Next(s).value.0)
  {
    hide StrBody, QuasiBody, AllId, SkipTrivia, KindOf, WfSegs;
    var t := SkipTrivia(s);
    if t != "" && IsIdStart(t[0]) {
      var n := IdLen(t);
      assert n > 0;
      var rest := t[n..];
      if rest != "" { QuasiSound(rest[1..], ""); }
      assert t[..n][0] == t[0];
    }
  }

  /** Well-formed tokens up to the one that marks the end. */
  predicate GoodTokens(ts: seq<Token>)
  {
    && ts != [] && ts[|ts| - 1] == TEOF
    && forall i :: 0 <= i < |ts| - 1 ==> WfTok(ts[i]) && ts[i] != TEOF
  }

  lemma {:induction false} TokenizeSound(s: string)
    ensures Tokenize(s).Some? ==> GoodTokens(Tokenize(s).value)
    decreases |s|
  {
    hide Next, WfTok;
    NextSound(s);
    if Next(s).Some? && Next(s).value.0 != TEOF { TokenizeSound(Next(s).value.1); }
  }
}
