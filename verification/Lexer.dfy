/**
 The hand-written lexer of the shell (`capsh/src/lexer.ml`): what it reads from a text, as
 functions on the text still to be read, and the lexer object with its moving position.
 */
module Lexer {
  import opened Text
  import opened Ast

  datatype Token =
    | TIdent(name: string)
    | TStr(s: string)
    | TQuasi(kind: QuasiKind, segs: seq<Seg>)
    | TLParen | TRParen | TLBrace | TRBrace | TComma | TDot | TEq | TColon
    | TEOF

  // ---- trivia ----

  predicate IsBlank(c: char) { c == ' ' || c == '\t' || c == '\r' || c == '\n' }

  /** The rest of the line: the line feed stays. */
  function SkipLine(s: string): (r: string)
    ensures |r| <= |s| && (r != "" ==> r[0] == '\n')
  {
    if s == "" || s[0] == '\n' then s else SkipLine(s[1..])
  }

  function SkipTrivia(s: string): (r: string)
    ensures |r| <= |s|
    decreases |s|
  {
    if s == "" then s
    else if IsBlank(s[0]) then SkipTrivia(s[1..])
    else if s[0] == '#' then SkipTrivia(SkipLine(s[1..]))
    else s
  }

  // ---- results that grow at the front ----

  /** `first` before what was read, if anything was. */
  function Preceded<T>(first: seq<T>, r: Option<(seq<T>, string)>): Option<(seq<T>, string)>
  {
    if r == None then None else Some((first + r.value.0, r.value.1))
  }

  lemma PrecededByNothing<T>(r: Option<(seq<T>, string)>)
    ensures Preceded([], r) == r
  {
    if r.Some? { assert [] + r.value.0 == r.value.0; }
  }

  lemma PrecededTwice<T>(a: seq<T>, b: seq<T>, r: Option<(seq<T>, string)>)
    ensures Preceded(a, Preceded(b, r)) == Preceded(a + b, r)
  {
    if r.Some? { assert a + (b + r.value.0) == (a + b) + r.value.0; }
  }

  // ---- strings ----

  function Unescape(c: char): char { if c == 'n' then '\n' else if c == 't' then '\t' else c }

  /** A string's value and what follows its closing quote. */
  function StrBody(s: string): (r: Option<(string, string)>)
    ensures r.Some? ==> |r.value.1| < |s|
    decreases |s|
  {
    if s == "" then None
    else if s[0] == '"' then Some(("", s[1..]))
    else if s[0] == '\\' then
      if |s| == 1 then None else Preceded([Unescape(s[1])], StrBody(s[2..]))
    else Preceded([s[0]], StrBody(s[1..]))
  }

  lemma EndOfString(b: string, s: string)
    requires s != "" && s[0] == '"'
    ensures Preceded(b, StrBody(s)) == Some((b, s[1..]))
  {
    assert b + "" == b;
  }

  lemma CutString(b: string, s: string)
    requires s == "" || s == "\\"
    ensures Preceded(b, StrBody(s)) == None
  {
    assert s != "" ==> s[0] == '\\' && |s| == 1;
  }

  // ---- names ----

  /** Length of the longest run of name characters. */
  function IdLen(s: string): (n: nat)
    ensures n <= |s| && AllId(s[..n]) && (n < |s| ==> !IsId(s[n]))
  {
    if s == "" || !IsId(s[0]) then 0 else IdLen(s[1..]) + 1
  }

  // ---- templates ----

  function Flush(lit: string): seq<Seg> { if lit == "" then [] else [QLit(lit)] }

  predicate Opens(s: string) { |s| >= 2 && s[0] == '$' && s[1] == '{' }

  /** The segments of a template after `lit` was read, and what follows its closing backtick. */
  function QuasiBody(s: string, lit: string): (r: Option<(seq<Seg>, string)>)
    ensures r.Some? ==> |r.value.1| < |s|
    decreases |s|
  {
    if s == "" then None
    else if s[0] == '`' then Some((Flush(lit), s[1..]))
    else if Opens(s) then
      var n := IdLen(s[2..]);
      if 2 + n >= |s| || s[2 + n] != '}' then None
      else Preceded(Flush(lit) + [QInterp(s[2..2 + n])], QuasiBody(s[3 + n..], ""))
    else QuasiBody(s[1..], lit + [s[0]])
  }

  lemma EndOfQuasi(segs: seq<Seg>, s: string, lit: string)
    requires s != "" && s[0] == '`'
    ensures Preceded(segs, QuasiBody(s, lit)) == Some((segs + Flush(lit), s[1..]))
  {
  }

  lemma CutQuasi(segs: seq<Seg>, s: string, lit: string)
    requires s == ""
    ensures Preceded(segs, QuasiBody(s, lit)) == None
  {
  }

  lemma PlainChar(s: string, lit: string)
    requires s != "" && s[0] != '`' && !Opens(s)
    ensures QuasiBody(s, lit) == QuasiBody(s[1..], lit + [s[0]])
  {
  }

  lemma Interpolation(segs: seq<Seg>, s: string, lit: string)
    requires Opens(s)
    ensures
      var n := IdLen(s[2..]);
      Preceded(segs, QuasiBody(s, lit)) ==
      if 2 + n >= |s| || s[2 + n] != '}' then None
      else Preceded(segs + (Flush(lit) + [QInterp(s[2..2 + n])]), QuasiBody(s[3 + n..], ""))
  {
    var n := IdLen(s[2..]);
    if 2 + n < |s| && s[2 + n] == '}' {
      PrecededTwice(segs, Flush(lit) + [QInterp(s[2..2 + n])], QuasiBody(s[3 + n..], ""));
    }
  }

  function KindOf(name: string): Option<QuasiKind>
  {
    if name == "path" then Some(QPath) else if name == "sh" then Some(QSh) else None
  }

  // ---- tokens ----

  /** A name, or a template when a tag is directly followed by a backtick. */
  function ReadIdent(s: string): (r: Option<(Token, string)>)
    requires s != "" && IsIdStart(s[0])
    ensures r.Some? ==> |r.value.1| < |s| && r.value.0 != TEOF
  {
    var n := IdLen(s);
    var name, rest := s[..n], s[n..];
    if rest != "" && rest[0] == '`' && KindOf(name).Some? then
      var q := QuasiBody(rest[1..], "");
      if q == None then None else Some((TQuasi(KindOf(name).value, q.value.0), q.value.1))
    else Some((TIdent(name), rest))
  }

  function Punctuation(c: char): Option<Token>
  {
    match c
    case '(' => Some(TLParen)
    case ')' => Some(TRParen)
    case '{' => Some(TLBrace)
    case '}' => Some(TRBrace)
    case ',' => Some(TComma)
    case '.' => Some(TDot)
    case ':' => Some(TColon)
    case '=' => Some(TEq)
    case _ => None
  }

  /** The next token and what follows it. */
  function Next(s: string): (r: Option<(Token, string)>)
    ensures r.Some? && r.value.0 != TEOF ==> |r.value.1| < |s|
  {
    var t := SkipTrivia(s);
    if t == "" then Some((TEOF, ""))
    else if t[0] == '"' then
      var r := StrBody(t[1..]);
      if r == None then None else Some((TStr(r.value.0), r.value.1))
    else if Punctuation(t[0]).Some? then Some((Punctuation(t[0]).value, t[1..]))
    else if IsIdStart(t[0]) then ReadIdent(t)
    else None
  }

  function Joined(acc: seq<Token>, r: Option<seq<Token>>): Option<seq<Token>>
  {
    if r == None then None else Some(acc + r.value)
  }

  lemma JoinedTwice(a: seq<Token>, b: seq<Token>, r: Option<seq<Token>>)
    ensures Joined(a, Joined(b, r)) == Joined(a + b, r)
  {
    if r.Some? { assert a + (b + r.value) == (a + b) + r.value; }
  }

  lemma JoinedToNothing(r: Option<seq<Token>>)
    ensures Joined([], r) == r
  {
    if r.Some? { assert [] + r.value == r.value; }
  }

  function Tokenize(s: string): Option<seq<Token>>
    decreases |s|
  {
    match Next(s)
    case None => None
    case Some((t, rest)) =>
      if t == TEOF then Some([TEOF])
      else Joined([t], Tokenize(rest))
  }

  // ---- the lexer object ----

  class LexerState {
    const src: string
    var pos: nat

    ghost predicate Valid() reads this { pos <= |src| }

    ghost function Rest(): string
      requires Valid()
      reads this
    {
      src[pos..]
    }

    constructor (src: string)
      ensures Valid() && this.src == src && Rest() == src
    {
      this.src, pos := src, 0;
    }

    /** `skip_trivia`: blanks, and comments up to the end of their line. */
    method SkipBlanks()
      requires Valid()
      modifies this
      ensures Valid() && Rest() == SkipTrivia(old(Rest())) && pos >= old(pos)
    {
      while pos < |src| && (IsBlank(src[pos]) || src[pos] == '#')
        invariant Valid() && SkipTrivia(Rest()) == SkipTrivia(old(Rest())) && pos >= old(pos)
        decreases |src| - pos
      {
        var comment := src[pos] == '#';
        pos := pos + 1;
        ghost var line := Rest();
        if comment {
          while pos < |src| && src[pos] != '\n'
            invariant Valid() && SkipLine(Rest()) == SkipLine(line) && pos >= old(pos)
            invariant |Rest()| <= |line|
            decreases |src| - pos
          {
            pos := pos + 1;
          }
        }
      }
    }

    /** `read_string`, past the opening quote. */
    method ReadString() returns (r: Option<string>)
      requires Valid()
      modifies this
      ensures Valid()
      ensures (if r.Some? then Some((r.value, Rest())) else None) == StrBody(old(Rest()))
    {
      var b := "";
      PrecededByNothing(StrBody(Rest()));
      while pos < |src|
        invariant Valid() && Preceded(b, StrBody(Rest())) == StrBody(old(Rest()))
        decreases |src| - pos
      {
        hide Preceded;
        ghost var s := Rest();
        var c := src[pos];
        if c == '"' {
          EndOfString(b, s);
          pos := pos + 1;
          return Some(b);
        }
        var k := 1;
        if c == '\\' {
          if pos + 1 == |src| {
            CutString(b, s);
            return None;
          }
          c, k := Unescape(src[pos + 1]), 2;
        }
        PrecededTwice(b, [c], StrBody(s[k..]));
        b := b + [c];
        pos := pos + k;
        assert Rest() == s[k..];
      }
      CutString(b, Rest());
      r := None;
    }

    /** `read_quasi`, past the opening backtick. */
    method ReadQuasi() returns (r: Option<seq<Seg>>)
      requires Valid()
      modifies this
      ensures Valid()
      ensures (if r.Some? then Some((r.value, Rest())) else None) == QuasiBody(old(Rest()), "")
    {
      var segs: seq<Seg>, lit := [], "";
      PrecededByNothing(QuasiBody(Rest(), ""));
      while pos < |src|
        invariant Valid() && Preceded(segs, QuasiBody(Rest(), lit)) == QuasiBody(old(Rest()), "")
        decreases |src| - pos
      {
        hide Preceded, Flush, QuasiBody, IdLen, AllId;
        ghost var s := Rest();
        if src[pos] == '`' {
          EndOfQuasi(segs, s, lit);
          pos := pos + 1;
          return Some(segs + Flush(lit));
        }
        if src[pos] == '$' && pos + 1 < |src| && src[pos + 1] == '{' {
          Interpolation(segs, s, lit);
          var name := ReadInterp();
          if name == None { return None; }
          segs, lit := segs + (Flush(lit) + [QInterp(name.value)]), "";
        } else {
          PlainChar(s, lit);
          lit := lit + [src[pos]];
          pos := pos + 1;
          assert Rest() == s[1..];
        }
      }
      CutQuasi(segs, Rest(), lit);
      r := None;
    }

    /** An interpolation, from its opening to its closing brace. */
    method ReadInterp() returns (name: Option<string>)
      requires Valid() && Opens(Rest())
      modifies this
      ensures Valid()
      ensures
        var s := old(Rest());
        var n := IdLen(s[2..]);
        if 2 + n >= |s| || s[2 + n] != '}' then name == None
        else name == Some(s[2..2 + n]) && Rest() == s[3 + n..]
    {
      hide IdLen, AllId;
      ghost var s := Rest();
      pos := pos + 2;
      assert Rest() == s[2..];
      var id := ReadName();
      if pos == |src| || src[pos] != '}' { return None; }
      pos := pos + 1;
      assert id == s[2..2 + |id|] && Rest() == s[3 + |id|..];
      name := Some(id);
    }

    /** The longest run of name characters. */
    method ReadName() returns (name: string)
      requires Valid()
      modifies this
      ensures Valid() && pos == old(pos) + IdLen(old(Rest())) && name == src[old(pos)..pos]
    {
      name := "";
      while pos < |src| && IsId(src[pos])
        invariant Valid() && pos >= old(pos) && name == src[old(pos)..pos]
        invariant pos + IdLen(Rest()) == old(pos) + IdLen(old(Rest()))
        decreases |src| - pos
      {
        hide AllId;
        ghost var s := Rest();
        name := name + [src[pos]];
        pos := pos + 1;
        assert Rest() == s[1..];
      }
    }

    method ReadIdentifier() returns (t: Option<Token>)
      requires Valid() && pos < |src| && IsIdStart(src[pos])
      modifies this
      ensures Valid()
      ensures (if t.Some? then Some((t.value, Rest())) else None) == ReadIdent(old(Rest()))
    {
      hide AllId, QuasiBody;
      ghost var s := Rest();
      var name := ReadName();
      assert name == s[..IdLen(s)] && Rest() == s[IdLen(s)..];
      if pos < |src| && src[pos] == '`' && KindOf(name).Some? {
        pos := pos + 1;
        var segs := ReadQuasi();
        t := if segs.Some? then Some(TQuasi(KindOf(name).value, segs.value)) else None;
      } else {
        t := Some(TIdent(name));
      }
    }

    /** `next`. */
    method NextToken() returns (t: Option<Token>)
      requires Valid()
      modifies this
      ensures Valid()
      ensures (if t.Some? then Some((t.value, Rest())) else None) == Next(old(Rest()))
    {
      SkipBlanks();
      if pos == |src| { return Some(TEOF); }
      var c := src[pos];
      if c == '"' {
        pos := pos + 1;
        var s := ReadString();
        return if s.Some? then Some(TStr(s.value)) else None;
      }
      if Punctuation(c).Some? {
        pos := pos + 1;
        return Punctuation(c);
      }
      if IsIdStart(c) {
        t := ReadIdentifier();
        return;
      }
      t := None;
    }
  }

  /** `tokenize`: the tokens of a text, the last one being the end of the text. */
  method TokenizeText(src: string) returns (toks: Option<seq<Token>>)
    ensures toks == Tokenize(src)
  {
    var lx := new LexerState(src);
    var acc: seq<Token> := [];
    JoinedToNothing(Tokenize(src));
    while true
      invariant lx.Valid() && Joined(acc, Tokenize(lx.Rest())) == Tokenize(src)
      decreases |lx.Rest()|
    {
      hide Next;
      var t := lx.NextToken();
      if t == None { return None; }
      JoinedTwice(acc, [t.value], Tokenize(lx.Rest()));
      if t.value == TEOF { return Some(acc + [TEOF]); }
      acc := acc + [t.value];
    }
  }
}
