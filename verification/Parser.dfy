/**
 The recursive-descent parser of the shell (`capsh/src/parser.ml`): what it makes of the tokens
 still to be read, and the parser object whose position moves along the token array.
 */
module Parser {
  import opened Text
  import opened Ast
  import opened Lexer
  import opened LexerLaws

  /** Tokens still to be read; the last one marks the end. */
  type Toks = ts: seq<Token> | ts != [] && ts[|ts| - 1] == TEOF witness [TEOF]

  /** A parse error, or a value and the tokens after it. */
  datatype Parsed<T> = Err | Got(v: T, rest: Toks) {
    predicate IsFailure() { Err? }
    function PropagateFailure<U>(): Parsed<U> requires Err? { Err }
    function Extract(): (T, Toks) requires Got? { (v, rest) }
  }

  // ---- what the parser computes ----

  function Expect(ts: Toks, t: Token): (r: Parsed<()>)
    requires t != TEOF
    ensures r.Got? ==> |r.rest| < |ts|
  {
    if ts[0] == t then Got((), ts[1..]) else Err
  }

  function Name(ts: Toks): (r: Parsed<string>)
    ensures r.Got? ==> |r.rest| < |ts|
  {
    if ts[0].TIdent? then Got(ts[0].name, ts[1..]) else Err
  }

  function Str(ts: Toks): (r: Parsed<string>)
    ensures r.Got? ==> |r.rest| < |ts|
  {
    if ts[0].TStr? then Got(ts[0].s, ts[1..]) else Err
  }

  function Expression(ts: Toks): (r: Parsed<Expr>)
    ensures r.Got? ==> |r.rest| < |ts|
    decreases |ts|, 2
  {
    var (e, rest) :- Primary(ts);
    Postfix(e, rest)
  }

  /** The method calls that follow a receiver. */
  function Postfix(recv: Expr, ts: Toks): (r: Parsed<Expr>)
    ensures r.Got? ==> |r.rest| <= |ts|
    decreases |ts|, 0
  {
    if ts[0] != TDot then Got(recv, ts)
    else
      var (m, t1) :- Name(ts[1..]);
      var (_, t2) :- Expect(t1, TLParen);
      var (args, t3) :- Args(t2);
      var (_, t4) :- Expect(t3, TRParen);
      Postfix(EMethod(recv, m, args), t4)
  }

  function Args(ts: Toks): (r: Parsed<List<Expr>>)
    ensures r.Got? ==> |r.rest| <= |ts|
    decreases |ts|, 4
  {
    if ts[0] == TRParen then Got(Nil, ts) else ArgList(ts)
  }

  function ArgList(ts: Toks): (r: Parsed<List<Expr>>)
    ensures r.Got? ==> |r.rest| < |ts|
    decreases |ts|, 3
  {
    var (e, t1) :- Expression(ts);
    if t1[0] != TComma then Got(Cons(e, Nil), t1)
    else
      var (more, t2) :- ArgList(t1[1..]);
      Got(Cons(e, more), t2)
  }

  function Primary(ts: Toks): (r: Parsed<Expr>)
    ensures r.Got? ==> |r.rest| < |ts|
    decreases |ts|, 1
  {
    match ts[0]
    case TStr(s) => Got(EStr(s), ts[1..])
    case TQuasi(k, segs) => Got(EQuasi(k, segs), ts[1..])
    case TLParen =>
      var (e, t1) :- Expression(ts[1..]);
      var (_, t2) :- Expect(t1, TRParen);
      Got(e, t2)
    case TIdent(name) =>
      if name == "grant" then Grant(ts[1..])
      else if ts[1] != TLParen then Got(EVar(name), ts[1..])
      else
        var (args, t1) :- Args(ts[2..]);
        var (_, t2) :- Expect(t1, TRParen);
        Got(ECall(name, args), t2)
    case _ => Err
  }

  function Grant(ts: Toks): (r: Parsed<Expr>)
    ensures r.Got? ==> |r.rest| < |ts|
    decreases |ts|, 0
  {
    if ts[0] == TIdent("dir") then GrantDirectory(ts[1..])
    else if ts[0] == TIdent("sink") then
      var (name, t1) :- Str(ts[1..]);
      Got(EGrantSink(name), t1)
    else if ts[0] == TIdent("command") then GrantCommand(ts[1..])
    else Err
  }

  function GrantDirectory(ts: Toks): (r: Parsed<Expr>)
    ensures r.Got? ==> |r.rest| < |ts|
  {
    var (path, t1) :- Str(ts);
    var (_, t2) :- Expect(t1, TLBrace);
    var (ops, t3) :- OpSet(t2);
    var (_, t4) :- Expect(t3, TRBrace);
    Got(EGrantDir(path, ops), t4)
  }

  function GrantCommand(ts: Toks): (r: Parsed<Expr>)
    ensures r.Got? ==> |r.rest| < |ts|
    decreases |ts|, 0
  {
    if !ts[0].TQuasi? || ts[0].kind != QSh then Err
    else if ts[1] != TLBrace then Got(EGrantCmd(ts[0].segs, Nil), ts[1..])
    else
      var (fields, t1) :- Fields(ts[1..]);
      Got(EGrantCmd(ts[0].segs, fields), t1)
  }

  function Fields(ts: Toks): (r: Parsed<List<Field>>)
    ensures r.Got? ==> |r.rest| < |ts|
    decreases |ts|, 1
  {
    var (_, t1) :- Expect(ts, TLBrace);
    if t1[0] == TRBrace then Got(Nil, t1[1..]) else FieldList(t1)
  }

  function FieldList(ts: Toks): (r: Parsed<List<Field>>)
    ensures r.Got? ==> |r.rest| < |ts|
    decreases |ts|, 0
  {
    var (k, t1) :- Name(ts);
    var (_, t2) :- Expect(t1, TColon);
    var (v, t3) :- Expression(t2);
    if t3[0] == TComma then
      var (more, t4) :- FieldList(t3[1..]);
      Got(Cons(Field(k, v), more), t4)
    else
      var (_, t4) :- Expect(t3, TRBrace);
      Got(Cons(Field(k, v), Nil), t4)
  }

  function OpSet(ts: Toks): (r: Parsed<List<string>>)
    ensures r.Got? ==> |r.rest| <= |ts|
  {
    if ts[0] == TRBrace then Got(Nil, ts) else OpList(ts)
  }

  function OpList(ts: Toks): (r: Parsed<List<string>>)
    ensures r.Got? ==> |r.rest| < |ts|
    decreases |ts|
  {
    var (o, t1) :- Name(ts);
    if t1[0] != TComma then Got(Cons(o, Nil), t1)
    else
      var (more, t2) :- OpList(t1[1..]);
      Got(Cons(o, more), t2)
  }

  function Statement(ts: Toks): (r: Parsed<Stmt>)
    ensures r.Got? ==> |r.rest| < |ts|
    decreases |ts|, 0
  {
    if ts[0] == TIdent("let") then
      var (name, t1) :- Name(ts[1..]);
      var (_, t2) :- Expect(t1, TEq);
      var (e, t3) :- Expression(t2);
      Got(SLet(name, e), t3)
    else if ts[0] == TIdent("confine") then Scope(Confine, ts[1..])
    else if ts[0] == TIdent("spawn") then Scope(Spawn, ts[1..])
    else
      var (e, t1) :- Expression(ts);
      Got(SExpr(e), t1)
  }

  function Scope(kind: ScopeKind, ts: Toks): (r: Parsed<Stmt>)
    ensures r.Got? ==> |r.rest| < |ts|
    decreases |ts|, 0
  {
    var (lbl, t1) :- Str(ts);
    var (_, t2) :- Expect(t1, TIdent("with"));
    var (binds, t3) :- Fields(t2);
    var (_, t4) :- Expect(t3, TLBrace);
    var (body, t5) :- Body(t4);
    Got(SScope(kind, lbl, binds, body), t5)
  }

  /** Statements up to and with the closing brace. */
  function Body(ts: Toks): (r: Parsed<List<Stmt>>)
    ensures r.Got? ==> |r.rest| < |ts|
    decreases |ts|, 1
  {
    if ts[0] == TRBrace then Got(Nil, ts[1..])
    else
      var (s, t1) :- Statement(ts);
      var (more, t2) :- Body(t1);
      Got(Cons(s, more), t2)
  }

  function Statements(ts: Toks): Parsed<Program>
    decreases |ts|
  {
    if ts[0] == TEOF then Got(Nil, ts)
    else
      var (s, t1) :- Statement(ts);
      var (more, t2) :- Statements(t1);
      Got(Cons(s, more), t2)
  }

  /** `parse_program`. */
  function ParseProgram(src: string): Option<Program>
  {
    var toks := Tokenize(src);
    if toks == None then None
    else
      TokenizeSound(src);
      match Statements(toks.value)
      case Err => None
      case Got(p, _) => Some(p)
  }

  // ---- the parser object ----

  /** What a method left behind, in the terms of the functions above. */
  function Outcome<T>(v: Option<T>, rest: Toks): Parsed<T>
  {
    if v.Some? then Got(v.value, rest) else Err
  }

  /** The position never passes the end marker: every read of a token is within the array. */
  class ParserState {
    const toks: Toks
    var p: nat

    ghost predicate Valid() reads this { p < |toks| }

    ghost function Rest(): Toks
      requires Valid()
      reads this
    {
      toks[p..]
    }

    constructor (toks: Toks)
      ensures Valid() && this.toks == toks && Rest() == toks
    {
      this.toks, p := toks, 0;
    }

    method Cur() returns (t: Token)
      requires Valid()
      ensures t == Rest()[0]
    {
      t := toks[p];
    }

    method Advance()
      requires Valid() && Rest()[0] != TEOF
      modifies this
      ensures Valid() && p == old(p) + 1 && Rest() == old(Rest())[1..]
    {
      p := p + 1;
    }

    method ExpectTok(t: Token) returns (ok: Option<()>)
      requires Valid() && t != TEOF
      modifies this
      ensures Valid() && Outcome(ok, Rest()) == Expect(old(Rest()), t)
    {
      var c := Cur();
      if c != t { return None; }
      Advance();
      ok := Some(());
    }

    method ExpectName() returns (n: Option<string>)
      requires Valid()
      modifies this
      ensures Valid() && Outcome(n, Rest()) == Name(old(Rest()))
    {
      var c := Cur();
      if !c.TIdent? { return None; }
      Advance();
      n := Some(c.name);
    }

    method ExpectStr() returns (s: Option<string>)
      requires Valid()
      modifies this
      ensures Valid() && Outcome(s, Rest()) == Str(old(Rest()))
    {
      var c := Cur();
      if !c.TStr? { return None; }
      Advance();
      s := Some(c.s);
    }

    /** `parse_expr`, `parse_postfix`: a primary, then method calls in a loop. */
    method ParseExpr() returns (e: Option<Expr>)
      requires Valid()
      modifies this
      ensures Valid() && Outcome(e, Rest()) == Expression(old(Rest()))
      decreases |Rest()|, 2
    {
      hide Primary, Args, Name, Expect;
      e := ParsePrimary();
      if e == None { return; }
      while toks[p] == TDot
        invariant Valid() && e.Some? && Postfix(e.value, Rest()) == Expression(old(Rest()))
        invariant |Rest()| < |old(Rest())|
        decreases |Rest()|
      {
        Advance();
        var m := ExpectName();
        if m == None { return None; }
        var a := ExpectTok(TLParen);
        if a == None { return None; }
        var args := ParseArgs();
        if args == None { return None; }
        var b := ExpectTok(TRParen);
        if b == None { return None; }
        e := Some(EMethod(e.value, m.value, args.value));
      }
    }

    method ParseArgs() returns (args: Option<List<Expr>>)
      requires Valid()
      modifies this
      ensures Valid() && Outcome(args, Rest()) == Args(old(Rest()))
      decreases |Rest()|, 4
    {
      if toks[p] == TRParen { return Some(Nil); }
      args := ParseArgList();
    }

    method ParseArgList() returns (args: Option<List<Expr>>)
      requires Valid()
      modifies this
      ensures Valid() && Outcome(args, Rest()) == ArgList(old(Rest()))
      decreases |Rest()|, 3
    {
      hide Expression;
      var e := ParseExpr();
      if e == None { return None; }
      if toks[p] != TComma { return Some(Cons(e.value, Nil)); }
      Advance();
      var more := ParseArgList();
      args := if more == None then None else Some(Cons(e.value, more.value));
    }

    method ParsePrimary() returns (e: Option<Expr>)
      requires Valid()
      modifies this
      ensures Valid() && Outcome(e, Rest()) == Primary(old(Rest()))
      decreases |Rest()|, 1
    {
      hide Expression, Args, Grant, Expect;
      var c := Cur();
      match c
      case TStr(s) =>
        Advance();
        return Some(EStr(s));
      case TQuasi(k, segs) =>
        Advance();
        return Some(EQuasi(k, segs));
      case TLParen =>
        Advance();
        e := ParseExpr();
        if e.Some? {
          var a := ExpectTok(TRParen);
          if a == None { e := None; }
        }
      case TIdent(name) =>
        Advance();
        if name == "grant" {
          e := ParseGrant();
          return;
        }
        if toks[p] != TLParen { return Some(EVar(name)); }
        Advance();
        var args := ParseArgs();
        if args == None { return None; }
        var a := ExpectTok(TRParen);
        e := if a == None then None else Some(ECall(name, args.value));
      case _ => return None;
    }

    method ParseGrant() returns (e: Option<Expr>)
      requires Valid()
      modifies this
      ensures Valid() && Outcome(e, Rest()) == Grant(old(Rest()))
      decreases |Rest()|, 0
    {
      hide GrantDirectory, GrantCommand, Str;
      var c := Cur();
      if c == TIdent("dir") {
        Advance();
        e := ParseGrantDir();
      } else if c == TIdent("sink") {
        Advance();
        var name := ExpectStr();
        e := if name == None then None else Some(EGrantSink(name.value));
      } else if c == TIdent("command") {
        Advance();
        e := ParseGrantCmd();
      } else {
        e := None;
      }
    }

    method ParseGrantDir() returns (e: Option<Expr>)
      requires Valid()
      modifies this
      ensures Valid() && Outcome(e, Rest()) == GrantDirectory(old(Rest()))
    {
      hide OpSet, Str, Expect;
      var path := ExpectStr();
      if path == None { return None; }
      var a := ExpectTok(TLBrace);
      if a == None { return None; }
      var ops := ParseOpSet();
      if ops == None { return None; }
      var b := ExpectTok(TRBrace);
      e := if b == None then None else Some(EGrantDir(path.value, ops.value));
    }

    method ParseGrantCmd() returns (e: Option<Expr>)
      requires Valid()
      modifies this
      ensures Valid() && Outcome(e, Rest()) == GrantCommand(old(Rest()))
      decreases |Rest()|, 0
    {
      hide Fields;
      var q := Cur();
      if !q.TQuasi? || q.kind != QSh { return None; }
      Advance();
      if toks[p] != TLBrace { return Some(EGrantCmd(q.segs, Nil)); }
      var fields := ParseFields();
      e := if fields == None then None else Some(EGrantCmd(q.segs, fields.value));
    }

    method ParseFields() returns (fields: Option<List<Field>>)
      requires Valid()
      modifies this
      ensures Valid() && Outcome(fields, Rest()) == Fields(old(Rest()))
      decreases |Rest()|, 1
    {
      hide FieldList;
      var a := ExpectTok(TLBrace);
      if a == None { return None; }
      if toks[p] == TRBrace {
        Advance();
        return Some(Nil);
      }
      fields := ParseFieldList();
    }

    method ParseFieldList() returns (fields: Option<List<Field>>)
      requires Valid()
      modifies this
      ensures Valid() && Outcome(fields, Rest()) == FieldList(old(Rest()))
      decreases |Rest()|, 0
    {
      hide Expression, Name, Expect;
      var k := ExpectName();
      if k == None { return None; }
      var a := ExpectTok(TColon);
      if a == None { return None; }
      var v := ParseExpr();
      if v == None { return None; }
      if toks[p] == TComma {
        Advance();
        var more := ParseFieldList();
        return if more == None then None else Some(Cons(Field(k.value, v.value), more.value));
      }
      var b := ExpectTok(TRBrace);
      fields := if b == None then None else Some(Cons(Field(k.value, v.value), Nil));
    }

    method ParseOpSet() returns (ops: Option<List<string>>)
      requires Valid()
      modifies this
      ensures Valid() && Outcome(ops, Rest()) == OpSet(old(Rest()))
    {
      if toks[p] == TRBrace { return Some(Nil); }
      ops := ParseOpList();
    }

    method ParseOpList() returns (ops: Option<List<string>>)
      requires Valid()
      modifies this
      ensures Valid() && Outcome(ops, Rest()) == OpList(old(Rest()))
      decreases |Rest()|
    {
      var o := ExpectName();
      if o == None { return None; }
      if toks[p] != TComma { return Some(Cons(o.value, Nil)); }
      Advance();
      var more := ParseOpList();
      ops := if more == None then None else Some(Cons(o.value, more.value));
    }

    method ParseStmt() returns (s: Option<Stmt>)
      requires Valid()
      modifies this
      ensures Valid() && Outcome(s, Rest()) == Statement(old(Rest()))
      decreases |Rest()|, 0
    {
      hide Expression, Scope, Name, Expect;
      var c := Cur();
      if c == TIdent("let") {
        Advance();
        var name := ExpectName();
        if name == None { return None; }
        var a := ExpectTok(TEq);
        if a == None { return None; }
        var e := ParseExpr();
        s := if e == None then None else Some(SLet(name.value, e.value));
      } else if c == TIdent("confine") {
        Advance();
        s := ParseScope(Confine);
      } else if c == TIdent("spawn") {
        Advance();
        s := ParseScope(Spawn);
      } else {
        var e := ParseExpr();
        s := if e == None then None else Some(SExpr(e.value));
      }
    }

    method ParseScope(kind: ScopeKind) returns (s: Option<Stmt>)
      requires Valid()
      modifies this
      ensures Valid() && Outcome(s, Rest()) == Scope(kind, old(Rest()))
      decreases |Rest()|, 0
    {
      hide Fields, Body, Str, Expect;
      var lbl := ExpectStr();
      if lbl == None { return None; }
      var a := ExpectTok(TIdent("with"));
      if a == None { return None; }
      var binds := ParseFields();
      if binds == None { return None; }
      var b := ExpectTok(TLBrace);
      if b == None { return None; }
      var body := ParseBody();
      s := if body == None then None else Some(SScope(kind, lbl.value, binds.value, body.value));
    }

    method ParseBody() returns (body: Option<List<Stmt>>)
      requires Valid()
      modifies this
      ensures Valid() && Outcome(body, Rest()) == Body(old(Rest()))
      decreases |Rest()|, 1
    {
      hide Statement;
      if toks[p] == TRBrace {
        Advance();
        return Some(Nil);
      }
      var s := ParseStmt();
      if s == None { return None; }
      var more := ParseBody();
      body := if more == None then None else Some(Cons(s.value, more.value));
    }

    method ParseStmts() returns (prog: Option<Program>)
      requires Valid()
      modifies this
      ensures Valid() && Outcome(prog, Rest()) == Statements(old(Rest()))
      decreases |Rest()|
    {
      hide Statement;
      if toks[p] == TEOF { return Some(Nil); }
      var s := ParseStmt();
      if s == None { return None; }
      var more := ParseStmts();
      prog := if more == None then None else Some(Cons(s.value, more.value));
    }
  }

  /** `parse_program`: lexer and parser run one after the other. */
  method ParseText(src: string) returns (prog: Option<Program>)
    ensures prog == ParseProgram(src)
  {
    var toks := TokenizeText(src);
    if toks == None { return None; }
    TokenizeSound(src);
    var ps := new ParserState(toks.value);
    prog := ps.ParseStmts();
  }
}
