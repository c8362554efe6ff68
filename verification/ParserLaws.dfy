/**
 Writing programs down and parsing them back. The canonical rendering puts the expression of a
 statement in parentheses and always gives a command its braces; it is a list of tokens, and any
 trivia may stand between them.
 */
module ParserLaws {
  import opened Text
  import opened Ast
  import opened Lexer
  import opened LexerLaws
  import opened Parser

  // ---- rendering, in front of the tokens that follow ----

  function PutExpr(e: Expr, rest: Toks): Toks
    decreases e
  {
    match e
    case EStr(s) => [TStr(s)] + rest
    case EQuasi(k, segs) => [TQuasi(k, segs)] + rest
    case EVar(name) => [TIdent(name)] + rest
    case EGrantDir(path, ops) => [TIdent("grant"), TIdent("dir"), TStr(path), TLBrace] + PutOps(ops, [TRBrace] + rest)
    case EGrantSink(name) => [TIdent("grant"), TIdent("sink"), TStr(name)] + rest
    case EGrantCmd(argv, fields) =>
      [TIdent("grant"), TIdent("command"), TQuasi(QSh, argv)] + ([TLBrace] + PutFields(fields, [TRBrace] + rest))
    case EMethod(recv, name, args) => PutExpr(recv, [TDot, TIdent(name), TLParen] + PutArgs(args, [TRParen] + rest))
    case ECall(name, args) => [TIdent(name), TLParen] + PutArgs(args, [TRParen] + rest)
  }

  function PutArgs(args: List<Expr>, rest: Toks): Toks
    decreases args
  {
    match args
    case Nil => rest
    case Cons(e, Nil) => PutExpr(e, rest)
    case Cons(e, more) => PutExpr(e, [TComma] + PutArgs(more, rest))
  }

  function PutFields(fields: List<Field>, rest: Toks): Toks
    decreases fields
  {
    match fields
    case Nil => rest
    case Cons(Field(k, v), Nil) => [TIdent(k), TColon] + PutExpr(v, rest)
    case Cons(Field(k, v), more) => [TIdent(k), TColon] + PutExpr(v, [TComma] + PutFields(more, rest))
  }

  function PutOps(ops: List<string>, rest: Toks): Toks
  {
    match ops
    case Nil => rest
    case Cons(o, Nil) => [TIdent(o)] + rest
    case Cons(o, more) => [TIdent(o), TComma] + PutOps(more, rest)
  }

  function Keyword(kind: ScopeKind): string { match kind case Confine => "confine" case Spawn => "spawn" }

  function PutStmt(s: Stmt, rest: Toks): Toks
    decreases s
  {
    match s
    case SLet(name, e) => [TIdent("let"), TIdent(name), TEq] + ([TLParen] + PutExpr(e, [TRParen] + rest))
    case SExpr(e) => [TLParen] + PutExpr(e, [TRParen] + rest)
    case SScope(kind, lbl, binds, body) =>
      [TIdent(Keyword(kind)), TStr(lbl), TIdent("with")]
      + ([TLBrace] + PutFields(binds, [TRBrace] + ([TLBrace] + PutStmts(body, [TRBrace] + rest))))
  }

  function PutStmts(p: List<Stmt>, rest: Toks): Toks
    decreases p
  {
    match p
    case Nil => rest
    case Cons(s, more) => PutStmt(s, PutStmts(more, rest))
  }

  // ---- reading one token ----

  lemma Drop(a: seq<Token>, rest: Toks)
    ensures (a + rest)[|a|..] == rest
  {
  }

  /** The first token of an expression. */
  lemma {:induction false} FirstOfExpr(e: Expr, rest: Toks)
    ensures
      var t := PutExpr(e, rest)[0];
      t.TStr? || t.TQuasi? || t.TIdent?
    decreases e
  {
    hide PutArgs, PutFields, PutOps;
    if e.EMethod? { FirstOfExpr(e.recv, [TDot, TIdent(e.name), TLParen] + PutArgs(e.args, [TRParen] + rest)); }
  }

  lemma {:induction false} FirstOfStmt(s: Stmt, rest: Toks)
    ensures
      var t := PutStmt(s, rest)[0];
      t == TLParen || t.TIdent?
  {
    hide PutExpr, PutFields, PutStmts;
  }

  // ---- operations and arguments ----

  lemma {:induction false} OpsBack(ops: List<string>, rest: Toks)
    requires rest[0] == TRBrace
    ensures OpSet(PutOps(ops, rest)) == Got(ops, rest)
  {
    if ops.Cons? { OpListBack(ops, rest); }
  }

  lemma {:induction false} OpListBack(ops: List<string>, rest: Toks)
    requires rest[0] == TRBrace && ops.Cons?
    ensures OpList(PutOps(ops, rest)) == Got(ops, rest) && PutOps(ops, rest)[0].TIdent?
    decreases ops
  {
    var ts := PutOps(ops, rest);
    if ops.tail == Nil {
      Drop([TIdent(ops.head)], rest);
    } else {
      OpListBack(ops.tail, rest);
      assert ts[1..][1..] == PutOps(ops.tail, rest);
    }
  }

  /** After an expression is read, the calls that follow it are still to come. */
  lemma {:induction false} ExprBack(e: Expr, rest: Toks)
    requires WfExpr(e) && (e.EVar? ==> rest[0] != TLParen)
    ensures Expression(PutExpr(e, rest)) == Postfix(e, rest)
    decreases e, 1
  {
    if e.EMethod? {
      CallBack(e, rest);
    } else {
      hide Postfix, PutExpr, Primary;
      PrimaryBack(e, rest);
    }
  }

  lemma {:induction false} CallBack(e: Expr, rest: Toks)
    requires WfExpr(e) && e.EMethod?
    ensures Expression(PutExpr(e, rest)) == Postfix(e, rest)
    decreases e, 0
  {
    hide Expression, WfExpr, WfArgs, Postfix, Args, PutArgs;
    var close := [TRParen] + rest;
    var args := PutArgs(e.args, close);
    WfCall(e);
    ExprBack(e.recv, [TDot, TIdent(e.name), TLParen] + args);
    ArgsBack(e.args, close);
    PostfixStep(e.recv, e.name, e.args, args, rest);
  }

  lemma {:induction false} PostfixStep(recv: Expr, m: string, args: List<Expr>, ts: Toks, rest: Toks)
    requires Args(ts) == Got(args, [TRParen] + rest)
    ensures Postfix(recv, [TDot, TIdent(m), TLParen] + ts) == Postfix(EMethod(recv, m, args), rest)
  {
    hide Args;
    var call := [TDot, TIdent(m), TLParen] + ts;
    assert call[1..][1..][1..] == ts && call[1..][0] == TIdent(m) && call[1..][1..][0] == TLParen;
    Drop([TRParen], rest);
  }

  lemma WfCall(e: Expr)
    requires WfExpr(e) && e.EMethod?
    ensures WfExpr(e.recv) && WfArgs(e.args)
  {
  }

  lemma {:induction false} ArgsBack(args: List<Expr>, rest: Toks)
    requires WfArgs(args) && rest[0] == TRParen
    ensures Args(PutArgs(args, rest)) == Got(args, rest)
    decreases args, 1
  {
    hide PutExpr, WfExpr, ArgList;
    if args.Cons? {
      ArgListBack(args, rest);
      FirstOfExpr(args.head, rest);
      if args.tail.Cons? { FirstOfExpr(args.head, [TComma] + PutArgs(args.tail, rest)); }
    }
  }

  lemma {:induction false} ArgListBack(args: List<Expr>, rest: Toks)
    requires WfArgs(args) && rest[0] == TRParen && args.Cons?
    ensures ArgList(PutArgs(args, rest)) == Got(args, rest)
    decreases args, 0
  {
    hide Expression, WfExpr, PutExpr;
    if args.tail == Nil {
      ExprBack(args.head, rest);
    } else {
      var more := PutArgs(args.tail, rest);
      ExprBack(args.head, [TComma] + more);
      Drop([TComma], more);
      ArgListBack(args.tail, rest);
    }
  }

  lemma {:induction false} PrimaryBack(e: Expr, rest: Toks)
    requires WfExpr(e) && !e.EMethod? && (e.EVar? ==> rest[0] != TLParen)
    ensures Primary(PutExpr(e, rest)) == Got(e, rest)
    decreases e, 0
  {
    hide Args, PutArgs, Grant, WfArgs, WfFields, WfNames, PutFields, PutOps, LegalName;
    var ts := PutExpr(e, rest);
    match e
    case EStr(_) => Drop([ts[0]], rest);
    case EQuasi(_, _) => Drop([ts[0]], rest);
    case EVar(_) => Drop([ts[0]], rest);
    case ECall(name, args) =>
      var close := [TRParen] + rest;
      ArgsBack(args, close);
      assert ts[2..] == PutArgs(args, close);
      Drop([TRParen], rest);
    case EGrantDir(path, ops) =>
      DirBack(path, ops, rest);
      assert ts[1..] == [TIdent("dir"), TStr(path), TLBrace] + PutOps(ops, [TRBrace] + rest);
    case EGrantSink(name) =>
      SinkBack(name, rest);
      assert ts[1..] == [TIdent("sink"), TStr(name)] + rest;
    case EGrantCmd(argv, fields) =>
      CommandBack(e, rest);
      assert ts[1..] == [TIdent("command"), TQuasi(QSh, argv)] + ([TLBrace] + PutFields(fields, [TRBrace] + rest));
  }

  lemma {:induction false} DirBack(path: string, ops: List<string>, rest: Toks)
    ensures Grant([TIdent("dir"), TStr(path), TLBrace] + PutOps(ops, [TRBrace] + rest))
         == Got(EGrantDir(path, ops), rest)
  {
    hide OpSet, PutOps;
    var close := [TRBrace] + rest;
    var ts := [TIdent("dir"), TStr(path), TLBrace] + PutOps(ops, close);
    OpsBack(ops, close);
    assert ts[1..][1..][1..] == PutOps(ops, close) && ts[1..][0] == TStr(path) && ts[1..][1..][0] == TLBrace;
    Drop([TRBrace], rest);
  }

  lemma {:induction false} SinkBack(name: string, rest: Toks)
    ensures Grant([TIdent("sink"), TStr(name)] + rest) == Got(EGrantSink(name), rest)
  {
    var ts := [TIdent("sink"), TStr(name)] + rest;
    assert ts[1..][1..] == rest && ts[1..][0] == TStr(name) && ts[0] != TIdent("dir");
  }

  lemma {:induction false} CommandBack(e: Expr, rest: Toks)
    requires WfExpr(e) && e.EGrantCmd?
    ensures Grant([TIdent("command"), TQuasi(QSh, e.argv)] + ([TLBrace] + PutFields(e.fields, [TRBrace] + rest)))
         == Got(e, rest)
    decreases e, -1
  {
    hide Fields, PutFields, WfFields;
    var braces := [TLBrace] + PutFields(e.fields, [TRBrace] + rest);
    var ts := [TIdent("command"), TQuasi(QSh, e.argv)] + braces;
    FieldsBack(e.fields, rest);
    assert ts[1..][1..] == braces && ts[1..][0] == TQuasi(QSh, e.argv) && ts[1..][1] == TLBrace;
    assert ts[0] != TIdent("dir") && ts[0] != TIdent("sink");
  }

  lemma {:induction false} FieldsBack(fields: List<Field>, rest: Toks)
    requires WfFields(fields)
    ensures Fields([TLBrace] + PutFields(fields, [TRBrace] + rest)) == Got(fields, rest)
    decreases fields, 1
  {
    hide FieldList, PutExpr, WfFields;
    var close := [TRBrace] + rest;
    Drop([TLBrace], PutFields(fields, close));
    if fields.Cons? {
      FieldListBack(fields, rest);
    } else {
      Drop([TRBrace], rest);
    }
  }

  lemma {:induction false} FieldListBack(fields: List<Field>, rest: Toks)
    requires WfFields(fields) && fields.Cons?
    ensures FieldList(PutFields(fields, [TRBrace] + rest)) == Got(fields, rest)
    decreases fields, 0
  {
    hide Expression, WfExpr, PutExpr, LegalName;
    var close := [TRBrace] + rest;
    var ts := PutFields(fields, close);
    var v := fields.head.value;
    Drop([TRBrace], rest);
    if fields.tail == Nil {
      assert ts[1..][1..] == PutExpr(v, close) && ts[1..][0] == TColon;
      ExprBack(v, close);
    } else {
      var more := PutFields(fields.tail, close);
      assert ts[1..][1..] == PutExpr(v, [TComma] + more) && ts[1..][0] == TColon;
      ExprBack(v, [TComma] + more);
      Drop([TComma], more);
      FieldListBack(fields.tail, rest);
    }
  }

  // ---- statements ----

  lemma {:induction false} ParensBack(e: Expr, rest: Toks)
    requires WfExpr(e) && rest[0] != TDot
    ensures Expression([TLParen] + PutExpr(e, [TRParen] + rest)) == Got(e, rest)
  {
    hide PutExpr, WfExpr;
    var close := [TRParen] + rest;
    ExprBack(e, close);
    Drop([TLParen], PutExpr(e, close));
    Drop([TRParen], rest);
  }

  lemma {:induction false} StmtBack(s: Stmt, rest: Toks)
    requires WfStmt(s) && rest[0] != TDot
    ensures Statement(PutStmt(s, rest)) == Got(s, rest)
    decreases s, 1
  {
    hide Expression, PutExpr, WfExpr, Scope, PutFields, PutStmts, WfFields, WfProgram, LegalName;
    var ts := PutStmt(s, rest);
    match s
    case SLet(name, e) =>
      var paren := [TLParen] + PutExpr(e, [TRParen] + rest);
      assert ts[1..][1..][1..] == paren && ts[1..][0] == TIdent(name) && ts[1..][1..][0] == TEq;
      ParensBack(e, rest);
    case SExpr(e) => ParensBack(e, rest);
    case SScope(kind, lbl, binds, body) =>
      ScopeBack(s, rest);
      Keywords(kind);
      assert ts[1..] == ScopeTail(s, rest);
  }

  lemma Keywords(kind: ScopeKind)
    ensures Keyword(kind) != "let"
    ensures (Keyword(kind) == "confine" <==> kind == Confine) && (Keyword(kind) == "spawn" <==> kind == Spawn)
  {
  }

  function ScopeTail(s: Stmt, rest: Toks): Toks
    requires s.SScope?
  {
    [TStr(s.lbl), TIdent("with")]
    + ([TLBrace] + PutFields(s.binds, [TRBrace] + ([TLBrace] + PutStmts(s.body, [TRBrace] + rest))))
  }

  lemma {:induction false} ScopeBack(s: Stmt, rest: Toks)
    requires WfStmt(s) && s.SScope?
    ensures Scope(s.kind, ScopeTail(s, rest)) == Got(s, rest)
    decreases s, 0
  {
    hide Fields, PutFields, PutStmts, WfFields, WfProgram, Body;
    var block := [TLBrace] + PutStmts(s.body, [TRBrace] + rest);
    var braces := [TLBrace] + PutFields(s.binds, [TRBrace] + block);
    var ts := ScopeTail(s, rest);
    assert ts[1..][1..] == braces && ts[1..][0] == TIdent("with");
    FieldsBack(s.binds, block);
    Drop([TLBrace], PutStmts(s.body, [TRBrace] + rest));
    BodyBack(s.body, rest);
  }

  lemma {:induction false} FirstOfStmts(p: List<Stmt>, rest: Toks)
    requires rest[0] != TDot
    ensures PutStmts(p, rest)[0] != TDot
    ensures p.Cons? ==> PutStmts(p, rest)[0] != TRBrace && PutStmts(p, rest)[0] != TEOF
  {
    hide PutStmt;
    if p.Cons? { FirstOfStmt(p.head, PutStmts(p.tail, rest)); }
  }

  lemma {:induction false} BodyBack(p: List<Stmt>, rest: Toks)
    requires WfProgram(p)
    ensures Body(PutStmts(p, [TRBrace] + rest)) == Got(p, rest)
    decreases p
  {
    hide Statement, PutStmt, WfStmt;
    var close := [TRBrace] + rest;
    if p == Nil {
      Drop([TRBrace], rest);
    } else {
      FirstOfStmts(p, close);
      FirstOfStmts(p.tail, close);
      StmtBack(p.head, PutStmts(p.tail, close));
      BodyBack(p.tail, rest);
    }
  }

  lemma {:induction false} StatementsBack(p: Program)
    requires WfProgram(p)
    ensures Statements(PutStmts(p, [TEOF])) == Got(p, [TEOF])
    decreases p
  {
    hide Statement, PutStmt, WfStmt;
    if p.Cons? {
      FirstOfStmts(p, [TEOF]);
      FirstOfStmts(p.tail, [TEOF]);
      StmtBack(p.head, PutStmts(p.tail, [TEOF]));
      StatementsBack(p.tail);
    }
  }

  // ---- the tokens of a rendering are well formed ----

  lemma {:induction false} GoodPut(a: seq<Token>, rest: Toks)
    requires GoodTokens(rest) && forall i :: 0 <= i < |a| ==> WfTok(a[i]) && a[i] != TEOF
    ensures GoodTokens(a + rest)
  {
    hide WfTok;
  }

  lemma {:induction false} GoodOps(ops: List<string>, rest: Toks)
    requires WfNames(ops) && GoodTokens(rest)
    ensures GoodTokens(PutOps(ops, rest))
    decreases ops
  {
    hide GoodTokens, LegalName;
    if ops.Cons? {
      GoodPut([TIdent(ops.head)], rest);
      GoodOps(ops.tail, rest);
      GoodPut([TIdent(ops.head), TComma], PutOps(ops.tail, rest));
    }
  }

  lemma {:induction false} GoodExpr(e: Expr, rest: Toks)
    requires WfExpr(e) && GoodTokens(rest)
    ensures GoodTokens(PutExpr(e, rest))
    decreases e
  {
    hide GoodTokens, WfSegs, WfArgs, WfFields, WfNames, PutArgs, PutFields, PutOps;
    match e
    case EStr(s) => GoodPut([TStr(s)], rest);
    case EQuasi(k, segs) => GoodPut([TQuasi(k, segs)], rest);
    case EVar(name) => GoodPut([TIdent(name)], rest);
    case EGrantSink(name) => GoodPut([TIdent("grant"), TIdent("sink"), TStr(name)], rest);
    case EGrantDir(path, ops) =>
      GoodPut([TRBrace], rest);
      GoodOps(ops, [TRBrace] + rest);
      GoodPut([TIdent("grant"), TIdent("dir"), TStr(path), TLBrace], PutOps(ops, [TRBrace] + rest));
    case EGrantCmd(argv, fields) =>
      GoodPut([TRBrace], rest);
      var inner := PutFields(fields, [TRBrace] + rest);
      GoodFields(fields, [TRBrace] + rest);
      GoodPut([TLBrace], inner);
      GoodPut([TIdent("grant"), TIdent("command"), TQuasi(QSh, argv)], [TLBrace] + inner);
    case EMethod(recv, name, args) =>
      GoodPut([TRParen], rest);
      GoodArgs(args, [TRParen] + rest);
      var call := PutArgs(args, [TRParen] + rest);
      GoodPut([TDot, TIdent(name), TLParen], call);
      GoodExpr(recv, [TDot, TIdent(name), TLParen] + call);
    case ECall(name, args) =>
      GoodPut([TRParen], rest);
      GoodArgs(args, [TRParen] + rest);
      GoodPut([TIdent(name), TLParen], PutArgs(args, [TRParen] + rest));
  }

  lemma {:induction false} GoodArgs(args: List<Expr>, rest: Toks)
    requires WfArgs(args) && GoodTokens(rest)
    ensures GoodTokens(PutArgs(args, rest))
    decreases args
  {
    hide GoodTokens, PutExpr, WfExpr;
    if args.Cons? {
      GoodExpr(args.head, rest);
      GoodArgs(args.tail, rest);
      GoodPut([TComma], PutArgs(args.tail, rest));
      GoodExpr(args.head, [TComma] + PutArgs(args.tail, rest));
    }
  }

  lemma {:induction false} GoodFields(fields: List<Field>, rest: Toks)
    requires WfFields(fields) && GoodTokens(rest)
    ensures GoodTokens(PutFields(fields, rest))
    decreases fields
  {
    hide GoodTokens, PutExpr, WfExpr, LegalName;
    if fields.Cons? {
      var Field(k, v) := fields.head;
      GoodExpr(v, rest);
      GoodPut([TIdent(k), TColon], PutExpr(v, rest));
      GoodFields(fields.tail, rest);
      var more := [TComma] + PutFields(fields.tail, rest);
      GoodPut([TComma], PutFields(fields.tail, rest));
      GoodExpr(v, more);
      GoodPut([TIdent(k), TColon], PutExpr(v, more));
    }
  }

  lemma {:induction false} GoodParens(e: Expr, rest: Toks)
    requires WfExpr(e) && GoodTokens(rest)
    ensures GoodTokens([TLParen] + PutExpr(e, [TRParen] + rest))
  {
    hide GoodTokens, PutExpr, WfExpr;
    GoodPut([TRParen], rest);
    GoodExpr(e, [TRParen] + rest);
    GoodPut([TLParen], PutExpr(e, [TRParen] + rest));
  }

  lemma {:induction false} GoodStmt(s: Stmt, rest: Toks)
    requires WfStmt(s) && GoodTokens(rest)
    ensures GoodTokens(PutStmt(s, rest))
    decreases s
  {
    hide GoodTokens, PutExpr, WfExpr, PutFields, WfFields, PutStmts, WfProgram;
    match s
    case SLet(name, e) =>
      GoodParens(e, rest);
      GoodPut([TIdent("let"), TIdent(name), TEq], [TLParen] + PutExpr(e, [TRParen] + rest));
    case SExpr(e) => GoodParens(e, rest);
    case SScope(kind, lbl, binds, body) =>
      GoodPut([TRBrace], rest);
      GoodStmts(body, [TRBrace] + rest);
      var block := [TLBrace] + PutStmts(body, [TRBrace] + rest);
      GoodPut([TLBrace], PutStmts(body, [TRBrace] + rest));
      GoodPut([TRBrace], block);
      GoodFields(binds, [TRBrace] + block);
      var braces := [TLBrace] + PutFields(binds, [TRBrace] + block);
      GoodPut([TLBrace], PutFields(binds, [TRBrace] + block));
      GoodPut([TIdent(Keyword(kind)), TStr(lbl), TIdent("with")], braces);
  }

  lemma {:induction false} GoodStmts(p: List<Stmt>, rest: Toks)
    requires WfProgram(p) && GoodTokens(rest)
    ensures GoodTokens(PutStmts(p, rest))
    decreases p
  {
    hide GoodTokens, PutStmt, WfStmt;
    if p.Cons? {
      GoodStmts(p.tail, rest);
      GoodStmt(p.head, PutStmts(p.tail, rest));
    }
  }

  // ---- what the parser returns is well formed ----

  lemma {:induction false} GoodRest(ts: Toks)
    requires GoodTokens(ts)
    ensures ts[0] != TEOF ==> GoodTokens(ts[1..]) && WfTok(ts[0]) && |ts| > 1 && ts[1..][|ts| - 2] == TEOF
  {
    hide WfTok;
  }

  /** Small readers leave good tokens, and names are legal. */
  lemma {:induction false} ReadSound(ts: Toks, t: Token)
    requires GoodTokens(ts) && t != TEOF
    ensures Expect(ts, t).Got? ==> GoodTokens(Expect(ts, t).rest)
    ensures Name(ts).Got? ==> GoodTokens(Name(ts).rest) && LegalName(Name(ts).v)
    ensures Str(ts).Got? ==> GoodTokens(Str(ts).rest)
  {
    hide GoodTokens, LegalName;
    GoodRest(ts);
  }

  lemma {:induction false} ExpressionSound(ts: Toks)
    requires GoodTokens(ts)
    ensures Expression(ts).Got? ==> WfExpr(Expression(ts).v) && GoodTokens(Expression(ts).rest)
    decreases |ts|, 2
  {
    hide Primary, Postfix, WfExpr, GoodTokens;
    PrimarySound(ts);
    var r := Primary(ts);
    if r.Got? { PostfixSound(r.v, r.rest); }
  }

  lemma {:induction false} PostfixSound(recv: Expr, ts: Toks)
    requires GoodTokens(ts) && WfExpr(recv)
    ensures Postfix(recv, ts).Got? ==> WfExpr(Postfix(recv, ts).v) && GoodTokens(Postfix(recv, ts).rest)
    decreases |ts|, 0
  {
    hide Args, Name, Expect, GoodTokens, WfExpr, WfArgs, LegalName;
    if ts[0] == TDot {
      GoodRest(ts);
      ReadSound(ts[1..], TLParen);
      var m := Name(ts[1..]);
      if m.Got? {
        ReadSound(m.rest, TLParen);
        var a := Expect(m.rest, TLParen);
        if a.Got? {
          ArgsSound(a.rest);
          var args := Args(a.rest);
          if args.Got? {
            ReadSound(args.rest, TRParen);
            var b := Expect(args.rest, TRParen);
            if b.Got? {
              MethodWf(recv, m.v, args.v);
              PostfixSound(EMethod(recv, m.v, args.v), b.rest);
            }
          }
        }
      }
    }
  }

  lemma MethodWf(recv: Expr, m: string, args: List<Expr>)
    requires WfExpr(recv) && LegalName(m) && WfArgs(args)
    ensures WfExpr(EMethod(recv, m, args))
  {
  }

  lemma {:induction false} ArgsSound(ts: Toks)
    requires GoodTokens(ts)
    ensures Args(ts).Got? ==> WfArgs(Args(ts).v) && GoodTokens(Args(ts).rest)
    decreases |ts|, 4
  {
    hide ArgList, GoodTokens;
    if ts[0] != TRParen { ArgListSound(ts); }
  }

  lemma {:induction false} ArgListSound(ts: Toks)
    requires GoodTokens(ts)
    ensures ArgList(ts).Got? ==> WfArgs(ArgList(ts).v) && GoodTokens(ArgList(ts).rest)
    decreases |ts|, 3
  {
    hide Expression, GoodTokens, WfExpr;
    ExpressionSound(ts);
    var e := Expression(ts);
    if e.Got? && e.rest[0] == TComma {
      GoodRest(e.rest);
      ArgListSound(e.rest[1..]);
    }
  }

  lemma {:induction false} PrimarySound(ts: Toks)
    requires GoodTokens(ts)
    ensures Primary(ts).Got? ==> WfExpr(Primary(ts).v) && GoodTokens(Primary(ts).rest)
    decreases |ts|, 1
  {
    hide Expression, Args, Grant, Expect, GoodTokens, LegalName, WfSegs, WfArgs;
    GoodRest(ts);
    match ts[0]
    case TLParen =>
      hide WfExpr;
      ExpressionSound(ts[1..]);
      var e := Expression(ts[1..]);
      if e.Got? { ReadSound(e.rest, TRParen); }
    case TIdent(name) =>
      if name == "grant" {
        GrantSound(ts[1..]);
      } else if ts[1] == TLParen {
        GoodRest(ts[1..]);
        assert ts[1..][1..] == ts[2..];
        ArgsSound(ts[2..]);
        var args := Args(ts[2..]);
        if args.Got? { ReadSound(args.rest, TRParen); }
      }
    case _ =>
  }

  lemma {:induction false} GrantSound(ts: Toks)
    requires GoodTokens(ts)
    ensures Grant(ts).Got? ==> WfExpr(Grant(ts).v) && GoodTokens(Grant(ts).rest)
    decreases |ts|, 0
  {
    hide GrantDirectory, GrantCommand, Str, GoodTokens;
    GoodRest(ts);
    if ts[0] == TIdent("dir") {
      hide WfExpr;
      DirectorySound(ts[1..]);
    } else if ts[0] == TIdent("sink") {
      ReadSound(ts[1..], TLBrace);
    } else if ts[0] == TIdent("command") {
      hide WfExpr;
      CommandSound(ts[1..]);
    }
  }

  lemma {:induction false} DirectorySound(ts: Toks)
    requires GoodTokens(ts)
    ensures GrantDirectory(ts).Got? ==> WfExpr(GrantDirectory(ts).v) && GoodTokens(GrantDirectory(ts).rest)
  {
    hide Str, Expect, OpSet, GoodTokens, WfNames;
    ReadSound(ts, TLBrace);
    var path := Str(ts);
    if path.Got? {
      ReadSound(path.rest, TLBrace);
      var a := Expect(path.rest, TLBrace);
      if a.Got? {
        OpSetSound(a.rest);
        var ops := OpSet(a.rest);
        if ops.Got? { ReadSound(ops.rest, TRBrace); }
      }
    }
  }

  lemma {:induction false} OpSetSound(ts: Toks)
    requires GoodTokens(ts)
    ensures OpSet(ts).Got? ==> WfNames(OpSet(ts).v) && GoodTokens(OpSet(ts).rest)
  {
    hide OpList, GoodTokens;
    OpListSound(ts);
  }

  lemma {:induction false} OpListSound(ts: Toks)
    requires GoodTokens(ts)
    ensures OpList(ts).Got? ==> WfNames(OpList(ts).v) && GoodTokens(OpList(ts).rest)
    decreases |ts|
  {
    hide Name, GoodTokens, LegalName;
    ReadSound(ts, TComma);
    var o := Name(ts);
    if o.Got? && o.rest[0] == TComma {
      GoodRest(o.rest);
      OpListSound(o.rest[1..]);
    }
  }

  lemma {:induction false} CommandSound(ts: Toks)
    requires GoodTokens(ts)
    ensures GrantCommand(ts).Got? ==> WfExpr(GrantCommand(ts).v) && GoodTokens(GrantCommand(ts).rest)
    decreases |ts|, 0
  {
    hide Fields, GoodTokens, WfSegs;
    GoodRest(ts);
    if ts[0].TQuasi? { FieldsSound(ts[1..]); }
  }

  lemma {:induction false} FieldsSound(ts: Toks)
    requires GoodTokens(ts)
    ensures Fields(ts).Got? ==> WfFields(Fields(ts).v) && GoodTokens(Fields(ts).rest)
    decreases |ts|, 1
  {
    hide Expect, FieldList, GoodTokens;
    ReadSound(ts, TLBrace);
    var a := Expect(ts, TLBrace);
    if a.Got? {
      GoodRest(a.rest);
      FieldListSound(a.rest);
    }
  }

  lemma {:induction false} FieldListSound(ts: Toks)
    requires GoodTokens(ts)
    ensures FieldList(ts).Got? ==> WfFields(FieldList(ts).v) && GoodTokens(FieldList(ts).rest)
    decreases |ts|, 0
  {
    hide Name, Expect, Expression, GoodTokens, WfExpr, LegalName;
    ReadSound(ts, TColon);
    var k := Name(ts);
    if k.Got? {
      ReadSound(k.rest, TColon);
      var a := Expect(k.rest, TColon);
      if a.Got? {
        ExpressionSound(a.rest);
        var v := Expression(a.rest);
        if v.Got? {
          ReadSound(v.rest, TRBrace);
          if v.rest[0] == TComma {
            GoodRest(v.rest);
            FieldListSound(v.rest[1..]);
          }
        }
      }
    }
  }

  lemma {:induction false} StatementSound(ts: Toks)
    requires GoodTokens(ts)
    ensures Statement(ts).Got? ==> WfStmt(Statement(ts).v) && GoodTokens(Statement(ts).rest)
    decreases |ts|, 0
  {
    hide Name, Expect, Expression, Scope, GoodTokens, WfExpr, LegalName;
    GoodRest(ts);
    if ts[0] == TIdent("let") {
      ReadSound(ts[1..], TEq);
      var name := Name(ts[1..]);
      if name.Got? {
        ReadSound(name.rest, TEq);
        var a := Expect(name.rest, TEq);
        if a.Got? { ExpressionSound(a.rest); }
      }
    } else if ts[0] == TIdent("confine") {
      ScopeSound(Confine, ts[1..]);
    } else if ts[0] == TIdent("spawn") {
      ScopeSound(Spawn, ts[1..]);
    } else {
      ExpressionSound(ts);
    }
  }

  lemma {:induction false} ScopeSound(kind: ScopeKind, ts: Toks)
    requires GoodTokens(ts)
    ensures Scope(kind, ts).Got? ==> WfStmt(Scope(kind, ts).v) && GoodTokens(Scope(kind, ts).rest)
    decreases |ts|, 0
  {
    hide Str, Expect, Fields, Body, GoodTokens, WfFields, WfProgram;
    ReadSound(ts, TLBrace);
    var lbl := Str(ts);
    if lbl.Got? {
      ReadSound(lbl.rest, TIdent("with"));
      var a := Expect(lbl.rest, TIdent("with"));
      if a.Got? {
        FieldsSound(a.rest);
        var binds := Fields(a.rest);
        if binds.Got? {
          ReadSound(binds.rest, TLBrace);
          var b := Expect(binds.rest, TLBrace);
          if b.Got? { BodySound(b.rest); }
        }
      }
    }
  }

  lemma {:induction false} BodySound(ts: Toks)
    requires GoodTokens(ts)
    ensures Body(ts).Got? ==> WfProgram(Body(ts).v) && GoodTokens(Body(ts).rest)
    decreases |ts|, 1
  {
    hide Statement, GoodTokens, WfStmt;
    GoodRest(ts);
    StatementSound(ts);
    var s := Statement(ts);
    if s.Got? { BodySound(s.rest); }
  }

  lemma {:induction false} StatementsSound(ts: Toks)
    requires GoodTokens(ts)
    ensures Statements(ts).Got? ==> WfProgram(Statements(ts).v)
    decreases |ts|
  {
    hide Statement, GoodTokens, WfStmt;
    StatementSound(ts);
    var s := Statement(ts);
    if s.Got? { StatementsSound(s.rest); }
  }

  // ---- the theorems ----

  /** The canonical tokens of a program, without the end marker. */
  function Render(p: Program): seq<Token>
  {
    var ts := PutStmts(p, [TEOF]);
    ts[..|ts| - 1]
  }

  /** Any layout of a well-formed program's canonical tokens parses back to the program. */
  lemma {:induction false} ParseRoundTrip(p: Program, gaps: seq<string>)
    requires WfProgram(p) && GoodGaps(Render(p), gaps)
    ensures ParseProgram(Layout(Render(p), gaps)) == Some(p)
  {
    hide Tokenize, Layout, PutStmts, WfProgram, WfTok, Statements, GoodGaps;
    var all := PutStmts(p, [TEOF]);
    assert GoodTokens([TEOF]);
    GoodStmts(p, [TEOF]);
    assert all == Render(p) + [TEOF];
    LayoutBack(Render(p), gaps);
    StatementsBack(p);
  }

  /** Every program the parser returns is well formed. */
  lemma {:induction false} ParsedIsWellFormed(src: string)
    ensures ParseProgram(src).Some? ==> WfProgram(ParseProgram(src).value)
  {
    hide Tokenize, Statements, WfProgram, WfTok;
    TokenizeSound(src);
    if Tokenize(src).Some? { StatementsSound(Tokenize(src).value); }
  }

  /** One blank everywhere. */
  function Spaces(n: nat): (gaps: seq<string>)
    ensures |gaps| == n
  {
    seq(n, i => " ")
  }

  /** The trees a source text can denote are exactly the well-formed ones. */
  lemma {:induction false} WellFormedIffParsed(p: Program)
    ensures WfProgram(p) <==> exists src :: ParseProgram(src) == Some(p)
  {
    hide ParseProgram, WfProgram, Render;
    if WfProgram(p) {
      var gaps := Spaces(|Render(p)| + 1);
      assert Trivia(" ");
      ParseRoundTrip(p, gaps);
      assert ParseProgram(Layout(Render(p), gaps)) == Some(p);
    }
    forall src | ParseProgram(src) == Some(p) ensures WfProgram(p) {
      ParsedIsWellFormed(src);
    }
  }
}
