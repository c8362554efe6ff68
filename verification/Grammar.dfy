/**
 The grammar of the shell as a relation, written apart from the parser: which tokens say which tree,
 with any redundant parentheses. Whatever the parser accepts is said by exactly the tokens it read.
 */
module Grammar {
  import opened Text
  import opened Ast
  import opened Lexer
  import opened Parser
  import LexerLaws

  /** `ts` begins with these tokens, and `rest` follows them. */
  predicate Starts(ts: Toks, lead: seq<Token>, rest: Toks) { ts == lead + rest }

  // ---- expressions ----

  /** `ts` is some way of saying `e`, followed by `rest`. */
  ghost predicate SaysExpr(e: Expr, ts: Toks, rest: Toks)
    decreases e, |ts|
  {
    || (ts[0] == TLParen && exists mid: Toks :: SaysExpr(e, ts[1..], mid) && Starts(mid, [TRParen], rest))
    || match e
       case EStr(s) => Starts(ts, [TStr(s)], rest)
       case EQuasi(k, segs) => Starts(ts, [TQuasi(k, segs)], rest)
       case EVar(name) => name != "grant" && Starts(ts, [TIdent(name)], rest)
       case EGrantDir(path, ops) =>
         exists body: Toks, mid: Toks ::
           && Starts(ts, [TIdent("grant"), TIdent("dir"), TStr(path), TLBrace], body) && SaysNames(ops, body, mid)
           && Starts(mid, [TRBrace], rest)
       case EGrantSink(name) => Starts(ts, [TIdent("grant"), TIdent("sink"), TStr(name)], rest)
       case EGrantCmd(argv, fields) =>
         || (fields == Nil && Starts(ts, [TIdent("grant"), TIdent("command"), TQuasi(QSh, argv)], rest))
         || exists body: Toks :: Starts(ts, [TIdent("grant"), TIdent("command"), TQuasi(QSh, argv), TLBrace], body)
              && SaysFields(fields, body, rest)
       case EMethod(recv, m, args) =>
         exists dot: Toks, body: Toks, mid: Toks ::
           && SaysExpr(recv, ts, dot) && Starts(dot, [TDot, TIdent(m), TLParen], body) && SaysArgs(args, body, mid)
           && Starts(mid, [TRParen], rest)
       case ECall(name, args) =>
         exists body: Toks, mid: Toks ::
           && name != "grant" && Starts(ts, [TIdent(name), TLParen], body) && SaysArgs(args, body, mid)
           && Starts(mid, [TRParen], rest)
  }

  ghost predicate SaysArgs(args: List<Expr>, ts: Toks, rest: Toks)
    decreases args, |ts|
  {
    match args
    case Nil => rest == ts
    case Cons(e, Nil) => SaysExpr(e, ts, rest)
    case Cons(e, more) =>
      exists comma: Toks, next: Toks ::
        SaysExpr(e, ts, comma) && Starts(comma, [TComma], next) && SaysArgs(more, next, rest)
  }

  /** Fields, up to and with the closing brace. */
  ghost predicate SaysFields(fields: List<Field>, ts: Toks, rest: Toks)
    decreases fields, |ts|
  {
    match fields
    case Nil => Starts(ts, [TRBrace], rest)
    case Cons(Field(k, v), more) =>
      exists body: Toks, mid: Toks ::
        && Starts(ts, [TIdent(k), TColon], body) && SaysExpr(v, body, mid)
        && if more == Nil then Starts(mid, [TRBrace], rest)
           else exists next: Toks :: Starts(mid, [TComma], next) && SaysFields(more, next, rest)
  }

  ghost predicate SaysNames(names: List<string>, ts: Toks, rest: Toks)
  {
    match names
    case Nil => rest == ts
    case Cons(n, Nil) => Starts(ts, [TIdent(n)], rest)
    case Cons(n, more) => exists next: Toks :: Starts(ts, [TIdent(n), TComma], next) && SaysNames(more, next, rest)
  }

  // ---- statements ----

  function Word(kind: ScopeKind): string { match kind case Confine => "confine" case Spawn => "spawn" }

  ghost predicate SaysStmt(s: Stmt, ts: Toks, rest: Toks)
    decreases s, |ts|
  {
    match s
    case SLet(name, e) =>
      exists body: Toks :: Starts(ts, [TIdent("let"), TIdent(name), TEq], body) && SaysExpr(e, body, rest)
    case SExpr(e) =>
      ts[0] != TIdent("let") && ts[0] != TIdent("confine") && ts[0] != TIdent("spawn") && SaysExpr(e, ts, rest)
    case SScope(kind, lbl, binds, body) =>
      exists fields: Toks, brace: Toks, inner: Toks, close: Toks ::
        && Starts(ts, [TIdent(Word(kind)), TStr(lbl), TIdent("with"), TLBrace], fields)
        && SaysFields(binds, fields, brace) && Starts(brace, [TLBrace], inner) && SaysStmts(body, inner, close)
        && Starts(close, [TRBrace], rest)
  }

  ghost predicate SaysStmts(p: List<Stmt>, ts: Toks, rest: Toks)
    decreases p, |ts|
  {
    match p
    case Nil => rest == ts
    case Cons(s, more) => exists next: Toks :: SaysStmt(s, ts, next) && SaysStmts(more, next, rest)
  }

  // ---- the parser keeps to it ----

  /** One token was read. */
  lemma OneToken(ts: Toks)
    ensures ts[0] != TEOF ==> |ts| > 1 && ts[1..][|ts| - 2] == TEOF && ts == [ts[0]] + ts[1..]
  {
  }

  lemma Two(a: seq<Token>, b: seq<Token>, ts: Toks, mid: Toks, rest: Toks)
    requires Starts(ts, a, mid) && Starts(mid, b, rest)
    ensures Starts(ts, a + b, rest)
  {
    assert a + (b + rest) == (a + b) + rest;
  }

  lemma ReadOne(ts: Toks, t: Token)
    requires t != TEOF
    ensures Expect(ts, t).Got? ==> Starts(ts, [t], Expect(ts, t).rest)
    ensures Name(ts).Got? ==> Starts(ts, [TIdent(Name(ts).v)], Name(ts).rest)
    ensures Str(ts).Got? ==> Starts(ts, [TStr(Str(ts).v)], Str(ts).rest)
  {
    OneToken(ts);
  }

  lemma {:induction false} NamesSaid(ts: Toks)
    ensures OpList(ts).Got? ==> OpList(ts).v.Cons? && SaysNames(OpList(ts).v, ts, OpList(ts).rest)
    decreases |ts|
  {
    hide Name, Starts;
    ReadOne(ts, TComma);
    var o := Name(ts);
    if o.Got? && o.rest[0] == TComma {
      ReadOne(o.rest, TComma);
      FirstIs(o.rest);
      var next: Toks := o.rest[1..];
      NamesSaid(next);
      Two([TIdent(o.v)], [TComma], ts, o.rest, next);
      assert [TIdent(o.v)] + [TComma] == [TIdent(o.v), TComma];
    }
  }

  lemma FirstIs(ts: Toks)
    ensures ts[0] != TEOF ==> |ts| > 1 && ts[1..][|ts| - 2] == TEOF && Starts(ts, [ts[0]], ts[1..])
  {
    OneToken(ts);
  }

  lemma {:induction false} OpSetSaid(ts: Toks)
    ensures OpSet(ts).Got? ==> SaysNames(OpSet(ts).v, ts, OpSet(ts).rest)
  {
    hide OpList;
    NamesSaid(ts);
  }

  lemma {:induction false} ExpressionSaid(ts: Toks)
    ensures Expression(ts).Got? ==> SaysExpr(Expression(ts).v, ts, Expression(ts).rest)
    decreases |ts|, 2
  {
    hide Primary, Postfix, SaysExpr;
    PrimarySaid(ts);
    var r := Primary(ts);
    if r.Got? { PostfixSaid(r.v, ts, r.rest); }
  }

  /** Method calls after a receiver that `ts` says up to `at`. */
  lemma {:induction false} PostfixSaid(recv: Expr, ts: Toks, at: Toks)
    requires SaysExpr(recv, ts, at) && |at| < |ts|
    ensures Postfix(recv, at).Got? ==> SaysExpr(Postfix(recv, at).v, ts, Postfix(recv, at).rest)
    decreases |at|, 0
  {
    hide Args, Name, Expect, SaysExpr, SaysArgs, Starts;
    if at[0] == TDot {
      FirstIs(at);
      var t0: Toks := at[1..];
      ReadOne(t0, TLParen);
      var m := Name(t0);
      if m.Got? {
        ReadOne(m.rest, TLParen);
        var a := Expect(m.rest, TLParen);
        if a.Got? {
          ArgsSaid(a.rest);
          var args := Args(a.rest);
          if args.Got? {
            ReadOne(args.rest, TRParen);
            var b := Expect(args.rest, TRParen);
            if b.Got? {
              Two([TDot], [TIdent(m.v)], at, t0, m.rest);
              Two([TDot] + [TIdent(m.v)], [TLParen], at, m.rest, a.rest);
              assert [TDot] + [TIdent(m.v)] + [TLParen] == [TDot, TIdent(m.v), TLParen];
              MethodSaid(recv, m.v, args.v, ts, at, a.rest, args.rest, b.rest);
              PostfixSaid(EMethod(recv, m.v, args.v), ts, b.rest);
            }
          }
        }
      }
    }
  }

  lemma MethodSaid(recv: Expr, m: string, args: List<Expr>, ts: Toks, dot: Toks, body: Toks, mid: Toks, rest: Toks)
    requires SaysExpr(recv, ts, dot) && Starts(dot, [TDot, TIdent(m), TLParen], body) && SaysArgs(args, body, mid)
    requires Starts(mid, [TRParen], rest)
    ensures SaysExpr(EMethod(recv, m, args), ts, rest)
  {
    hide Starts, SaysArgs;
  }

  lemma {:induction false} ArgsSaid(ts: Toks)
    ensures Args(ts).Got? ==> SaysArgs(Args(ts).v, ts, Args(ts).rest)
    decreases |ts|, 4
  {
    hide ArgList, SaysExpr;
    if ts[0] != TRParen { ArgListSaid(ts); }
  }

  lemma {:induction false} ArgListSaid(ts: Toks)
    ensures ArgList(ts).Got? ==> ArgList(ts).v.Cons? && SaysArgs(ArgList(ts).v, ts, ArgList(ts).rest)
    decreases |ts|, 3
  {
    hide Expression, SaysExpr, Starts;
    ExpressionSaid(ts);
    var e := Expression(ts);
    if e.Got? && e.rest[0] == TComma {
      FirstIs(e.rest);
      ArgListSaid(e.rest[1..]);
    }
  }

  lemma {:induction false} PrimarySaid(ts: Toks)
    ensures Primary(ts).Got? ==> SaysExpr(Primary(ts).v, ts, Primary(ts).rest)
    decreases |ts|, 1
  {
    hide Expression, Args, Grant, Expect, SaysArgs, SaysFields, SaysNames, Starts;
    FirstIs(ts);
    match ts[0]
    case TStr(_) =>
    case TQuasi(_, _) =>
    case TLParen =>
      hide SaysExpr;
      ExpressionSaid(ts[1..]);
      var e := Expression(ts[1..]);
      if e.Got? {
        ReadOne(e.rest, TRParen);
        if Expect(e.rest, TRParen).Got? { ParensSaid(e.v, ts, e.rest, Expect(e.rest, TRParen).rest); }
      }
    case TIdent(name) =>
      if name == "grant" {
        hide SaysExpr;
        GrantSaid(ts);
      } else if ts[1] == TLParen {
        hide SaysExpr;
        CallSaid(ts, name);
      }
    case _ =>
  }

  lemma ParensSaid(e: Expr, ts: Toks, mid: Toks, rest: Toks)
    requires ts[0] == TLParen && SaysExpr(e, ts[1..], mid) && Starts(mid, [TRParen], rest)
    ensures SaysExpr(e, ts, rest)
  {
    hide Starts;
  }

  lemma {:induction false} CallSaid(ts: Toks, name: string)
    requires ts[0] == TIdent(name) && name != "grant" && ts[1] == TLParen
    ensures Primary(ts).Got? ==> SaysExpr(Primary(ts).v, ts, Primary(ts).rest)
    decreases |ts|, 0
  {
    hide Args, Expect, SaysArgs, Starts, Expression, Grant;
    FirstIs(ts);
    FirstIs(ts[1..]);
    assert ts[1..][1..] == ts[2..] && ts[1..][0] == TLParen;
    Two([TIdent(name)], [TLParen], ts, ts[1..], ts[2..]);
    assert [TIdent(name)] + [TLParen] == [TIdent(name), TLParen];
    ArgsSaid(ts[2..]);
    var args := Args(ts[2..]);
    if args.Got? {
      ReadOne(args.rest, TRParen);
      var b := Expect(args.rest, TRParen);
      if b.Got? { CalledSaid(name, args.v, ts, ts[2..], args.rest, b.rest); }
    }
  }

  lemma CalledSaid(name: string, args: List<Expr>, ts: Toks, body: Toks, mid: Toks, rest: Toks)
    requires name != "grant" && Starts(ts, [TIdent(name), TLParen], body) && SaysArgs(args, body, mid)
    requires Starts(mid, [TRParen], rest)
    ensures SaysExpr(ECall(name, args), ts, rest)
  {
    hide Starts, SaysArgs;
  }

  // ---- grants ----

  lemma {:induction false} GrantSaid(ts: Toks)
    requires ts[0] == TIdent("grant")
    ensures Grant(ts[1..]).Got? ==> SaysExpr(Grant(ts[1..]).v, ts, Grant(ts[1..]).rest)
    decreases |ts|, 0
  {
    hide GrantDirectory, GrantCommand, SaysExpr, Starts, Str;
    FirstIs(ts);
    var t1: Toks := ts[1..];
    FirstIs(t1);
    if t1[0] == TIdent("dir") {
      Two([ts[0]], [t1[0]], ts, t1, t1[1..]);
      DirectorySaid(ts, t1[1..]);
    } else if t1[0] == TIdent("sink") {
      Two([ts[0]], [t1[0]], ts, t1, t1[1..]);
      SinkSaid(ts, t1[1..]);
    } else if t1[0] == TIdent("command") {
      Two([ts[0]], [t1[0]], ts, t1, t1[1..]);
      CommandSaid(ts, t1[1..]);
    }
  }

  lemma {:induction false} SinkSaid(ts: Toks, at: Toks)
    requires Starts(ts, [TIdent("grant")] + [TIdent("sink")], at)
    ensures Str(at).Got? ==> SaysExpr(EGrantSink(Str(at).v), ts, Str(at).rest)
  {
    hide Str, Starts;
    ReadOne(at, TLBrace);
    var name := Str(at);
    if name.Got? {
      Two([TIdent("grant")] + [TIdent("sink")], [TStr(name.v)], ts, at, name.rest);
      assert [TIdent("grant")] + [TIdent("sink")] + [TStr(name.v)] == [TIdent("grant"), TIdent("sink"), TStr(name.v)];
    }
  }

  lemma {:induction false} DirectorySaid(ts: Toks, at: Toks)
    requires Starts(ts, [TIdent("grant")] + [TIdent("dir")], at)
    ensures GrantDirectory(at).Got? ==> SaysExpr(GrantDirectory(at).v, ts, GrantDirectory(at).rest)
  {
    hide Str, Expect, OpSet, SaysExpr, SaysNames, Starts;
    ReadOne(at, TLBrace);
    var path := Str(at);
    if path.Got? {
      ReadOne(path.rest, TLBrace);
      var a := Expect(path.rest, TLBrace);
      if a.Got? {
        OpSetSaid(a.rest);
        var ops := OpSet(a.rest);
        if ops.Got? {
          ReadOne(ops.rest, TRBrace);
          var lead := [TIdent("grant")] + [TIdent("dir")];
          Two(lead, [TStr(path.v)], ts, at, path.rest);
          Two(lead + [TStr(path.v)], [TLBrace], ts, path.rest, a.rest);
          assert lead + [TStr(path.v)] + [TLBrace] == [TIdent("grant"), TIdent("dir"), TStr(path.v), TLBrace];
          if Expect(ops.rest, TRBrace).Got? {
            DirSaid(path.v, ops.v, ts, a.rest, ops.rest, Expect(ops.rest, TRBrace).rest);
          }
        }
      }
    }
  }

  lemma DirSaid(path: string, ops: List<string>, ts: Toks, body: Toks, mid: Toks, rest: Toks)
    requires Starts(ts, [TIdent("grant"), TIdent("dir"), TStr(path), TLBrace], body) && SaysNames(ops, body, mid)
    requires Starts(mid, [TRBrace], rest)
    ensures SaysExpr(EGrantDir(path, ops), ts, rest)
  {
    hide Starts, SaysNames;
  }

  lemma {:induction false} CommandSaid(ts: Toks, at: Toks)
    requires Starts(ts, [TIdent("grant")] + [TIdent("command")], at) && |at| < |ts|
    ensures GrantCommand(at).Got? ==> SaysExpr(GrantCommand(at).v, ts, GrantCommand(at).rest)
    decreases |at|, 0
  {
    hide Fields, SaysFields, Starts;
    FirstIs(at);
    if at[0].TQuasi? && at[0].kind == QSh {
      var q := at[0];
      var lead := [TIdent("grant")] + [TIdent("command")];
      Two(lead, [q], ts, at, at[1..]);
      assert lead + [q] == [TIdent("grant"), TIdent("command"), TQuasi(QSh, q.segs)];
      if at[1] == TLBrace {
        FieldsSaid(at[1..]);
        var body := FieldsBody(at[1..]);
        Two(lead + [q], [TLBrace], ts, at[1..], body);
        assert lead + [q] + [TLBrace] == [TIdent("grant"), TIdent("command"), TQuasi(QSh, q.segs), TLBrace];
      }
    }
  }

  /** What follows an opening brace. */
  lemma FieldsBody(ts: Toks) returns (body: Toks)
    requires ts[0] == TLBrace
    ensures Starts(ts, [TLBrace], body) && body == ts[1..]
  {
    OneToken(ts);
    body := ts[1..];
  }

  lemma {:induction false} FieldsSaid(ts: Toks)
    ensures Fields(ts).Got? ==>
      ts[0] == TLBrace && |ts| > 1 && ts[|ts| - 1] == TEOF && SaysFields(Fields(ts).v, ts[1..], Fields(ts).rest)
    decreases |ts|, 1
  {
    hide FieldList, SaysFields;
    OneToken(ts);
    if ts[0] == TLBrace {
      var body: Toks := ts[1..];
      if body[0] == TRBrace {
        NoFieldsSaid(body);
      } else {
        FieldListSaid(body);
      }
    }
  }

  lemma NoFieldsSaid(ts: Toks)
    requires ts[0] == TRBrace
    ensures |ts| > 1 && ts[1..][|ts| - 2] == TEOF && SaysFields(Nil, ts, ts[1..])
  {
    OneToken(ts);
  }

  lemma {:induction false} FieldListSaid(ts: Toks)
    ensures FieldList(ts).Got? ==> FieldList(ts).v.Cons? && SaysFields(FieldList(ts).v, ts, FieldList(ts).rest)
    decreases |ts|, 0
  {
    hide Name, Expect, Expression, SaysExpr, Starts, SaysFields;
    ReadOne(ts, TColon);
    var k := Name(ts);
    if k.Got? {
      ReadOne(k.rest, TColon);
      var a := Expect(k.rest, TColon);
      if a.Got? {
        Two([TIdent(k.v)], [TColon], ts, k.rest, a.rest);
        assert [TIdent(k.v)] + [TColon] == [TIdent(k.v), TColon];
        ExpressionSaid(a.rest);
        var v := Expression(a.rest);
        if v.Got? {
          ReadOne(v.rest, TRBrace);
          if v.rest[0] == TComma {
            FirstIs(v.rest);
            FieldListSaid(v.rest[1..]);
            var more := FieldList(v.rest[1..]);
            if more.Got? { FieldThen(k.v, v.v, more.v, ts, a.rest, v.rest, v.rest[1..], more.rest); }
          } else if Expect(v.rest, TRBrace).Got? {
            LastField(k.v, v.v, ts, a.rest, v.rest, Expect(v.rest, TRBrace).rest);
          }
        }
      }
    }
  }

  lemma FieldThen(k: string, v: Expr, more: List<Field>, ts: Toks, body: Toks, mid: Toks, next: Toks, rest: Toks)
    requires Starts(ts, [TIdent(k), TColon], body) && SaysExpr(v, body, mid) && more.Cons?
    requires Starts(mid, [TComma], next) && SaysFields(more, next, rest)
    ensures SaysFields(Cons(Field(k, v), more), ts, rest)
  {
    hide Starts, SaysExpr;
  }

  lemma LastField(k: string, v: Expr, ts: Toks, body: Toks, mid: Toks, rest: Toks)
    requires Starts(ts, [TIdent(k), TColon], body) && SaysExpr(v, body, mid) && Starts(mid, [TRBrace], rest)
    ensures SaysFields(Cons(Field(k, v), Nil), ts, rest)
  {
    hide Starts, SaysExpr;
  }

  // ---- statements ----

  lemma {:induction false} StatementSaid(ts: Toks)
    ensures Statement(ts).Got? ==> SaysStmt(Statement(ts).v, ts, Statement(ts).rest)
    decreases |ts|, 1
  {
    hide Expression, Scope, SaysExpr, SaysFields, SaysStmts, Starts, Name, Expect;
    FirstIs(ts);
    if ts[0] == TIdent("let") {
      LetSaid(ts);
    } else if ts[0] == TIdent("confine") {
      ScopeSaid(Confine, ts);
    } else if ts[0] == TIdent("spawn") {
      ScopeSaid(Spawn, ts);
    } else {
      ExpressionSaid(ts);
    }
  }

  lemma {:induction false} LetSaid(ts: Toks)
    requires ts[0] == TIdent("let")
    ensures Statement(ts).Got? ==> SaysStmt(Statement(ts).v, ts, Statement(ts).rest)
  {
    hide Expression, Scope, SaysExpr, Starts, Name, Expect;
    FirstIs(ts);
    var t1: Toks := ts[1..];
    ReadOne(t1, TEq);
    var name := Name(t1);
    if name.Got? {
      ReadOne(name.rest, TEq);
      var a := Expect(name.rest, TEq);
      if a.Got? {
        Two([ts[0]], [TIdent(name.v)], ts, t1, name.rest);
        Two([ts[0]] + [TIdent(name.v)], [TEq], ts, name.rest, a.rest);
        assert [ts[0]] + [TIdent(name.v)] + [TEq] == [TIdent("let"), TIdent(name.v), TEq];
        ExpressionSaid(a.rest);
      }
    }
  }

  lemma {:induction false} ScopeSaid(kind: ScopeKind, ts: Toks)
    requires ts[0] == TIdent(Word(kind))
    ensures Scope(kind, ts[1..]).Got? ==> SaysStmt(Scope(kind, ts[1..]).v, ts, Scope(kind, ts[1..]).rest)
    decreases |ts|, 0
  {
    hide Str, Expect, Fields, Body, SaysFields, SaysStmts, SaysStmt, Starts;
    FirstIs(ts);
    var t1: Toks := ts[1..];
    ReadOne(t1, TLBrace);
    var lbl := Str(t1);
    if lbl.Got? {
      ReadOne(lbl.rest, TIdent("with"));
      var a := Expect(lbl.rest, TIdent("with"));
      if a.Got? {
        FieldsSaid(a.rest);
        var binds := Fields(a.rest);
        if binds.Got? {
          var fields := FieldsBody(a.rest);
          ReadOne(binds.rest, TLBrace);
          var brace := Expect(binds.rest, TLBrace);
          if brace.Got? {
            BodySaid(brace.rest);
            ScopeLead(kind, lbl.v, ts, t1, lbl.rest, a.rest, fields);
            if Body(brace.rest).Got? {
              var close: Toks :| SaysStmts(Body(brace.rest).v, brace.rest, close)
                && Starts(close, [TRBrace], Body(brace.rest).rest);
              ScopeParts(kind, lbl.v, binds.v, Body(brace.rest).v, ts, fields, binds.rest, brace.rest, close,
                         Body(brace.rest).rest);
            }
          }
        }
      }
    }
  }

  lemma ScopeLead(kind: ScopeKind, lbl: string, ts: Toks, t1: Toks, t2: Toks, t3: Toks, t4: Toks)
    requires Starts(ts, [TIdent(Word(kind))], t1) && Starts(t1, [TStr(lbl)], t2) && Starts(t2, [TIdent("with")], t3)
    requires Starts(t3, [TLBrace], t4)
    ensures Starts(ts, [TIdent(Word(kind)), TStr(lbl), TIdent("with"), TLBrace], t4)
  {
    hide Starts, Word;
    var a, b, c := [TIdent(Word(kind))], [TStr(lbl)], [TIdent("with")];
    Two(a, b, ts, t1, t2);
    Two(a + b, c, ts, t2, t3);
    Two(a + b + c, [TLBrace], ts, t3, t4);
    assert a + b + c + [TLBrace] == [TIdent(Word(kind)), TStr(lbl), TIdent("with"), TLBrace];
  }

  lemma ScopeParts(kind: ScopeKind, lbl: string, binds: List<Field>, body: List<Stmt>, ts: Toks, fields: Toks,
                   brace: Toks, inner: Toks, close: Toks, rest: Toks)
    requires Starts(ts, [TIdent(Word(kind)), TStr(lbl), TIdent("with"), TLBrace], fields)
    requires SaysFields(binds, fields, brace) && Starts(brace, [TLBrace], inner) && SaysStmts(body, inner, close)
    requires Starts(close, [TRBrace], rest)
    ensures SaysStmt(SScope(kind, lbl, binds, body), ts, rest)
  {
    hide Starts, SaysFields, SaysStmts;
  }

  lemma {:induction false} BodySaid(ts: Toks)
    ensures Body(ts).Got? ==>
      exists close: Toks :: SaysStmts(Body(ts).v, ts, close) && Starts(close, [TRBrace], Body(ts).rest)
    decreases |ts|, 2
  {
    hide Statement, SaysStmt, Starts;
    FirstIs(ts);
    if ts[0] == TRBrace {
      assert SaysStmts(Nil, ts, ts);
    } else {
      StatementSaid(ts);
      var s := Statement(ts);
      if s.Got? {
        BodySaid(s.rest);
        var more := Body(s.rest);
        if more.Got? {
          var close: Toks :| SaysStmts(more.v, s.rest, close) && Starts(close, [TRBrace], more.rest);
          assert SaysStmts(Cons(s.v, more.v), ts, close);
        }
      }
    }
  }

  lemma {:induction false} StatementsSaid(ts: Toks)
    ensures Statements(ts).Got? ==>
      Statements(ts).rest[0] == TEOF && SaysStmts(Statements(ts).v, ts, Statements(ts).rest)
    decreases |ts|
  {
    hide Statement, SaysStmt;
    StatementSaid(ts);
    var s := Statement(ts);
    if s.Got? { StatementsSaid(s.rest); }
  }

  /** What the parser accepts, its tokens say, all of them, up to the end marker. */
  lemma {:induction false} ParsedIsSaid(src: string)
    ensures ParseProgram(src).Some? ==>
      && Tokenize(src).Some? && LexerLaws.GoodTokens(Tokenize(src).value)
      && exists rest: Toks :: rest[0] == TEOF && SaysStmts(ParseProgram(src).value, Tokenize(src).value, rest)
  {
    hide Tokenize, Statements, SaysStmts, LexerLaws.WfTok;
    LexerLaws.TokenizeSound(src);
    if Tokenize(src).Some? { StatementsSaid(Tokenize(src).value); }
  }
}
